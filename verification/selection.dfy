/**
 * The curriculum-selection logic of the main page controller (main.js): the
 * four cascading dropdowns, the toggled list of content elements, and the
 * checks and default texts applied when the form is submitted. The DOM is
 * left out; what a handler reads from it (the dropdown values, the typed
 * topic and intent) is passed in.
 */
module Selection {
  import opened Common
  import opened Store

  // ---------------------------------------------------------------------
  // Selected content elements
  // ---------------------------------------------------------------------

  /** `s.filter(e => e !== x)`: every occurrence of `x` removed, the rest in order. */
  function Without(s: seq<string>, x: string): (r: seq<string>)
    ensures x !in r
    ensures forall y :: y != x ==> (y in r <==> y in s)
    ensures multiset(r) == multiset(s)[x := 0]
  {
    if s == [] then []
    else
      assert s == [s[0]] + s[1..];
      (if s[0] == x then [] else [s[0]]) + Without(s[1..], x)
  }

  /** Filtering distributes over concatenation, so the kept elements keep their order. */
  lemma {:induction false} WithoutConcat(a: seq<string>, b: seq<string>, x: string)
    ensures Without(a + b, x) == Without(a, x) + Without(b, x)
  {
    if a == [] {
      assert a + b == b;
    } else {
      assert (a + b)[0] == a[0] && (a + b)[1..] == a[1..] + b;
      WithoutConcat(a[1..], b, x);
      var h := if a[0] == x then [] else [a[0]];
      assert h + (Without(a[1..], x) + Without(b, x)) == (h + Without(a[1..], x)) + Without(b, x);
    }
  }

  /** Filtering out an element that is not there changes nothing. */
  lemma {:induction false} WithoutAbsent(s: seq<string>, x: string)
    requires x !in s
    ensures Without(s, x) == s
  {
    if s != [] {
      WithoutAbsent(s[1..], x);
    }
  }

  /**
   * The toggle of `toggleElementSelection`: an element that is present is
   * removed wherever it occurs, an absent one is appended at the end.
   */
  function Toggle(s: seq<string>, x: string): (r: seq<string>)
    ensures x in r <==> x !in s
    ensures forall y :: y != x ==> (y in r <==> y in s)
    ensures x !in s ==> r == s + [x]
    ensures x in s ==> r == Without(s, x)
  {
    if x in s then Without(s, x) else s + [x]
  }

  /** Toggling an absent element twice gives back the original list. */
  lemma ToggleTwiceAbsent(s: seq<string>, x: string)
    requires x !in s
    ensures Toggle(Toggle(s, x), x) == s
  {
    WithoutConcat(s, [x], x);
    WithoutAbsent(s, x);
    assert Without([x], x) == [];
  }

  /** Toggling a present element twice moves it, once, to the end. */
  lemma TogglePresentTwice(s: seq<string>, x: string)
    requires x in s
    ensures Toggle(Toggle(s, x), x) == Without(s, x) + [x]
  {
  }

  /** `removeSelectedElement` is idempotent: a second removal finds nothing to remove. */
  lemma RemoveIdempotent(s: seq<string>, x: string)
    ensures Without(Without(s, x), x) == Without(s, x)
  {
    WithoutAbsent(Without(s, x), x);
  }

  /** No element is listed twice. */
  ghost predicate Distinct(s: seq<string>) {
    forall y :: multiset(s)[y] <= 1
  }

  /** Toggling keeps a duplicate-free list duplicate-free. */
  lemma ToggleKeepsDistinct(s: seq<string>, x: string)
    requires Distinct(s)
    ensures Distinct(Toggle(s, x))
  {
    if x !in s {
      assert multiset(s + [x]) == multiset(s) + multiset{x};
    }
  }

  /** The curriculum with the element toggled: only `selectedElements` differs. */
  function ToggleIn(c: Curriculum, x: string): (r: Curriculum)
    ensures r.schoolLevel == c.schoolLevel && r.gradeGroup == c.gradeGroup
    ensures r.subject == c.subject && r.unit == c.unit
    ensures x in r.selectedElements <==> x !in c.selectedElements
  {
    c.(selectedElements := Toggle(c.selectedElements, x))
  }

  /** The curriculum with every occurrence of the element removed: only `selectedElements` differs. */
  function RemoveFrom(c: Curriculum, x: string): (r: Curriculum)
    ensures r.schoolLevel == c.schoolLevel && r.gradeGroup == c.gradeGroup
    ensures r.subject == c.subject && r.unit == c.unit
    ensures x !in r.selectedElements
    ensures forall y :: y != x ==> (y in r.selectedElements <==> y in c.selectedElements)
  {
    c.(selectedElements := Without(c.selectedElements, x))
  }

  /** Clicking a content element: store the curriculum with that element toggled. */
  method ToggleElementSelection(store: DataStore, x: string)
    modifies store
    ensures store.data == old(store.data).(curriculum := ToggleIn(old(store.data.curriculum), x))
    ensures store.emitted == old(store.emitted) + [Event(CurriculumChanged, CurriculumSent(store.GetCurriculum()))]
    ensures store.deliveries == old(store.deliveries) + Calls(store.subscribers, Event(CurriculumChanged, CurriculumSent(store.GetCurriculum())))
    ensures store.subscribers == old(store.subscribers)
  {
    var current := store.GetCurriculum();
    store.SetCurriculum(ToggleIn(current, x));
  }

  /** The tag's remove button: store the curriculum without the element. */
  method RemoveSelectedElement(store: DataStore, x: string)
    modifies store
    ensures store.data == old(store.data).(curriculum := RemoveFrom(old(store.data.curriculum), x))
    ensures store.emitted == old(store.emitted) + [Event(CurriculumChanged, CurriculumSent(store.GetCurriculum()))]
    ensures store.deliveries == old(store.deliveries) + Calls(store.subscribers, Event(CurriculumChanged, CurriculumSent(store.GetCurriculum())))
    ensures store.subscribers == old(store.subscribers)
  {
    var current := store.GetCurriculum();
    store.SetCurriculum(RemoveFrom(current, x));
  }

  /** The store part of `clearContentElements`: the same curriculum with no element selected. */
  method ClearContentElements(store: DataStore)
    modifies store
    ensures store.data == old(store.data).(curriculum := old(store.data.curriculum).(selectedElements := []))
    ensures store.emitted == old(store.emitted) + [Event(CurriculumChanged, CurriculumSent(store.GetCurriculum()))]
    ensures store.deliveries == old(store.deliveries) + Calls(store.subscribers, Event(CurriculumChanged, CurriculumSent(store.GetCurriculum())))
    ensures store.subscribers == old(store.subscribers)
  {
    var current := store.GetCurriculum();
    store.SetCurriculum(current.(selectedElements := []));
  }

  // ---------------------------------------------------------------------
  // Cascading dropdowns
  // ---------------------------------------------------------------------

  /** The four dropdowns, shallowest first. */
  datatype Level = SchoolLevel | GradeGroup | Subject | Unit {
    function Depth(): nat {
      match this
      case SchoolLevel => 0
      case GradeGroup => 1
      case Subject => 2
      case Unit => 3
    }
  }

  /** The values the four `<select>` elements hold when a change handler runs. */
  datatype Dropdowns = Dropdowns(schoolLevel: string, gradeGroup: string, subject: string, unit: string)

  /** The value of the dropdown at depth `k`. */
  function ValueAt(d: Dropdowns, k: nat): string
    requires k < 4
  {
    if k == 0 then d.schoolLevel else if k == 1 then d.gradeGroup else if k == 2 then d.subject else d.unit
  }

  /** The curriculum field at depth `k`. */
  function FieldAt(c: Curriculum, k: nat): Option<string>
    requires k < 4
  {
    if k == 0 then c.schoolLevel else if k == 1 then c.gradeGroup else if k == 2 then c.subject else c.unit
  }

  /**
   * The curriculum a change of dropdown `level` stores: the dropdowns down to
   * `level` keep their values, every deeper one is cleared, no element is selected.
   */
  function AfterChange(level: Level, d: Dropdowns): (c: Curriculum)
    ensures c.selectedElements == []
    ensures forall k :: 0 <= k < 4 ==> FieldAt(c, k) == if k <= level.Depth() then Some(ValueAt(d, k)) else None
  {
    match level
    case SchoolLevel => Curriculum(Some(d.schoolLevel), None, None, None, [])
    case GradeGroup => Curriculum(Some(d.schoolLevel), Some(d.gradeGroup), None, None, [])
    case Subject => Curriculum(Some(d.schoolLevel), Some(d.gradeGroup), Some(d.subject), None, [])
    case Unit => Curriculum(Some(d.schoolLevel), Some(d.gradeGroup), Some(d.subject), Some(d.unit), [])
  }

  /** Whether a change handler first clears the content elements (the unit handler only when a value is blank). */
  predicate ClearsFirst(level: Level, d: Dropdowns) {
    level != Unit || d.schoolLevel == "" || d.gradeGroup == "" || d.subject == "" || d.unit == ""
  }

  /**
   * A dropdown's change handler: clear the content elements when it does,
   * then store `AfterChange(level, d)`; each store write emits 'curriculum-changed'.
   */
  method OnDropdownChange(store: DataStore, level: Level, d: Dropdowns)
    modifies store
    ensures store.data == old(store.data).(curriculum := AfterChange(level, d))
    ensures store.emitted == old(store.emitted)
      + (if ClearsFirst(level, d)
         then [Event(CurriculumChanged, CurriculumSent(old(store.data.curriculum).(selectedElements := [])))]
         else [])
      + [Event(CurriculumChanged, CurriculumSent(AfterChange(level, d)))]
    ensures store.deliveries == old(store.deliveries)
      + (if ClearsFirst(level, d)
         then Calls(store.subscribers, Event(CurriculumChanged, CurriculumSent(old(store.data.curriculum).(selectedElements := []))))
         else [])
      + Calls(store.subscribers, Event(CurriculumChanged, CurriculumSent(AfterChange(level, d))))
    ensures store.subscribers == old(store.subscribers)
  {
    if ClearsFirst(level, d) {
      ClearContentElements(store);
    }
    store.SetCurriculum(AfterChange(level, d));
  }

  // ---------------------------------------------------------------------
  // Form submission
  // ---------------------------------------------------------------------

  /** What the submit handler reads from the page: the four dropdowns and the two text boxes. */
  datatype FormInput = FormInput(dropdowns: Dropdowns, experimentTopic: string, teacherIntent: string)

  /** Why a submission is refused. */
  datatype SubmitError = CurriculumIncomplete | NoElementSelected

  /** The alert shown for each refusal. */
  function ErrorMessage(e: SubmitError): string {
    match e
    case CurriculumIncomplete => "교육과정 정보를 모두 선택해주세요."
    case NoElementSelected => "내용 요소를 하나 이상 선택해주세요."
  }

  /** The topic used when the topic box is blank. */
  function DefaultTopic(selected: seq<string>): string {
    Join(selected, ", ") + " 관련 실험"
  }

  /** The teaching intent used when the intent box is blank. */
  function DefaultIntent(selected: seq<string>): string {
    Join(selected, ", ") + "에 대한 이해를 높이기 위한 실험"
  }

  /** Whether some dropdown is blank. */
  predicate CurriculumMissing(d: Dropdowns) {
    d.schoolLevel == "" || d.gradeGroup == "" || d.subject == "" || d.unit == ""
  }

  /**
   * The checks and defaults of `handleFormSubmit`: a blank dropdown, then an
   * empty element list, refuse the submission; a blank topic or intent is
   * replaced by a text built from the selected elements, anything else is kept as typed.
   */
  function PrepareSubmission(input: FormInput, selected: seq<string>, referenceContent: string): (r: Result<Submission, SubmitError>)
    ensures r.Err? <==> CurriculumMissing(input.dropdowns) || selected == []
    ensures r == Err(CurriculumIncomplete) <==> CurriculumMissing(input.dropdowns)
    ensures r.Ok? ==> CurriculumOf(r.value) == AfterChange(Unit, input.dropdowns).(selectedElements := selected)
    ensures r.Ok? ==> r.value.referenceContent == referenceContent
    ensures r.Ok? ==> r.value.experimentTopic
                      == if IsBlank(input.experimentTopic) then DefaultTopic(selected) else input.experimentTopic
    ensures r.Ok? ==> r.value.teacherIntent
                      == if IsBlank(input.teacherIntent) then DefaultIntent(selected) else input.teacherIntent
  {
    var d := input.dropdowns;
    if d.schoolLevel == "" || d.gradeGroup == "" || d.subject == "" || d.unit == "" then Err(CurriculumIncomplete)
    else if |selected| == 0 then Err(NoElementSelected)
    else
      var topic := if Trim(input.experimentTopic) == "" then DefaultTopic(selected) else input.experimentTopic;
      var intent := if Trim(input.teacherIntent) == "" then DefaultIntent(selected) else input.teacherIntent;
      Ok(Submission(Some(d.schoolLevel), Some(d.gradeGroup), Some(d.subject), Some(d.unit), selected,
                    topic, intent, referenceContent))
  }

  /** With both boxes left empty and one element selected, the defaults name that element. */
  lemma DefaultTextForOneElement(d: Dropdowns, element: string)
    requires !CurriculumMissing(d)
    ensures var r := PrepareSubmission(FormInput(d, "", ""), [element], "");
            && r.Ok?
            && r.value.experimentTopic == element + " 관련 실험"
            && r.value.teacherIntent == element + "에 대한 이해를 높이기 위한 실험"
  {
    var r := PrepareSubmission(FormInput(d, "", ""), [element], "");
    assert IsBlank("");
    assert r.Ok?;
    assert Join([element], ", ") == element;
    assert r.value.experimentTopic == DefaultTopic([element]);
    assert r.value.teacherIntent == DefaultIntent([element]);
  }

  /**
   * The submit handler: refused submissions show their alert and leave the
   * store untouched; accepted ones go to `submitForm`.
   */
  method HandleFormSubmit(store: DataStore, input: FormInput) returns (alert: Option<string>)
    modifies store
    ensures var r := PrepareSubmission(input, old(store.data.curriculum.selectedElements),
                                       old(store.data.formData.referenceContent));
            && (r.Err? ==> alert == Some(ErrorMessage(r.error)) && store.data == old(store.data)
                           && store.emitted == old(store.emitted) && store.deliveries == old(store.deliveries))
            && (r.Ok? ==> alert == None && store.GetCompleteFormData() == r.value
                          && store.data == old(store.data).(curriculum := CurriculumOf(r.value),
                                                            formData := FormDataOf(r.value))
                          && store.emitted == old(store.emitted) + SubmitEvents(r.value)
                          && store.deliveries == old(store.deliveries) + Fanout(store.subscribers, SubmitEvents(r.value)))
    ensures store.subscribers == old(store.subscribers)
  {
    var r := PrepareSubmission(input, store.GetCurriculum().selectedElements, store.GetFormData().referenceContent);
    match r
    case Err(e) =>
      alert := Some(ErrorMessage(e));
    case Ok(s) =>
      store.SubmitForm(s);
      alert := None;
  }
}
