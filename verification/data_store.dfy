/**
 * The central store shared by the tabs (shared/data-store.js): one state
 * record with three slots (curriculum, form data, generated content), a
 * registry of event subscribers, and setters that overwrite a slot and then
 * emit named events.
 *
 * Handlers are opaque code. A handler is modelled by an id and by the set of
 * payloads on which it throws; `Emit` records one `Delivery` per handler call
 * in `deliveries`, and every emitted event is recorded in `emitted`, so that
 * "which events, in which order, reaching whom" is part of the state.
 */
module Store {
  import opened Common

  /** The curriculum selection: four cascading dropdown values and the chosen content elements. */
  datatype Curriculum = Curriculum(
    schoolLevel: Option<string>,
    gradeGroup: Option<string>,
    subject: Option<string>,
    unit: Option<string>,
    selectedElements: seq<string>)

  /** The free-text part of the form. */
  datatype FormData = FormData(experimentTopic: string, teacherIntent: string, referenceContent: string)

  /** One search result as the video-search provider returns it. */
  datatype Video = Video(videoId: string, title: string, channelTitle: string, thumbnailUrl: string, publishedAt: string)

  /** Generated content: experiment and template text (absent until generated) and the video list. */
  datatype Content = Content(experiment: Option<string>, template: Option<string>, videos: seq<Video>)

  /** The store's whole state record. */
  datatype StoreData = StoreData(curriculum: Curriculum, formData: FormData, content: Content)

  /** The flat record a form submission carries: every curriculum field and every form field. */
  datatype Submission = Submission(
    schoolLevel: Option<string>,
    gradeGroup: Option<string>,
    subject: Option<string>,
    unit: Option<string>,
    selectedElements: seq<string>,
    experimentTopic: string,
    teacherIntent: string,
    referenceContent: string)

  /** What an event carries to its handlers (`Nothing` stands for `undefined`). */
  datatype Payload =
    | Nothing
    | CurriculumSent(curriculum: Curriculum)
    | FormDataSent(formData: FormData)
    | TextSent(text: string)
    | VideosSent(videos: seq<Video>)
    | SubmissionSent(submission: Submission)

  /** A subscribed callback: its identity and the payloads on which it throws. */
  datatype Handler = Handler(id: nat, failsOn: set<Payload>)

  /** One call of a handler by `emit`; `threw` records an exception that `emit` caught and logged. */
  datatype Delivery = Delivery(handler: nat, event: string, payload: Payload, threw: bool)

  /** One call of `emit`. */
  datatype Event = Event(name: string, payload: Payload)

  type Registry = map<string, seq<Handler>>

  const EmptyCurriculum := Curriculum(None, None, None, None, [])
  const EmptyFormData := FormData("", "", "")
  const EmptyContent := Content(None, None, [])

  /** The state the constructor builds and `reset` restores. */
  function InitialData(): StoreData {
    StoreData(EmptyCurriculum, EmptyFormData, EmptyContent)
  }

  // ---------------------------------------------------------------------
  // Subscriber registry and delivery, as functions
  // ---------------------------------------------------------------------

  /** The handlers registered for `event`, in registration order (none if the event is unknown). */
  function Registered(subs: Registry, event: string): seq<Handler> {
    if event in subs then subs[event] else []
  }

  /** The registry after `subscribe(event, handler)`. */
  function Subscribed(subs: Registry, event: string, handler: Handler): (r: Registry)
    ensures Registered(r, event) == Registered(subs, event) + [handler]
    ensures forall e :: e != event ==> Registered(r, e) == Registered(subs, e)
    ensures r.Keys == subs.Keys + {event}
  {
    subs[event := Registered(subs, event) + [handler]]
  }

  /**
   * The calls `emit(event, payload)` makes: each registered handler exactly
   * once, in registration order, whether or not an earlier one threw.
   */
  function Deliver(hs: seq<Handler>, event: string, payload: Payload): (r: seq<Delivery>)
    ensures |r| == |hs|
    ensures forall i :: 0 <= i < |hs| ==> r[i] == Delivery(hs[i].id, event, payload, payload in hs[i].failsOn)
  {
    if hs == [] then []
    else [Delivery(hs[0].id, event, payload, payload in hs[0].failsOn)] + Deliver(hs[1..], event, payload)
  }

  /** Extending the handler list by one extends the calls by that handler's call. */
  lemma DeliverSnoc(hs: seq<Handler>, h: Handler, event: string, payload: Payload)
    ensures Deliver(hs + [h], event, payload)
         == Deliver(hs, event, payload) + [Delivery(h.id, event, payload, payload in h.failsOn)]
  {
    var a := Deliver(hs + [h], event, payload);
    var b := Deliver(hs, event, payload) + [Delivery(h.id, event, payload, payload in h.failsOn)];
    assert |a| == |b|;
    forall i | 0 <= i < |a| ensures a[i] == b[i] {
      if i < |hs| { assert (hs + [h])[i] == hs[i]; }
    }
  }

  /** The handler calls made by emitting `events` one after another against registry `subs`. */
  function Fanout(subs: Registry, events: seq<Event>): seq<Delivery>
  {
    if events == [] then []
    else Deliver(Registered(subs, events[0].name), events[0].name, events[0].payload) + Fanout(subs, events[1..])
  }

  /** Emitting two batches of events in sequence makes the calls of the first batch, then of the second. */
  lemma {:induction false} FanoutAppend(subs: Registry, a: seq<Event>, b: seq<Event>)
    ensures Fanout(subs, a + b) == Fanout(subs, a) + Fanout(subs, b)
  {
    if a != [] {
      assert (a + b)[0] == a[0] && (a + b)[1..] == a[1..] + b;
      FanoutAppend(subs, a[1..], b);
      var first := Deliver(Registered(subs, a[0].name), a[0].name, a[0].payload);
      Assoc(first, Fanout(subs, a[1..]), Fanout(subs, b));
    } else {
      assert a + b == b;
    }
  }

  /** The `forEach` of `emit`: calls each handler in turn; one that throws is logged and the rest still run. */
  method CallEach(hs: seq<Handler>, event: string, payload: Payload) returns (calls: seq<Delivery>)
    ensures calls == Deliver(hs, event, payload)
  {
    calls := [];
    var i := 0;
    while i < |hs|
      invariant 0 <= i <= |hs|
      invariant calls == Deliver(hs[..i], event, payload)
    {
      var h := hs[i];
      var threw := payload in h.failsOn;
      assert hs[..i + 1] == hs[..i] + [h];
      DeliverSnoc(hs[..i], h, event, payload);
      calls := calls + [Delivery(h.id, event, payload, threw)];
      i := i + 1;
    }
    assert hs[..i] == hs;
  }

  /** The calls an event makes to the handlers of a registry. */
  function Calls(subs: Registry, e: Event): seq<Delivery> {
    Deliver(Registered(subs, e.name), e.name, e.payload)
  }

  /** Emitting two events makes the calls of the first, then those of the second. */
  lemma FanoutTwo(subs: Registry, a: Event, b: Event)
    ensures Fanout(subs, [a, b]) == Calls(subs, a) + Calls(subs, b)
  {
    assert [a, b][1..] == [b];
    assert [b][1..] == [];
    assert Fanout(subs, [b]) == Calls(subs, b) + [];
  }

  /** Emitting three events makes the calls of each in turn. */
  lemma FanoutThree(subs: Registry, a: Event, b: Event, c: Event)
    ensures Fanout(subs, [a, b, c]) == Calls(subs, a) + Calls(subs, b) + Calls(subs, c)
  {
    assert [a, b, c][1..] == [b, c];
    FanoutTwo(subs, b, c);
  }

  /** An event nobody subscribed to reaches no handler. */
  lemma UnsubscribedEventReachesNobody(subs: Registry, e: Event)
    requires e.name !in subs
    ensures Fanout(subs, [e]) == []
  {
    assert [e][1..] == [];
  }

  /** A handler subscribed last to an event is called last, after every earlier subscriber. */
  lemma SubscribeThenEmit(subs: Registry, e: Event, h: Handler)
    ensures Calls(Subscribed(subs, e.name, h), e)
         == Calls(subs, e) + [Delivery(h.id, e.name, e.payload, e.payload in h.failsOn)]
  {
    DeliverSnoc(Registered(subs, e.name), h, e.name, e.payload);
  }

  // ---------------------------------------------------------------------
  // The flat submission record
  // ---------------------------------------------------------------------

  /** The curriculum half of a submission (what `submitForm` hands to `setCurriculum`). */
  function CurriculumOf(s: Submission): Curriculum {
    Curriculum(s.schoolLevel, s.gradeGroup, s.subject, s.unit, s.selectedElements)
  }

  /** The form half of a submission (what `submitForm` hands to `setFormData`). */
  function FormDataOf(s: Submission): FormData {
    FormData(s.experimentTopic, s.teacherIntent, s.referenceContent)
  }

  /** `{...curriculum, ...formData}`: every curriculum field and every form field. */
  function Combine(c: Curriculum, f: FormData): (r: Submission)
    ensures CurriculumOf(r) == c && FormDataOf(r) == f
  {
    Submission(c.schoolLevel, c.gradeGroup, c.subject, c.unit, c.selectedElements,
               f.experimentTopic, f.teacherIntent, f.referenceContent)
  }

  /** Splitting a submission and merging the halves gives the submission back. */
  lemma CombineSplit(s: Submission)
    ensures Combine(CurriculumOf(s), FormDataOf(s)) == s
  {
  }

  // ---------------------------------------------------------------------
  // Event names and payloads
  // ---------------------------------------------------------------------

  const CurriculumChanged := "curriculum-changed"
  const FormDataChanged := "form-data-changed"
  const ExperimentGenerated := "experiment-generated"
  const ExperimentChanged := "experiment-changed"
  const TemplateGenerated := "template-generated"
  const TemplateChanged := "template-changed"
  const VideosUpdated := "videos-updated"
  const DataReset := "data-reset"
  const NewExperimentStarted := "new-experiment-started"
  const FormSubmitted := "form-submitted"

  /** The events `submitForm(s)` emits, in order. */
  function SubmitEvents(s: Submission): seq<Event> {
    [Event(CurriculumChanged, CurriculumSent(CurriculumOf(s))),
     Event(FormDataChanged, FormDataSent(FormDataOf(s))),
     Event(FormSubmitted, SubmissionSent(s))]
  }

  /** The three emits of `submitForm`, one after another, add its events and their fan-out to the traces. */
  lemma SubmitTraces(t0: seq<Event>, d0: seq<Delivery>, subs: Registry, s: Submission)
    ensures var e := SubmitEvents(s);
            && t0 + [e[0]] + [e[1]] + [e[2]] == t0 + e
            && d0 + Calls(subs, e[0]) + Calls(subs, e[1]) + Calls(subs, e[2]) == d0 + Fanout(subs, e)
  {
    var e := SubmitEvents(s);
    assert e == [e[0], e[1], e[2]];
    FanoutThree(subs, e[0], e[1], e[2]);
    Regroup(t0, [e[0]], [e[1]], [e[2]]);
    Regroup(d0, Calls(subs, e[0]), Calls(subs, e[1]), Calls(subs, e[2]));
  }

  // ---------------------------------------------------------------------
  // The store object
  // ---------------------------------------------------------------------

  class DataStore {
    var data: StoreData
    var subscribers: Registry
    /** Every `emit` call so far, in order. */
    var emitted: seq<Event>
    /** Every handler call so far, in order. */
    var deliveries: seq<Delivery>

    constructor ()
      ensures data == InitialData() && subscribers == map[]
      ensures emitted == [] && deliveries == []
    {
      data := InitialData();
      subscribers := map[];
      emitted := [];
      deliveries := [];
    }

    /** Appends `handler` to the end of `event`'s list, creating the list first if needed. */
    method Subscribe(event: string, handler: Handler)
      modifies this
      ensures subscribers == Subscribed(old(subscribers), event, handler)
      ensures data == old(data) && emitted == old(emitted) && deliveries == old(deliveries)
    {
      if event !in subscribers {
        subscribers := subscribers[event := []];
      }
      subscribers := subscribers[event := subscribers[event] + [handler]];
    }

    /** Calls every handler of `event` once, in order; a throwing handler is logged and the loop goes on. */
    method Emit(event: string, payload: Payload)
      modifies this
      ensures emitted == old(emitted) + [Event(event, payload)]
      ensures deliveries == old(deliveries) + Calls(subscribers, Event(event, payload))
      ensures data == old(data) && subscribers == old(subscribers)
    {
      emitted := emitted + [Event(event, payload)];
      var calls := CallEach(Registered(subscribers, event), event, payload);
      deliveries := deliveries + calls;
    }

    function GetCurriculum(): Curriculum
      reads this
    {
      data.curriculum
    }

    function GetFormData(): FormData
      reads this
    {
      data.formData
    }

    function GetExperiment(): Option<string>
      reads this
    {
      data.content.experiment
    }

    function GetTemplate(): Option<string>
      reads this
    {
      data.content.template
    }

    function GetVideos(): seq<Video>
      reads this
    {
      data.content.videos
    }

    /** `getCompleteFormData`: the current curriculum fields followed by the current form fields. */
    function GetCompleteFormData(): (r: Submission)
      reads this
      ensures CurriculumOf(r) == data.curriculum && FormDataOf(r) == data.formData
    {
      Combine(data.curriculum, data.formData)
    }

    /** Replaces the curriculum slot and emits only 'curriculum-changed' with it. */
    method SetCurriculum(c: Curriculum)
      modifies this
      ensures data == old(data).(curriculum := c) && GetCurriculum() == c
      ensures emitted == old(emitted) + [Event(CurriculumChanged, CurriculumSent(c))]
      ensures deliveries == old(deliveries) + Calls(subscribers, Event(CurriculumChanged, CurriculumSent(c)))
      ensures subscribers == old(subscribers)
    {
      data := data.(curriculum := c);
      Emit(CurriculumChanged, CurriculumSent(c));
    }

    /** Replaces the form slot and emits only 'form-data-changed' with it. */
    method SetFormData(f: FormData)
      modifies this
      ensures data == old(data).(formData := f) && GetFormData() == f
      ensures emitted == old(emitted) + [Event(FormDataChanged, FormDataSent(f))]
      ensures deliveries == old(deliveries) + Calls(subscribers, Event(FormDataChanged, FormDataSent(f)))
      ensures subscribers == old(subscribers)
    {
      data := data.(formData := f);
      Emit(FormDataChanged, FormDataSent(f));
    }

    /** Stores the experiment text, then emits 'experiment-generated' and 'experiment-changed' with it. */
    method SetExperiment(x: string)
      modifies this
      ensures data == old(data).(content := old(data).content.(experiment := Some(x)))
      ensures GetExperiment() == Some(x)
      ensures emitted == old(emitted) + [Event(ExperimentGenerated, TextSent(x)), Event(ExperimentChanged, TextSent(x))]
      ensures deliveries == old(deliveries)
        + Fanout(subscribers, [Event(ExperimentGenerated, TextSent(x)), Event(ExperimentChanged, TextSent(x))])
      ensures subscribers == old(subscribers)
    {
      data := data.(content := data.content.(experiment := Some(x)));
      Emit(ExperimentGenerated, TextSent(x));
      Emit(ExperimentChanged, TextSent(x));
      FanoutTwo(subscribers, Event(ExperimentGenerated, TextSent(x)), Event(ExperimentChanged, TextSent(x)));
    }

    /** Stores the template text, then emits 'template-generated' and 'template-changed' with it. */
    method SetTemplate(x: string)
      modifies this
      ensures data == old(data).(content := old(data).content.(template := Some(x)))
      ensures GetTemplate() == Some(x)
      ensures emitted == old(emitted) + [Event(TemplateGenerated, TextSent(x)), Event(TemplateChanged, TextSent(x))]
      ensures deliveries == old(deliveries)
        + Fanout(subscribers, [Event(TemplateGenerated, TextSent(x)), Event(TemplateChanged, TextSent(x))])
      ensures subscribers == old(subscribers)
    {
      data := data.(content := data.content.(template := Some(x)));
      Emit(TemplateGenerated, TextSent(x));
      Emit(TemplateChanged, TextSent(x));
      FanoutTwo(subscribers, Event(TemplateGenerated, TextSent(x)), Event(TemplateChanged, TextSent(x)));
    }

    /** Appends to or replaces the video list, then emits 'videos-updated' with the resulting list. */
    method SetVideos(v: seq<Video>, append: bool)
      modifies this
      ensures GetVideos() == if append then old(GetVideos()) + v else v
      ensures data == old(data).(content := old(data).content.(videos := GetVideos()))
      ensures emitted == old(emitted) + [Event(VideosUpdated, VideosSent(GetVideos()))]
      ensures deliveries == old(deliveries) + Calls(subscribers, Event(VideosUpdated, VideosSent(GetVideos())))
      ensures subscribers == old(subscribers)
    {
      if append {
        data := data.(content := data.content.(videos := data.content.videos + v));
      } else {
        data := data.(content := data.content.(videos := v));
      }
      Emit(VideosUpdated, VideosSent(data.content.videos));
    }

    /** Restores every slot to the constructor's values (subscribers stay) and emits 'data-reset'. */
    method Reset()
      modifies this
      ensures data == InitialData()
      ensures emitted == old(emitted) + [Event(DataReset, Nothing)]
      ensures deliveries == old(deliveries) + Calls(subscribers, Event(DataReset, Nothing))
      ensures subscribers == old(subscribers)
    {
      data := InitialData();
      Emit(DataReset, Nothing);
    }

    /** Clears the generated content, keeps curriculum and form data, and emits 'new-experiment-started'. */
    method StartNewExperiment()
      modifies this
      ensures data == old(data).(content := EmptyContent)
      ensures GetCurriculum() == old(GetCurriculum()) && GetFormData() == old(GetFormData())
      ensures GetExperiment() == None && GetTemplate() == None && GetVideos() == []
      ensures emitted == old(emitted) + [Event(NewExperimentStarted, Nothing)]
      ensures deliveries == old(deliveries) + Calls(subscribers, Event(NewExperimentStarted, Nothing))
      ensures subscribers == old(subscribers)
    {
      data := data.(content := EmptyContent);
      Emit(NewExperimentStarted, Nothing);
    }

    /**
     * Copies the five curriculum fields and the three form fields of `s`, then
     * emits 'curriculum-changed', 'form-data-changed' and 'form-submitted'.
     */
    method SubmitForm(s: Submission)
      modifies this
      ensures data == old(data).(curriculum := CurriculumOf(s), formData := FormDataOf(s))
      ensures GetCompleteFormData() == s
      ensures emitted == old(emitted) + SubmitEvents(s)
      ensures deliveries == old(deliveries) + Fanout(subscribers, SubmitEvents(s))
      ensures subscribers == old(subscribers)
    {
      ghost var d0, t0 := deliveries, emitted;
      SetCurriculum(CurriculumOf(s));
      SetFormData(FormDataOf(s));
      Emit(FormSubmitted, SubmissionSent(s));
      SubmitTraces(t0, d0, subscribers, s);
      CombineSplit(s);
    }
  }
}
