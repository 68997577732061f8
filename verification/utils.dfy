/**
 * The two text utilities of shared/utils.js that the prompts are built with:
 * `renderTemplate`, a single-pass `{{key}}` substitution, and
 * `formatPrerequisiteContent`, which groups prerequisite entries by school
 * level, grade group, subject and unit and prints them as a bullet list.
 */
module Utils {
  import opened Common

  // ---------------------------------------------------------------------
  // renderTemplate
  // ---------------------------------------------------------------------

  /** `\w` in a JavaScript regular expression without the `u` flag. */
  predicate IsWordChar(c: char) {
    ('a' <= c <= 'z') || ('A' <= c <= 'Z') || ('0' <= c <= '9') || c == '_'
  }

  predicate AllWord(s: string) {
    forall i :: 0 <= i < |s| ==> IsWordChar(s[i])
  }

  /** The length of the run of word characters at the start of `s` (what a greedy `\w+` consumes). */
  function WordRun(s: string): (k: nat)
    ensures k <= |s| && AllWord(s[..k])
    ensures k < |s| ==> !IsWordChar(s[k])
  {
    if s != [] && IsWordChar(s[0]) then
      var k := 1 + WordRun(s[1..]);
      assert s[..k] == [s[0]] + s[1..][..k - 1];
      k
    else 0
  }

  /** The word run of a word followed by a non-word character is exactly that word. */
  lemma {:induction false} WordRunOf(w: string, rest: string)
    requires AllWord(w)
    requires rest != [] ==> !IsWordChar(rest[0])
    ensures WordRun(w + rest) == |w|
  {
    if w != [] {
      assert (w + rest)[1..] == w[1..] + rest;
      WordRunOf(w[1..], rest);
    }
  }

  /** The text of the placeholder for `key`. */
  function Placeholder(key: string): string {
    "{{" + key + "}}"
  }

  /**
   * The key of the match of `/\{\{(\w+)\}\}/` that starts at the first
   * character of `s`, if there is one. Because `}` is not a word character,
   * `\w+` never gives back characters, so the match is determined by the
   * greedy run.
   */
  function PlaceholderAt(s: string): (r: Option<string>)
    ensures r.Some? ==> |r.value| >= 1 && AllWord(r.value) && |r.value| + 4 <= |s|
                        && s[..|r.value| + 4] == Placeholder(r.value)
  {
    if |s| >= 2 && s[0] == '{' && s[1] == '{' then
      var k := WordRun(s[2..]);
      if k >= 1 && k + 4 <= |s| && s[k + 2] == '}' && s[k + 3] == '}' then
        assert s[2..][..k] == s[2..k + 2];
        assert s[..k + 4] == "{{" + s[2..k + 2] + "}}";
        Some(s[2..k + 2])
      else None
    else None
  }

  /** A placeholder written out is recognised, with its key, whatever follows it. */
  lemma PlaceholderAtOf(key: string, rest: string)
    requires |key| >= 1 && AllWord(key)
    ensures PlaceholderAt(Placeholder(key) + rest) == Some(key)
  {
    var s := Placeholder(key) + rest;
    assert s[2..] == key + ("}}" + rest);
    WordRunOf(key, "}}" + rest);
    assert s[2..|key| + 2] == key;
  }

  /**
   * `template.replace(/\{\{(\w+)\}\}/g, …)`: scanning left to right, each
   * placeholder whose key is bound is replaced by its value and each one whose
   * key is unbound is kept as it is; the scan resumes after the placeholder,
   * so substituted text is never scanned again.
   */
  function RenderTemplate(template: string, vars: map<string, string>): string
    decreases |template|
  {
    if template == [] then ""
    else
      match PlaceholderAt(template)
      case Some(key) =>
        (if key in vars then vars[key] else Placeholder(key)) + RenderTemplate(template[|key| + 4..], vars)
      case None => [template[0]] + RenderTemplate(template[1..], vars)
  }

  /** A bound placeholder is replaced by its value verbatim: the value is not expanded again. */
  lemma RenderBound(key: string, rest: string, vars: map<string, string>)
    requires |key| >= 1 && AllWord(key) && key in vars
    ensures RenderTemplate(Placeholder(key) + rest, vars) == vars[key] + RenderTemplate(rest, vars)
  {
    PlaceholderAtOf(key, rest);
    assert (Placeholder(key) + rest)[|key| + 4..] == rest;
  }

  /** An unbound placeholder stays literally in the output. */
  lemma RenderUnbound(key: string, rest: string, vars: map<string, string>)
    requires |key| >= 1 && AllWord(key) && key !in vars
    ensures RenderTemplate(Placeholder(key) + rest, vars) == Placeholder(key) + RenderTemplate(rest, vars)
  {
    PlaceholderAtOf(key, rest);
    assert (Placeholder(key) + rest)[|key| + 4..] == rest;
  }

  /** A character other than an opening brace is copied and the scan moves on. */
  lemma RenderPlainChar(c: char, t: string, vars: map<string, string>)
    requires c != '{'
    ensures RenderTemplate([c] + t, vars) == [c] + RenderTemplate(t, vars)
  {
    var s := [c] + t;
    assert s[0] == c && s[1..] == t;
    assert PlaceholderAt(s) == None;
  }

  /** Text without an opening brace is copied unchanged. */
  lemma {:induction false} RenderPlainPrefix(plain: string, rest: string, vars: map<string, string>)
    requires '{' !in plain
    ensures RenderTemplate(plain + rest, vars) == plain + RenderTemplate(rest, vars)
  {
    if plain != [] {
      var c, t := plain[0], plain[1..];
      assert plain == [c] + t;
      assert plain + rest == [c] + (t + rest);
      RenderPlainChar(c, t + rest, vars);
      RenderPlainPrefix(t, rest, vars);
      assert [c] + (t + RenderTemplate(rest, vars)) == plain + RenderTemplate(rest, vars);
    } else {
      assert plain + rest == rest;
    }
  }

  /** No placeholder starts anywhere in `s` whose key `vars` binds. */
  predicate NothingBound(s: string, vars: map<string, string>) {
    forall i :: 0 <= i < |s| ==> match PlaceholderAt(s[i..]) case Some(k) => k !in vars case None => true
  }

  /**
   * A template in which no placeholder has a bound key comes back unchanged;
   * this covers a template without placeholders and an empty variable map.
   */
  lemma {:induction false} RenderNothingBound(s: string, vars: map<string, string>)
    requires NothingBound(s, vars)
    ensures RenderTemplate(s, vars) == s
  {
    if s != [] {
      assert s[0..] == s;
      var n := match PlaceholderAt(s) case Some(key) => |key| + 4 case None => 1;
      NothingBoundSuffix(s, n, vars);
      RenderNothingBound(s[n..], vars);
      RenderUnchangedStep(s, vars);
    }
  }

  /** What follows a position of a text in which nothing is bound has nothing bound either. */
  lemma NothingBoundSuffix(s: string, n: nat, vars: map<string, string>)
    requires NothingBound(s, vars) && n <= |s|
    ensures NothingBound(s[n..], vars)
  {
    forall i | 0 <= i < |s[n..]|
      ensures match PlaceholderAt(s[n..][i..]) case Some(k) => k !in vars case None => true
    {
      assert s[n..][i..] == s[n + i..];
    }
  }

  /** One scan step of a text whose first placeholder, if any, is unbound: the consumed part comes out unchanged. */
  lemma RenderUnchangedStep(s: string, vars: map<string, string>)
    requires s != []
    requires match PlaceholderAt(s) case Some(k) => k !in vars case None => true
    ensures var n := match PlaceholderAt(s) case Some(key) => |key| + 4 case None => 1;
            n <= |s| && (RenderTemplate(s[n..], vars) == s[n..] ==> RenderTemplate(s, vars) == s)
  {
    match PlaceholderAt(s)
    case Some(key) =>
      var n := |key| + 4;
      assert s == s[..n] + s[n..];
    case None =>
      assert s == [s[0]] + s[1..];
  }

  /** With no variables at all, every template comes back unchanged. */
  lemma RenderEmptyMap(s: string)
    ensures RenderTemplate(s, map[]) == s
  {
    RenderNothingBound(s, map[]);
  }

  /** Substitution is single-pass: a value that itself looks like a placeholder is kept as text. */
  lemma RenderSinglePass()
    ensures RenderTemplate("{{a}}", map["a" := "{{b}}", "b" := "x"]) == "{{b}}"
  {
    assert "{{a}}" == Placeholder("a") + "";
    RenderBound("a", "", map["a" := "{{b}}", "b" := "x"]);
  }

  /** `{{}}` has no key between its braces, so it is not a placeholder and is left intact. */
  lemma RenderEmptyBraces(vars: map<string, string>)
    ensures RenderTemplate("{{}}", vars) == "{{}}"
  {
    var t := "{{}}";
    forall i | 0 <= i < |t| ensures PlaceholderAt(t[i..]).None? { }
    RenderNothingBound(t, vars);
  }

  /** `{{a b}}` has a non-word character in its key, so it is not a placeholder and is left intact. */
  lemma RenderSpacedKey(vars: map<string, string>)
    ensures RenderTemplate("{{a b}}", vars) == "{{a b}}"
  {
    var t := "{{a b}}";
    forall i | 0 <= i < |t| ensures PlaceholderAt(t[i..]).None? {
      if i == 0 { assert WordRun(t[2..]) == 1; }
    }
    RenderNothingBound(t, vars);
  }

  /** Single braces are not placeholders and are left intact. */
  lemma RenderSingleBraces(vars: map<string, string>)
    ensures RenderTemplate("{x}", vars) == "{x}"
  {
    var t := "{x}";
    forall i | 0 <= i < |t| ensures PlaceholderAt(t[i..]).None? { }
    RenderNothingBound(t, vars);
  }

  /** `experimentDesign` is a word key, and its placeholder is the text the prompt holds. */
  lemma ExperimentDesignKey()
    ensures AllWord("experimentDesign")
    ensures Placeholder("experimentDesign") == "{{experimentDesign}}"
  {
  }

  /**
   * The report-template prompt's one placeholder, `{{experimentDesign}}`,
   * receives the experiment text; the rest may hold single-brace instructions
   * and placeholders of other keys, which are kept.
   */
  lemma RenderReportPrompt(before: string, after: string, design: string)
    requires '{' !in before && NothingBound(after, map["experimentDesign" := design])
    ensures RenderTemplate(before + "{{experimentDesign}}" + after, map["experimentDesign" := design])
         == before + design + after
  {
    var vars := map["experimentDesign" := design];
    var p := Placeholder("experimentDesign");
    ExperimentDesignKey();
    Assoc(before, p, after);
    RenderPlainPrefix(before, p + after, vars);
    RenderBound("experimentDesign", after, vars);
    RenderNothingBound(after, vars);
    Assoc(before, design, after);
  }

  // ---------------------------------------------------------------------
  // renderTemplate as written: inherited properties count as bound
  // ---------------------------------------------------------------------

  /** The string form of the inherited `Object.prototype.toString`. */
  const NativeToString := "function toString() { [native code] }"

  /**
   * What `variables[key]` yields for a key the variables object does not own
   * but inherits from `Object.prototype`: the string form of the inherited
   * member (a native function, or the prototype object itself for `__proto__`).
   */
  function InheritedMembers(): map<string, string> {
    map[
      "constructor" := "function Object() { [native code] }",
      "hasOwnProperty" := "function hasOwnProperty() { [native code] }",
      "isPrototypeOf" := "function isPrototypeOf() { [native code] }",
      "propertyIsEnumerable" := "function propertyIsEnumerable() { [native code] }",
      "toLocaleString" := "function toLocaleString() { [native code] }",
      "valueOf" := "function valueOf() { [native code] }",
      "__defineGetter__" := "function __defineGetter__() { [native code] }",
      "__defineSetter__" := "function __defineSetter__() { [native code] }",
      "__lookupGetter__" := "function __lookupGetter__() { [native code] }",
      "__lookupSetter__" := "function __lookupSetter__() { [native code] }",
      "__proto__" := "[object Object]",
      "toString" := NativeToString
    ]
  }

  /**
   * `renderTemplate` exactly as written: the test `variables[key] !== undefined`
   * also sees the members a plain object inherits, so it behaves like the
   * intended renderer given the variables laid over those members.
   */
  function RenderTemplateAsWritten(template: string, vars: map<string, string>): string {
    RenderTemplate(template, InheritedMembers() + vars)
  }

  /** `toString` is a word key. */
  lemma ToStringKey()
    ensures |"toString"| >= 1 && AllWord("toString")
  {
  }

  /**
   * As written, a `{{toString}}` the caller did not bind is not kept: it is
   * replaced by the text of a native function, where the intended renderer
   * keeps the placeholder.
   */
  lemma AsWrittenReplacesInheritedKey(rest: string, vars: map<string, string>)
    requires "toString" !in vars
    ensures RenderTemplateAsWritten(Placeholder("toString") + rest, vars) == NativeToString + RenderTemplateAsWritten(rest, vars)
    ensures RenderTemplate(Placeholder("toString") + rest, vars) == Placeholder("toString") + RenderTemplate(rest, vars)
    ensures RenderTemplateAsWritten(Placeholder("toString") + rest, vars) != RenderTemplate(Placeholder("toString") + rest, vars)
  {
    ToStringKey();
    var all := InheritedMembers() + vars;
    assert "toString" in all && all["toString"] == NativeToString;
    RenderBound("toString", rest, all);
    RenderUnbound("toString", rest, vars);
    var written := NativeToString + RenderTemplateAsWritten(rest, vars);
    var intended := Placeholder("toString") + RenderTemplate(rest, vars);
    assert written[0] == 'f' && intended[0] == '{';
  }

  // ---------------------------------------------------------------------
  // formatPrerequisiteContent
  // ---------------------------------------------------------------------

  /** One prerequisite entry. */
  datatype Prerequisite = Prerequisite(
    schoolLevel: string, gradeGroup: string, subject: string, unit: string, contentElements: seq<string>)

  /**
   * A plain JavaScript object used as a dictionary: its keys in insertion
   * order and its values. Assigning to a key it already has keeps the key's place.
   */
  datatype Dict<V> = Dict(keys: seq<string>, vals: map<string, V>)

  function EmptyDict<V>(): Dict<V> {
    Dict([], map[])
  }

  /** Keys listed once each, and exactly the keys that have values. */
  ghost predicate Valid<V>(d: Dict<V>) {
    && (forall i, j :: 0 <= i < j < |d.keys| ==> d.keys[i] != d.keys[j])
    && (forall k :: k in d.vals <==> k in d.keys)
  }

  /** `d[k] = v`. */
  function Put<V>(d: Dict<V>, k: string, v: V): (r: Dict<V>)
    ensures r.vals == d.vals[k := v]
    ensures k in d.vals ==> r.keys == d.keys
    ensures k !in d.vals ==> r.keys == d.keys + [k]
    ensures Valid(d) ==> Valid(r)
  {
    if k in d.vals then Dict(d.keys, d.vals[k := v]) else Dict(d.keys + [k], d.vals[k := v])
  }

  /** `d[k]`, or `default` when `d` has no key `k`. */
  function GetOr<V>(d: Dict<V>, k: string, default: V): V {
    if k in d.vals then d.vals[k] else default
  }

  /** Creating a key and then assigning it is the same as assigning it. */
  lemma PutPut<V>(d: Dict<V>, k: string, v: V, w: V)
    ensures Put(Put(d, k, v), k, w) == Put(d, k, w)
  {
    assert d.vals[k := v][k := w] == d.vals[k := w];
  }

  type Units = Dict<seq<string>>
  type Subjects = Dict<Units>
  type Grades = Dict<Subjects>
  type Grouped = Dict<Grades>

  /**
   * One step of the grouping loop: create the school, grade and subject
   * levels when missing, then set the unit's elements (the later entry wins).
   */
  function Insert(g: Grouped, p: Prerequisite): Grouped {
    var grades := GetOr(g, p.schoolLevel, EmptyDict());
    var subjects := GetOr(grades, p.gradeGroup, EmptyDict());
    var units := GetOr(subjects, p.subject, EmptyDict());
    Put(g, p.schoolLevel, Put(grades, p.gradeGroup, Put(subjects, p.subject, Put(units, p.unit, p.contentElements))))
  }

  /** The dictionary the `forEach` builds from the entries. */
  function Group(ps: seq<Prerequisite>): Grouped {
    if ps == [] then EmptyDict() else Insert(Group(ps[..|ps| - 1]), ps[|ps| - 1])
  }

  ghost predicate ValidSubjects(d: Subjects) {
    Valid(d) && forall k :: k in d.vals ==> Valid(d.vals[k])
  }

  ghost predicate ValidGrades(d: Grades) {
    Valid(d) && forall k :: k in d.vals ==> ValidSubjects(d.vals[k])
  }

  ghost predicate ValidGrouped(d: Grouped) {
    Valid(d) && forall k :: k in d.vals ==> ValidGrades(d.vals[k])
  }

  /** Grouping lists every key once at every level. */
  lemma {:induction false} GroupValid(ps: seq<Prerequisite>)
    ensures ValidGrouped(Group(ps))
  {
    if ps != [] {
      GroupValid(ps[..|ps| - 1]);
      InsertValid(Group(ps[..|ps| - 1]), ps[|ps| - 1]);
    }
  }

  /** One grouping step keeps every level's keys listed once each. */
  lemma InsertValid(g: Grouped, p: Prerequisite)
    requires ValidGrouped(g)
    ensures ValidGrouped(Insert(g, p))
  {
    var grades := GetOr(g, p.schoolLevel, EmptyDict());
    var subjects := GetOr(grades, p.gradeGroup, EmptyDict());
    var units := GetOr(subjects, p.subject, EmptyDict());
    assert ValidGrades(grades) && ValidSubjects(subjects) && Valid(units);
    var units' := Put(units, p.unit, p.contentElements);
    PutSubjects(subjects, p.subject, units');
    var subjects' := Put(subjects, p.subject, units');
    PutGrades(grades, p.gradeGroup, subjects');
    PutGrouped(g, p.schoolLevel, Put(grades, p.gradeGroup, subjects'));
  }

  lemma PutSubjects(d: Subjects, k: string, x: Units)
    requires ValidSubjects(d) && Valid(x)
    ensures ValidSubjects(Put(d, k, x))
  {
  }

  lemma PutGrades(d: Grades, k: string, x: Subjects)
    requires ValidGrades(d) && ValidSubjects(x)
    ensures ValidGrades(Put(d, k, x))
  {
  }

  lemma PutGrouped(d: Grouped, k: string, x: Grades)
    requires ValidGrouped(d) && ValidGrades(x)
    ensures ValidGrouped(Put(d, k, x))
  {
  }

  /** The elements stored for one school, grade, subject and unit, if any. */
  function Lookup(g: Grouped, s: string, gg: string, subj: string, u: string): Option<seq<string>> {
    if s in g.vals && gg in g.vals[s].vals && subj in g.vals[s].vals[gg].vals && u in g.vals[s].vals[gg].vals[subj].vals
    then Some(g.vals[s].vals[gg].vals[subj].vals[u])
    else None
  }

  /** The elements of the last entry with the given school, grade, subject and unit, if any. */
  function LastEntry(ps: seq<Prerequisite>, s: string, gg: string, subj: string, u: string): Option<seq<string>> {
    if ps == [] then None
    else
      var p := ps[|ps| - 1];
      if p.schoolLevel == s && p.gradeGroup == gg && p.subject == subj && p.unit == u then Some(p.contentElements)
      else LastEntry(ps[..|ps| - 1], s, gg, subj, u)
  }

  /** When entries share school, grade, subject and unit, the later entry's elements are the ones kept. */
  lemma {:induction false} GroupKeepsLastEntry(ps: seq<Prerequisite>, s: string, gg: string, subj: string, u: string)
    ensures Lookup(Group(ps), s, gg, subj, u) == LastEntry(ps, s, gg, subj, u)
  {
    if ps != [] {
      GroupKeepsLastEntry(ps[..|ps| - 1], s, gg, subj, u);
      LookupInsert(Group(ps[..|ps| - 1]), ps[|ps| - 1], s, gg, subj, u);
    }
  }

  /** One grouping step sets the entry's own unit and leaves every other lookup as it was. */
  lemma LookupInsert(g: Grouped, p: Prerequisite, s: string, gg: string, subj: string, u: string)
    ensures Lookup(Insert(g, p), s, gg, subj, u)
         == if p.schoolLevel == s && p.gradeGroup == gg && p.subject == subj && p.unit == u
            then Some(p.contentElements) else Lookup(g, s, gg, subj, u)
  {
    if s != p.schoolLevel {
      LookupOtherSchool(g, p, s, gg, subj, u);
    } else if gg != p.gradeGroup {
      LookupOtherGrade(g, p, gg, subj, u);
    } else if subj != p.subject {
      LookupOtherSubject(g, p, subj, u);
    } else {
      LookupSameSubject(g, p, u);
    }
  }

  lemma LookupOtherSchool(g: Grouped, p: Prerequisite, s: string, gg: string, subj: string, u: string)
    requires s != p.schoolLevel
    ensures Lookup(Insert(g, p), s, gg, subj, u) == Lookup(g, s, gg, subj, u)
  {
  }

  lemma LookupOtherGrade(g: Grouped, p: Prerequisite, gg: string, subj: string, u: string)
    requires gg != p.gradeGroup
    ensures Lookup(Insert(g, p), p.schoolLevel, gg, subj, u) == Lookup(g, p.schoolLevel, gg, subj, u)
  {
  }

  lemma LookupOtherSubject(g: Grouped, p: Prerequisite, subj: string, u: string)
    requires subj != p.subject
    ensures Lookup(Insert(g, p), p.schoolLevel, p.gradeGroup, subj, u) == Lookup(g, p.schoolLevel, p.gradeGroup, subj, u)
  {
  }

  lemma LookupSameSubject(g: Grouped, p: Prerequisite, u: string)
    ensures Lookup(Insert(g, p), p.schoolLevel, p.gradeGroup, p.subject, u)
         == if u == p.unit then Some(p.contentElements) else Lookup(g, p.schoolLevel, p.gradeGroup, p.subject, u)
  {
  }

  /** Whether some entry has this school level. */
  predicate HasSchool(ps: seq<Prerequisite>, s: string) {
    exists i :: 0 <= i < |ps| && ps[i].schoolLevel == s
  }

  /** Whether some entry has this school level and grade group. */
  predicate HasPair(ps: seq<Prerequisite>, s: string, gg: string) {
    exists i :: 0 <= i < |ps| && ps[i].schoolLevel == s && ps[i].gradeGroup == gg
  }

  /**
   * The school keys are exactly the schools of the entries, and a school's
   * grade keys exactly the grade groups entered with it: so the output has
   * one header per distinct (school level, grade group) pair.
   */
  lemma {:induction false} GroupKeys(ps: seq<Prerequisite>, s: string, gg: string)
    ensures s in Group(ps).vals <==> HasSchool(ps, s)
    ensures (s in Group(ps).vals && gg in Group(ps).vals[s].vals) <==> HasPair(ps, s, gg)
  {
    if ps != [] {
      GroupKeys(ps[..|ps| - 1], s, gg);
      GroupKeysStep(ps, s, gg);
    }
  }

  /** The key facts of `GroupKeys` carry over one grouping step. */
  lemma GroupKeysStep(ps: seq<Prerequisite>, s: string, gg: string)
    requires ps != []
    requires var g := Group(ps[..|ps| - 1]);
             && (s in g.vals <==> HasSchool(ps[..|ps| - 1], s))
             && ((s in g.vals && gg in g.vals[s].vals) <==> HasPair(ps[..|ps| - 1], s, gg))
    ensures s in Group(ps).vals <==> HasSchool(ps, s)
    ensures (s in Group(ps).vals && gg in Group(ps).vals[s].vals) <==> HasPair(ps, s, gg)
  {
    InsertKeys(Group(ps[..|ps| - 1]), ps[|ps| - 1], s, gg);
    HasLast(ps, s, gg);
  }

  /** One grouping step adds the entry's school and its (school, grade) pair and nothing else. */
  lemma InsertKeys(g: Grouped, p: Prerequisite, s: string, gg: string)
    ensures s in Insert(g, p).vals <==> s in g.vals || s == p.schoolLevel
    ensures (s in Insert(g, p).vals && gg in Insert(g, p).vals[s].vals)
        <==> (s in g.vals && gg in g.vals[s].vals) || (s == p.schoolLevel && gg == p.gradeGroup)
  {
  }

  /** The schools and pairs of a non-empty list: those before its last entry, and the last entry's. */
  lemma HasLast(ps: seq<Prerequisite>, s: string, gg: string)
    requires ps != []
    ensures HasSchool(ps, s) <==> HasSchool(ps[..|ps| - 1], s) || ps[|ps| - 1].schoolLevel == s
    ensures HasPair(ps, s, gg) <==> HasPair(ps[..|ps| - 1], s, gg) || (ps[|ps| - 1].schoolLevel == s && ps[|ps| - 1].gradeGroup == gg)
  {
    var init, n := ps[..|ps| - 1], |ps| - 1;
    if HasSchool(ps, s) {
      var i :| 0 <= i < |ps| && ps[i].schoolLevel == s;
      if i < n { assert init[i] == ps[i]; }
    }
    if HasSchool(init, s) {
      var i :| 0 <= i < n && init[i].schoolLevel == s;
      assert ps[i] == init[i];
    }
    if HasPair(ps, s, gg) {
      var i :| 0 <= i < |ps| && ps[i].schoolLevel == s && ps[i].gradeGroup == gg;
      if i < n { assert init[i] == ps[i]; }
    }
    if HasPair(init, s, gg) {
      var i :| 0 <= i < n && init[i].schoolLevel == s && init[i].gradeGroup == gg;
      assert ps[i] == init[i];
    }
  }

  /** The header line of one (school level, grade group) pair. */
  function HeaderLine(s: string, gg: string): string {
    "- " + s + " " + gg + ":\n"
  }

  /** The line of one unit and its elements. */
  function UnitLine(u: string, elements: seq<string>): string {
    "  - " + u + ": " + Join(elements, ", ") + "\n"
  }

  /** The unit lines for the unit keys `ks`, in order. */
  function RenderUnits(units: Units, ks: seq<string>): string {
    if ks == [] then ""
    else RenderUnits(units, ks[..|ks| - 1]) + UnitLine(ks[|ks| - 1], GetOr(units, ks[|ks| - 1], []))
  }

  /** The unit lines of every subject in `ks`, in order (subjects print no line of their own). */
  function RenderSubjects(subjects: Subjects, ks: seq<string>): string {
    if ks == [] then ""
    else
      var units := GetOr(subjects, ks[|ks| - 1], EmptyDict());
      RenderSubjects(subjects, ks[..|ks| - 1]) + RenderUnits(units, units.keys)
  }

  /** For each grade group in `ks`: its header, then its unit lines. */
  function RenderGrades(s: string, grades: Grades, ks: seq<string>): string {
    if ks == [] then ""
    else
      var subjects := GetOr(grades, ks[|ks| - 1], EmptyDict());
      RenderGrades(s, grades, ks[..|ks| - 1]) + HeaderLine(s, ks[|ks| - 1]) + RenderSubjects(subjects, subjects.keys)
  }

  /** Every school in `ks`, in order. */
  function RenderSchools(g: Grouped, ks: seq<string>): string {
    if ks == [] then ""
    else
      var grades := GetOr(g, ks[|ks| - 1], EmptyDict());
      RenderSchools(g, ks[..|ks| - 1]) + RenderGrades(ks[|ks| - 1], grades, grades.keys)
  }

  /**
   * The body of the `forEach` callback: create the school, grade and subject
   * objects when missing, then assign the unit's elements.
   */
  method AddEntry(g: Grouped, p: Prerequisite) returns (r: Grouped)
    ensures r == Insert(g, p)
  {
    r := g;
    if p.schoolLevel !in r.vals {
      r := Put(r, p.schoolLevel, EmptyDict());
    }
    var grades := r.vals[p.schoolLevel];
    ghost var grades0 := grades;
    if p.gradeGroup !in grades.vals {
      grades := Put(grades, p.gradeGroup, EmptyDict());
    }
    var subjects := grades.vals[p.gradeGroup];
    ghost var subjects0 := subjects;
    if p.subject !in subjects.vals {
      subjects := Put(subjects, p.subject, EmptyDict());
    }
    var units := subjects.vals[p.subject];
    units := Put(units, p.unit, p.contentElements);
    if p.subject !in subjects0.vals { PutPut(subjects0, p.subject, EmptyDict(), units); }
    subjects := Put(subjects, p.subject, units);
    if p.gradeGroup !in grades0.vals { PutPut(grades0, p.gradeGroup, EmptyDict(), subjects); }
    grades := Put(grades, p.gradeGroup, subjects);
    if p.schoolLevel !in g.vals { PutPut(g, p.schoolLevel, EmptyDict(), grades); }
    r := Put(r, p.schoolLevel, grades);
  }

  /** Grouping one more entry of a list is one more grouping step. */
  lemma GroupNext(ps: seq<Prerequisite>, i: nat)
    requires i < |ps|
    ensures Group(ps[..i + 1]) == Insert(Group(ps[..i]), ps[i])
  {
    assert ps[..i + 1][..i] == ps[..i];
  }

  /** The `forEach` over the entries: the grouped dictionary, built entry by entry. */
  method GroupEntries(ps: seq<Prerequisite>) returns (grouped: Grouped)
    ensures grouped == Group(ps)
  {
    grouped := EmptyDict();
    var i := 0;
    while i < |ps|
      invariant 0 <= i <= |ps|
      invariant grouped == Group(ps[..i])
    {
      grouped := AddEntry(grouped, ps[i]);
      GroupNext(ps, i);
      i := i + 1;
    }
    assert ps[..i] == ps;
  }

  lemma RenderUnitsNext(units: Units, ks: seq<string>, i: nat)
    requires i < |ks|
    ensures RenderUnits(units, ks[..i + 1]) == RenderUnits(units, ks[..i]) + UnitLine(ks[i], GetOr(units, ks[i], []))
  {
    assert ks[..i + 1][..i] == ks[..i];
  }

  lemma RenderSubjectsNext(subjects: Subjects, ks: seq<string>, i: nat)
    requires i < |ks|
    ensures var units := GetOr(subjects, ks[i], EmptyDict());
            RenderSubjects(subjects, ks[..i + 1]) == RenderSubjects(subjects, ks[..i]) + RenderUnits(units, units.keys)
  {
    assert ks[..i + 1][..i] == ks[..i];
  }

  lemma RenderGradesNext(school: string, grades: Grades, ks: seq<string>, i: nat)
    requires i < |ks|
    ensures var subjects := GetOr(grades, ks[i], EmptyDict());
            RenderGrades(school, grades, ks[..i + 1])
            == RenderGrades(school, grades, ks[..i]) + HeaderLine(school, ks[i]) + RenderSubjects(subjects, subjects.keys)
  {
    assert ks[..i + 1][..i] == ks[..i];
  }

  lemma RenderSchoolsNext(g: Grouped, ks: seq<string>, i: nat)
    requires i < |ks|
    ensures var grades := GetOr(g, ks[i], EmptyDict());
            RenderSchools(g, ks[..i + 1]) == RenderSchools(g, ks[..i]) + RenderGrades(ks[i], grades, grades.keys)
  {
    assert ks[..i + 1][..i] == ks[..i];
  }

  /** The innermost `for…in`: one line per unit of a subject. */
  method PrintUnits(units: Units) returns (out: string)
    ensures out == RenderUnits(units, units.keys)
  {
    out := "";
    var i := 0;
    while i < |units.keys|
      invariant 0 <= i <= |units.keys|
      invariant out == RenderUnits(units, units.keys[..i])
    {
      var unit := units.keys[i];
      out := out + UnitLine(unit, GetOr(units, unit, []));
      RenderUnitsNext(units, units.keys, i);
      i := i + 1;
    }
    assert units.keys[..i] == units.keys;
  }

  /** The `for…in` over the subjects of a grade group: their unit lines, subject after subject. */
  method PrintSubjects(subjects: Subjects) returns (out: string)
    ensures out == RenderSubjects(subjects, subjects.keys)
  {
    out := "";
    var i := 0;
    while i < |subjects.keys|
      invariant 0 <= i <= |subjects.keys|
      invariant out == RenderSubjects(subjects, subjects.keys[..i])
    {
      var lines := PrintUnits(GetOr(subjects, subjects.keys[i], EmptyDict()));
      out := out + lines;
      RenderSubjectsNext(subjects, subjects.keys, i);
      i := i + 1;
    }
    assert subjects.keys[..i] == subjects.keys;
  }

  /** The `for…in` over the grade groups of a school: a header for each, then its lines. */
  method PrintGrades(school: string, grades: Grades) returns (out: string)
    ensures out == RenderGrades(school, grades, grades.keys)
  {
    out := "";
    var i := 0;
    while i < |grades.keys|
      invariant 0 <= i <= |grades.keys|
      invariant out == RenderGrades(school, grades, grades.keys[..i])
    {
      var grade := grades.keys[i];
      out := out + HeaderLine(school, grade);
      var lines := PrintSubjects(GetOr(grades, grade, EmptyDict()));
      out := out + lines;
      RenderGradesNext(school, grades, grades.keys, i);
      i := i + 1;
    }
    assert grades.keys[..i] == grades.keys;
  }

  /** The outermost `for…in`, over the school levels. */
  method PrintGrouped(grouped: Grouped) returns (out: string)
    ensures out == RenderSchools(grouped, grouped.keys)
  {
    out := "";
    var i := 0;
    while i < |grouped.keys|
      invariant 0 <= i <= |grouped.keys|
      invariant out == RenderSchools(grouped, grouped.keys[..i])
    {
      var school := grouped.keys[i];
      var lines := PrintGrades(school, GetOr(grouped, school, EmptyDict()));
      out := out + lines;
      RenderSchoolsNext(grouped, grouped.keys, i);
      i := i + 1;
    }
    assert grouped.keys[..i] == grouped.keys;
  }

  /** The dictionary two entries with the same school, grade and subject but different units build. */
  function TwoUnits(s: string, gg: string, subj: string, u1: string, e1: seq<string>, u2: string, e2: seq<string>): Grouped {
    Dict([s], map[s := Dict([gg], map[gg := Dict([subj], map[subj := Dict([u1, u2], map[u1 := e1, u2 := e2])])])])
  }

  /** The dictionary one entry builds. */
  function OneUnit(s: string, gg: string, subj: string, u: string, e: seq<string>): Grouped {
    Dict([s], map[s := Dict([gg], map[gg := Dict([subj], map[subj := Dict([u], map[u := e])])])])
  }

  /** The first entry creates its school, grade, subject and unit. */
  lemma InsertIntoEmpty(s: string, gg: string, subj: string, u: string, e: seq<string>)
    ensures Insert(EmptyDict(), Prerequisite(s, gg, subj, u, e)) == OneUnit(s, gg, subj, u, e)
  {
    var units: Units := Dict([u], map[u := e]);
    var subjects: Subjects := Dict([subj], map[subj := units]);
    var grades: Grades := Dict([gg], map[gg := subjects]);
    assert [] + [u] == [u] && [] + [subj] == [subj] && [] + [gg] == [gg] && [] + [s] == [s];
    assert Put(EmptyDict(), u, e) == units;
    assert Put(EmptyDict(), subj, units) == subjects;
    assert Put(EmptyDict(), gg, subjects) == grades;
    assert Put(EmptyDict(), s, grades) == OneUnit(s, gg, subj, u, e);
  }

  /** Assigning the only key of a one-key dictionary replaces its value. */
  lemma PutOnlyKey<V>(k: string, v: V, w: V)
    ensures Put(Dict([k], map[k := v]), k, w) == Dict([k], map[k := w])
  {
    assert map[k := v][k := w] == map[k := w];
  }

  /** Assigning a new key to a one-key dictionary lists it second. */
  lemma PutSecondKey<V>(k1: string, v1: V, k2: string, v2: V)
    requires k1 != k2
    ensures Put(Dict([k1], map[k1 := v1]), k2, v2) == Dict([k1, k2], map[k1 := v1, k2 := v2])
  {
    assert [k1] + [k2] == [k1, k2];
  }

  /** A second unit under the same school, grade and subject is added after the first. */
  lemma InsertSecondUnit(s: string, gg: string, subj: string, u1: string, e1: seq<string>, u2: string, e2: seq<string>)
    requires u1 != u2
    ensures Insert(OneUnit(s, gg, subj, u1, e1), Prerequisite(s, gg, subj, u2, e2)) == TwoUnits(s, gg, subj, u1, e1, u2, e2)
  {
    var u: Units := Dict([u1], map[u1 := e1]);
    var sub1: Subjects := Dict([subj], map[subj := u]);
    var gr1: Grades := Dict([gg], map[gg := sub1]);
    var units: Units := Dict([u1, u2], map[u1 := e1, u2 := e2]);
    var subjects: Subjects := Dict([subj], map[subj := units]);
    var grades: Grades := Dict([gg], map[gg := subjects]);
    assert OneUnit(s, gg, subj, u1, e1) == Dict([s], map[s := gr1]);
    assert GetOr(Dict([s], map[s := gr1]), s, EmptyDict()) == gr1;
    assert GetOr(gr1, gg, EmptyDict()) == sub1 && GetOr(sub1, subj, EmptyDict()) == u;
    PutSecondKey(u1, e1, u2, e2);
    PutOnlyKey(subj, u, units);
    PutOnlyKey(gg, sub1, subjects);
    PutOnlyKey(s, gr1, grades);
  }

  /** Grouping two such entries gives one school, one grade group, one subject and both units in input order. */
  lemma GroupTwoUnits(s: string, gg: string, subj: string, u1: string, e1: seq<string>, u2: string, e2: seq<string>)
    requires u1 != u2
    ensures Group([Prerequisite(s, gg, subj, u1, e1), Prerequisite(s, gg, subj, u2, e2)]) == TwoUnits(s, gg, subj, u1, e1, u2, e2)
  {
    var p1 := Prerequisite(s, gg, subj, u1, e1);
    var p2 := Prerequisite(s, gg, subj, u2, e2);
    assert [p1, p2][..1] == [p1] && [p1][..0] == [];
    InsertIntoEmpty(s, gg, subj, u1, e1);
    assert Group([p1]) == OneUnit(s, gg, subj, u1, e1);
    InsertSecondUnit(s, gg, subj, u1, e1, u2, e2);
  }

  /** A dictionary of two units prints the first unit's line, then the second's. */
  lemma RenderTwoUnits(units: Units, u1: string, u2: string)
    requires units.keys == [u1, u2]
    ensures RenderUnits(units, units.keys) == UnitLine(u1, GetOr(units, u1, [])) + UnitLine(u2, GetOr(units, u2, []))
  {
    assert [u1, u2][..1] == [u1] && [u1][..0] == [];
    assert RenderUnits(units, [u1]) == "" + UnitLine(u1, GetOr(units, u1, []));
  }

  /** A single subject prints exactly its unit lines. */
  lemma RenderOneSubject(subjects: Subjects, subj: string)
    requires subjects.keys == [subj]
    ensures var units := GetOr(subjects, subj, EmptyDict());
            RenderSubjects(subjects, subjects.keys) == RenderUnits(units, units.keys)
  {
    assert [subj][..0] == [];
  }

  /** A single grade group prints its header, then its subjects. */
  lemma RenderOneGrade(s: string, grades: Grades, gg: string)
    requires grades.keys == [gg]
    ensures var subjects := GetOr(grades, gg, EmptyDict());
            RenderGrades(s, grades, grades.keys) == HeaderLine(s, gg) + RenderSubjects(subjects, subjects.keys)
  {
    assert [gg][..0] == [];
  }

  /** A single school prints its grade groups. */
  lemma RenderOneSchool(g: Grouped, s: string)
    requires g.keys == [s]
    ensures var grades := GetOr(g, s, EmptyDict());
            RenderSchools(g, g.keys) == RenderGrades(s, grades, grades.keys)
  {
    assert [s][..0] == [];
  }

  /** The dictionary of two units under one school, grade and subject prints one header, then both unit lines in key order. */
  lemma RenderTwoUnitDict(s: string, gg: string, subj: string, u1: string, e1: seq<string>, u2: string, e2: seq<string>)
    requires u1 != u2
    ensures var g := TwoUnits(s, gg, subj, u1, e1, u2, e2);
            RenderSchools(g, g.keys) == HeaderLine(s, gg) + (UnitLine(u1, e1) + UnitLine(u2, e2))
  {
    var g := TwoUnits(s, gg, subj, u1, e1, u2, e2);
    var grades := g.vals[s];
    var subjects := grades.vals[gg];
    var units := subjects.vals[subj];
    assert GetOr(g, s, EmptyDict()) == grades && GetOr(grades, gg, EmptyDict()) == subjects;
    assert GetOr(subjects, subj, EmptyDict()) == units;
    assert GetOr(units, u1, []) == e1 && GetOr(units, u2, []) == e2;
    RenderOneSchool(g, s);
    RenderOneGrade(s, grades, gg);
    RenderOneSubject(subjects, subj);
    RenderTwoUnits(units, u1, u2);
  }

  /** Two units under the same school, grade and subject share one header and keep their input order. */
  lemma PrintedSharedHeader(s: string, gg: string, subj: string, u1: string, e1: seq<string>, u2: string, e2: seq<string>)
    requires u1 != u2
    ensures var g := Group([Prerequisite(s, gg, subj, u1, e1), Prerequisite(s, gg, subj, u2, e2)]);
            RenderSchools(g, g.keys) == HeaderLine(s, gg) + UnitLine(u1, e1) + UnitLine(u2, e2)
  {
    GroupTwoUnits(s, gg, subj, u1, e1, u2, e2);
    RenderTwoUnitDict(s, gg, subj, u1, e1, u2, e2);
    Assoc(HeaderLine(s, gg), UnitLine(u1, e1), UnitLine(u2, e2));
  }

  const NoPrerequisites := "선수학습 내용이 없습니다."

  /**
   * `formatPrerequisiteContent`: the fixed message for a missing or empty
   * list; otherwise the entries are grouped and printed school by school,
   * grade group by grade group, subject by subject, unit by unit.
   */
  method FormatPrerequisiteContent(prerequisites: Option<seq<Prerequisite>>) returns (result: string)
    ensures (prerequisites.None? || prerequisites.value == []) ==> result == NoPrerequisites
    ensures prerequisites.Some? && prerequisites.value != [] ==>
              var g := Group(prerequisites.value);
              result == RenderSchools(g, g.keys)
  {
    if prerequisites.None? || |prerequisites.value| == 0 {
      return NoPrerequisites;
    }
    var grouped := GroupEntries(prerequisites.value);
    result := PrintGrouped(grouped);
  }
}
