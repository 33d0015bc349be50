/**
 * The agent endpoint's deterministic layer: request validation with the
 * date-order refinement, the direct writer's prompt and its HTML extraction,
 * the pick of the planner's HTML among the tool results, the guardrail chain
 * (direct writer, then fetch, an optional retry, summarize and render), the
 * delivery gate and the log statistics. The language model, the planner, the
 * tools and the mail transport are oracles: each call either returns a value
 * or throws. The planner runs outside every handler, so when it throws the
 * request ends in the framework's own 500.
 */
module Agent {
  import opened Strings
  import opened ContentTools
  import opened EmailTools
  import opened LogTypes

  // ---------------------------------------------------------------------------
  // The request body

  /** The request as decoded from JSON, before the schema runs. */
  datatype RawBody = RawBody(
    topic: Option<string>,
    startDate: Option<string>,
    endDate: Option<string>,
    title: Option<string>,
    intro: Option<string>,
    newsletterType: Option<string>,
    features: Option<seq<string>>,
    links: Option<seq<string>>,
    location: Option<string>,
    content: Option<string>,
    keyDetails: Option<string>,
    tone: Option<seq<string>>,
    sections: Option<int>,
    preset: Option<string>,
    dryRun: Option<bool>,
    to: Option<string>,
    provider: Option<string>,
    articleUrl: Option<string>,
    articleHtml: Option<string>)

  /** The validated request, strings trimmed and defaults applied. */
  datatype Body = Body(
    topic: string,
    startDate: Option<string>,
    endDate: Option<string>,
    title: string,
    intro: Option<string>,
    newsletterType: Option<string>,
    features: Option<seq<string>>,
    links: Option<seq<string>>,
    location: Option<string>,
    content: Option<string>,
    keyDetails: Option<string>,
    tone: Option<seq<string>>,
    sections: Option<int>,
    preset: Option<string>,
    dryRun: bool,
    to: Option<string>,
    articleUrl: Option<string>,
    articleHtml: Option<string>)

  /** The e-mail and URL format checks of the schema library, taken as given predicates. */
  datatype Validators = Validators(isEmail: string -> bool, isUrl: string -> bool)

  datatype Issue = FieldIssue(field: string) | OrderIssue(message: string)

  const OrderMessage := "start_date must be ≤ end_date"
  const DefaultTitle := "Weekly Digest"

  datatype Parsed = Valid(body: Body) | Invalid(issues: seq<Issue>)

  function IssueIf(bad: bool, field: string): seq<Issue> {
    if bad then [FieldIssue(field)] else []
  }

  /** The failing field checks, in the schema's field order. */
  function FieldIssues(raw: RawBody, v: Validators): seq<Issue> {
    IssueIf(raw.topic.None? || Utf16Length(Trim(raw.topic.value)) < 2, "topic")
      + IssueIf(raw.startDate.Some? && !IsIsoDateShape(raw.startDate.value), "start_date")
      + IssueIf(raw.endDate.Some? && !IsIsoDateShape(raw.endDate.value), "end_date")
      + IssueIf(raw.title.Some? && Utf16Length(Trim(raw.title.value)) < 2, "title")
      + IssueIf(raw.sections.Some? && !(2 <= raw.sections.value <= 8), "sections")
      + IssueIf(raw.to.Some? && !v.isEmail(raw.to.value), "to")
      + IssueIf(raw.provider.Some? && raw.provider.value != "gemini", "provider")
      + IssueIf(raw.articleUrl.Some? && !v.isUrl(raw.articleUrl.value), "article_url")
  }

  /**
   * A missing topic or an unknown provider stops the object check outright,
   * so the refinement does not run; a failed length, format or range check
   * does not stop it.
   */
  predicate Aborted(raw: RawBody) {
    raw.topic.None? || (raw.provider.Some? && raw.provider.value != "gemini")
  }

  function TrimOpt(o: Option<string>): Option<string> {
    if o.Some? then Some(Trim(o.value)) else None
  }

  function Normalize(raw: RawBody): Body {
    Body(
      if raw.topic.Some? then Trim(raw.topic.value) else "",
      raw.startDate, raw.endDate,
      if raw.title.Some? then Trim(raw.title.value) else DefaultTitle,
      TrimOpt(raw.intro), TrimOpt(raw.newsletterType), raw.features, raw.links,
      TrimOpt(raw.location), TrimOpt(raw.content), TrimOpt(raw.keyDetails), raw.tone, raw.sections,
      TrimOpt(raw.preset), if raw.dryRun.Some? then raw.dryRun.value else true,
      raw.to, raw.articleUrl, raw.articleHtml)
  }

  /** No field check fails iff every given field passes its check. */
  lemma FieldIssuesEmpty(raw: RawBody, v: Validators)
    ensures FieldIssues(raw, v) == [] <==>
      && raw.topic.Some? && Utf16Length(Trim(raw.topic.value)) >= 2
      && (raw.startDate.Some? ==> IsIsoDateShape(raw.startDate.value))
      && (raw.endDate.Some? ==> IsIsoDateShape(raw.endDate.value))
      && (raw.title.Some? ==> Utf16Length(Trim(raw.title.value)) >= 2)
      && (raw.sections.Some? ==> 2 <= raw.sections.value <= 8)
      && (raw.to.Some? ==> v.isEmail(raw.to.value))
      && (raw.provider.Some? ==> raw.provider.value == "gemini")
      && (raw.articleUrl.Some? ==> v.isUrl(raw.articleUrl.value))
  {
  }

  /** Both dates given and the start after the end, in string order. */
  predicate OutOfOrder(start: Option<string>, end: Option<string>) {
    Given(start) && Given(end) && StrLess(end.value, start.value)
  }

  /** `BodySchema.safeParse(json)`. */
  function Validate(raw: RawBody, v: Validators): (r: Parsed)
    ensures r.Valid? <==> FieldIssues(raw, v) == [] && !OutOfOrder(raw.startDate, raw.endDate)
    ensures r.Valid? ==> r.body == Normalize(raw)
    ensures r.Invalid? ==> r.issues != []
  {
    var fields := FieldIssues(raw, v);
    var order := if !Aborted(raw) && OutOfOrder(raw.startDate, raw.endDate) then [OrderIssue(OrderMessage)] else [];
    if fields + order == [] then Valid(Normalize(raw)) else Invalid(fields + order)
  }

  /**
   * A body is accepted iff every field passes its check and the dates are in
   * order as strings.
   */
  lemma ValidateAccepts(raw: RawBody, v: Validators)
    ensures Validate(raw, v).Valid? <==>
      && raw.topic.Some? && Utf16Length(Trim(raw.topic.value)) >= 2
      && (raw.startDate.Some? ==> IsIsoDateShape(raw.startDate.value))
      && (raw.endDate.Some? ==> IsIsoDateShape(raw.endDate.value))
      && (raw.title.Some? ==> Utf16Length(Trim(raw.title.value)) >= 2)
      && (raw.sections.Some? ==> 2 <= raw.sections.value <= 8)
      && (raw.to.Some? ==> v.isEmail(raw.to.value))
      && (raw.provider.Some? ==> raw.provider.value == "gemini")
      && (raw.articleUrl.Some? ==> v.isUrl(raw.articleUrl.value))
      && !OutOfOrder(raw.startDate, raw.endDate)
  {
    FieldIssuesEmpty(raw, v);
  }

  /** An accepted body has topic and title of at least two units, well-shaped dates and sections in range. */
  lemma AcceptedBodyFacts(raw: RawBody, v: Validators)
    ensures var r := Validate(raw, v);
      r.Valid? ==>
        && Utf16Length(r.body.topic) >= 2 && Utf16Length(r.body.title) >= 2
        && (r.body.startDate.Some? ==> IsIsoDateShape(r.body.startDate.value))
        && (r.body.endDate.Some? ==> IsIsoDateShape(r.body.endDate.value))
        && (r.body.sections.Some? ==> 2 <= r.body.sections.value <= 8)
  {
    FieldIssuesEmpty(raw, v);
  }

  // ---------------------------------------------------------------------------
  // String order of dates

  /** 10 to the power n: above n, and a multiple of ten for every n > 0. */
  function Pow10(n: nat): (r: nat)
    ensures r > n
    ensures n > 0 ==> r % 10 == 0
  {
    if n == 0 then 1 else 10 * Pow10(n - 1)
  }

  function DigitCount(s: string): nat {
    if s == [] then 0 else (if IsDigit(s[0]) then 1 else 0) + DigitCount(s[1..])
  }

  /** The digits of `s`, other characters skipped, read as one decimal number. */
  function DigitsValue(s: string): nat {
    if s == [] then 0
    else if IsDigit(s[0]) then DigitValue(s[0]) * Pow10(DigitCount(s[1..])) + DigitsValue(s[1..])
    else DigitsValue(s[1..])
  }

  lemma MulMono(x: nat, y: nat, p: nat)
    requires x <= y
    ensures x * p <= y * p
  {
  }

  lemma {:induction false} DigitsValueBound(s: string)
    ensures DigitsValue(s) < Pow10(DigitCount(s))
  {
    if s != [] {
      DigitsValueBound(s[1..]);
      if IsDigit(s[0]) {
        var d, p := DigitValue(s[0]), Pow10(DigitCount(s[1..]));
        assert Pow10(DigitCount(s)) == 10 * p;
        DigitStep(d, p, DigitsValue(s[1..]));
      }
    }
  }

  /** One more leading digit stays below the next power of ten. */
  lemma DigitStep(d: nat, p: nat, v: nat)
    requires d <= 9 && v < p
    ensures d * p + v < 10 * p
  {
    MulMono(d + 1, 10, p);
    assert (d + 1) * p == d * p + p;
  }

  /** Two strings with digits at the same places and equal characters elsewhere. */
  predicate SameShape(a: string, b: string) {
    |a| == |b| && forall i :: 0 <= i < |a| ==> (IsDigit(a[i]) <==> IsDigit(b[i])) && (!IsDigit(a[i]) ==> a[i] == b[i])
  }

  lemma {:induction false} SameShapeCount(a: string, b: string)
    requires SameShape(a, b)
    ensures DigitCount(a) == DigitCount(b)
  {
    if a != [] {
      assert SameShape(a[1..], b[1..]) by {
        forall i | 0 <= i < |a| - 1 ensures a[1..][i] == a[i + 1] && b[1..][i] == b[i + 1] { }
      }
      SameShapeCount(a[1..], b[1..]);
    }
  }

  /** A larger leading digit outweighs whatever follows it. */
  lemma LeadingDigit(da: nat, db: nat, p: nat, va: nat, vb: nat)
    requires va < p && vb < p
    ensures da < db ==> da * p + va < db * p + vb
    ensures db < da ==> db * p + vb < da * p + va
    ensures da == db ==> (da * p + va < db * p + vb <==> va < vb)
  {
    if da < db {
      MulMono(da + 1, db, p);
      assert (da + 1) * p == da * p + p;
    } else if db < da {
      MulMono(db + 1, da, p);
      assert (db + 1) * p == db * p + p;
    }
  }

  /** For strings of the same shape, string order is the order of their digit values. */
  lemma {:induction false} StringOrderIsNumeric(a: string, b: string)
    requires SameShape(a, b)
    ensures StrLess(a, b) <==> DigitsValue(a) < DigitsValue(b)
  {
    if a != [] {
      assert SameShape(a[1..], b[1..]) by {
        forall i | 0 <= i < |a| - 1 ensures a[1..][i] == a[i + 1] && b[1..][i] == b[i + 1] { }
      }
      SameShapeCount(a[1..], b[1..]);
      StringOrderIsNumeric(a[1..], b[1..]);
      if IsDigit(a[0]) {
        var p := Pow10(DigitCount(a[1..]));
        DigitsValueBound(a[1..]);
        DigitsValueBound(b[1..]);
        LeadingDigit(DigitValue(a[0]), DigitValue(b[0]), p, DigitsValue(a[1..]), DigitsValue(b[1..]));
      }
    }
  }

  lemma DateDigitsValue(s: string)
    requires IsIsoDateShape(s)
    ensures DigitsValue(s) == Year(s) * 10000 + Month(s) * 100 + Day(s)
  {
    assert Pow10(1) == 10 && Pow10(2) == 100 && Pow10(3) == 1000 && Pow10(4) == 10000;
    assert Pow10(5) == 100000 && Pow10(6) == 1000000 && Pow10(7) == 10000000;
    assert s[9..][1..] == [];
    assert DigitCount(s[9..]) == 1 && DigitsValue(s[9..]) == DigitValue(s[9]);
    assert s[8..][1..] == s[9..];
    assert DigitCount(s[8..]) == 2 && DigitsValue(s[8..]) == Day(s);
    assert s[7..][1..] == s[8..];
    assert DigitCount(s[7..]) == 2 && DigitsValue(s[7..]) == Day(s);
    assert s[6..][1..] == s[7..];
    assert DigitCount(s[6..]) == 3 && DigitsValue(s[6..]) == DigitValue(s[6]) * 100 + Day(s);
    assert s[5..][1..] == s[6..];
    assert DigitCount(s[5..]) == 4 && DigitsValue(s[5..]) == Month(s) * 100 + Day(s);
    assert s[4..][1..] == s[5..];
    assert DigitCount(s[4..]) == 4 && DigitsValue(s[4..]) == Month(s) * 100 + Day(s);
    assert s[3..][1..] == s[4..];
    assert DigitCount(s[3..]) == 5 && DigitsValue(s[3..]) == DigitValue(s[3]) * 10000 + Month(s) * 100 + Day(s);
    assert s[2..][1..] == s[3..];
    assert DigitCount(s[2..]) == 6;
    assert DigitsValue(s[2..]) == DigitValue(s[2]) * 100000 + DigitValue(s[3]) * 10000 + Month(s) * 100 + Day(s);
    assert s[1..][1..] == s[2..];
    assert DigitCount(s[1..]) == 7;
    assert DigitsValue(s[1..]) == DigitValue(s[1]) * 1000000 + DigitsValue(s[2..]);
    assert DigitsValue(s) == DigitValue(s[0]) * 10000000 + DigitsValue(s[1..]);
  }

  /**
   * For `YYYY-MM-DD` strings the string comparison of the refinement is the
   * order of YYYYMMDD, and, for days of the calendar, the order of the dates
   * as the date window of the fetch tool reads them.
   */
  lemma DateStringOrder(a: string, b: string)
    requires IsIsoDateShape(a) && IsIsoDateShape(b)
    ensures StrLess(a, b) <==> Year(a) * 10000 + Month(a) * 100 + Day(a) < Year(b) * 10000 + Month(b) * 100 + Day(b)
    ensures IsCalendarDate(a) && IsCalendarDate(b) ==> (StrLess(a, b) <==> ParseDate(a).value < ParseDate(b).value)
  {
    assert SameShape(a, b);
    StringOrderIsNumeric(a, b);
    DateDigitsValue(a);
    DateDigitsValue(b);
    if IsCalendarDate(a) && IsCalendarDate(b) {
      DayNumberOrder(Year(a), Month(a), Day(a), Year(b), Month(b), Day(b));
    }
  }

  /** An accepted request whose dates are days of the calendar never has a date window whose end precedes its start. */
  lemma AcceptedWindowOrdered(raw: RawBody, v: Validators)
    requires Validate(raw, v).Valid?
    ensures var b := Validate(raw, v).body;
      b.startDate.Some? && b.endDate.Some? && IsCalendarDate(b.startDate.value) && IsCalendarDate(b.endDate.value) ==>
        ParseDate(b.startDate.value).value <= ParseDate(b.endDate.value).value
  {
    var b := Validate(raw, v).body;
    if b.startDate.Some? && b.endDate.Some? && IsCalendarDate(b.startDate.value) && IsCalendarDate(b.endDate.value) {
      DateStringOrder(b.endDate.value, b.startDate.value);
    }
  }

  /** A request with the given topic and dates and nothing else. */
  function DatedRequest(topic: string, start: string, end: string): RawBody {
    RawBody(Some(topic), Some(start), Some(end), None, None, None, None, None, None, None, None, None,
      None, None, None, None, None, None, None)
  }

  /**
   * As written, the refinement compares the date strings, so a start day past
   * its month's end is accepted before a later-named end that is an earlier
   * date: the window of the fetch tool is then empty for every dated post.
   */
  lemma RolledOverWindowAccepted(topic: string, v: Validators)
    requires Utf16Length(Trim(topic)) >= 2
    ensures Validate(DatedRequest(topic, "2025-02-30", "2025-03-01"), v).Valid?
    ensures Earlier(ParseDate("2025-03-01"), ParseDate("2025-02-30"))
    ensures forall p: Post :: ParseDate(p.published).Some? ==> !InRange(p, Some("2025-02-30"), Some("2025-03-01"))
  {
    ParseDateRollsOver();
    EmptyWindow("2025-02-30", "2025-03-01");
    RolledOverAccepted(topic, v);
  }

  lemma RolledOverAccepted(topic: string, v: Validators)
    requires Utf16Length(Trim(topic)) >= 2
    ensures Validate(DatedRequest(topic, "2025-02-30", "2025-03-01"), v).Valid?
  {
    RolledOverShapes();
    RolledOverNotOutOfOrder();
    DatedAccepted(topic, "2025-02-30", "2025-03-01", v);
  }

  lemma RolledOverShapes()
    ensures IsIsoDateShape("2025-02-30") && IsIsoDateShape("2025-03-01")
  {
  }

  lemma RolledOverNotOutOfOrder()
    ensures !StrLess("2025-03-01", "2025-02-30")
  {
    StrLessAt("2025-02-30", "2025-03-01", 6);
    StrLessAsymmetric("2025-02-30", "2025-03-01");
  }

  lemma DatedAccepted(topic: string, start: string, end: string, v: Validators)
    requires Utf16Length(Trim(topic)) >= 2
    requires IsIsoDateShape(start) && IsIsoDateShape(end) && !StrLess(end, start)
    ensures Validate(DatedRequest(topic, start, end), v).Valid?
  {
    var raw := DatedRequest(topic, start, end);
    assert FieldIssues(raw, v) == [] by { FieldIssuesEmpty(raw, v); }
  }

  /** Both dates given and the start after the end as dates. */
  predicate OutOfOrderByDate(start: Option<string>, end: Option<string>) {
    Given(start) && Given(end) && Earlier(ParseDate(end.value), ParseDate(start.value))
  }

  /** The schema with the refinement comparing the parsed dates instead of the strings. */
  function ValidateByDate(raw: RawBody, v: Validators): (r: Parsed)
    ensures r.Valid? <==> FieldIssues(raw, v) == [] && !OutOfOrderByDate(raw.startDate, raw.endDate)
    ensures r.Valid? ==> r.body == Normalize(raw)
    ensures r.Invalid? ==> r.issues != []
  {
    var fields := FieldIssues(raw, v);
    var order := if !Aborted(raw) && OutOfOrderByDate(raw.startDate, raw.endDate) then [OrderIssue(OrderMessage)] else [];
    if fields + order == [] then Valid(Normalize(raw)) else Invalid(fields + order)
  }

  /**
   * With the dates compared as dates, an accepted window holds its own start
   * day, so no window is empty; on days of the calendar the corrected schema
   * decides exactly as the string comparison does.
   */
  lemma ByDateWindowHoldsStart(raw: RawBody, v: Validators, p: Post)
    requires ValidateByDate(raw, v).Valid?
    requires raw.startDate.Some? && p.published == raw.startDate.value
    ensures InRange(p, raw.startDate, raw.endDate)
    ensures IsCalendarDate(raw.startDate.value) && raw.endDate.Some? && IsCalendarDate(raw.endDate.value) ==>
      (Validate(raw, v).Valid? <==> ValidateByDate(raw, v).Valid?)
  {
    FieldIssuesEmpty(raw, v);
    if IsCalendarDate(raw.startDate.value) && raw.endDate.Some? && IsCalendarDate(raw.endDate.value) {
      DateStringOrder(raw.endDate.value, raw.startDate.value);
    }
  }

  // ---------------------------------------------------------------------------
  // The direct writer: prompt and HTML extraction

  /** `tone` as a tool argument: one string or a list. */
  datatype Tone = ToneText(text: string) | ToneList(parts: seq<string>)

  /** `Array.isArray(t) ? t.join(", ") : t`. */
  function ToneString(t: Option<Tone>): Option<string> {
    match t
    case None => None
    case Some(ToneText(s)) => Some(s)
    case Some(ToneList(xs)) => Some(Join(xs, ", "))
  }

  function ListTone(t: Option<seq<string>>): Option<Tone> {
    if t.Some? then Some(ToneList(t.value)) else None
  }

  /** The arguments of `write_newsletter` that reach the prompt. */
  datatype WriterArgs = WriterArgs(
    title: Option<string>,
    intro: Option<string>,
    topic: Option<string>,
    newsletterType: Option<string>,
    features: Option<seq<string>>,
    links: Option<seq<string>>,
    location: Option<string>,
    content: Option<string>,
    keyDetails: Option<string>,
    tone: Option<Tone>,
    sections: Option<int>,
    preset: Option<string>,
    articleUrl: Option<string>)

  /** `a ?? b`. */
  function Or<T>(a: Option<T>, b: Option<T>): (r: Option<T>)
    ensures a.Some? ==> r == a
    ensures a.None? ==> r == b
  {
    if a.Some? then a else b
  }

  function PromptHead(a: WriterArgs, b: Body): string {
    "Write a newsletter titled \"" + (if a.title.Some? then a.title.value else b.title) + "\" about "
      + (if a.topic.Some? then a.topic.value else b.topic)
  }

  function ToneOf(a: WriterArgs, b: Body): Option<string> {
    ToneString(Or(a.tone, ListTone(b.tone)))
  }

  /** The section count as prompt text, when it is truthy. */
  function SectionsText(a: WriterArgs, b: Body): Option<string> {
    var s := Or(a.sections, b.sections);
    if s.Some? && s.value != 0 then Some(IntToString(s.value)) else None
  }

  /** A list clause: present iff the list is given and non-empty. */
  function ListClause(o: Option<seq<string>>, before: string): (r: string)
    requires before != ""
    ensures r == "" <==> !(o.Some? && |o.value| > 0)
  {
    if o.Some? && |o.value| > 0 then
      assert |before + Join(o.value, ", ")| >= |before|;
      before + Join(o.value, ", ")
    else ""
  }

  const TypeLead := " (Type: "
  const TypeEnd := ")"
  const ToneLead := " in a "
  const ToneEnd := " tone"
  const SectionsLead := " with "
  const SectionsEnd := " sections"
  const IntroLead := ". Use this introduction: "
  const FeaturesLead := ". Include these content features: "
  const LocationLead := ". Focus on location: "
  const KeyDetailsLead := ". Key details to highlight: "
  const ContentLead := ". Additional content context: "
  const LinksLead := ". Include these relevant links: "
  const UrlLead := ". Include content from: "
  const PresetLead := ". Use "
  const PresetEnd := " preset style and structure"

  function PromptOpening(a: WriterArgs, b: Body): string {
    PromptHead(a, b)
      + Clause(Or(a.newsletterType, b.newsletterType), TypeLead, TypeEnd)
      + Clause(ToneOf(a, b), ToneLead, ToneEnd)
      + Clause(SectionsText(a, b), SectionsLead, SectionsEnd)
      + Clause(Or(a.intro, b.intro), IntroLead, "")
      + ListClause(Or(a.features, b.features), FeaturesLead)
  }

  /** The writer prompt: the head, then each clause whose field (argument, else request) is truthy, in a fixed order. */
  function Prompt(a: WriterArgs, b: Body): string {
    PromptOpening(a, b)
      + Clause(Or(a.location, b.location), LocationLead, "")
      + Clause(Or(a.keyDetails, b.keyDetails), KeyDetailsLead, "")
      + Clause(Or(a.content, b.content), ContentLead, "")
      + ListClause(Or(a.links, b.links), LinksLead)
      + Clause(Or(a.articleUrl, b.articleUrl), UrlLead, "")
      + Clause(Or(a.preset, b.preset), PresetLead, PresetEnd)
  }

  /** `prompt += before + value + after` when the value is truthy. */
  method AddClause(prompt: string, o: Option<string>, before: string, after: string) returns (r: string)
    ensures r == prompt + Clause(o, before, after)
  {
    r := prompt;
    if Given(o) {
      r := r + (before + o.value + after);
    }
  }

  /** `prompt += before + list.join(", ")` when the list is given and non-empty. */
  method AddList(prompt: string, o: Option<seq<string>>, before: string) returns (r: string)
    requires before != ""
    ensures r == prompt + ListClause(o, before)
  {
    r := prompt;
    if o.Some? && |o.value| > 0 {
      r := r + (before + Join(o.value, ", "));
    }
  }

  /** The prompt of `write_newsletter`, grown clause by clause. */
  method BuildPrompt(a: WriterArgs, b: Body) returns (prompt: string)
    ensures prompt == Prompt(a, b)
  {
    prompt := PromptOpeningText(a, b);
    prompt := AddClause(prompt, Or(a.location, b.location), LocationLead, "");
    prompt := AddClause(prompt, Or(a.keyDetails, b.keyDetails), KeyDetailsLead, "");
    prompt := AddClause(prompt, Or(a.content, b.content), ContentLead, "");
    prompt := AddList(prompt, Or(a.links, b.links), LinksLead);
    prompt := AddClause(prompt, Or(a.articleUrl, b.articleUrl), UrlLead, "");
    prompt := AddClause(prompt, Or(a.preset, b.preset), PresetLead, PresetEnd);
  }

  /** The first half of the prompt: the head, type, tone, sections, introduction and features. */
  method PromptOpeningText(a: WriterArgs, b: Body) returns (prompt: string)
    ensures prompt == PromptOpening(a, b)
  {
    prompt := PromptHead(a, b);
    prompt := AddClause(prompt, Or(a.newsletterType, b.newsletterType), TypeLead, TypeEnd);
    prompt := AddClause(prompt, ToneOf(a, b), ToneLead, ToneEnd);
    var sections := Or(a.sections, b.sections);
    if sections.Some? && sections.value != 0 {
      prompt := prompt + (SectionsLead + IntToString(sections.value) + SectionsEnd);
    }
    assert prompt == PromptHead(a, b) + Clause(Or(a.newsletterType, b.newsletterType), TypeLead, TypeEnd)
      + Clause(ToneOf(a, b), ToneLead, ToneEnd) + Clause(SectionsText(a, b), SectionsLead, SectionsEnd);
    prompt := AddClause(prompt, Or(a.intro, b.intro), IntroLead, "");
    prompt := AddList(prompt, Or(a.features, b.features), FeaturesLead);
  }

  /** Each prompt clause is there iff its field is truthy, and the prompt opens with the head. */
  lemma PromptClauses(a: WriterArgs, b: Body)
    ensures StartsWith(Prompt(a, b), PromptHead(a, b))
    ensures Prompt(a, b) == PromptHead(a, b) <==>
      && !Given(Or(a.newsletterType, b.newsletterType)) && !Given(ToneOf(a, b)) && SectionsText(a, b).None?
      && !Given(Or(a.intro, b.intro)) && !(Or(a.features, b.features).Some? && |Or(a.features, b.features).value| > 0)
      && !Given(Or(a.location, b.location)) && !Given(Or(a.keyDetails, b.keyDetails)) && !Given(Or(a.content, b.content))
      && !(Or(a.links, b.links).Some? && |Or(a.links, b.links).value| > 0)
      && !Given(Or(a.articleUrl, b.articleUrl)) && !Given(Or(a.preset, b.preset))
  {
    var rest := Prompt(a, b)[|PromptHead(a, b)|..];
    assert Prompt(a, b) == PromptHead(a, b) + rest;
    PrefixStartsWith(PromptHead(a, b), rest);
    var s := SectionsText(a, b);
    if s.Some? {
      assert Clause(s, SectionsLead, SectionsEnd) == SectionsLead + s.value + SectionsEnd;
    }
  }

  const DoctypeOpen := "<!doctype html"
  const HtmlOpen := "<html"
  const HtmlClose := "</html>"

  /**
   * The case-insensitive match of `open`, anything, then `</html>`: the
   * leftmost start, and (the middle being greedy) the last closing tag.
   */
  function MatchSpan(text: string, open: string): (r: Option<(nat, nat)>)
    ensures r.Some? ==> r.value.0 <= r.value.1 <= |text|
  {
    var low := Lower(text);
    match IndexOf(low, open)
    case None => None
    case Some(i) =>
      match LastIndexOf(low, HtmlClose)
      case None => None
      case Some(j) => if i + |open| <= j then Some((i, j + |HtmlClose|)) else None
  }

  /**
   * A match starts at the leftmost opening tag and ends after the last
   * closing tag; without a match no closing tag follows an opening tag.
   */
  lemma MatchSpanSpec(text: string, open: string)
    ensures MatchSpan(text, open).Some? ==> var (i, k) := MatchSpan(text, open).value;
      && i + |open| + |HtmlClose| <= k <= |text|
      && At(Lower(text), open, i) && At(Lower(text), HtmlClose, k - |HtmlClose|)
      && (forall j: nat :: j < i ==> !At(Lower(text), open, j))
      && (forall j: nat :: k - |HtmlClose| < j ==> !At(Lower(text), HtmlClose, j))
    ensures MatchSpan(text, open).None? ==> forall i: nat, j: nat :: At(Lower(text), open, i) && At(Lower(text), HtmlClose, j) ==> j < i + |open|
  {
  }

  /** The HTML document in the model's text: a doctype match, else an `<html>` match, else the text, trimmed. */
  function ExtractHtml(text: string): string {
    var m := if MatchSpan(text, DoctypeOpen).Some? then MatchSpan(text, DoctypeOpen) else MatchSpan(text, HtmlOpen);
    Trim(if m.Some? then text[m.value.0..m.value.1] else text)
  }

  lemma LowerSlice(s: string, i: nat, k: nat)
    requires i <= k <= |s|
    ensures Lower(s[i..k]) == Lower(s)[i..k]
  {
  }

  /**
   * A matched span is a piece of the text that starts with `open` and ends
   * with the closing tag, ignoring case, and needs no trimming.
   */
  lemma SpanFacts(text: string, open: string)
    requires MatchSpan(text, open).Some? && open != [] && open[0] == '<'
    ensures var (i, k) := MatchSpan(text, open).value;
      var sub := text[i..k];
      && Trim(sub) == sub && Contains(text, sub)
      && StartsWith(Lower(sub), open) && EndsWith(Lower(sub), HtmlClose)
  {
    MatchSpanSpec(text, open);
    var (i, k) := MatchSpan(text, open).value;
    MatchedPiece(text, open, i, k);
  }

  /** The piece between an opening tag at `i` and a closing tag ending at `k`. */
  lemma MatchedPiece(text: string, open: string, i: nat, k: nat)
    requires open != [] && open[0] == '<' && i + |open| + |HtmlClose| <= k <= |text|
    requires At(Lower(text), open, i) && At(Lower(text), HtmlClose, k - |HtmlClose|)
    ensures var sub := text[i..k];
      && Trim(sub) == sub && Contains(text, sub)
      && StartsWith(Lower(sub), open) && EndsWith(Lower(sub), HtmlClose)
  {
    var sub := text[i..k];
    var low := Lower(text);
    SliceContained(text, i, k);
    LowerSlice(text, i, k);
    var ls := Lower(sub);
    assert ls == low[i..k];
    assert ls[..|open|] == low[i..i + |open|];
    assert ls[|sub| - |HtmlClose|..] == low[k - |HtmlClose|..k];
    assert ls[0] == open[0];
    assert ls[|sub| - 1] == HtmlClose[|HtmlClose| - 1];
    assert LowerChar(sub[0]) == '<' && LowerChar(sub[|sub| - 1]) == '>';
    TrimKeeps(sub);
  }

  lemma SliceContained(s: string, i: nat, k: nat)
    requires i <= k <= |s|
    ensures Contains(s, s[i..k])
  {
    ContainsAt(s, s[i..k], i);
  }

  /**
   * The extracted HTML is a piece of the text; with a doctype match it is that
   * document, otherwise with an `<html>` match that element, otherwise the
   * whole text trimmed.
   */
  lemma ExtractHtmlShape(text: string)
    ensures Contains(text, ExtractHtml(text))
    ensures MatchSpan(text, DoctypeOpen).Some? ==>
      StartsWith(Lower(ExtractHtml(text)), DoctypeOpen) && EndsWith(Lower(ExtractHtml(text)), HtmlClose)
    ensures MatchSpan(text, DoctypeOpen).None? && MatchSpan(text, HtmlOpen).Some? ==>
      StartsWith(Lower(ExtractHtml(text)), HtmlOpen) && EndsWith(Lower(ExtractHtml(text)), HtmlClose)
    ensures MatchSpan(text, DoctypeOpen).None? && MatchSpan(text, HtmlOpen).None? ==> ExtractHtml(text) == Trim(text)
  {
    if MatchSpan(text, DoctypeOpen).Some? {
      ExtractFromSpan(text, DoctypeOpen);
    } else if MatchSpan(text, HtmlOpen).Some? {
      ExtractFromSpan(text, HtmlOpen);
    } else {
      assert ExtractHtml(text) == Trim(text);
      TrimContained(text);
    }
  }

  /** When the chosen pattern matches, the extracted HTML is the matched span. */
  lemma ExtractFromSpan(text: string, open: string)
    requires open == DoctypeOpen || (open == HtmlOpen && MatchSpan(text, DoctypeOpen).None?)
    requires MatchSpan(text, open).Some?
    ensures Contains(text, ExtractHtml(text))
    ensures StartsWith(Lower(ExtractHtml(text)), open) && EndsWith(Lower(ExtractHtml(text)), HtmlClose)
  {
    var (i, k) := MatchSpan(text, open).value;
    assert ExtractHtml(text) == Trim(text[i..k]);
    SpanFacts(text, open);
  }

  // ---------------------------------------------------------------------------
  // The planner's HTML

  /** One tool result of a planner step, with its `html` when it has one. */
  datatype ToolOutput = ToolOutput(toolName: string, html: Option<string>)

  datatype Step = Step(toolResults: seq<ToolOutput>)

  /** `steps.flatMap(s => s.toolResults)`. */
  function Flatten(steps: seq<Step>): seq<ToolOutput> {
    if steps == [] then [] else steps[0].toolResults + Flatten(steps[1..])
  }

  const WriterTool := "write_newsletter"
  const RenderTool := "generate_email"

  predicate Produced(o: ToolOutput, name: string) {
    o.toolName == name && Given(o.html)
  }

  /** `find`: the first result of the tool whose html is truthy. */
  function FindFirst(rs: seq<ToolOutput>, name: string): (r: Option<nat>)
    ensures r.Some? ==> r.value < |rs| && Produced(rs[r.value], name)
    ensures r.Some? ==> forall j :: 0 <= j < r.value ==> !Produced(rs[j], name)
    ensures r.None? ==> forall j :: 0 <= j < |rs| ==> !Produced(rs[j], name)
  {
    if rs == [] then None
    else if Produced(rs[0], name) then Some(0)
    else
      var t := FindFirst(rs[1..], name);
      if t.Some? then Some(t.value + 1) else None
  }

  function HtmlAt(rs: seq<ToolOutput>, i: Option<nat>): Option<string>
    requires i.Some? ==> i.value < |rs|
  {
    if i.Some? then rs[i.value].html else None
  }

  /** `fromWriter?.result?.html || fromBuilder?.result?.html || fromGenerateEmail?.result?.html`. */
  function Extract(steps: seq<Step>): Option<string> {
    var rs := Flatten(steps);
    var fromWriter := FindFirst(rs, WriterTool);
    var fromBuilder := FindFirst(rs, RenderTool);
    var fromGenerateEmail := FindFirst(rs, RenderTool);
    if Given(HtmlAt(rs, fromWriter)) then HtmlAt(rs, fromWriter)
    else if Given(HtmlAt(rs, fromBuilder)) then HtmlAt(rs, fromBuilder)
    else HtmlAt(rs, fromGenerateEmail)
  }

  /**
   * A writer result with truthy html beats every render result; within one
   * tool the first in step order wins; a result with empty html is passed
   * over; with neither there is no html.
   */
  lemma ExtractPriority(steps: seq<Step>)
    ensures var rs, r := Flatten(steps), Extract(steps);
      && ((exists i :: 0 <= i < |rs| && Produced(rs[i], WriterTool)) ==>
            exists k :: 0 <= k < |rs| && Produced(rs[k], WriterTool) && r == rs[k].html
              && forall j :: 0 <= j < k ==> !Produced(rs[j], WriterTool))
      && ((forall i :: 0 <= i < |rs| ==> !Produced(rs[i], WriterTool)) && (exists i :: 0 <= i < |rs| && Produced(rs[i], RenderTool)) ==>
            exists k :: 0 <= k < |rs| && Produced(rs[k], RenderTool) && r == rs[k].html
              && forall j :: 0 <= j < k ==> !Produced(rs[j], RenderTool))
      && ((forall i :: 0 <= i < |rs| ==> !Produced(rs[i], WriterTool) && !Produced(rs[i], RenderTool)) ==> r.None?)
      && (r.None? || Given(r))
  {
  }

  // ---------------------------------------------------------------------------
  // The guardrail chain

  datatype Outcome<T> = Ok(value: T) | Throws

  datatype Delivery = NotAttempted | Sent(info: string) | SendFailed

  datatype Reply =
    | BadRequest(error: string, issues: seq<Issue>)
    | ServerError(error: string)
    | BadGateway(error: string, steps: seq<Step>)
    | Success(html: Option<string>, delivery: Delivery)
      /** An exception no handler caught: the framework answers 500 without the endpoint's JSON. */
    | Unhandled

  function Status(r: Reply): int {
    match r
    case BadRequest(_, _) => 400
    case ServerError(_) => 500
    case BadGateway(_, _) => 502
    case Success(_, _) => 200
    case Unhandled => 500
  }

  /** The calls the endpoint makes to the model, the tools and the mail transport, in order. */
  datatype Call =
    | PlannerCall
    | WriterCall(prompt: string)
    | FetchCall(args: FetchArgs)
    | SummarizeCall(items: seq<Post>, maxChars: int)
    | RenderCall(email: EmailArgs)
    | SendCall(to: string, subject: string, html: string)

  /** Everything the endpoint depends on but does not compute. */
  datatype World = World(
    body: Option<RawBody>,
    modelReady: bool,
    planner: Outcome<seq<Step>>,
    writerText: Outcome<string>,
    fetch: FetchArgs -> Outcome<seq<Post>>,
    summarize: (seq<Post>, int) -> Outcome<seq<SummaryItem>>,
    render: EmailArgs -> Outcome<string>,
    send: Outcome<string>)

  const FallbackMaxChars := 400
  const BadJsonError := "Invalid JSON"
  const BadBodyError := "Invalid body"
  const ModelError := "Failed to initialize AI model"
  const FallbackError := "No HTML produced by the agent and fallback failed."

  /** The direct writer's arguments: every field from the request. */
  function WriterArgsOf(b: Body): WriterArgs {
    WriterArgs(Some(b.title), b.intro, Some(b.topic), b.newsletterType, b.features, b.links, b.location,
      b.content, b.keyDetails, ListTone(b.tone), b.sections, b.preset, b.articleUrl)
  }

  /** The direct writer: its html when the model answered, nothing when it threw. */
  function DirectWriter(b: Body, text: Outcome<string>): Option<string> {
    if text.Ok? then Some(ExtractHtml(text.value)) else None
  }

  function FirstFetch(b: Body): FetchArgs {
    FetchArgs(b.topic, b.startDate, b.endDate)
  }

  function RetryFetch(b: Body): FetchArgs {
    FetchArgs("", b.startDate, b.endDate)
  }

  function AsEmailItem(s: SummaryItem): EmailItem {
    EmailItem(s.title, Some(s.url), Some(s.summary), Some(s.published), None, None)
  }

  function AsEmailItems(xs: seq<SummaryItem>): (r: seq<EmailItem>)
    ensures |r| == |xs| && forall i :: 0 <= i < |xs| ==> r[i] == AsEmailItem(xs[i])
  {
    seq(|xs|, i requires 0 <= i < |xs| => AsEmailItem(xs[i]))
  }

  function JoinedTone(t: Option<seq<string>>): Option<string> {
    if t.Some? then Some(Join(t.value, ", ")) else None
  }

  /** The render arguments of the fallback: the request's fields, the summaries as items, no calls to action. */
  function RenderArgs(b: Body, summaries: seq<SummaryItem>): EmailArgs {
    EmailArgs(b.title, Some(if Given(b.intro) then b.intro.value else "Curated updates on " + b.topic + "."),
      b.newsletterType, b.features, b.links, b.location, b.content, b.keyDetails, JoinedTone(b.tone),
      Some(AsEmailItems(summaries)), None)
  }

  /** Summarize the items with at most 400 characters, then render. */
  function SummarizeAndRender(b: Body, w: World, items: seq<Post>): (Outcome<string>, seq<Call>) {
    match w.summarize(items, FallbackMaxChars)
    case Throws => (Throws, [SummarizeCall(items, FallbackMaxChars)])
    case Ok(summaries) =>
      var e := RenderArgs(b, summaries);
      (w.render(e), [SummarizeCall(items, FallbackMaxChars), RenderCall(e)])
  }

  /** The fallback tier: fetch, once more without a topic if nothing came back, then summarize and render. */
  function Fallback(b: Body, w: World): (Outcome<string>, seq<Call>) {
    match w.fetch(FirstFetch(b))
    case Throws => (Throws, [FetchCall(FirstFetch(b))])
    case Ok(items) =>
      if |items| > 0 then
        var (out, calls) := SummarizeAndRender(b, w, items);
        (out, [FetchCall(FirstFetch(b))] + calls)
      else
        match w.fetch(RetryFetch(b))
        case Throws => (Throws, [FetchCall(FirstFetch(b)), FetchCall(RetryFetch(b))])
        case Ok(retried) =>
          var (out, calls) := SummarizeAndRender(b, w, retried);
          (out, [FetchCall(FirstFetch(b)), FetchCall(RetryFetch(b))] + calls)
  }

  /** The delivery gate: send only when not a dry run, with a recipient and truthy html. */
  function Deliver(b: Body, html: Option<string>, send: Outcome<string>): (Delivery, seq<Call>) {
    if !b.dryRun && Given(b.to) && Given(html) then
      (if send.Ok? then Sent(send.value) else SendFailed, [SendCall(b.to.value, b.title, html.value)])
    else (NotAttempted, [])
  }

  function Finish(b: Body, html: Option<string>, calls: seq<Call>, send: Outcome<string>): (Reply, seq<Call>) {
    var (d, sendCalls) := Deliver(b, html, send);
    (Success(html, d), calls + sendCalls)
  }

  /** The html picked from the planner's steps; nothing when the planner threw. */
  function PlannerHtml(w: World): Option<string> {
    if w.planner.Ok? then Extract(w.planner.value) else None
  }

  /** The planner returned, but without truthy html: the guardrails take over. */
  predicate NeedsWriter(w: World) {
    w.planner.Ok? && !Given(Extract(w.planner.value))
  }

  /**
   * Everything after the request is accepted: planner, direct writer (given
   * the prompt it would be sent), fallback, delivery.
   */
  function Run(b: Body, w: World, prompt: string): (Reply, seq<Call>) {
    if w.planner.Throws? then (Unhandled, [PlannerCall])
    else
      var planned := Extract(w.planner.value);
      if Given(planned) then Finish(b, planned, [PlannerCall], w.send)
      else
        var written := DirectWriter(b, w.writerText);
        var calls := [PlannerCall, WriterCall(prompt)];
        if Given(written) then Finish(b, written, calls, w.send)
        else
          var (out, fallbackCalls) := Fallback(b, w);
          if out.Throws? then (BadGateway(FallbackError, w.planner.value), calls + fallbackCalls)
          else Finish(b, Some(out.value), calls + fallbackCalls, w.send)
  }

  /** The endpoint: the reply and the calls it made. */
  function Handle(w: World, v: Validators): (Reply, seq<Call>) {
    if w.body.None? then (BadRequest(BadJsonError, []), [])
    else
      match Validate(w.body.value, v)
      case Invalid(issues) => (BadRequest(BadBodyError, issues), [])
      case Valid(b) => if !w.modelReady then (ServerError(ModelError), []) else Run(b, w, Prompt(WriterArgsOf(b), b))
  }

  /** The fallback tier as the endpoint runs it, reassigning the items when the first fetch is empty. */
  method RunFallback(data: Body, w: World) returns (out: Outcome<string>, calls: seq<Call>)
    ensures (out, calls) == Fallback(data, w)
  {
    var first := FetchArgs(data.topic, data.startDate, data.endDate);
    calls := [FetchCall(first)];
    var fetched := w.fetch(first);
    if fetched.Throws? {
      return Throws, calls;
    }
    var items := fetched.value;
    if |items| == 0 {
      var retry := FetchArgs("", data.startDate, data.endDate);
      calls := calls + [FetchCall(retry)];
      var retried := w.fetch(retry);
      assert calls == [FetchCall(FirstFetch(data)), FetchCall(RetryFetch(data))];
      if retried.Throws? {
        return Throws, calls;
      }
      items := retried.value;
    }
    ghost var fetchCalls := calls;
    calls := calls + [SummarizeCall(items, FallbackMaxChars)];
    var summaries := w.summarize(items, FallbackMaxChars);
    if summaries.Throws? {
      assert calls == fetchCalls + SummarizeAndRender(data, w, items).1;
      return Throws, calls;
    }
    var e := RenderArgs(data, summaries.value);
    calls := calls + [RenderCall(e)];
    out := w.render(e);
    assert calls == fetchCalls + SummarizeAndRender(data, w, items).1;
  }

  /** `POST`: parse and validate the body, check the model, then respond. */
  method HandlePost(w: World, v: Validators) returns (reply: Reply, calls: seq<Call>)
    ensures (reply, calls) == Handle(w, v)
  {
    if w.body.None? {
      return BadRequest(BadJsonError, []), [];
    }
    var parsed := Validate(w.body.value, v);
    if parsed.Invalid? {
      return BadRequest(BadBodyError, parsed.issues), [];
    }
    if !w.modelReady {
      return ServerError(ModelError), [];
    }
    reply, calls := Respond(parsed.body, w);
  }

  /** An accepted request: plan, pick the html, run the guardrails, then maybe send. */
  method Respond(data: Body, w: World) returns (reply: Reply, calls: seq<Call>)
    ensures (reply, calls) == Run(data, w, Prompt(WriterArgsOf(data), data))
  {
    ghost var prompt := Prompt(WriterArgsOf(data), data);
    calls := [PlannerCall];
    if w.planner.Throws? {
      return Unhandled, calls;
    }
    var steps := w.planner.value;
    var html := Extract(steps);
    if !Given(html) {
      var text := BuildPrompt(WriterArgsOf(data), data);
      calls := calls + [WriterCall(text)];
      if w.writerText.Ok? {
        html := Some(ExtractHtml(w.writerText.value));
      }
      assert html == DirectWriter(data, w.writerText);
      assert calls == [PlannerCall, WriterCall(prompt)];
    }
    if !Given(html) {
      var out, fallbackCalls := RunFallback(data, w);
      calls := calls + fallbackCalls;
      if out.Throws? {
        return BadGateway(FallbackError, steps), calls;
      }
      html := Some(out.value);
    }
    reply, calls := SendStep(data, html, calls, w.send);
  }

  /** The last step: send when allowed, and answer with the html and the delivery. */
  method SendStep(data: Body, html: Option<string>, calls0: seq<Call>, send: Outcome<string>)
    returns (reply: Reply, calls: seq<Call>)
    ensures (reply, calls) == Finish(data, html, calls0, send)
  {
    calls := calls0;
    var delivery := NotAttempted;
    if !data.dryRun && Given(data.to) && Given(html) {
      calls := calls + [SendCall(data.to.value, data.title, html.value)];
      delivery := if send.Ok? then Sent(send.value) else SendFailed;
    } else {
      assert calls == calls0 + [];
    }
    reply := Success(html, delivery);
    assert (delivery, calls[|calls0|..]) == Deliver(data, html, send);
  }

  // ---------------------------------------------------------------------------
  // Properties of the chain

  /** A malformed, invalid or out-of-order request, or a model that did not start, is answered before any call. */
  lemma RejectedBeforeAnyCall(w: World, v: Validators)
    requires w.body.None? || Validate(w.body.value, v).Invalid? || !w.modelReady
    ensures Handle(w, v).1 == []
    ensures Status(Handle(w, v).0) == 400 || Status(Handle(w, v).0) == 500
    ensures w.body.Some? && OutOfOrder(w.body.value.startDate, w.body.value.endDate) ==>
      Status(Handle(w, v).0) == 400
  {
  }

  /** An accepted request with a working model runs the chain with the prompt built from the request. */
  lemma HandleRuns(w: World, v: Validators, b: Body)
    requires w.body.Some? && Validate(w.body.value, v) == Valid(b) && w.modelReady
    ensures Handle(w, v) == Run(b, w, Prompt(WriterArgsOf(b), b))
  {
  }

  /** With truthy planner html, neither guardrail runs and that html is the answer. */
  lemma PlannerHtmlWins(b: Body, w: World, prompt: string)
    requires Given(PlannerHtml(w))
    ensures var (reply, calls) := Run(b, w, prompt);
      && reply.Success? && reply.html == PlannerHtml(w)
      && calls[0] == PlannerCall
      && forall i :: 0 < i < |calls| ==> calls[i].SendCall?
  {
  }

  /**
   * The direct writer runs at most once, right after the planner, and exactly
   * when the planner returned without html; the fallback tier runs exactly
   * when the writer also produced no truthy html. A planner that throws is
   * the only call.
   */
  lemma GuardrailOrder(b: Body, w: World, prompt: string)
    ensures var calls := Run(b, w, prompt).1;
      && |calls| >= 1 && calls[0] == PlannerCall
      && (forall i :: 0 <= i < |calls| && calls[i].WriterCall? ==> i == 1)
      && (|calls| >= 2 && calls[1].WriterCall? <==> NeedsWriter(w))
      && (|calls| >= 2 && calls[1].WriterCall? ==> calls[1] == WriterCall(prompt))
      && ((exists i :: 0 <= i < |calls| && calls[i].FetchCall?) <==>
            NeedsWriter(w) && !Given(DirectWriter(b, w.writerText)))
      && (w.planner.Throws? ==> calls == [PlannerCall])
  {
    RunCalls(b, w, prompt);
    RunTailFacts(b, w);
    CallOrder(Run(b, w, prompt).1, prompt, NeedsWriter(w), RunTail(b, w));
    if NeedsWriter(w) && !Given(DirectWriter(b, w.writerText)) {
      assert RunTail(b, w)[0].FetchCall?;
    }
  }

  /** The calls after the planner and, when it ran, the writer. */
  function RunTail(b: Body, w: World): seq<Call> {
    if w.planner.Throws? then []
    else if Given(Extract(w.planner.value)) then Deliver(b, Extract(w.planner.value), w.send).1
    else if Given(DirectWriter(b, w.writerText)) then Deliver(b, DirectWriter(b, w.writerText), w.send).1
    else FallbackTail(b, w)
  }

  /** The chain calls the planner, then the writer when the planner left no html, then the rest. */
  lemma RunCalls(b: Body, w: World, prompt: string)
    ensures Run(b, w, prompt).1 ==
      (if NeedsWriter(w) then [PlannerCall, WriterCall(prompt)] else [PlannerCall]) + RunTail(b, w)
  {
    if NeedsWriter(w) && !Given(DirectWriter(b, w.writerText)) {
      FallbackRunCalls(b, w, prompt);
    }
  }

  lemma FallbackRunCalls(b: Body, w: World, prompt: string)
    requires NeedsWriter(w) && !Given(DirectWriter(b, w.writerText))
    ensures Run(b, w, prompt).1 == [PlannerCall, WriterCall(prompt)] + FallbackTail(b, w)
  {
    var (out, calls) := Fallback(b, w);
    var pre := [PlannerCall, WriterCall(prompt)];
    if out.Throws? {
      assert Run(b, w, prompt).1 == pre + calls;
      assert FallbackTail(b, w) == calls + [];
    } else {
      assert Run(b, w, prompt).1 == pre + calls + Deliver(b, Some(out.value), w.send).1;
    }
  }

  /** After the planner and the writer only sends and the fallback tier's tools run; a fetch runs iff the fallback does. */
  lemma RunTailFacts(b: Body, w: World)
    ensures var t := RunTail(b, w);
      && (forall i :: 0 <= i < |t| ==> !t[i].WriterCall? && !t[i].PlannerCall?)
      && (NeedsWriter(w) && !Given(DirectWriter(b, w.writerText)) ==> |t| >= 1 && t[0].FetchCall?)
      && (!NeedsWriter(w) || Given(DirectWriter(b, w.writerText)) ==> forall i :: 0 <= i < |t| ==> t[i].SendCall?)
  {
    if w.planner.Throws? {
    } else if Given(PlannerHtml(w)) {
      DeliverOnlySends(b, PlannerHtml(w), w.send);
    } else if Given(DirectWriter(b, w.writerText)) {
      DeliverOnlySends(b, DirectWriter(b, w.writerText), w.send);
    } else {
      FallbackTailFacts(b, w);
    }
  }

  /** The order facts of a call list made of the planner, maybe the writer, then other tools. */
  lemma CallOrder(calls: seq<Call>, prompt: string, writer: bool, tail: seq<Call>)
    requires calls == (if writer then [PlannerCall, WriterCall(prompt)] else [PlannerCall]) + tail
    requires forall i :: 0 <= i < |tail| ==> !tail[i].WriterCall? && !tail[i].PlannerCall?
    ensures |calls| >= 1 && calls[0] == PlannerCall
    ensures forall i :: 0 <= i < |calls| && calls[i].WriterCall? ==> i == 1
    ensures (|calls| >= 2 && calls[1].WriterCall? <==> writer)
    ensures |calls| >= 2 && calls[1].WriterCall? ==> calls[1] == WriterCall(prompt)
    ensures (exists i :: 0 <= i < |calls| && calls[i].FetchCall?) <==> (exists i :: 0 <= i < |tail| && tail[i].FetchCall?)
  {
    var k := if writer then 2 else 1;
    assert forall i :: k <= i < |calls| ==> calls[i] == tail[i - k];
    if exists i :: 0 <= i < |tail| && tail[i].FetchCall? {
      var i :| 0 <= i < |tail| && tail[i].FetchCall?;
      assert calls[i + k].FetchCall?;
    }
  }

  /** The delivery step only ever sends. */
  lemma DeliverOnlySends(b: Body, html: Option<string>, send: Outcome<string>)
    ensures forall i :: 0 <= i < |Deliver(b, html, send).1| ==> Deliver(b, html, send).1[i].SendCall?
  {
  }

  /** The calls after the planner and the writer when the fallback tier runs. */
  function FallbackTail(b: Body, w: World): seq<Call> {
    var (out, calls) := Fallback(b, w);
    calls + (if out.Throws? then [] else Deliver(b, Some(out.value), w.send).1)
  }

  /** The fallback tier starts with a fetch and never calls the planner or the writer. */
  lemma FallbackTailFacts(b: Body, w: World)
    ensures var t := FallbackTail(b, w);
      && |t| >= 1 && t[0] == FetchCall(FirstFetch(b))
      && forall i :: 0 <= i < |t| ==> !t[i].WriterCall? && !t[i].PlannerCall?
  {
    var (out, calls) := Fallback(b, w);
    FallbackCalls(b, w);
    var sent := if out.Throws? then [] else Deliver(b, Some(out.value), w.send).1;
    if out.Ok? {
      DeliverOnlySends(b, Some(out.value), w.send);
    }
    assert FallbackTail(b, w) == calls + sent;
  }

  /**
   * Within the fallback: the first fetch uses the request's topic and dates;
   * a second fetch, with an empty topic and the same dates, happens iff the
   * first returned no items, and no fetch comes later. Summarize is called
   * once, right after the last fetch, iff that fetch returned, with its items
   * and at most 400 characters; render comes last and only after a
   * successful summarize, with the summaries; a successful outcome means
   * render was called.
   */
  lemma FallbackCalls(b: Body, w: World)
    ensures var (out, calls) := Fallback(b, w);
      var retry := w.fetch(FirstFetch(b)) == Ok([]);
      var fetched := if retry then w.fetch(RetryFetch(b)) else w.fetch(FirstFetch(b));
      var k := if retry then 2 else 1;
      && |calls| >= 1 && calls[0] == FetchCall(FetchArgs(b.topic, b.startDate, b.endDate))
      && (forall i :: 0 <= i < |calls| ==> !calls[i].WriterCall? && !calls[i].SendCall? && !calls[i].PlannerCall?)
      && (|calls| >= 2 && calls[1].FetchCall? <==> retry)
      && (retry ==> calls[1] == FetchCall(FetchArgs("", b.startDate, b.endDate)))
      && (forall i :: 2 <= i < |calls| ==> !calls[i].FetchCall?)
      && (|calls| > k <==> fetched.Ok?)
      && (fetched.Ok? ==> calls[k] == SummarizeCall(fetched.value, 400))
      && (forall i :: 0 <= i < |calls| && calls[i].SummarizeCall? ==> i == k)
      && |calls| <= k + 2
      && (|calls| == k + 2 <==> fetched.Ok? && w.summarize(fetched.value, 400).Ok?)
      && (|calls| == k + 2 ==> calls[k + 1] == RenderCall(RenderArgs(b, w.summarize(fetched.value, 400).value)))
      && (out.Ok? ==> |calls| == k + 2)
  {
  }

  /**
   * The reply is 502 exactly when the fallback ran and one of its calls
   * threw, and it then carries the planner steps; it is 500 exactly when the
   * planner threw; every other reply is 200.
   */
  lemma BadGatewayOnlyFromFallback(b: Body, w: World, prompt: string)
    ensures var reply := Run(b, w, prompt).0;
      && (Status(reply) == 502 <==>
            NeedsWriter(w) && !Given(DirectWriter(b, w.writerText)) && Fallback(b, w).0.Throws?)
      && (reply.BadGateway? ==> w.planner.Ok? && reply.steps == w.planner.value && reply.error == FallbackError)
      && (Status(reply) == 500 <==> w.planner.Throws?)
      && (Status(reply) == 200 || Status(reply) == 500 || Status(reply) == 502)
  {
  }

  /**
   * The send call is made iff the reply is a success, the request is not a
   * dry run, has a recipient and the html is truthy; a failed send still
   * answers 200 with the html. A planner that throws sends nothing.
   */
  lemma SendGate(b: Body, w: World, prompt: string)
    ensures var (reply, calls) := Run(b, w, prompt);
      && ((exists i :: 0 <= i < |calls| && calls[i].SendCall?) <==>
            reply.Success? && !b.dryRun && Given(b.to) && Given(reply.html))
      && (reply.Success? && !b.dryRun && Given(b.to) && Given(reply.html) ==>
            calls[|calls| - 1] == SendCall(b.to.value, b.title, reply.html.value)
            && reply.delivery == (if w.send.Ok? then Sent(w.send.value) else SendFailed))
  {
    if w.planner.Throws? {
      assert Run(b, w, prompt).1 == [PlannerCall];
    } else if Given(PlannerHtml(w)) {
      SendGatePlanned(b, w, prompt);
    } else if Given(DirectWriter(b, w.writerText)) {
      SendGateWritten(b, w, prompt);
    } else {
      SendGateFallback(b, w, prompt);
    }
  }

  /** The delivery rule of the reply and the calls: the conjunction `SendGate` states. */
  predicate SendRule(b: Body, reply: Reply, calls: seq<Call>, send: Outcome<string>) {
    && ((exists i :: 0 <= i < |calls| && calls[i].SendCall?) <==>
          reply.Success? && !b.dryRun && Given(b.to) && Given(reply.html))
    && (reply.Success? && !b.dryRun && Given(b.to) && Given(reply.html) ==>
          calls[|calls| - 1] == SendCall(b.to.value, b.title, reply.html.value)
          && reply.delivery == (if send.Ok? then Sent(send.value) else SendFailed))
  }

  lemma SendGatePlanned(b: Body, w: World, prompt: string)
    requires Given(PlannerHtml(w))
    ensures SendRule(b, Run(b, w, prompt).0, Run(b, w, prompt).1, w.send)
  {
    FinishSends(b, PlannerHtml(w), [PlannerCall], w.send);
  }

  lemma SendGateWritten(b: Body, w: World, prompt: string)
    requires NeedsWriter(w) && Given(DirectWriter(b, w.writerText))
    ensures SendRule(b, Run(b, w, prompt).0, Run(b, w, prompt).1, w.send)
  {
    WrittenRun(b, w, prompt);
    WriterPrefixSendsNothing(prompt);
    FinishedRunSends(b, w, prompt, DirectWriter(b, w.writerText), [PlannerCall, WriterCall(prompt)]);
  }

  lemma WriterPrefixSendsNothing(prompt: string)
    ensures NoSends([PlannerCall, WriterCall(prompt)])
  {
  }

  predicate NoSends(calls: seq<Call>) {
    forall i :: 0 <= i < |calls| ==> !calls[i].SendCall?
  }

  /** A run that ends by finishing after calls that do not send keeps the delivery rule. */
  lemma FinishedRunSends(b: Body, w: World, prompt: string, html: Option<string>, pre: seq<Call>)
    requires Run(b, w, prompt) == Finish(b, html, pre, w.send)
    requires NoSends(pre)
    ensures SendRule(b, Run(b, w, prompt).0, Run(b, w, prompt).1, w.send)
  {
    FinishSends(b, html, pre, w.send);
  }

  lemma WrittenRun(b: Body, w: World, prompt: string)
    requires NeedsWriter(w) && Given(DirectWriter(b, w.writerText))
    ensures Run(b, w, prompt) == Finish(b, DirectWriter(b, w.writerText), [PlannerCall, WriterCall(prompt)], w.send)
  {
  }

  lemma SendGateFallback(b: Body, w: World, prompt: string)
    requires NeedsWriter(w) && !Given(DirectWriter(b, w.writerText))
    ensures SendRule(b, Run(b, w, prompt).0, Run(b, w, prompt).1, w.send)
  {
    FallbackRun(b, w, prompt);
    var (out, fallbackCalls) := Fallback(b, w);
    if out.Ok? {
      FinishSends(b, Some(out.value), [PlannerCall, WriterCall(prompt)] + fallbackCalls, w.send);
    }
  }

  /** When the fallback tier runs, the chain ends in its failure or in finishing with its html. */
  lemma FallbackRun(b: Body, w: World, prompt: string)
    requires NeedsWriter(w) && !Given(DirectWriter(b, w.writerText))
    ensures var (out, fallbackCalls) := Fallback(b, w);
      var pre := [PlannerCall, WriterCall(prompt)] + fallbackCalls;
      && (forall i :: 0 <= i < |pre| ==> !pre[i].SendCall?)
      && Run(b, w, prompt) == if out.Throws? then (BadGateway(FallbackError, w.planner.value), pre) else Finish(b, Some(out.value), pre, w.send)
  {
    var (out, fallbackCalls) := Fallback(b, w);
    FallbackCalls(b, w);
    var pre := [PlannerCall, WriterCall(prompt)] + fallbackCalls;
    assert forall i :: 2 <= i < |pre| ==> pre[i] == fallbackCalls[i - 2];
  }

  /** Finishing sends, as the last call, iff delivery is allowed. */
  lemma FinishSends(b: Body, html: Option<string>, pre: seq<Call>, send: Outcome<string>)
    requires forall i :: 0 <= i < |pre| ==> !pre[i].SendCall?
    ensures Finish(b, html, pre, send).0.Success? && Finish(b, html, pre, send).0.html == html
    ensures SendRule(b, Finish(b, html, pre, send).0, Finish(b, html, pre, send).1, send)
  {
    var calls := Finish(b, html, pre, send).1;
    if !b.dryRun && Given(b.to) && Given(html) {
      assert calls == pre + [SendCall(b.to.value, b.title, html.value)];
      assert calls[|calls| - 1].SendCall?;
    } else {
      assert calls == pre + [];
    }
  }

  /**
   * The mock tools: fetch from a corpus of posts (the built-in posts in the
   * endpoint, `MockWorld(w, MockPosts, footer)`), summarize, and render with
   * the stored footer.
   */
  function MockWorld(w: World, corpus: seq<Post>, footer: FooterSettings): World {
    w.(fetch := a => Ok(FetchFrom(corpus, a)),
       summarize := (items, max) => Ok(Summarize(items, Some(max))),
       render := e => MockRender(e, footer))
  }

  function MockRender(e: EmailArgs, footer: FooterSettings): Outcome<string> {
    Ok(EmailHtml(e, footer))
  }

  /** Tools that never throw, with a renderer that never returns an empty page. */
  ghost predicate ToolsSucceed(w: World) {
    && (forall a :: w.fetch(a).Ok?)
    && (forall items, max :: w.summarize(items, max).Ok?)
    && (forall e :: w.render(e).Ok? && w.render(e).value != "")
  }

  /** The mock tools never throw, and no page they render is empty. */
  lemma MockToolsSucceed(w: World, corpus: seq<Post>, footer: FooterSettings)
    ensures ToolsSucceed(MockWorld(w, corpus, footer))
  {
    forall e ensures MockRender(e, footer).value != "" {
      PageNotEmpty(e, footer);
    }
  }

  lemma PageNotEmpty(e: EmailArgs, footer: FooterSettings)
    ensures MockRender(e, footer).value != ""
  {
    EmailStartsWithDoctype(e, footer);
  }

  /**
   * With tools that cannot fail the fallback cannot fail: once the planner
   * returns, the reply is 200 with truthy html; only a throwing planner
   * still answers 500.
   */
  lemma ReliableToolsNeverBadGateway(b: Body, w: World, prompt: string)
    requires ToolsSucceed(w)
    ensures var reply := Run(b, w, prompt).0;
      && (w.planner.Ok? ==> Status(reply) == 200 && reply.Success? && Given(reply.html))
      && (w.planner.Throws? ==> Status(reply) == 500)
  {
    var first := w.fetch(FirstFetch(b)).value;
    var items := if |first| > 0 then first else w.fetch(RetryFetch(b)).value;
    var e := RenderArgs(b, w.summarize(items, FallbackMaxChars).value);
    assert SummarizeAndRender(b, w, items).0 == w.render(e);
  }

  // ---------------------------------------------------------------------------
  // Log statistics

  datatype Stats = Stats(total: nat, byLevel: map<string, nat>, toolCalls: nat, toolResults: nat)

  /** The lines at level `l`. */
  function CountLevel(lines: seq<LogLine>, l: Level): nat {
    if lines == [] then 0 else CountLevel(lines[..|lines| - 1], l) + (if lines[|lines| - 1].level == l then 1 else 0)
  }

  /** `lines.reduce((acc, log) => { acc[log.level] = (acc[log.level] || 0) + 1; return acc }, {})`. */
  function ByLevel(lines: seq<LogLine>): map<string, nat> {
    if lines == [] then map[]
    else
      var acc := ByLevel(lines[..|lines| - 1]);
      var k := LevelName(lines[|lines| - 1].level);
      acc[k := (if k in acc then acc[k] else 0) + 1]
  }

  /** `logStats` of the response payload. */
  function LogStats(lines: seq<LogLine>): Stats {
    Stats(|lines|, ByLevel(lines),
      |Filter(lines, (l: LogLine) => l.toolCall.Some?)|, |Filter(lines, (l: LogLine) => l.toolResult.Some?)|)
  }

  lemma LevelNamesDistinct(a: Level, b: Level)
    ensures LevelName(a) == LevelName(b) ==> a == b
  {
  }

  /** Each level that occurs is a key with its count; no other key is there. */
  lemma {:induction false} ByLevelCounts(lines: seq<LogLine>)
    ensures forall l :: (LevelName(l) in ByLevel(lines) <==> CountLevel(lines, l) > 0)
    ensures forall l :: LevelName(l) in ByLevel(lines) ==> ByLevel(lines)[LevelName(l)] == CountLevel(lines, l)
    ensures forall k :: k in ByLevel(lines) ==> exists l :: LevelName(l) == k
  {
    if lines != [] {
      var init := lines[..|lines| - 1];
      ByLevelCounts(init);
      var last := lines[|lines| - 1].level;
      forall l ensures LevelName(l) == LevelName(last) ==> l == last {
        LevelNamesDistinct(l, last);
      }
    }
  }

  /** The per-level counts add up to the total; the tool counts never exceed it. */
  lemma {:induction false} LevelCountsSum(lines: seq<LogLine>)
    ensures CountLevel(lines, Debug) + CountLevel(lines, Info) + CountLevel(lines, Warn) + CountLevel(lines, Error) == |lines|
    ensures LogStats(lines).toolCalls <= |lines| && LogStats(lines).toolResults <= |lines|
  {
    if lines != [] {
      LevelCountsSum(lines[..|lines| - 1]);
    }
  }
}
