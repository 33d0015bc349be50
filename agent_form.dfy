/**
 * The newsletter request form: its state, the chip lists, the presets, the
 * payload it submits, the client-side schema and the per-field error map.
 */
module AgentForm {
  import opened Strings
  import opened ContentTools

  // ---------------------------------------------------------------------------
  // The form's record

  /** The form's `object` state; `sections` is `""` (None) or the number entered. */
  datatype FormData = FormData(
    topic: string,
    start: string,
    end: string,
    title: string,
    intro: string,
    newsletterType: string,
    features: seq<string>,
    links: seq<string>,
    location: string,
    content: string,
    keyDetails: string,
    tone: seq<string>,
    sections: Option<real>,
    preset: string)

  /** The state on first render and after "clear all". */
  const InitialForm := FormData("dev tools", "2025-01-15", "2025-01-22", "Weekly Dev Digest",
    "Hand-picked updates for the week.", "", [], [], "", "", "", [], None, "")

  const UrlError := "Please enter a valid URL (https://\U{2026})"

  predicate NoDuplicates(xs: seq<string>) {
    forall i, j :: 0 <= i < j < |xs| ==> xs[i] != xs[j]
  }

  /** Adding a chip: a trimmed-empty input changes nothing; a value already listed is not added again. */
  function Added(xs: seq<string>, input: string): (r: seq<string>)
    ensures NoDuplicates(xs) ==> NoDuplicates(r)
    ensures Trim(input) == "" ==> r == xs
    ensures Trim(input) != "" ==> Trim(input) in r && (forall x :: x in r <==> x in xs || x == Trim(input))
    ensures |xs| <= |r| <= |xs| + 1 && r[..|xs|] == xs
  {
    var v := Trim(input);
    if v == "" || v in xs then xs else xs + [v]
  }

  /** Appending a value not yet listed keeps a list free of duplicates. */
  lemma AppendFresh(xs: seq<string>, x: string)
    requires NoDuplicates(xs) && x !in xs
    ensures NoDuplicates(xs + [x])
  {
  }

  /** `xs.filter(x => x !== v)`. */
  function Remove(xs: seq<string>, v: string): (r: seq<string>)
    ensures v !in r && |r| <= |xs|
    ensures forall x :: x in r <==> x in xs && x != v
    ensures NoDuplicates(xs) ==> NoDuplicates(r)
  {
    if xs == [] then []
    else
      var rest := Remove(xs[1..], v);
      var r := (if xs[0] == v then [] else [xs[0]]) + rest;
      assert NoDuplicates(xs) ==> NoDuplicates(r) by {
        if NoDuplicates(xs) && xs[0] != v {
          assert xs[0] !in xs[1..];
          forall i, j | 0 <= i < j < |r| ensures r[i] != r[j] {
            assert r[j] == rest[j - 1];
          }
        }
      }
      r
  }

  /** Removal keeps the order of what remains: it distributes over concatenation. */
  lemma {:induction false} RemoveAppend(a: seq<string>, b: seq<string>, v: string)
    ensures Remove(a + b, v) == Remove(a, v) + Remove(b, v)
  {
    if a != [] {
      RemoveAppend(a[1..], b, v);
      assert (a + b)[0] == a[0] && (a + b)[1..] == a[1..] + b;
      assert Remove(a + b, v) == (if a[0] == v then [] else [a[0]]) + Remove(a[1..] + b, v);
      assert Remove(a, v) == (if a[0] == v then [] else [a[0]]) + Remove(a[1..], v);
    } else {
      assert a + b == b;
    }
  }

  /** The form state with the sections input clamped to 2..8 (an empty input stays empty). */
  function Clamp(x: real): (r: real)
    ensures 2.0 <= r <= 8.0
    ensures 2.0 <= x <= 8.0 ==> r == x
    ensures x < 2.0 ==> r == 2.0
    ensures x > 8.0 ==> r == 8.0
  {
    if 8.0 < x then 8.0 else if x < 2.0 then 2.0 else x
  }

  // ---------------------------------------------------------------------------
  // Presets

  datatype PresetKey = Tech | Business | Lifestyle | Education

  datatype Preset = Preset(
    title: string, topic: string, intro: string, newsletterType: string,
    features: seq<string>, tone: seq<string>, sections: int)

  function KeyName(k: PresetKey): string {
    match k
    case Tech => "tech"
    case Business => "business"
    case Lifestyle => "lifestyle"
    case Education => "education"
  }

  /** `NEWSLETTER_PRESETS[k]`. */
  function PresetOf(k: PresetKey): Preset {
    match k
    case Tech => Preset("Tech Weekly", "technology", "Latest in tech innovation and development", "technology",
      ["product launches", "industry news", "developer tools"], ["professional", "informative"], 4)
    case Business => Preset("Business Brief", "business", "Key business insights and market updates", "business",
      ["market analysis", "company news", "financial updates"], ["analytical", "formal"], 3)
    case Lifestyle => Preset("Lifestyle Weekly", "lifestyle", "Trends and tips for modern living", "lifestyle",
      ["health tips", "travel guides", "food reviews"], ["friendly", "engaging"], 5)
    case Education => Preset("Learning Digest", "education", "Educational content and learning resources", "education",
      ["tutorials", "research findings", "skill development"], ["educational", "clear"], 4)
  }

  /** A preset laid over a base record: its seven fields and `preset = key`; the rest from the base. */
  function PresetApplied(base: FormData, k: PresetKey): (d: FormData)
    ensures d.start == base.start && d.end == base.end && d.links == base.links
    ensures d.location == base.location && d.content == base.content && d.keyDetails == base.keyDetails
    ensures d.preset == KeyName(k) && d.sections == Some(PresetOf(k).sections as real)
  {
    var p := PresetOf(k);
    base.(title := p.title, topic := p.topic, intro := p.intro, newsletterType := p.newsletterType,
      features := p.features, tone := p.tone, sections := Some(p.sections as real), preset := KeyName(k))
  }

  // ---------------------------------------------------------------------------
  // The form component's state

  class FormState {
    var data: FormData
    var newFeature: string
    var newTone: string
    var newLink: string
    var error: Option<string>

    /** The chip lists hold no value twice. */
    predicate Valid()
      reads this
    {
      NoDuplicates(data.features) && NoDuplicates(data.tone) && NoDuplicates(data.links)
    }

    constructor()
      ensures Valid()
      ensures data == InitialForm && newFeature == "" && newTone == "" && newLink == "" && error == None
    {
      data := InitialForm;
      newFeature, newTone, newLink := "", "", "";
      error := None;
    }

    /** `addFeature`: append the trimmed input unless it is empty or listed; clear the input unless it was empty. */
    method AddFeature()
      requires Valid()
      modifies this
      ensures Valid()
      ensures data == old(data).(features := Added(old(data.features), old(newFeature)))
      ensures newFeature == (if Trim(old(newFeature)) == "" then old(newFeature) else "")
      ensures newTone == old(newTone) && newLink == old(newLink) && error == old(error)
    {
      var v := Trim(newFeature);
      if v == "" {
        return;
      }
      if v !in data.features {
        data := data.(features := data.features + [v]);
      }
      newFeature := "";
    }

    /** `addTone`, the same for the tone chips. */
    method AddTone()
      requires Valid()
      modifies this
      ensures Valid()
      ensures data == old(data).(tone := Added(old(data.tone), old(newTone)))
      ensures newTone == (if Trim(old(newTone)) == "" then old(newTone) else "")
      ensures newFeature == old(newFeature) && newLink == old(newLink) && error == old(error)
    {
      var v := Trim(newTone);
      if v == "" {
        return;
      }
      if v !in data.tone {
        data := data.(tone := data.tone + [v]);
      }
      newTone := "";
    }

    /**
     * `addLink`: `normalize` is the URL parser (None when it throws). A valid
     * link is added in normal form unless listed, and the input is cleared;
     * an invalid one sets the error and keeps the input.
     */
    method AddLink(normalize: string -> Option<string>)
      requires Valid()
      modifies this
      ensures Valid()
      ensures var v := Trim(old(newLink));
        if v == "" then data == old(data) && newLink == old(newLink) && error == old(error)
        else if normalize(v).None? then data == old(data) && newLink == old(newLink) && error == Some(UrlError)
        else
          && data == old(data).(links := if normalize(v).value in old(data.links) then old(data.links)
                                         else old(data.links) + [normalize(v).value])
          && newLink == "" && error == old(error)
      ensures newFeature == old(newFeature) && newTone == old(newTone)
    {
      var v := Trim(newLink);
      if v == "" {
        return;
      }
      var u := normalize(v);
      if u.None? {
        error := Some(UrlError);
        return;
      }
      if u.value !in data.links {
        AppendFresh(data.links, u.value);
        data := data.(links := data.links + [u.value]);
      }
      newLink := "";
    }

    method RemoveFeature(v: string)
      requires Valid()
      modifies this
      ensures Valid()
      ensures data == old(data).(features := Remove(old(data.features), v))
      ensures newFeature == old(newFeature) && newTone == old(newTone) && newLink == old(newLink) && error == old(error)
    {
      data := data.(features := Remove(data.features, v));
    }

    method RemoveTone(v: string)
      requires Valid()
      modifies this
      ensures Valid()
      ensures data == old(data).(tone := Remove(old(data.tone), v))
      ensures newFeature == old(newFeature) && newTone == old(newTone) && newLink == old(newLink) && error == old(error)
    {
      data := data.(tone := Remove(data.tone, v));
    }

    method RemoveLink(v: string)
      requires Valid()
      modifies this
      ensures Valid()
      ensures data == old(data).(links := Remove(old(data.links), v))
      ensures newFeature == old(newFeature) && newTone == old(newTone) && newLink == old(newLink) && error == old(error)
    {
      data := data.(links := Remove(data.links, v));
    }

    /** `clearAll`: the initial record and no error; the chip inputs stay. */
    method ClearAll()
      modifies this
      ensures Valid()
      ensures data == InitialForm && error == None
      ensures newFeature == old(newFeature) && newTone == old(newTone) && newLink == old(newLink)
    {
      data := InitialForm;
      error := None;
    }

    /**
     * `applyPreset` as written: the callback has no dependencies, so the
     * record it spreads is the one of the first render, and every other field
     * goes back to its initial value.
     */
    method ApplyPreset(k: PresetKey)
      modifies this
      ensures Valid()
      ensures data == PresetApplied(InitialForm, k)
      ensures newFeature == old(newFeature) && newTone == old(newTone) && newLink == old(newLink) && error == old(error)
    {
      PresetListsDistinct(k);
      var p := PresetOf(k);
      data := InitialForm.(title := p.title, topic := p.topic, intro := p.intro, newsletterType := p.newsletterType,
        features := p.features, tone := p.tone, sections := Some(p.sections as real), preset := KeyName(k));
    }

    /** `applyPreset` over the current record, as the spread evidently intends. */
    method ApplyPresetToCurrent(k: PresetKey)
      requires Valid()
      modifies this
      ensures Valid()
      ensures data == PresetApplied(old(data), k)
      ensures newFeature == old(newFeature) && newTone == old(newTone) && newLink == old(newLink) && error == old(error)
    {
      PresetListsDistinct(k);
      var p := PresetOf(k);
      data := data.(title := p.title, topic := p.topic, intro := p.intro, newsletterType := p.newsletterType,
        features := p.features, tone := p.tone, sections := Some(p.sections as real), preset := KeyName(k));
    }

    /** The sections input: empty stays empty, a number is clamped to 2..8. */
    method SetSections(input: Option<real>)
      modifies this
      ensures data == old(data).(sections := if input.None? then None else Some(Clamp(input.value)))
      ensures newFeature == old(newFeature) && newTone == old(newTone) && newLink == old(newLink) && error == old(error)
    {
      if input.None? {
        data := data.(sections := None);
      } else {
        data := data.(sections := Some(Clamp(input.value)));
      }
    }
  }

  /** The preset lists hold no value twice. */
  lemma PresetListsDistinct(k: PresetKey)
    ensures NoDuplicates(PresetOf(k).features) && NoDuplicates(PresetOf(k).tone)
  {
    var p := PresetOf(k);
    match k
    case Tech =>
      assert p.features[0][0] == 'p' && p.features[1][0] == 'i' && p.features[2][0] == 'd';
      assert p.tone[0][0] == 'p' && p.tone[1][0] == 'i';
      DistinctHeads(p.features);
      DistinctHeads(p.tone);
    case Business =>
      assert p.features[0][0] == 'm' && p.features[1][0] == 'c' && p.features[2][0] == 'f';
      assert p.tone[0][0] == 'a' && p.tone[1][0] == 'f';
      DistinctHeads(p.features);
      DistinctHeads(p.tone);
    case Lifestyle =>
      assert p.features[0][0] == 'h' && p.features[1][0] == 't' && p.features[2][0] == 'f';
      assert p.tone[0][0] == 'f' && p.tone[1][0] == 'e';
      DistinctHeads(p.features);
      DistinctHeads(p.tone);
    case Education =>
      assert p.features[0][0] == 't' && p.features[1][0] == 'r' && p.features[2][0] == 's';
      assert p.tone[0][0] == 'e' && p.tone[1][0] == 'c';
      DistinctHeads(p.features);
      DistinctHeads(p.tone);
  }

  /** Non-empty values with pairwise different first characters are pairwise different. */
  lemma DistinctHeads(xs: seq<string>)
    requires forall i :: 0 <= i < |xs| ==> xs[i] != []
    requires forall i, j :: 0 <= i < j < |xs| ==> xs[i][0] != xs[j][0]
    ensures NoDuplicates(xs)
  {
  }

  /** Applying a preset as written discards an edited location (and every other field the preset does not set). */
  lemma StalePresetDropsEdits()
    ensures var edited := InitialForm.(location := "Berlin");
      PresetApplied(InitialForm, Tech).location == "" != edited.location
  {
  }

  /** Applying a preset over the current record keeps every field the preset does not set. */
  lemma PresetKeepsOtherFields(d: FormData, k: PresetKey)
    ensures var r := PresetApplied(d, k);
      r == d.(title := r.title, topic := r.topic, intro := r.intro, newsletterType := r.newsletterType,
              features := r.features, tone := r.tone, sections := r.sections, preset := r.preset)
    ensures PresetApplied(PresetApplied(d, k), k) == PresetApplied(d, k)
  {
  }

  // ---------------------------------------------------------------------------
  // The payload

  /** The submitted payload; `None` is `undefined`. */
  datatype Payload = Payload(
    topic: string,
    startDate: string,
    endDate: string,
    title: string,
    intro: string,
    newsletterType: string,
    features: Option<seq<string>>,
    links: Option<seq<string>>,
    location: Option<string>,
    content: Option<string>,
    keyDetails: Option<string>,
    tone: Option<seq<string>>,
    sections: Option<real>,
    preset: Option<string>)

  /** `s || undefined`. */
  function TextOrNone(s: string): (r: Option<string>)
    ensures r.None? <==> s == ""
  {
    if s == "" then None else Some(s)
  }

  /** `xs.length > 0 ? xs : undefined`. */
  function ListOrNone(xs: seq<string>): (r: Option<seq<string>>)
    ensures r.None? <==> xs == []
  {
    if xs == [] then None else Some(xs)
  }

  /** The `payload` memo. */
  function PayloadOf(d: FormData): Payload {
    Payload(d.topic, d.start, d.end, d.title, d.intro, d.newsletterType,
      ListOrNone(d.features), ListOrNone(d.links), TextOrNone(d.location), TextOrNone(d.content),
      TextOrNone(d.keyDetails), ListOrNone(d.tone), d.sections, TextOrNone(d.preset))
  }

  /** Reading a payload back into a form record: `undefined` becomes the empty value. */
  function FormOf(p: Payload): FormData {
    FormData(p.topic, p.startDate, p.endDate, p.title, p.intro, p.newsletterType,
      if p.features.Some? then p.features.value else [], if p.links.Some? then p.links.value else [],
      if p.location.Some? then p.location.value else "", if p.content.Some? then p.content.value else "",
      if p.keyDetails.Some? then p.keyDetails.value else "", if p.tone.Some? then p.tone.value else [],
      p.sections, if p.preset.Some? then p.preset.value else "")
  }

  /** The payload loses nothing: empty values become `undefined` and back. */
  lemma PayloadRoundTrip(d: FormData)
    ensures FormOf(PayloadOf(d)) == d
  {
  }

  // ---------------------------------------------------------------------------
  // The client-side schema

  /** One schema issue: the first segment of its path (None for a root issue) and its message. */
  datatype Issue = Issue(path: Option<string>, message: string)

  const TopicMessage := "Topic must be at least 2 characters"
  const TitleMessage := "Title must be at least 2 characters"
  const LinkMessage := "Link must be a valid URL"
  const MinSectionsMessage := "Must be at least 2"
  const MaxSectionsMessage := "Must be at most 8"
  /** zod's default messages for a failed `regex` and a failed `int`. */
  const RegexMessage := "Invalid"
  const IntegerMessage := "Expected integer, received float"

  predicate IsInteger(x: real) {
    x.Floor as real == x
  }

  /** One issue per link the URL check rejects, in order. */
  function LinkIssues(links: seq<string>, isUrl: string -> bool): (r: seq<Issue>)
    ensures r == [] <==> forall i :: 0 <= i < |links| ==> isUrl(links[i])
    ensures forall i :: 0 <= i < |r| ==> r[i] == Issue(Some("links"), LinkMessage)
  {
    if links == [] then []
    else (if isUrl(links[0]) then [] else [Issue(Some("links"), LinkMessage)]) + LinkIssues(links[1..], isUrl)
  }

  /** `z.number().int().min(2).max(8)`: each failing check reports. */
  function SectionIssues(x: real): (r: seq<Issue>)
    ensures r == [] <==> IsInteger(x) && 2.0 <= x <= 8.0
  {
    (if IsInteger(x) then [] else [Issue(Some("sections"), IntegerMessage)])
    + (if x < 2.0 then [Issue(Some("sections"), MinSectionsMessage)] else [])
    + (if x > 8.0 then [Issue(Some("sections"), MaxSectionsMessage)] else [])
  }

  /** `Payload.safeParse(payload)`: the issues, in the order of the schema's keys. */
  function PayloadIssues(p: Payload, isUrl: string -> bool): seq<Issue> {
    (if Utf16Length(p.topic) < 2 then [Issue(Some("topic"), TopicMessage)] else [])
    + (if IsIsoDateShape(p.startDate) then [] else [Issue(Some("start_date"), RegexMessage)])
    + (if IsIsoDateShape(p.endDate) then [] else [Issue(Some("end_date"), RegexMessage)])
    + (if Utf16Length(p.title) < 2 then [Issue(Some("title"), TitleMessage)] else [])
    + (if p.links.Some? then LinkIssues(p.links.value, isUrl) else [])
    + (if p.sections.Some? then SectionIssues(p.sections.value) else [])
  }

  /**
   * The payload parses iff topic and title have at least two characters,
   * both dates have the `dddd-dd-dd` shape, every link is a URL and the
   * sections, when given, are an integer in 2..8.
   */
  lemma SchemaAccepts(p: Payload, isUrl: string -> bool)
    ensures PayloadIssues(p, isUrl) == [] <==>
      && Utf16Length(p.topic) >= 2 && IsIsoDateShape(p.startDate) && IsIsoDateShape(p.endDate) && Utf16Length(p.title) >= 2
      && (p.links.Some? ==> forall i :: 0 <= i < |p.links.value| ==> isUrl(p.links.value[i]))
      && (p.sections.Some? ==> IsInteger(p.sections.value) && 2.0 <= p.sections.value <= 8.0)
  {
  }

  /** The form can be submitted as it first appears. */
  lemma InitialFormSubmits(isUrl: string -> bool)
    ensures PayloadIssues(PayloadOf(InitialForm), isUrl) == []
  {
    assert IsIsoDateShape("2025-01-15") && IsIsoDateShape("2025-01-22");
  }

  /** The client does not check date order: a start after the end still parses. */
  lemma NoClientDateOrder(isUrl: string -> bool)
    ensures var d := InitialForm.(start := "2025-02-01", end := "2025-01-01");
      PayloadIssues(PayloadOf(d), isUrl) == [] && StrLess(d.end, d.start)
  {
    StrLessAt("2025-01-01", "2025-02-01", 6);
    SwappedDatesParse(isUrl);
  }

  lemma SwappedDatesParse(isUrl: string -> bool)
    ensures PayloadIssues(PayloadOf(InitialForm.(start := "2025-02-01", end := "2025-01-01")), isUrl) == []
  {
    assert IsIsoDateShape("2025-02-01") && IsIsoDateShape("2025-01-01");
  }

  /** An integer entered in the sections box never produces a sections issue, whatever its value. */
  lemma ClampedSectionsPass(n: int)
    ensures SectionIssues(Clamp(n as real)) == []
  {
    var r := Clamp(n as real);
    assert r == 2.0 || r == 8.0 || r == n as real;
  }

  /** A preset, applied as written, leaves a form that can be submitted. */
  lemma PresetsSubmit(k: PresetKey, isUrl: string -> bool)
    ensures PayloadIssues(PayloadOf(PresetApplied(InitialForm, k)), isUrl) == []
  {
    PresetTextsPass(k);
    PresetDatesPass(k);
    PresetSectionsPass(k);
    FormSubmits(PresetApplied(InitialForm, k), isUrl);
  }

  lemma PresetTextsPass(k: PresetKey)
    ensures var d := PresetApplied(InitialForm, k);
      Utf16Length(d.topic) >= 2 && Utf16Length(d.title) >= 2
  {
    PresetTextLengths(k);
    var p := PresetOf(k);
    LongEnough(p.title);
    LongEnough(p.topic);
  }

  lemma PresetDatesPass(k: PresetKey)
    ensures var d := PresetApplied(InitialForm, k);
      IsIsoDateShape(d.start) && IsIsoDateShape(d.end) && d.links == []
  {
    assert IsIsoDateShape(InitialForm.start) && IsIsoDateShape(InitialForm.end);
  }

  lemma PresetSectionsPass(k: PresetKey)
    ensures var d := PresetApplied(InitialForm, k);
      d.sections.Some? ==> IsInteger(d.sections.value) && 2.0 <= d.sections.value <= 8.0
  {
    PresetTextLengths(k);
    var s := PresetOf(k).sections as real;
    assert s.Floor as real == s;
  }

  lemma PresetTextLengths(k: PresetKey)
    ensures |PresetOf(k).title| >= 2 && |PresetOf(k).topic| >= 2 && 2 <= PresetOf(k).sections <= 8
  {
  }

  lemma LongEnough(s: string)
    requires |s| >= 2
    ensures Utf16Length(s) >= 2
  {
  }

  /** A record with long enough texts, well-shaped dates, no links and sections in range parses. */
  lemma FormSubmits(d: FormData, isUrl: string -> bool)
    requires Utf16Length(d.topic) >= 2 && Utf16Length(d.title) >= 2
    requires IsIsoDateShape(d.start) && IsIsoDateShape(d.end) && d.links == []
    requires d.sections.Some? ==> IsInteger(d.sections.value) && 2.0 <= d.sections.value <= 8.0
    ensures PayloadIssues(PayloadOf(d), isUrl) == []
  {
  }

  // ---------------------------------------------------------------------------
  // The error map

  function KeyOf(i: Issue): string {
    if i.path.Some? then i.path.value else "root"
  }

  /** `parseErrors`: each issue's key mapped to its message, a later issue overwriting an earlier one. */
  function ParseErrors(issues: seq<Issue>): (m: map<string, string>)
    ensures issues == [] ==> m == map[]
  {
    if issues == [] then map[]
    else
      var last := issues[|issues| - 1];
      ParseErrors(issues[..|issues| - 1])[KeyOf(last) := last.message]
  }

  /** The position of the last issue with key `k`. */
  function LastWithKey(issues: seq<Issue>, k: string): (r: Option<nat>)
    ensures r.Some? ==> r.value < |issues| && KeyOf(issues[r.value]) == k
    ensures r.Some? ==> forall j :: r.value < j < |issues| ==> KeyOf(issues[j]) != k
    ensures r.None? ==> forall j :: 0 <= j < |issues| ==> KeyOf(issues[j]) != k
  {
    if issues == [] then None
    else if KeyOf(issues[|issues| - 1]) == k then Some(|issues| - 1)
    else LastWithKey(issues[..|issues| - 1], k)
  }

  /** A key is in the error map iff some issue has it, and it holds the message of the last such issue. */
  lemma {:induction false} ParseErrorsLastWins(issues: seq<Issue>, k: string)
    ensures k in ParseErrors(issues) <==> LastWithKey(issues, k).Some?
    ensures k in ParseErrors(issues) ==> ParseErrors(issues)[k] == issues[LastWithKey(issues, k).value].message
  {
    if issues != [] && KeyOf(issues[|issues| - 1]) != k {
      var init := issues[..|issues| - 1];
      ParseErrorsLastWins(init, k);
      if LastWithKey(init, k).Some? {
        assert issues[LastWithKey(init, k).value] == init[LastWithKey(init, k).value];
      }
    }
  }

  /** Fractional and out-of-range sections both report under the one key `sections`, the range message last. */
  lemma SectionsErrorKey(x: real)
    requires !IsInteger(x) && x < 2.0
    ensures ParseErrors(SectionIssues(x)) == map["sections" := MinSectionsMessage]
  {
  }
}
