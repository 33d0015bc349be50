/**
 * The log viewer's filter: which entries the enhanced log card shows for a
 * filter state, and the plain-text copy of the shown entries.
 */
module LogView {
  import opened Strings
  import opened Json
  import opened LogTypes

  /** The viewer's filter state. */
  datatype LogFilter = LogFilter(
    levels: set<Level>,
    showToolCalls: bool,
    showToolResults: bool,
    showRegularLogs: bool,
    searchTerm: string)

  /** The card's initial filter: every level, every kind, no search. */
  const InitialFilter := LogFilter(AllLevels, true, true, true, "")

  /** `s.toLowerCase().includes(term.toLowerCase())`. */
  predicate MatchesCi(s: string, term: string) {
    Contains(Lower(s), Lower(term))
  }

  /** `toolCall?.name || toolResult?.name || ""`. */
  function ToolName(call: Option<ToolCallInfo>, result: Option<ToolResultInfo>): string {
    if call.Some? && call.value.name != "" then call.value.name
    else if result.Some? && result.value.name != "" then result.value.name
    else ""
  }

  /** `JSON.stringify(data || {})`. */
  function DataText(data: Option<Json>): string {
    Compact(if data.Some? && Truthy(data.value) then data.value else JObj([]))
  }

  /** A structured entry matches a search term in its message, its tool name or its serialised data. */
  predicate SearchHit(e: LogEntry, term: string)
    requires e.Record?
  {
    MatchesCi(e.msg, term) || MatchesCi(ToolName(e.toolCall, e.toolResult), term) || MatchesCi(DataText(e.data), term)
  }

  /** The predicate of `filteredLogs`. */
  predicate Keep(f: LogFilter, e: LogEntry) {
    match e
    case Text(t) => f.showRegularLogs && (f.searchTerm == "" || MatchesCi(t, f.searchTerm))
    case Record(_, level, _, _, call, result, _, _) =>
      && level.Some? && level.value in f.levels
      && (call.Some? ==> f.showToolCalls)
      && (result.Some? ==> f.showToolResults)
      && (call.None? && result.None? ==> f.showRegularLogs)
      && (f.searchTerm == "" || SearchHit(e, f.searchTerm))
  }

  /** `logs.filter(...)`: the entries the card shows, in their order. */
  function FilteredLogs(f: LogFilter, logs: seq<LogEntry>): (r: seq<LogEntry>)
    ensures |r| <= |logs|
    ensures forall e :: e in r <==> e in logs && Keep(f, e)
  {
    if logs == [] then []
    else FilteredLogs(f, logs[..|logs| - 1]) + (if Keep(f, logs[|logs| - 1]) then [logs[|logs| - 1]] else [])
  }

  /** The positions of the kept entries, in increasing order. */
  function KeptPositions(f: LogFilter, logs: seq<LogEntry>): (idx: seq<nat>)
    ensures forall i :: 0 <= i < |idx| ==> idx[i] < |logs| && Keep(f, logs[idx[i]])
    ensures forall i, k :: 0 <= i < k < |idx| ==> idx[i] < idx[k]
    ensures forall j :: 0 <= j < |logs| && Keep(f, logs[j]) ==> j in idx
  {
    if logs == [] then []
    else KeptPositions(f, logs[..|logs| - 1]) + (if Keep(f, logs[|logs| - 1]) then [|logs| - 1] else [])
  }

  /**
   * The shown list is an order-preserving subsequence of the logs: its i-th
   * entry is the entry at the i-th kept position.
   */
  lemma {:induction false} FilteredIsSubsequence(f: LogFilter, logs: seq<LogEntry>)
    ensures var r, idx := FilteredLogs(f, logs), KeptPositions(f, logs);
      |r| == |idx| && forall i :: 0 <= i < |r| ==> r[i] == logs[idx[i]]
  {
    if logs != [] {
      var n := |logs| - 1;
      var init := logs[..n];
      FilteredIsSubsequence(f, init);
      var r0, idx0 := FilteredLogs(f, init), KeptPositions(f, init);
      var r, idx := FilteredLogs(f, logs), KeptPositions(f, logs);
      assert r == r0 + (if Keep(f, logs[n]) then [logs[n]] else []);
      assert idx == idx0 + (if Keep(f, logs[n]) then [n] else []);
      forall i | 0 <= i < |r| ensures r[i] == logs[idx[i]] {
        if i < |r0| {
          assert r[i] == r0[i] && idx[i] == idx0[i];
          assert r0[i] == init[idx0[i]];
        }
      }
    }
  }

  /** A string entry is shown iff regular logs are shown and the search is empty or found in it, ignoring case. */
  lemma TextEntries(f: LogFilter, logs: seq<LogEntry>, t: string)
    requires Text(t) in logs
    ensures Text(t) in FilteredLogs(f, logs) <==>
      f.showRegularLogs && (f.searchTerm == "" || MatchesCi(t, f.searchTerm))
  {
  }

  /** A structured entry with no level, or a level the filter does not list, is never shown. */
  lemma LevelGate(f: LogFilter, logs: seq<LogEntry>, e: LogEntry)
    requires e.Record? && (e.level.None? || e.level.value !in f.levels)
    ensures e !in FilteredLogs(f, logs)
  {
  }

  /**
   * Tool calls are hidden when tool calls are off, tool results when tool
   * results are off, and entries that are neither when regular logs are off.
   */
  lemma KindGates(f: LogFilter, logs: seq<LogEntry>, e: LogEntry)
    requires e.Record?
    ensures e.toolCall.Some? && !f.showToolCalls ==> e !in FilteredLogs(f, logs)
    ensures e.toolResult.Some? && !f.showToolResults ==> e !in FilteredLogs(f, logs)
    ensures e.toolCall.None? && e.toolResult.None? && !f.showRegularLogs ==> e !in FilteredLogs(f, logs)
  {
  }

  /** With a search, a shown structured entry has the term in its message, tool name or data. */
  lemma SearchGate(f: LogFilter, logs: seq<LogEntry>, e: LogEntry)
    requires e.Record? && f.searchTerm != "" && e in FilteredLogs(f, logs)
    ensures SearchHit(e, f.searchTerm)
  {
  }

  /** A search only narrows: every entry shown with a search is shown without it. */
  lemma SearchNarrows(f: LogFilter, logs: seq<LogEntry>)
    ensures forall e :: e in FilteredLogs(f, logs) ==> e in FilteredLogs(f.(searchTerm := ""), logs)
  {
  }

  /** With the initial filter every string entry and every entry with a level is shown, in order. */
  lemma {:induction false} InitialShowsLevelled(logs: seq<LogEntry>)
    requires forall i :: 0 <= i < |logs| ==> logs[i].Text? || logs[i].level.Some?
    ensures FilteredLogs(InitialFilter, logs) == logs
  {
    if logs != [] {
      var init, e := logs[..|logs| - 1], logs[|logs| - 1];
      assert forall i :: 0 <= i < |init| ==> init[i] == logs[i];
      InitialShowsLevelled(init);
      assert Keep(InitialFilter, e) by {
        if e.Record? {
          var l := e.level.value;
          assert l == Debug || l == Info || l == Warn || l == Error;
        }
      }
      assert FilteredLogs(InitialFilter, logs) == init + [e];
      assert init + [e] == logs;
    }
  }

  // ---------------------------------------------------------------------------
  // The plain-text copy

  /** One line of the copy; `fmt` is the locale time of a stamp ("" when it is not a valid date). */
  function EntryLine(e: LogEntry, fmt: Stamp -> string): (line: string)
    ensures e.Text? ==> line == e.text
    ensures e.Record? ==>
      Contains(line, LevelUpper(if e.level.Some? then e.level.value else Info) + ": " + e.msg)
  {
    match e
    case Text(t) => t
    case Record(ts, level, msg, data, _, _, _, _) =>
      var time := if ts.Some? then fmt(ts.value) else "";
      var lvl := LevelUpper(if level.Some? then level.value else Info);
      var extra := if data.Some? && Truthy(data.value) then " " + Pretty(data.value) else "";
      var prefix := if time != "" then "[" + time + "] " else "";
      ContainsMiddle(prefix, lvl + ": " + msg, extra);
      prefix + (lvl + ": " + msg) + extra
  }

  function EntryLines(entries: seq<LogEntry>, fmt: Stamp -> string): (lines: seq<string>)
    ensures |lines| == |entries| && forall i :: 0 <= i < |entries| ==> lines[i] == EntryLine(entries[i], fmt)
  {
    seq(|entries|, i requires 0 <= i < |entries| => EntryLine(entries[i], fmt))
  }

  /** `textBlob`: the shown entries, one line each, joined by newlines. */
  function TextBlob(f: LogFilter, logs: seq<LogEntry>, fmt: Stamp -> string): string {
    Join(EntryLines(FilteredLogs(f, logs), fmt), "\n")
  }

  /**
   * When some entry is shown and no line holds a newline, splitting the copy
   * at newlines gives back one line per shown entry, in order.
   */
  lemma BlobLines(f: LogFilter, logs: seq<LogEntry>, fmt: Stamp -> string)
    requires FilteredLogs(f, logs) != []
    requires forall e :: e in FilteredLogs(f, logs) ==> '\n' !in EntryLine(e, fmt)
    ensures var lines := Split(TextBlob(f, logs, fmt), '\n');
      |lines| == |FilteredLogs(f, logs)|
      && forall i :: 0 <= i < |lines| ==> lines[i] == EntryLine(FilteredLogs(f, logs)[i], fmt)
  {
    var shown := FilteredLogs(f, logs);
    var lines := EntryLines(shown, fmt);
    forall i | 0 <= i < |lines| ensures '\n' !in lines[i] {
      assert shown[i] in shown;
    }
    SplitJoin(lines, '\n');
  }
}
