/**
 * The log toolbar: each control computes the next filter state from the
 * previous one.
 */
module Toolbar {
  import opened LogTypes
  import opened LogView

  /** `toggleLevel`: drop the level when listed, add it otherwise. */
  function ToggleLevel(f: LogFilter, l: Level): (r: LogFilter)
    ensures l in r.levels <==> l !in f.levels
    ensures forall m :: m != l ==> (m in r.levels <==> m in f.levels)
    ensures r.(levels := f.levels) == f
  {
    var levels := if l in f.levels then f.levels - {l} else f.levels + {l};
    f.(levels := levels)
  }

  /** The three switches and the search box: each sets its own field. */
  function SetShowToolCalls(f: LogFilter, checked: bool): (r: LogFilter)
    ensures r.showToolCalls == checked && r.(showToolCalls := f.showToolCalls) == f
  {
    f.(showToolCalls := checked)
  }

  function SetShowToolResults(f: LogFilter, checked: bool): (r: LogFilter)
    ensures r.showToolResults == checked && r.(showToolResults := f.showToolResults) == f
  {
    f.(showToolResults := checked)
  }

  function SetShowRegularLogs(f: LogFilter, checked: bool): (r: LogFilter)
    ensures r.showRegularLogs == checked && r.(showRegularLogs := f.showRegularLogs) == f
  {
    f.(showRegularLogs := checked)
  }

  function SetSearch(f: LogFilter, term: string): (r: LogFilter)
    ensures r.searchTerm == term && r.(searchTerm := f.searchTerm) == f
  {
    f.(searchTerm := term)
  }

  /** "Show All": every level and every kind, no search. */
  function ShowAll(f: LogFilter): (r: LogFilter)
    ensures forall l: Level :: l in r.levels
    ensures r.showToolCalls && r.showToolResults && r.showRegularLogs && r.searchTerm == ""
  {
    AllLevelsComplete();
    f.(levels := AllLevels, showToolCalls := true, showToolResults := true,
       showRegularLogs := true, searchTerm := "")
  }

  /** "Errors Only": errors and warnings, no tool entries, regular logs shown, no search. */
  function ErrorsOnly(f: LogFilter): (r: LogFilter)
    ensures forall l: Level :: l in r.levels <==> l == Error || l == Warn
    ensures !r.showToolCalls && !r.showToolResults && r.showRegularLogs && r.searchTerm == ""
  {
    f.(levels := {Error, Warn}, showToolCalls := false, showToolResults := false,
       showRegularLogs := true, searchTerm := "")
  }

  /** Toggling a level twice restores the filter. */
  lemma ToggleTwice(f: LogFilter, l: Level)
    ensures ToggleLevel(ToggleLevel(f, l), l) == f
  {
    assert ToggleLevel(ToggleLevel(f, l), l).levels == f.levels;
  }

  /** Toggling two levels gives the same filter in either order. */
  lemma ToggleCommutes(f: LogFilter, l: Level, m: Level)
    ensures ToggleLevel(ToggleLevel(f, l), m) == ToggleLevel(ToggleLevel(f, m), l)
  {
    assert ToggleLevel(ToggleLevel(f, l), m).levels == ToggleLevel(ToggleLevel(f, m), l).levels;
  }

  /** After "Show All" the card shows every string entry and every entry with a level. */
  lemma ShowAllShows(f: LogFilter, logs: seq<LogEntry>)
    requires forall i :: 0 <= i < |logs| ==> logs[i].Text? || logs[i].level.Some?
    ensures FilteredLogs(ShowAll(f), logs) == logs
  {
    assert ShowAll(f) == InitialFilter;
    InitialShowsLevelled(logs);
  }

  /**
   * After "Errors Only" the card shows exactly the string entries and the
   * error and warning entries that are neither tool calls nor tool results.
   */
  lemma ErrorsOnlyShows(f: LogFilter, logs: seq<LogEntry>)
    ensures forall e :: e in FilteredLogs(ErrorsOnly(f), logs) <==>
      e in logs && (e.Text? || (e.level.Some? && e.level.value in {Error, Warn} && e.toolCall.None? && e.toolResult.None?))
  {
  }

  /** Switching tool calls off hides exactly the tool calls among the entries shown before. */
  lemma HideToolCalls(f: LogFilter, logs: seq<LogEntry>)
    requires f.showToolCalls
    ensures forall e :: e in FilteredLogs(SetShowToolCalls(f, false), logs) <==>
      e in FilteredLogs(f, logs) && !(e.Record? && e.toolCall.Some?)
  {
  }
}
