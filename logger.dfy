/**
 * The request logger: a process-wide cache of per-request log lines with an
 * insertion-ordered LRU policy (capacity 200) and TTL timers, a table of
 * in-flight tool calls used to compute durations, recursive redaction of
 * secret-looking payload strings and length-capped stringification.
 *
 * The clock (`Date.now()`, `toISOString()`) and the id generator are explicit
 * parameters; a pending TTL timer is an entry of `LogStore.timers` and its
 * firing is the operation `LogStore.Expire`.
 */
module Logger {
  import opened Strings
  import opened Json
  import opened LogTypes

  const MaxEntries: nat := 200
  const TtlMs: nat := 600000
  const TruncateAt: nat := 1500
  const RedactedText := "[redacted]"
  const TruncatedMarker := "…(truncated)"

  // ---------------------------------------------------------------------------
  // Redaction

  predicate IsAsciiAlnum(c: char) {
    ('A' <= c <= 'Z') || ('a' <= c <= 'z') || ('0' <= c <= '9')
  }

  /** `/sk-[A-Za-z0-9]/.test(s)`. */
  predicate LooksLikeSecret(s: string) {
    exists i :: 0 <= i && i + 3 < |s| && s[i] == 's' && s[i + 1] == 'k' && s[i + 2] == '-' && IsAsciiAlnum(s[i + 3])
  }

  /** `/api[_-]?key/i.test(k)`. */
  predicate NamesApiKey(k: string) {
    var l := Lower(k);
    Contains(l, "apikey") || Contains(l, "api_key") || Contains(l, "api-key")
  }

  /** The key under which a value is redacted is "sensitive" when it is truthy and names an API key. */
  predicate SensitiveKey(key: Option<string>) {
    key.Some? && key.value != "" && NamesApiKey(key.value)
  }

  /**
   * `redactValue(val, key)`: strings that look like secrets, or that sit under
   * a key naming an API key, become "[redacted]"; arrays and objects are
   * rebuilt element by element (an array element's key is its index).
   */
  function Redact(v: Json, key: Option<string>): Json
    decreases v
  {
    match v
    case JStr(s) =>
      if LooksLikeSecret(s) then JStr(RedactedText)
      else if SensitiveKey(key) then JStr(RedactedText)
      else v
    case JArr(items) =>
      JArr(seq(|items|, i requires 0 <= i < |items| => Redact(items[i], Some(NatToString(i)))))
    case JObj(fields) =>
      JObj(seq(|fields|, i requires 0 <= i < |fields| => (fields[i].0, Redact(fields[i].1, Some(fields[i].0)))))
    case _ => v
  }

  /** Same keys, same array lengths, same non-string leaves. */
  predicate SameShape(a: Json, b: Json)
    decreases a
  {
    match a
    case JStr(_) => b.JStr?
    case JArr(xs) =>
      b.JArr? && |b.items| == |xs| && forall i :: 0 <= i < |xs| ==> SameShape(xs[i], b.items[i])
    case JObj(fs) =>
      b.JObj? && |b.fields| == |fs|
      && forall i :: 0 <= i < |fs| ==> fs[i].0 == b.fields[i].0 && SameShape(fs[i].1, b.fields[i].1)
    case _ => b == a
  }

  /** No string anywhere in `v` looks like a secret. */
  predicate NoSecrets(v: Json)
    decreases v
  {
    match v
    case JStr(s) => !LooksLikeSecret(s)
    case JArr(xs) => forall i :: 0 <= i < |xs| ==> NoSecrets(xs[i])
    case JObj(fs) => forall i :: 0 <= i < |fs| ==> NoSecrets(fs[i].1)
    case _ => true
  }

  /** Every string directly under an API-key-named property of any object in `v` is "[redacted]". */
  predicate KeyedStringsRedacted(v: Json)
    decreases v
  {
    match v
    case JArr(xs) => forall i :: 0 <= i < |xs| ==> KeyedStringsRedacted(xs[i])
    case JObj(fs) =>
      forall i :: 0 <= i < |fs| ==>
        (fs[i].1.JStr? && SensitiveKey(Some(fs[i].0)) ==> fs[i].1.s == RedactedText)
        && KeyedStringsRedacted(fs[i].1)
    case _ => true
  }

  lemma RedactedTextIsClean()
    ensures !LooksLikeSecret(RedactedText)
  {
    assert 's' !in RedactedText;
  }

  lemma {:induction false} RedactPreservesShape(v: Json, key: Option<string>)
    ensures SameShape(v, Redact(v, key))
    decreases v
  {
    match v
    case JArr(xs) =>
      var r := Redact(v, key);
      forall i | 0 <= i < |xs| ensures SameShape(xs[i], r.items[i]) {
        RedactPreservesShape(xs[i], Some(NatToString(i)));
      }
    case JObj(fs) =>
      var r := Redact(v, key);
      forall i | 0 <= i < |fs| ensures fs[i].0 == r.fields[i].0 && SameShape(fs[i].1, r.fields[i].1) {
        RedactPreservesShape(fs[i].1, Some(fs[i].0));
      }
    case _ =>
  }

  lemma {:induction false} RedactRemovesSecrets(v: Json, key: Option<string>)
    ensures NoSecrets(Redact(v, key))
    ensures KeyedStringsRedacted(Redact(v, key))
    decreases v
  {
    RedactedTextIsClean();
    match v
    case JArr(xs) =>
      var r := Redact(v, key);
      forall i | 0 <= i < |xs| ensures NoSecrets(r.items[i]) && KeyedStringsRedacted(r.items[i]) {
        RedactRemovesSecrets(xs[i], Some(NatToString(i)));
      }
    case JObj(fs) =>
      var r := Redact(v, key);
      forall i | 0 <= i < |fs|
        ensures (r.fields[i].1.JStr? && SensitiveKey(Some(r.fields[i].0)) ==> r.fields[i].1.s == RedactedText)
        ensures NoSecrets(r.fields[i].1) && KeyedStringsRedacted(r.fields[i].1)
      {
        RedactRemovesSecrets(fs[i].1, Some(fs[i].0));
      }
    case _ =>
  }

  /** Redacting twice is the same as redacting once. */
  lemma {:induction false} RedactIdempotent(v: Json, key: Option<string>)
    ensures Redact(Redact(v, key), key) == Redact(v, key)
    decreases v
  {
    RedactedTextIsClean();
    match v
    case JArr(xs) =>
      var r := Redact(v, key);
      var rr := Redact(r, key);
      forall i | 0 <= i < |xs| ensures rr.items[i] == r.items[i] {
        RedactIdempotent(xs[i], Some(NatToString(i)));
      }
      assert rr.items == r.items;
    case JObj(fs) =>
      var r := Redact(v, key);
      var rr := Redact(r, key);
      forall i | 0 <= i < |fs| ensures rr.fields[i] == r.fields[i] {
        RedactIdempotent(fs[i].1, Some(fs[i].0));
      }
      assert rr.fields == r.fields;
    case _ =>
  }

  // ---------------------------------------------------------------------------
  // Truncated stringification

  /** The length cap applied to a stringified payload. */
  function Truncate(s: string): (r: string)
    ensures |s| <= TruncateAt ==> r == s
    ensures |s| > TruncateAt ==>
      |r| == TruncateAt + |TruncatedMarker| && r[..TruncateAt] == s[..TruncateAt] && EndsWith(r, TruncatedMarker)
    ensures |r| <= TruncateAt + |TruncatedMarker|
  {
    if |s| > TruncateAt then s[..TruncateAt] + TruncatedMarker else s
  }

  /** `toTruncatedString(v)`. */
  function ToTruncatedString(v: Json): string {
    Truncate(Compact(v))
  }

  // ---------------------------------------------------------------------------
  // Key order helpers

  /** `s` with every occurrence of `x` removed, the rest in order. */
  function Without(s: seq<string>, x: string): (r: seq<string>)
    ensures forall y :: y in r <==> y in s && y != x
    ensures |r| <= |s|
  {
    if s == [] then [] else (if s[0] == x then [] else [s[0]]) + Without(s[1..], x)
  }

  lemma {:induction false} WithoutAbsent(s: seq<string>, x: string)
    requires x !in s
    ensures Without(s, x) == s
  {
    if s != [] {
      WithoutAbsent(s[1..], x);
      assert s == [s[0]] + s[1..];
    }
  }

  /** `a` occurs before `b` in `s`. */
  predicate Before(s: seq<string>, a: string, b: string) {
    exists i, j :: 0 <= i < j < |s| && s[i] == a && s[j] == b
  }

  lemma BeforeCons(h: string, t: seq<string>, a: string, b: string)
    ensures Before([h] + t, a, b) <==> (h == a && b in t) || Before(t, a, b)
  {
    var s := [h] + t;
    if Before(s, a, b) {
      var i, j :| 0 <= i < j < |s| && s[i] == a && s[j] == b;
      if i > 0 {
        assert t[i - 1] == a && t[j - 1] == b;
      } else {
        assert t[j - 1] == b;
      }
    }
    if h == a && b in t {
      var j :| 0 <= j < |t| && t[j] == b;
      assert s[0] == a && s[j + 1] == b;
    }
    if Before(t, a, b) {
      var i, j :| 0 <= i < j < |t| && t[i] == a && t[j] == b;
      assert s[i + 1] == a && s[j + 1] == b;
    }
  }

  lemma {:induction false} WithoutKeepsOrder(s: seq<string>, x: string, a: string, b: string)
    requires a != x && b != x
    ensures Before(Without(s, x), a, b) <==> Before(s, a, b)
  {
    if s != [] {
      var t := s[1..];
      assert s == [s[0]] + t;
      WithoutKeepsOrder(t, x, a, b);
      BeforeCons(s[0], t, a, b);
      if s[0] != x {
        assert Without(s, x) == [s[0]] + Without(t, x);
        BeforeCons(s[0], Without(t, x), a, b);
      } else {
        assert Without(s, x) == Without(t, x);
      }
    }
  }

  lemma BeforeAppendOther(s: seq<string>, x: string, a: string, b: string)
    requires b != x
    ensures Before(s + [x], a, b) <==> Before(s, a, b)
  {
    var t := s + [x];
    if Before(t, a, b) {
      var i, j :| 0 <= i < j < |t| && t[i] == a && t[j] == b;
      assert j < |s| && s[i] == a && s[j] == b;
    }
    if Before(s, a, b) {
      var i, j :| 0 <= i < j < |s| && s[i] == a && s[j] == b;
      assert t[i] == a && t[j] == b;
    }
  }

  /**
   * After `touch(id)` the keys other than `id` keep their relative order and
   * `id` is the most recent key.
   */
  lemma TouchKeepsRelativeOrder(order: seq<string>, id: string, a: string, b: string)
    requires a != id && b != id
    ensures Before(Without(order, id) + [id], a, b) <==> Before(order, a, b)
    ensures a in order ==> Before(Without(order, id) + [id], a, id)
  {
    BeforeAppendOther(Without(order, id), id, a, b);
    WithoutKeepsOrder(order, id, a, b);
    if a in order {
      var w := Without(order, id) + [id];
      var i :| 0 <= i < |Without(order, id)| && Without(order, id)[i] == a;
      assert w[i] == a && w[|w| - 1] == id;
    }
  }

  /**
   * `keys` lists the keys of `m`, each once, in the order the map iterates
   * them (the first key is the oldest insertion).
   */
  ghost predicate KeysMatch<V>(keys: seq<string>, m: map<string, V>) {
    if keys == [] then m == map[] else keys[0] in m && KeysMatch(keys[1..], m - {keys[0]})
  }

  lemma {:induction false} KeysMatchMembers<V>(keys: seq<string>, m: map<string, V>)
    requires KeysMatch(keys, m)
    ensures forall k :: k in keys <==> k in m
    ensures |keys| == |m|
  {
    if keys != [] {
      KeysMatchMembers(keys[1..], m - {keys[0]});
      assert keys == [keys[0]] + keys[1..];
      assert (m - {keys[0]}).Keys == m.Keys - {keys[0]};
    }
  }

  lemma {:induction false} KeysMatchRemove<V>(keys: seq<string>, m: map<string, V>, id: string)
    requires KeysMatch(keys, m)
    ensures KeysMatch(Without(keys, id), m - {id})
  {
    if keys == [] {
      assert m - {id} == map[];
    } else {
      var k, t := keys[0], keys[1..];
      KeysMatchMembers(t, m - {k});
      if k == id {
        WithoutAbsent(t, id);
        assert Without(keys, id) == t;
        assert m - {id} == m - {k};
      } else {
        KeysMatchRemove(t, m - {k}, id);
        assert Without(keys, id) == [k] + Without(t, id);
        assert (m - {id}) - {k} == (m - {k}) - {id};
      }
    }
  }

  lemma {:induction false} KeysMatchAppend<V>(keys: seq<string>, m: map<string, V>, k: string, v: V)
    requires KeysMatch(keys, m) && k !in m
    ensures KeysMatch(keys + [k], m[k := v])
  {
    if keys == [] {
      assert ([] + [k])[1..] == [];
      assert m[k := v] - {k} == map[];
    } else {
      var h, t := keys[0], keys[1..];
      KeysMatchAppend(t, m - {h}, k, v);
      assert (keys + [k])[1..] == t + [k];
      assert m[k := v] - {h} == (m - {h})[k := v];
    }
  }

  lemma {:induction false} KeysMatchUpdate<V>(keys: seq<string>, m: map<string, V>, k: string, v: V)
    requires KeysMatch(keys, m) && k in m
    ensures KeysMatch(keys, m[k := v])
  {
    if keys != [] {
      var h, t := keys[0], keys[1..];
      if h == k {
        assert m[k := v] - {h} == m - {h};
      } else {
        KeysMatchUpdate(t, m - {h}, k, v);
        assert m[k := v] - {h} == (m - {h})[k := v];
      }
    }
  }

  /** After a touch the table grows by at most one key, and the touched key is not the oldest of two or more. */
  lemma TouchedFacts<V>(keys: seq<string>, m: map<string, V>, id: string, v: V)
    requires KeysMatch(keys, m)
    ensures var order, cache := Without(keys, id) + [id], m[id := v];
      && |cache| <= |m| + 1 && (|order| >= 2 ==> order[0] != id)
  {
    var order := Without(keys, id) + [id];
    KeysMatchMembers(keys, m);
    KeysMatchTouch(keys, m, id, v);
    KeysMatchMembers(order, m[id := v]);
    if |order| >= 2 {
      assert order[0] in Without(keys, id);
    }
  }

  lemma KeysMatchTouch<V>(keys: seq<string>, m: map<string, V>, id: string, v: V)
    requires KeysMatch(keys, m)
    ensures KeysMatch(Without(keys, id) + [id], m[id := v])
  {
    KeysMatchRemove(keys, m, id);
    KeysMatchAppend(Without(keys, id), m - {id}, id, v);
    assert (m - {id})[id := v] == m[id := v];
  }

  // ---------------------------------------------------------------------------
  // The cache and the in-flight tool-call table

  /** A cache entry: the lines of one request, the time of its last write and its TTL timer. */
  class CacheEntry {
    var lines: seq<LogLine>
    var ts: int
    var timeout: Option<nat>

    constructor (now: int)
      ensures lines == [] && ts == now && timeout == None
    {
      lines := [];
      ts := now;
      timeout := None;
    }
  }

  datatype ActiveCall = ActiveCall(name: string, startTime: int, reqId: string)

  /** Every key of the call table is longer than the request id stored under it. */
  ghost predicate KeysOutgrowReqIds(calls: map<string, ActiveCall>) {
    forall k :: k in calls ==> |calls[k].reqId| < |k|
  }

  /** The first key of `keys` whose call satisfies `p` (the fallback scan of `toolResult`). */
  function FirstWhere(keys: seq<string>, calls: map<string, ActiveCall>, p: (string, ActiveCall) -> bool): (r: Option<string>)
    ensures r.Some? ==> r.value in keys && r.value in calls && p(r.value, calls[r.value])
    ensures r.None? ==> forall k :: k in keys && k in calls ==> !p(k, calls[k])
  {
    if keys == [] then None
    else if keys[0] in calls && p(keys[0], calls[keys[0]]) then Some(keys[0])
    else FirstWhere(keys[1..], calls, p)
  }

  /** The scan from position `i` looks at `keys[i]` first, then goes on from `i + 1`. */
  lemma FirstWhereStep(keys: seq<string>, calls: map<string, ActiveCall>, p: (string, ActiveCall) -> bool, i: nat)
    requires i < |keys| && keys[i] in calls
    ensures FirstWhere(keys[i..], calls, p) ==
      if p(keys[i], calls[keys[i]]) then Some(keys[i]) else FirstWhere(keys[i + 1..], calls, p)
  {
    assert keys[i..][1..] == keys[i + 1..];
  }

  /** The loop of the scan: the first key, in order, whose call satisfies `p`. */
  method ScanCalls(keys: seq<string>, calls: map<string, ActiveCall>, p: (string, ActiveCall) -> bool)
    returns (hit: Option<string>)
    requires forall k :: k in keys ==> k in calls
    ensures hit == FirstWhere(keys, calls, p)
  {
    var i := 0;
    while i < |keys|
      invariant 0 <= i <= |keys|
      invariant FirstWhere(keys, calls, p) == FirstWhere(keys[i..], calls, p)
    {
      FirstWhereStep(keys, calls, p, i);
      if p(keys[i], calls[keys[i]]) {
        return Some(keys[i]);
      }
      i := i + 1;
    }
    return None;
  }

  /**
   * The test of the fallback scan: same tool name, and the call's request id
   * equal to the table key it is stored under (the loop variable shadows the
   * logger's own id).
   */
  function FallbackTest(name: string): (string, ActiveCall) -> bool {
    (k: string, c: ActiveCall) => c.name == name && c.reqId == k
  }

  /** The fallback scan never finds a call: no key equals the request id stored under it. */
  lemma {:induction false} FallbackNeverMatches(keys: seq<string>, calls: map<string, ActiveCall>, name: string)
    requires KeysOutgrowReqIds(calls)
    ensures FirstWhere(keys, calls, FallbackTest(name)) == None
  {
    if keys != [] {
      FallbackNeverMatches(keys[1..], calls, name);
      if keys[0] in calls {
        assert |calls[keys[0]].reqId| < |keys[0]|;
      }
    }
  }

  /**
   * The module-level state of the logger: the cache (`order` lists its keys
   * oldest first, as a `Map` iterates them), the in-flight tool calls
   * (`callOrder` likewise) and the pending TTL timers by handle.
   */
  class LogStore {
    var order: seq<string>
    var cache: map<string, CacheEntry>
    var callOrder: seq<string>
    var activeCalls: map<string, ActiveCall>
    var timers: map<nat, string>
    var nextTimer: nat

    ghost predicate Valid()
      reads this
    {
      && KeysMatch(order, cache)
      && "" !in cache
      && KeysMatch(callOrder, activeCalls)
      && KeysOutgrowReqIds(activeCalls)
      && (forall h :: h in timers ==> h < nextTimer)
    }

    constructor ()
      ensures Valid()
      ensures order == [] && cache == map[] && callOrder == [] && activeCalls == map[] && timers == map[]
    {
      order, cache := [], map[];
      callOrder, activeCalls := [], map[];
      timers, nextTimer := map[], 0;
    }

    /** `touch(id, entry)`: `id` becomes the most recent key, bound to `entry`. */
    method Touch(id: string, e: CacheEntry)
      requires Valid() && id != ""
      modifies this
      ensures Valid()
      ensures order == Without(old(order), id) + [id]
      ensures cache == old(cache)[id := e]
      ensures callOrder == old(callOrder) && activeCalls == old(activeCalls)
      ensures timers == old(timers) && nextTimer == old(nextTimer)
    {
      KeysMatchTouch(order, cache, id, e);
      order := Without(order, id) + [id];
      cache := cache[id := e];
    }

    /** `evictIfNeeded()`: over capacity, the oldest key is dropped and its timer cleared. */
    method EvictIfNeeded()
      requires Valid()
      modifies this
      ensures Valid()
      ensures old(|cache|) <= MaxEntries ==> order == old(order) && cache == old(cache) && timers == old(timers)
      ensures old(|cache|) > MaxEntries ==>
        var oldest := old(order)[0];
        && order == old(order)[1..]
        && cache == old(cache) - {oldest}
        && timers == (if old(cache)[oldest].timeout.Some? then old(timers) - {old(cache)[oldest].timeout.value} else old(timers))
      ensures old(|cache|) > MaxEntries ==> |cache| == old(|cache|) - 1
      ensures callOrder == old(callOrder) && activeCalls == old(activeCalls) && nextTimer == old(nextTimer)
    {
      if |cache| <= MaxEntries {
        return;
      }
      KeysMatchMembers(order, cache);
      var oldest := order[0];
      KeysMatchMembers(order[1..], cache - {oldest});
      if oldest != "" {
        var e := cache[oldest];
        if e.timeout.Some? {
          timers := timers - {e.timeout.value};
        }
        cache := cache - {oldest};
        order := order[1..];
      }
    }

    /** The TTL timer with handle `h` fires: its request id is deleted from the cache. */
    method Expire(h: nat)
      requires Valid()
      modifies this
      ensures Valid()
      ensures h in old(timers) ==>
        && cache == old(cache) - {old(timers)[h]}
        && order == Without(old(order), old(timers)[h])
        && timers == old(timers) - {h}
      ensures h !in old(timers) ==> cache == old(cache) && order == old(order) && timers == old(timers)
      ensures callOrder == old(callOrder) && activeCalls == old(activeCalls) && nextTimer == old(nextTimer)
    {
      if h in timers {
        var id := timers[h];
        KeysMatchRemove(order, cache, id);
        cache := cache - {id};
        order := Without(order, id);
        timers := timers - {h};
      }
    }

    /** `getCachedLogs(reqId)`: a hit returns the lines and promotes the id; a miss changes nothing. */
    method GetCachedLogs(reqId: string) returns (r: Option<seq<LogLine>>)
      requires Valid()
      modifies this
      ensures Valid()
      ensures reqId !in old(cache) ==> r == None && order == old(order) && cache == old(cache)
      ensures reqId in old(cache) ==>
        && r == Some(old(cache)[reqId].lines)
        && order == Without(old(order), reqId) + [reqId]
        && cache == old(cache)
      ensures callOrder == old(callOrder) && activeCalls == old(activeCalls)
      ensures timers == old(timers) && nextTimer == old(nextTimer)
    {
      if reqId !in cache {
        return None;
      }
      var e := cache[reqId];
      Touch(reqId, e);
      r := Some(e.lines);
    }

    /** `activeToolCalls.set(key, call)`. */
    method SetCall(key: string, call: ActiveCall)
      requires Valid() && |call.reqId| < |key|
      modifies this
      ensures Valid()
      ensures activeCalls == old(activeCalls)[key := call]
      ensures callOrder == if key in old(activeCalls) then old(callOrder) else old(callOrder) + [key]
      ensures order == old(order) && cache == old(cache) && timers == old(timers) && nextTimer == old(nextTimer)
    {
      if key in activeCalls {
        KeysMatchUpdate(callOrder, activeCalls, key, call);
      } else {
        KeysMatchAppend(callOrder, activeCalls, key, call);
      }
      if key !in activeCalls {
        callOrder := callOrder + [key];
      }
      activeCalls := activeCalls[key := call];
    }

    /**
     * The scan over a snapshot of the call table: the first call satisfying
     * `p` is removed and timed; when none does, nothing changes and the
     * duration is 0.
     */
    method ReleaseWhere(p: (string, ActiveCall) -> bool, endTime: int) returns (duration: int)
      requires KeysMatch(callOrder, activeCalls)
      modifies this
      ensures KeysMatch(callOrder, activeCalls)
      ensures match FirstWhere(old(callOrder), old(activeCalls), p)
        case None => duration == 0 && activeCalls == old(activeCalls) && callOrder == old(callOrder)
        case Some(k) =>
          && duration == endTime - old(activeCalls)[k].startTime
          && activeCalls == old(activeCalls) - {k}
          && callOrder == Without(old(callOrder), k)
      ensures order == old(order) && cache == old(cache) && timers == old(timers) && nextTimer == old(nextTimer)
    {
      duration := 0;
      KeysMatchMembers(callOrder, activeCalls);
      var hit := ScanCalls(callOrder, activeCalls, p);
      if hit.Some? {
        var key := hit.value;
        duration := endTime - activeCalls[key].startTime;
        KeysMatchRemove(callOrder, activeCalls, key);
        activeCalls := activeCalls - {key};
        callOrder := Without(callOrder, key);
      }
    }

    /**
     * The duration lookup of `toolResult` and `toolError`: a truthy,
     * registered `toolId` is released and timed; otherwise the name scan
     * runs, finds nothing, and the duration stays 0.
     */
    method Release(name: string, toolId: Option<string>, endTime: int) returns (duration: int)
      requires Valid()
      modifies this
      ensures Valid()
      ensures Registered(old(activeCalls), toolId) ==>
        && duration == endTime - old(activeCalls)[toolId.value].startTime
        && activeCalls == old(activeCalls) - {toolId.value}
        && callOrder == Without(old(callOrder), toolId.value)
      ensures !Registered(old(activeCalls), toolId) ==>
        duration == 0 && activeCalls == old(activeCalls) && callOrder == old(callOrder)
      ensures order == old(order) && cache == old(cache) && timers == old(timers) && nextTimer == old(nextTimer)
    {
      if toolId.Some? && toolId.value != "" && toolId.value in activeCalls {
        duration := endTime - activeCalls[toolId.value].startTime;
        KeysMatchRemove(callOrder, activeCalls, toolId.value);
        activeCalls := activeCalls - {toolId.value};
        callOrder := Without(callOrder, toolId.value);
      } else {
        FallbackNeverMatches(callOrder, activeCalls, name);
        duration := ReleaseWhere(FallbackTest(name), endTime);
      }
    }

    /** `cache.get(id) ?? { lines: [], ts: now }`, with a TTL timer scheduled for a new entry. */
    method EntryFor(id: string, now: int) returns (entry: CacheEntry)
      requires Valid()
      modifies this
      ensures Valid()
      ensures id in old(cache) ==> entry == old(cache)[id] && timers == old(timers) && nextTimer == old(nextTimer)
      ensures id !in old(cache) ==>
        && fresh(entry) && entry.lines == [] && entry.ts == now && entry.timeout == Some(old(nextTimer))
        && timers == old(timers)[old(nextTimer) := id] && nextTimer == old(nextTimer) + 1
      ensures order == old(order) && cache == old(cache) && callOrder == old(callOrder) && activeCalls == old(activeCalls)
    {
      if id in cache {
        entry := cache[id];
      } else {
        entry := new CacheEntry(now);
        entry.timeout := Some(nextTimer);
        timers := timers[nextTimer := id];
        nextTimer := nextTimer + 1;
      }
    }

    /**
     * `createLogger(reqId)`: binds to `reqId` when truthy, else to `freshId`;
     * reuses an existing entry (no new timer) or creates one with a TTL timer;
     * then touches the id and evicts if over capacity.
     */
    method CreateLogger(reqId: Option<string>, freshId: string, now: int) returns (lg: RequestLogger)
      requires Valid() && freshId != ""
      modifies this
      ensures Valid() && lg.Valid() && lg.store == this && fresh(lg)
      ensures lg.id == LoggerId(reqId, freshId) && lg.t0 == now
      ensures lg.id in cache && cache[lg.id] == lg.entry && order[|order| - 1] == lg.id
      ensures old(|cache|) <= MaxEntries ==> |cache| <= MaxEntries
      ensures LoggerId(reqId, freshId) in old(cache) ==>
        && lg.entry == old(cache)[lg.id]
        && lg.entry.lines == old(cache[LoggerId(reqId, freshId)].lines)
        && nextTimer == old(nextTimer)
      ensures LoggerId(reqId, freshId) !in old(cache) ==>
        && fresh(lg.entry) && lg.entry.lines == [] && lg.entry.ts == now
        && lg.entry.timeout == Some(old(nextTimer))
        && nextTimer == old(nextTimer) + 1
      ensures var touchedOrder, touchedCache := Without(old(order), lg.id) + [lg.id], old(cache)[lg.id := lg.entry];
        var scheduled := if lg.id in old(cache) then old(timers) else old(timers)[old(nextTimer) := lg.id];
        && (|touchedCache| <= MaxEntries ==> order == touchedOrder && cache == touchedCache && timers == scheduled)
        && (|touchedCache| > MaxEntries ==>
              var oldest := touchedOrder[0];
              && order == touchedOrder[1..]
              && cache == touchedCache - {oldest}
              && timers == (if oldest in touchedCache && touchedCache[oldest].timeout.Some? then scheduled - {touchedCache[oldest].timeout.value} else scheduled))
      ensures callOrder == old(callOrder) && activeCalls == old(activeCalls)
    {
      var id := LoggerId(reqId, freshId);
      var entry := EntryFor(id, now);
      ghost var before := order;
      Touch(id, entry);
      TouchedFacts(before, old(cache), id, entry);
      EvictIfNeeded();
      lg := new RequestLogger(this, id, now, entry);
    }
  }

  /** `toolId && activeToolCalls.has(toolId)`. */
  predicate Registered(calls: map<string, ActiveCall>, toolId: Option<string>) {
    toolId.Some? && toolId.value != "" && toolId.value in calls
  }

  /** `reqId || crypto.randomUUID()`, with the generated id passed in. */
  function LoggerId(reqId: Option<string>, freshId: string): string {
    if reqId.Some? && reqId.value != "" then reqId.value else freshId
  }

  // ---------------------------------------------------------------------------
  // One request's logger

  /** The data stored on a line: absent for null/undefined, otherwise redacted. */
  function StoredData(data: Option<Json>): Option<Json> {
    if data.None? || data.value == JNull then None else Some(Redact(data.value, None))
  }

  /** The line `push(level, msg, data, extra)` appends. */
  function MakeLine(stamp: string, level: Level, reqId: string, msg: string, data: Option<Json>, extra: Extra): LogLine {
    LogLine(stamp, level, reqId, msg, StoredData(data), extra.toolCall, extra.toolResult, extra.duration, extra.step)
  }

  /** The stored `data` of a line never holds a secret-looking string. */
  lemma StoredDataIsRedacted(data: Option<Json>)
    ensures StoredData(data).Some? ==> NoSecrets(StoredData(data).value) && KeyedStringsRedacted(StoredData(data).value)
    ensures StoredData(data).Some? ==> SameShape(data.value, StoredData(data).value)
  {
    if StoredData(data).Some? {
      RedactRemovesSecrets(data.value, None);
      RedactPreservesShape(data.value, None);
    }
  }

  /**
   * Only `data` is redacted: the `input` kept in a tool-call line is the one
   * given, so a secret passed as tool input is stored as is.
   */
  lemma ToolCallLineRedaction(stamp: string, reqId: string, name: string, input: Json, now: int)
    ensures var line := MakeLine(stamp, Debug, reqId, "tool:call:" + name, Some(JObj([("input", input)])),
                                 Extra(Some(ToolCallInfo(name, input, now)), None, None, None));
      && line.toolCall == Some(ToolCallInfo(name, input, now))
      && NoSecrets(line.data.value)
  {
    StoredDataIsRedacted(Some(JObj([("input", input)])));
  }

  /** `{ ...base, ...extra }` on objects: existing keys keep their place, new keys go last. */
  function Spread(base: seq<(string, Json)>, extra: seq<(string, Json)>): seq<(string, Json)>
    decreases |extra|
  {
    if extra == [] then base else Spread(Assign(base, extra[0].0, extra[0].1), extra[1..])
  }

  function Assign(fields: seq<(string, Json)>, k: string, v: Json): seq<(string, Json)> {
    if fields == [] then [(k, v)]
    else if fields[0].0 == k then [(k, v)] + fields[1..]
    else [fields[0]] + Assign(fields[1..], k, v)
  }

  /** One line of `dumpPlain()`. */
  function PlainLine(l: LogLine): string {
    l.ts + " " + LevelUpper(l.level) + " " + l.reqId + " " + l.msg
    + (if l.data.Some? && Truthy(l.data.value) then " " + ToTruncatedString(l.data.value) else "")
    + (if l.toolCall.Some? then " [TOOL_CALL: " + l.toolCall.value.name + "]" else "")
    + (if l.toolResult.Some? then " [TOOL_RESULT: " + l.toolResult.value.name + " (" + IntToString(l.toolResult.value.duration) + "ms)]" else "")
  }

  /** The object the `createLogger` closure returns. */
  class RequestLogger {
    const store: LogStore
    const id: string
    const t0: int
    const entry: CacheEntry

    ghost predicate Valid()
      reads this, store
    {
      id != "" && store.Valid()
    }

    constructor (store: LogStore, id: string, t0: int, entry: CacheEntry)
      ensures this.store == store && this.id == id && this.t0 == t0 && this.entry == entry
    {
      this.store := store;
      this.id := id;
      this.t0 := t0;
      this.entry := entry;
    }

    /**
     * What `push` does besides appending the line: the entry's time becomes
     * `now`, the id becomes the most recent key bound to the entry, and the
     * timers are left alone.
     */
    twostate predicate Touched(now: int)
      reads this, store, entry
    {
      && entry.ts == now && entry.timeout == old(entry.timeout)
      && store.order == Without(old(store.order), id) + [id]
      && store.cache == old(store.cache)[id := entry]
      && store.timers == old(store.timers) && store.nextTimer == old(store.nextTimer)
    }

    /** `time()`: milliseconds since the logger was created. */
    function Time(now: int): int {
      now - t0
    }

    /**
     * `push(level, msg, data, extra)` and the leveled writers: exactly one line
     * is appended, earlier lines are untouched, and the id is touched (the
     * capacity is not enforced here).
     */
    method Push(level: Level, msg: string, data: Option<Json>, extra: Extra, now: int, stamp: string)
      requires Valid()
      modifies entry, store
      ensures Valid()
      ensures entry.lines == old(entry.lines) + [MakeLine(stamp, level, id, msg, data, extra)]
      ensures entry.ts == now && entry.timeout == old(entry.timeout)
      ensures store.order == Without(old(store.order), id) + [id]
      ensures store.cache == old(store.cache)[id := entry]
      ensures store.activeCalls == old(store.activeCalls) && store.callOrder == old(store.callOrder)
      ensures store.timers == old(store.timers) && store.nextTimer == old(store.nextTimer)
    {
      var line := MakeLine(stamp, level, id, msg, data, extra);
      entry.lines := entry.lines + [line];
      entry.ts := now;
      store.Touch(id, entry);
    }

    /** `step(stepLabel, extra)`: an info line `step:<stepLabel>` carrying the elapsed time. */
    method Step(stepLabel: string, extra: seq<(string, Json)>, now: int, stamp: string)
      requires Valid()
      modifies entry, store
      ensures Valid()
      ensures entry.lines == old(entry.lines) + [MakeLine(stamp, Info, id, "step:" + stepLabel,
        Some(JObj(Spread([("ms", JNum(now - t0))], extra))),
        Extra(None, None, Some(now - t0), Some(StepInfo(stepLabel, "execution"))))]
      ensures Touched(now)
      ensures store.activeCalls == old(store.activeCalls) && store.callOrder == old(store.callOrder)
    {
      var duration := now - t0;
      Push(Info, "step:" + stepLabel, Some(JObj(Spread([("ms", JNum(duration))], extra))),
        Extra(None, None, Some(duration), Some(StepInfo(stepLabel, "execution"))), now, stamp);
    }

    /** `toolCall(name, input)`: registers an in-flight call and returns its key. */
    method ToolCall(name: string, input: Json, now: int, stamp: string) returns (toolId: string)
      requires Valid()
      modifies entry, store
      ensures Valid()
      ensures toolId == id + "-" + name + "-" + IntToString(now)
      ensures store.activeCalls == old(store.activeCalls)[toolId := ActiveCall(name, now, id)]
      ensures store.callOrder ==
        if toolId in old(store.activeCalls) then old(store.callOrder) else old(store.callOrder) + [toolId]
      ensures Touched(now)
      ensures entry.lines == old(entry.lines) + [MakeLine(stamp, Debug, id, "tool:call:" + name,
        Some(JObj([("input", input)])), Extra(Some(ToolCallInfo(name, input, now)), None, None, None))]
    {
      toolId := id + "-" + name + "-" + IntToString(now);
      store.SetCall(toolId, ActiveCall(name, now, id));
      Push(Debug, "tool:call:" + name, Some(JObj([("input", input)])),
        Extra(Some(ToolCallInfo(name, input, now)), None, None, None), now, stamp);
    }

    /**
     * `toolResult(name, output, toolId, success)`: with a registered `toolId`
     * the call is removed and its duration is end minus start; otherwise the
     * duration is 0.
     */
    method ToolResult(name: string, output: Json, toolId: Option<string>, success: bool, now: int, stamp: string)
      requires Valid()
      modifies entry, store
      ensures Valid()
      ensures var registered := Registered(old(store.activeCalls), toolId);
        var duration := if registered then now - old(store.activeCalls)[toolId.value].startTime else 0;
        && entry.lines == old(entry.lines) + [MakeLine(stamp, Debug, id, "tool:result:" + name,
             Some(JObj([("output", output)])),
             Extra(None, Some(ToolResultInfo(name, output, duration, success)), None, None))]
        && store.activeCalls == (if registered then old(store.activeCalls) - {toolId.value} else old(store.activeCalls))
        && store.callOrder == (if registered then Without(old(store.callOrder), toolId.value) else old(store.callOrder))
      ensures Touched(now)
    {
      var duration := store.Release(name, toolId, now);
      Push(Debug, "tool:result:" + name, Some(JObj([("output", output)])),
        Extra(None, Some(ToolResultInfo(name, output, duration, success)), None, None), now, stamp);
    }

    /** `toolError(name, error, toolId)`: like `toolResult`, at level error with success false. */
    method ToolError(name: string, errText: string, toolId: Option<string>, now: int, stamp: string)
      requires Valid()
      modifies entry, store
      ensures Valid()
      ensures var registered := Registered(old(store.activeCalls), toolId);
        var duration := if registered then now - old(store.activeCalls)[toolId.value].startTime else 0;
        var err := JObj([("error", JStr(errText))]);
        && entry.lines == old(entry.lines) + [MakeLine(stamp, Error, id, "tool:error:" + name, Some(err),
             Extra(None, Some(ToolResultInfo(name, err, duration, false)), None, None))]
        && store.activeCalls == (if registered then old(store.activeCalls) - {toolId.value} else old(store.activeCalls))
        && store.callOrder == (if registered then Without(old(store.callOrder), toolId.value) else old(store.callOrder))
      ensures Touched(now)
    {
      var duration := store.Release(name, toolId, now);
      var err := JObj([("error", JStr(errText))]);
      Push(Error, "tool:error:" + name, Some(err),
        Extra(None, Some(ToolResultInfo(name, err, duration, false)), None, None), now, stamp);
    }

    /** `modelCall(what, payload)`: a debug line `model:<what>` with the elapsed time. */
    method ModelCall(what: string, payload: Option<seq<(string, Json)>>, now: int, stamp: string)
      requires Valid()
      modifies entry, store
      ensures Valid()
      ensures entry.lines == old(entry.lines) + [MakeLine(stamp, Debug, id, "model:" + what,
        if payload.Some? then Some(JObj([("payload", JObj(payload.value))])) else None,
        Extra(None, None, Some(now - t0), None))]
      ensures Touched(now)
      ensures store.activeCalls == old(store.activeCalls) && store.callOrder == old(store.callOrder)
    {
      Push(Debug, "model:" + what, if payload.Some? then Some(JObj([("payload", JObj(payload.value))])) else None,
        Extra(None, None, Some(now - t0), None), now, stamp);
    }

    /** `done(extra)`: an info line `done` with the elapsed time. */
    method Done(extra: seq<(string, Json)>, now: int, stamp: string)
      requires Valid()
      modifies entry, store
      ensures Valid()
      ensures entry.lines == old(entry.lines) + [MakeLine(stamp, Info, id, "done",
        Some(JObj(Spread([("ms", JNum(now - t0))], extra))), Extra(None, None, Some(now - t0), None))]
      ensures Touched(now)
      ensures store.activeCalls == old(store.activeCalls) && store.callOrder == old(store.callOrder)
    {
      Push(Info, "done", Some(JObj(Spread([("ms", JNum(now - t0))], extra))), Extra(None, None, Some(now - t0), None), now, stamp);
    }

    /** `dump()`: a copy of the lines. */
    method Dump() returns (r: seq<LogLine>)
      ensures r == entry.lines
    {
      r := entry.lines;
    }

    /** `dumpPlain()`: one text line per stored line. */
    function DumpPlain(): (r: seq<string>)
      reads entry
      ensures |r| == |entry.lines|
      ensures forall i :: 0 <= i < |r| ==>
        StartsWith(r[i], entry.lines[i].ts + " " + LevelUpper(entry.lines[i].level) + " " + entry.lines[i].reqId + " " + entry.lines[i].msg)
    {
      seq(|entry.lines|, i requires 0 <= i < |entry.lines| reads entry => PlainLine(entry.lines[i]))
    }
  }
}
