/**
 * The mock content tools (the live branch, since the mock switch is always
 * on): HTML escaping, the published-date window, keyword-first source
 * selection capped at five, and sentence-based summaries.
 */
module ContentTools {
  import opened Strings

  // ---------------------------------------------------------------------------
  // HTML escaping

  /** The entity one character becomes. */
  function HtmlEntity(c: char): string {
    if c == '&' then "&amp;"
    else if c == '<' then "&lt;"
    else if c == '>' then "&gt;"
    else if c == '"' then "&quot;"
    else if c == '\'' then "&#39;"
    else [c]
  }

  /** Escaping as a per-character map. */
  function EscapeChars(s: string): string {
    if s == [] then "" else HtmlEntity(s[0]) + EscapeChars(s[1..])
  }

  /** `escapeHtml(s)`: five `replaceAll` passes, `&` first. */
  function EscapeHtml(s: string): string {
    ReplaceChar(ReplaceChar(ReplaceChar(ReplaceChar(ReplaceChar(s, '&', "&amp;"), '<', "&lt;"), '>', "&gt;"), '"', "&quot;"), '\'', "&#39;")
  }

  lemma EscapeHtmlAppend(a: string, b: string)
    ensures EscapeHtml(a + b) == EscapeHtml(a) + EscapeHtml(b)
  {
    var a1, b1 := ReplaceChar(a, '&', "&amp;"), ReplaceChar(b, '&', "&amp;");
    ReplaceCharAppend(a, b, '&', "&amp;");
    var a2, b2 := ReplaceChar(a1, '<', "&lt;"), ReplaceChar(b1, '<', "&lt;");
    ReplaceCharAppend(a1, b1, '<', "&lt;");
    var a3, b3 := ReplaceChar(a2, '>', "&gt;"), ReplaceChar(b2, '>', "&gt;");
    ReplaceCharAppend(a2, b2, '>', "&gt;");
    var a4, b4 := ReplaceChar(a3, '"', "&quot;"), ReplaceChar(b3, '"', "&quot;");
    ReplaceCharAppend(a3, b3, '"', "&quot;");
    ReplaceCharAppend(a4, b4, '\'', "&#39;");
  }

  /** On one character the five passes produce that character's entity: no entity is escaped again. */
  lemma EscapeHtmlChar(c: char)
    ensures EscapeHtml([c]) == HtmlEntity(c)
  {
    ReplaceCharSingle(c, '&', "&amp;");
    if c == '&' {
      LaterPassesKeep("&amp;", 1);
    } else {
      ReplaceCharSingle(c, '<', "&lt;");
      if c == '<' {
        LaterPassesKeep("&lt;", 2);
      } else {
        ReplaceCharSingle(c, '>', "&gt;");
        if c == '>' {
          LaterPassesKeep("&gt;", 3);
        } else {
          ReplaceCharSingle(c, '"', "&quot;");
          ReplaceCharSingle(c, '\'', "&#39;");
        }
      }
    }
  }

  /** Passes after the `k`-th leave an entity alone. */
  lemma LaterPassesKeep(e: string, k: nat)
    requires 1 <= k <= 3
    requires '<' !in e && '>' !in e && '"' !in e && '\'' !in e
    ensures k <= 1 ==> ReplaceChar(e, '<', "&lt;") == e
    ensures k <= 2 ==> ReplaceChar(e, '>', "&gt;") == e
    ensures ReplaceChar(e, '"', "&quot;") == e
    ensures ReplaceChar(e, '\'', "&#39;") == e
  {
    ReplaceCharAbsent(e, '<', "&lt;");
    ReplaceCharAbsent(e, '>', "&gt;");
    ReplaceCharAbsent(e, '"', "&quot;");
    ReplaceCharAbsent(e, '\'', "&#39;");
  }

  /** The chain of passes is the per-character escape: `&` first means no entity is escaped twice. */
  lemma {:induction false} EscapeHtmlIsPerChar(s: string)
    ensures EscapeHtml(s) == EscapeChars(s)
  {
    if s == [] {
      assert EscapeHtml(s) == "";
    } else {
      assert s == [s[0]] + s[1..];
      EscapeHtmlAppend([s[0]], s[1..]);
      EscapeHtmlChar(s[0]);
      EscapeHtmlIsPerChar(s[1..]);
    }
  }

  /** Escaped text holds none of `<`, `>`, `"` and `'` raw. */
  lemma {:induction false} EscapeHtmlNoSpecials(s: string)
    ensures var r := EscapeHtml(s); '<' !in r && '>' !in r && '"' !in r && '\'' !in r
  {
    EscapeHtmlIsPerChar(s);
    EscapeCharsNoSpecials(s);
  }

  lemma {:induction false} EscapeCharsNoSpecials(s: string)
    ensures var r := EscapeChars(s); '<' !in r && '>' !in r && '"' !in r && '\'' !in r
  {
    if s != [] {
      EscapeCharsNoSpecials(s[1..]);
      var e := HtmlEntity(s[0]);
      assert '<' !in e && '>' !in e && '"' !in e && '\'' !in e;
    }
  }

  /** Decoding of the five entities (the partner of escaping). */
  function Unescape(s: string): string
    decreases |s|
  {
    if s == [] then ""
    else if StartsWith(s, "&amp;") then "&" + Unescape(s[5..])
    else if StartsWith(s, "&lt;") then "<" + Unescape(s[4..])
    else if StartsWith(s, "&gt;") then ">" + Unescape(s[4..])
    else if StartsWith(s, "&quot;") then "\"" + Unescape(s[6..])
    else if StartsWith(s, "&#39;") then "'" + Unescape(s[5..])
    else [s[0]] + Unescape(s[1..])
  }

  /** Escaping loses nothing: decoding gives the original text back. */
  lemma {:induction false} UnescapeEscapeHtml(s: string)
    ensures Unescape(EscapeHtml(s)) == s
  {
    EscapeHtmlIsPerChar(s);
    UnescapeEscapeChars(s);
  }

  lemma {:induction false} UnescapeEscapeChars(s: string)
    ensures Unescape(EscapeChars(s)) == s
  {
    if s != [] {
      var c, t := s[0], EscapeChars(s[1..]);
      var e := HtmlEntity(c) + t;
      assert EscapeChars(s) == e;
      UnescapeEscapeChars(s[1..]);
      if c == '&' {
        assert e[..5] == "&amp;" && e[5..] == t;
      } else if c == '<' {
        assert e[..4] == "&lt;" && e[4..] == t;
        NotStartsWith(e, "&amp;");
      } else if c == '>' {
        assert e[..4] == "&gt;" && e[4..] == t;
        NotStartsWith(e, "&amp;");
        NotStartsWith(e, "&lt;");
      } else if c == '"' {
        assert e[..6] == "&quot;" && e[6..] == t;
        NotStartsWith(e, "&amp;");
        NotStartsWith(e, "&lt;");
        NotStartsWith(e, "&gt;");
      } else if c == '\'' {
        assert e[..5] == "&#39;" && e[5..] == t;
        NotStartsWith(e, "&amp;");
        NotStartsWith(e, "&lt;");
        NotStartsWith(e, "&gt;");
        NotStartsWith(e, "&quot;");
      } else {
        assert e[0] == c && e[1..] == t;
        NotStartsWith(e, "&amp;");
        NotStartsWith(e, "&lt;");
        NotStartsWith(e, "&gt;");
        NotStartsWith(e, "&quot;");
        NotStartsWith(e, "&#39;");
      }
      assert s == [c] + s[1..];
    }
  }

  lemma NotStartsWith(s: string, p: string)
    requires s != [] && p != [] && (s[0] != p[0] || (|s| >= 2 && |p| >= 2 && s[1] != p[1]))
    ensures !StartsWith(s, p)
  {
    if |p| <= |s| {
      assert s[..|p|][0] == s[0];
      if |p| >= 2 {
        assert s[..|p|][1] == s[1];
      }
    }
  }

  // ---------------------------------------------------------------------------
  // Dates

  predicate IsDigit(c: char) {
    '0' <= c <= '9'
  }

  function DigitValue(c: char): nat
    requires IsDigit(c)
  {
    c as int - '0' as int
  }

  /** `/^\d{4}-\d{2}-\d{2}$/`. */
  predicate IsIsoDateShape(s: string) {
    && |s| == 10
    && IsDigit(s[0]) && IsDigit(s[1]) && IsDigit(s[2]) && IsDigit(s[3])
    && s[4] == '-' && IsDigit(s[5]) && IsDigit(s[6])
    && s[7] == '-' && IsDigit(s[8]) && IsDigit(s[9])
  }

  function Year(s: string): nat
    requires IsIsoDateShape(s)
  {
    DigitValue(s[0]) * 1000 + DigitValue(s[1]) * 100 + DigitValue(s[2]) * 10 + DigitValue(s[3])
  }

  function Month(s: string): nat
    requires IsIsoDateShape(s)
  {
    DigitValue(s[5]) * 10 + DigitValue(s[6])
  }

  function Day(s: string): nat
    requires IsIsoDateShape(s)
  {
    DigitValue(s[8]) * 10 + DigitValue(s[9])
  }

  // ---------------------------------------------------------------------------
  // Calendar days

  /** Gregorian leap years. */
  predicate IsLeapYear(y: int) {
    y % 4 == 0 && (y % 100 != 0 || y % 400 == 0)
  }

  function YearLength(y: int): nat {
    if IsLeapYear(y) then 366 else 365
  }

  function DaysInMonth(y: int, m: int): nat
    requires 1 <= m <= 12
  {
    if m == 2 then (if IsLeapYear(y) then 29 else 28)
    else if m == 4 || m == 6 || m == 9 || m == 11 then 30
    else 31
  }

  /** The days of the months of a common year before each month. */
  const MonthStarts: seq<nat> := [0, 31, 59, 90, 120, 151, 181, 212, 243, 273, 304, 334]

  /** The days of year `y` before the first of month `m`. */
  function DaysBeforeMonth(y: int, m: int): nat
    requires 1 <= m <= 12
  {
    MonthStarts[m - 1] + (if IsLeapYear(y) && m > 2 then 1 else 0)
  }

  /** The days from 1 January of year 0 to 1 January of year `y`. */
  function DaysBeforeYear(y: nat): nat {
    if y == 0 then 0 else DaysBeforeYear(y - 1) + YearLength(y - 1)
  }

  /** The leap years before year `y`: every fourth, except centuries not divisible by 400. */
  function LeapYearsBefore(y: nat): int {
    (y + 3) / 4 - (y + 99) / 100 + (y + 399) / 400
  }

  /** 365 days a year plus one per leap year before `y`. */
  lemma {:induction false} DaysBeforeYearClosed(y: nat)
    ensures DaysBeforeYear(y) == 365 * y + LeapYearsBefore(y)
  {
    if y > 0 {
      DaysBeforeYearClosed(y - 1);
      LeapYearsStep(y - 1);
    }
  }

  /** The day count of a year, month and day, since 1 January of year 0; a day past the month's end runs on into the next month. */
  function DayNumber(y: nat, m: int, d: int): int
    requires 1 <= m <= 12
  {
    DaysBeforeYear(y) + DaysBeforeMonth(y, m) + d - 1
  }

  /** 1 January 1970, the origin of JavaScript's time values. */
  const EpochDay := 719528

  /**
   * `new Date(s)` for a `YYYY-MM-DD` string, as a day count: the time value
   * is `(n - EpochDay) * 86400000`, so the two order alike. Any day 01-31
   * is read in any month 01-12, a day past the month's end rolling over into
   * the next month, as V8 does; `None` stands for an invalid date (NaN).
   */
  function ParseDate(s: string): (r: Option<int>)
    ensures r.Some? <==> IsIsoDateShape(s) && 1 <= Month(s) <= 12 && 1 <= Day(s) <= 31
  {
    if IsIsoDateShape(s) && 1 <= Month(s) <= 12 && 1 <= Day(s) <= 31 then
      Some(DayNumber(Year(s), Month(s), Day(s)))
    else None
  }

  /** A `YYYY-MM-DD` string naming a day of the calendar: no day past its month's end. */
  predicate IsCalendarDate(s: string) {
    ParseDate(s).Some? && Day(s) <= DaysInMonth(Year(s), Month(s))
  }

  lemma ParseDateEpoch()
    ensures ParseDate("1970-01-01") == Some(EpochDay)
  {
    assert Year("1970-01-01") == 1970 && Month("1970-01-01") == 1 && Day("1970-01-01") == 1;
    DaysBeforeYearClosed(1970);
  }

  /** A day past the month's end is the same day as the day it runs on to in the next month. */
  lemma DayRollsOver(y: nat, m: int, d: int)
    requires 1 <= m < 12 && d > DaysInMonth(y, m)
    ensures DayNumber(y, m, d) == DayNumber(y, m + 1, d - DaysInMonth(y, m))
  {
  }

  /** 30 February 2025 is 2 March 2025, a day after 1 March 2025. */
  lemma ParseDateRollsOver()
    ensures ParseDate("2025-02-30") == ParseDate("2025-03-02")
    ensures Earlier(ParseDate("2025-03-01"), ParseDate("2025-02-30"))
  {
    RolledOverDays();
    DayRollsOver(2025, 2, 30);
    assert DayNumber(2025, 3, 1) < DayNumber(2025, 3, 2);
  }

  lemma RolledOverDays()
    ensures ParseDate("2025-02-30") == Some(DayNumber(2025, 2, 30))
    ensures ParseDate("2025-03-02") == Some(DayNumber(2025, 3, 2))
    ensures ParseDate("2025-03-01") == Some(DayNumber(2025, 3, 1))
  {
    assert Year("2025-02-30") == 2025 && Month("2025-02-30") == 2 && Day("2025-02-30") == 30;
    assert Year("2025-03-02") == 2025 && Month("2025-03-02") == 3 && Day("2025-03-02") == 2;
    assert Year("2025-03-01") == 2025 && Month("2025-03-01") == 3 && Day("2025-03-01") == 1;
  }

  lemma LeapYearsStep(y: nat)
    ensures LeapYearsBefore(y + 1) == LeapYearsBefore(y) + (if IsLeapYear(y) then 1 else 0)
  {
    DivStep4(y);
    DivStep100(y);
    DivStep400(y);
    DivisorChain(y);
  }

  lemma DivisorChain(y: nat)
    ensures y % 400 == 0 ==> y % 100 == 0
    ensures y % 100 == 0 ==> y % 4 == 0
  {
    if y % 400 == 0 {
      assert y == 100 * (4 * (y / 400));
    }
    if y % 100 == 0 {
      assert y == 4 * (25 * (y / 100));
    }
  }

  /** `(y + k) / k` exceeds `(y + k - 1) / k` exactly when `k` divides `y`, for the three leap-year divisors. */
  lemma DivStep4(y: nat)
    ensures (y + 4) / 4 - (y + 3) / 4 == if y % 4 == 0 then 1 else 0
  {
  }

  lemma DivStep100(y: nat)
    ensures (y + 100) / 100 - (y + 99) / 100 == if y % 100 == 0 then 1 else 0
  {
  }

  lemma DivStep400(y: nat)
    ensures (y + 400) / 400 - (y + 399) / 400 == if y % 400 == 0 then 1 else 0
  {
  }

  lemma {:induction false} DaysBeforeYearMono(y: nat, z: nat)
    requires y <= z
    ensures DaysBeforeYear(y) <= DaysBeforeYear(z)
  {
    if y < z {
      DaysBeforeYearMono(y, z - 1);
    }
  }

  /** A month ends no later than the next one starts, and the last one ends with the year. */
  lemma MonthEnds(y: int, m: int, n: int)
    requires 1 <= m < n <= 12
    ensures DaysBeforeMonth(y, m) + DaysInMonth(y, m) <= DaysBeforeMonth(y, n)
    ensures DaysBeforeMonth(y, 12) + DaysInMonth(y, 12) == YearLength(y)
  {
  }

  /** On calendar days, the day count orders like year, then month, then day. */
  lemma DayNumberLess(y1: nat, m1: int, d1: int, y2: nat, m2: int, d2: int)
    requires 1 <= m1 <= 12 && 1 <= d1 <= DaysInMonth(y1, m1)
    requires 1 <= m2 <= 12 && 1 <= d2 <= DaysInMonth(y2, m2)
    requires y1 < y2 || (y1 == y2 && m1 < m2) || (y1 == y2 && m1 == m2 && d1 < d2)
    ensures DayNumber(y1, m1, d1) < DayNumber(y2, m2, d2)
  {
    if y1 < y2 {
      if m1 < 12 {
        MonthEnds(y1, m1, 12);
      }
      MonthEnds(y1, 1, 12);
      DaysBeforeYearMono(y1 + 1, y2);
    } else if m1 < m2 {
      MonthEnds(y1, m1, m2);
    }
  }

  /** On calendar days the day count is a one-to-one, order-keeping image of YYYYMMDD. */
  lemma DayNumberOrder(y1: nat, m1: int, d1: int, y2: nat, m2: int, d2: int)
    requires 1 <= m1 <= 12 && 1 <= d1 <= DaysInMonth(y1, m1)
    requires 1 <= m2 <= 12 && 1 <= d2 <= DaysInMonth(y2, m2)
    ensures y1 * 10000 + m1 * 100 + d1 < y2 * 10000 + m2 * 100 + d2 <==> DayNumber(y1, m1, d1) < DayNumber(y2, m2, d2)
  {
    if y1 < y2 || (y1 == y2 && m1 < m2) || (y1 == y2 && m1 == m2 && d1 < d2) {
      DayNumberLess(y1, m1, d1, y2, m2, d2);
    } else if y2 < y1 || (y1 == y2 && m2 < m1) || (y1 == y2 && m1 == m2 && d2 < d1) {
      DayNumberLess(y2, m2, d2, y1, m1, d1);
    }
  }

  /** `a < b` on time values: false when either is NaN. */
  predicate Earlier(a: Option<int>, b: Option<int>) {
    a.Some? && b.Some? && a.value < b.value
  }

  /** A truthy optional string. */
  predicate Given(o: Option<string>) {
    o.Some? && o.value != ""
  }

  datatype Post = Post(id: int, title: string, url: string, published: string, content: string)

  /** `inRange(p, start, end)`. */
  predicate InRange(p: Post, start: Option<string>, end: Option<string>) {
    var d := ParseDate(p.published);
    && !(Given(start) && Earlier(d, ParseDate(start.value)))
    && !(Given(end) && Earlier(ParseDate(end.value), d))
  }

  /** A window whose end is an earlier date than its start holds no dated post. */
  lemma EmptyWindow(start: string, end: string)
    requires Earlier(ParseDate(end), ParseDate(start))
    ensures forall p: Post :: ParseDate(p.published).Some? ==> !InRange(p, Some(start), Some(end))
  {
  }

  // ---------------------------------------------------------------------------
  // Source selection

  datatype FetchArgs = FetchArgs(topic: string, startDate: Option<string>, endDate: Option<string>)

  const FillTo: nat := 5

  /** The posts the mock tool selects from. */
  const MockPosts: seq<Post> := [
      Post(1, "Scaling Your API with Kong", "https://example.com/kong-scaling", "2025-10-13",
        "Kong can sit in front of Express to handle rate limits, auth, and routing. This comprehensive guide shows you how to implement Kong as an API gateway for better scalability and security."),
      Post(2, "Next.js + Flask: A Practical Bridge", "https://example.com/next-flask", "2025-10-15",
        "Use Next.js App Router for UI, Flask for data/ML tools. Keep tools idempotent and maintain clean separation between frontend and backend concerns."),
      Post(3, "Photo Organizer UX Patterns", "https://example.com/photo-ux", "2025-10-16",
        "Three patterns that make photo management feel magical: batching, previews, undo. Learn how to create intuitive interfaces for media management."),
      Post(4, "AI-Powered Code Review Tools", "https://example.com/ai-code-review", "2025-10-17",
        "New AI tools are revolutionizing code review processes. From automated bug detection to style suggestions, these tools are becoming essential for development teams."),
      Post(5, "Microservices Architecture Best Practices", "https://example.com/microservices-best-practices", "2025-10-18",
        "Building scalable microservices requires careful planning. Learn about service boundaries, data consistency, and communication patterns that work in production."),
      Post(6, "React Server Components Deep Dive", "https://example.com/react-server-components", "2025-10-19",
        "React Server Components are changing how we think about React applications. Understand the benefits, limitations, and practical implementation strategies."),
      Post(7, "Git and GitHub Workshop at UCR", "https://example.com/git-github-workshop", "2025-10-15",
        "Learn the fundamentals of version control with Git and GitHub. This hands-on workshop covers branching, merging, pull requests, and collaborative development workflows."),
      Post(8, "OpenAI Sora 2 Launch Analysis", "https://example.com/sora-2-analysis", "2025-10-16",
        "OpenAI's latest Sora 2 model represents a significant advancement in AI video generation. Explore the technical improvements and potential applications in creative industries."),
      Post(9, "Understanding AI Agents in Modern Development", "https://example.com/ai-agents-guide", "2025-10-17",
        "AI agents are becoming increasingly sophisticated tools for automation and decision-making. Learn about different types of agents and their practical applications in software development."),
      Post(10, "BCOE Donation Dinner and Networking Event", "https://example.com/bcoe-donation-dinner", "2025-10-14",
        "Join us for the annual BCOE donation dinner to support student scholarships and programs. Network with alumni, faculty, and industry professionals while contributing to the future of engineering education.")
    ]

  /** `s.filter(f)`. */
  function Filter<T(!new)>(s: seq<T>, f: T -> bool): (r: seq<T>)
    ensures |r| <= |s|
    ensures forall x :: x in r <==> x in s && f(x)
  {
    if s == [] then [] else (if f(s[0]) then [s[0]] else []) + Filter(s[1..], f)
  }

  /** `a` is `b` with some elements left out, the rest in order. */
  predicate IsSubsequence<T(==)>(a: seq<T>, b: seq<T>) {
    if a == [] then true
    else if b == [] then false
    else if a[0] == b[0] then IsSubsequence(a[1..], b[1..])
    else IsSubsequence(a, b[1..])
  }

  lemma {:induction false} FilterIsSubsequence<T(!new)>(s: seq<T>, f: T -> bool)
    ensures IsSubsequence(Filter(s, f), s)
  {
    if s != [] {
      FilterIsSubsequence(s[1..], f);
      if f(s[0]) {
        assert Filter(s, f) == [s[0]] + Filter(s[1..], f);
        assert Filter(s, f)[1..] == Filter(s[1..], f);
      } else {
        assert Filter(s, f) == Filter(s[1..], f);
      }
    }
  }

  /** `(topic ?? "").trim().toLowerCase()`, split on white space, empty words dropped. */
  function Keywords(topic: string): (r: seq<string>)
    ensures forall i :: 0 <= i < |r| ==> IsWord(r[i])
  {
    var q := Lower(Trim(topic));
    if q == "" then [] else Words(q)
  }

  /** `matchesKeyword(p)`: no keywords, or some keyword in the lower-cased title or content. */
  predicate MatchesKeyword(p: Post, keywords: seq<string>) {
    || keywords == []
    || exists i :: 0 <= i < |keywords| && (Contains(Lower(p.title), keywords[i]) || Contains(Lower(p.content), keywords[i]))
  }

  /** Some post of `ms` has the id of `p`. */
  predicate IdIn(p: Post, ms: seq<Post>) {
    exists i :: 0 <= i < |ms| && ms[i].id == p.id
  }

  /** The time value a post is sorted by (an invalid date counts as 0 here). */
  function DateKey(p: Post): int {
    match ParseDate(p.published)
    case Some(n) => n
    case None => 0
  }

  /** Newest first: `x` goes before the first post that is not newer than it. */
  function InsertByDate(x: Post, s: seq<Post>): (r: seq<Post>)
    ensures |r| == |s| + 1
    ensures forall y :: y in r <==> y == x || y in s
    ensures multiset(r) == multiset(s) + multiset{x}
  {
    if s == [] then [x]
    else if DateKey(s[0]) <= DateKey(x) then [x] + s
    else
      assert s == [s[0]] + s[1..];
      [s[0]] + InsertByDate(x, s[1..])
  }

  /** `sort((a, b) => date(b) - date(a))`: a stable sort, newest first. */
  function SortByDateDesc(s: seq<Post>): (r: seq<Post>)
    ensures |r| == |s|
    ensures forall y :: y in r <==> y in s
    ensures multiset(r) == multiset(s)
  {
    if s == [] then []
    else
      assert s == [s[0]] + s[1..];
      InsertByDate(s[0], SortByDateDesc(s[1..]))
  }

  predicate NewestFirst(s: seq<Post>) {
    forall i, j :: 0 <= i < j < |s| ==> DateKey(s[i]) >= DateKey(s[j])
  }

  lemma {:induction false} InsertByDateSorted(x: Post, s: seq<Post>)
    requires NewestFirst(s)
    ensures NewestFirst(InsertByDate(x, s))
  {
    if s != [] && DateKey(s[0]) > DateKey(x) {
      InsertByDateSorted(x, s[1..]);
      var r := InsertByDate(x, s);
      var t := InsertByDate(x, s[1..]);
      assert r == [s[0]] + t;
      HeadBoundsInsert(x, s);
      ConsNewestFirst(s[0], t);
    }
  }

  /** A post no older than every post of a newest-first list can go in front of it. */
  lemma ConsNewestFirst(h: Post, t: seq<Post>)
    requires NewestFirst(t) && forall y :: y in t ==> DateKey(y) <= DateKey(h)
    ensures NewestFirst([h] + t)
  {
    var r := [h] + t;
    forall i, j | 0 <= i < j < |r| ensures DateKey(r[i]) >= DateKey(r[j]) {
      assert r[j] == t[j - 1] && r[j] in t;
      if i > 0 {
        assert r[i] == t[i - 1];
      }
    }
  }

  /** Inserting a post older than the head of a newest-first list into its tail keeps everything no newer than that head. */
  lemma HeadBoundsInsert(x: Post, s: seq<Post>)
    requires NewestFirst(s) && s != [] && DateKey(s[0]) > DateKey(x)
    ensures forall y :: y in InsertByDate(x, s[1..]) ==> DateKey(y) <= DateKey(s[0])
  {
    forall y | y in InsertByDate(x, s[1..]) ensures DateKey(y) <= DateKey(s[0]) {
      if y != x {
        var k :| 0 <= k < |s[1..]| && s[1..][k] == y;
        assert s[k + 1] == y;
      }
    }
  }

  lemma {:induction false} SortByDateDescSorted(s: seq<Post>)
    ensures NewestFirst(SortByDateDesc(s))
  {
    if s != [] {
      SortByDateDescSorted(s[1..]);
      InsertByDateSorted(s[0], SortByDateDesc(s[1..]));
    }
  }

  /** The posts of `s` whose time value is `k`, in their order in `s`. */
  function WithDate(s: seq<Post>, k: int): seq<Post> {
    if s == [] then [] else (if DateKey(s[0]) == k then [s[0]] else []) + WithDate(s[1..], k)
  }

  lemma {:induction false} InsertByDateStable(x: Post, s: seq<Post>, k: int)
    ensures WithDate(InsertByDate(x, s), k) == (if DateKey(x) == k then [x] else []) + WithDate(s, k)
  {
    if s == [] {
      assert InsertByDate(x, s) == [x] + s;
      WithDateCons(x, s, k);
    } else if DateKey(s[0]) <= DateKey(x) {
      assert InsertByDate(x, s) == [x] + s;
      WithDateCons(x, s, k);
    } else {
      InsertByDateStable(x, s[1..], k);
      InsertPastHead(x, s, k);
    }
  }

  lemma WithDateCons(x: Post, s: seq<Post>, k: int)
    ensures WithDate([x] + s, k) == (if DateKey(x) == k then [x] else []) + WithDate(s, k)
  {
    assert ([x] + s)[0] == x && ([x] + s)[1..] == s;
  }

  lemma InsertPastHead(x: Post, s: seq<Post>, k: int)
    requires s != [] && DateKey(s[0]) > DateKey(x)
    requires WithDate(InsertByDate(x, s[1..]), k) == (if DateKey(x) == k then [x] else []) + WithDate(s[1..], k)
    ensures WithDate(InsertByDate(x, s), k) == (if DateKey(x) == k then [x] else []) + WithDate(s, k)
  {
    var t := InsertByDate(x, s[1..]);
    assert InsertByDate(x, s) == [s[0]] + t;
    WithDateCons(s[0], t, k);
    if DateKey(x) == k {
      assert WithDate([s[0]] + t, k) == WithDate(t, k);
      assert WithDate(s, k) == WithDate(s[1..], k);
    } else {
      assert WithDate(t, k) == WithDate(s[1..], k);
    }
  }

  /** The sort is stable: the posts of any one date keep their relative order. */
  lemma {:induction false} SortByDateDescStable(s: seq<Post>, k: int)
    ensures WithDate(SortByDateDesc(s), k) == WithDate(s, k)
  {
    if s != [] {
      SortByDateDescStable(s[1..], k);
      InsertByDateStable(s[0], SortByDateDesc(s[1..]), k);
    }
  }

  /** The posts of the corpus within the date window. */
  function InRangePosts(corpus: seq<Post>, args: FetchArgs): seq<Post> {
    Filter(corpus, p => InRange(p, args.startDate, args.endDate))
  }

  /** The keyword matches among them, in corpus order. */
  function MatchedPosts(corpus: seq<Post>, args: FetchArgs): seq<Post> {
    var kw := Keywords(args.topic);
    Filter(InRangePosts(corpus, args), p => MatchesKeyword(p, kw))
  }

  /** The other in-range posts, newest first. */
  function RestPosts(corpus: seq<Post>, args: FetchArgs): seq<Post> {
    var matched := MatchedPosts(corpus, args);
    SortByDateDesc(Filter(InRangePosts(corpus, args), p => !IdIn(p, matched)))
  }

  /** `[...matched, ...rest].slice(0, 5)` over a given corpus. */
  function FetchFrom(corpus: seq<Post>, args: FetchArgs): seq<Post> {
    var all := MatchedPosts(corpus, args) + RestPosts(corpus, args);
    if |all| <= FillTo then all else all[..FillTo]
  }

  /** `toolFetchSources(args)`: the items the mock returns. */
  function FetchSources(args: FetchArgs): seq<Post> {
    FetchFrom(MockPosts, args)
  }

  /** At most five items, each a corpus post within the date window. */
  lemma FetchBounded(corpus: seq<Post>, args: FetchArgs)
    ensures var r := FetchFrom(corpus, args);
      |r| <= FillTo && forall p :: p in r ==> p in corpus && InRange(p, args.startDate, args.endDate)
  {
    var r := FetchFrom(corpus, args);
    var all := MatchedPosts(corpus, args) + RestPosts(corpus, args);
    forall p | p in r ensures p in corpus && InRange(p, args.startDate, args.endDate) {
      assert p in all;
    }
  }

  /** No post left over for the fill matches a keyword. */
  lemma RestDoesNotMatch(corpus: seq<Post>, args: FetchArgs)
    ensures forall p :: p in RestPosts(corpus, args) ==> !MatchesKeyword(p, Keywords(args.topic))
  {
    var kw := Keywords(args.topic);
    var matched := MatchedPosts(corpus, args);
    var others := Filter(InRangePosts(corpus, args), p => !IdIn(p, matched));
    forall p | p in InRangePosts(corpus, args) && MatchesKeyword(p, kw) ensures IdIn(p, matched) {
      var k :| 0 <= k < |matched| && matched[k] == p;
    }
    assert forall p :: p in RestPosts(corpus, args) ==> p in others;
  }

  /** The shape of the selection: matches, then non-matches newest first, and any prefix of that. */
  lemma PrefixOfMatchesThenRest(matched: seq<Post>, rest: seq<Post>, r: seq<Post>, kw: seq<string>)
    requires forall p :: p in matched ==> MatchesKeyword(p, kw)
    requires forall p :: p in rest ==> !MatchesKeyword(p, kw)
    requires NewestFirst(rest)
    requires |r| <= |matched + rest| && r == (matched + rest)[..|r|]
    ensures forall i, j :: 0 <= i < j < |r| && !MatchesKeyword(r[i], kw) ==>
      !MatchesKeyword(r[j], kw) && DateKey(r[i]) >= DateKey(r[j])
  {
    var all := matched + rest;
    forall i, j | 0 <= i < j < |r| && !MatchesKeyword(r[i], kw)
      ensures !MatchesKeyword(r[j], kw) && DateKey(r[i]) >= DateKey(r[j])
    {
      assert r[i] == all[i] && r[j] == all[j];
      forall k | 0 <= k < |matched| ensures MatchesKeyword(all[k], kw) {
        assert all[k] == matched[k] && matched[k] in matched;
      }
      assert all[i] == rest[i - |matched|] && all[j] == rest[j - |matched|];
      assert all[j] in rest;
    }
  }

  /**
   * Keyword matches come first: once an item does not match, no later item
   * does, and the non-matching items are newest first.
   */
  lemma FetchMatchesFirst(corpus: seq<Post>, args: FetchArgs)
    ensures var r := FetchFrom(corpus, args); var kw := Keywords(args.topic);
      forall i, j :: 0 <= i < j < |r| && !MatchesKeyword(r[i], kw) ==>
        !MatchesKeyword(r[j], kw) && DateKey(r[i]) >= DateKey(r[j])
  {
    RestSorted(corpus, args);
    RestDoesNotMatch(corpus, args);
    MatchedMatch(corpus, args);
    FetchIsPrefix(corpus, args);
    PrefixOfMatchesThenRest(MatchedPosts(corpus, args), RestPosts(corpus, args), FetchFrom(corpus, args), Keywords(args.topic));
  }

  lemma RestSorted(corpus: seq<Post>, args: FetchArgs)
    ensures NewestFirst(RestPosts(corpus, args))
  {
    var matched := MatchedPosts(corpus, args);
    SortByDateDescSorted(Filter(InRangePosts(corpus, args), p => !IdIn(p, matched)));
  }

  lemma MatchedMatch(corpus: seq<Post>, args: FetchArgs)
    ensures forall p :: p in MatchedPosts(corpus, args) ==> MatchesKeyword(p, Keywords(args.topic))
  {
  }

  lemma FetchIsPrefix(corpus: seq<Post>, args: FetchArgs)
    ensures var r, all := FetchFrom(corpus, args), MatchedPosts(corpus, args) + RestPosts(corpus, args);
      |r| <= |all| && r == all[..|r|]
  {
  }

  /** No two posts share an id. */
  predicate DistinctIds(s: seq<Post>) {
    forall i, j :: 0 <= i < j < |s| ==> s[i].id != s[j].id
  }

  lemma {:induction false} FilterDistinctIds(s: seq<Post>, f: Post -> bool)
    requires DistinctIds(s)
    ensures DistinctIds(Filter(s, f))
  {
    if s != [] {
      TailDistinctIds(s);
      FilterDistinctIds(s[1..], f);
      var t := Filter(s[1..], f);
      if f(s[0]) {
        forall y | y in t ensures y.id != s[0].id {
          var k :| 0 <= k < |s[1..]| && s[1..][k] == y;
          assert s[k + 1] == y;
        }
        ConsDistinctIds(s[0], t);
      }
    }
  }

  lemma {:induction false} InsertByDateDistinctIds(x: Post, s: seq<Post>)
    requires DistinctIds(s) && forall y :: y in s ==> y.id != x.id
    ensures DistinctIds(InsertByDate(x, s))
  {
    if s == [] {
    } else if DateKey(s[0]) <= DateKey(x) {
      ConsDistinctIds(x, s);
    } else {
      TailDistinctIds(s);
      InsertByDateDistinctIds(x, s[1..]);
      var t := InsertByDate(x, s[1..]);
      forall y | y in t ensures y.id != s[0].id {
        if y != x {
          var k :| 0 <= k < |s[1..]| && s[1..][k] == y;
          assert s[k + 1] == y;
        }
      }
      ConsDistinctIds(s[0], t);
    }
  }

  /** A post whose id no post of a list has can go in front of it. */
  lemma ConsDistinctIds(h: Post, t: seq<Post>)
    requires DistinctIds(t) && forall y :: y in t ==> y.id != h.id
    ensures DistinctIds([h] + t)
  {
    var r := [h] + t;
    forall i, j | 0 <= i < j < |r| ensures r[i].id != r[j].id {
      assert r[j] == t[j - 1] && r[j] in t;
      if i > 0 {
        assert r[i] == t[i - 1];
      }
    }
  }

  lemma TailDistinctIds(s: seq<Post>)
    requires DistinctIds(s) && s != []
    ensures DistinctIds(s[1..])
  {
    forall i, j | 0 <= i < j < |s[1..]| ensures s[1..][i].id != s[1..][j].id {
      assert s[1..][i] == s[i + 1] && s[1..][j] == s[j + 1];
    }
  }

  lemma {:induction false} SortByDateDescDistinctIds(s: seq<Post>)
    requires DistinctIds(s)
    ensures DistinctIds(SortByDateDesc(s))
  {
    if s != [] {
      TailDistinctIds(s);
      SortByDateDescDistinctIds(s[1..]);
      forall y | y in SortByDateDesc(s[1..]) ensures y.id != s[0].id {
        var k :| 0 <= k < |s[1..]| && s[1..][k] == y;
        assert s[k + 1] == y;
      }
      InsertByDateDistinctIds(s[0], SortByDateDesc(s[1..]));
    }
  }

  /** Over a corpus with distinct ids, the selected items have distinct ids. */
  lemma FetchDistinctIds(corpus: seq<Post>, args: FetchArgs)
    requires DistinctIds(corpus)
    ensures DistinctIds(FetchFrom(corpus, args))
  {
    var kw := Keywords(args.topic);
    var inRange := InRangePosts(corpus, args);
    var matched := MatchedPosts(corpus, args);
    var others := Filter(inRange, p => !IdIn(p, matched));
    var rest := RestPosts(corpus, args);
    FilterDistinctIds(corpus, p => InRange(p, args.startDate, args.endDate));
    FilterDistinctIds(inRange, p => MatchesKeyword(p, kw));
    FilterDistinctIds(inRange, p => !IdIn(p, matched));
    SortByDateDescDistinctIds(others);
    forall p | p in rest ensures !IdIn(p, matched) {
      assert p in others;
    }
    AppendDistinctIds(matched, rest);
    FetchIsPrefix(corpus, args);
    PrefixDistinctIds(matched + rest, |FetchFrom(corpus, args)|);
  }

  lemma AppendDistinctIds(a: seq<Post>, b: seq<Post>)
    requires DistinctIds(a) && DistinctIds(b) && forall p :: p in b ==> !IdIn(p, a)
    ensures DistinctIds(a + b)
  {
    var all := a + b;
    forall i, j | 0 <= i < j < |all| ensures all[i].id != all[j].id {
      if j < |a| {
        assert all[i] == a[i] && all[j] == a[j];
      } else if i >= |a| {
        assert all[i] == b[i - |a|] && all[j] == b[j - |a|];
      } else {
        assert all[i] == a[i];
        assert all[j] == b[j - |a|] && all[j] in b;
        assert !IdIn(all[j], a);
      }
    }
  }

  lemma PrefixDistinctIds(s: seq<Post>, n: nat)
    requires DistinctIds(s) && n <= |s|
    ensures DistinctIds(s[..n])
  {
    assert forall k :: 0 <= k < n ==> s[..n][k] == s[k];
  }

  /** A blank topic has no keywords. */
  lemma BlankTopicKeywords(topic: string)
    requires forall i :: 0 <= i < |topic| ==> IsWhitespace(topic[i])
    ensures Keywords(topic) == []
  {
    assert Trim(topic) == [];
  }

  /** When nothing is left over, the fill adds nothing. */
  lemma RestEmptyWhenAllMatch(corpus: seq<Post>, args: FetchArgs)
    requires MatchedPosts(corpus, args) == InRangePosts(corpus, args)
    ensures RestPosts(corpus, args) == []
  {
    var inRange := InRangePosts(corpus, args);
    var others := Filter(inRange, p => !IdIn(p, inRange));
    forall p | p in inRange ensures IdIn(p, inRange) {
      var k :| 0 <= k < |inRange| && inRange[k] == p;
    }
    FilterNone(inRange, p => !IdIn(p, inRange));
  }

  /** A blank topic makes every in-range post a match: the result is the first five in corpus order. */
  lemma FetchBlankTopic(corpus: seq<Post>, args: FetchArgs)
    requires forall i :: 0 <= i < |args.topic| ==> IsWhitespace(args.topic[i])
    ensures var all := InRangePosts(corpus, args);
      FetchFrom(corpus, args) == if |all| <= FillTo then all else all[..FillTo]
  {
    BlankTopicKeywords(args.topic);
    var inRange := InRangePosts(corpus, args);
    FilterAll(inRange, p => MatchesKeyword(p, []));
    RestEmptyWhenAllMatch(corpus, args);
    assert MatchedPosts(corpus, args) + RestPosts(corpus, args) == inRange;
  }

  lemma {:induction false} FilterNone<T(!new)>(s: seq<T>, f: T -> bool)
    requires forall x :: x in s ==> !f(x)
    ensures Filter(s, f) == []
  {
    if s != [] {
      FilterNone(s[1..], f);
    }
  }

  lemma {:induction false} FilterAll<T(!new)>(s: seq<T>, f: T -> bool)
    requires forall x :: x in s ==> f(x)
    ensures Filter(s, f) == s
  {
    if s != [] {
      FilterAll(s[1..], f);
      assert s == [s[0]] + s[1..];
    }
  }

  lemma MockPostsDistinctIds()
    ensures DistinctIds(MockPosts)
  {
    forall i, j | 0 <= i < j < |MockPosts| ensures MockPosts[i].id != MockPosts[j].id {
      assert MockPosts[i].id == i + 1 && MockPosts[j].id == j + 1;
    }
  }

  // ---------------------------------------------------------------------------
  // Summaries

  const DefaultMaxChars := 400

  datatype SummaryItem = SummaryItem(id: int, title: string, url: string, summary: string, published: string)

  /** `s.map(x => x.trim())`. */
  function TrimAll(s: seq<string>): (r: seq<string>)
    ensures |r| == |s| && forall i :: 0 <= i < |s| ==> r[i] == Trim(s[i])
  {
    seq(|s|, i requires 0 <= i < |s| => Trim(s[i]))
  }

  /** `content.split(".").map(trim).filter(Boolean)`. */
  function Sentences(content: string): (r: seq<string>)
    ensures forall i :: 0 <= i < |r| ==> r[i] != "" && '.' !in r[i]
  {
    var r := Filter(TrimAll(Split(content, '.')), NonBlank);
    SentencesClean(Split(content, '.'), r);
    r
  }

  /** `Boolean` on a string. */
  predicate NonBlank(x: string) {
    x != ""
  }

  /** Trimmed period-free pieces, with the empty ones dropped, are non-empty and period-free. */
  lemma SentencesClean(pieces: seq<string>, r: seq<string>)
    requires forall i :: 0 <= i < |pieces| ==> '.' !in pieces[i]
    requires r == Filter(TrimAll(pieces), NonBlank)
    ensures forall i :: 0 <= i < |r| ==> r[i] != "" && '.' !in r[i]
  {
    TrimAllKeepsAbsent(pieces, '.');
    forall i | 0 <= i < |r| ensures r[i] != "" && '.' !in r[i] {
      assert r[i] in r;
    }
  }

  lemma TrimAllKeepsAbsent(s: seq<string>, c: char)
    requires forall i :: 0 <= i < |s| ==> c !in s[i]
    ensures forall x :: x in TrimAll(s) ==> c !in x
  {
    forall x | x in TrimAll(s) ensures c !in x {
      var k :| 0 <= k < |s| && TrimAll(s)[k] == x;
      TrimKeepsAbsent(s[k], c);
    }
  }

  lemma TrimKeepsAbsent(s: string, c: char)
    requires c !in s
    ensures c !in Trim(s)
  {
    var t := TrimStart(s);
    var u := TrimEnd(t);
    var d := |s| - |t|;
    forall k | 0 <= k < |u| ensures u[k] != c {
      assert u[k] == t[k] == s[d + k];
      assert s[d + k] in s;
    }
  }

  /** `${title}: ${first two sentences joined by ". "}.` */
  function BaseText(p: Post): (r: string)
    ensures EndsWith(r, ".")
  {
    var ss := Sentences(p.content);
    p.title + ": " + Join(if |ss| <= 2 then ss else ss[..2], ". ") + "."
  }

  /** `base.length > max ? base.slice(0, max - 1).trimEnd() + "…" : base`. */
  function Shorten(base: string, max: int): (r: string)
    ensures |base| <= max ==> r == base
    ensures |base| > max ==> EndsWith(r, "…")
    ensures max >= 1 ==> |r| <= max
  {
    if |base| > max then
      var r := TrimEnd(SliceTo(base, max - 1)) + "…";
      assert r[|r| - 1..] == "…";
      r
    else base
  }

  /** A summary ends in an ellipsis exactly when the base text was too long. */
  lemma SummaryEllipsisIff(p: Post, max: int)
    ensures EndsWith(Shorten(BaseText(p), max), "…") <==> |BaseText(p)| > max
  {
    var b := BaseText(p);
    assert b[|b| - 1..] == [b[|b| - 1]] && b[|b| - 1] == '.';
  }

  /** `toolSummarize({ items, max_chars })`. */
  function Summarize(items: seq<Post>, maxChars: Option<int>): (r: seq<SummaryItem>)
    ensures |r| == |items|
    ensures forall i :: 0 <= i < |r| ==>
      && r[i].id == items[i].id && r[i].title == items[i].title
      && r[i].url == items[i].url && r[i].published == items[i].published
    ensures forall i :: 0 <= i < |r| ==>
      var max := if maxChars.Some? then maxChars.value else DefaultMaxChars;
      (max >= 1 ==> |r[i].summary| <= max)
      && (EndsWith(r[i].summary, "…") <==> |BaseText(items[i])| > max)
  {
    var max := if maxChars.Some? then maxChars.value else DefaultMaxChars;
    var r := seq(|items|, i requires 0 <= i < |items| =>
      SummaryItem(items[i].id, items[i].title, items[i].url, Shorten(BaseText(items[i]), max), items[i].published));
    assert forall i :: 0 <= i < |r| ==> (EndsWith(r[i].summary, "…") <==> |BaseText(items[i])| > max) by {
      forall i | 0 <= i < |r| ensures EndsWith(r[i].summary, "…") <==> |BaseText(items[i])| > max {
        SummaryEllipsisIff(items[i], max);
      }
    }
    r
  }
}
