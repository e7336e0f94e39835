/** Function search behind the cache: which requests share a cache key, and when a cached
    answer is the answer SAP would give now. */
module FunctionCatalogs {
  import opened Common
  import opened TTLCaches

  datatype Request = Request(pattern: string, group: Option<string>, limit: int)

  /** str.upper maps character by character, possibly to more than one. */
  type Casing = char -> string

  function Upper(u: Casing, s: string): string {
    if s == [] then [] else u(s[0]) + Upper(u, s[1..])
  }

  /** Upper-case characters stay as they are; a bar stays a bar and nothing else becomes one. */
  ghost predicate Sane(u: Casing) {
    && u('|') == "|"
    && (forall c: char | '|' in u(c) :: c == '|')
    && (forall c: char, d: char | d in u(c) :: u(d) == [d])
  }

  lemma {:induction false} UpperConcat(u: Casing, a: string, b: string)
    ensures Upper(u, a + b) == Upper(u, a) + Upper(u, b)
  {
    if a == [] {
      assert a + b == b;
    } else {
      UpperConcat(u, a[1..], b);
      assert (a + b)[0] == a[0] && (a + b)[1..] == a[1..] + b;
      Associates(u(a[0]), Upper(u, a[1..]), Upper(u, b));
    }
  }

  lemma Associates(a: string, b: string, c: string)
    ensures a + (b + c) == (a + b) + c
  {}

  lemma {:induction false} UpperBars(u: Casing, s: string)
    requires Sane(u)
    ensures '|' in Upper(u, s) <==> '|' in s
  {
    if s != [] { UpperBars(u, s[1..]); }
  }

  ghost predicate IsUpper(u: Casing, s: string) { forall c | c in s :: u(c) == [c] }

  lemma {:induction false} UpperIsUpper(u: Casing, s: string)
    requires Sane(u)
    ensures IsUpper(u, Upper(u, s))
  {
    if s != [] { UpperIsUpper(u, s[1..]); }
  }

  lemma {:induction false} UpperOfUpper(u: Casing, s: string)
    requires IsUpper(u, s)
    ensures Upper(u, s) == s
  {
    if s != [] { UpperOfUpper(u, s[1..]); }
  }

  // ---- decimal notation ----

  function Digit(n: nat): char
    requires n < 10
  {
    "0123456789"[n]
  }

  function Digits(n: nat): (s: string)
    ensures s != []
  {
    if n < 10 then [Digit(n)] else Digits(n / 10) + [Digit(n % 10)]
  }

  function Decimal(n: int): string { if n < 0 then "-" + Digits(-n) else Digits(n) }

  predicate IsDigit(c: char) { '0' <= c <= '9' }

  lemma {:induction false} DigitsAreDigits(n: nat)
    ensures forall c | c in Digits(n) :: IsDigit(c)
  {
    if n >= 10 { DigitsAreDigits(n / 10); }
  }

  lemma {:induction false} DigitsDetermine(m: nat, n: nat)
    requires Digits(m) == Digits(n)
    ensures m == n
  {
    assert Digits(m)[|Digits(m)| - 1] == Digit(m % 10) && Digits(n)[|Digits(n)| - 1] == Digit(n % 10);
    assert (m >= 10 <==> |Digits(m)| > 1) && (n >= 10 <==> |Digits(n)| > 1);
    if m >= 10 {
      assert Digits(m)[..|Digits(m)| - 1] == Digits(m / 10) && Digits(n)[..|Digits(n)| - 1] == Digits(n / 10);
      DigitsDetermine(m / 10, n / 10);
    }
  }

  lemma DecimalHasNoBar(n: int)
    ensures '|' !in Decimal(n)
  {
    DigitsAreDigits(if n < 0 then -n else n);
  }

  lemma DecimalDetermines(m: int, n: int)
    requires Decimal(m) == Decimal(n)
    ensures m == n
  {
    DigitsAreDigits(if m < 0 then -m else m);
    DigitsAreDigits(if n < 0 then -n else n);
    assert Digits(if m < 0 then -m else m)[0] in Digits(if m < 0 then -m else m);
    assert Digits(if n < 0 then -n else n)[0] in Digits(if n < 0 then -n else n);
    assert (m < 0) == (Decimal(m)[0] == '-') && (n < 0) == (Decimal(n)[0] == '-');
    if m < 0 {
      assert Decimal(m)[1..] == Digits(-m) && Decimal(n)[1..] == Digits(-n);
      DigitsDetermine(-m, -n);
    } else {
      DigitsDetermine(m, n);
    }
  }

  // ---- cache keys ----

  function GroupName(r: Request): string { if r.group.Some? then r.group.value else "" }

  /** The cache key of `search`. */
  function KeyOf(u: Casing, r: Request): string {
    Upper(u, r.pattern) + "|" + Upper(u, GroupName(r)) + "|" + Decimal(r.limit)
  }

  /** The same request up to the case of its letters. */
  predicate SameUpToCase(u: Casing, r: Request, s: Request) {
    Upper(u, r.pattern) == Upper(u, s.pattern) && Upper(u, GroupName(r)) == Upper(u, GroupName(s)) && r.limit == s.limit
  }

  /** In `a | x`, the bar is at `|a|`; no other one is before it if `a` has none, nor after it
      if `x` has none. */
  lemma TheBar(a: string, x: string)
    ensures var s := a + "|" + x;
            && s[|a|] == '|' && s[..|a|] == a && s[|a| + 1..] == x
            && ('|' !in a ==> forall i | 0 <= i < |a| :: s[i] != '|')
            && ('|' !in x ==> forall i | |a| < i < |s| :: s[i] != '|')
  {
    var s := a + "|" + x;
    forall i | |a| < i < |s|
      ensures s[i] == x[i - |a| - 1]
    {}
  }

  lemma SplitAtFirstBar(a: string, b: string, x: string, y: string)
    requires '|' !in a && '|' !in b && a + "|" + x == b + "|" + y
    ensures a == b && x == y
  {
    TheBar(a, x);
    TheBar(b, y);
    assert |a| == |b|;
  }

  lemma SplitAtLastBar(a: string, b: string, x: string, y: string)
    requires '|' !in x && '|' !in y && a + "|" + x == b + "|" + y
    ensures a == b && x == y
  {
    TheBar(a, x);
    TheBar(b, y);
    assert |a| == |b|;
  }

  /** A key falls apart at its first and its last bar. */
  lemma SplitKey(p: string, g: string, n: string, p': string, g': string, n': string)
    requires '|' !in p && '|' !in p' && '|' !in n && '|' !in n'
    requires p + "|" + g + "|" + n == p' + "|" + g' + "|" + n'
    ensures p == p' && g == g' && n == n'
  {
    assert p + "|" + (g + "|" + n) == p + "|" + g + "|" + n;
    assert p' + "|" + (g' + "|" + n') == p' + "|" + g' + "|" + n';
    SplitAtFirstBar(p, p', g + "|" + n, g' + "|" + n');
    SplitAtLastBar(g, g', n, n');
  }

  /** Requests whose patterns have no bar share a key only if they are equal up to case. */
  lemma KeysCoincideOnlyUpToCase(u: Casing, r: Request, s: Request)
    requires Sane(u) && '|' !in r.pattern && '|' !in s.pattern
    ensures KeyOf(u, r) == KeyOf(u, s) <==> SameUpToCase(u, r, s)
  {
    if KeyOf(u, r) == KeyOf(u, s) {
      UpperBars(u, r.pattern);
      UpperBars(u, s.pattern);
      DecimalHasNoBar(r.limit);
      DecimalHasNoBar(s.limit);
      hide Upper, Decimal, Sane;
      SplitKey(Upper(u, r.pattern), Upper(u, GroupName(r)), Decimal(r.limit),
               Upper(u, s.pattern), Upper(u, GroupName(s)), Decimal(s.limit));
      DecimalDetermines(r.limit, s.limit);
    }
  }

  /** No request that differs by more than case has the key of `r`. */
  ghost predicate Unambiguous(u: Casing, r: Request) {
    forall s: Request :: KeyOf(u, s) == KeyOf(u, r) ==> SameUpToCase(u, r, s)
  }

  function Bars(s: string): nat { if s == [] then 0 else (if s[0] == '|' then 1 else 0) + Bars(s[1..]) }

  lemma {:induction false} BarsAddUp(a: string, b: string)
    ensures Bars(a + b) == Bars(a) + Bars(b)
  {
    if a == [] {
      assert a + b == b;
    } else {
      BarsAddUp(a[1..], b);
      assert (a + b)[1..] == a[1..] + b;
    }
  }

  lemma {:induction false} NoBars(s: string)
    ensures Bars(s) == 0 <==> '|' !in s
  {
    if s != [] { NoBars(s[1..]); }
  }

  lemma KeyBars(u: Casing, r: Request)
    ensures Bars(KeyOf(u, r)) == Bars(Upper(u, r.pattern)) + Bars(Upper(u, GroupName(r))) + 2
  {
    DecimalHasNoBar(r.limit);
    NoBars(Decimal(r.limit));
    BarsAddUp(Upper(u, r.pattern), "|");
    BarsAddUp(Upper(u, r.pattern) + "|", Upper(u, GroupName(r)));
    BarsAddUp(Upper(u, r.pattern) + "|" + Upper(u, GroupName(r)), "|");
    BarsAddUp(Upper(u, r.pattern) + "|" + Upper(u, GroupName(r)) + "|", Decimal(r.limit));
    assert Bars("|") == 1;
  }

  lemma PlainIsUnambiguous(u: Casing, r: Request, s: Request)
    requires Sane(u) && '|' !in r.pattern && '|' !in GroupName(r) && KeyOf(u, s) == KeyOf(u, r)
    ensures SameUpToCase(u, r, s)
  {
    KeyBars(u, r);
    KeyBars(u, s);
    UpperBars(u, r.pattern);
    UpperBars(u, GroupName(r));
    UpperBars(u, s.pattern);
    NoBars(Upper(u, r.pattern));
    NoBars(Upper(u, GroupName(r)));
    NoBars(Upper(u, s.pattern));
    KeysCoincideOnlyUpToCase(u, r, s);
  }

  /** Two parts of an upper-case key, read as a pattern and a group. */
  lemma Reread(u: Casing, r: Request, a: string, b: string) returns (s: Request)
    requires IsUpper(u, a) && IsUpper(u, b)
    requires a + "|" + b == Upper(u, r.pattern) + "|" + Upper(u, GroupName(r)) && a != Upper(u, r.pattern)
    ensures KeyOf(u, s) == KeyOf(u, r) && !SameUpToCase(u, r, s)
  {
    s := Request(a, Some(b), r.limit);
    UpperOfUpper(u, a);
    UpperOfUpper(u, b);
  }

  /** An upper-case string with a bar, taken apart there. */
  lemma TakeApart(u: Casing, s: string) returns (a: string, b: string)
    requires IsUpper(u, s) && '|' in s
    ensures IsUpper(u, a) && IsUpper(u, b) && s == a + "|" + b
  {
    var i :| 0 <= i < |s| && s[i] == '|';
    a, b := s[..i], s[i + 1..];
  }

  lemma JoinedIsUpper(u: Casing, a: string, b: string)
    requires Sane(u) && IsUpper(u, a) && IsUpper(u, b)
    ensures IsUpper(u, a + "|" + b)
  {}

  lemma Regroup(a: string, b: string, c: string)
    ensures (a + "|" + b) + "|" + c == a + "|" + (b + "|" + c)
    ensures a != a + "|" + b
  {
    assert |a + "|" + b| > |a|;
  }

  /** A bar in the pattern could as well be the one before the group. */
  lemma BarInPattern(u: Casing, r: Request) returns (s: Request)
    requires Sane(u) && '|' in r.pattern
    ensures KeyOf(u, s) == KeyOf(u, r) && !SameUpToCase(u, r, s)
  {
    UpperBars(u, r.pattern);
    UpperIsUpper(u, r.pattern);
    UpperIsUpper(u, GroupName(r));
    hide Upper, IsUpper, KeyOf, SameUpToCase, Sane;
    var p, g := Upper(u, r.pattern), Upper(u, GroupName(r));
    var a, b := TakeApart(u, p);
    JoinedIsUpper(u, b, g);
    Regroup(a, b, g);
    s := Reread(u, r, a, b + "|" + g);
  }

  /** A bar in the group could as well be the one after the pattern. */
  lemma BarInGroup(u: Casing, r: Request) returns (s: Request)
    requires Sane(u) && '|' in GroupName(r)
    ensures KeyOf(u, s) == KeyOf(u, r) && !SameUpToCase(u, r, s)
  {
    UpperBars(u, GroupName(r));
    UpperIsUpper(u, r.pattern);
    UpperIsUpper(u, GroupName(r));
    hide Upper, IsUpper, KeyOf, SameUpToCase, Sane;
    var p, g := Upper(u, r.pattern), Upper(u, GroupName(r));
    var a, b := TakeApart(u, g);
    JoinedIsUpper(u, p, a);
    Regroup(p, a, b);
    s := Reread(u, r, p + "|" + a, b);
  }

  /** The key identifies the request up to case if and only if neither the pattern nor the
      group contains a bar. */
  lemma KeyIsUnambiguousIff(u: Casing, r: Request)
    requires Sane(u)
    ensures Unambiguous(u, r) <==> '|' !in r.pattern && '|' !in GroupName(r)
  {
    if '|' in r.pattern {
      var s := BarInPattern(u, r);
    } else if '|' in GroupName(r) {
      var s := BarInGroup(u, r);
    } else {
      forall s: Request | KeyOf(u, s) == KeyOf(u, r)
        ensures SameUpToCase(u, r, s)
      {
        PlainIsUnambiguous(u, r, s);
      }
    }
  }

  /** Two different searches that share a cache key. */
  lemma BarsCollide(u: Casing)
    requires Sane(u)
    ensures var r, s := Request("A|B", Some("C"), 50), Request("A", Some("B|C"), 50);
            KeyOf(u, r) == KeyOf(u, s) && !SameUpToCase(u, r, s)
  {
    var bar := "|";
    UpperConcat(u, "A", "|B");
    UpperConcat(u, "|", "B");
    UpperConcat(u, "B", "|C");
    UpperConcat(u, "|", "C");
    assert "A" + "|B" == "A|B" && "|" + "B" == "|B" && "B" + "|C" == "B|C" && "|" + "C" == "|C";
    assert Upper(u, bar) == "|" + Upper(u, []);
    var a, b, c := Upper(u, "A"), Upper(u, "B"), Upper(u, "C");
    assert Upper(u, "A|B") == a + ("|" + b) && Upper(u, "B|C") == b + ("|" + c);
    assert (a + ("|" + b)) + "|" + c + "|" == a + "|" + (b + ("|" + c)) + "|";
    assert |a + ("|" + b)| > |a|;
  }

  // ---- one search ----

  datatype Row = Row(name: string, group: string, text: string, remote: string)

  datatype Summary = Summary(name: string, group: string, text: string, remoteEnabled: bool)

  /** `rows[:limit]`: a negative limit drops rows at the end. */
  function Limited(rows: seq<Row>, limit: int): seq<Row> {
    if limit >= 0 then rows[..if limit <= |rows| then limit else |rows|]
    else rows[..if |rows| + limit >= 0 then |rows| + limit else 0]
  }

  function SummaryOf(strip: string -> string, row: Row): Summary {
    Summary(strip(row.name), strip(row.group), strip(row.text), strip(row.remote) != "")
  }

  function Summaries(strip: string -> string, rows: seq<Row>): seq<Summary> {
    if rows == [] then []
    else
      var row := rows[|rows| - 1];
      Summaries(strip, rows[..|rows| - 1]) + if strip(row.name) == "" then [] else [SummaryOf(strip, row)]
  }

  function IsNamed(strip: string -> string): Row -> bool { (row: Row) => strip(row.name) != "" }

  function Summarised(strip: string -> string): Row -> Summary { (row: Row) => SummaryOf(strip, row) }

  /** A search keeps exactly the named rows, in order. */
  lemma {:induction false} SummariesPickNamedRows(strip: string -> string, rows: seq<Row>) returns (at: seq<nat>)
    ensures Picks(rows, Summaries(strip, rows), at, IsNamed(strip), Summarised(strip))
  {
    if rows == [] {
      at := [];
    } else {
      var before, row := rows[..|rows| - 1], rows[|rows| - 1];
      at := SummariesPickNamedRows(strip, before);
      PicksSnoc(before, row, Summaries(strip, before), at, IsNamed(strip), Summarised(strip));
      assert before + [row] == rows;
      if strip(row.name) != "" { at := at + [|before|]; }
    }
  }

  /** A limit that is not negative bounds the rows and is otherwise ignored; a negative one
      drops that many rows at the end, or all there are. */
  lemma LimitedRows(rows: seq<Row>, limit: int)
    ensures Limited(rows, limit) <= rows
    ensures limit >= 0 ==> |Limited(rows, limit)| <= limit && (|rows| <= limit ==> Limited(rows, limit) == rows)
    ensures limit >= 0 && |rows| > limit ==> |Limited(rows, limit)| == limit
    ensures limit < 0 ==> |rows| - |Limited(rows, limit)| == if -limit <= |rows| then -limit else |rows|
  {}

  /** RFC_FUNCTION_SEARCH at a moment; an empty group is not sent. */
  type Repository = (string, Option<string>, int) -> Result<seq<Row>, int>

  function GroupArg(r: Request): Option<string> { if GroupName(r) == "" then None else Some(GroupName(r)) }

  /** What `search` computes without the cache. */
  function Answer(strip: string -> string, sap: Repository, r: Request, now: int): Result<seq<Summary>, int> {
    match sap(r.pattern, GroupArg(r), now)
    case Err(e) => Err(e)
    case Ok(rows) => Ok(Summaries(strip, Limited(rows, r.limit)))
  }

  /** The summary says about the row what the search reports. */
  predicate Reports(strip: string -> string, row: Row, s: Summary) {
    && s.name == strip(row.name) && s.group == strip(row.group) && s.text == strip(row.text)
    && (s.remoteEnabled <==> strip(row.remote) != "")
  }

  /** `summaries` are of the rows at `at`: those that have a name and come before `within`. */
  ghost predicate Selects(strip: string -> string, rows: seq<Row>, within: int, summaries: seq<Summary>, at: seq<nat>) {
    && |at| == |summaries|
    && (forall i, j | 0 <= i < j < |at| :: at[i] < at[j])
    && (forall k | 0 <= k < |at| :: at[k] < |rows| && Reports(strip, rows[at[k]], summaries[k]))
    && forall i | 0 <= i < |rows| :: i in at <==> i < within && strip(rows[i].name) != ""
  }

  lemma PicksSelect(strip: string -> string, rows: seq<Row>, limit: int, summaries: seq<Summary>, at: seq<nat>)
    requires Picks(Limited(rows, limit), summaries, at, IsNamed(strip), Summarised(strip))
    ensures Selects(strip, rows, if limit < 0 then |rows| + limit else limit, summaries, at)
  {
    var front := Limited(rows, limit);
    forall k | 0 <= k < |at|
      ensures at[k] < |front| && strip(front[at[k]].name) != "" && Reports(strip, front[at[k]], summaries[k])
    {
      assert IsNamed(strip)(front[at[k]]) && summaries[k] == Summarised(strip)(front[at[k]]);
    }
    forall i | 0 <= i < |front| && strip(front[i].name) != ""
      ensures i in at
    {
      assert IsNamed(strip)(front[i]);
    }
  }

  /** The group is sent only if there is one and it is not empty. An error of the search is the
      answer. Else the answer has one summary for each row that has a name and is within the
      limit, in order. */
  lemma AnswerExactly(strip: string -> string, sap: Repository, r: Request, now: int) returns (at: seq<nat>)
    ensures var found := sap(r.pattern, if r.group == Some("") then None else r.group, now);
            if found.Err? then Answer(strip, sap, r, now) == Err(found.error)
            else
              && Answer(strip, sap, r, now).Ok?
              && Selects(strip, found.value, if r.limit < 0 then |found.value| + r.limit else r.limit,
                         Answer(strip, sap, r, now).value, at)
  {
    hide Summaries, Selects, Limited;
    var found := sap(r.pattern, GroupArg(r), now);
    at := [];
    if found.Ok? {
      at := SummariesPickNamedRows(strip, Limited(found.value, r.limit));
      PicksSelect(strip, found.value, r.limit, Summaries(strip, Limited(found.value, r.limit)), at);
    }
  }

  /** What threads do to the cache. A fill stores what SAP answered to `request` at `asked`. */
  datatype Step<V> =
    | Look(request: Request, at: int)
    | Fill(request: Request, asked: int, value: V, at: int)
    | Wipe(at: int)

  function OpOf<V>(u: Casing, step: Step<V>): Op<V> {
    match step
    case Look(r, at) => Op.Get(KeyOf(u, r), at)
    case Fill(r, _, value, at) => Op.Set(KeyOf(u, r), value, at)
    case Wipe(at) => Op.Clear(at)
  }

  class FunctionCatalog {
    const sap: Repository
    const strip: string -> string
    const casing: Casing
    const cache: TTLCache<seq<Summary>>

    constructor (sap: Repository, strip: string -> string, casing: Casing, ttl: int)
      ensures this.sap == sap && this.strip == strip && this.casing == casing
      ensures fresh(cache) && cache.ttl == ttl && cache.store == map[]
    {
      this.sap, this.strip, this.casing := sap, strip, casing;
      cache := new TTLCache(ttl);
    }

    /** `_do_search`. */
    method DoSearch(r: Request, now: int) returns (answer: Result<seq<Summary>, int>)
      ensures answer == Answer(strip, sap, r, now)
    {
      match sap(r.pattern, GroupArg(r), now)
      case Err(e) =>
        return Err(e);
      case Ok(all) =>
        var rows := Limited(all, r.limit);
        var summaries: seq<Summary> := [];
        for i := 0 to |rows|
          invariant summaries == Summaries(strip, rows[..i])
        {
          assert rows[..i + 1][..i] == rows[..i];
          var row := rows[i];
          var name := strip(row.name);
          if name == "" {
            continue;
          }
          var remoteFlag := strip(row.remote);
          summaries := summaries + [Summary(name, strip(row.group), strip(row.text), remoteFlag != "")];
        }
        assert rows[..|rows|] == rows;
        return Ok(summaries);
    }

    /** `search`; the clock is read for the lookup, by SAP for the answer, and for storing. */
    method Search(r: Request, looked: int, asked: int, stored: int) returns (answer: Result<seq<Summary>, int>)
      modifies cache
      ensures var key := KeyOf(casing, r);
              var hit := Peek(old(cache.store), key, looked);
              var store := After(cache.ttl, old(cache.store), OpOf(casing, Look(r, looked)));
              if hit.Some? then answer == Ok(hit.value) && cache.store == store
              else
                && answer == Answer(strip, sap, r, asked)
                && cache.store == if answer.Err? then store
                                  else After(cache.ttl, store, OpOf(casing, Fill(r, asked, answer.value, stored)))
    {
      var key := KeyOf(casing, r);
      var hit := cache.Get(key, looked);
      if hit.Some? {
        return Ok(hit.value);
      }
      answer := DoSearch(r, asked);
      if answer.Ok? {
        cache.Set(key, answer.value, stored);
      }
    }
  }

  // ---- transparency of the cache ----

  function OpsOf<V>(u: Casing, steps: seq<Step<V>>): seq<Op<V>> {
    seq(|steps|, i requires 0 <= i < |steps| => OpOf(u, steps[i]))
  }

  type Answers<!V> = (Request, int) -> V

  /** Fills store what SAP answered, at most `delay` after it did. */
  ghost predicate Honest<V>(answers: Answers<V>, steps: seq<Step<V>>, delay: int) {
    forall i | 0 <= i < |steps| && steps[i].Fill? ::
      && steps[i].value == answers(steps[i].request, steps[i].asked)
      && steps[i].asked <= steps[i].at <= steps[i].asked + delay
  }

  /** Answers do not depend on case, and do not change within `window`. */
  ghost predicate Steady<V(!new)>(u: Casing, answers: Answers<V>, window: int) {
    && (forall r, s, t | SameUpToCase(u, r, s) :: answers(r, t) == answers(s, t))
    && (forall r, t, t' | t <= t' <= t + window :: answers(r, t') == answers(r, t))
  }

  /** After this history a hit for `r` is the answer that SAP would give at that moment. */
  ghost predicate HitIsRight<V(!new)>(u: Casing, answers: Answers<V>, steps: seq<Step<V>>, ttl: int, delay: int,
      r: Request, now: int) {
    Honest(answers, steps, delay) && Steady(u, answers, ttl + delay) && InOrder(OpsOf(u, steps), now) ==>
      var hit := Peek(Run(ttl, OpsOf(u, steps)), KeyOf(u, r), now);
      hit.Some? ==> hit.value == answers(r, now)
  }

  /** After any interleaving of lookups and fills by any callers, whatever patterns they use, a
      cache hit for a request without a bar is the answer that SAP would give at that moment. */
  lemma {:induction false} CacheIsTransparent<V(!new)>(u: Casing, answers: Answers<V>, steps: seq<Step<V>>,
      ttl: int, delay: int, r: Request, now: int)
    requires Sane(u) && '|' !in r.pattern && '|' !in GroupName(r)
    ensures HitIsRight(u, answers, steps, ttl, delay, r, now)
  {
    var ops, key := OpsOf(u, steps), KeyOf(u, r);
    var hit := Peek(Run(ttl, ops), key, now);
    if Honest(answers, steps, delay) && Steady(u, answers, ttl + delay) && InOrder(ops, now) && hit.Some? {
      GetReturnsTheLastSet(ttl, ops, key, now);
      LastSetIsSet(ops, key);
      var i := LastSet(ops, key).value;
      var q, asked := steps[i].request, steps[i].asked;
      assert ops[i] == OpOf(u, steps[i]) && KeyOf(u, q) == key;
      PlainIsUnambiguous(u, r, q);
      assert answers(q, asked) == answers(r, asked);
      assert asked <= now <= asked + (ttl + delay);
    }
  }

  /** For every request with a bar there is another one, different by more than case, whose
      stored answer the cache gives to it. */
  lemma BarsLeakAnswers<V(!new)>(u: Casing, answers: Answers<V>, ttl: nat, r: Request)
    requires Sane(u) && ('|' in r.pattern || '|' in GroupName(r))
    ensures exists s: Request :: !SameUpToCase(u, r, s) &&
              Peek(Run(ttl, OpsOf(u, [Fill(s, 0, answers(s, 0), 0)])), KeyOf(u, r), 0) == Some(answers(s, 0))
  {
    var s;
    if '|' in r.pattern { s := BarInPattern(u, r); } else { s := BarInGroup(u, r); }
    var steps := [Fill(s, 0, answers(s, 0), 0)];
    var ops := OpsOf(u, steps);
    assert ops == [Op.Set(KeyOf(u, s), answers(s, 0), 0)];
    assert ops[..0] == [];
    assert Run(ttl, ops) == map[KeyOf(u, s) := Entry(ttl, answers(s, 0))];
  }

  /** What identifies a request up to case. */
  datatype Canonical = Canonical(pattern: string, group: string, limit: int)

  function CanonicalOf(u: Casing, r: Request): Canonical {
    Canonical(Upper(u, r.pattern), Upper(u, GroupName(r)), r.limit)
  }

  /** The cache is transparent for `r`, whatever SAP answers and whatever happened before. */
  ghost predicate Transparent(u: Casing, r: Request) {
    forall answers: Answers<Canonical>, steps: seq<Step<Canonical>>, ttl: int, delay: int, now: int ::
      HitIsRight(u, answers, steps, ttl, delay, r, now)
  }

  /** The cache is transparent for a request if and only if neither its pattern nor its group
      contains a bar. */
  lemma TransparentIff(u: Casing, r: Request)
    requires Sane(u)
    ensures Transparent(u, r) <==> '|' !in r.pattern && '|' !in GroupName(r)
  {
    if '|' in r.pattern || '|' in GroupName(r) {
      var answers: Answers<Canonical> := (q: Request, t: int) => CanonicalOf(u, q);
      BarsLeakAnswers(u, answers, 0, r);
      var s: Request :| !SameUpToCase(u, r, s) &&
        Peek(Run(0, OpsOf(u, [Fill(s, 0, answers(s, 0), 0)])), KeyOf(u, r), 0) == Some(answers(s, 0));
      var steps := [Fill(s, 0, answers(s, 0), 0)];
      assert Honest(answers, steps, 0) && Steady(u, answers, 0);
      assert InOrder(OpsOf(u, steps), 0);
      assert !HitIsRight(u, answers, steps, 0, 0, r, 0);
    } else {
      forall answers: Answers<Canonical>, steps: seq<Step<Canonical>>, ttl: int, delay: int, now: int
        ensures HitIsRight(u, answers, steps, ttl, delay, r, now)
      {
        CacheIsTransparent(u, answers, steps, ttl, delay, r, now);
      }
    }
  }
}
