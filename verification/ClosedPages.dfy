/** The set of closed pages a browser keeps: a prefix and merged ranges of page numbers stand for a set
    of page ids. */
module ClosedPages {
  import opened Wrappers
  import opened Decimals

  datatype Range = Range(lo: int, hi: int)

  const MAX_SAFE := 0x1F_FFFF_FFFF_FFFF

  // ---- page ids ----

  /** The page number of an id: its decimal writing without leading zeros, after the browser's own
      prefix; 0 for every other id. */
  function Index(browser: string, id: string): nat {
    var head := browser + ":";
    if |id| <= |head| || id[..|head|] != head || id[|head|] == '0' then 0
    else
      match Value(id[|head|..])
      case Some(n) => if n <= MAX_SAFE then n else 0
      case None => 0
  }

  function PageId(browser: string, n: int): string
    requires n >= 0
  {
    browser + ":" + Decimal(n)
  }

  /** Ids and page numbers correspond one to one. */
  lemma IndexExactly(browser: string, id: string, n: nat)
    requires 0 < n <= MAX_SAFE
    ensures Index(browser, id) == n <==> id == PageId(browser, n)
  {
    var head := browser + ":";
    ValueOfDecimal(n);
    if Index(browser, id) == n {
      DecimalOfValue(id[|head|..]);
      assert id == id[..|head|] + id[|head|..];
    }
    var made := head + Decimal(n);
    assert made[..|head|] == head && made[|head|..] == Decimal(n);
  }

  // ---- ranges as sets ----

  predicate Covers(rs: seq<Range>, n: int) {
    exists i :: 0 <= i < |rs| && rs[i].lo <= n <= rs[i].hi
  }

  /** a covers what b covers, and the numbers from lo to hi. */
  ghost predicate Adds(a: seq<Range>, b: seq<Range>, lo: int, hi: int) {
    forall k {:trigger Covers(a, k)} {:trigger Covers(b, k)} :: Covers(a, k) <==> Covers(b, k) || lo <= k <= hi
  }

  /** Sorted, disjoint, with a gap between neighbours. */
  predicate Apart(rs: seq<Range>) {
    && (forall i :: 0 <= i < |rs| ==> rs[i].lo <= rs[i].hi)
    && (forall i, j :: 0 <= i < j < |rs| ==> rs[i].hi + 1 < rs[j].lo)
  }

  predicate Ordered(rs: seq<Range>) {
    && (forall i :: 0 <= i < |rs| ==> rs[i].lo <= rs[i].hi)
    && (forall i, j :: 0 <= i < j < |rs| ==> rs[i].lo <= rs[j].lo)
  }

  /** Sorting ranges already in order with one number at the end: it comes after every range that does
      not start later. */
  function Insert(rs: seq<Range>, n: int): seq<Range> {
    if rs == [] || rs[|rs| - 1].lo <= n then rs + [Range(n, n)]
    else Insert(rs[..|rs| - 1], n) + [rs[|rs| - 1]]
  }

  lemma {:induction false} InsertOrders(rs: seq<Range>, n: int)
    requires Ordered(rs)
    ensures Ordered(Insert(rs, n))
    ensures forall i :: 0 <= i < |Insert(rs, n)| ==>
              Insert(rs, n)[i].lo == n || exists j :: 0 <= j < |rs| && Insert(rs, n)[i].lo == rs[j].lo
  {
    if rs != [] && rs[|rs| - 1].lo > n {
      var front, last := rs[..|rs| - 1], rs[|rs| - 1];
      InsertOrders(front, n);
      var s := Insert(front, n);
      assert |s| == |rs| by { InsertLength(front, n); }
      forall i | 0 <= i < |s| ensures s[i].lo == n || exists j :: 0 <= j < |rs| && s[i].lo == rs[j].lo {
        if s[i].lo != n {
          var j :| 0 <= j < |front| && s[i].lo == front[j].lo;
          assert rs[j] == front[j];
        }
      }
    } else {
      forall i | 0 <= i < |rs| ensures Insert(rs, n)[i] == rs[i] { }
    }
  }

  lemma {:induction false} InsertLength(rs: seq<Range>, n: int)
    ensures |Insert(rs, n)| == |rs| + 1
  {
    if rs != [] && rs[|rs| - 1].lo > n { InsertLength(rs[..|rs| - 1], n); }
  }

  lemma CoversOneMore(rs: seq<Range>, r: Range)
    ensures Adds(rs + [r], rs, r.lo, r.hi)
  {
    forall k ensures Covers(rs + [r], k) <==> Covers(rs, k) || r.lo <= k <= r.hi {
      if Covers(rs, k) {
        var i :| 0 <= i < |rs| && rs[i].lo <= k <= rs[i].hi;
        assert (rs + [r])[i] == rs[i];
      }
      assert (rs + [r])[|rs|] == r;
    }
  }

  lemma {:induction false} InsertCovers(rs: seq<Range>, n: int)
    ensures Adds(Insert(rs, n), rs, n, n)
  {
    if rs == [] || rs[|rs| - 1].lo <= n {
      CoversOneMore(rs, Range(n, n));
    } else {
      var front, last := rs[..|rs| - 1], rs[|rs| - 1];
      InsertCovers(front, n);
      CoversOneMore(front, last);
      CoversOneMore(Insert(front, n), last);
      assert rs == front + [last];
    }
  }

  lemma CoversFirst(rs: seq<Range>)
    requires rs != []
    ensures Adds(rs, rs[1..], rs[0].lo, rs[0].hi)
  {
    forall k ensures Covers(rs, k) <==> Covers(rs[1..], k) || rs[0].lo <= k <= rs[0].hi {
      if Covers(rs[1..], k) {
        var i :| 0 <= i < |rs[1..]| && rs[1..][i].lo <= k <= rs[1..][i].hi;
        assert rs[i + 1] == rs[1..][i];
      }
      if Covers(rs, k) {
        var i :| 0 <= i < |rs| && rs[i].lo <= k <= rs[i].hi;
        if i > 0 { assert rs[1..][i - 1] == rs[i]; }
      }
    }
  }

  /** The merging loop: ranges that touch or overlap become one. */
  method Merge(sorted: seq<Range>) returns (merged: seq<Range>)
    requires Ordered(sorted)
    ensures Apart(merged) && forall k :: Covers(merged, k) <==> Covers(sorted, k)
    ensures sorted != [] ==> merged != [] && merged[0].lo == sorted[0].lo
  {
    merged := [];
    for i := 0 to |sorted|
      invariant Apart(merged) && (merged == [] <==> i == 0)
      invariant i > 0 ==> merged[|merged| - 1].lo <= sorted[i - 1].lo && merged[0].lo == sorted[0].lo
      invariant forall k :: Covers(merged, k) <==> Covers(sorted[..i], k)
    {
      var range := sorted[i];
      assert sorted[..i + 1] == sorted[..i] + [range];
      CoversOneMore(sorted[..i], range);
      if merged != [] && range.lo <= merged[|merged| - 1].hi + 1 {
        var front, last := merged[..|merged| - 1], merged[|merged| - 1];
        var grown := last.(hi := if range.hi > last.hi then range.hi else last.hi);
        assert merged == front + [last];
        CoversOneMore(front, last);
        CoversOneMore(front, grown);
        merged := front + [grown];
      } else {
        CoversOneMore(merged, range);
        merged := merged + [range];
      }
    }
    assert sorted[..|sorted|] == sorted;
  }

  /** The shifting loop: ranges that reach the prefix extend it. */
  method Absorb(prefix: int, merged: seq<Range>) returns (p: int, rest: seq<Range>)
    requires Apart(merged) && (merged != [] ==> merged[0].lo > prefix)
    ensures Apart(rest) && (rest != [] ==> rest[0].lo > p + 1) && p >= prefix
    ensures forall k :: k <= p || Covers(rest, k) <==> k <= prefix || Covers(merged, k)
  {
    p, rest := prefix, merged;
    while rest != [] && rest[0].lo <= p + 1
      invariant Apart(rest) && p >= prefix && (rest != [] ==> rest[0].lo > p)
      invariant forall k {:trigger Covers(rest, k)} {:trigger Covers(merged, k)} ::
                  k <= p || Covers(rest, k) <==> k <= prefix || Covers(merged, k)
    {
      CoversFirst(rest);
      p := if rest[0].hi > p then rest[0].hi else p;
      rest := rest[1..];
    }
  }

  function Span(lo: int, hi: int): (s: set<int>)
    requires lo <= hi + 1
    ensures |s| == hi + 1 - lo && forall n :: n in s <==> lo <= n <= hi
    decreases hi - lo
  {
    if lo == hi + 1 then {} else Span(lo, hi - 1) + {hi}
  }

  /** How many numbers the ranges cover, one range after the other. */
  function Total(rs: seq<Range>): int {
    if rs == [] then 0 else Total(rs[..|rs| - 1]) + (rs[|rs| - 1].hi - rs[|rs| - 1].lo + 1)
  }

  /** The numbers are those up to the prefix and those the ranges cover. */
  ghost predicate Stands(prefix: int, rs: seq<Range>, numbers: set<int>) {
    forall n {:trigger n in numbers} {:trigger Covers(rs, n)} :: n in numbers <==> 0 < n <= prefix || Covers(rs, n)
  }

  lemma {:induction false} TotalCounts(prefix: int, rs: seq<Range>, numbers: set<int>)
    requires prefix >= 0 && Apart(rs) && (rs != [] ==> rs[0].lo > prefix) && Stands(prefix, rs, numbers)
    ensures |numbers| == prefix + Total(rs)
  {
    if rs == [] {
      OnlyPrefix(prefix, numbers);
    } else {
      var front, last := rs[..|rs| - 1], rs[|rs| - 1];
      assert rs == front + [last];
      var rest := WithoutLast(prefix, front, last, numbers);
      TotalCounts(prefix, front, rest);
    }
  }

  lemma WithoutLast(prefix: int, front: seq<Range>, last: Range, numbers: set<int>) returns (rest: set<int>)
    requires Apart(front + [last]) && (front + [last])[0].lo > prefix && Stands(prefix, front + [last], numbers)
    ensures Apart(front) && (front != [] ==> front[0].lo > prefix) && Stands(prefix, front, rest)
    ensures |numbers| == |rest| + (last.hi - last.lo + 1)
  {
    assert (front + [last])[|front|] == last;
    var there := Span(last.lo, last.hi);
    LastStandsAlone(prefix, front, last);
    StandsWithoutLast(prefix, front, last, numbers, there);
    rest := numbers - there;
    Parts(numbers, there);
  }

  lemma OnlyPrefix(prefix: int, numbers: set<int>)
    requires prefix >= 0 && Stands(prefix, [], numbers)
    ensures |numbers| == prefix
  {
    forall n ensures n in numbers <==> n in Span(1, prefix) { assert !Covers([], n); }
    assert numbers == Span(1, prefix);
  }

  lemma StandsWithoutLast(prefix: int, front: seq<Range>, last: Range, numbers: set<int>, there: set<int>)
    requires Stands(prefix, front + [last], numbers)
    requires forall n :: n in there <==> last.lo <= n <= last.hi
    requires forall n :: last.lo <= n <= last.hi ==> n > prefix && !Covers(front, n)
    ensures Stands(prefix, front, numbers - there) && there <= numbers
  {
    CoversOneMore(front, last);
    forall n {:trigger n in numbers} {:trigger Covers(front, n)} {:trigger n in there}
      ensures n in numbers <==> 0 < n <= prefix || Covers(front, n) || n in there
    {
      assert n in numbers <==> 0 < n <= prefix || Covers(front + [last], n);
      assert Covers(front + [last], n) <==> Covers(front, n) || last.lo <= n <= last.hi;
    }
    forall n | n in there ensures n in numbers { }
  }

  lemma Parts(whole: set<int>, part: set<int>)
    requires part <= whole
    ensures |whole| == |whole - part| + |part|
  {
    assert whole == (whole - part) + part;
  }

  lemma LastStandsAlone(prefix: int, front: seq<Range>, last: Range)
    requires Apart(front + [last]) && (front + [last])[0].lo > prefix
    ensures forall n :: last.lo <= n <= last.hi ==> n > prefix && !Covers(front, n)
    ensures Apart(front) && (front != [] ==> front[0].lo > prefix)
  {
    var rs := front + [last];
    assert rs[|front|] == last;
    assert forall i :: 0 <= i < |front| ==> rs[i] == front[i];
    assert front != [] ==> rs[0].hi + 1 < last.lo;
  }

  /** Ids and their numbers, one to one. */
  ghost predicate Numbered(browser: string, ids: set<string>, numbers: set<int>) {
    && (forall id {:trigger Index(browser, id)} :: id in ids ==>
         Index(browser, id) in numbers && Index(browser, id) > 0)
    && (forall n {:trigger PageId(browser, n)} :: n in numbers ==> 0 < n <= MAX_SAFE && PageId(browser, n) in ids)
    && |ids| == |numbers|
  }

  // ---- the set ----

  class ClosedSet {
    const browser: string
    var prefix: int
    var ranges: seq<Range>
    ghost var ids: set<string>       // the ids added so far that are page ids of this browser
    ghost var numbers: set<int>      // their page numbers

    ghost predicate Shaped()
      reads this
    {
      && prefix >= 0 && Apart(ranges) && (ranges != [] ==> ranges[0].lo > prefix + 1)
      && Stands(prefix, ranges, numbers)
    }

    ghost predicate Valid()
      reads this
    {
      Shaped() && Numbered(browser, ids, numbers)
    }

    constructor (browser: string)
      ensures Valid() && this.browser == browser && ids == {}
    {
      this.browser := browser;
      prefix, ranges := 0, [];
      ids, numbers := {}, {};
    }

    method Add(id: string)
      requires Valid()
      modifies this
      ensures Valid()
      ensures ids == old(ids) + if Index(browser, id) > 0 then {id} else {}
    {
      var n := Index(browser, id);
      if n == 0 {
        return;
      }
      if n > prefix {
        Include(n);
      }
      Enter(browser, id, ids, numbers, old(numbers));
      ids := ids + {id};
    }

    method Include(n: int)
      requires Shaped() && n > prefix
      modifies this`prefix, this`ranges, this`numbers
      ensures Shaped() && numbers == old(numbers) + {n}
    {
      var sorted := Insert(ranges, n);
      InsertOrders(ranges, n);
      InsertCovers(ranges, n);
      assert forall i :: 0 <= i < |ranges| ==> ranges[i].lo > prefix;
      var merged := Merge(sorted);
      var p, rest := Absorb(prefix, merged);
      StandsWith(prefix, ranges, numbers, n, sorted, merged, p, rest);
      prefix, ranges := p, rest;
      numbers := numbers + {n};
    }

    method Has(id: string) returns (found: bool)
      requires Valid()
      ensures found <==> id in ids
    {
      var n := Index(browser, id);
      if n == 0 {
        return false;
      }
      IndexExactly(browser, id, n);
      assert n in numbers <==> id in ids;
      if n <= prefix {
        return true;
      }
      found := Within(ranges, n);
    }

    method Size() returns (size: int)
      requires Valid()
      ensures size == |ids|
    {
      var sum := 0;
      for i := 0 to |ranges|
        invariant sum == Total(ranges[..i])
      {
        assert ranges[..i + 1][..i] == ranges[..i];
        sum := sum + (ranges[i].hi - ranges[i].lo + 1);
      }
      assert ranges[..|ranges|] == ranges;
      TotalCounts(prefix, ranges, numbers);
      return prefix + sum;
    }
  }

  lemma StartsAbove(from: int, rs: seq<Range>, k: int)
    requires Apart(rs) && (rs != [] ==> rs[0].lo > from)
    ensures Covers(rs, k) ==> k > from
  {
    if Covers(rs, k) {
      var i :| 0 <= i < |rs| && rs[i].lo <= k <= rs[i].hi;
      assert i > 0 ==> rs[0].hi + 1 < rs[i].lo;
    }
  }

  method Within(rs: seq<Range>, n: int) returns (found: bool)
    ensures found <==> Covers(rs, n)
  {
    for i := 0 to |rs|
      invariant !Covers(rs[..i], n)
    {
      if rs[i].lo <= n <= rs[i].hi {
        return true;
      }
      assert rs[..i + 1] == rs[..i] + [rs[i]];
      CoversOneMore(rs[..i], rs[i]);
    }
    assert rs[..|rs|] == rs;
    return false;
  }

  lemma StandsWith(prefix: int, ranges: seq<Range>, numbers: set<int>, n: int, sorted: seq<Range>, merged: seq<Range>,
                   p: int, rest: seq<Range>)
    requires 0 <= prefix < n && Stands(prefix, ranges, numbers) && Adds(sorted, ranges, n, n)
    requires Apart(merged) && (merged != [] ==> merged[0].lo > prefix)
    requires forall k :: Covers(merged, k) <==> Covers(sorted, k)
    requires p >= prefix && forall k :: k <= p || Covers(rest, k) <==> k <= prefix || Covers(merged, k)
    requires Apart(rest) && (rest != [] ==> rest[0].lo > p)
    ensures Stands(p, rest, numbers + {n})
  {
    forall k ensures k in numbers + {n} <==> 0 < k <= p || Covers(rest, k) {
      assert Covers(merged, k) <==> Covers(sorted, k);
      assert Covers(sorted, k) <==> Covers(ranges, k) || k == n;
      assert k in numbers <==> 0 < k <= prefix || Covers(ranges, k);
      assert k <= p || Covers(rest, k) <==> k <= prefix || Covers(merged, k);
      StartsAbove(prefix, merged, k);
      StartsAbove(p, rest, k);
    }
  }

  /** One more id, one more number. */
  lemma Enter(browser: string, id: string, ids: set<string>, numbers: set<int>, was: set<int>)
    requires Index(browser, id) > 0 && numbers == was + {Index(browser, id)} && Numbered(browser, ids, was)
    ensures Numbered(browser, ids + {id}, numbers)
  {
    var n := Index(browser, id);
    assert n <= MAX_SAFE;
    IndexExactly(browser, id, n);
    assert PageId(browser, n) == id;
    if n in was {
      assert ids + {id} == ids && numbers == was;
    } else {
      assert id !in ids;
    }
  }
}
