/** The star list of `src/stars.js`: each called star becomes a record with
    its call time in milliseconds and an estimated time of death, stars of
    tier 3 and below are dropped, and the rest are sorted in place by tier,
    then by call time, newest first. Fetching, `timeago` and the table
    rendering are left out. */
module Stars {
  import opened Wrappers

  /** A star as the map service reports it; `calledAt` is in seconds. */
  datatype Star = Star(calledAt: int, tier: int, world: int, calledLocation: string, calledBy: string)

  /** A record of the list. `estDead` is None where JavaScript computes NaN:
      for a tier the table does not know. */
  datatype Row = Row(called: int, tier: int, world: int, location: string, calledBy: string, estDead: Option<int>)

  /** The column names, in the order the records' keys are created. */
  const Header: seq<string> := ["called", "tier", "world", "location", "called by", "est. dead"]

  /** Minutes a star of each tier lasts after it is called; the lookup is
      `undefined` outside tiers 0 to 9. */
  function MinutesUntilDead(tier: int): Option<int> {
    if tier == 0 then Some(0)
    else if tier == 1 then Some(24)
    else if tier == 2 then Some(43)
    else if tier == 3 then Some(57)
    else if tier == 4 then Some(67)
    else if tier == 5 then Some(76)
    else if tier == 6 then Some(83)
    else if tier == 7 then Some(89)
    else if tier == 8 then Some(94)
    else if tier == 9 then Some(99)
    else None
  }

  /** The record built for one star. */
  function ToRow(s: Star): Row {
    var called := s.calledAt * 1000;
    Row(called, s.tier, s.world, s.calledLocation, s.calledBy,
        match MinutesUntilDead(s.tier)
        case Some(m) => Some(called + m * 60000)
        case None => None)
  }

  /** For a tier the table knows, a star dies no earlier than it was called,
      and a higher tier lasts longer; outside the table the estimate is NaN. */
  lemma EstimateAfterCall(s: Star)
    ensures 0 <= s.tier <= 9 <==> ToRow(s).estDead.Some?
    ensures 0 <= s.tier <= 9 ==> ToRow(s).estDead.value >= ToRow(s).called
    ensures 0 <= s.tier <= 9 ==> ToRow(s).estDead.value == s.calledAt * 1000 + MinutesUntilDead(s.tier).value * 60000
  {
  }

  /** The table lasts longer for every higher tier. */
  lemma MinutesIncrease(lower: int, higher: int)
    requires 0 <= lower < higher <= 9
    ensures MinutesUntilDead(lower).value < MinutesUntilDead(higher).value
  {
  }

  /** The records for all stars, in the same order. */
  function Rows(stars: seq<Star>): (rows: seq<Row>)
    ensures |rows| == |stars|
    ensures forall k :: 0 <= k < |stars| ==> rows[k] == ToRow(stars[k])
  {
    seq(|stars|, k requires 0 <= k < |stars| => ToRow(stars[k]))
  }

  /** Every record carries its own star: the call time in milliseconds, the
      star's tier, world, location and caller, and an estimated death that
      exists exactly for tiers 0 to 9 and then comes no earlier than the call. */
  lemma RowsCarryStars(stars: seq<Star>, k: int)
    requires 0 <= k < |stars|
    ensures var row := Rows(stars)[k];
      && row.called == stars[k].calledAt * 1000
      && row.tier == stars[k].tier && row.world == stars[k].world
      && row.location == stars[k].calledLocation && row.calledBy == stars[k].calledBy
      && (row.estDead.Some? <==> 0 <= stars[k].tier <= 9)
      && (row.estDead.Some? ==> row.estDead.value >= row.called)
  {
    EstimateAfterCall(stars[k]);
  }

  /** `filter((star) => star.tier > 3)`. */
  function Kept(rows: seq<Row>): (r: seq<Row>)
    ensures |r| <= |rows|
  {
    if rows == [] then []
    else if rows[0].tier > 3 then [rows[0]] + Kept(rows[1..])
    else Kept(rows[1..])
  }

  /** The filter keeps exactly the records of tier above 3, each as often as
      it occurs. */
  lemma {:induction false} KeptContents(rows: seq<Row>)
    ensures forall x :: multiset(Kept(rows))[x] == (if x.tier > 3 then multiset(rows)[x] else 0)
  {
    if rows != [] {
      KeptContents(rows[1..]);
      assert rows == [rows[0]] + rows[1..];
    }
  }

  /** Nothing is left exactly when no record has a tier above 3. */
  lemma {:induction false} KeptEmpty(rows: seq<Row>)
    ensures Kept(rows) == [] <==> forall k :: 0 <= k < |rows| ==> rows[k].tier <= 3
  {
    if rows != [] {
      KeptEmpty(rows[1..]);
      assert forall k :: 1 <= k < |rows| ==> rows[k] == rows[1..][k - 1];
    }
  }

  /** The comparator `b.tier - a.tier || b.called - a.called`: a zero
      difference of tiers is falsy, so the call times decide. */
  function Compare(a: Row, b: Row): int {
    if b.tier - a.tier != 0 then b.tier - a.tier else b.called - a.called
  }

  /** `a` may stand before `b` in the sorted list. */
  predicate Before(a: Row, b: Row) {
    Compare(a, b) <= 0
  }

  /** The comparator orders by tier, highest first, then by call time, newest
      first; it is antisymmetric, so it is a consistent comparator. */
  lemma CompareOrder(a: Row, b: Row)
    ensures Before(a, b) <==> a.tier > b.tier || (a.tier == b.tier && a.called >= b.called)
    ensures Compare(a, b) == -Compare(b, a)
    ensures Before(a, b) || Before(b, a)
  {
  }

  predicate Sorted(rows: seq<Row>) {
    forall i, j :: 0 <= i < j < |rows| ==> Before(rows[i], rows[j])
  }

  /** `Before` is transitive: the comparator is a total preorder. */
  lemma BeforeTrans(a: Row, b: Row, c: Row)
    requires Before(a, b) && Before(b, c)
    ensures Before(a, c)
  {
  }

  /** The records of `rows` with the given tier and call time, in order:
      the records the comparator ties with each other. */
  function Ties(rows: seq<Row>, tier: int, called: int): (r: seq<Row>)
    ensures forall k :: 0 <= k < |r| ==> r[k].tier == tier && r[k].called == called
  {
    if rows == [] then []
    else
      var last := rows[|rows| - 1];
      Ties(rows[..|rows| - 1], tier, called) + (if last.tier == tier && last.called == called then [last] else [])
  }

  /** `x` inserted into `sorted` after every record that may stand before
      it: the step of a stable insertion sort. */
  function Inserted(sorted: seq<Row>, x: Row): seq<Row>
    decreases |sorted|
  {
    if sorted == [] then [x]
    else if Before(sorted[|sorted| - 1], x) then sorted + [x]
    else Inserted(sorted[..|sorted| - 1], x) + [sorted[|sorted| - 1]]
  }

  /** A stable insertion sort by the comparator: each record in turn is
      inserted into the sorted records before it. With a consistent
      comparator this is the order a stable `Array.prototype.sort` gives. */
  function InsertionSorted(rows: seq<Row>): seq<Row> {
    if rows == [] then []
    else Inserted(InsertionSorted(rows[..|rows| - 1]), rows[|rows| - 1])
  }

  lemma {:induction false} InsertedPermutes(sorted: seq<Row>, x: Row)
    ensures multiset(Inserted(sorted, x)) == multiset(sorted) + multiset{x}
    decreases |sorted|
  {
    if sorted != [] && !Before(sorted[|sorted| - 1], x) {
      var init := sorted[..|sorted| - 1];
      InsertedPermutes(init, x);
      assert sorted == init + [sorted[|sorted| - 1]];
    }
  }

  lemma {:induction false} InsertedSorted(sorted: seq<Row>, x: Row)
    requires Sorted(sorted)
    ensures Sorted(Inserted(sorted, x))
    decreases |sorted|
  {
    if sorted == [] {
    } else {
      var last := sorted[|sorted| - 1];
      var init := sorted[..|sorted| - 1];
      if Before(last, x) {
        forall k | 0 <= k < |sorted| ensures Before(sorted[k], x) {
          if k < |sorted| - 1 { BeforeTrans(sorted[k], last, x); }
        }
      } else {
        InsertedSorted(init, x);
        InsertedPermutes(init, x);
        var r := Inserted(init, x);
        forall k | 0 <= k < |r| ensures Before(r[k], last) {
          assert r[k] in multiset(r);
          assert r[k] in init || r[k] == x;
          if r[k] != x {
            var m :| 0 <= m < |init| && init[m] == r[k];
            assert sorted[m] == r[k];
          }
        }
      }
    }
  }

  /** Inserting `x` leaves the order of every class of tied records as it
      was, with `x` last in its own class. */
  lemma {:induction false} InsertedKeepsTies(sorted: seq<Row>, x: Row, tier: int, called: int)
    ensures Ties(Inserted(sorted, x), tier, called) == Ties(sorted + [x], tier, called)
    decreases |sorted|
  {
    assert (sorted + [x])[..|sorted|] == sorted;
    if sorted != [] && !Before(sorted[|sorted| - 1], x) {
      var last := sorted[|sorted| - 1];
      var init := sorted[..|sorted| - 1];
      InsertedKeepsTies(init, x, tier, called);
      assert (init + [x])[..|init|] == init;
      assert Inserted(sorted, x) == Inserted(init, x) + [last];
      assert (Inserted(init, x) + [last])[..|Inserted(init, x)|] == Inserted(init, x);
      assert !(x.tier == tier && x.called == called && last.tier == tier && last.called == called);
    }
  }

  /** The insertion sort ends sorted, as a permutation of its input, and
      stable: records the comparator ties keep their input order. These
      are the three facts a stable sort promises. */
  lemma {:induction false} InsertionSortedStable(rows: seq<Row>, tier: int, called: int)
    ensures Sorted(InsertionSorted(rows))
    ensures multiset(InsertionSorted(rows)) == multiset(rows)
    ensures Ties(InsertionSorted(rows), tier, called) == Ties(rows, tier, called)
  {
    if rows != [] {
      var init := rows[..|rows| - 1];
      var last := rows[|rows| - 1];
      InsertionSortedStable(init, tier, called);
      InsertedSorted(InsertionSorted(init), last);
      InsertedPermutes(InsertionSorted(init), last);
      InsertedKeepsTies(InsertionSorted(init), last, tier, called);
      var done := InsertionSorted(init);
      assert (done + [last])[..|done|] == done;
      assert rows == init + [last];
    }
  }

  /** `stars.sort(...)`: an insertion sort in place, computing
      `InsertionSorted` of the records it starts with. */
  method SortRows(a: array<Row>)
    modifies a
    ensures a[..] == InsertionSorted(old(a[..]))
  {
    var i := 0;
    while i < a.Length
      invariant 0 <= i <= a.Length
      invariant a[..i] == InsertionSorted(old(a[..])[..i])
      invariant a[i..] == old(a[..])[i..]
    {
      ghost var before := a[..];
      Insert(a, i);
      assert old(a[..])[..i + 1][..i] == old(a[..])[..i];
      assert old(a[..])[i] == before[i];
      i := i + 1;
    }
    assert a[..a.Length] == a[..];
    assert old(a[..])[..a.Length] == old(a[..]);
  }

  /** Moves `a[i]` left by adjacent swaps past the records of `a[..i]` that
      must stand after it. */
  method Insert(a: array<Row>, i: int)
    requires 0 <= i < a.Length
    modifies a
    ensures a[..i + 1] == Inserted(old(a[..i]), old(a[i]))
    ensures a[i + 1..] == old(a[i + 1..])
  {
    ghost var s := a[..];
    ghost var x := a[i];
    var j := i;
    assert a[..] == s[..j] + [x] + s[j..i] + s[i + 1..];
    while j > 0 && !Before(a[j - 1], a[j])
      invariant 0 <= j <= i
      invariant a[..] == s[..j] + [x] + s[j..i] + s[i + 1..]
      invariant Inserted(s[..i], x) == Inserted(s[..j], x) + s[j..i]
    {
      ghost var b := a[..];
      assert b[j - 1] == s[j - 1] && b[j] == x;
      InsertedStep(s, i, j, x);
      Swap(a, j);
      SwapShape(b, a[..], s, i, j, x);
      j := j - 1;
    }
    InsertDone(a[..], s, i, j, x);
  }

  /** One step of `Inserted` from the right, inside the prefix `s[..i]`. */
  lemma InsertedStep(s: seq<Row>, i: int, j: int, x: Row)
    requires 0 < j <= i <= |s|
    requires !Before(s[j - 1], x)
    ensures Inserted(s[..j], x) + s[j..i] == Inserted(s[..j - 1], x) + s[j - 1..i]
  {
    assert s[..j][..j - 1] == s[..j - 1];
    assert s[j - 1..i] == [s[j - 1]] + s[j..i];
  }

  /** Swapping `x` with the record before it moves the gap one place left. */
  lemma SwapShape(b: seq<Row>, c: seq<Row>, s: seq<Row>, i: int, j: int, x: Row)
    requires 0 < j <= i < |s| && |b| == |s|
    requires b == s[..j] + [x] + s[j..i] + s[i + 1..]
    requires c == b[j - 1 := b[j]][j := b[j - 1]]
    ensures c == s[..j - 1] + [x] + s[j - 1..i] + s[i + 1..]
  {
    var d := s[..j - 1] + [x] + s[j - 1..i] + s[i + 1..];
    assert |c| == |d|;
    forall k | 0 <= k < |c| ensures c[k] == d[k] {
      if k < j - 1 { assert c[k] == b[k] == s[k]; }
      else if k == j - 1 { assert c[k] == b[j] == x; }
      else if k == j { assert c[k] == b[j - 1] == s[j - 1]; }
      else if k <= i { assert c[k] == b[k] == s[k - 1]; }
      else { assert c[k] == b[k] == s[k]; }
    }
  }

  /** When the loop stops, the prefix is the inserted sequence. */
  lemma InsertDone(c: seq<Row>, s: seq<Row>, i: int, j: int, x: Row)
    requires 0 <= j <= i < |s| && s[i] == x
    requires c == s[..j] + [x] + s[j..i] + s[i + 1..]
    requires Inserted(s[..i], x) == Inserted(s[..j], x) + s[j..i]
    requires j > 0 ==> Before(s[j - 1], x)
    ensures c[..i + 1] == Inserted(s[..i], x)
    ensures c[i + 1..] == s[i + 1..]
  {
    if j > 0 {
      assert s[..j][j - 1] == s[j - 1];
    }
    assert Inserted(s[..j], x) == s[..j] + [x];
    assert c[..i + 1] == s[..j] + [x] + s[j..i];
  }

  /** Exchanges `a[j - 1]` and `a[j]`. */
  method Swap(a: array<Row>, j: int)
    requires 0 < j < a.Length
    modifies a
    ensures a[..] == old(a[..])[j - 1 := old(a[j])][j := old(a[j - 1])]
  {
    a[j - 1], a[j] := a[j], a[j - 1];
  }

  /** The list could not be built: with no star above tier 3, reading the
      header from the first record throws. */
  datatype StarsError = NoStarsAboveTierThree

  /** A table: the column names and the sorted records. */
  datatype Table = Table(header: seq<string>, rows: seq<Row>)

  /** `getStars` after the fetch: the records of the stars above tier 3,
      sorted; or the failure when there are none. */
  method GetStars(stars: seq<Star>) returns (r: Result<Table, StarsError>)
    ensures r.Failure? <==> forall k :: 0 <= k < |stars| ==> stars[k].tier <= 3
    ensures r.Success? ==> r.value.header == Header
    ensures r.Success? ==> r.value.rows == InsertionSorted(Kept(Rows(stars)))
    ensures r.Success? ==> Sorted(r.value.rows)
    ensures r.Success? ==> multiset(r.value.rows) == multiset(Kept(Rows(stars)))
    ensures r.Success? ==>
      forall x :: multiset(r.value.rows)[x] == (if x.tier > 3 then multiset(Rows(stars))[x] else 0)
  {
    var kept := Kept(Rows(stars));
    KeptContents(Rows(stars));
    KeptEmpty(Rows(stars));
    if kept == [] {
      return Failure(NoStarsAboveTierThree);
    }
    var a := new Row[|kept|](k requires 0 <= k < |kept| => kept[k]);
    assert a[..] == kept;
    SortRows(a);
    InsertionSortedStable(kept, 0, 0);
    return Success(Table(Header, a[..]));
  }
}
