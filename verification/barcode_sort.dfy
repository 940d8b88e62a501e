/**
 `sortedWith` over the mapped barcodes with the centre-distance comparator.

 The sort consults only whether `compare(x, y) < 0`, inserting each element
 after every earlier element it does not precede; this is the stable
 insertion sort the JDK applies to short lists, and the test it uses is the
 one on which the as-written and the corrected comparator agree. The
 comparator's state is threaded through every comparison, so the lazily
 fixed centre is part of the result.
 */
module BarcodeSort {
  import opened Common
  import opened CentralComparator

  datatype SortResult = SortResult(items: seq<Barcode>, comparator: Central)

  /** Number of barcodes with a bounding box. */
  function Boxed(s: seq<Barcode>): nat {
    if |s| == 0 then 0
    else Boxed(s[..|s| - 1]) + (if s[|s| - 1].boundingBox.Some? then 1 else 0)
  }

  lemma BoxedSnoc(s: seq<Barcode>, y: Barcode)
    ensures Boxed(s + [y]) == Boxed(s) + (if y.boundingBox.Some? then 1 else 0)
  {
    assert (s + [y])[..|s|] == s;
  }

  /** Non-decreasing rank, which is ascending `compare` order. */
  predicate SortedByRank(c: Point, s: seq<Barcode>) {
    forall i, j :: 0 <= i < j < |s| ==> Rank(c, s[i]) <= Rank(c, s[j])
  }

  /** The barcodes of rank `k`, in their order in `s`. */
  function RankFilter(c: Point, s: seq<Barcode>, k: int): seq<Barcode> {
    if |s| == 0 then []
    else RankFilter(c, s[..|s| - 1], k) + (if Rank(c, s[|s| - 1]) == k then [s[|s| - 1]] else [])
  }

  /** The comparator after a sort still measures from `c` and keeps its frame metadata. */
  predicate Follows(r: Central, st: Central)
    requires st.Ready()
  {
    r.Ready() && r.UsedCentre() == st.UsedCentre() && r.frameMetadata == st.frameMetadata
  }

  /**
   Insert `x` into `s`, scanning from the end: it moves left past every
   element it compares below, and stops after the first one it does not.
   */
  function Insert(st: Central, x: Barcode, s: seq<Barcode>): (r: SortResult)
    requires st.Ready()
    decreases |s|
    ensures Follows(r.comparator, st)
    ensures multiset(r.items) == multiset(s) + multiset{x}
  {
    if |s| == 0 then SortResult([x], st)
    else
      var last := s[|s| - 1];
      var init := s[..|s| - 1];
      assert s == init + [last];
      CompareFixedState(st, x, last);
      var cmp := CompareFixed(st, x, last);
      if cmp.order < 0 then
        var r := Insert(cmp.next, x, init);
        SortResult(r.items + [last], r.comparator)
      else SortResult(s + [x], cmp.next)
  }

  /**
   Inserting adds `x` to the boxed count, and the comparator's centre is
   fixed afterwards exactly when it was before or `x` met a boxed barcode.
   */
  lemma {:induction false} InsertFixesCentre(st: Central, x: Barcode, s: seq<Barcode>)
    requires st.Ready()
    decreases |s|
    ensures var r := Insert(st, x, s);
            && Boxed(r.items) == Boxed(s) + (if x.boundingBox.Some? then 1 else 0)
            && r.comparator.centre ==
                 if st.centre.Some? || (x.boundingBox.Some? && Boxed(s) > 0) then Some(st.UsedCentre()) else None
  {
    if |s| == 0 {
      BoxedSnoc([], x);
      assert [] + [x] == [x];
    } else {
      var last := s[|s| - 1];
      var init := s[..|s| - 1];
      assert s == init + [last];
      BoxedSnoc(init, last);
      CompareFixedState(st, x, last);
      var cmp := CompareFixed(st, x, last);
      if cmp.order < 0 {
        InsertFixesCentre(cmp.next, x, init);
        BoxedSnoc(Insert(cmp.next, x, init).items, last);
      } else {
        BoxedSnoc(s, x);
      }
    }
  }

  /** Appending an element that ranks at least as high as every element keeps the order. */
  lemma SortedAppend(c: Point, s: seq<Barcode>, y: Barcode)
    requires SortedByRank(c, s)
    requires forall i :: 0 <= i < |s| ==> Rank(c, s[i]) <= Rank(c, y)
    ensures SortedByRank(c, s + [y])
  {
    var t := s + [y];
    forall i, j | 0 <= i < j < |t| ensures Rank(c, t[i]) <= Rank(c, t[j]) {
      if j < |s| {
        assert t[i] == s[i] && t[j] == s[j];
      } else {
        assert t[i] == s[i] && t[j] == y;
      }
    }
  }

  /** The last element of a rank-sorted sequence ranks highest, and its prefix stays sorted. */
  lemma SortedSplit(c: Point, s: seq<Barcode>)
    requires |s| > 0 && SortedByRank(c, s)
    ensures SortedByRank(c, s[..|s| - 1])
    ensures forall i :: 0 <= i < |s| ==> Rank(c, s[i]) <= Rank(c, s[|s| - 1])
  {
    var init := s[..|s| - 1];
    forall i, j | 0 <= i < j < |init| ensures Rank(c, init[i]) <= Rank(c, init[j]) {
      assert init[i] == s[i] && init[j] == s[j];
    }
  }

  /** Inserting into a rank-sorted sequence keeps it rank-sorted. */
  lemma {:induction false} InsertKeepsSorted(st: Central, x: Barcode, s: seq<Barcode>)
    requires st.Ready()
    requires SortedByRank(st.UsedCentre(), s)
    ensures SortedByRank(st.UsedCentre(), Insert(st, x, s).items)
    decreases |s|
  {
    var c := st.UsedCentre();
    if |s| == 0 {
      assert Insert(st, x, s).items == [x];
    } else {
      var last := s[|s| - 1];
      var init := s[..|s| - 1];
      assert s == init + [last];
      SortedSplit(c, s);
      CompareFixedNext(st, x, last);
      var cmp := CompareFixed(st, x, last);
      if cmp.order < 0 {
        InsertKeepsSorted(cmp.next, x, init);
        var r := Insert(cmp.next, x, init);
        assert Insert(st, x, s).items == r.items + [last];
        forall i | 0 <= i < |r.items| ensures Rank(c, r.items[i]) <= Rank(c, last) {
          var y := r.items[i];
          assert y in multiset(r.items);
          assert y in multiset(init) + multiset{x};
          if y != x {
            assert y in init;
          }
        }
        SortedAppend(c, r.items, last);
      } else {
        assert Insert(st, x, s).items == s + [x];
        SortedAppend(c, s, x);
      }
    }
  }

  /** The run of rank `k` in `s + [y]` is the run in `s`, extended by `y` when `y` has rank `k`. */
  lemma RankFilterSnoc(c: Point, s: seq<Barcode>, y: Barcode, k: int)
    ensures RankFilter(c, s + [y], k) == RankFilter(c, s, k) + RunOf(c, y, k)
  {
    assert (s + [y])[..|s + [y]| - 1] == s;
  }

  /** `x` in its own run or not, as a sequence of at most one element. */
  function RunOf(c: Point, x: Barcode, k: int): (r: seq<Barcode>)
    ensures |r| <= 1
    ensures r == [x] <==> Rank(c, x) == k
  {
    if Rank(c, x) == k then [x] else []
  }

  /**
   Passing over an element of strictly higher rank does not reorder any
   run: the two cannot share one.
   */
  lemma {:induction false} RunsPastHigher(c: Point, x: Barcode, s: seq<Barcode>, moved: seq<Barcode>, k: int)
    requires |s| > 0 && Rank(c, x) < Rank(c, s[|s| - 1])
    requires RankFilter(c, moved, k) == RankFilter(c, s[..|s| - 1], k) + RunOf(c, x, k)
    ensures RankFilter(c, moved + [s[|s| - 1]], k) == RankFilter(c, s, k) + RunOf(c, x, k)
  {
    var last := s[|s| - 1];
    RankFilterSnoc(c, moved, last, k);
    assert RunOf(c, x, k) == [] || RunOf(c, last, k) == [];
    assert RunOf(c, x, k) + RunOf(c, last, k) == RunOf(c, last, k) + RunOf(c, x, k);
  }

  /** Inserting `x` appends it to the run of its rank and leaves every other run alone. */
  lemma {:induction false} InsertAppendsToRun(st: Central, x: Barcode, s: seq<Barcode>, k: int)
    requires st.Ready()
    ensures RankFilter(st.UsedCentre(), Insert(st, x, s).items, k) ==
              RankFilter(st.UsedCentre(), s, k) + RunOf(st.UsedCentre(), x, k)
    decreases |s|
  {
    var c := st.UsedCentre();
    if |s| == 0 {
      RankFilterSnoc(c, [], x, k);
      assert [] + [x] == [x];
    } else {
      var last := s[|s| - 1];
      var init := s[..|s| - 1];
      CompareFixedNext(st, x, last);
      var cmp := CompareFixed(st, x, last);
      if cmp.order < 0 {
        InsertAppendsToRun(cmp.next, x, init, k);
        var r := Insert(cmp.next, x, init);
        assert Insert(st, x, s).items == r.items + [last];
        RunsPastHigher(c, x, s, r.items, k);
      } else {
        assert Insert(st, x, s).items == s + [x];
        RankFilterSnoc(c, s, x, k);
      }
    }
  }

  /** `sortedWith(comparator)`: insert each element in turn into the sorted prefix. */
  function Sort(st: Central, xs: seq<Barcode>): (r: SortResult)
    requires st.Ready()
    ensures Follows(r.comparator, st)
    ensures multiset(r.items) == multiset(xs)
    ensures Boxed(r.items) == Boxed(xs)
    ensures r.comparator.centre ==
              if st.centre.Some? || Boxed(xs) >= 2 then Some(st.UsedCentre()) else None
  {
    if |xs| == 0 then SortResult([], st)
    else
      var init := xs[..|xs| - 1];
      assert xs == init + [xs[|xs| - 1]];
      var p := Sort(st, init);
      InsertFixesCentre(p.comparator, xs[|xs| - 1], p.items);
      Insert(p.comparator, xs[|xs| - 1], p.items)
  }

  /** The sort's output is in ascending comparator order. */
  lemma {:induction false} SortIsSorted(st: Central, xs: seq<Barcode>)
    requires st.Ready()
    ensures SortedByRank(st.UsedCentre(), Sort(st, xs).items)
  {
    if |xs| > 0 {
      var init := xs[..|xs| - 1];
      SortIsSorted(st, init);
      var p := Sort(st, init);
      InsertKeepsSorted(p.comparator, xs[|xs| - 1], p.items);
    }
  }

  /** The sort is stable: barcodes of equal rank keep their input order. */
  lemma {:induction false} SortIsStable(st: Central, xs: seq<Barcode>, k: int)
    requires st.Ready()
    ensures RankFilter(st.UsedCentre(), Sort(st, xs).items, k) == RankFilter(st.UsedCentre(), xs, k)
  {
    if |xs| > 0 {
      var init := xs[..|xs| - 1];
      SortIsStable(st, init, k);
      var p := Sort(st, init);
      InsertAppendsToRun(p.comparator, xs[|xs| - 1], p.items, k);
    }
  }

  // ---------------------------------------------------------------------
  // An application comparator
  // ---------------------------------------------------------------------

  /**
   The processor's `barcodesSort`. The library's own comparator carries its
   state. An application comparator is code outside the library, known here
   by an id; the order it imposes is given to each sort as a rank function,
   `compare(a, b) < 0` holding exactly when `a` has the lower rank.
   */
  datatype Sorter = CentralSort(central: Central) | CustomSort(id: nat)

  /** Non-decreasing in `key`. */
  predicate SortedByKey(key: Barcode -> int, s: seq<Barcode>) {
    forall i, j :: 0 <= i < j < |s| ==> key(s[i]) <= key(s[j])
  }

  /** The barcodes whose key is `k`, in their order in `s`. */
  function KeyFilter(key: Barcode -> int, s: seq<Barcode>, k: int): seq<Barcode> {
    if |s| == 0 then []
    else KeyFilter(key, s[..|s| - 1], k) + (if key(s[|s| - 1]) == k then [s[|s| - 1]] else [])
  }

  /** The centre-distance rank as a key. */
  function RankKey(c: Point): Barcode -> int {
    b => Rank(c, b)
  }

  /** `Insert` for a comparator given by its key: scan from the end, stop after the first element `x` does not precede. */
  function KeyInsert(key: Barcode -> int, x: Barcode, s: seq<Barcode>): (r: seq<Barcode>)
    decreases |s|
    ensures multiset(r) == multiset(s) + multiset{x}
  {
    if |s| == 0 then [x]
    else
      var init := s[..|s| - 1];
      assert s == init + [s[|s| - 1]];
      if key(x) < key(s[|s| - 1]) then KeyInsert(key, x, init) + [s[|s| - 1]]
      else s + [x]
  }

  /** `sortedWith` under an application comparator. */
  function KeySort(key: Barcode -> int, xs: seq<Barcode>): (r: seq<Barcode>)
    ensures multiset(r) == multiset(xs)
  {
    if |xs| == 0 then []
    else
      var init := xs[..|xs| - 1];
      assert xs == init + [xs[|xs| - 1]];
      KeyInsert(key, xs[|xs| - 1], KeySort(key, init))
  }

  lemma KeySortedAppend(key: Barcode -> int, s: seq<Barcode>, y: Barcode)
    requires SortedByKey(key, s)
    requires forall i :: 0 <= i < |s| ==> key(s[i]) <= key(y)
    ensures SortedByKey(key, s + [y])
  {
    var t := s + [y];
    forall i, j | 0 <= i < j < |t| ensures key(t[i]) <= key(t[j]) {
      assert t[i] == s[i];
      if j < |s| {
        assert t[j] == s[j];
      }
    }
  }

  /** Inserting into a key-sorted sequence keeps it key-sorted. */
  lemma {:induction false} KeyInsertKeepsSorted(key: Barcode -> int, x: Barcode, s: seq<Barcode>)
    requires SortedByKey(key, s)
    ensures SortedByKey(key, KeyInsert(key, x, s))
    decreases |s|
  {
    if |s| > 0 {
      var last := s[|s| - 1];
      var init := s[..|s| - 1];
      assert SortedByKey(key, init) by {
        forall i, j | 0 <= i < j < |init| ensures key(init[i]) <= key(init[j]) {
          assert init[i] == s[i] && init[j] == s[j];
        }
      }
      if key(x) < key(last) {
        KeyInsertKeepsSorted(key, x, init);
        var r := KeyInsert(key, x, init);
        forall i | 0 <= i < |r| ensures key(r[i]) <= key(last) {
          var y := r[i];
          assert y in multiset(r);
          assert y in multiset(init) + multiset{x};
          if y != x {
            assert y in init;
            var m :| 0 <= m < |init| && init[m] == y;
            assert s[m] == y;
          }
        }
        KeySortedAppend(key, r, last);
      } else {
        forall i | 0 <= i < |s| ensures key(s[i]) <= key(x) {
          assert key(s[i]) <= key(last);
        }
        KeySortedAppend(key, s, x);
      }
    }
  }

  /** Inserting `x` appends it to the run of its key and leaves every other run alone. */
  lemma {:induction false} KeyInsertAppendsToRun(key: Barcode -> int, x: Barcode, s: seq<Barcode>, k: int)
    ensures KeyFilter(key, KeyInsert(key, x, s), k) == KeyFilter(key, s, k) + KeyFilter(key, [x], k)
    decreases |s|
  {
    var one := KeyFilter(key, [x], k);
    assert [x][..0] == [];
    if |s| == 0 {
      assert KeyInsert(key, x, s) == [x];
    } else {
      var last := s[|s| - 1];
      var init := s[..|s| - 1];
      if key(x) < key(last) {
        KeyInsertAppendsToRun(key, x, init, k);
        var r := KeyInsert(key, x, init);
        assert (r + [last])[..|r|] == r;
        var lastRun := if key(last) == k then [last] else [];
        assert one == [] || lastRun == [];
        assert one + lastRun == lastRun + one;
      } else {
        assert (s + [x])[..|s|] == s;
      }
    }
  }

  /** The application comparator's sort ascends in its key. */
  lemma {:induction false} KeySortIsSorted(key: Barcode -> int, xs: seq<Barcode>)
    ensures SortedByKey(key, KeySort(key, xs))
  {
    if |xs| > 0 {
      KeySortIsSorted(key, xs[..|xs| - 1]);
      KeyInsertKeepsSorted(key, xs[|xs| - 1], KeySort(key, xs[..|xs| - 1]));
    }
  }

  /** The application comparator's sort is stable: equal keys keep their input order. */
  lemma {:induction false} KeySortIsStable(key: Barcode -> int, xs: seq<Barcode>, k: int)
    ensures KeyFilter(key, KeySort(key, xs), k) == KeyFilter(key, xs, k)
  {
    if |xs| > 0 {
      var init := xs[..|xs| - 1];
      KeySortIsStable(key, init, k);
      KeyInsertAppendsToRun(key, xs[|xs| - 1], KeySort(key, init), k);
      assert [xs[|xs| - 1]][..0] == [];
    }
  }

  /** The centre-distance insertion places `x` where the keyed insertion by its rank does. */
  lemma {:induction false} InsertIsKeyInsert(st: Central, x: Barcode, s: seq<Barcode>)
    requires st.Ready()
    ensures Insert(st, x, s).items == KeyInsert(RankKey(st.UsedCentre()), x, s)
    decreases |s|
  {
    if |s| > 0 {
      var last := s[|s| - 1];
      CompareFixedNext(st, x, last);
      var cmp := CompareFixed(st, x, last);
      if cmp.order < 0 {
        InsertIsKeyInsert(cmp.next, x, s[..|s| - 1]);
      }
    }
  }

  /**
   The centre-distance sort is the keyed sort by rank from the centre used:
   the comparator's state changes nothing in the order.
   */
  lemma {:induction false} SortIsKeySort(st: Central, xs: seq<Barcode>)
    requires st.Ready()
    ensures Sort(st, xs).items == KeySort(RankKey(st.UsedCentre()), xs)
  {
    if |xs| > 0 {
      var init := xs[..|xs| - 1];
      SortIsKeySort(st, init);
      var p := Sort(st, init);
      InsertIsKeyInsert(p.comparator, xs[|xs| - 1], p.items);
    }
  }
}
