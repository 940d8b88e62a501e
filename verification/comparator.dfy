/**
 The centre-distance comparator (`processor/sort/CentralBarcodeComparator.kt`).

 A barcode without a bounding box always compares greater; between two
 boxed barcodes the one whose box centre is nearer the frame centre
 compares greater, so an ascending sort puts the most central barcode last.
 The frame centre is computed once, on the first comparison that needs it,
 from the frame metadata assigned at that time.

 Distances are compared through their squares: the source takes a square
 root of a sum of squares, which is monotone, so the order is the same.
 */
module CentralComparator {
  import opened Common

  /** `Rect.centerX()/centerY()` as a point. */
  function BoxCentre(box: Rect): Point {
    Point(box.CenterX(), box.CenterY())
  }

  /** Squared Euclidean distance between two points. */
  function DistSq(p: Point, q: Point): (d: int)
    ensures d >= 0
    ensures d == 0 <==> p == q
  {
    (p.x - q.x) * (p.x - q.x) + (p.y - q.y) * (p.y - q.y)
  }

  /** The lazily computed frame centre: half the width and height, truncated. */
  function FrameCentre(m: FrameMetadata): (c: Point)
    ensures m.width >= 0 && m.height >= 0 ==> 0 <= 2 * c.x <= m.width && 0 <= 2 * c.y <= m.height
    ensures m.width >= 0 && m.height >= 0 ==> m.width - 1 <= 2 * c.x && m.height - 1 <= 2 * c.y
  {
    Point(KotlinDiv(m.width, 2), KotlinDiv(m.height, 2))
  }

  /**
   The comparator's state: the `lateinit` frame metadata and the lazily
   fixed centre.
   */
  datatype Central = Central(frameMetadata: Option<FrameMetadata>, centre: Option<Point>) {
    /** A comparison of two boxed barcodes can proceed. */
    predicate Ready() { centre.Some? || frameMetadata.Some? }

    /** The centre the next boxed comparison measures against. */
    function UsedCentre(): Point
      requires Ready()
    {
      if centre.Some? then centre.value else FrameCentre(frameMetadata.value)
    }
  }

  function NewCentral(): (st: Central)
    ensures !st.Ready()
  {
    Central(None, None)
  }

  /**
   Assigning `frameMetadata`. Once the centre has been computed a new
   frame does not move it.
   */
  function SetFrameMetadata(st: Central, m: FrameMetadata): (r: Central)
    ensures r.Ready() && r.frameMetadata == Some(m)
    ensures st.centre.Some? ==> r.UsedCentre() == st.UsedCentre()
    ensures st.centre.None? ==> r.UsedCentre() == FrameCentre(m)
  {
    st.(frameMetadata := Some(m))
  }

  function Sign(x: int): (s: int)
    ensures -1 <= s <= 1
    ensures s < 0 <==> x < 0
    ensures s == 0 <==> x == 0
  {
    if x < 0 then -1 else if x > 0 then 1 else 0
  }

  /**
   A comparison's result and the comparator afterwards, or the
   uninitialised-property failure of reading `frameMetadata` before it was
   ever assigned.
   */
  datatype Comparison = Compared(order: int, next: Central) | NotInitialised

  /** `compare(o1, o2)` as written. */
  function Compare(st: Central, a: Barcode, b: Barcode): (r: Comparison)
    ensures r.NotInitialised? <==> a.boundingBox.Some? && b.boundingBox.Some? && !st.Ready()
    ensures r.Compared? ==> -1 <= r.order <= 1
    ensures a.boundingBox.None? ==> r == Compared(1, st)
    ensures a.boundingBox.Some? && b.boundingBox.None? ==> r == Compared(-1, st)
    ensures a.boundingBox.Some? && b.boundingBox.Some? && st.Ready() ==>
              var c := st.UsedCentre();
              var da := DistSq(BoxCentre(a.boundingBox.value), c);
              var db := DistSq(BoxCentre(b.boundingBox.value), c);
              && r.Compared?
              && r.next == st.(centre := Some(c))
              && (r.order > 0 <==> da < db)
              && (r.order < 0 <==> db < da)
  {
    if a.boundingBox.None? then Compared(1, st)
    else if b.boundingBox.None? then Compared(-1, st)
    else if !st.Ready() then NotInitialised
    else
      var c := st.UsedCentre();
      var da := DistSq(BoxCentre(a.boundingBox.value), c);
      var db := DistSq(BoxCentre(b.boundingBox.value), c);
      Compared(Sign(da - db) * -1, st.(centre := Some(c)))
  }

  /**
   The key the comparator orders by: boxless barcodes rank above every
   boxed one, boxed ones rank higher the nearer they are to `c`.
   */
  function Rank(c: Point, b: Barcode): int {
    if b.boundingBox.None? then 1 else -DistSq(BoxCentre(b.boundingBox.value), c)
  }

  /**
   The `< 0` test agrees with comparing ranks, for every pair, boxed or
   not; and no comparison moves the centre it measures from.
   */
  lemma CompareLessMatchesRank(st: Central, a: Barcode, b: Barcode)
    requires st.Ready()
    ensures Compare(st, a, b).Compared?
    ensures Compare(st, a, b).order < 0 <==> Rank(st.UsedCentre(), a) < Rank(st.UsedCentre(), b)
    ensures Compare(st, a, b).next.Ready() && Compare(st, a, b).next.UsedCentre() == st.UsedCentre()
    ensures Compare(st, a, b).next.frameMetadata == st.frameMetadata
  {
  }

  /** Two boxless barcodes each compare greater than the other. */
  lemma BoxlessPairNotAntisymmetric(st: Central, a: Barcode, b: Barcode)
    requires a.boundingBox.None? && b.boundingBox.None?
    ensures Compare(st, a, b).order == 1 && Compare(st, b, a).order == 1
    ensures Sign(Compare(st, a, b).order) != -Sign(Compare(st, b, a).order)
  {
  }

  /**
   `compare` with the two-boxless case answering 0, which makes it the
   comparison of ranks and so a total preorder.
   */
  function CompareFixed(st: Central, a: Barcode, b: Barcode): (r: Comparison)
    ensures r.NotInitialised? <==> a.boundingBox.Some? && b.boundingBox.Some? && !st.Ready()
    ensures a.boundingBox.None? && b.boundingBox.None? ==> r == Compared(0, st)
  {
    if a.boundingBox.None? && b.boundingBox.None? then Compared(0, st)
    else Compare(st, a, b)
  }

  /** The corrected comparator is exactly the comparison of ranks, hence antisymmetric. */
  lemma CompareFixedIsRankOrder(st: Central, a: Barcode, b: Barcode)
    requires st.Ready()
    ensures CompareFixed(st, a, b).Compared?
    ensures CompareFixed(st, a, b).order == Sign(Rank(st.UsedCentre(), a) - Rank(st.UsedCentre(), b))
    ensures CompareFixed(st, a, b).order == -CompareFixed(st, b, a).order
  {
  }

  /**
   The as-written and the corrected comparator differ only in the sign of
   a two-boxless comparison: the `< 0` test and the state after agree.
   */
  lemma CorrectionKeepsLessTest(st: Central, a: Barcode, b: Barcode)
    ensures Compare(st, a, b).NotInitialised? <==> CompareFixed(st, a, b).NotInitialised?
    ensures Compare(st, a, b).Compared? ==>
              && (Compare(st, a, b).order < 0 <==> CompareFixed(st, a, b).order < 0)
              && Compare(st, a, b).next == CompareFixed(st, a, b).next
    ensures !(a.boundingBox.None? && b.boundingBox.None?) ==> Compare(st, a, b) == CompareFixed(st, a, b)
  {
  }

  /**
   The first boxed comparison fixes the centre: a frame assigned afterwards
   does not move it.
   */
  lemma CentreFixedByFirstUse(st: Central, a: Barcode, b: Barcode, later: FrameMetadata)
    requires st.Ready() && a.boundingBox.Some? && b.boundingBox.Some?
    ensures SetFrameMetadata(Compare(st, a, b).next, later).UsedCentre() == st.UsedCentre()
  {
  }

  /**
   What a corrected comparison leaves behind: the frame metadata and the
   centre it measures from are unchanged, and the centre becomes fixed
   exactly when two boxed barcodes were compared.
   */
  lemma CompareFixedNext(st: Central, a: Barcode, b: Barcode)
    requires st.Ready()
    ensures CompareFixed(st, a, b).Compared?
    ensures CompareFixed(st, a, b).order < 0 <==> Rank(st.UsedCentre(), a) < Rank(st.UsedCentre(), b)
    ensures CompareFixed(st, a, b).next.frameMetadata == st.frameMetadata
    ensures CompareFixed(st, a, b).next.Ready()
    ensures CompareFixed(st, a, b).next.UsedCentre() == st.UsedCentre()
    ensures CompareFixed(st, a, b).next.centre ==
              if a.boundingBox.Some? && b.boundingBox.Some? then Some(st.UsedCentre()) else st.centre
  {
    CompareFixedState(st, a, b);
  }

  /** The state half of `CompareFixedNext`, without the ranks. */
  lemma CompareFixedState(st: Central, a: Barcode, b: Barcode)
    requires st.Ready()
    ensures CompareFixed(st, a, b).Compared?
    ensures CompareFixed(st, a, b).next.frameMetadata == st.frameMetadata
    ensures CompareFixed(st, a, b).next.Ready()
    ensures CompareFixed(st, a, b).next.UsedCentre() == st.UsedCentre()
    ensures CompareFixed(st, a, b).next.centre ==
              if a.boundingBox.Some? && b.boundingBox.Some? then Some(st.UsedCentre()) else st.centre
  {
  }

  /** The cases pinned by the comparator's tests, on a 200 x 200 frame. */
  lemma CompareExamples()
    ensures var st := SetFrameMetadata(NewCentral(), FrameMetadata(200, 200, 0, None));
            var near := Barcode("", Some(Rect(110, 110, 110, 110)));
            var mid := Barcode("", Some(Rect(150, 150, 150, 150)));
            var far := Barcode("", Some(Rect(200, 200, 200, 200)));
            var none := Barcode("", None);
            && Compare(st, mid, far).order > 0
            && Compare(st, mid, near).order < 0
            && Compare(st, mid, mid).order == 0
            && Compare(st, none, far).order > 0
            && Compare(st, mid, none).order < 0
  {
  }
}
