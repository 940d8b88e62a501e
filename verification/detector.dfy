/**
 The detector handle the two barcode processors hold
 (`processor/BarcodeImageProcessor.kt`, `processor/BarcodeProcessorSingle.kt`):
 the options a format list becomes, and the rule that assigning a new
 format list builds a new handle and closes the one it replaces.
 */
module Detector {
  import opened Common

  /**
   The detector options a builder produces: `AllFormats` when no format was
   passed (the builder's default), otherwise the first format and the rest,
   as the variadic `setBarcodeFormats(first, vararg rest)` receives them.
   */
  datatype DetectorOptions = AllFormats | Restricted(first: int, rest: seq<int>)

  /** `createScanner()` / `createDetector()`: split the format list for the builder. */
  function CreateOptions(formats: seq<int>): (o: DetectorOptions)
    ensures o.AllFormats? <==> |formats| == 0
    ensures o.Restricted? ==> o.first == formats[0] && o.rest == formats[1..]
    ensures |formats| == 1 ==> o == Restricted(formats[0], [])
  {
    if |formats| > 1 then Restricted(formats[0], formats[1..])
    else if |formats| == 1 then Restricted(formats[0], [])
    else AllFormats
  }

  /** The formats a set of options restricts detection to; none means all. */
  function FormatsOf(o: DetectorOptions): seq<int> {
    match o
    case AllFormats => []
    case Restricted(first, rest) => [first] + rest
  }

  /** No format is lost or reordered by the split, and every option value is reachable. */
  lemma OptionsRoundTrip(formats: seq<int>, o: DetectorOptions)
    ensures FormatsOf(CreateOptions(formats)) == formats
    ensures CreateOptions(FormatsOf(o)) == o
  {
    if |formats| > 0 {
      assert [formats[0]] + formats[1..] == formats;
    }
    if o.Restricted? {
      assert ([o.first] + o.rest)[1..] == o.rest;
    }
  }

  /** A detector client, numbered in creation order. */
  datatype Handle = Handle(id: nat, options: DetectorOptions)

  /** The current handle and the number the next one will get. */
  datatype Holder = Holder(current: Handle, nextId: nat) {
    predicate Valid() { current.id + 1 == nextId }
  }

  datatype Action =
    | CreateDetector(handle: Handle)
    | CloseDetector(id: nat)
    | Publish(barcodes: seq<Barcode>)

  datatype HolderStep = HolderStep(holder: Holder, actions: seq<Action>)

  /** The property initialiser: build the first handle; nothing is closed. */
  function Init(formats: seq<int>): (st: HolderStep)
    ensures st.holder.Valid() && st.holder.current == Handle(0, CreateOptions(formats))
    ensures st.actions == [CreateDetector(st.holder.current)]
  {
    var h := Handle(0, CreateOptions(formats));
    HolderStep(Holder(h, 1), [CreateDetector(h)])
  }

  /**
   The `formats` setter: the new handle is built first, then the handle
   setter closes the previous one and installs the new one.
   */
  function Rebuild(h: Holder, formats: seq<int>): (st: HolderStep)
    requires h.Valid()
    ensures st.holder.Valid() && st.holder.nextId == h.nextId + 1
    ensures st.holder.current == Handle(h.nextId, CreateOptions(formats))
    ensures st.actions == [CreateDetector(st.holder.current), CloseDetector(h.current.id)]
  {
    var built := Handle(h.nextId, CreateOptions(formats));
    HolderStep(Holder(built, h.nextId + 1), [CreateDetector(built), CloseDetector(h.current.id)])
  }

  function Creations(actions: seq<Action>, id: nat): nat {
    if |actions| == 0 then 0
    else Creations(actions[..|actions| - 1], id)
         + (if actions[|actions| - 1].CreateDetector? && actions[|actions| - 1].handle.id == id then 1 else 0)
  }

  function Closes(actions: seq<Action>, id: nat): nat {
    if |actions| == 0 then 0
    else Closes(actions[..|actions| - 1], id)
         + (if actions[|actions| - 1] == CloseDetector(id) then 1 else 0)
  }

  lemma {:induction false} CountsAppend(a: seq<Action>, b: seq<Action>, id: nat)
    ensures Creations(a + b, id) == Creations(a, id) + Creations(b, id)
    ensures Closes(a + b, id) == Closes(a, id) + Closes(b, id)
    decreases |b|
  {
    if |b| == 0 {
      assert a + b == a;
    } else {
      assert (a + b)[..|a + b| - 1] == a + b[..|b| - 1];
      CountsAppend(a, b[..|b| - 1], id);
    }
  }

  /** One rebuild creates the new handle and closes the old one, nothing else. */
  lemma RebuildCounts(h: Holder, formats: seq<int>, id: nat)
    requires h.Valid()
    ensures Creations(Rebuild(h, formats).actions, id) == (if id == h.nextId then 1 else 0)
    ensures Closes(Rebuild(h, formats).actions, id) == (if id == h.current.id then 1 else 0)
  {
    var two := Rebuild(h, formats).actions;
    assert two[..1] == [two[0]] && two[..1][..0] == [];
    assert Creations(two[..1][..0], id) == 0 && Closes(two[..1][..0], id) == 0;
    assert Creations(two[..1], id) == (if id == h.nextId then 1 else 0);
    assert Closes(two[..1], id) == 0;
  }

  /** The holder after initialising with `initial` and assigning each list of `updates` in turn. */
  function Run(initial: seq<int>, updates: seq<seq<int>>): (st: HolderStep)
    ensures st.holder.Valid()
    ensures st.holder.nextId == |updates| + 1
    ensures st.holder.current.options ==
              CreateOptions(if |updates| == 0 then initial else updates[|updates| - 1])
  {
    if |updates| == 0 then Init(initial)
    else
      var before := Run(initial, updates[..|updates| - 1]);
      var after := Rebuild(before.holder, updates[|updates| - 1]);
      HolderStep(after.holder, before.actions + after.actions)
  }

  /**
   Over any sequence of format assignments every handle is created exactly
   once, every replaced handle is closed exactly once, the current one is
   not closed, and nothing else is touched.
   */
  lemma {:induction false} EveryReplacedHandleClosedOnce(initial: seq<int>, updates: seq<seq<int>>, id: nat)
    ensures var st := Run(initial, updates);
            && (id < st.holder.nextId ==> Creations(st.actions, id) == 1)
            && (id < st.holder.nextId && id != st.holder.current.id ==> Closes(st.actions, id) == 1)
            && Closes(st.actions, st.holder.current.id) == 0
            && (id >= st.holder.nextId ==> Creations(st.actions, id) == 0 && Closes(st.actions, id) == 0)
  {
    var st := Run(initial, updates);
    if |updates| == 0 {
      var acts := st.actions;
      assert acts[..0] == [];
    } else {
      var before := Run(initial, updates[..|updates| - 1]);
      var after := Rebuild(before.holder, updates[|updates| - 1]);
      EveryReplacedHandleClosedOnce(initial, updates[..|updates| - 1], id);
      EveryReplacedHandleClosedOnce(initial, updates[..|updates| - 1], st.holder.current.id);
      CountsAppend(before.actions, after.actions, id);
      CountsAppend(before.actions, after.actions, st.holder.current.id);
      RebuildCounts(before.holder, updates[|updates| - 1], id);
      RebuildCounts(before.holder, updates[|updates| - 1], st.holder.current.id);
    }
  }
}
