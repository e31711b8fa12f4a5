/** The self-contained logic of the sample application: adapter selection when the sample
    starts, the sync interval it presents with, and the width of its adapters window. */
module SampleApp {
  import opened Wrappers
  import opened NativeInts
  import opened GraphicsTypes
  import opened AdapterScan

  /** Position of the first adapter of type `t`, if any. */
  function FirstOfType(adapters: seq<GraphicsAdapterInfo>, t: AdapterType): (r: Option<nat>)
    ensures r.None? <==> !HasType(adapters, t)
    ensures r.Some? ==> r.value < |adapters| && adapters[r.value].adapterType == t
    ensures r.Some? ==> forall k :: 0 <= k < r.value ==> adapters[k].adapterType != t
  {
    if |adapters| == 0 then None
    else if adapters[0].adapterType == t then Some(0)
    else
      var rest := FirstOfType(adapters[1..], t);
      assert forall k :: 1 <= k < |adapters| ==> adapters[1..][k - 1] == adapters[k];
      match rest
      case None => None
      case Some(p) => Some(p + 1)
  }

  /** True when the caller's explicit index names one of the adapters. */
  predicate ValidIndex(index: Option<nat>, adapters: seq<GraphicsAdapterInfo>)
  {
    index.Some? && index.value < |adapters|
  }

  /** The first two stages: an explicit index that is in range wins; an out-of-range one is
      dropped, and then a requested type other than Unknown picks the first adapter of that type. */
  function Preselect(index: Option<nat>, requested: AdapterType, adapters: seq<GraphicsAdapterInfo>): (r: Option<nat>)
    ensures ValidIndex(index, adapters) ==> r == index
    ensures !ValidIndex(index, adapters) && requested == Unknown ==> r.None?
    ensures !ValidIndex(index, adapters) && requested != Unknown ==>
      (r.Some? <==> HasType(adapters, requested))
    ensures !ValidIndex(index, adapters) && r.Some? ==>
      r.value < |adapters| && adapters[r.value].adapterType == requested
      && forall k :: 0 <= k < r.value ==> adapters[k].adapterType != requested
  {
    if ValidIndex(index, adapters) then index
    else if requested != Unknown then FirstOfType(adapters, requested)
    else None
  }

  /** `find_adapter` as written: an explicit index in range, else the first adapter of the
      requested type, else the best-type scan. */
  function FindAdapter(index: Option<nat>, requested: AdapterType, adapters: seq<GraphicsAdapterInfo>): (r: Option<nat>)
    ensures r.None? <==> |adapters| == 0
    ensures r.Some? ==> r.value < |adapters|
    ensures ValidIndex(index, adapters) ==> r == index
    ensures !ValidIndex(index, adapters) && requested != Unknown && HasType(adapters, requested) ==>
      r.Some? && adapters[r.value].adapterType == requested
      && forall k :: 0 <= k < r.value ==> adapters[k].adapterType != requested
    ensures !ValidIndex(index, adapters) && (requested == Unknown || !HasType(adapters, requested)) ==>
      r == Scan(adapters) && (r.Some? ==> ScanRule(adapters, r.value))
  {
    match Preselect(index, requested, adapters)
    case Some(i) => Some(i)
    case None => Scan(adapters)
  }

  /** An explicit index at or beyond the end of the list is discarded, and selection proceeds
      exactly as if none had been given. */
  lemma InvalidIndexIsDiscarded(i: nat, requested: AdapterType, adapters: seq<GraphicsAdapterInfo>)
    requires i >= |adapters|
    ensures FindAdapter(Some(i), requested, adapters) == FindAdapter(None, requested, adapters)
  {
  }

  /** A requested type that no adapter has is dropped, and the best-type scan decides. */
  lemma MissingTypeFallsBackToScan(index: Option<nat>, requested: AdapterType, adapters: seq<GraphicsAdapterInfo>)
    requires !ValidIndex(index, adapters)
    requires !HasType(adapters, requested)
    ensures FindAdapter(index, requested, adapters) == FindAdapter(None, Unknown, adapters)
  {
  }

  /** Adapter selection never looks at memory sizes or descriptions. */
  lemma FindAdapterIgnoresMemory(index: Option<nat>, requested: AdapterType, a: seq<GraphicsAdapterInfo>, b: seq<GraphicsAdapterInfo>)
    requires SameTypes(a, b)
    ensures FindAdapter(index, requested, a) == FindAdapter(index, requested, b)
  {
    assert HasType(a, requested) <==> HasType(b, requested) by {
      if HasType(a, requested) {
        var j :| 0 <= j < |a| && a[j].adapterType == requested;
        assert b[j].adapterType == requested;
      }
      if HasType(b, requested) {
        var j :| 0 <= j < |b| && b[j].adapterType == requested;
        assert a[j].adapterType == requested;
      }
    }
    ScanIgnoresMemory(a, b);
  }

  /** `find_adapter` with the memory tie-break the scan's comment describes. */
  function FindAdapterIntended(index: Option<nat>, requested: AdapterType, adapters: seq<GraphicsAdapterInfo>): (r: Option<nat>)
    ensures r.None? <==> |adapters| == 0
    ensures ValidIndex(index, adapters) ==> r == index
    ensures !ValidIndex(index, adapters) && requested != Unknown && HasType(adapters, requested) ==>
      r == FirstOfType(adapters, requested)
    ensures !ValidIndex(index, adapters) && (requested == Unknown || !HasType(adapters, requested)) && r.Some? ==>
      r.value < |adapters| && adapters[r.value].adapterType == MaxType(adapters)
      && (forall j :: 0 <= j < |adapters| && adapters[j].adapterType == MaxType(adapters) ==>
            TotalMemory(adapters[j].memory) <= TotalMemory(adapters[r.value].memory))
      && (forall j :: 0 <= j < r.value && adapters[j].adapterType == MaxType(adapters) ==>
            TotalMemory(adapters[j].memory) < TotalMemory(adapters[r.value].memory))
  {
    match Preselect(index, requested, adapters)
    case Some(i) => Some(i)
    case None => ScanIntended(adapters)
  }

  /** The sync interval `present` passes to the swap chain. */
  function SyncInterval(vsync: bool): (r: u32)
    ensures r == 1 <==> vsync
    ensures r == 0 <==> !vsync
  {
    if vsync then 1 else 0
  }

  const ADAPTERS_WINDOW_MAX_WIDTH: u32 := 330

  /** Width of the adapters window: the swap chain's width, capped at 330. */
  function AdaptersWindowWidth(swapChainWidth: u32): (r: u32)
    ensures r <= swapChainWidth && r <= ADAPTERS_WINDOW_MAX_WIDTH
    ensures r == swapChainWidth || r == ADAPTERS_WINDOW_MAX_WIDTH
  {
    if swapChainWidth < ADAPTERS_WINDOW_MAX_WIDTH then swapChainWidth else ADAPTERS_WINDOW_MAX_WIDTH
  }
}
