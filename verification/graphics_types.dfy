/** The adapter records the engine reports when it enumerates graphics adapters. */
module GraphicsTypes {

  /** Kind of a graphics adapter. The scan in adapter selection compares kinds by their
      declaration order, so Unknown ranks lowest and Discrete highest. */
  datatype AdapterType = Unknown | Software | Integrated | Discrete

  function Rank(t: AdapterType): nat
  {
    match t
    case Unknown => 0
    case Software => 1
    case Integrated => 2
    case Discrete => 3
  }

  /** The derived `>` on adapter types. */
  predicate Above(a: AdapterType, b: AdapterType)
  {
    Rank(a) > Rank(b)
  }

  /** Memory sizes of an adapter, in bytes. */
  datatype AdapterMemoryInfo = AdapterMemoryInfo(
    localMemory: nat,
    hostVisibleMemory: nat,
    unifiedMemory: nat)

  function TotalMemory(m: AdapterMemoryInfo): nat
  {
    m.localMemory + m.hostVisibleMemory + m.unifiedMemory
  }

  /** The part of an enumerated adapter's description that adapter selection looks at. */
  datatype GraphicsAdapterInfo = GraphicsAdapterInfo(
    description: string,
    adapterType: AdapterType,
    memory: AdapterMemoryInfo)

  /** True when some adapter in the list has type `t`. */
  predicate HasType(adapters: seq<GraphicsAdapterInfo>, t: AdapterType)
  {
    exists j :: 0 <= j < |adapters| && adapters[j].adapterType == t
  }

  /** The highest-ranked type among the first `n` adapters, Unknown when `n` is 0. */
  function MaxTypeUpTo(adapters: seq<GraphicsAdapterInfo>, n: nat): (t: AdapterType)
    requires n <= |adapters|
    ensures forall j :: 0 <= j < n ==> Rank(adapters[j].adapterType) <= Rank(t)
    ensures n > 0 ==> exists j :: 0 <= j < n && adapters[j].adapterType == t
    ensures n == 0 ==> t == Unknown
  {
    if n == 0 then Unknown
    else
      var m := MaxTypeUpTo(adapters, n - 1);
      if Above(adapters[n - 1].adapterType, m) then adapters[n - 1].adapterType else m
  }

  /** The highest-ranked adapter type in the list, Unknown when the list is empty. */
  function MaxType(adapters: seq<GraphicsAdapterInfo>): (t: AdapterType)
    ensures forall j :: 0 <= j < |adapters| ==> Rank(adapters[j].adapterType) <= Rank(t)
    ensures |adapters| > 0 ==> HasType(adapters, t)
    ensures |adapters| == 0 ==> t == Unknown
  {
    MaxTypeUpTo(adapters, |adapters|)
  }

  /** Two adapter lists that agree on everything except memory sizes and descriptions. */
  predicate SameTypes(a: seq<GraphicsAdapterInfo>, b: seq<GraphicsAdapterInfo>)
  {
    |a| == |b| && forall j :: 0 <= j < |a| ==> a[j].adapterType == b[j].adapterType
  }
}
