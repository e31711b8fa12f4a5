/** The best-type scan of `find_adapter`, run when neither an explicit adapter index nor a
    requested adapter type has chosen an adapter. `Step` is one iteration of the loop over the
    enumerated adapters exactly as written; `ScanPrefix` is the loop's state after the first
    `n` iterations. */
module AdapterScan {
  import opened Wrappers
  import opened GraphicsTypes

  /** The loop's variables: the best type seen, the chosen index, the remembered adapter's
      memory and the remembered total. */
  datatype ScanState = ScanState(
    bestType: AdapterType,
    index: Option<nat>,
    currMem: Option<AdapterMemoryInfo>,
    currTotal: nat)

  const Start: ScanState := ScanState(Unknown, None, None, 0)

  /** One iteration, as written. On a higher type the remembered memory is kept. On an equal
      type with memory already remembered, the total compared against the stored total is the
      remembered adapter's own total, not the new adapter's. */
  function Step(s: ScanState, i: nat, a: GraphicsAdapterInfo): (r: ScanState)
    // the best type never decreases, and the index only ever moves to the current adapter
    ensures Rank(r.bestType) >= Rank(s.bestType)
    ensures r.index != s.index ==> r.index == Some(i) && r.bestType == a.adapterType
    // a higher type takes the index but keeps the memory remembered for a lower type
    ensures Above(a.adapterType, s.bestType) ==>
      r.index == Some(i) && r.bestType == a.adapterType && r.currMem == s.currMem && r.currTotal == s.currTotal
    // a lower type changes nothing
    ensures Rank(a.adapterType) < Rank(s.bestType) ==> r == s
    // an adapter of the best type met while nothing is remembered takes the index and is remembered
    ensures a.adapterType == s.bestType && s.currMem.None? ==> r.index == Some(i) && r.currMem == Some(a.memory)
    // with memory remembered, an adapter that is not of a higher type changes nothing
    ensures s.currMem.Some? && s.currTotal == TotalMemory(s.currMem.value) && !Above(a.adapterType, s.bestType) ==> r == s
  {
    if Above(a.adapterType, s.bestType) then
      s.(bestType := a.adapterType, index := Some(i))
    else if a.adapterType == s.bestType then
      match s.currMem
      case Some(m) =>
        var total := TotalMemory(m);
        if total > s.currTotal then
          s.(currMem := Some(a.memory), currTotal := total, index := Some(i))
        else
          s
      case None =>
        s.(currMem := Some(a.memory), currTotal := TotalMemory(a.memory), index := Some(i))
    else
      s
  }

  /** At most one adapter of type `t` comes before position `r`. */
  predicate AtMostOneBefore(adapters: seq<GraphicsAdapterInfo>, t: AdapterType, r: nat)
    requires r <= |adapters|
  {
    forall j, k :: 0 <= j < r && 0 <= k < r && adapters[j].adapterType == t && adapters[k].adapterType == t ==> j == k
  }

  /** The adapter at `j` has exactly the best type of the adapters before it, so the scan meets
      it on the equal-type branch. */
  predicate TiesBestBefore(adapters: seq<GraphicsAdapterInfo>, j: nat)
    requires j < |adapters|
  {
    adapters[j].adapterType == MaxTypeUpTo(adapters, j)
  }

  /** No adapter before position `n` ties the best type of the adapters before it, so the scan
      has not yet remembered any memory. */
  predicate NoTieBefore(adapters: seq<GraphicsAdapterInfo>, n: nat)
    requires n <= |adapters|
  {
    forall j :: 0 <= j < n ==> !TiesBestBefore(adapters, j)
  }

  lemma NoTieBeforeExtend(adapters: seq<GraphicsAdapterInfo>, n: nat)
    requires n < |adapters|
    ensures NoTieBefore(adapters, n + 1) <==> NoTieBefore(adapters, n) && !TiesBestBefore(adapters, n)
  {
  }

  /** The loop state after the first `n` adapters. */
  function ScanPrefix(adapters: seq<GraphicsAdapterInfo>, n: nat): (s: ScanState)
    requires n <= |adapters|
    // the stored total always is the remembered adapter's total
    ensures s.currMem.Some? ==> s.currTotal == TotalMemory(s.currMem.value)
    // an index is chosen as soon as one adapter has been seen, and it has the best type
    ensures s.index.None? <==> n == 0
    ensures s.index.Some? ==> s.index.value < n && adapters[s.index.value].adapterType == s.bestType
    ensures n == 0 ==> s == Start
  {
    if n == 0 then Start
    else
      Step(ScanPrefix(adapters, n - 1), n - 1, adapters[n - 1])
  }

  lemma ScanPrefixUnfold(adapters: seq<GraphicsAdapterInfo>, n: nat)
    requires 0 < n <= |adapters|
    ensures ScanPrefix(adapters, n) == Step(ScanPrefix(adapters, n - 1), n - 1, adapters[n - 1])
  {
  }

  /** The loop's best type is the highest type among the adapters seen so far. */
  lemma {:induction false} ScanPrefixBestIsMax(adapters: seq<GraphicsAdapterInfo>, n: nat)
    requires n <= |adapters|
    ensures ScanPrefix(adapters, n).bestType == MaxTypeUpTo(adapters, n)
  {
    if n > 0 {
      ScanPrefixBestIsMax(adapters, n - 1);
      ScanPrefixUnfold(adapters, n);
    }
  }

  /** At most one adapter of the best type precedes the chosen one, and until memory is
      remembered the chosen adapter is the only one of the best type. */
  lemma {:induction false} ScanPrefixAtMostOneBefore(adapters: seq<GraphicsAdapterInfo>, n: nat)
    requires n <= |adapters|
    ensures
      var s := ScanPrefix(adapters, n);
      s.index.Some? ==> AtMostOneBefore(adapters, s.bestType, s.index.value)
    ensures
      var s := ScanPrefix(adapters, n);
      s.currMem.None? ==> forall j :: 0 <= j < n && adapters[j].adapterType == s.bestType ==> s.index == Some(j)
  {
    if n > 0 {
      var i := n - 1;
      ScanPrefixUnfold(adapters, n);
      ScanPrefixBestIsMax(adapters, i);
      ScanPrefixBestIsMax(adapters, n);
      ScanPrefixAtMostOneBefore(adapters, i);
      var p, a := ScanPrefix(adapters, i), adapters[i];
      var s := ScanPrefix(adapters, n);
      if Above(a.adapterType, p.bestType) {
        // a new best type: no adapter before it has that type
        assert forall j :: 0 <= j < i ==> adapters[j].adapterType != s.bestType;
      } else if a.adapterType == p.bestType && p.currMem.None? {
        assert s.index == Some(i);
      } else {
        assert s == p;
      }
    }
  }

  /** Memory is remembered from the first adapter that ties the best type before it. */
  lemma {:induction false} ScanPrefixRemembersAtFirstTie(adapters: seq<GraphicsAdapterInfo>, n: nat)
    requires n <= |adapters|
    ensures ScanPrefix(adapters, n).currMem.None? <==> NoTieBefore(adapters, n)
  {
    if n > 0 {
      var i := n - 1;
      ScanPrefixUnfold(adapters, n);
      ScanPrefixBestIsMax(adapters, i);
      var p, a := ScanPrefix(adapters, i), adapters[i];
      var s := ScanPrefix(adapters, n);
      ScanPrefixRemembersAtFirstTie(adapters, i);
      NoTieBeforeExtend(adapters, i);
      var tie := TiesBestBefore(adapters, i);
      assert tie <==> a.adapterType == p.bestType;
      if p.currMem.Some? {
        assert s.currMem.Some?;
      } else if tie {
        assert s.currMem.Some?;
      } else {
        assert s.currMem.None?;
      }
    }
  }

  /** The loop holds the second adapter of the best type only when no tie came before it. */
  lemma {:induction false} ScanPrefixSecondOnlyWithoutTie(adapters: seq<GraphicsAdapterInfo>, n: nat)
    requires n <= |adapters|
    ensures
      var s := ScanPrefix(adapters, n);
      s.index.Some? && HasTypeBefore(adapters, s.bestType, s.index.value) ==> NoTieBefore(adapters, s.index.value)
  {
    if n > 0 {
      var i := n - 1;
      ScanPrefixUnfold(adapters, n);
      ScanPrefixSecondOnlyWithoutTie(adapters, i);
      var p, a := ScanPrefix(adapters, i), adapters[i];
      var s := ScanPrefix(adapters, n);
      if Above(a.adapterType, p.bestType) {
        // a new best type: no adapter before it has that type
        ScanPrefixBestIsMax(adapters, i);
        assert !HasTypeBefore(adapters, s.bestType, i);
      } else if a.adapterType == p.bestType && p.currMem.None? {
        // nothing remembered yet means no tie so far
        ScanPrefixRemembersAtFirstTie(adapters, i);
        assert s.index == Some(i);
      } else {
        assert s == p;
      }
    }
  }

  /** When the loop holds the first adapter of the best type, every later adapter of that type
      has a tie before it. */
  lemma {:induction false} ScanPrefixFirstOnlyAfterTie(adapters: seq<GraphicsAdapterInfo>, n: nat)
    requires n <= |adapters|
    ensures
      var s := ScanPrefix(adapters, n);
      s.index.Some? && !HasTypeBefore(adapters, s.bestType, s.index.value) ==>
        forall k :: s.index.value < k < n && adapters[k].adapterType == s.bestType ==> !NoTieBefore(adapters, k)
  {
    if n > 0 {
      var i := n - 1;
      ScanPrefixUnfold(adapters, n);
      ScanPrefixFirstOnlyAfterTie(adapters, i);
      var p, a := ScanPrefix(adapters, i), adapters[i];
      var s := ScanPrefix(adapters, n);
      if Above(a.adapterType, p.bestType) {
        assert s.index == Some(i);
      } else if a.adapterType == p.bestType && p.currMem.None? {
        // the index moves to this adapter, and the one it held has the same type
        assert s.index == Some(i);
        if i > 0 {
          assert adapters[p.index.value].adapterType == s.bestType;
          assert HasTypeBefore(adapters, s.bestType, i);
        }
      } else {
        assert s == p;
        if p.currMem.Some? && a.adapterType == p.bestType {
          ScanPrefixRemembersAtFirstTie(adapters, i);
          assert !NoTieBefore(adapters, i);
        }
      }
    }
  }

  /** Some adapter before position `r` has type `t`. */
  predicate HasTypeBefore(adapters: seq<GraphicsAdapterInfo>, t: AdapterType, r: nat)
    requires r <= |adapters|
  {
    exists k :: 0 <= k < r && adapters[k].adapterType == t
  }

  /** The scan's rule for the adapter at `r`: it has the maximum type; it is the second adapter
      of that type only when no adapter before it ties the best type of the adapters before it;
      and when it is the first, every later adapter of that type has such a tie before it. */
  predicate ScanRule(adapters: seq<GraphicsAdapterInfo>, r: nat)
  {
    var m := MaxType(adapters);
    && r < |adapters|
    && adapters[r].adapterType == m
    && AtMostOneBefore(adapters, m, r)
    && (HasTypeBefore(adapters, m, r) ==> NoTieBefore(adapters, r))
    && (!HasTypeBefore(adapters, m, r) ==>
          forall k :: r < k < |adapters| && adapters[k].adapterType == m ==> !NoTieBefore(adapters, k))
  }

  /** The index the scan leaves behind. */
  function Scan(adapters: seq<GraphicsAdapterInfo>): (r: Option<nat>)
    ensures r.None? <==> |adapters| == 0
    ensures r.Some? ==> ScanRule(adapters, r.value)
  {
    ScanPrefixBestIsMax(adapters, |adapters|);
    ScanPrefixAtMostOneBefore(adapters, |adapters|);
    ScanPrefixRemembersAtFirstTie(adapters, |adapters|);
    ScanPrefixSecondOnlyWithoutTie(adapters, |adapters|);
    ScanPrefixFirstOnlyAfterTie(adapters, |adapters|);
    ScanPrefix(adapters, |adapters|).index
  }

  /** The rule decides the scan completely: a position satisfies it exactly when the scan
      returns that position. */
  lemma ScanRuleIsScan(adapters: seq<GraphicsAdapterInfo>, r: nat)
    ensures ScanRule(adapters, r) <==> Scan(adapters) == Some(r)
  {
  }

  /** Two discrete adapters: the second is selected. */
  lemma ScanTwoDiscrete(m: AdapterMemoryInfo)
    ensures Scan([GraphicsAdapterInfo("", Discrete, m), GraphicsAdapterInfo("", Discrete, m)]) == Some(1)
  {
    var a := [GraphicsAdapterInfo("", Discrete, m), GraphicsAdapterInfo("", Discrete, m)];
    assert ScanPrefix(a, 1).currMem.None?;
  }

  /** Software, integrated, discrete, discrete: every adapter before the first discrete one
      raised the best type, so the second discrete one is selected. */
  lemma ScanRisingThenTwoDiscrete(m: AdapterMemoryInfo)
    ensures
      Scan([GraphicsAdapterInfo("", Software, m), GraphicsAdapterInfo("", Integrated, m),
            GraphicsAdapterInfo("", Discrete, m), GraphicsAdapterInfo("", Discrete, m)]) == Some(3)
  {
    var a := [GraphicsAdapterInfo("", Software, m), GraphicsAdapterInfo("", Integrated, m),
              GraphicsAdapterInfo("", Discrete, m), GraphicsAdapterInfo("", Discrete, m)];
    assert ScanPrefix(a, 1).currMem.None?;
    assert ScanPrefix(a, 2).currMem.None?;
    assert ScanPrefix(a, 3).currMem.None? && ScanPrefix(a, 3).index == Some(2);
  }

  /** Two software then two discrete adapters: the second software adapter ties and is
      remembered, so the first discrete adapter keeps the index. */
  lemma ScanEarlyTieKeepsFirstDiscrete(m: AdapterMemoryInfo)
    ensures
      Scan([GraphicsAdapterInfo("", Software, m), GraphicsAdapterInfo("", Software, m),
            GraphicsAdapterInfo("", Discrete, m), GraphicsAdapterInfo("", Discrete, m)]) == Some(2)
  {
    var a := [GraphicsAdapterInfo("", Software, m), GraphicsAdapterInfo("", Software, m),
              GraphicsAdapterInfo("", Discrete, m), GraphicsAdapterInfo("", Discrete, m)];
    assert ScanPrefix(a, 1).currMem.None?;
    assert ScanPrefix(a, 2).currMem.Some?;
    assert ScanPrefix(a, 3).index == Some(2) && ScanPrefix(a, 3).currMem.Some?;
  }

  /** Once an adapter's memory is remembered, a later adapter of the same best type never moves
      the index, and nothing else in the state changes either: memory sizes never decide. */
  lemma RememberedMemoryNeverMovesIndex(adapters: seq<GraphicsAdapterInfo>, n: nat)
    requires n < |adapters|
    requires ScanPrefix(adapters, n).currMem.Some?
    requires !Above(adapters[n].adapterType, ScanPrefix(adapters, n).bestType)
    ensures ScanPrefix(adapters, n + 1) == ScanPrefix(adapters, n)
  {
  }

  /** A higher type takes over the index but keeps the memory remembered for a lower type. */
  lemma HigherTypeKeepsRememberedMemory(adapters: seq<GraphicsAdapterInfo>, n: nat)
    requires n < |adapters|
    requires Above(adapters[n].adapterType, ScanPrefix(adapters, n).bestType)
    ensures ScanPrefix(adapters, n + 1).index == Some(n)
    ensures ScanPrefix(adapters, n + 1).bestType == adapters[n].adapterType
    ensures ScanPrefix(adapters, n + 1).currMem == ScanPrefix(adapters, n).currMem
  {
  }

  /** Two states that agree on everything but remembered memory sizes stay in agreement after
      one step over adapters of the same type. */
  lemma StepIgnoresMemory(sa: ScanState, sb: ScanState, i: nat, x: GraphicsAdapterInfo, y: GraphicsAdapterInfo)
    requires sa.bestType == sb.bestType && sa.index == sb.index && sa.currMem.Some? == sb.currMem.Some?
    requires sa.currMem.Some? ==> sa.currTotal == TotalMemory(sa.currMem.value)
    requires sb.currMem.Some? ==> sb.currTotal == TotalMemory(sb.currMem.value)
    requires x.adapterType == y.adapterType
    ensures Step(sa, i, x).bestType == Step(sb, i, y).bestType
    ensures Step(sa, i, x).index == Step(sb, i, y).index
    ensures Step(sa, i, x).currMem.Some? == Step(sb, i, y).currMem.Some?
  {
  }

  /** The scan's state depends on adapter types only: memory sizes and descriptions never
      change the chosen index. */
  lemma {:induction false} ScanPrefixIgnoresMemory(a: seq<GraphicsAdapterInfo>, b: seq<GraphicsAdapterInfo>, n: nat)
    requires SameTypes(a, b)
    requires n <= |a|
    ensures ScanPrefix(a, n).bestType == ScanPrefix(b, n).bestType
    ensures ScanPrefix(a, n).index == ScanPrefix(b, n).index
    ensures ScanPrefix(a, n).currMem.Some? == ScanPrefix(b, n).currMem.Some?
  {
    if n > 0 {
      var x, y := a[n - 1], b[n - 1];
      assert x.adapterType == y.adapterType;
      ScanPrefixIgnoresMemory(a, b, n - 1);
      var sa, sb := ScanPrefix(a, n - 1), ScanPrefix(b, n - 1);
      StepIgnoresMemory(sa, sb, n - 1, x, y);
      ScanPrefixUnfold(a, n);
      ScanPrefixUnfold(b, n);
    }
  }

  lemma ScanIgnoresMemory(a: seq<GraphicsAdapterInfo>, b: seq<GraphicsAdapterInfo>)
    requires SameTypes(a, b)
    ensures Scan(a) == Scan(b)
  {
    ScanPrefixIgnoresMemory(a, b, |a|);
  }

  // ---- the memory tie-break as evidently intended ----

  /** One iteration with the tie-break the loop's comment describes: a higher type resets the
      remembered memory to the new adapter's, and an equal type wins when its own total is
      larger than the stored total. */
  function StepIntended(s: ScanState, i: nat, a: GraphicsAdapterInfo): (r: ScanState)
    ensures Rank(r.bestType) >= Rank(s.bestType)
    ensures r.index != s.index ==> r.index == Some(i) && r.bestType == a.adapterType
    // the stored total stays the remembered adapter's total
    ensures r.currMem.Some? && r.currMem != s.currMem ==> r.currTotal == TotalMemory(r.currMem.value)
    // an adapter of the best type with strictly more memory takes the index
    ensures a.adapterType == s.bestType && s.currMem.Some? && TotalMemory(a.memory) > s.currTotal ==> r.index == Some(i)
    ensures a.adapterType == s.bestType && s.currMem.Some? && TotalMemory(a.memory) <= s.currTotal ==> r == s
    // a higher type, or the first adapter of the best type, is taken and its memory remembered
    ensures Above(a.adapterType, s.bestType) || (a.adapterType == s.bestType && s.currMem.None?) ==>
      r == ScanState(a.adapterType, Some(i), Some(a.memory), TotalMemory(a.memory))
    // a lower type changes nothing
    ensures Rank(a.adapterType) < Rank(s.bestType) ==> r == s
  {
    var newTotal := TotalMemory(a.memory);
    if Above(a.adapterType, s.bestType) then
      ScanState(a.adapterType, Some(i), Some(a.memory), newTotal)
    else if a.adapterType == s.bestType && (s.currMem.None? || newTotal > s.currTotal) then
      ScanState(s.bestType, Some(i), Some(a.memory), newTotal)
    else
      s
  }

  function ScanPrefixIntended(adapters: seq<GraphicsAdapterInfo>, n: nat): (s: ScanState)
    requires n <= |adapters|
    ensures s.bestType == MaxTypeUpTo(adapters, n)
    ensures forall j :: 0 <= j < n ==> Rank(adapters[j].adapterType) <= Rank(s.bestType)
    ensures s.index.None? <==> n == 0
    ensures s.currMem.Some? <==> n > 0
    ensures s.index.Some? ==>
      s.index.value < n
      && adapters[s.index.value].adapterType == s.bestType
      && s.currTotal == TotalMemory(adapters[s.index.value].memory)
    // the chosen adapter has the most memory of its type, and no earlier one has as much
    ensures forall j :: 0 <= j < n && adapters[j].adapterType == s.bestType ==> TotalMemory(adapters[j].memory) <= s.currTotal
    ensures s.index.Some? ==> forall j :: 0 <= j < s.index.value && adapters[j].adapterType == s.bestType ==> TotalMemory(adapters[j].memory) < s.currTotal
  {
    if n == 0 then Start
    else
      StepIntended(ScanPrefixIntended(adapters, n - 1), n - 1, adapters[n - 1])
  }

  /** The scan as intended: the highest type, then the most total memory, then the earliest. */
  function ScanIntended(adapters: seq<GraphicsAdapterInfo>): (r: Option<nat>)
    ensures r.None? <==> |adapters| == 0
    ensures r.Some? ==> r.value < |adapters| && adapters[r.value].adapterType == MaxType(adapters)
    ensures r.Some? ==> forall j :: 0 <= j < |adapters| && adapters[j].adapterType == MaxType(adapters) ==>
      TotalMemory(adapters[j].memory) <= TotalMemory(adapters[r.value].memory)
    ensures r.Some? ==> forall j :: 0 <= j < r.value && adapters[j].adapterType == MaxType(adapters) ==>
      TotalMemory(adapters[j].memory) < TotalMemory(adapters[r.value].memory)
  {
    ScanPrefixIntended(adapters, |adapters|).index
  }

  function Gib(n: nat): AdapterMemoryInfo
  {
    AdapterMemoryInfo(n * 0x4000_0000, 0, 0)
  }

  /** As written, two discrete adapters with 8 GiB and then 1 GiB of local memory select the
      second one, which has less memory; the intended scan selects the first. */
  lemma ScanPrefersLessMemory()
    ensures
      var adapters := [GraphicsAdapterInfo("big", Discrete, Gib(8)), GraphicsAdapterInfo("small", Discrete, Gib(1))];
      && Scan(adapters) == Some(1)
      && TotalMemory(adapters[1].memory) < TotalMemory(adapters[0].memory)
      && ScanIntended(adapters) == Some(0)
  {
    var adapters := [GraphicsAdapterInfo("big", Discrete, Gib(8)), GraphicsAdapterInfo("small", Discrete, Gib(1))];
    assert ScanPrefix(adapters, 1).currMem.None?;
    assert ScanPrefix(adapters, 2).index == Some(1);
  }

  /** As written, of three discrete adapters with 1, 2 and 8 GiB the second is selected, never
      the third, which has the most memory. */
  lemma ScanStopsAtSecondOfBestType()
    ensures
      var adapters := [GraphicsAdapterInfo("a", Discrete, Gib(1)), GraphicsAdapterInfo("b", Discrete, Gib(2)), GraphicsAdapterInfo("c", Discrete, Gib(8))];
      && Scan(adapters) == Some(1)
      && ScanIntended(adapters) == Some(2)
  {
    var adapters := [GraphicsAdapterInfo("a", Discrete, Gib(1)), GraphicsAdapterInfo("b", Discrete, Gib(2)), GraphicsAdapterInfo("c", Discrete, Gib(8))];
    assert ScanPrefix(adapters, 1).currMem.None?;
    assert ScanPrefix(adapters, 2).index == Some(1);
    assert ScanPrefix(adapters, 3).index == Some(1);
  }
}
