/** What an accepted cut preserves, and how cuts combine. */
module CutProperties {
  import opened Arithmetic
  import opened CutLayers

  // ---- layer types ----

  lemma ShiftKeepsType(index: nat, lo: nat, interval: nat)
    requires interval > 0 && lo <= index && lo % interval == 0
    ensures FullAttention(index - lo, interval) <==> FullAttention(index, interval)
  {
    var q := lo / interval;
    assert lo == q * interval;
    ModShift(index - lo + 1, q, interval);
  }

  /** A cut that the source's declared types and the cut-point check accept: every kept
      ordinary layer's type, re-derived from its new number, is its type in the source. */
  lemma AcceptedCutKeepsTypes(a: Artifact, c: Cut, types: seq<string>, index: nat)
    requires CutAccepted(a, c) && a.interval > 0 && |types| == a.NLayer() && TypesFollowRule(types, a.interval)
    requires index < a.NLayer() && c.Keeps(index)
    ensures c.Lo() <= index
    ensures FullAttention(index - c.Lo(), a.interval) <==> types[index] == "full_attention"
  {
    assert c.Lo() % a.interval == 0;
    ShiftKeepsType(index, c.Lo(), a.interval);
  }

  /** Conversely, the multiple is needed: over any run of at least `interval` kept layers,
      all types survive exactly when the run starts at a multiple of the interval. */
  lemma TypesSurviveIffMultiple(lo: nat, count: nat, interval: nat)
    requires interval >= 2 && count >= interval
    ensures lo % interval == 0
       <==> forall index :: lo <= index < lo + count ==>
              (FullAttention(index - lo, interval) <==> FullAttention(index, interval))
  {
    if lo % interval == 0 {
      forall index | lo <= index < lo + count
        ensures FullAttention(index - lo, interval) <==> FullAttention(index, interval)
      {
        ShiftKeepsType(index, lo, interval);
      }
    } else {
      // the layer that ends the first interval of the artifact is full there, not in the source
      var index := lo + interval - 1;
      ModStep(lo, interval);
      assert index + 1 == lo + interval && (index + 1) % interval == lo % interval;
      QuotientUnique(interval, interval, 1, 0);
      assert FullAttention(index - lo, interval) && !FullAttention(index, interval);
    }
  }

  // ---- what is kept ----

  lemma KeptContains(c: Cut, ts: seq<Tensor>, t: Tensor)
    requires t in ts
    ensures forall u :: u in Renamed(c, t) ==> u in Kept(c, ts)
    decreases |ts|
  {
    var init, last := ts[..|ts| - 1], ts[|ts| - 1];
    if t in init {
      KeptContains(c, init, t);
    } else {
      assert t == last;
    }
  }

  lemma {:induction false} KeptFrom(c: Cut, ts: seq<Tensor>, u: Tensor) returns (t: Tensor)
    requires u in Kept(c, ts)
    ensures t in ts && u in Renamed(c, t)
    decreases |ts|
  {
    var init, last := ts[..|ts| - 1], ts[|ts| - 1];
    if u in Kept(c, init) {
      t := KeptFrom(c, init, u);
    } else {
      t := last;
    }
  }

  /** A required block tensor of an accepted cut exists under the name llama.cpp looks for. */
  lemma RequiredUnderNewName(a: Artifact, c: Cut, local: nat, suffix: string)
    requires CutAccepted(a, c) && RequiredAccepted(a, c) && RequiredApplies(a)
    requires c.Lo() + local < RequiredHi(a, c) && suffix in RequiredSuffixes(local, a.interval)
    ensures HasBlock(Apply(a, c).tensors, local, suffix)
  {
    var index := c.Lo() + local;
    assert HasRequired(a, c, index);
    assert HasBlock(a.tensors, index, suffix);
    var t :| t in a.tensors && t.Block? && t.index == index && t.suffix == suffix;
    KeptContains(c, a.tensors, t);
    assert Renamed(c, t) == [t.(index := local)];
    assert t.(index := local) in Kept(c, a.tensors);
  }

  lemma RequiredGlobalsKept(a: Artifact, c: Cut, name: string)
    requires RequiredAccepted(a, c) && RequiredApplies(a) && name in REQUIRED_GLOBAL
    ensures HasGlobal(Apply(a, c).tensors, name)
  {
    var t :| t in a.tensors && t.Global? && t.name == name;
    KeptContains(c, a.tensors, t);
    assert t in Renamed(c, t);
  }

  // ---- MTP blocks ----

  /** Either every MTP block survives and the count is unchanged, or none does and it is
      zero; the declared blocks less the MTP count are exactly the kept ordinary layers. */
  lemma MtpAllOrNone(a: Artifact, c: Cut)
    requires CutAccepted(a, c)
    ensures var w := Apply(a, c);
            || (w.nextn == a.nextn && (forall index :: a.NLayer() <= index < a.blockCount ==> c.Keeps(index)))
            || (w.nextn == 0 && (forall index :: a.NLayer() <= index < a.blockCount ==> !c.Keeps(index)))
    ensures var w := Apply(a, c);
            w.NLayer() == (if c.Hi(a.blockCount) < a.NLayer() then c.Hi(a.blockCount) else a.NLayer()) - c.Lo()
  {
  }

  /** The projection of the metadata onto the kept block range, as the manifest records it. */
  function ProjectedNextn(a: Artifact, start: nat, end: nat): int {
    if a.nextn == 0 then 0
    else
      var firstMtp := a.blockCount - a.nextn;
      var from := if start < firstMtp then firstMtp else start;
      if end - from < 0 then 0 else end - from
  }

  function Projected(f: Field, start: nat, end: nat): Field
    requires start <= end && (f.PerLayer? ==> end <= |f.values|)
  {
    match f
    case Scalar(_, _) => f
    case PerLayer(kind, values) => PerLayer(kind, values[start..end])
  }

  /** An accepted cut passes its own manifest check: the two ways of computing the written
      metadata, in the writer and in the projection, agree. */
  lemma ManifestAgrees(a: Artifact, c: Cut)
    requires Accepted(a, c)
    ensures var w, start := Apply(a, c), c.Lo();
            && w.nextn == ProjectedNextn(a, start, start + w.blockCount)
            && forall i :: 0 <= i < |a.fields| && (a.fields[i].Scalar? || !a.fields[i].kind.RecurrentLayers?) ==>
                 && (a.fields[i].PerLayer? ==> start + w.blockCount <= |a.fields[i].values|)
                 && w.fields[i] == Projected(a.fields[i], start, start + w.blockCount)
  {
    forall i | 0 <= i < |a.fields| ensures FieldAccepted(a, c, a.fields[i]) {}
  }

  /** A limit of the code: it slices every per-layer list up to the block count, but a list
      of recurrent layers is only as long as the ordinary layers. So a tail cut of a source
      that has both MTP blocks and such a list is refused, whatever the cut point. Exactly: */
  lemma TailWithRecurrentList(a: Artifact, k: nat, values: seq<int>)
    requires CutAccepted(a, Tail(k)) && |values| == a.NLayer()
    ensures FieldAccepted(a, Tail(k), PerLayer(RecurrentLayers, values)) <==> a.nextn == 0
  {
  }

  const TYPES := PerLayer(RecurrentLayers, [1, 0, 1, 0])

  /** Four ordinary layers with a type for each of them, and any number of MTP blocks. */
  function FourLayers(nextn: nat, tensors: seq<Tensor>): Artifact {
    Artifact("qwen35", 4 + nextn, nextn, 2, tensors, [TYPES])
  }

  /** For instance: whatever the tensors, a tail cut at layer 2 passes the cut-point check, and
      with an MTP block it is refused though the required tensors be there. */
  lemma TailIsRefused(nextn: nat, tensors: seq<Tensor>)
    requires nextn > 0 && RequiredAccepted(FourLayers(nextn, tensors), Tail(2))
    ensures var a := FourLayers(nextn, tensors);
            && a.NLayer() == 4 && CutAccepted(a, Tail(2))
            && !FieldAccepted(a, Tail(2), TYPES) && !Accepted(a, Tail(2))
  {
    var a := FourLayers(nextn, tensors);
    TailWithRecurrentList(a, 2, TYPES.values);
    assert a.fields[0] == TYPES;
  }

  /** The same source and cut without the MTP blocks. */
  lemma TailIsAccepted(nextn: nat, tensors: seq<Tensor>)
    requires RequiredAccepted(FourLayers(nextn, tensors), Tail(2))
    ensures FourLayers(0, tensors).NLayer() == 4 && Accepted(FourLayers(0, tensors), Tail(2))
  {
    var a := FourLayers(0, tensors);
    TailWithRecurrentList(a, 2, TYPES.values);
    assert forall index: nat :: HasRequired(FourLayers(nextn, tensors), Tail(2), index) <==>
                                HasRequired(a, Tail(2), index);
  }

  // ---- partition ----

  ghost predicate NumberedUpTo(ts: seq<Tensor>, n: nat) {
    && (forall t :: t in ts && t.Block? ==> t.index < n)
    && (forall index :: 0 <= index < n ==> HasNumber(ts, index))
  }

  ghost predicate HasNumber(ts: seq<Tensor>, index: nat) {
    exists t :: t in ts && t.Block? && t.index == index
  }

  /** The blocks of a cut artifact are numbered exactly 0 up to its declared block count. */
  lemma KeptIsNumbered(a: Artifact, c: Cut)
    requires CutAccepted(a, c) && NumberedUpTo(a.tensors, a.blockCount)
    ensures NumberedUpTo(Apply(a, c).tensors, Apply(a, c).blockCount)
  {
    var w := Apply(a, c);
    forall u | u in w.tensors && u.Block? ensures u.index < w.blockCount {
      var t := KeptFrom(c, a.tensors, u);
    }
    forall index | 0 <= index < w.blockCount ensures HasNumber(w.tensors, index) {
      assert HasNumber(a.tensors, index + c.Lo());
      var t :| t in a.tensors && t.Block? && t.index == index + c.Lo();
      KeptContains(c, a.tensors, t);
      assert t.(index := index) in Renamed(c, t);
    }
  }

  function BlockOf(t: Tensor): multiset<Tensor> {
    if t.Block? then multiset{t} else multiset{}
  }

  function Blocks(ts: seq<Tensor>): multiset<Tensor>
    decreases |ts|
  {
    if ts == [] then multiset{} else Blocks(ts[..|ts| - 1]) + BlockOf(ts[|ts| - 1])
  }

  function GlobalOf(t: Tensor): seq<Tensor> {
    if t.Global? then [t] else []
  }

  function Globals(ts: seq<Tensor>): seq<Tensor>
    decreases |ts|
  {
    if ts == [] then [] else Globals(ts[..|ts| - 1]) + GlobalOf(ts[|ts| - 1])
  }

  function Back(c: Cut, t: Tensor): multiset<Tensor> {
    if t.Block? then multiset{t.(index := t.index + c.Lo())} else multiset{}
  }

  /** The block tensors of an artifact under their numbers in the source. */
  function Restored(c: Cut, ts: seq<Tensor>): multiset<Tensor>
    decreases |ts|
  {
    if ts == [] then multiset{} else Restored(c, ts[..|ts| - 1]) + Back(c, ts[|ts| - 1])
  }

  lemma KeptAppend(c: Cut, ts: seq<Tensor>, t: Tensor)
    ensures Kept(c, ts + [t]) == Kept(c, ts) + Renamed(c, t)
  {
    assert (ts + [t])[..|ts|] == ts;
  }

  lemma RestoredAppend(c: Cut, ts: seq<Tensor>, u: Tensor)
    ensures Restored(c, ts + [u]) == Restored(c, ts) + Back(c, u)
  {
    assert (ts + [u])[..|ts|] == ts;
  }

  lemma GlobalsAppend(ts: seq<Tensor>, u: Tensor)
    ensures Globals(ts + [u]) == Globals(ts) + GlobalOf(u)
  {
    assert (ts + [u])[..|ts|] == ts;
  }

  /** The part of a source tensor that a cut keeps, restored. */
  function Share(c: Cut, t: Tensor): multiset<Tensor> {
    if t.Block? && c.Keeps(t.index) then multiset{t} else multiset{}
  }

  lemma RenamedBack(c: Cut, t: Tensor)
    ensures Renamed(c, t) == [] ==> Share(c, t) == multiset{}
    ensures Renamed(c, t) != [] ==> Renamed(c, t) == [Renamed(c, t)[0]] && Back(c, Renamed(c, t)[0]) == Share(c, t)
  {
    if t.Block? && c.Keeps(t.index) {
      assert t.(index := t.index - c.Lo()).(index := t.index - c.Lo() + c.Lo()) == t;
    }
  }

  lemma OneMoreRestored(c: Cut, ts: seq<Tensor>, t: Tensor)
    ensures Restored(c, Kept(c, ts + [t])) == Restored(c, Kept(c, ts)) + Share(c, t)
  {
    KeptAppend(c, ts, t);
    RenamedBack(c, t);
    if Renamed(c, t) == [] {
      assert Kept(c, ts) + Renamed(c, t) == Kept(c, ts);
    } else {
      RestoredAppend(c, Kept(c, ts), Renamed(c, t)[0]);
    }
  }

  lemma OneMoreGlobals(c: Cut, ts: seq<Tensor>, t: Tensor)
    ensures Globals(Kept(c, ts + [t])) == Globals(Kept(c, ts)) + GlobalOf(t)
  {
    KeptAppend(c, ts, t);
    if Renamed(c, t) == [] {
      assert Kept(c, ts) + Renamed(c, t) == Kept(c, ts);
    } else {
      var u := Renamed(c, t)[0];
      assert Renamed(c, t) == [u];
      GlobalsAppend(Kept(c, ts), u);
    }
  }

  lemma SharesAddUp(n: nat, m: nat, t: Tensor)
    requires n <= m
    ensures Share(Head(n), t) + Share(Middle(n, m), t) + Share(Tail(m), t) == BlockOf(t)
  {
    if t.Block? {
      ExactlyOneKeeps(n, m, t.index);
    }
  }

  lemma {:induction false} GlobalsKept(c: Cut, ts: seq<Tensor>)
    ensures Globals(Kept(c, ts)) == Globals(ts)
    decreases |ts|
  {
    if ts != [] {
      var init, t := ts[..|ts| - 1], ts[|ts| - 1];
      assert ts == init + [t];
      GlobalsKept(c, init);
      OneMoreGlobals(c, init, t);
      GlobalsAppend(init, t);
    }
  }

  lemma ExactlyOneKeeps(n: nat, m: nat, index: nat)
    requires n <= m
    ensures Head(n).Keeps(index) ==> !Middle(n, m).Keeps(index) && !Tail(m).Keeps(index)
    ensures Middle(n, m).Keeps(index) ==> !Tail(m).Keeps(index)
    ensures Head(n).Keeps(index) || Middle(n, m).Keeps(index) || Tail(m).Keeps(index)
  {
  }

  /** Head, middle and tail at the same two cut points partition the source: put back under
      their source numbers, their block tensors are exactly the source's, each once. */
  lemma {:induction false} Partition(ts: seq<Tensor>, n: nat, m: nat)
    requires n <= m
    ensures Restored(Head(n), Kept(Head(n), ts)) + Restored(Middle(n, m), Kept(Middle(n, m), ts))
          + Restored(Tail(m), Kept(Tail(m), ts)) == Blocks(ts)
    decreases |ts|
  {
    if ts != [] {
      var init, t := ts[..|ts| - 1], ts[|ts| - 1];
      assert ts == init + [t];
      Partition(init, n, m);
      SharesAddUp(n, m, t);
      OneMoreRestored(Head(n), init, t);
      OneMoreRestored(Middle(n, m), init, t);
      OneMoreRestored(Tail(m), init, t);
      Interleave(Restored(Head(n), Kept(Head(n), init)), Restored(Middle(n, m), Kept(Middle(n, m), init)),
                 Restored(Tail(m), Kept(Tail(m), init)), Share(Head(n), t), Share(Middle(n, m), t), Share(Tail(m), t));
    }
  }

  lemma Interleave(a: multiset<Tensor>, b: multiset<Tensor>, c: multiset<Tensor>,
                   x: multiset<Tensor>, y: multiset<Tensor>, z: multiset<Tensor>)
    ensures (a + x) + (b + y) + (c + z) == (a + b + c) + (x + y + z)
  {
  }

  // ---- composition ----

  /** The one cut that two cuts in a row amount to. */
  function Composed(first: Cut, second: Cut): Cut {
    match (first, second)
    case (Head(_), Head(n)) => Head(n)
    case (Head(n), Tail(k)) => Middle(k, n)
    case (Head(_), Middle(k, end)) => Middle(k, end)
    case (Tail(k), Head(n)) => Middle(k, k + n)
    case (Tail(k), Tail(j)) => Tail(k + j)
    case (Tail(k), Middle(j, end)) => Middle(k + j, k + end)
    case (Middle(k, _), Head(n)) => Middle(k, k + n)
    case (Middle(k, end), Tail(j)) => Middle(k + j, end)
    case (Middle(k, _), Middle(j, end)) => Middle(k + j, k + end)
  }

  lemma MultipleSum(a: nat, b: nat, interval: nat)
    requires Multiple(a, interval) && Multiple(b, interval)
    ensures Multiple(a + b, interval)
  {
    if interval > 0 {
      Exact(a, interval);
      ModShift(b, a / interval, interval);
    }
  }

  lemma MultipleDifference(a: nat, b: nat, interval: nat)
    requires Multiple(a, interval) && Multiple(b, interval) && b <= a
    ensures Multiple(a - b, interval)
  {
    if interval > 0 {
      Exact(b, interval);
      ModShift(a - b, b / interval, interval);
    }
  }

  /** The part of a cut's check that does not concern the interval. */
  predicate InRange(c: Cut, layers: nat) {
    match c
    case Head(n) => 0 < n < layers
    case Tail(k) => 0 < k < layers
    case Middle(k, end) => 0 < k < layers && k < end <= layers
  }

  /** Where a cut ends, if it does before the source's end. */
  function EndOf(c: Cut): nat {
    match c
    case Head(n) => n
    case Tail(_) => 0
    case Middle(_, end) => end
  }

  predicate OnInterval(c: Cut, interval: nat) {
    Multiple(c.Lo(), interval) && Multiple(EndOf(c), interval)
  }

  lemma AcceptedIs(a: Artifact, c: Cut)
    ensures CutAccepted(a, c) <==> InRange(c, a.NLayer()) && OnInterval(c, a.interval)
  {
    assert Multiple(0, a.interval);
    if c.Middle? && InRange(c, a.NLayer()) && OnInterval(c, a.interval) {
      MultipleDifference(c.end, c.k, a.interval);
    }
  }

  lemma ComposedInRange(first: Cut, second: Cut, layers: nat)
    requires InRange(first, layers) && InRange(second, first.KeptBlockCount(layers))
    ensures InRange(Composed(first, second), layers)
    ensures Composed(first, second).Lo() == first.Lo() + second.Lo()
    ensures EndOf(Composed(first, second)) ==
            if second.Tail? then EndOf(first) else first.Lo() + EndOf(second)
  {
  }

  lemma ComposedCutAccepted(a: Artifact, first: Cut, second: Cut)
    requires CutAccepted(a, first) && CutAccepted(Apply(a, first), second)
    ensures CutAccepted(a, Composed(first, second))
    ensures InRange(first, a.blockCount) && InRange(second, first.KeptBlockCount(a.blockCount))
  {
    AcceptedIs(a, first);
    AcceptedIs(Apply(a, first), second);
    ComposedInRange(first, second, a.blockCount);
    MultipleSum(first.Lo(), second.Lo(), a.interval);
    MultipleSum(first.Lo(), EndOf(second), a.interval);
    AcceptedIs(a, Composed(first, second));
  }

  lemma KeptOne(c: Cut, t: Tensor)
    ensures Kept(c, [t]) == Renamed(c, t)
  {
    assert [] + [t] == [t];
    KeptAppend(c, [], t);
  }

  lemma RenamedTwice(first: Cut, second: Cut, layers: nat, t: Tensor)
    requires InRange(first, layers) && InRange(second, first.KeptBlockCount(layers))
    ensures Kept(second, Renamed(first, t)) == Renamed(Composed(first, second), t)
  {
    if t.Global? {
      KeptOne(second, t);
    } else if first.Keeps(t.index) {
      KeptOne(second, t.(index := t.index - first.Lo()));
    }
  }

  lemma {:induction false} KeptConcat(c: Cut, a: seq<Tensor>, b: seq<Tensor>)
    ensures Kept(c, a + b) == Kept(c, a) + Kept(c, b)
    decreases |b|
  {
    if b == [] {
      assert a + b == a;
    } else {
      var init, last := b[..|b| - 1], b[|b| - 1];
      assert a + b == (a + init) + [last];
      KeptConcat(c, a, init);
      KeptAppend(c, a + init, last);
    }
  }

  lemma {:induction false} KeptTwice(a: Artifact, first: Cut, second: Cut, ts: seq<Tensor>)
    requires CutAccepted(a, first) && CutAccepted(Apply(a, first), second)
    ensures Kept(second, Kept(first, ts)) == Kept(Composed(first, second), ts)
    decreases |ts|
  {
    if ts != [] {
      var init, t := ts[..|ts| - 1], ts[|ts| - 1];
      KeptTwice(a, first, second, init);
      KeptConcat(second, Kept(first, init), Renamed(first, t));
      ComposedCutAccepted(a, first, second);
      RenamedTwice(first, second, a.blockCount, t);
    }
  }

  lemma FieldTwice(a: Artifact, first: Cut, second: Cut, f: Field)
    requires CutAccepted(a, first) && CutAccepted(Apply(a, first), second)
    requires FieldAccepted(a, first, f) && FieldAccepted(Apply(a, first), second, CutField(a, first, f))
    ensures FieldAccepted(a, Composed(first, second), f)
    ensures CutField(Apply(a, first), second, CutField(a, first, f)) == CutField(a, Composed(first, second), f)
  {
    if f.PerLayer? {
      var w := Apply(a, first);
      HiComposed(a, first, second);
      SliceTwice(f.values, first.Lo(), first.Hi(a.blockCount), second.Lo(), second.Hi(w.blockCount));
    }
  }

  lemma SliceTwice(values: seq<int>, lo: nat, hi: nat, lo2: nat, hi2: nat)
    requires lo <= hi <= |values| && lo2 <= hi2 <= hi - lo
    ensures Slice(Slice(values, lo, hi), lo2, hi2) == Slice(values, lo + lo2, lo + hi2)
  {
    var once := values[lo..hi];
    assert Slice(values, lo, hi) == once;
    assert |once[lo2..hi2]| == |values[lo + lo2..lo + hi2]|;
    forall i | 0 <= i < hi2 - lo2 ensures once[lo2..hi2][i] == values[lo + lo2..lo + hi2][i] {
      assert once[lo2 + i] == values[lo + (lo2 + i)];
    }
  }

  lemma HiComposed(a: Artifact, first: Cut, second: Cut)
    requires CutAccepted(a, first) && CutAccepted(Apply(a, first), second)
    ensures var w, both := Apply(a, first), Composed(first, second);
            && both.Lo() == first.Lo() + second.Lo()
            && both.Hi(a.blockCount) == first.Lo() + second.Hi(w.blockCount)
            && second.Hi(w.blockCount) <= w.blockCount == first.Hi(a.blockCount) - first.Lo()
            && first.Hi(a.blockCount) <= a.blockCount
  {
  }

  lemma RequiredTwice(a: Artifact, first: Cut, second: Cut)
    requires CutAccepted(a, first) && CutAccepted(Apply(a, first), second)
    requires RequiredAccepted(a, first) && RequiredAccepted(Apply(a, first), second)
    ensures RequiredAccepted(a, Composed(first, second))
  {
    var both := Composed(first, second);
    if RequiredApplies(a) {
      forall index | both.Lo() <= index < RequiredHi(a, both) ensures HasRequired(a, both, index) {
        assert HasRequired(a, first, index);
        if RequiredInterval(a.interval) == 1 {
          RequiredEverywhere(a, first, both, index);
        } else {
          SecondApplies(a, first);
          assert HasRequired(Apply(a, first), second, index - first.Lo());
          RequiredBySecond(a, first, second, index);
        }
      }
    }
  }

  /** When every layer has full attention the requirement does not depend on the cut. */
  lemma RequiredEverywhere(a: Artifact, first: Cut, both: Cut, index: nat)
    requires first.Lo() <= both.Lo() <= index && RequiredInterval(a.interval) == 1
    requires HasRequired(a, first, index)
    ensures HasRequired(a, both, index)
  {
    assert FullAttention(index - both.Lo(), 1) && FullAttention(index - first.Lo(), 1);
  }

  lemma RequiredBySecond(a: Artifact, first: Cut, second: Cut, index: nat)
    requires first.Lo() + second.Lo() <= index && Composed(first, second).Lo() == first.Lo() + second.Lo()
    requires HasRequired(Apply(a, first), second, index - first.Lo())
    ensures HasRequired(a, Composed(first, second), index)
  {
    var w, local := Apply(a, first), index - first.Lo();
    forall s | s in RequiredSuffixes(local - second.Lo(), a.interval) ensures HasBlock(a.tensors, index, s) {
      assert HasBlock(w.tensors, local, s);
      var u :| u in w.tensors && u.Block? && u.index == local && u.suffix == s;
      var t := KeptFrom(first, a.tensors, u);
    }
  }

  /** The first cut's artifact starts with a linear layer, so the check still applies to it. */
  lemma SecondApplies(a: Artifact, first: Cut)
    requires CutAccepted(a, first) && RequiredAccepted(a, first) && RequiredApplies(a)
               && RequiredInterval(a.interval) > 1
    ensures RequiredApplies(Apply(a, first))
  {
    forall s | s in REQUIRED_LINEAR ensures HasBlock(Apply(a, first).tensors, 0, s) {
      assert HasRequired(a, first, first.Lo());
      assert !FullAttention(0, RequiredInterval(a.interval));
      RequiredUnderNewName(a, first, 0, s);
    }
  }

  /** Cuts compose: any two accepted cuts in a row write the very artifact of one combined cut,
      tensor list, names, per-layer lists and MTP count included, and that combined cut is
      itself accepted. */
  lemma CutsCompose(a: Artifact, first: Cut, second: Cut)
    requires Accepted(a, first) && Accepted(Apply(a, first), second)
    ensures Accepted(a, Composed(first, second))
    ensures Apply(Apply(a, first), second) == Apply(a, Composed(first, second))
  {
    ComposedCutAccepted(a, first, second);
    KeptTwice(a, first, second, a.tensors);
    RequiredTwice(a, first, second);
    var w := Apply(a, first);
    forall i | 0 <= i < |a.fields|
      ensures FieldAccepted(a, Composed(first, second), a.fields[i])
      ensures CutFields(w, second, w.fields)[i] == CutFields(a, Composed(first, second), a.fields)[i]
    {
      assert FieldAccepted(w, second, w.fields[i]);
      FieldTwice(a, first, second, a.fields[i]);
    }
  }
}
