/** Cutting and relaying together: the layers an engine loads from cut artifacts are the
    source's own, so a relay over accepted cuts generates the source model's tokens. */
module RelayOfCuts {
  import opened CausalLayers
  import opened GreedyReference
  import opened CutLayers
  import opened CutProperties
  import opened MiddleChains
  import opened NativeContexts
  import opened RelayDriver
  import opened RelayRun
  import opened Results

  /** Everything an engine builds a layer from: its re-derived type, the tensors of its
      block and its entries in the per-layer lists. What it computes from them is free. */
  datatype LayerSource = LayerSource(full: bool, tensors: seq<(string, Data)>, settings: seq<(ArrayKind, int)>)

  type Builder = LayerSource -> Layer

  predicate TypeOf(a: Artifact, local: nat) {
    a.interval > 0 && FullAttention(local, a.interval)
  }

  function Named(t: Tensor, local: nat): seq<(string, Data)> {
    if t.Block? && t.index == local then [(t.suffix, t.data)] else []
  }

  function TensorsOf(ts: seq<Tensor>, local: nat): seq<(string, Data)>
    decreases |ts|
  {
    if ts == [] then [] else TensorsOf(ts[..|ts| - 1], local) + Named(ts[|ts| - 1], local)
  }

  function SettingOf(f: Field, local: nat): seq<(ArrayKind, int)> {
    match f
    case Scalar(kind, value) => [(kind, value)]
    case PerLayer(kind, values) => if local < |values| then [(kind, values[local])] else []
  }

  function SettingsOf(fs: seq<Field>, local: nat): seq<(ArrayKind, int)>
    decreases |fs|
  {
    if fs == [] then [] else SettingsOf(fs[..|fs| - 1], local) + SettingOf(fs[|fs| - 1], local)
  }

  function SourceOf(a: Artifact, local: nat): LayerSource {
    LayerSource(TypeOf(a, local), TensorsOf(a.tensors, local), SettingsOf(a.fields, local))
  }

  /** The ordinary layers an engine loads from an artifact. */
  function Loaded(a: Artifact, build: Builder): seq<Layer> {
    seq(a.NLayer(), local requires 0 <= local < a.NLayer() => LayerAt(a, build, local))
  }

  function LayerAt(a: Artifact, build: Builder, local: nat): Layer {
    build(SourceOf(a, local))
  }

  lemma {:induction false} KeptTensorsOf(c: Cut, ts: seq<Tensor>, local: nat)
    requires c.Keeps(c.Lo() + local)
    ensures TensorsOf(Kept(c, ts), local) == TensorsOf(ts, c.Lo() + local)
    decreases |ts|
  {
    if ts != [] {
      var init, t := ts[..|ts| - 1], ts[|ts| - 1];
      KeptTensorsOf(c, init, local);
      if Renamed(c, t) == [] {
        assert Kept(c, init) + [] == Kept(c, init);
        assert Named(t, c.Lo() + local) == [];
      } else {
        var u := Renamed(c, t)[0];
        assert Renamed(c, t) == [u];
        TensorsOfAppend(Kept(c, init), u, local);
      }
    }
  }

  lemma TensorsOfAppend(ts: seq<Tensor>, u: Tensor, local: nat)
    ensures TensorsOf(ts + [u], local) == TensorsOf(ts, local) + Named(u, local)
  {
    assert (ts + [u])[..|ts|] == ts;
  }

  lemma CutSettingOf(a: Artifact, c: Cut, f: Field, local: nat)
    requires FieldAccepted(a, c, f) && c.Lo() + local < c.Hi(a.blockCount) && c.Lo() + local < a.NLayer()
    ensures SettingOf(CutField(a, c, f), local) == SettingOf(f, c.Lo() + local)
  {
  }

  lemma SettingsOfAppend(fs: seq<Field>, f: Field, local: nat)
    ensures SettingsOf(fs + [f], local) == SettingsOf(fs, local) + SettingOf(f, local)
  {
    assert (fs + [f])[..|fs|] == fs;
  }

  lemma {:induction false} CutSettingsOf(a: Artifact, c: Cut, fs: seq<Field>, local: nat)
    requires forall i :: 0 <= i < |fs| ==> FieldAccepted(a, c, fs[i])
    requires c.Lo() + local < c.Hi(a.blockCount) && c.Lo() + local < a.NLayer()
    ensures SettingsOf(CutFields(a, c, fs), local) == SettingsOf(fs, c.Lo() + local)
    decreases |fs|
  {
    if fs == [] {
      assert CutFields(a, c, fs) == [];
    } else {
      var init, f := fs[..|fs| - 1], fs[|fs| - 1];
      assert CutFields(a, c, fs) == CutFields(a, c, init) + [CutField(a, c, f)];
      SettingsOfAppend(CutFields(a, c, init), CutField(a, c, f), local);
      CutSettingsOf(a, c, init, local);
      CutSettingOf(a, c, f, local);
    }
  }

  lemma SameType(a: Artifact, c: Cut, local: nat)
    requires CutAccepted(a, c)
    ensures TypeOf(Apply(a, c), local) == TypeOf(a, c.Lo() + local)
  {
    if a.interval > 0 {
      assert c.Lo() % a.interval == 0;
      ShiftKeepsType(c.Lo() + local, c.Lo(), a.interval);
    }
  }

  /** One past the last ordinary layer of the source that the cut keeps. */
  function LastOf(a: Artifact, c: Cut): nat {
    if c.Hi(a.blockCount) < a.NLayer() then c.Hi(a.blockCount) else a.NLayer()
  }

  lemma SameSource(a: Artifact, c: Cut, local: nat)
    requires Accepted(a, c) && c.Lo() + local < LastOf(a, c)
    ensures SourceOf(Apply(a, c), local) == SourceOf(a, c.Lo() + local)
  {
    SameType(a, c, local);
    KeptTensorsOf(c, a.tensors, local);
    CutSettingsOf(a, c, a.fields, local);
  }

  lemma KeptRange(a: Artifact, c: Cut)
    requires CutAccepted(a, c)
    ensures c.Lo() <= LastOf(a, c) <= a.NLayer() && Apply(a, c).NLayer() == LastOf(a, c) - c.Lo()
  {
    MtpAllOrNone(a, c);
  }

  /** An accepted cut loads exactly the source's ordinary layers of its range. */
  lemma LoadedIsSlice(a: Artifact, c: Cut, build: Builder)
    requires Accepted(a, c)
    ensures c.Lo() <= LastOf(a, c) <= a.NLayer()
    ensures Loaded(Apply(a, c), build) == Loaded(a, build)[c.Lo()..LastOf(a, c)]
  {
    KeptRange(a, c);
    forall local | 0 <= local < LastOf(a, c) - c.Lo()
      ensures LayerAt(Apply(a, c), build, local) == LayerAt(a, build, c.Lo() + local)
    {
      SameSource(a, c, local);
    }
  }

  /** Any accepted head, any number of accepted middles and an accepted tail that continue
      one another. */
  ghost predicate CutPoints(a: Artifact, points: seq<nat>) {
    && points != []
    && Accepted(a, Head(points[0]))
    && Accepted(a, Tail(points[|points| - 1]))
    && forall i :: 0 <= i < |points| - 1 ==> Accepted(a, Middle(points[i], points[i + 1]))
  }

  /** The layers the middle segments load, one after the other. */
  function MiddlesLoaded(a: Artifact, points: seq<nat>, build: Builder): seq<Layer>
    decreases |points|
  {
    if |points| <= 1 then []
    else
      var n := |points|;
      MiddlesLoaded(a, points[..n - 1], build) + Loaded(Apply(a, Middle(points[n - 2], points[n - 1])), build)
  }

  lemma {:induction false} MiddlesAreSlice(a: Artifact, points: seq<nat>, build: Builder)
    requires points != [] && points[0] <= a.NLayer()
    requires forall i :: 0 <= i < |points| - 1 ==> Accepted(a, Middle(points[i], points[i + 1]))
    ensures points[0] <= points[|points| - 1] <= a.NLayer()
    ensures MiddlesLoaded(a, points, build) == Loaded(a, build)[points[0]..points[|points| - 1]]
    decreases |points|
  {
    if |points| > 1 {
      var n := |points|;
      MiddlesAreSlice(a, points[..n - 1], build);
      assert Accepted(a, Middle(points[n - 2], points[n - 1]));
      LoadedIsSlice(a, Middle(points[n - 2], points[n - 1]), build);
    }
  }

  lemma ThreePieces(all: seq<Layer>, i: nat, j: nat)
    requires i <= j <= |all|
    ensures all[..i] + all[i..j] + all[j..] == all
  {
  }

  /** The segments cut at any accepted points load, in order, the whole model's layers. */
  lemma SegmentsAreWhole(a: Artifact, points: seq<nat>, build: Builder)
    requires CutPoints(a, points)
    ensures Loaded(Apply(a, Head(points[0])), build) + MiddlesLoaded(a, points, build)
          + Loaded(Apply(a, Tail(points[|points| - 1])), build) == Loaded(a, build)
  {
    var all, i, j := Loaded(a, build), points[0], points[|points| - 1];
    LoadedIsSlice(a, Head(i), build);
    MiddlesAreSlice(a, points, build);
    LoadedIsSlice(a, Tail(j), build);
    assert all[0..i] == all[..i] && all[j..a.NLayer()] == all[j..];
    ThreePieces(all, i, j);
  }

  // ---- relaying over cut artifacts ----

  /** The engines of the relay have loaded the artifacts cut at these points. */
  ghost predicate LoadedFrom(a: Artifact, points: seq<nat>, build: Builder,
                             head: TorchHead, middle: MiddleChain, tail: DownstreamEngine) {
    && CutPoints(a, points) && |middle.contexts| == |points| - 1
    && head.layers == Loaded(Apply(a, Head(points[0])), build)
    && (forall i :: 0 <= i < |middle.contexts| ==>
          middle.contexts[i].layers == Loaded(Apply(a, Middle(points[i], points[i + 1])), build))
    && tail.context.layers == Loaded(Apply(a, Tail(points[|points| - 1])), build)
  }

  lemma {:induction false} ChainLoads(a: Artifact, points: seq<nat>, build: Builder, contexts: seq<NativeContext>)
    requires |contexts| == |points| - 1
    requires forall i :: 0 <= i < |contexts| ==>
               contexts[i].layers == Loaded(Apply(a, Middle(points[i], points[i + 1])), build)
    ensures LayersOf(contexts) == MiddlesLoaded(a, points, build)
    decreases |contexts|
  {
    if contexts != [] {
      ChainLoads(a, points[..|points| - 1], build, contexts[..|contexts| - 1]);
    }
  }

  /** End to end: a relay over artifacts cut at any accepted points gives every sequence the
      greedy tokens of the source model, or fails, exactly when some segment's context is too small. */
  method RunOverCuts(a: Artifact, points: seq<nat>, build: Builder, head: TorchHead, middle: MiddleChain,
                     tail: DownstreamEngine, prompt: seq<Token>, batchArg: int, gen: nat)
    returns (r: Result<seq<seq<Token>>>)
    requires LoadedFrom(a, points, build, head, middle, tail)
    requires middle.WellFormed() && middle.Apart() && tail.context !in middle.contexts
    requires middle.Synced(map[], Some(0)) && tail.context.Valid() && tail.context.Fed() == map[]
    modifies head, middle.runners, middle.contexts, tail.context
    ensures r.Ok? <==> CanRunAll(middle, tail, BatchSize(batchArg), |prompt|, gen)
    ensures r.Ok? && gen == 0 ==> r.value == Copies(BatchSize(batchArg), [])
    ensures r.Ok? && gen > 0 ==> prompt != []
    ensures r.Ok? && gen > 0 ==>
              r.value == Copies(BatchSize(batchArg),
                                Greedy(Model(head.embed, Loaded(a, build), tail.logits), prompt, gen))
  {
    ChainLoads(a, points, build, middle.contexts);
    SegmentsAreWhole(a, points, build);
    r := RunRelay(head, middle, tail, prompt, batchArg, gen);
  }
}
