/** The gate over one captured run, as the validator whose acceptance combining has to keep. */
module BundleGate {
  import opened Results
  import opened EvidenceFiles
  import opened ProductGate
  import opened RunReading
  import opened BundleCombine
  import opened BundleOpened
  import ProductRun

  /** The typed evidence in what has been read of a run, if its types are right. */
  type Decoder = (Run, View) -> Option<ProductRun.Evidence>

  /** The gate reads everything it follows, and then checks what it has read. */
  function Gate(decode: Decoder): Judge {
    (run: Run, revision: string, window: Window, view: View) =>
      if AllRead(view) && decode(run, view).Some? && ProductRun.Accepts(decode(run, view).value, revision, window)
      then Some(decode(run, view).value.response.request) else None
  }

  lemma GatePasses(decode: Decoder, run: Run, revision: string, window: Window, view: View)
    requires AllRead(view) && decode(run, view).Some? && ProductRun.Accepts(decode(run, view).value, revision, window)
    ensures Gate(decode)(run, revision, window, view).Some?
  {
  }

  lemma GateIsStrict(decode: Decoder)
    ensures Strict(Gate(decode))
  {
  }

  /** The gate accepts the combination of two bundles it has accepted exactly when all raw
      captures and screens their runs cite are supplied, and then with the results they had. */
  lemma GateAcceptsAgainIff(c: Codec, decode: Decoder, inputs: seq<Input>, revision: string, out: Output, r: Combined)
    requires Collisionless(c) && Combines(c, Gate(decode), inputs, revision, out)
    requires IsCombined(c, Gate(decode), inputs, revision, out, r)
    ensures |inputs| == 2 && (r.passed <==> AllSupplied(c, inputs, out, out.encode(r.bundle)))
    ensures r.passed ==> r.results == InOrder(c, Gate(decode), inputs[0], inputs[1])
  {
    GateIsStrict(decode);
    PassesIffAllSupplied(c, Gate(decode), inputs, revision, out, r);
  }

  // ---- one opened summary is enough ----

  type Citation = Option<Json> -> string

  /** The raw captures of the typed summaries are those the two files cite, and what the typed
      summaries cite alike the files do. */
  predicate CitedBy(c: Codec, cite: Citation, view: View, e: ProductRun.Evidence)
    requires |view.roots| == |KEYS|
  {
    var topology, native := CapturesOf(c, view.roots[TOPOLOGY]), CapturesOf(c, view.roots[NATIVE]);
    && Raws(e.topology.observers) == Cites(cite, topology) && LoadRaws(e.native.loads) == Cites(cite, native)
    && forall a, b :: a in topology && b in native && cite(a) == cite(b) ==> a == b
  }

  /** So it is of what has been decoded from the run in its own directory. */
  predicate CitesAsRead(c: Codec, cite: Citation, decode: Decoder, dir: Directory, run: Run) {
    decode(run, ViewOf(c, dir, run)).Some? ==>
      CitedBy(c, cite, ViewOf(c, dir, run), decode(run, ViewOf(c, dir, run)).value)
  }

  function Cites(cite: Citation, refs: seq<Option<Json>>): (raws: seq<string>)
    ensures |raws| == |refs|
  {
    seq(|refs|, i requires 0 <= i < |refs| => cite(refs[i]))
  }

  function Raws(observers: seq<Observer>): (raws: seq<string>)
    ensures |raws| == |observers|
  {
    seq(|observers|, i requires 0 <= i < |observers| => observers[i].raw)
  }

  function LoadRaws(loads: seq<Load>): (raws: seq<string>)
    ensures |raws| == |loads|
  {
    seq(|loads|, i requires 0 <= i < |loads| => loads[i].raw)
  }

  /** In an accepted run the capture of every topology node is that of a native load. */
  lemma RawIsLoaded(e: ProductRun.Evidence, revision: string, window: Window, i: nat) returns (j: nat)
    requires ProductRun.Accepts(e, revision, window) && i < |e.topology.observers|
    ensures j < |e.native.loads| && e.native.loads[j].raw == e.topology.observers[i].raw
  {
    j := SameRaw(ProductRun.SceneOf(e, revision, window), e.topology.observers, e.native.loads, i);
  }

  lemma SameRaw(s: Scene, observers: seq<Observer>, loads: seq<Load>, i: nat) returns (j: nat)
    requires s.plan != [] && DistinctNodes(s.plan) && i < |observers|
    requires ObserversAgree(s, observers) && LoadsAgree(s, observers, loads)
    ensures j < |loads| && loads[j].raw == observers[i].raw
  {
    assert ObserverAgrees(s, observers[i]);
    var n :| 0 <= n < |Nodes(s.plan)| && Nodes(s.plan)[n] == observers[i].node;
    j := LoadedSomewhere(s, observers, loads, n);
    assert LoadAgrees(s, observers, loads[j]);
    TopologyIs(observers, i);
  }

  /** So what the gate accepts has a topology that cites some raw captures, and a native summary
      that cites every one of them. */
  lemma GateSharesCaptures(c: Codec, cite: Citation, decode: Decoder, dir: Directory, run: Run, revision: string,
                           window: Window)
    requires CitesAsRead(c, cite, decode, dir, run)
    requires Gate(decode)(run, revision, window, ViewOf(c, dir, run)).Some?
    ensures HasCaptures(c, dir, run)
  {
    var roots, e := RootsRead(c, dir, run), decode(run, ViewOf(c, dir, run)).value;
    assert CitedBy(c, cite, ViewOf(c, dir, run), e);
    assert |Raws(e.topology.observers)| >= 3;
    forall ref | ref in CapturesOf(c, roots[TOPOLOGY])
      ensures ref in CapturesOf(c, roots[NATIVE])
    {
      var i :| 0 <= i < |CapturesOf(c, roots[TOPOLOGY])| && CapturesOf(c, roots[TOPOLOGY])[i] == ref;
      assert Raws(e.topology.observers)[i] == cite(ref);
      var j := RawIsLoaded(e, revision, window, i);
      assert LoadRaws(e.native.loads)[j] == cite(CapturesOf(c, roots[NATIVE])[j]);
      assert CapturesOf(c, roots[NATIVE])[j] in CapturesOf(c, roots[NATIVE]);
    }
  }

  /** Both inputs' summaries are decoded from what they cite. */
  predicate AllCiteAsRead(c: Codec, cite: Citation, decode: Decoder, inputs: seq<Input>) {
    forall i :: 0 <= i < |inputs| && |inputs[i].bundle.runs| == 1 ==>
      CitesAsRead(c, cite, decode, inputs[i].dir, inputs[i].bundle.runs[0])
  }

  lemma GatedHasCaptures(c: Codec, cite: Citation, decode: Decoder, inputs: seq<Input>, revision: string,
                         out: Output, i: nat)
    requires AllCiteAsRead(c, cite, decode, inputs) && i < |inputs|
    requires Collisionless(c) && Combines(c, Gate(decode), inputs, revision, out)
    ensures InputHasCaptures(c, inputs[i])
  {
    InputCarried(c, Gate(decode), inputs, revision, out, i);
    var input := inputs[i];
    assert Judged(c, Gate(decode), input.dir, input.bundle, input.bundle.runs[0]).Some?;
    GateSharesCaptures(c, cite, decode, input.dir, input.bundle.runs[0], input.bundle.revision,
                       WindowFor(input.bundle, input.bundle.runs[0].mode));
  }

  /** Bundles the gate has accepted are accepted again if the combiner opens each UI attachment
      and, for each run, the topology or the native one. */
  lemma EnoughOpenedPasses(c: Codec, cite: Citation, decode: Decoder, inputs: seq<Input>, revision: string,
                           out: Output, r: Combined)
    requires AllCiteAsRead(c, cite, decode, inputs)
    requires Collisionless(c) && Combines(c, Gate(decode), inputs, revision, out)
    requires IsCombined(c, Gate(decode), inputs, revision, out, r)
    requires forall i :: 0 <= i < |inputs| ==> EnoughOpened(c, inputs[i])
    ensures |inputs| == 2 && r.passed && r.results == InOrder(c, Gate(decode), inputs[0], inputs[1])
  {
    GateIsStrict(decode);
    forall i | 0 <= i < |inputs|
      ensures |inputs[i].bundle.runs| == 1 && Portable(c, inputs[i].dir, inputs[i].bundle.runs[0])
    {
      GatedHasCaptures(c, cite, decode, inputs, revision, out, i);
      EnoughIsPortable(c, inputs[i]);
    }
    PortablePasses(c, Gate(decode), inputs, revision, out, r);
  }

  /** And when the files are cited where the gate follows them, only then. */
  lemma GatePassesIffEnoughOpened(c: Codec, cite: Citation, decode: Decoder, inputs: seq<Input>, revision: string,
                                  out: Output, r: Combined)
    requires AllCiteAsRead(c, cite, decode, inputs)
    requires Collisionless(c) && Combines(c, Gate(decode), inputs, revision, out)
    requires IsCombined(c, Gate(decode), inputs, revision, out, r)
    requires forall i :: 0 <= i < |inputs| ==> CitedInPlace(c, inputs, out, i)
    ensures |inputs| == 2 && (r.passed <==> EnoughOpened(c, inputs[0]) && EnoughOpened(c, inputs[1]))
    ensures r.passed ==> r.results == InOrder(c, Gate(decode), inputs[0], inputs[1])
  {
    GateIsStrict(decode);
    forall i | 0 <= i < |inputs|
      ensures InputHasCaptures(c, inputs[i])
    {
      GatedHasCaptures(c, cite, decode, inputs, revision, out, i);
    }
    PassesIffEnoughOpened(c, Gate(decode), inputs, revision, out, r);
  }
}
