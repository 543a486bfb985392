/** The gate over the sample bundles: it accepts them, so that all it is required to meet can be met,
    and refuses the combination of some. */
module SampleGate {
  import opened Results
  import opened EvidenceFiles
  import opened ProductGate
  import opened RunReading
  import opened BundleCombine
  import opened BundleGate
  import opened SampleRun
  import opened SampleBundle
  import opened BundleLosses
  import ProductRun

  /** Files that hold nothing else. */
  const BARE := Kit((text: string) => [], REVISION, WINDOW)

  lemma BareIsUsable()
    ensures Usable(BARE)
  {
  }

  function Cite(ref: Option<Json>): string {
    if ref.Some? && PathOf(ref.value).Some? then PathOf(ref.value).value else ""
  }

  /** The sample's evidence, with the captures that the two summaries cite. */
  function Decode(run: Run, view: View): Option<ProductRun.Evidence> {
    if |view.roots| != |KEYS| then None
    else
      var topology := Cites(Cite, CapturesOf(Files(BARE), view.roots[TOPOLOGY]));
      var native := Cites(Cite, CapturesOf(Files(BARE), view.roots[NATIVE]));
      if |topology| != 3 || |native| != 3 then None else Some(Sample(run.mode, topology, native))
  }

  lemma FollowedHeld(m: char, ref: Option<Json>)
    requires ref in Cited3(m) + [Some(Ref(m, SCREEN))]
    ensures ReadRef(Files(BARE), Dir(m), ref).Some?
  {
    Held(BARE, m, Raw('0'));
    Held(BARE, m, Raw('1'));
    Held(BARE, m, Raw('2'));
    Held(BARE, m, SCREEN);
  }

  lemma ViewRead(mode: Mode, docs: seq<Doc>)
    requires Attachable(docs)
    ensures AllRead(ViewOf(Files(BARE), Dir(Letter(mode)), RunOf(mode, docs)))
  {
    var c, m, run := Files(BARE), Letter(mode), RunOf(mode, docs);
    BareIsUsable();
    CitedAre(BARE, mode, docs);
    forall ref | ref in FollowedBy(c, Dir(m), run)
      ensures ReadRef(c, Dir(m), ref).Some?
    {
      FollowedHeld(m, ref);
    }
    EachReadIff(c, Dir(m), FollowedBy(c, Dir(m), run));
    forall i | 0 <= i < |KEYS|
      ensures RootsRead(c, Dir(m), run)[i].Some?
    {
      RootsReadAre(BARE, mode, docs, i);
    }
  }

  lemma DecodedAs(mode: Mode, docs: seq<Doc>)
    requires Attachable(docs)
    ensures var raws := Cites(Cite, Cited3(Letter(mode)));
            Decode(RunOf(mode, docs), ViewOf(Files(BARE), Dir(Letter(mode)), RunOf(mode, docs)))
            == Some(Sample(mode, raws, raws))
  {
    BareIsUsable();
    CitedAre(BARE, mode, docs);
  }

  lemma GateAccepts(mode: Mode, docs: seq<Doc>)
    requires Attachable(docs)
    ensures AcceptsRun(BARE, Gate(Decode), mode, docs)
  {
    ViewRead(mode, docs);
    DecodedAs(mode, docs);
    SampleAccepted(mode, Cites(Cite, Cited3(Letter(mode))));
    GatePasses(Decode, RunOf(mode, docs), REVISION, WINDOW,
               ViewOf(Files(BARE), Dir(Letter(mode)), RunOf(mode, docs)));
  }

  lemma CiteTells(m: char, a: Option<Json>, b: Option<Json>)
    requires a in Cited3(m) && b in Cited3(m) && Cite(a) == Cite(b)
    ensures a == b
  {
    RefIs(m, Raw('0'));
    RefIs(m, Raw('1'));
    RefIs(m, Raw('2'));
    NameTells(m, Raw('0'), Raw('1'));
    NameTells(m, Raw('0'), Raw('2'));
    NameTells(m, Raw('1'), Raw('2'));
  }

  lemma SampleRaws(mode: Mode, raws: seq<string>)
    requires |raws| == 3
    ensures Raws(Sample(mode, raws, raws).topology.observers) == raws
    ensures LoadRaws(Sample(mode, raws, raws).native.loads) == raws
  {
  }

  lemma CitedByBoth(c: Codec, cite: Citation, view: View, e: ProductRun.Evidence, captures: seq<Option<Json>>)
    requires |view.roots| == |KEYS|
    requires CapturesOf(c, view.roots[TOPOLOGY]) == captures == CapturesOf(c, view.roots[NATIVE])
    requires Raws(e.topology.observers) == Cites(cite, captures) == LoadRaws(e.native.loads)
    requires forall a, b :: a in captures && b in captures && cite(a) == cite(b) ==> a == b
    ensures CitedBy(c, cite, view, e)
  {
  }

  /** The evidence cites what the files do. */
  lemma SampleCites(mode: Mode, docs: seq<Doc>)
    requires Attachable(docs)
    ensures CitesAsRead(Files(BARE), Cite, Decode, Dir(Letter(mode)), RunOf(mode, docs))
  {
    var c, m, run, captures := Files(BARE), Letter(mode), RunOf(mode, docs), Cited3(Letter(mode));
    BareIsUsable();
    CitedAre(BARE, mode, docs);
    DecodedAs(mode, docs);
    SampleRaws(mode, Cites(Cite, captures));
    forall a, b | a in captures && b in captures && Cite(a) == Cite(b)
      ensures a == b
    {
      CiteTells(m, a, b);
    }
    CitedByBoth(c, Cite, ViewOf(c, Dir(m), run), Decode(run, ViewOf(c, Dir(m), run)).value, captures);
  }

  lemma SampleCombines(docs: seq<Doc>, others: seq<Doc>)
    requires Attachable(docs) && Attachable(others)
    ensures Combines(Files(BARE), Gate(Decode), Pair(BARE, docs, others), REVISION, OUT)
  {
    BareIsUsable();
    GateAccepts(DL, docs);
    GateAccepts(LL, others);
    CombinesPair(BARE, Gate(Decode), docs, others);
  }

  lemma SampleAllCite(docs: seq<Doc>, others: seq<Doc>)
    requires Attachable(docs) && Attachable(others)
    ensures AllCiteAsRead(Files(BARE), Cite, Decode, Pair(BARE, docs, others))
  {
    SampleCites(DL, docs);
    SampleCites(LL, others);
  }

  /** The gate accepts all pairs of sample bundles, the combiner combines them, and the gate
      accepts the combination exactly when both keep what it follows. */
  lemma SampleCombination(one: Shape, two: Shape, r: Combined)
    requires IsCombined(Files(BARE), Gate(Decode), Pair(BARE, Docs(one), Docs(two)), REVISION, OUT, r)
    ensures Combines(Files(BARE), Gate(Decode), Pair(BARE, Docs(one), Docs(two)), REVISION, OUT)
    ensures r.passed <==> one.Kept() && two.Kept()
  {
    Shaped(one);
    Shaped(two);
    BareIsUsable();
    NoCollisions(BARE);
    SampleCombines(Docs(one), Docs(two));
    SampleAllCite(Docs(one), Docs(two));
    AllInPlace(BARE, Docs(one), Docs(two));
    GatePassesIffEnoughOpened(Files(BARE), Cite, Decode, Pair(BARE, Docs(one), Docs(two)), REVISION, OUT, r);
    KeepsIsEnough(BARE, DL, Docs(one));
    KeepsIsEnough(BARE, LL, Docs(two));
  }
}
