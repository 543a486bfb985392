/** When the combination of two accepted sample bundles is refused: the combiner leaves behind a
    file that the validator reads. */
module BundleLosses {
  import opened Results
  import opened EvidenceFiles
  import opened ProductGate
  import opened RunReading
  import opened BundleCombine
  import opened BundleOpened
  import opened SampleBundle

  // ---- combining two of them ----

  predicate TakesTwo(c: Codec, judge: Judge, revision: string, one: Input, two: Input) {
    && Takes(c, judge, revision, NOTHING, one)
    && Takes(c, judge, revision, Take(c, NOTHING, one), two)
  }

  lemma GatherMore(c: Codec, judge: Judge, revision: string, init: seq<Input>, g: Gather, last: Input)
    requires GatherAll(c, judge, revision, init) == Some(g) && Takes(c, judge, revision, g, last)
    ensures GatherAll(c, judge, revision, init + [last]) == Some(Take(c, g, last))
  {
    assert (init + [last])[..|init|] == init;
  }

  lemma GathersTwo(c: Codec, judge: Judge, revision: string, one: Input, two: Input)
    requires TakesTwo(c, judge, revision, one, two)
    ensures GatherAll(c, judge, revision, [one, two]) == Some(Take(c, Take(c, NOTHING, one), two))
  {
    assert [] + [one] == [one] && [one] + [two] == [one, two];
    GatherMore(c, judge, revision, [], NOTHING, one);
    GatherMore(c, judge, revision, [one], Take(c, NOTHING, one), two);
  }

  lemma CombinesTwo(c: Codec, judge: Judge, revision: string, one: Input, two: Input, out: Output)
    requires IsRevision(revision) && TakesTwo(c, judge, revision, one, two) && out.dir == map[]
    requires one.bundle.runs[0].mode == DL && two.bundle.runs[0].mode == LL
    requires forall name :: name in Take(c, Take(c, NOTHING, one), two).files ==> name !in out.Reserved()
    ensures Combines(c, judge, [one, two], revision, out)
  {
    GathersTwo(c, judge, revision, one, two);
    var g := Take(c, Take(c, NOTHING, one), two);
    assert g.runs[0].mode == DL && g.runs[1].mode == LL;
  }

  const OUT := Output(map[], "out.json", (b: Bundle) => "")

  function Pair(kit: Kit, docs: seq<Doc>, others: seq<Doc>): seq<Input>
    requires |docs| <= |LABELS| && |others| <= |LABELS|
  {
    [Single(kit, DL, docs), Single(kit, LL, others)]
  }

  /** Documents for two bundles that the validator accepts. */
  ghost predicate AcceptsPair(kit: Kit, judge: Judge, docs: seq<Doc>, others: seq<Doc>) {
    && Usable(kit) && Attachable(docs) && Attachable(others)
    && AcceptsRun(kit, judge, DL, docs) && AcceptsRun(kit, judge, LL, others)
  }

  lemma TakesRun(kit: Kit, judge: Judge, g: Gather, mode: Mode, docs: seq<Doc>)
    requires Usable(kit) && Attachable(docs) && AcceptsRun(kit, judge, mode, docs) && !HasMode(g.runs, mode)
    requires forall name :: name in g.files ==> name !in Dir(Letter(mode))
    ensures Takes(Files(kit), judge, kit.revision, g, Single(kit, mode, docs))
    ensures forall name :: name in Take(Files(kit), g, Single(kit, mode, docs)).files ==>
              name in g.files || name in Dir(Letter(mode))
  {
    PassesAlone(kit, judge, mode, docs);
    RunCollected(kit, mode, docs);
  }

  lemma NotReserved(m: char, name: string)
    requires name in Dir(m)
    ensures name !in OUT.Reserved()
  {
    Lettered(m, name);
    assert |"out.json"| == 8 && |"out.json" + ".result.json"| > 7;
  }

  lemma Apart(name: string)
    requires name in Dir('d')
    ensures name !in Dir('l')
  {
    Lettered('d', name);
    if name in Dir('l') {
      Lettered('l', name);
      assert false;
    }
  }

  lemma TakesPair(kit: Kit, judge: Judge, docs: seq<Doc>, others: seq<Doc>)
    requires AcceptsPair(kit, judge, docs, others)
    ensures var one, two := Single(kit, DL, docs), Single(kit, LL, others);
            && TakesTwo(Files(kit), judge, kit.revision, one, two)
            && forall name :: name in Take(Files(kit), Take(Files(kit), NOTHING, one), two).files ==>
                 name in Dir('d') || name in Dir('l')
  {
    TakesRun(kit, judge, NOTHING, DL, docs);
    forall name | name in Dir('d')
      ensures name !in Dir('l')
    {
      Apart(name);
    }
    TakesRun(kit, judge, Take(Files(kit), NOTHING, Single(kit, DL, docs)), LL, others);
  }

  lemma CombinesPair(kit: Kit, judge: Judge, docs: seq<Doc>, others: seq<Doc>)
    requires AcceptsPair(kit, judge, docs, others)
    ensures Combines(Files(kit), judge, Pair(kit, docs, others), kit.revision, OUT)
  {
    var one, two := Single(kit, DL, docs), Single(kit, LL, others);
    TakesPair(kit, judge, docs, others);
    forall name | name in Take(Files(kit), Take(Files(kit), NOTHING, one), two).files
      ensures name !in OUT.Reserved()
    {
      NotReserved(if name in Dir('d') then 'd' else 'l', name);
    }
    CombinesTwo(Files(kit), judge, kit.revision, one, two, OUT);
  }

  // ---- their files are cited where they are followed ----

  lemma NotInOutput(kit: Kit, m: char, d: Doc)
    requires m == 'd' || m == 'l'
    ensures ReadRef(Files(kit), OUT.dir, Some(Ref(m, d))).None? && PathOf(Ref(m, d)) != Some(OUT.name)
  {
    RefIs(m, d);
    assert Name(m, d)[0] == m && "out.json"[0] == 'o';
  }

  lemma NotByTheOther(kit: Kit, mode: Mode, docs: seq<Doc>, source: Mode, d: Doc)
    requires Usable(kit) && Attachable(docs) && IsDoc(d) && source != mode
    ensures !SuppliedBy(Files(kit), Single(kit, source, docs), Ref(Letter(mode), d))
  {
    var name := Name(Letter(mode), d);
    RefIs(Letter(mode), d);
    Stored(Letter(mode), d);
    RootsOf(source, docs);
    RunCollected(kit, source, docs);
    Lettered(Letter(mode), name);
    if name in Dir(Letter(source)) {
      Lettered(Letter(source), name);
      assert false;
    }
  }

  predicate Followed(d: Doc) {
    d == Raw('0') || d == Raw('1') || d == Raw('2') || d == SCREEN
  }

  function KeysFor(d: Doc): (keys: set<nat>)
    ensures forall k :: k in keys ==> k < |KEYS|
  {
    if d == SCREEN then {UI} else {TOPOLOGY, NATIVE}
  }

  lemma PlaceCites(docs: seq<Doc>, d: Doc, j: nat)
    requires Attachable(docs) && Followed(d) && j < |Twice(docs)|
    ensures Twice(docs)[j] != d && (d in Opens(Twice(docs)[j]) ==> KeyOf(j) in KeysFor(d))
  {
    KindsAre(docs, j);
  }

  lemma DocCites(kit: Kit, mode: Mode, docs: seq<Doc>, d: Doc, j: nat)
    requires Usable(kit) && Attachable(docs) && Followed(d) && j < |Twice(docs)|
    ensures var m, run, root := Letter(mode), RunOf(mode, docs), Ref(Letter(mode), Twice(docs)[j]);
            && PathOf(root) != PathOf(Ref(m, d))
            && (ChildNamed(Files(kit), Dir(m), root, PathOf(Ref(m, d))) ==>
                  exists k :: k in KeysFor(d) && PathOf(root) == PathUnder(run, k))
  {
    PlaceCites(docs, d, j);
    KindsAre(docs, j);
    RefTells(kit, Letter(mode), Twice(docs)[j], d);
    if d in Opens(Twice(docs)[j]) {
      KeysGet(mode, docs, KeyOf(j));
      assert PathOf(Ref(Letter(mode), Twice(docs)[j])) == PathUnder(RunOf(mode, docs), KeyOf(j));
    }
  }

  lemma DocsCiteOnlyUnder(kit: Kit, mode: Mode, docs: seq<Doc>, d: Doc)
    requires Usable(kit) && Attachable(docs) && Followed(d)
    ensures Roots(RunOf(mode, docs)).Some?
    ensures CitedOnlyUnder(Files(kit), Dir(Letter(mode)), RunOf(mode, docs), Ref(Letter(mode), d), KeysFor(d))
  {
    RootsOf(mode, docs);
    forall j | 0 <= j < |Twice(docs)|
      ensures var m, run, root := Letter(mode), RunOf(mode, docs), Refs(Letter(mode), Twice(docs))[j];
              && PathOf(root) != PathOf(Ref(m, d))
              && (ChildNamed(Files(kit), Dir(m), root, PathOf(Ref(m, d))) ==>
                    exists k :: k in KeysFor(d) && PathOf(root) == PathUnder(run, k))
    {
      DocCites(kit, mode, docs, d, j);
    }
  }

  /** The documents of one of the two. */
  function DocsOf(docs: seq<Doc>, others: seq<Doc>, mode: Mode): seq<Doc> {
    if mode == DL then docs else others
  }

  function IndexOf(mode: Mode): nat {
    if mode == DL then 0 else 1
  }

  lemma CitedOnceIn(kit: Kit, docs: seq<Doc>, others: seq<Doc>, mode: Mode, d: Doc)
    requires Usable(kit) && Attachable(docs) && Attachable(others) && Followed(d)
    ensures Roots(RunOf(mode, DocsOf(docs, others, mode))).Some?
    ensures CitedOnce(Files(kit), Pair(kit, docs, others), OUT, IndexOf(mode), Some(Ref(Letter(mode), d)), KeysFor(d))
  {
    DocsCiteOnlyUnder(kit, mode, DocsOf(docs, others, mode), d);
    NotInOutput(kit, Letter(mode), d);
    NotByTheOther(kit, mode, if mode == DL then others else docs, if mode == DL then LL else DL, d);
  }

  lemma CapturesOnce(kit: Kit, docs: seq<Doc>, others: seq<Doc>, mode: Mode, ref: Option<Json>)
    requires Usable(kit) && Attachable(docs) && Attachable(others) && ref in Cited3(Letter(mode))
    ensures Roots(RunOf(mode, DocsOf(docs, others, mode))).Some?
    ensures CitedOnce(Files(kit), Pair(kit, docs, others), OUT, IndexOf(mode), ref, {TOPOLOGY, NATIVE})
  {
    CitedOnceIn(kit, docs, others, mode, Raw('0'));
    CitedOnceIn(kit, docs, others, mode, Raw('1'));
    CitedOnceIn(kit, docs, others, mode, Raw('2'));
  }

  lemma InPlace(c: Codec, inputs: seq<Input>, out: Output, i: nat, captures: seq<Option<Json>>, screen: Option<Json>)
    requires i < |inputs| && |inputs[i].bundle.runs| == 1 && Roots(inputs[i].bundle.runs[0]).Some?
    requires var roots := RootsRead(c, inputs[i].dir, inputs[i].bundle.runs[0]);
             CapturesOf(c, roots[TOPOLOGY]) == captures && FieldOf(c, roots[UI], "screen") == screen
    requires forall ref :: ref in captures ==> CitedOnce(c, inputs, out, i, ref, {TOPOLOGY, NATIVE})
    requires CitedOnce(c, inputs, out, i, screen, {UI})
    ensures CitedInPlace(c, inputs, out, i)
  {
  }

  lemma PairInPlace(kit: Kit, docs: seq<Doc>, others: seq<Doc>, mode: Mode)
    requires Usable(kit) && Attachable(docs) && Attachable(others)
    ensures CitedInPlace(Files(kit), Pair(kit, docs, others), OUT, IndexOf(mode))
  {
    var m := Letter(mode);
    CitedOnceIn(kit, docs, others, mode, SCREEN);
    forall ref | ref in Cited3(m)
      ensures CitedOnce(Files(kit), Pair(kit, docs, others), OUT, IndexOf(mode), ref, {TOPOLOGY, NATIVE})
    {
      CapturesOnce(kit, docs, others, mode, ref);
    }
    CitedAre(kit, mode, DocsOf(docs, others, mode));
    InPlace(Files(kit), Pair(kit, docs, others), OUT, IndexOf(mode), Cited3(m), Some(Ref(m, SCREEN)));
  }

  lemma DocsHaveCaptures(kit: Kit, mode: Mode, docs: seq<Doc>)
    requires Usable(kit) && Attachable(docs)
    ensures HasCaptures(Files(kit), Dir(Letter(mode)), RunOf(mode, docs))
  {
    CitedAre(kit, mode, docs);
  }

  lemma AllInPlace(kit: Kit, docs: seq<Doc>, others: seq<Doc>)
    requires Usable(kit) && Attachable(docs) && Attachable(others)
    ensures var inputs := Pair(kit, docs, others);
            forall i :: 0 <= i < |inputs| ==> CitedInPlace(Files(kit), inputs, OUT, i)
  {
    PairInPlace(kit, docs, others, DL);
    PairInPlace(kit, docs, others, LL);
  }

  lemma AllHaveCaptures(kit: Kit, docs: seq<Doc>, others: seq<Doc>)
    requires Usable(kit) && Attachable(docs) && Attachable(others)
    ensures var inputs := Pair(kit, docs, others);
            forall i :: 0 <= i < |inputs| ==> InputHasCaptures(Files(kit), inputs[i])
  {
    DocsHaveCaptures(kit, DL, docs);
    DocsHaveCaptures(kit, LL, others);
  }

  // ---- which of their attachments are opened ----

  /** The last attachment is opened and refers to the UI one. */
  predicate Crossed(docs: seq<Doc>)
    requires |KEYS| <= |docs|
  {
    |docs| > |KEYS| && docs[|KEYS|].json && docs[UI].json
  }

  lemma PlaceRefers(docs: seq<Doc>, i: nat, j: nat)
    requires Attachable(docs) && i < |KEYS| && |KEYS| + i < j < |Twice(docs)|
    ensures Twice(docs)[j] != docs[i]
    ensures docs[i] in Opens(Twice(docs)[j]) <==> i == UI && Crossed(docs)
    ensures i == UI ==> j == |Twice(docs)| - 1
  {
    KindsAre(docs, j);
    assert docs[i].kind == ORDER[i];
  }

  lemma LaterRoot(kit: Kit, mode: Mode, docs: seq<Doc>, i: nat, j: nat)
    requires Usable(kit) && Attachable(docs) && i < |KEYS| && |KEYS| + i < j < |Twice(docs)|
    ensures var m, root := Letter(mode), Ref(Letter(mode), Twice(docs)[j]);
            && PathOf(root) != PathUnder(RunOf(mode, docs), i)
            && (ChildNamed(Files(kit), Dir(m), root, PathUnder(RunOf(mode, docs), i)) <==> i == UI && Crossed(docs))
  {
    KeysGet(mode, docs, i);
    KindsAre(docs, j);
    PlaceRefers(docs, i, j);
    RefTells(kit, Letter(mode), Twice(docs)[j], docs[i]);
  }

  /** An attachment named .json is opened, unless it is the UI one and the last refers to it. */
  lemma DocOpened(kit: Kit, mode: Mode, docs: seq<Doc>, i: nat)
    requires Usable(kit) && Attachable(docs) && i < |KEYS|
    ensures Roots(RunOf(mode, docs)).Some?
    ensures KeyOpened(Files(kit), Dir(Letter(mode)), RunOf(mode, docs), i) <==>
            docs[i].json && !(i == UI && Crossed(docs))
  {
    var m, run, roots := Letter(mode), RunOf(mode, docs), Refs(Letter(mode), Twice(docs));
    RootsOf(mode, docs);
    KeysGet(mode, docs, i);
    RefIs(m, docs[i]);
    SuffixTells(m, docs[i]);
    KindsAre(docs, |KEYS| + i);
    forall j | |KEYS| + i < j < |roots|
      ensures PathOf(roots[j]) != PathUnder(run, i)
      ensures ChildNamed(Files(kit), Dir(m), roots[j], PathUnder(run, i)) <==> i == UI && Crossed(docs)
    {
      LaterRoot(kit, mode, docs, i, j);
    }
    KeyOpenedIff(Files(kit), Dir(m), run, i, |KEYS| + i);
    if i == UI && Crossed(docs) {
      assert OpenedAt(Files(kit), Dir(m), roots, |roots| - 1);
    }
  }

  /** The UI attachment is named .json and no other opened attachment refers to it, and one of
      the two summaries is named .json. */
  predicate Keeps(docs: seq<Doc>)
    requires |KEYS| <= |docs|
  {
    && docs[UI].json && (|docs| > |KEYS| ==> !docs[|KEYS|].json)
    && (docs[TOPOLOGY].json || docs[NATIVE].json)
  }

  lemma KeepsIsEnough(kit: Kit, mode: Mode, docs: seq<Doc>)
    requires Usable(kit) && Attachable(docs)
    ensures EnoughOpened(Files(kit), Single(kit, mode, docs)) <==> Keeps(docs)
  {
    DocOpened(kit, mode, docs, UI);
    DocOpened(kit, mode, docs, TOPOLOGY);
    DocOpened(kit, mode, docs, NATIVE);
  }

  // ---- exactly when nothing is lost ----

  /** Which of the three attachments are named .json, and whether the intent before refers to
      the UI attachment. */
  datatype Shape = Shape(topology: bool, native: bool, ui: bool, crossed: bool)
  {
    predicate Kept() {
      ui && !crossed && (topology || native)
    }
  }

  function Docs(shape: Shape): (docs: seq<Doc>)
    ensures |docs| == if shape.crossed then 7 else 6
  {
    [Doc('r', true), Doc('i', true), Doc('h', false), Doc('t', shape.topology), Doc('n', shape.native),
     Doc('u', shape.ui)] + if shape.crossed then [Doc('b', true)] else []
  }

  lemma Shaped(shape: Shape)
    ensures Attachable(Docs(shape)) && (Keeps(Docs(shape)) <==> shape.Kept())
  {
    var docs := Docs(shape);
    forall i | 0 <= i < |docs|
      ensures IsDoc(docs[i]) && docs[i].kind == ORDER[i]
    {
    }
  }

  lemma PassesIffKeeps(kit: Kit, judge: Judge, docs: seq<Doc>, others: seq<Doc>, r: Combined)
    requires Strict(judge) && AcceptsPair(kit, judge, docs, others)
    requires IsCombined(Files(kit), judge, Pair(kit, docs, others), kit.revision, OUT, r)
    ensures r.passed <==> Keeps(docs) && Keeps(others)
  {
    var inputs := Pair(kit, docs, others);
    NoCollisions(kit);
    CombinesPair(kit, judge, docs, others);
    AllInPlace(kit, docs, others);
    AllHaveCaptures(kit, docs, others);
    PassesIffEnoughOpened(Files(kit), judge, inputs, kit.revision, OUT, r);
    KeepsIsEnough(kit, DL, docs);
    KeepsIsEnough(kit, LL, others);
  }

  /** Whatever else the files hold, two such bundles that a strict validator accepts are combined.
      It then accepts the combination exactly when in both runs the UI attachment is named .json,
      one of the summaries is, and no other opened attachment refers to the UI attachment. */
  lemma PairPassesIff(kit: Kit, judge: Judge, one: Shape, two: Shape, r: Combined)
    requires Usable(kit) && Strict(judge)
    requires AcceptsRun(kit, judge, DL, Docs(one)) && AcceptsRun(kit, judge, LL, Docs(two))
    requires IsCombined(Files(kit), judge, Pair(kit, Docs(one), Docs(two)), kit.revision, OUT, r)
    ensures Combines(Files(kit), judge, Pair(kit, Docs(one), Docs(two)), kit.revision, OUT)
    ensures r.passed <==> one.Kept() && two.Kept()
  {
    Shaped(one);
    Shaped(two);
    CombinesPair(kit, judge, Docs(one), Docs(two));
    PassesIffKeeps(kit, judge, Docs(one), Docs(two), r);
  }
}
