/** When every file that a validator follows is cited only where it follows it: exactly which
    attachments the combiner has to open. */
module BundleOpened {
  import opened Results
  import opened EvidenceFiles
  import opened RunReading
  import opened BundleCombine

  /** The name of the attachment under a key. */
  function PathUnder(run: Run, i: nat): Option<string>
    requires i < |KEYS|
  {
    var ref := Get(run.body, KEYS[i]);
    if ref.Some? then PathOf(ref.value) else None
  }

  /** An attachment is opened exactly when it is named .json and, of the roots taken before the
      last one of its name, no opened one refers to it. */
  lemma KeyOpenedIff(c: Codec, dir: Directory, run: Run, i: nat, last: nat)
    requires i < |KEYS| && Roots(run).Some? && last < |Roots(run).value|
    requires PathUnder(run, i).Some? && PathOf(Roots(run).value[last]) == PathUnder(run, i)
    requires forall j :: last < j < |Roots(run).value| ==> PathOf(Roots(run).value[j]) != PathUnder(run, i)
    ensures KeyOpened(c, dir, run, i) <==>
            && NamedJson(PathUnder(run, i).value)
            && forall j :: last < j < |Roots(run).value| && OpenedAt(c, dir, Roots(run).value, j) ==>
                 !ChildNamed(c, dir, Roots(run).value[j], PathUnder(run, i))
  {
    var roots, name := Roots(run).value, PathUnder(run, i);
    OpenedLast(c, dir, roots, last);
    forall j | 0 <= j < |roots| && j != last && PathOf(roots[j]) == name
      ensures !OpenedAt(c, dir, roots, j)
    {
      assert NamedBy(c, dir, roots, last, name);
      NamedIs(c, dir, roots, j + 1, name);
    }
  }

  lemma OpenedLast(c: Codec, dir: Directory, roots: seq<Json>, last: nat)
    requires last < |roots| && forall j :: last < j < |roots| ==> PathOf(roots[j]) != PathOf(roots[last])
    ensures OpenedAt(c, dir, roots, last) <==>
            forall j :: last < j < |roots| && OpenedAt(c, dir, roots, j) ==>
              !ChildNamed(c, dir, roots[j], PathOf(roots[last]))
  {
    NamedIs(c, dir, roots, last + 1, PathOf(roots[last]));
    forall j | last < j < |roots|
      ensures NamedBy(c, dir, roots, j, PathOf(roots[last])) <==>
              OpenedAt(c, dir, roots, j) && ChildNamed(c, dir, roots[j], PathOf(roots[last]))
    {
    }
  }

  // ---- cited only where it is followed ----

  /** No root is the file, and only the attachments under these keys cite it. */
  predicate CitedOnlyUnder(c: Codec, dir: Directory, run: Run, ref: Json, keys: set<nat>)
    requires Roots(run).Some? && forall k :: k in keys ==> k < |KEYS|
  {
    var roots := Roots(run).value;
    forall j :: 0 <= j < |roots| ==>
      && PathOf(roots[j]) != PathOf(ref)
      && (ChildNamed(c, dir, roots[j], PathOf(ref)) ==>
            exists k :: k in keys && PathOf(roots[j]) == PathUnder(run, k))
  }

  /** Neither another input nor the output directory has it. */
  predicate NowhereElse(c: Codec, inputs: seq<Input>, out: Output, i: nat, ref: Json) {
    && (forall k :: 0 <= k < |inputs| && k != i ==> !SuppliedBy(c, inputs[k], ref))
    && ReadRef(c, out.dir, Some(ref)).None? && PathOf(ref) != Some(out.name)
  }

  predicate CitedOnce(c: Codec, inputs: seq<Input>, out: Output, i: nat, ref: Option<Json>, keys: set<nat>)
    requires i < |inputs| && |inputs[i].bundle.runs| == 1 && Roots(inputs[i].bundle.runs[0]).Some?
    requires forall k :: k in keys ==> k < |KEYS|
  {
    ref.Some? ==> CitedOnlyUnder(c, inputs[i].dir, inputs[i].bundle.runs[0], ref.value, keys)
                  && NowhereElse(c, inputs, out, i, ref.value)
  }

  /** The topology cites some captures, and the native summary cites them too. */
  predicate HasCaptures(c: Codec, dir: Directory, run: Run) {
    CapturesOf(c, RootsRead(c, dir, run)[TOPOLOGY]) != [] && CapturesShared(c, dir, run)
  }

  predicate InputHasCaptures(c: Codec, input: Input) {
    |input.bundle.runs| == 1 && HasCaptures(c, input.dir, input.bundle.runs[0])
  }

  /** Nothing but the summaries cites the captures, and nothing but the UI attachment the screen. */
  predicate CitedInPlace(c: Codec, inputs: seq<Input>, out: Output, i: nat)
    requires i < |inputs|
  {
    && |inputs[i].bundle.runs| == 1 && Roots(inputs[i].bundle.runs[0]).Some?
    && var roots := RootsRead(c, inputs[i].dir, inputs[i].bundle.runs[0]);
       && (forall ref :: ref in CapturesOf(c, roots[TOPOLOGY]) ==>
             CitedOnce(c, inputs, out, i, ref, {TOPOLOGY, NATIVE}))
       && CitedOnce(c, inputs, out, i, FieldOf(c, roots[UI], "screen"), {UI})
  }

  /** What is named is then named by one of those attachments, which has been opened. */
  lemma NamedIsOpened(c: Codec, dir: Directory, run: Run, ref: Json, keys: set<nat>) returns (k: nat)
    requires Roots(run).Some? && forall k :: k in keys ==> k < |KEYS|
    requires CitedOnlyUnder(c, dir, run, ref, keys) && NamedFrom(c, dir, Roots(run).value, 0, PathOf(ref))
    ensures k in keys && KeyOpened(c, dir, run, k)
  {
    var roots := Roots(run).value;
    NamedIs(c, dir, roots, 0, PathOf(ref));
    var j :| 0 <= j < |roots| && NamedBy(c, dir, roots, j, PathOf(ref));
    k :| k in keys && PathOf(roots[j]) == PathUnder(run, k);
    assert Children(c, dir, roots[j]).Some? && Children(c, dir, roots[j]).value != [];
  }

  lemma SuppliedIsOpened(c: Codec, inputs: seq<Input>, out: Output, text: string, i: nat, ref: Option<Json>,
                         keys: set<nat>) returns (k: nat)
    requires i < |inputs| && |inputs[i].bundle.runs| == 1 && Roots(inputs[i].bundle.runs[0]).Some?
    requires forall k :: k in keys ==> k < |KEYS|
    requires Supplied(c, inputs, out, text, ref) && CitedOnce(c, inputs, out, i, ref, keys)
    ensures k in keys && KeyOpened(c, inputs[i].dir, inputs[i].bundle.runs[0], k)
  {
    assert SomeSupplies(c, inputs, ref.value);
    var n :| 0 <= n < |inputs| && SuppliedBy(c, inputs[n], ref.value);
    k := NamedIsOpened(c, inputs[i].dir, inputs[i].bundle.runs[0], ref.value, keys);
  }

  /** The UI attachment is opened, and one of the two summaries. */
  predicate EnoughOpened(c: Codec, input: Input) {
    && |input.bundle.runs| == 1
    && var run := input.bundle.runs[0];
       && Roots(run).Some? && KeyOpened(c, input.dir, run, UI)
       && (KeyOpened(c, input.dir, run, TOPOLOGY) || KeyOpened(c, input.dir, run, NATIVE))
  }

  lemma EnoughIsPortable(c: Codec, input: Input)
    requires EnoughOpened(c, input) && CapturesShared(c, input.dir, input.bundle.runs[0])
    ensures Portable(c, input.dir, input.bundle.runs[0])
  {
  }

  lemma BothPortable(c: Codec, inputs: seq<Input>)
    requires |inputs| == 2 && EnoughOpened(c, inputs[0]) && EnoughOpened(c, inputs[1])
    requires CapturesShared(c, inputs[0].dir, inputs[0].bundle.runs[0])
    requires CapturesShared(c, inputs[1].dir, inputs[1].bundle.runs[0])
    ensures AllPortable(c, inputs)
  {
    EnoughIsPortable(c, inputs[0]);
    EnoughIsPortable(c, inputs[1]);
  }

  lemma SuppliedOpensEnough(c: Codec, inputs: seq<Input>, out: Output, text: string, i: nat)
    requires i < |inputs| && CitedInPlace(c, inputs, out, i) && AllSupplied(c, inputs, out, text)
    requires HasCaptures(c, inputs[i].dir, inputs[i].bundle.runs[0])
    ensures EnoughOpened(c, inputs[i])
  {
    var run := inputs[i].bundle.runs[0];
    var roots, refs := RootsRead(c, inputs[i].dir, run), FollowedBy(c, inputs[i].dir, run);
    var captures := CapturesOf(c, roots[TOPOLOGY]);
    assert refs[0] == captures[0] && refs[|captures|] == FieldOf(c, roots[UI], "screen");
    var summary := SuppliedIsOpened(c, inputs, out, text, i, refs[0], {TOPOLOGY, NATIVE});
    var ui := SuppliedIsOpened(c, inputs, out, text, i, refs[|captures|], {UI});
  }

  /** For a strict validator and inputs whose files are cited where they are followed: the
      combination is accepted again exactly when for each run the UI attachment and one of the
      two summaries are opened, and then with the results they had. */
  lemma PassesIffEnoughOpened(c: Codec, judge: Judge, inputs: seq<Input>, revision: string, out: Output, r: Combined)
    requires Strict(judge) && Collisionless(c) && Combines(c, judge, inputs, revision, out)
    requires IsCombined(c, judge, inputs, revision, out, r)
    requires forall i :: 0 <= i < |inputs| ==> CitedInPlace(c, inputs, out, i)
    requires forall i :: 0 <= i < |inputs| ==> InputHasCaptures(c, inputs[i])
    ensures |inputs| == 2 && (r.passed <==> EnoughOpened(c, inputs[0]) && EnoughOpened(c, inputs[1]))
    ensures r.passed ==> r.results == InOrder(c, judge, inputs[0], inputs[1])
  {
    PassesIffAllSupplied(c, judge, inputs, revision, out, r);
    if r.passed {
      SuppliedOpensEnough(c, inputs, out, out.encode(r.bundle), 0);
      SuppliedOpensEnough(c, inputs, out, out.encode(r.bundle), 1);
    }
    if EnoughOpened(c, inputs[0]) && EnoughOpened(c, inputs[1]) {
      BothPortable(c, inputs);
      PortablePasses(c, judge, inputs, revision, out, r);
    }
  }
}
