/** What the validation of one run reads, which of it the combiner collects, and when the run
    is judged alike in another directory. */
module RunReading {
  import opened Results
  import opened EvidenceFiles
  import opened ProductGate

  datatype Run = Run(mode: Mode, body: Json)

  const KEYS := ["response", "intent", "handoffs", "topology", "native", "ui"]

  const TOPOLOGY := 3

  const NATIVE := 4

  const UI := 5

  /** The attachment under each key, the raw capture each node of the topology cites, and the
      screen the user interface cites. */
  datatype View = View(roots: seq<Option<string>>, followed: seq<Option<string>>)

  /** The validation of one run is some function of the run, its window and what it reads. */
  type Judge = (Run, string, Window, View) -> Option<string>

  predicate AllSome(read: seq<Option<string>>) {
    forall i :: 0 <= i < |read| ==> read[i].Some?
  }

  predicate AllRead(view: View) {
    AllSome(view.roots) && AllSome(view.followed)
  }

  /** A validator that refuses a run when a file it reads is missing, empty or another. */
  ghost predicate Strict(judge: Judge) {
    forall run, revision, window, view :: judge(run, revision, window, view).Some? ==> AllRead(view)
  }

  function ReadRef(c: Codec, dir: Directory, ref: Option<Json>): Option<string> {
    if ref.Some? && Holds(c, dir, ref.value) && dir[PathOf(ref.value).value] != ""
    then Some(dir[PathOf(ref.value).value]) else None
  }

  function ReadEach(c: Codec, dir: Directory, refs: seq<Option<Json>>): (read: seq<Option<string>>)
    ensures |read| == |refs|
  {
    seq(|refs|, i requires 0 <= i < |refs| => ReadRef(c, dir, refs[i]))
  }

  function RootsRead(c: Codec, dir: Directory, run: Run): (read: seq<Option<string>>)
    ensures |read| == |KEYS|
  {
    seq(|KEYS|, i requires 0 <= i < |KEYS| => ReadRef(c, dir, Get(run.body, KEYS[i])))
  }

  // ---- the references the validator follows ----

  function FieldOf(c: Codec, content: Option<string>, key: string): Option<Json> {
    if content.Some? && c.parse(content.value).Some? then Get(c.parse(content.value).value, key) else None
  }

  /** The raw capture each node of a summary cites. */
  function CapturesOf(c: Codec, content: Option<string>): seq<Option<Json>> {
    var nodes := FieldOf(c, content, "nodes");
    if nodes.Some? && nodes.value.Array? then Cited(nodes.value.items) else []
  }

  function Cited(nodes: seq<Json>): (refs: seq<Option<Json>>)
    ensures |refs| == |nodes|
  {
    seq(|nodes|, i requires 0 <= i < |nodes| => Get(nodes[i], "raw_evidence"))
  }

  function Followed(c: Codec, roots: seq<Option<string>>): seq<Option<Json>>
    requires |roots| == |KEYS|
  {
    CapturesOf(c, roots[TOPOLOGY]) + [FieldOf(c, roots[UI], "screen")]
  }

  function FollowedBy(c: Codec, dir: Directory, run: Run): seq<Option<Json>> {
    Followed(c, RootsRead(c, dir, run))
  }

  function ViewOf(c: Codec, dir: Directory, run: Run): View {
    View(RootsRead(c, dir, run), ReadEach(c, dir, FollowedBy(c, dir, run)))
  }

  // ---- collecting a run's files ----

  /** The attachments under the keys; None when one is missing. */
  function Attachments(run: Run, keys: seq<string>): Option<seq<Json>>
    decreases |keys|
  {
    if keys == [] then Some([])
    else
      var before, last := Attachments(run, keys[..|keys| - 1]), Get(run.body, keys[|keys| - 1]);
      if before.Some? && last.Some? then Some(before.value + [last.value]) else None
  }

  /** The attachments, and every reference inside the run itself. */
  function Roots(run: Run): Option<seq<Json>> {
    Both(Attachments(run, KEYS), NestedRefs(run.body))
  }

  function Collected(c: Codec, dir: Directory, run: Run): Option<Directory> {
    if Roots(run).None? then None else Finish(c, dir, Roots(run).value, [], map[])
  }

  lemma {:induction false} AttachmentsHave(run: Run, keys: seq<string>, i: nat)
    requires Attachments(run, keys).Some? && i < |keys|
    ensures |Attachments(run, keys).value| == |keys|
    ensures Get(run.body, keys[i]) == Some(Attachments(run, keys).value[i])
    decreases |keys|
  {
    if i < |keys| - 1 {
      AttachmentsHave(run, keys[..|keys| - 1], i);
    } else if |keys| > 1 {
      AttachmentsHave(run, keys[..|keys| - 1], 0);
    }
  }

  predicate Carried(found: Directory, dir: Directory) {
    forall name :: name in found ==> name in dir && dir[name] == found[name]
  }

  lemma ReadCarried(c: Codec, dir: Directory, found: Directory, there: Directory, ref: Json)
    requires Got(c, dir, found, ref) && FoundIn(dir, found) && Carried(found, there)
    ensures ReadRef(c, there, Some(ref)) == ReadRef(c, dir, Some(ref))
  {
  }

  /** Every attachment has been collected, as it is. */
  lemma KeyFound(c: Codec, dir: Directory, run: Run, i: nat)
    requires Collected(c, dir, run).Some? && i < |KEYS|
    ensures i < |Roots(run).value| && Get(run.body, KEYS[i]) == Some(Roots(run).value[i])
    ensures Got(c, dir, Collected(c, dir, run).value, Roots(run).value[i])
    ensures FoundIn(dir, Collected(c, dir, run).value)
  {
    var roots := Roots(run).value;
    CollectsAll(c, dir, roots);
    AttachmentsHave(run, KEYS, i);
    assert Attachments(run, KEYS).value[i] == roots[i];
    assert NamedBy(c, dir, roots, i, PathOf(roots[i]));
    NamedIs(c, dir, roots, 0, PathOf(roots[i]));
  }

  /** Where its collected files are, the attachments read the same and the same references
      are followed. */
  lemma RootsCarried(c: Codec, dir: Directory, run: Run, there: Directory)
    requires Collected(c, dir, run).Some? && Carried(Collected(c, dir, run).value, there)
    ensures RootsRead(c, there, run) == RootsRead(c, dir, run)
  {
    forall i | 0 <= i < |KEYS|
      ensures RootsRead(c, there, run)[i] == RootsRead(c, dir, run)[i]
    {
      KeyFound(c, dir, run, i);
      ReadCarried(c, dir, Collected(c, dir, run).value, there, Roots(run).value[i]);
    }
  }

  // ---- when a run is judged alike ----

  /** Everything the validator follows can be read there. */
  predicate Travels(c: Codec, dir: Directory, run: Run, there: Directory) {
    forall ref :: ref in FollowedBy(c, dir, run) ==> ReadRef(c, there, ref).Some?
  }

  lemma EachReadIff(c: Codec, dir: Directory, refs: seq<Option<Json>>)
    ensures AllSome(ReadEach(c, dir, refs)) <==> forall ref :: ref in refs ==> ReadRef(c, dir, ref).Some?
  {
    if AllSome(ReadEach(c, dir, refs)) {
      forall ref | ref in refs
        ensures ReadRef(c, dir, ref).Some?
      {
        var i :| 0 <= i < |refs| && refs[i] == ref;
        assert ReadEach(c, dir, refs)[i].Some?;
      }
    }
  }

  /** What a reference reads is fixed by its digest, or by being the same file. */
  lemma ReadSame(c: Codec, dir: Directory, there: Directory, ref: Option<Json>)
    requires Collisionless(c) || FoundIn(dir, there)
    requires ReadRef(c, dir, ref).Some? && ReadRef(c, there, ref).Some?
    ensures ReadRef(c, dir, ref) == ReadRef(c, there, ref)
  {
    var name := PathOf(ref.value).value;
    assert c.digest(dir[name]) == c.digest(there[name]);
  }

  lemma EachSame(c: Codec, dir: Directory, there: Directory, refs: seq<Option<Json>>)
    requires Collisionless(c) || FoundIn(dir, there)
    requires AllSome(ReadEach(c, dir, refs)) && AllSome(ReadEach(c, there, refs))
    ensures ReadEach(c, there, refs) == ReadEach(c, dir, refs)
  {
    forall i | 0 <= i < |refs|
      ensures ReadEach(c, there, refs)[i] == ReadEach(c, dir, refs)[i]
    {
      assert ReadEach(c, dir, refs)[i].Some? && ReadEach(c, there, refs)[i].Some?;
      ReadSame(c, dir, there, refs[i]);
    }
  }

  /** A run that has been read in full reads the same where its collected files are, exactly
      when everything it follows can be read there. */
  lemma SameViewIff(c: Codec, dir: Directory, run: Run, there: Directory)
    requires Collisionless(c) || FoundIn(dir, there)
    requires Collected(c, dir, run).Some? && Carried(Collected(c, dir, run).value, there)
    requires AllRead(ViewOf(c, dir, run))
    ensures Travels(c, dir, run, there) <==> AllRead(ViewOf(c, there, run))
    ensures Travels(c, dir, run, there) <==> ViewOf(c, there, run) == ViewOf(c, dir, run)
  {
    RootsCarried(c, dir, run, there);
    EachReadIff(c, there, FollowedBy(c, dir, run));
    if Travels(c, dir, run, there) {
      EachSame(c, dir, there, FollowedBy(c, dir, run));
    }
  }

  /** One validator, one accepted run: it is accepted in another directory that holds its
      collected files exactly when all it follows can be read there, and then with the same
      result. */
  lemma JudgedThereIff(c: Codec, judge: Judge, dir: Directory, run: Run, there: Directory, revision: string,
                       window: Window)
    requires Strict(judge) && (Collisionless(c) || FoundIn(dir, there))
    requires Collected(c, dir, run).Some? && Carried(Collected(c, dir, run).value, there)
    requires judge(run, revision, window, ViewOf(c, dir, run)).Some?
    ensures judge(run, revision, window, ViewOf(c, there, run)).Some? <==> Travels(c, dir, run, there)
    ensures Travels(c, dir, run, there) ==>
              judge(run, revision, window, ViewOf(c, there, run)) == judge(run, revision, window, ViewOf(c, dir, run))
  {
    SameViewIff(c, dir, run, there);
  }

  /** The collected files alone let a run be read as before exactly when every reference it
      follows is named by an attachment, by the run itself, or by one of those that was opened. */
  lemma ReadsTheSameIff(c: Codec, dir: Directory, run: Run)
    requires Collected(c, dir, run).Some? && AllRead(ViewOf(c, dir, run))
    ensures ViewOf(c, Collected(c, dir, run).value, run) == ViewOf(c, dir, run) <==>
            forall ref :: ref in FollowedBy(c, dir, run) ==>
              ref.Some? && NamedFrom(c, dir, Roots(run).value, 0, PathOf(ref.value))
  {
    var roots, found := Roots(run).value, Collected(c, dir, run).value;
    CollectsAll(c, dir, roots);
    SameViewIff(c, dir, run, found);
    EachReadIff(c, dir, FollowedBy(c, dir, run));
    forall ref | ref in FollowedBy(c, dir, run)
      ensures ReadRef(c, found, ref).Some? <==> ref.Some? && NamedFrom(c, dir, roots, 0, PathOf(ref.value))
    {
      assert ReadRef(c, dir, ref).Some?;
    }
  }

  // ---- which attachments must be opened ----

  /** The references the combiner finds in the attachment under a key, when it opens it. */
  function NestedUnder(c: Codec, dir: Directory, run: Run, i: nat): seq<Json>
    requires i < |KEYS|
  {
    var content := RootsRead(c, dir, run)[i];
    if content.None? || RefsIn(c, content.value).None? then [] else RefsIn(c, content.value).value
  }

  /** The attachment under the key is named .json, and its file is opened when its turn comes. */
  predicate KeyOpened(c: Codec, dir: Directory, run: Run, i: nat)
    requires Roots(run).Some? && i < |KEYS|
  {
    var roots, ref := Roots(run).value, Get(run.body, KEYS[i]);
    && ref.Some? && PathOf(ref.value).Some? && NamedJson(PathOf(ref.value).value)
    && exists j :: 0 <= j < |roots| && PathOf(roots[j]) == PathOf(ref.value) && OpenedAt(c, dir, roots, j)
  }

  /** What an opened attachment holds has been collected. */
  lemma NestedFound(c: Codec, dir: Directory, run: Run, i: nat)
    requires Collected(c, dir, run).Some? && i < |KEYS| && KeyOpened(c, dir, run, i)
    requires RootsRead(c, dir, run)[i].Some?
    ensures RefsIn(c, RootsRead(c, dir, run)[i].value) == Some(NestedUnder(c, dir, run, i))
    ensures forall ref :: ref in NestedUnder(c, dir, run, i) ==> Got(c, dir, Collected(c, dir, run).value, ref)
  {
    var roots := Roots(run).value;
    KeyFound(c, dir, run, i);
    var j :| 0 <= j < |roots| && PathOf(roots[j]) == PathOf(roots[i]) && OpenedAt(c, dir, roots, j);
    CollectsAll(c, dir, roots);
    assert RootSound(c, dir, roots[j]);
    assert Children(c, dir, roots[j]) == Some(NestedUnder(c, dir, run, i));
    forall ref | ref in NestedUnder(c, dir, run, i)
      ensures Got(c, dir, Collected(c, dir, run).value, ref)
    {
      assert ChildNamed(c, dir, roots[j], PathOf(ref)) && NamedBy(c, dir, roots, j, PathOf(ref));
      NamedIs(c, dir, roots, 0, PathOf(ref));
    }
  }

  lemma {:induction false} FieldAmongRefs(fields: seq<Field>, key: string)
    requires key in ["screen", "raw_evidence"] && RefsOfFields(fields).Some? && GetField(fields, key).Some?
    ensures IsRef(GetField(fields, key).value) && GetField(fields, key).value in RefsOfFields(fields).value
    decreases |fields|
  {
    if fields[|fields| - 1].key != key {
      FieldAmongRefs(fields[..|fields| - 1], key);
    }
  }

  /** Whatever lies below a field that is not itself a reference is among the references. */
  lemma {:induction false} BelowAmongRefs(fields: seq<Field>, key: string)
    requires RefsOfFields(fields).Some? && GetField(fields, key).Some? && !IsRef(GetField(fields, key).value)
    ensures NestedRefs(GetField(fields, key).value).Some?
    ensures forall ref :: ref in NestedRefs(GetField(fields, key).value).value ==> ref in RefsOfFields(fields).value
    decreases |fields|
  {
    if fields[|fields| - 1].key != key {
      BelowAmongRefs(fields[..|fields| - 1], key);
    }
  }

  lemma {:induction false} ItemAmongRefs(items: seq<Json>, i: nat)
    requires RefsOfItems(items).Some? && i < |items|
    ensures NestedRefs(items[i]).Some?
    ensures forall ref :: ref in NestedRefs(items[i]).value ==> ref in RefsOfItems(items).value
    decreases |items|
  {
    if i < |items| - 1 {
      ItemAmongRefs(items[..|items| - 1], i);
    }
  }

  /** The captures a summary cites are among the references found in it. */
  lemma CapturesNested(c: Codec, content: string, ref: Option<Json>)
    requires RefsIn(c, content).Some? && ref in CapturesOf(c, Some(content)) && ref.Some?
    ensures ref.value in RefsIn(c, content).value
  {
    var fields := c.parse(content).value.fields;
    var nodes := GetField(fields, "nodes").value;
    var k :| 0 <= k < |nodes.items| && Cited(nodes.items)[k] == ref;
    BelowAmongRefs(fields, "nodes");
    ItemAmongRefs(nodes.items, k);
    FieldAmongRefs(nodes.items[k].fields, "raw_evidence");
  }

  lemma ScreenNested(c: Codec, content: string)
    requires RefsIn(c, content).Some? && FieldOf(c, Some(content), "screen").Some?
    ensures FieldOf(c, Some(content), "screen").value in RefsIn(c, content).value
  {
    FieldAmongRefs(c.parse(content).value.fields, "screen");
  }

  /** The native summary cites every capture the topology does. */
  predicate CapturesShared(c: Codec, dir: Directory, run: Run) {
    var roots := RootsRead(c, dir, run);
    forall ref :: ref in CapturesOf(c, roots[TOPOLOGY]) ==> ref in CapturesOf(c, roots[NATIVE])
  }

  /** The UI attachment is opened, and so is one of those that cite the raw captures. */
  predicate Portable(c: Codec, dir: Directory, run: Run) {
    && Roots(run).Some? && KeyOpened(c, dir, run, UI)
    && (KeyOpened(c, dir, run, TOPOLOGY) || (KeyOpened(c, dir, run, NATIVE) && CapturesShared(c, dir, run)))
  }

  lemma CapturesFound(c: Codec, dir: Directory, run: Run, i: nat, ref: Option<Json>)
    requires Collected(c, dir, run).Some? && i < |KEYS| && KeyOpened(c, dir, run, i)
    requires RootsRead(c, dir, run)[i].Some? && ref.Some? && ref in CapturesOf(c, RootsRead(c, dir, run)[i])
    ensures Got(c, dir, Collected(c, dir, run).value, ref.value)
  {
    NestedFound(c, dir, run, i);
    CapturesNested(c, RootsRead(c, dir, run)[i].value, ref);
  }

  /** A portable run is read in full wherever the files collected for it are. */
  lemma PortableTravels(c: Codec, dir: Directory, run: Run, there: Directory)
    requires Portable(c, dir, run) && Collected(c, dir, run).Some? && AllRead(ViewOf(c, dir, run))
    requires Carried(Collected(c, dir, run).value, there)
    ensures Travels(c, dir, run, there)
  {
    var roots := RootsRead(c, dir, run);
    EachReadIff(c, dir, FollowedBy(c, dir, run));
    forall ref | ref in FollowedBy(c, dir, run)
      ensures ReadRef(c, there, ref).Some?
    {
      assert ReadRef(c, dir, ref).Some? && roots[UI].Some? && roots[TOPOLOGY].Some? && roots[NATIVE].Some?;
      KeyFound(c, dir, run, UI);
      if ref in CapturesOf(c, roots[TOPOLOGY]) {
        CapturesFound(c, dir, run, if KeyOpened(c, dir, run, TOPOLOGY) then TOPOLOGY else NATIVE, ref);
      } else {
        NestedFound(c, dir, run, UI);
        ScreenNested(c, roots[UI].value);
      }
      ReadCarried(c, dir, Collected(c, dir, run).value, there, ref.value);
    }
  }
}
