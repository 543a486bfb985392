/** Bundles of one run whose attachments are named in every way. Their files refer to each other
    as captured ones do, and may hold anything else besides. */
module SampleBundle {
  import opened Results
  import opened EvidenceFiles
  import opened ProductGate
  import opened RunReading
  import opened BundleCombine

  /** What else an object of a file holds, by the file's text or, for a node of a summary, by
      that and the node; and the revision and window of the bundles. */
  datatype Kit = Kit(more: string -> seq<Field>, revision: string, window: Window)

  /** The rest of the files cites no further files. */
  ghost predicate Usable(kit: Kit) {
    IsRevision(kit.revision) && Ordered(kit.window) && forall text :: RefsOfFields(kit.more(text)) == Some([])
  }

  // ---- files ----

  /** A file of a run: what it holds, and whether it is named .json. */
  datatype Doc = Doc(kind: char, json: bool)

  /** Response, intent, handoffs, topology, native, UI, the intent before, raw captures, screen. */
  const KINDS := {'r', 'i', 'h', 't', 'n', 'u', 'b', '0', '1', '2', 's'}

  const SCREEN := Doc('s', false)

  function Raw(kind: char): Doc {
    Doc(kind, false)
  }

  /** Of a file named .json an object is expected. */
  predicate IsDoc(d: Doc) {
    d.kind in KINDS && (d.json ==> d.kind != 'h' && d.kind != 's')
  }

  function Name(m: char, d: Doc): (name: string)
    ensures |name| == (if d.json then 7 else 6) && name[0] == m && name[1] == d.kind
    ensures d.json ==> name[2..] == ".json"
  {
    [m, d.kind] + if d.json then ".json" else ".txt"
  }

  function Content(m: char, d: Doc): string {
    [m, d.kind]
  }

  function Names(m: char): set<string> {
    set kind, json | kind in KINDS && json in {false, true} :: Name(m, Doc(kind, json))
  }

  /** The directory of one run's bundle. */
  function Dir(m: char): Directory {
    map name | name in Names(m) :: name[..2]
  }

  function Ref(m: char, d: Doc): Json {
    Reference(Name(m, d), Content(m, d))
  }

  function Reference(path: string, sha: string): Json {
    Object([Field("path", Text(path)), Field("sha256", Text(sha))])
  }

  function Refs(m: char, docs: seq<Doc>): (refs: seq<Json>)
    ensures |refs| == |docs|
  {
    seq(|docs|, i requires 0 <= i < |docs| => Ref(m, docs[i]))
  }

  /** What the combiner finds in such a file when it opens it. */
  function Kids(kind: char): seq<Doc> {
    if kind == 't' || kind == 'n' then [Raw('0'), Raw('1'), Raw('2')]
    else if kind == 'u' then [SCREEN]
    else if kind == 'b' then [Doc('u', true)]
    else []
  }

  function Holding(rest: seq<Field>, key: string, item: Json): Json {
    Object(rest + [Field(key, item)])
  }

  function Node(kit: Kit, m: char, kind: char, node: char): Json {
    Holding(kit.more([m, kind, node]), "raw_evidence", Ref(m, Raw(node)))
  }

  function Items(kit: Kit, m: char, kind: char): seq<Json> {
    [Node(kit, m, kind, '0'), Node(kit, m, kind, '1'), Node(kit, m, kind, '2')]
  }

  function Parse(kit: Kit, content: string): Option<Json> {
    if |content| != 2 || content[1] == 'h' || content[1] == 's' then None
    else
      var m, rest := content[0], kit.more(content);
      if content[1] == 't' || content[1] == 'n' then Some(Holding(rest, "nodes", Array(Items(kit, m, content[1]))))
      else if content[1] == 'u' then Some(Holding(rest, "screen", Ref(m, SCREEN)))
      else if content[1] == 'b' then Some(Holding(rest, "ui_capture", Ref(m, Doc('u', true))))
      else Some(Object(rest))
  }

  function Files(kit: Kit): Codec {
    Codec((content: string) => content, (content: string) => Parse(kit, content))
  }

  lemma NoCollisions(kit: Kit)
    ensures Collisionless(Files(kit))
  {
    var c := Files(kit);
    forall a, b | c.digest(a) == c.digest(b)
      ensures a == b
    {
    }
  }

  lemma ReferenceIs(path: string, sha: string)
    ensures IsRef(Reference(path, sha))
    ensures PathOf(Reference(path, sha)) == Some(path) && ShaOf(Reference(path, sha)) == Some(sha)
  {
    var fields := [Field("path", Text(path)), Field("sha256", Text(sha))];
    var first := [fields[0]];
    assert fields[..|fields| - 1] == first && first[..|first| - 1] == [];
    assert |"path"| == 4 && |"sha256"| == 6;
    assert GetField(first, "path") == Some(Text(path));
    assert GetField(fields, "path") == Some(Text(path)) && GetField(fields, "sha256") == Some(Text(sha));
  }

  lemma RefIs(m: char, d: Doc)
    ensures IsRef(Ref(m, d)) && PathOf(Ref(m, d)) == Some(Name(m, d)) && ShaOf(Ref(m, d)) == Some(Content(m, d))
  {
    ReferenceIs(Name(m, d), Content(m, d));
  }

  lemma Stored(m: char, d: Doc)
    requires IsDoc(d)
    ensures Name(m, d) in Dir(m) && Dir(m)[Name(m, d)] == Content(m, d)
  {
    assert Name(m, Doc(d.kind, d.json)) in Names(m);
    assert Name(m, d)[..2] == Content(m, d);
  }

  lemma Lettered(m: char, name: string)
    requires name in Dir(m)
    ensures 2 < |name| <= 7 && name[0] == m
  {
  }

  lemma NameTells(m: char, a: Doc, b: Doc)
    ensures Name(m, a) == Name(m, b) ==> a == b
  {
  }

  lemma Held(kit: Kit, m: char, d: Doc)
    requires IsDoc(d)
    ensures Holds(Files(kit), Dir(m), Ref(m, d))
    ensures ReadRef(Files(kit), Dir(m), Some(Ref(m, d))) == Some(Content(m, d))
  {
    RefIs(m, d);
    Stored(m, d);
  }

  lemma JsonIsLower()
    ensures LowerAll(".json") == ".json"
  {
    assert LowerAll("") == "" && LowerAll("n") == "n" && LowerAll("on") == "on" && LowerAll("son") == "son";
    assert LowerAll("json") == "json";
  }

  lemma NoDotFirst(s: string)
    requires s != "" && s[0] != '.'
    ensures LowerAll(s) != ".json"
  {
    assert LowerAll(s)[0] == Lower(s[0]);
  }

  lemma SuffixTells(m: char, d: Doc)
    requires IsDoc(d)
    ensures NamedJson(Name(m, d)) <==> d.json
  {
    var name := Name(m, d);
    var end := name[|name| - 5..];
    if d.json {
      JsonIsLower();
      assert end == ".json";
    } else {
      assert end[0] == d.kind;
      NoDotFirst(end);
    }
  }

  // ---- what the files refer to ----

  lemma Holds1(rest: seq<Field>, key: string, ref: Json)
    requires IsRef(ref) && RefsOfFields(rest) == Some([])
    ensures NestedRefs(Holding(rest, key, ref)) == Some([ref]) && Get(Holding(rest, key, ref), key) == Some(ref)
  {
    var fields, none: seq<Json> := rest + [Field(key, ref)], [];
    assert fields[..|fields| - 1] == rest && none + [ref] == [ref];
  }

  lemma HoldsList(rest: seq<Field>, items: seq<Json>, refs: seq<Json>)
    requires RefsOfItems(items) == Some(refs) && RefsOfFields(rest) == Some([])
    ensures NestedRefs(Holding(rest, "nodes", Array(items))) == Some(refs)
    ensures Get(Holding(rest, "nodes", Array(items)), "nodes") == Some(Array(items))
  {
    var fields, none: seq<Json> := rest + [Field("nodes", Array(items))], [];
    assert fields[..|fields| - 1] == rest && fields[|fields| - 1] == Field("nodes", Array(items))
           && none + refs == refs;
    assert !IsRef(Array(items)) && NestedRefs(Array(items)) == Some(refs);
    assert "nodes"[0] == 'n' && "screen"[0] == 's' && "raw_evidence"[0] == 'r';
  }

  lemma OneMoreItem(items: seq<Json>, refs: seq<Json>, item: Json, ref: Json)
    requires RefsOfItems(items) == Some(refs) && NestedRefs(item) == Some([ref])
    ensures RefsOfItems(items + [item]) == Some(refs + [ref])
  {
    assert (items + [item])[..|items|] == items;
  }

  lemma ThreeItems(a: Json, b: Json, c: Json, x: Json, y: Json, z: Json)
    requires NestedRefs(a) == Some([x]) && NestedRefs(b) == Some([y]) && NestedRefs(c) == Some([z])
    ensures RefsOfItems([a, b, c]) == Some([x, y, z])
  {
    var none: seq<Json> := [];
    assert none + [a] == [a] && [a] + [b] == [a, b] && [a, b] + [c] == [a, b, c];
    assert none + [x] == [x] && [x] + [y] == [x, y] && [x, y] + [z] == [x, y, z];
    OneMoreItem(none, none, a, x);
    OneMoreItem([a], [x], b, y);
    OneMoreItem([a, b], [x, y], c, z);
  }

  function Captures(m: char): seq<Json> {
    [Ref(m, Raw('0')), Ref(m, Raw('1')), Ref(m, Raw('2'))]
  }

  lemma NodeRefers(kit: Kit, m: char, kind: char, node: char)
    requires Usable(kit)
    ensures NestedRefs(Node(kit, m, kind, node)) == Some([Ref(m, Raw(node))])
    ensures Get(Node(kit, m, kind, node), "raw_evidence") == Some(Ref(m, Raw(node)))
  {
    RefIs(m, Raw(node));
    Holds1(kit.more([m, kind, node]), "raw_evidence", Ref(m, Raw(node)));
  }

  lemma SummaryRefers(kit: Kit, m: char, kind: char)
    requires Usable(kit)
    ensures var summary := Holding(kit.more([m, kind]), "nodes", Array(Items(kit, m, kind)));
            NestedRefs(summary) == Some(Captures(m)) && Get(summary, "nodes") == Some(Array(Items(kit, m, kind)))
  {
    NodeRefers(kit, m, kind, '0');
    NodeRefers(kit, m, kind, '1');
    NodeRefers(kit, m, kind, '2');
    ThreeItems(Node(kit, m, kind, '0'), Node(kit, m, kind, '1'), Node(kit, m, kind, '2'),
               Ref(m, Raw('0')), Ref(m, Raw('1')), Ref(m, Raw('2')));
    HoldsList(kit.more([m, kind]), Items(kit, m, kind), Captures(m));
  }

  lemma Refers(kit: Kit, m: char, d: Doc)
    requires Usable(kit) && d.kind != 'h' && d.kind != 's'
    ensures RefsIn(Files(kit), Content(m, d)) == Some(Refs(m, Kids(d.kind)))
  {
    if d.kind == 't' || d.kind == 'n' {
      SummaryRefers(kit, m, d.kind);
      assert Refs(m, Kids(d.kind)) == Captures(m);
    } else if d.kind == 'u' {
      RefIs(m, SCREEN);
      Holds1(kit.more(Content(m, d)), "screen", Ref(m, SCREEN));
      assert Refs(m, Kids(d.kind)) == [Ref(m, SCREEN)];
    } else if d.kind == 'b' {
      RefIs(m, Doc('u', true));
      Holds1(kit.more(Content(m, d)), "ui_capture", Ref(m, Doc('u', true)));
      assert Refs(m, Kids(d.kind)) == [Ref(m, Doc('u', true))];
    } else {
      assert Refs(m, Kids(d.kind)) == [];
    }
  }

  /** The children of an attachment: none when it is not named .json. */
  function Opens(d: Doc): seq<Doc> {
    if d.json then Kids(d.kind) else []
  }

  lemma ChildrenAre(kit: Kit, m: char, d: Doc)
    requires Usable(kit) && IsDoc(d)
    ensures Children(Files(kit), Dir(m), Ref(m, d)) == Some(Refs(m, Opens(d)))
    ensures RootSound(Files(kit), Dir(m), Ref(m, d))
  {
    RefIs(m, d);
    Held(kit, m, d);
    Stored(m, d);
    SuffixTells(m, d);
    if d.json {
      Refers(kit, m, d);
    } else {
      assert Refs(m, []) == [];
    }
    forall i | 0 <= i < |Opens(d)|
      ensures Holds(Files(kit), Dir(m), Refs(m, Opens(d))[i])
    {
      Held(kit, m, Opens(d)[i]);
    }
  }

  lemma ChildIs(kit: Kit, m: char, d: Doc, kid: Doc)
    requires Usable(kit) && IsDoc(d)
    ensures ChildNamed(Files(kit), Dir(m), Ref(m, d), Some(Name(m, kid))) <==> kid in Opens(d)
  {
    ChildrenAre(kit, m, d);
    var refs := Refs(m, Opens(d));
    forall i | 0 <= i < |refs|
      ensures PathOf(refs[i]) == Some(Name(m, kid)) <==> Opens(d)[i] == kid
    {
      RefIs(m, Opens(d)[i]);
      NameTells(m, Opens(d)[i], kid);
    }
    if kid in Opens(d) {
      var i :| 0 <= i < |refs| && Opens(d)[i] == kid;
      assert refs[i] in refs;
    }
  }

  lemma RefTells(kit: Kit, m: char, doc: Doc, d: Doc)
    requires Usable(kit) && IsDoc(doc)
    ensures PathOf(Ref(m, doc)) == PathOf(Ref(m, d)) <==> doc == d
    ensures ChildNamed(Files(kit), Dir(m), Ref(m, doc), PathOf(Ref(m, d))) <==> d in Opens(doc)
  {
    RefIs(m, doc);
    RefIs(m, d);
    NameTells(m, doc, d);
    ChildIs(kit, m, doc, d);
  }

  // ---- the runs ----

  const LABELS := KEYS + ["intent_before"]

  const ORDER := ['r', 'i', 'h', 't', 'n', 'u', 'b']

  /** One document for each attachment in turn; the last one may be missing. */
  predicate Attachable(docs: seq<Doc>) {
    |KEYS| <= |docs| <= |LABELS| && forall i :: 0 <= i < |docs| ==> IsDoc(docs[i]) && docs[i].kind == ORDER[i]
  }

  function FieldsOf(m: char, docs: seq<Doc>): (fields: seq<Field>)
    requires |docs| <= |LABELS|
    ensures |fields| == |docs|
  {
    seq(|docs|, i requires 0 <= i < |docs| => Field(LABELS[i], Ref(m, docs[i])))
  }

  function Letter(mode: Mode): char {
    if mode == DL then 'd' else 'l'
  }

  function RunOf(mode: Mode, docs: seq<Doc>): Run
    requires |docs| <= |LABELS|
  {
    Run(mode, Object(FieldsOf(Letter(mode), docs)))
  }

  /** The roots of such a run: its attachments by key, and then all as they stand in it. */
  function Twice(docs: seq<Doc>): seq<Doc>
    requires |KEYS| <= |docs|
  {
    docs[..|KEYS|] + docs
  }

  lemma LabelsDistinct(i: nat, j: nat)
    requires i < j < |LABELS|
    ensures LABELS[i] != LABELS[j]
  {
    assert KEYS[0][0] == 'r' && KEYS[2][0] == 'h' && KEYS[3][0] == 't' && KEYS[4][0] == 'n' && KEYS[5][0] == 'u';
    assert |KEYS[1]| == 6 && KEYS[1][0] == 'i' && |"intent_before"| == 13 && "intent_before"[0] == 'i';
    assert forall k :: 0 <= k < |KEYS| ==> LABELS[k] == KEYS[k];
  }

  lemma Shorter<T>(s: seq<T>, k: nat)
    requires 0 < k <= |s|
    ensures s[..k][..k - 1] == s[..k - 1] && s[..k] == s[..k - 1] + [s[k - 1]] && s[..k][k - 1] == s[k - 1]
  {
  }

  lemma {:induction false} GetAttached(m: char, docs: seq<Doc>, i: nat, k: nat)
    requires |docs| <= |LABELS| && i < k <= |docs|
    ensures GetField(FieldsOf(m, docs)[..k], LABELS[i]) == Some(Ref(m, docs[i]))
    decreases k
  {
    Shorter(FieldsOf(m, docs), k);
    if i < k - 1 {
      LabelsDistinct(i, k - 1);
      GetAttached(m, docs, i, k - 1);
    }
  }

  lemma {:induction false} AttachedAre(run: Run, refs: seq<Json>, k: nat)
    requires |KEYS| <= |refs| && k <= |KEYS|
    requires forall i :: 0 <= i < |KEYS| ==> Get(run.body, KEYS[i]) == Some(refs[i])
    ensures Attachments(run, KEYS[..k]) == Some(refs[..k])
    decreases k
  {
    if k > 0 {
      Shorter(KEYS, k);
      Shorter(refs, k);
      AttachedAre(run, refs, k - 1);
    }
  }

  lemma {:induction false} NestedAre(m: char, docs: seq<Doc>, k: nat)
    requires k <= |docs| <= |LABELS|
    ensures RefsOfFields(FieldsOf(m, docs)[..k]) == Some(Refs(m, docs)[..k])
    decreases k
  {
    if k > 0 {
      Shorter(FieldsOf(m, docs), k);
      Shorter(Refs(m, docs), k);
      NestedAre(m, docs, k - 1);
      RefIs(m, docs[k - 1]);
    }
  }

  lemma KeysGet(mode: Mode, docs: seq<Doc>, i: nat)
    requires Attachable(docs) && i < |KEYS|
    ensures Get(RunOf(mode, docs).body, KEYS[i]) == Some(Ref(Letter(mode), docs[i]))
  {
    var fields := FieldsOf(Letter(mode), docs);
    assert fields[..|docs|] == fields && LABELS[i] == KEYS[i];
    GetAttached(Letter(mode), docs, i, |docs|);
  }

  lemma RefsTwice(m: char, docs: seq<Doc>)
    requires |KEYS| <= |docs|
    ensures Refs(m, docs)[..|KEYS|] + Refs(m, docs) == Refs(m, Twice(docs))
  {
  }

  lemma RootsOf(mode: Mode, docs: seq<Doc>)
    requires Attachable(docs)
    ensures Roots(RunOf(mode, docs)) == Some(Refs(Letter(mode), Twice(docs)))
    ensures forall i :: 0 <= i < |KEYS| ==> Get(RunOf(mode, docs).body, KEYS[i]) == Some(Ref(Letter(mode), docs[i]))
  {
    var run, m := RunOf(mode, docs), Letter(mode);
    var fields, refs := FieldsOf(m, docs), Refs(m, docs);
    forall i | 0 <= i < |KEYS|
      ensures Get(run.body, KEYS[i]) == Some(refs[i])
    {
      KeysGet(mode, docs, i);
    }
    AttachedAre(run, refs, |KEYS|);
    NestedAre(m, docs, |docs|);
    assert fields[..|docs|] == fields && refs[..|docs|] == refs && KEYS[..|KEYS|] == KEYS;
    RefsTwice(m, docs);
  }

  /** The place of a root among the documents. */
  function KeyOf(j: nat): nat {
    if j < |KEYS| then j else j - |KEYS|
  }

  lemma KindsAre(docs: seq<Doc>, j: nat)
    requires Attachable(docs) && j < |Twice(docs)|
    ensures KeyOf(j) < |docs| && Twice(docs)[j] == docs[KeyOf(j)]
    ensures IsDoc(Twice(docs)[j]) && Twice(docs)[j].kind == ORDER[KeyOf(j)]
  {
  }

  /** Such a run is collected, out of its own directory. */
  lemma RunCollected(kit: Kit, mode: Mode, docs: seq<Doc>)
    requires Usable(kit) && Attachable(docs)
    ensures var m, found := Letter(mode), Collected(Files(kit), Dir(Letter(mode)), RunOf(mode, docs));
            && found.Some? && FoundIn(Dir(m), found.value)
            && forall name ::
                 name in found.value <==> NamedFrom(Files(kit), Dir(m), Refs(m, Twice(docs)), 0, Some(name))
  {
    var m := Letter(mode);
    RootsOf(mode, docs);
    forall j | 0 <= j < |Twice(docs)|
      ensures Holds(Files(kit), Dir(m), Refs(m, Twice(docs))[j])
      ensures RootSound(Files(kit), Dir(m), Refs(m, Twice(docs))[j])
    {
      KindsAre(docs, j);
      Held(kit, m, Twice(docs)[j]);
      ChildrenAre(kit, m, Twice(docs)[j]);
    }
    CollectsAll(Files(kit), Dir(m), Refs(m, Twice(docs)));
  }

  // ---- what is read of them ----

  function Cited3(m: char): seq<Option<Json>> {
    [Some(Ref(m, Raw('0'))), Some(Ref(m, Raw('1'))), Some(Ref(m, Raw('2')))]
  }

  lemma SummaryCites(kit: Kit, m: char, d: Doc)
    requires Usable(kit) && (d.kind == 't' || d.kind == 'n')
    ensures CapturesOf(Files(kit), Some(Content(m, d))) == Cited3(m)
  {
    SummaryRefers(kit, m, d.kind);
    NodeRefers(kit, m, d.kind, '0');
    NodeRefers(kit, m, d.kind, '1');
    NodeRefers(kit, m, d.kind, '2');
    assert Cited(Items(kit, m, d.kind)) == Cited3(m);
  }

  lemma ScreenCited(kit: Kit, m: char, d: Doc)
    requires Usable(kit) && d.kind == 'u'
    ensures FieldOf(Files(kit), Some(Content(m, d)), "screen") == Some(Ref(m, SCREEN))
  {
    RefIs(m, SCREEN);
    Holds1(kit.more(Content(m, d)), "screen", Ref(m, SCREEN));
  }

  lemma RootsReadAre(kit: Kit, mode: Mode, docs: seq<Doc>, i: nat)
    requires Attachable(docs) && i < |KEYS|
    ensures RootsRead(Files(kit), Dir(Letter(mode)), RunOf(mode, docs))[i] == Some(Content(Letter(mode), docs[i]))
  {
    RootsOf(mode, docs);
    Held(kit, Letter(mode), docs[i]);
  }

  /** What the validator follows: the captures of the topology, which the native summary cites
      as well, and the screen of the UI attachment. */
  lemma CitedAre(kit: Kit, mode: Mode, docs: seq<Doc>)
    requires Usable(kit) && Attachable(docs)
    ensures var m, roots := Letter(mode), RootsRead(Files(kit), Dir(Letter(mode)), RunOf(mode, docs));
            && CapturesOf(Files(kit), roots[TOPOLOGY]) == Cited3(m)
               && CapturesOf(Files(kit), roots[NATIVE]) == Cited3(m)
            && FieldOf(Files(kit), roots[UI], "screen") == Some(Ref(m, SCREEN))
  {
    var m := Letter(mode);
    RootsReadAre(kit, mode, docs, TOPOLOGY);
    RootsReadAre(kit, mode, docs, NATIVE);
    RootsReadAre(kit, mode, docs, UI);
    SummaryCites(kit, m, docs[TOPOLOGY]);
    SummaryCites(kit, m, docs[NATIVE]);
    ScreenCited(kit, m, docs[UI]);
  }

  function Single(kit: Kit, mode: Mode, docs: seq<Doc>): Input
    requires |docs| <= |LABELS|
  {
    Input(Dir(Letter(mode)), Bundle(1, kit.revision, true, true, kit.window, [RunOf(mode, docs)], None))
  }

  /** The validator accepts the run in its own directory. */
  ghost predicate AcceptsRun(kit: Kit, judge: Judge, mode: Mode, docs: seq<Doc>)
    requires |docs| <= |LABELS|
  {
    judge(RunOf(mode, docs), kit.revision, kit.window, ViewOf(Files(kit), Dir(Letter(mode)), RunOf(mode, docs))).Some?
  }

  lemma PassesAlone(kit: Kit, judge: Judge, mode: Mode, docs: seq<Doc>)
    requires Usable(kit) && Attachable(docs) && AcceptsRun(kit, judge, mode, docs)
    ensures Passes(Files(kit), judge, Dir(Letter(mode)), Single(kit, mode, docs).bundle, kit.revision, [mode])
  {
    var b := Single(kit, mode, docs).bundle;
    assert b.runs[0].mode == mode && SameModes(b.runs, [mode]);
  }
}
