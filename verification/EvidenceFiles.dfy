/** Evidence attachments: references by path and digest, the collection of every file a run
    refers to, and their copy into another directory. */
module EvidenceFiles {
  import opened Results

  datatype Field = Field(key: string, item: Json)

  datatype Json = Object(fields: seq<Field>) | Array(items: seq<Json>) | Text(text: string) | Scalar(number: real)

  /** A directory by confined, normalised path; any other path is simply not in it. */
  type Directory = map<string, string>

  /** The digest of a file's bytes and the JSON they parse to, if any. */
  datatype Codec = Codec(digest: string -> string, parse: string -> Option<Json>)

  ghost predicate Collisionless(c: Codec) {
    forall a, b :: c.digest(a) == c.digest(b) ==> a == b
  }

  function Get(value: Json, key: string): Option<Json> {
    if value.Object? then GetField(value.fields, key) else None
  }

  function GetField(fields: seq<Field>, key: string): Option<Json> {
    if fields == [] then None
    else if fields[|fields| - 1].key == key then Some(fields[|fields| - 1].item)
    else GetField(fields[..|fields| - 1], key)
  }

  /** Any object that names a path and a digest. */
  predicate IsRef(value: Json) {
    Get(value, "path").Some? && Get(value, "sha256").Some?
  }

  /** The references inside a value, not looking inside a reference; None when a screen or a
      raw capture is not one. */
  function NestedRefs(value: Json): Option<seq<Json>>
    decreases value, 0
  {
    match value
    case Object(fields) => RefsOfFields(fields)
    case Array(items) => RefsOfItems(items)
    case _ => Some([])
  }

  function RefsOfFields(fields: seq<Field>): Option<seq<Json>>
    decreases fields, 0
  {
    if fields == [] then Some([])
    else
      var last := fields[|fields| - 1];
      if last.key in ["screen", "raw_evidence"] && !IsRef(last.item) then None
      else Both(RefsOfFields(fields[..|fields| - 1]),
                if IsRef(last.item) then Some([last.item]) else NestedRefs(last.item))
  }

  function RefsOfItems(items: seq<Json>): Option<seq<Json>>
    decreases items, 0
  {
    if items == [] then Some([])
    else Both(RefsOfItems(items[..|items| - 1]), NestedRefs(items[|items| - 1]))
  }

  function Both(left: Option<seq<Json>>, right: Option<seq<Json>>): Option<seq<Json>> {
    if left.Some? && right.Some? then Some(left.value + right.value) else None
  }

  // ---- reading a referenced file ----

  function PathOf(ref: Json): Option<string> {
    var path := Get(ref, "path");
    if path.Some? && path.value.Text? then Some(path.value.text) else None
  }

  function ShaOf(ref: Json): Option<string> {
    var sha := Get(ref, "sha256");
    if sha.Some? && sha.value.Text? then Some(sha.value.text) else None
  }

  /** The reference names a file of the directory and its digest. */
  predicate Holds(c: Codec, dir: Directory, ref: Json) {
    && PathOf(ref).Some? && PathOf(ref).value in dir
    && ShaOf(ref) == Some(c.digest(dir[PathOf(ref).value]))
  }

  /** The file name has a stem and the suffix .json, in whatever case. */
  predicate NamedJson(name: string) {
    |name| > 5 && LowerAll(name[|name| - 5..]) == ".json" && name[|name| - 6] != '/'
  }

  function Lower(ch: char): char {
    if 'A' <= ch <= 'Z' then ch - 'A' + 'a' else ch
  }

  function LowerAll(s: string): string {
    if s == "" then "" else [Lower(s[0])] + LowerAll(s[1..])
  }

  /** The references inside an attachment that is parsed; None when it does not parse to an
      object or holds a malformed one. */
  function RefsIn(c: Codec, content: string): Option<seq<Json>> {
    var value := c.parse(content);
    if value.Some? && value.value.Object? then NestedRefs(value.value) else None
  }

  // ---- collecting ----

  /** The children of a root attachment: those of a file named .json, and no others. */
  function Children(c: Codec, dir: Directory, root: Json): Option<seq<Json>> {
    if !Holds(c, dir, root) then None
    else if NamedJson(PathOf(root).value) then RefsIn(c, dir[PathOf(root).value])
    else Some([])
  }

  /** Everything a root needs is there. */
  predicate RootSound(c: Codec, dir: Directory, root: Json) {
    Children(c, dir, root).Some? && forall ref :: ref in Children(c, dir, root).value ==> Holds(c, dir, ref)
  }

  predicate NamesOne(refs: seq<Json>, name: Option<string>) {
    exists ref :: ref in refs && PathOf(ref) == name
  }

  predicate ChildNamed(c: Codec, dir: Directory, root: Json, name: Option<string>) {
    Children(c, dir, root).Some? && NamesOne(Children(c, dir, root).value, name)
  }

  /** The roots are taken last first, so a root is opened exactly when no later root has its
      name and no later root that is opened has a child of that name. */
  predicate OpenedAt(c: Codec, dir: Directory, refs: seq<Json>, i: nat)
    requires i < |refs|
    decreases |refs| - i, 0
  {
    !NamedFrom(c, dir, refs, i + 1, PathOf(refs[i]))
  }

  /** The name is that of a root from the k-th on, or of a child of one of them that is opened. */
  predicate NamedFrom(c: Codec, dir: Directory, refs: seq<Json>, k: nat, name: Option<string>)
    requires k <= |refs|
    decreases |refs| - k, 1
  {
    k < |refs| &&
    (|| PathOf(refs[k]) == name
     || (OpenedAt(c, dir, refs, k) && ChildNamed(c, dir, refs[k], name))
     || NamedFrom(c, dir, refs, k + 1, name))
  }

  /** Every root is there, and everything the opened ones need. */
  predicate RootsSound(c: Codec, dir: Directory, refs: seq<Json>, k: nat)
    requires k <= |refs|
  {
    forall i :: 0 <= i < k ==> Holds(c, dir, refs[i]) && (OpenedAt(c, dir, refs, i) ==> RootSound(c, dir, refs[i]))
  }

  /** The reference holds in the directory and its file has been found. */
  predicate Got(c: Codec, dir: Directory, found: Directory, ref: Json) {
    Holds(c, dir, ref) && PathOf(ref).value in found
  }

  function Add(c: Codec, dir: Directory, found: Directory, ref: Json): Directory
    requires Holds(c, dir, ref)
  {
    if PathOf(ref).value in found then found else found[PathOf(ref).value := dir[PathOf(ref).value]]
  }

  /** The worklist run to its end: the children on top of the stack, then the roots below. A
      root whose name has been found already is not parsed. */
  function Finish(c: Codec, dir: Directory, roots: seq<Json>, kids: seq<Json>, found: Directory): Option<Directory>
    decreases |roots|, |kids|
  {
    if kids != [] then
      var kid := kids[|kids| - 1];
      if !Holds(c, dir, kid) then None else Finish(c, dir, roots, kids[..|kids| - 1], Add(c, dir, found, kid))
    else if roots != [] then
      var root, below := roots[|roots| - 1], roots[..|roots| - 1];
      if !Holds(c, dir, root) then None
      else if PathOf(root).value in found then Finish(c, dir, below, [], found)
      else if Children(c, dir, root).None? then None
      else Finish(c, dir, below, Children(c, dir, root).value, Add(c, dir, found, root))
    else Some(found)
  }

  datatype Pending = Pending(ref: Json, parsed: bool)

  function Flagged(refs: seq<Json>, parsed: bool): (pending: seq<Pending>)
    ensures |pending| == |refs|
  {
    seq(|refs|, i requires 0 <= i < |refs| => Pending(refs[i], parsed))
  }

  lemma FlaggedTop(roots: seq<Json>, kids: seq<Json>)
    requires roots != [] || kids != []
    ensures var pending := Flagged(roots, true) + Flagged(kids, false);
            pending[..|pending| - 1] ==
              (if kids == [] then Flagged(roots[..|roots| - 1], true) + Flagged([], false)
               else Flagged(roots, true) + Flagged(kids[..|kids| - 1], false))
            && pending[|pending| - 1] ==
              (if kids == [] then Pending(roots[|roots| - 1], true) else Pending(kids[|kids| - 1], false))
  {
  }

  /** Follows the references of the roots, last first; what a root holds is opened next. */
  method CollectFiles(c: Codec, dir: Directory, refs: seq<Json>) returns (found: Result<Directory>)
    ensures found == match Finish(c, dir, refs, [], map[]) case Some(files) => Ok(files) case None => Err
  {
    var files: Directory := map[];
    var pending := Flagged(refs, true);
    ghost var roots, kids: seq<Json> := refs, [];
    assert pending == Flagged(refs, true) + Flagged([], false);
    while pending != []
      invariant pending == Flagged(roots, true) + Flagged(kids, false)
      invariant Finish(c, dir, roots, kids, files) == Finish(c, dir, refs, [], map[])
      decreases |roots|, |kids|
    {
      FlaggedTop(roots, kids);
      var top := pending[|pending| - 1];
      pending := pending[..|pending| - 1];
      if kids == [] {
        roots := roots[..|roots| - 1];
      } else {
        kids := kids[..|kids| - 1];
      }
      if !Holds(c, dir, top.ref) {
        return Err;
      }
      var name := PathOf(top.ref).value;
      if name !in files {
        files := files[name := dir[name]];
        if top.parsed && NamedJson(name) {
          var inside := RefsIn(c, dir[name]);
          if inside.None? {
            return Err;
          }
          pending := pending + Flagged(inside.value, false);
          kids := inside.value;
        }
      }
    }
    return Ok(files);
  }

  // ---- what is collected ----

  /** Every found file is in the directory, as found. */
  predicate FoundIn(dir: Directory, found: Directory) {
    forall name :: name in found ==> name in dir && found[name] == dir[name]
  }

  predicate AllHold(c: Codec, dir: Directory, refs: seq<Json>) {
    forall i :: 0 <= i < |refs| ==> Holds(c, dir, refs[i])
  }

  function AddAll(c: Codec, dir: Directory, found: Directory, refs: seq<Json>): Directory
    requires AllHold(c, dir, refs)
    decreases |refs|
  {
    if refs == [] then found
    else AddAll(c, dir, Add(c, dir, found, refs[|refs| - 1]), refs[..|refs| - 1])
  }

  lemma {:induction false} KidsFirst(c: Codec, dir: Directory, roots: seq<Json>, kids: seq<Json>, found: Directory)
    ensures Finish(c, dir, roots, kids, found) ==
            if AllHold(c, dir, kids) then Finish(c, dir, roots, [], AddAll(c, dir, found, kids)) else None
    decreases |kids|
  {
    if kids != [] {
      var init, kid := kids[..|kids| - 1], kids[|kids| - 1];
      assert kids == init + [kid];
      if Holds(c, dir, kid) {
        KidsFirst(c, dir, roots, init, Add(c, dir, found, kid));
      }
    }
  }

  lemma {:induction false} AddAllIs(c: Codec, dir: Directory, found: Directory, refs: seq<Json>)
    requires AllHold(c, dir, refs) && FoundIn(dir, found)
    ensures FoundIn(dir, AddAll(c, dir, found, refs))
    ensures forall name :: name in AddAll(c, dir, found, refs) <==> name in found || NamesOne(refs, Some(name))
    decreases |refs|
  {
    if refs != [] {
      var init, last := refs[..|refs| - 1], refs[|refs| - 1];
      assert refs == init + [last];
      AddAllIs(c, dir, Add(c, dir, found, last), init);
      forall name
        ensures NamesOne(refs, Some(name)) <==> NamesOne(init, Some(name)) || PathOf(last) == Some(name)
      {
        NamesSplit(init, last, Some(name));
      }
    }
  }

  lemma NamesSplit(init: seq<Json>, last: Json, name: Option<string>)
    ensures NamesOne(init + [last], name) <==> NamesOne(init, name) || PathOf(last) == name
  {
    if NamesOne(init, name) {
      var ref :| ref in init && PathOf(ref) == name;
      assert ref in init + [last];
    }
    assert last in init + [last];
  }

  /** Opening a root of a new name. */
  function Opened(c: Codec, dir: Directory, found: Directory, root: Json): Directory
    requires RootSound(c, dir, root)
  {
    AddAll(c, dir, Add(c, dir, found, root), Children(c, dir, root).value)
  }

  /** What has been found once the roots from the k-th on have been taken. */
  ghost predicate FoundFrom(c: Codec, dir: Directory, refs: seq<Json>, k: nat, found: Directory) {
    && k <= |refs| && FoundIn(dir, found)
    && forall name :: name in found <==> NamedFrom(c, dir, refs, k, Some(name))
  }

  lemma NoneFound(c: Codec, dir: Directory, refs: seq<Json>)
    ensures FoundFrom(c, dir, refs, |refs|, map[])
  {
  }

  lemma SkipRoot(c: Codec, dir: Directory, refs: seq<Json>, k: nat, found: Directory)
    requires k < |refs| && FoundFrom(c, dir, refs, k + 1, found)
    requires Holds(c, dir, refs[k]) && !OpenedAt(c, dir, refs, k)
    ensures FoundFrom(c, dir, refs, k, found)
  {
  }

  lemma OpenRoot(c: Codec, dir: Directory, refs: seq<Json>, k: nat, found: Directory)
    requires k < |refs| && FoundFrom(c, dir, refs, k + 1, found)
    requires OpenedAt(c, dir, refs, k) && RootSound(c, dir, refs[k])
    ensures FoundFrom(c, dir, refs, k, Opened(c, dir, found, refs[k]))
  {
    AddAllIs(c, dir, Add(c, dir, found, refs[k]), Children(c, dir, refs[k]).value);
  }

  /** Taking one root from the stack: it fails when the root is not there, or is opened and
      not sound. */
  lemma TakeRoot(c: Codec, dir: Directory, refs: seq<Json>, k: nat, found: Directory)
    requires k < |refs| && FoundFrom(c, dir, refs, k + 1, found)
    ensures Finish(c, dir, refs[..k + 1], [], found) ==
            if !Holds(c, dir, refs[k]) then None
            else if !OpenedAt(c, dir, refs, k) then Finish(c, dir, refs[..k], [], found)
            else if !RootSound(c, dir, refs[k]) then None
            else Finish(c, dir, refs[..k], [], Opened(c, dir, found, refs[k]))
  {
    var root := refs[k];
    assert refs[..k + 1][..k] == refs[..k];
    if Holds(c, dir, root) && OpenedAt(c, dir, refs, k) && Children(c, dir, root).Some? {
      KidsFirst(c, dir, refs[..k], Children(c, dir, root).value, Add(c, dir, found, root));
    }
  }

  lemma {:induction false} FinishFrom(c: Codec, dir: Directory, refs: seq<Json>, k: nat, found: Directory)
    requires FoundFrom(c, dir, refs, k, found)
    ensures var out := Finish(c, dir, refs[..k], [], found);
            && (out.Some? <==> RootsSound(c, dir, refs, k))
            && (out.Some? ==> FoundFrom(c, dir, refs, 0, out.value))
    decreases k
  {
    if k > 0 {
      TakeRoot(c, dir, refs, k - 1, found);
      if Holds(c, dir, refs[k - 1]) {
        if !OpenedAt(c, dir, refs, k - 1) {
          SkipRoot(c, dir, refs, k - 1, found);
          FinishFrom(c, dir, refs, k - 1, found);
        } else if RootSound(c, dir, refs[k - 1]) {
          OpenRoot(c, dir, refs, k - 1, found);
          FinishFrom(c, dir, refs, k - 1, Opened(c, dir, found, refs[k - 1]));
        }
      }
    }
  }

  /** Collecting succeeds exactly when every root is there and every opened one is sound. It
      then finds the roots and the children of the opened roots, as they are, and nothing else. */
  lemma CollectsAll(c: Codec, dir: Directory, refs: seq<Json>)
    ensures var out := Finish(c, dir, refs, [], map[]);
            && (out.Some? <==> RootsSound(c, dir, refs, |refs|))
            && (out.Some? ==> FoundIn(dir, out.value))
            && (out.Some? ==> forall name :: name in out.value <==> NamedFrom(c, dir, refs, 0, Some(name)))
  {
    assert refs[..|refs|] == refs;
    NoneFound(c, dir, refs);
    FinishFrom(c, dir, refs, |refs|, map[]);
  }

  /** A name is that of a root, or of a child of an opened one. */
  lemma {:induction false} NamedIs(c: Codec, dir: Directory, refs: seq<Json>, k: nat, name: Option<string>)
    requires k <= |refs|
    ensures NamedFrom(c, dir, refs, k, name) <==>
            exists j :: k <= j < |refs| && NamedBy(c, dir, refs, j, name)
    decreases |refs| - k
  {
    if k < |refs| {
      NamedIs(c, dir, refs, k + 1, name);
      assert NamedBy(c, dir, refs, k, name) <==>
             PathOf(refs[k]) == name || (OpenedAt(c, dir, refs, k) && ChildNamed(c, dir, refs[k], name));
    }
  }

  predicate NamedBy(c: Codec, dir: Directory, refs: seq<Json>, j: nat, name: Option<string>)
    requires j < |refs|
  {
    PathOf(refs[j]) == name || (OpenedAt(c, dir, refs, j) && ChildNamed(c, dir, refs[j], name))
  }

  // ---- copying ----

  /** A file may be written where nothing is reserved, and where what is there has its digest. */
  predicate Copyable(c: Codec, files: Directory, out: Directory, reserved: set<string>) {
    forall name :: name in files ==>
      name !in reserved && (name in out ==> c.digest(out[name]) == c.digest(files[name]))
  }

  /** Checks every file before it writes any; what is there already stays. */
  method CopyFiles(c: Codec, files: Directory, out: Directory, reserved: set<string>)
    returns (copied: Result<Directory>)
    ensures copied.Ok? <==> Copyable(c, files, out, reserved)
    ensures copied.Ok? ==> copied.value == files + out
  {
    var names := files.Keys;
    while names != {}
      invariant names <= files.Keys
      invariant forall name :: name in files && name !in names ==>
                  name !in reserved && (name in out ==> c.digest(out[name]) == c.digest(files[name]))
      decreases names
    {
      var name :| name in names;
      if name in reserved || (name in out && c.digest(out[name]) != c.digest(files[name])) {
        return Err;
      }
      names := names - {name};
    }
    var target := out;
    names := files.Keys;
    while names != {}
      invariant names <= files.Keys
      invariant target.Keys == out.Keys + (files.Keys - names)
      invariant forall name :: name in target ==> target[name] == if name in out then out[name] else files[name]
      decreases names
    {
      var name :| name in names;
      if name !in target {
        target := target[name := files[name]];
      }
      names := names - {name};
    }
    assert target == files + out;
    return Ok(target);
  }
}
