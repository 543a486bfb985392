/** The two-pass import audit: the worklist against reachability, and the verdict against what
    the reachable files import. */
module ImportClosure {
  import opened ImportVisitor

  /** The source files of the repository by module name, and the forbidden names. */
  datatype World = World(files: map<string, Node>, forbidden: set<string>)

  datatype Hit = Hit(owner: string, root: string, line: int)

  predicate HasFile(w: World, name: string) {
    name != "" && name in w.files
  }

  function Undotted(raw: string): string {
    if raw != "" && raw[0] == '.' then Undotted(raw[1..]) else raw
  }

  function UpToDot(raw: string): string {
    if raw == "" || raw[0] == '.' then "" else [raw[0]] + UpToDot(raw[1..])
  }

  function RootName(raw: string): string {
    UpToDot(Undotted(raw))
  }

  /** What a pass follows: the imports of these kinds, kind by kind. */
  function Followed(file: Node, kinds: seq<Kind>): seq<Found>
    decreases |kinds|
  {
    if kinds == [] then []
    else
      Followed(file, kinds[..|kinds| - 1])
      + Bucket(Occurrences(file, Context(false, false)), kinds[|kinds| - 1])
  }

  function HitsOf(w: World, owner: string, found: seq<Found>): seq<Hit>
    decreases |found|
  {
    if found == [] then []
    else
      var last := found[|found| - 1];
      HitsOf(w, owner, found[..|found| - 1])
      + if RootName(last.raw) in w.forbidden then [Hit(owner, RootName(last.raw), last.line)] else []
  }

  function LinksOf(w: World, found: seq<Found>): seq<string>
    decreases |found|
  {
    if found == [] then []
    else
      var root := RootName(found[|found| - 1].raw);
      LinksOf(w, found[..|found| - 1])
      + if root !in w.forbidden && HasFile(w, root) then [root] else []
  }

  function ModuleHits(w: World, name: string, kinds: seq<Kind>): seq<Hit> {
    if HasFile(w, name) then HitsOf(w, name, Followed(w.files[name], kinds)) else []
  }

  function HitsAlong(w: World, order: seq<string>, kinds: seq<Kind>): seq<Hit>
    decreases |order|
  {
    if order == [] then []
    else HitsAlong(w, order[..|order| - 1], kinds) + ModuleHits(w, order[|order| - 1], kinds)
  }

  // ---- reachability ----

  predicate Edge(w: World, kinds: seq<Kind>, a: string, b: string) {
    HasFile(w, a) && b in LinksOf(w, Followed(w.files[a], kinds))
  }

  predicate Route(w: World, kinds: seq<Kind>, entry: string, path: seq<string>) {
    && path != [] && path[0] == entry
    && forall i :: 0 <= i < |path| - 1 ==> Edge(w, kinds, path[i], path[i + 1])
  }

  ghost predicate Reachable(w: World, kinds: seq<Kind>, entry: string, name: string) {
    exists path :: Route(w, kinds, entry, path) && path[|path| - 1] == name
  }

  lemma ReachesSelf(w: World, kinds: seq<Kind>, entry: string)
    ensures Reachable(w, kinds, entry, entry)
  {
    assert Route(w, kinds, entry, [entry]);
  }

  lemma ReachesNext(w: World, kinds: seq<Kind>, entry: string, a: string, b: string)
    requires Reachable(w, kinds, entry, a) && Edge(w, kinds, a, b)
    ensures Reachable(w, kinds, entry, b)
  {
    var path :| Route(w, kinds, entry, path) && path[|path| - 1] == a;
    var longer := path + [b];
    assert Route(w, kinds, entry, longer) && longer[|longer| - 1] == b;
  }

  ghost predicate Closed(w: World, kinds: seq<Kind>, names: set<string>) {
    forall a, b :: a in names && Edge(w, kinds, a, b) ==> b in names
  }

  lemma {:induction false} RouteStays(w: World, kinds: seq<Kind>, entry: string, path: seq<string>, names: set<string>)
    requires Route(w, kinds, entry, path) && entry in names && Closed(w, kinds, names)
    ensures path[|path| - 1] in names
    decreases |path|
  {
    if |path| > 1 {
      var init := path[..|path| - 1];
      assert Route(w, kinds, entry, init);
      RouteStays(w, kinds, entry, init, names);
      assert Edge(w, kinds, path[|path| - 2], path[|path| - 2 + 1]);
    }
  }

  lemma LinkHasFile(w: World, found: seq<Found>, name: string)
    requires name in LinksOf(w, found)
    ensures HasFile(w, name)
    decreases |found|
  {
    if name in LinksOf(w, found[..|found| - 1]) {
      LinkHasFile(w, found[..|found| - 1], name);
    }
  }

  lemma {:induction false} LinkIsImport(w: World, found: seq<Found>, name: string)
    ensures name in LinksOf(w, found) <==>
            name !in w.forbidden && HasFile(w, name) && exists i :: 0 <= i < |found| && RootName(found[i].raw) == name
    decreases |found|
  {
    if found != [] {
      assert found == found[..|found| - 1] + [found[|found| - 1]];
      LinkIsImport(w, found[..|found| - 1], name);
    }
  }

  lemma {:induction false} HitIsImport(w: World, owner: string, found: seq<Found>, hit: Hit)
    ensures hit in HitsOf(w, owner, found) <==>
            hit.owner == owner && hit.root in w.forbidden
            && exists i :: 0 <= i < |found| && RootName(found[i].raw) == hit.root && found[i].line == hit.line
    decreases |found|
  {
    if found != [] {
      assert found == found[..|found| - 1] + [found[|found| - 1]];
      HitIsImport(w, owner, found[..|found| - 1], hit);
    }
  }

  // ---- the worklist ----

  /** What the collector finds in one file, kind by kind. */
  method ImportsOf(file: Node, kinds: seq<Kind>) returns (found: seq<Found>)
    ensures found == Followed(file, kinds)
  {
    var collector := new Collector();
    collector.Visit(file);
    found := [];
    for i := 0 to |kinds|
      invariant found == Followed(file, kinds[..i])
    {
      assert kinds[..i + 1][..i] == kinds[..i];
      found := found + match kinds[i]
        case Top => collector.top
        case Guarded => collector.guarded
        case Inner => collector.inner;
    }
    assert kinds[..|kinds|] == kinds;
  }

  /** One expanded module: its hits, and the names it queues. */
  method Expand(w: World, name: string, kinds: seq<Kind>) returns (hits: seq<Hit>, links: seq<string>)
    requires HasFile(w, name)
    ensures hits == ModuleHits(w, name, kinds)
    ensures links == LinksOf(w, Followed(w.files[name], kinds))
  {
    var found := ImportsOf(w.files[name], kinds);
    hits, links := [], [];
    for i := 0 to |found|
      invariant hits == HitsOf(w, name, found[..i]) && links == LinksOf(w, found[..i])
    {
      assert found[..i + 1][..i] == found[..i];
      var root := RootName(found[i].raw);
      if root in w.forbidden {
        hits := hits + [Hit(name, root, found[i].line)];
      } else if HasFile(w, root) {
        links := links + [root];
      }
    }
    assert found[..|found|] == found;
  }

  predicate Distinct(order: seq<string>) {
    forall i, j :: 0 <= i < j < |order| ==> order[i] != order[j]
  }

  /** Everything pending or visited is reachable, and whatever a visited module leads to is
      pending or visited. */
  ghost predicate Sweep(w: World, kinds: seq<Kind>, entry: string, seen: set<string>, queue: seq<string>) {
    && (entry in seen || entry in queue)
    && (forall name :: name in seen || name in queue ==> Reachable(w, kinds, entry, name))
    && (forall a, b :: a in seen && Edge(w, kinds, a, b) ==> b in seen || b in queue)
    && (forall name :: name in seen || name in queue ==> name == entry || name in w.files)
  }

  lemma SweepStep(w: World, kinds: seq<Kind>, entry: string, seen: set<string>, queue: seq<string>, name: string,
                  links: seq<string>)
    requires Sweep(w, kinds, entry, seen, queue + [name])
    requires links == if HasFile(w, name) then LinksOf(w, Followed(w.files[name], kinds)) else []
    ensures Sweep(w, kinds, entry, seen + {name}, queue + links)
  {
    assert name in queue + [name];
    forall b | b in links
      ensures Reachable(w, kinds, entry, b) && HasFile(w, b)
    {
      assert Edge(w, kinds, name, b);
      ReachesNext(w, kinds, entry, name, b);
      LinkHasFile(w, Followed(w.files[name], kinds), b);
    }
  }

  lemma SweepSkip(w: World, kinds: seq<Kind>, entry: string, seen: set<string>, queue: seq<string>, name: string)
    requires Sweep(w, kinds, entry, seen, queue + [name]) && name in seen
    ensures Sweep(w, kinds, entry, seen, queue)
  {
    assert forall b :: b in queue + [name] ==> b in queue || b == name;
    assert forall b :: b in queue ==> b in queue + [name];
  }

  lemma SweepDone(w: World, kinds: seq<Kind>, entry: string, seen: set<string>)
    requires Sweep(w, kinds, entry, seen, [])
    ensures forall name :: name in seen <==> Reachable(w, kinds, entry, name)
  {
    assert Closed(w, kinds, seen);
    forall name | Reachable(w, kinds, entry, name)
      ensures name in seen
    {
      var path :| Route(w, kinds, entry, path) && path[|path| - 1] == name;
      RouteStays(w, kinds, entry, path, seen);
    }
  }

  /** The modules visited so far, each once, and their hits. */
  ghost predicate Visited(w: World, kinds: seq<Kind>, seen: set<string>, order: seq<string>, hits: seq<Hit>) {
    && Distinct(order) && (forall name :: name in seen <==> name in order)
    && hits == HitsAlong(w, order, kinds)
  }

  lemma VisitedStep(w: World, kinds: seq<Kind>, seen: set<string>, order: seq<string>, hits: seq<Hit>, name: string)
    requires Visited(w, kinds, seen, order, hits) && name !in seen
    ensures Visited(w, kinds, seen + {name}, order + [name], hits + ModuleHits(w, name, kinds))
  {
    assert (order + [name])[..|order|] == order;
  }

  /** Visits exactly the modules reachable through the followed imports, each once, and
      collects every forbidden import of theirs in order of visit. */
  method Walk(w: World, entry: string, kinds: seq<Kind>)
    returns (seen: set<string>, hits: seq<Hit>, order: seq<string>)
    ensures forall name :: name in seen <==> Reachable(w, kinds, entry, name)
    ensures Distinct(order) && forall name :: name in seen <==> name in order
    ensures hits == HitsAlong(w, order, kinds)
  {
    ReachesSelf(w, kinds, entry);
    seen, hits, order := {}, [], [];
    var queue := [entry];
    while queue != []
      invariant Sweep(w, kinds, entry, seen, queue) && Visited(w, kinds, seen, order, hits)
      decreases {entry} + w.files.Keys - seen, |queue|
    {
      var name := queue[|queue| - 1];
      assert queue == queue[..|queue| - 1] + [name];
      queue := queue[..|queue| - 1];
      if name in seen {
        SweepSkip(w, kinds, entry, seen, queue, name);
      } else {
        var found, links := [], [];
        if HasFile(w, name) {
          found, links := Expand(w, name, kinds);
        }
        SweepStep(w, kinds, entry, seen, queue, name, links);
        VisitedStep(w, kinds, seen, order, hits, name);
        seen, order, hits, queue := seen + {name}, order + [name], hits + found, queue + links;
      }
    }
    SweepDone(w, kinds, entry, seen);
  }

  // ---- the audit ----

  /** What the module's import alone loads, and everything it may ever load. */
  const AT_LOAD := [Top]
  const EVER := [Top, Guarded, Inner]

  /** The file of the hit's module has an import of this kind on that line with that forbidden root. */
  predicate Offends(w: World, kind: Kind, hit: Hit) {
    && HasFile(w, hit.owner) && hit.root in w.forbidden
    && exists o :: o in Occurrences(w.files[hit.owner], Context(false, false))
                   && o.kind == kind && RootName(o.found.raw) == hit.root && o.found.line == hit.line
  }

  lemma {:induction false} FollowedHas(file: Node, kinds: seq<Kind>, found: Found)
    ensures found in Followed(file, kinds) <==>
            exists kind :: kind in kinds && Occurrence(found, kind) in Occurrences(file, Context(false, false))
    decreases |kinds|
  {
    if kinds != [] {
      var last := kinds[|kinds| - 1];
      assert kinds == kinds[..|kinds| - 1] + [last];
      FollowedHas(file, kinds[..|kinds| - 1], found);
      BucketHas(Occurrences(file, Context(false, false)), found, last);
    }
  }

  lemma ModuleHitsAre(w: World, name: string, kinds: seq<Kind>, hit: Hit)
    ensures hit in ModuleHits(w, name, kinds) <==>
            hit.owner == name && exists kind :: kind in kinds && Offends(w, kind, hit)
  {
    if HasFile(w, name) {
      var file := w.files[name];
      var all, found := Occurrences(file, Context(false, false)), Followed(file, kinds);
      HitIsImport(w, name, found, hit);
      if hit in HitsOf(w, name, found) {
        var i :| 0 <= i < |found| && RootName(found[i].raw) == hit.root && found[i].line == hit.line;
        FollowedHas(file, kinds, found[i]);
        var kind :| kind in kinds && Occurrence(found[i], kind) in all;
        assert Offends(w, kind, hit);
      }
      if hit.owner == name && exists kind :: kind in kinds && Offends(w, kind, hit) {
        var kind :| kind in kinds && Offends(w, kind, hit);
        var o :| o in all && o.kind == kind && RootName(o.found.raw) == hit.root && o.found.line == hit.line;
        assert o == Occurrence(o.found, kind);
        FollowedHas(file, kinds, o.found);
      }
    }
  }

  /** The hits along an order of modules are the offences of those modules, no more and no less. */
  lemma {:induction false} HitsAlongAre(w: World, order: seq<string>, kinds: seq<Kind>, hit: Hit)
    ensures hit in HitsAlong(w, order, kinds) <==>
            hit.owner in order && exists kind :: kind in kinds && Offends(w, kind, hit)
    decreases |order|
  {
    if order != [] {
      var last := order[|order| - 1];
      assert order == order[..|order| - 1] + [last];
      HitsAlongAre(w, order[..|order| - 1], kinds, hit);
      ModuleHitsAre(w, last, kinds, hit);
    }
  }

  /** Following more kinds reaches more. */
  lemma EdgeMonotone(w: World, a: string, b: string)
    requires Edge(w, AT_LOAD, a, b)
    ensures Edge(w, EVER, a, b)
  {
    var file := w.files[a];
    var few, many := Followed(file, AT_LOAD), Followed(file, EVER);
    LinkIsImport(w, few, b);
    var i :| 0 <= i < |few| && RootName(few[i].raw) == b;
    FollowedHas(file, AT_LOAD, few[i]);
    assert Top in EVER;
    FollowedHas(file, EVER, few[i]);
    LinkIsImport(w, many, b);
  }

  lemma MustWithinMay(w: World, entry: string, name: string)
    requires Reachable(w, AT_LOAD, entry, name)
    ensures Reachable(w, EVER, entry, name)
  {
    var path :| Route(w, AT_LOAD, entry, path) && path[|path| - 1] == name;
    forall i | 0 <= i < |path| - 1
      ensures Edge(w, EVER, path[i], path[i + 1])
    {
      EdgeMonotone(w, path[i], path[i + 1]);
    }
    assert Route(w, EVER, entry, path);
  }

  datatype Report = Report(must: set<string>, may: set<string>,
                           blocking: seq<Hit>, deferred: seq<Hit>, guarded: seq<Hit>, inner: seq<Hit>)

  /** The hits of modules outside a set, in order. */
  function Outside(hits: seq<Hit>, names: set<string>): seq<Hit>
    decreases |hits|
  {
    if hits == [] then []
    else
      var last := hits[|hits| - 1];
      Outside(hits[..|hits| - 1], names) + if last.owner in names then [] else [last]
  }

  lemma {:induction false} OutsideHas(hits: seq<Hit>, names: set<string>, hit: Hit)
    ensures hit in Outside(hits, names) <==> hit in hits && hit.owner !in names
    decreases |hits|
  {
    if hits != [] {
      assert hits == hits[..|hits| - 1] + [hits[|hits| - 1]];
      OutsideHas(hits[..|hits| - 1], names, hit);
    }
  }

  method Deferred(mayHits: seq<Hit>, must: set<string>) returns (deferred: seq<Hit>)
    ensures deferred == Outside(mayHits, must)
  {
    deferred := [];
    for i := 0 to |mayHits|
      invariant deferred == Outside(mayHits[..i], must)
    {
      assert mayHits[..i + 1][..i] == mayHits[..i];
      if mayHits[i].owner !in must {
        deferred := deferred + [mayHits[i]];
      }
    }
    assert mayHits[..|mayHits|] == mayHits;
  }

  /** The forbidden imports of one kind, over all the visited modules. */
  method Evidence(w: World, order: seq<string>, kind: Kind) returns (hits: seq<Hit>)
    ensures hits == HitsAlong(w, order, [kind])
  {
    hits := [];
    for i := 0 to |order|
      invariant hits == HitsAlong(w, order[..i], [kind])
    {
      assert order[..i + 1][..i] == order[..i];
      if HasFile(w, order[i]) {
        var found, links := Expand(w, order[i], [kind]);
        hits := hits + found;
      }
    }
    assert order[..|order|] == order;
  }

  /** The four lists say of every forbidden import of every module that may load where it stands. */
  ghost predicate Exact(w: World, entry: string, r: Report) {
    && (forall name :: name in r.must <==> Reachable(w, AT_LOAD, entry, name))
    && (forall name :: name in r.may <==> Reachable(w, EVER, entry, name))
    && r.must <= r.may
    && forall hit :: ExactAt(w, r, hit)
  }

  ghost predicate ExactAt(w: World, r: Report, hit: Hit) {
    && (hit in r.blocking <==> hit.owner in r.must && Offends(w, Top, hit))
    && (hit in r.deferred <==>
          hit.owner in r.may && hit.owner !in r.must && exists kind :: kind in EVER && Offends(w, kind, hit))
    && (hit in r.guarded <==> hit.owner in r.may && Offends(w, Guarded, hit))
    && (hit in r.inner <==> hit.owner in r.may && Offends(w, Inner, hit))
  }

  /** The lists a report should hold, given the orders in which the two walks visited. */
  ghost predicate Listed(w: World, mustOrder: seq<string>, mayOrder: seq<string>, r: Report) {
    && (forall name :: name in r.must <==> name in mustOrder)
    && (forall name :: name in r.may <==> name in mayOrder)
    && r.blocking == HitsAlong(w, mustOrder, AT_LOAD)
    && r.deferred == Outside(HitsAlong(w, mayOrder, EVER), r.must)
    && r.guarded == HitsAlong(w, mayOrder, [Guarded])
    && r.inner == HitsAlong(w, mayOrder, [Inner])
  }

  lemma AlongOneKind(w: World, order: seq<string>, kind: Kind, hit: Hit)
    ensures hit in HitsAlong(w, order, [kind]) <==> hit.owner in order && Offends(w, kind, hit)
  {
    HitsAlongAre(w, order, [kind], hit);
    assert kind in [kind];
  }

  lemma ListedAt(w: World, mustOrder: seq<string>, mayOrder: seq<string>, r: Report, hit: Hit)
    requires Listed(w, mustOrder, mayOrder, r)
    ensures ExactAt(w, r, hit)
  {
    AlongOneKind(w, mustOrder, Top, hit);
    AlongOneKind(w, mayOrder, Guarded, hit);
    AlongOneKind(w, mayOrder, Inner, hit);
    HitsAlongAre(w, mayOrder, EVER, hit);
    OutsideHas(HitsAlong(w, mayOrder, EVER), r.must, hit);
  }

  lemma ListedIsExact(w: World, entry: string, mustOrder: seq<string>, mayOrder: seq<string>, r: Report)
    requires Listed(w, mustOrder, mayOrder, r)
    requires forall name :: name in r.must <==> Reachable(w, AT_LOAD, entry, name)
    requires forall name :: name in r.may <==> Reachable(w, EVER, entry, name)
    ensures Exact(w, entry, r)
  {
    forall name | name in r.must
      ensures name in r.may
    {
      MustWithinMay(w, entry, name);
    }
    forall hit
      ensures ExactAt(w, r, hit)
    {
      ListedAt(w, mustOrder, mayOrder, r, hit);
    }
  }

  method Audit(w: World, entry: string) returns (r: Report, ghost mustOrder: seq<string>, ghost mayOrder: seq<string>)
    ensures Exact(w, entry, r)
    ensures Distinct(mustOrder) && Distinct(mayOrder) && Listed(w, mustOrder, mayOrder, r)
  {
    var must, blocking, before := Walk(w, entry, AT_LOAD);
    var may, mayHits, order := Walk(w, entry, EVER);
    var deferred := Deferred(mayHits, must);
    var guarded := Evidence(w, order, Guarded);
    var inner := Evidence(w, order, Inner);
    r, mustOrder, mayOrder := Report(must, may, blocking, deferred, guarded, inner), before, order;
    ListedIsExact(w, entry, mustOrder, mayOrder, r);
  }

  predicate Fails(r: Report, strict: bool) {
    r.blocking != [] || (strict && (r.guarded != [] || r.inner != [] || r.deferred != []))
  }

  /** The hit is an offence that counts against the entry. */
  ghost predicate Against(w: World, entry: string, strict: bool, kind: Kind, hit: Hit) {
    && Offends(w, kind, hit)
    && if strict then Reachable(w, EVER, entry, hit.owner)
       else kind == Top && Reachable(w, AT_LOAD, entry, hit.owner)
  }

  /** A listed hit counts; the kind is the list's, or for a deferred hit one of the three. */
  lemma ListedCounts(w: World, entry: string, r: Report, hit: Hit) returns (kind: Kind)
    requires Exact(w, entry, r)
    requires hit in r.blocking || hit in r.guarded || hit in r.inner || hit in r.deferred
    ensures Against(w, entry, true, kind, hit)
    ensures hit in r.blocking ==> Against(w, entry, false, kind, hit)
  {
    assert ExactAt(w, r, hit);
    if hit in r.blocking {
      kind := Top;
    } else if hit in r.guarded {
      kind := Guarded;
    } else if hit in r.inner {
      kind := Inner;
    } else {
      kind :| kind in EVER && Offends(w, kind, hit);
    }
  }

  lemma FailsIsDirty(w: World, entry: string, r: Report, strict: bool)
    requires Exact(w, entry, r)
    ensures Fails(r, strict) <==> exists hit, kind :: Against(w, entry, strict, kind, hit)
  {
    if Fails(r, strict) {
      var hit :=
        if r.blocking != [] then r.blocking[0]
        else if r.guarded != [] then r.guarded[0]
        else if r.inner != [] then r.inner[0]
        else r.deferred[0];
      var kind := ListedCounts(w, entry, r, hit);
    }
    forall hit, kind | Against(w, entry, strict, kind, hit)
      ensures Fails(r, strict)
    {
      assert ExactAt(w, r, hit);
    }
  }

  /** An entry is dirty: something it loads unconditionally is forbidden; or, under strict, any
      module it may ever load has any forbidden import at all. */
  ghost predicate Dirty(w: World, entry: string, strict: bool) {
    exists hit, kind :: Against(w, entry, strict, kind, hit)
  }

  method Judge(w: World, entry: string, strict: bool) returns (fails: bool)
    ensures fails <==> Dirty(w, entry, strict)
  {
    var r, _, _ := Audit(w, entry);
    FailsIsDirty(w, entry, r, strict);
    fails := Fails(r, strict);
  }

  /** The exit status over the given entries; an entry without a file is skipped. */
  method Failed(w: World, entries: seq<string>, strict: bool) returns (failed: bool)
    ensures failed <==> exists i :: 0 <= i < |entries| && HasFile(w, entries[i]) && Dirty(w, entries[i], strict)
  {
    failed := false;
    for i := 0 to |entries|
      invariant failed <==> exists j :: 0 <= j < i && HasFile(w, entries[j]) && Dirty(w, entries[j], strict)
    {
      if HasFile(w, entries[i]) {
        var fails := Judge(w, entries[i], strict);
        failed := failed || fails;
      }
    }
  }
}
