/** Collecting the imports of one source file: the visitor with its two depth counters against
    a definition that hands each node the context it stands in. */
module ImportVisitor {
  import opened Results

  /** What an except clause names; a tuple's elements that are not plain names are None. */
  datatype Caught = Everything | Name(id: string) | Names(ids: seq<Option<string>>) | Other

  datatype Handler = Handler(caught: Caught, body: seq<Node>)

  /** A syntax tree as far as imports are concerned; Compound is any other node with children:
      the module itself, a class, a branch, a loop, a with block. */
  datatype Node =
    | Import(names: seq<string>, line: int)
    | ImportFrom(from: Option<string>, level: nat, line: int)
    | Function(body: seq<Node>)
    | Try(body: seq<Node>, handlers: seq<Handler>, orelse: seq<Node>, final: seq<Node>)
    | Compound(children: seq<Node>)

  datatype Kind = Top | Guarded | Inner

  datatype Found = Found(raw: string, line: int)

  /** Where a node stands: inside some function, inside the body of some try that catches a
      failing import. */
  datatype Context = Context(inFunction: bool, guarded: bool)

  function KindIn(context: Context): Kind {
    if context.inFunction then Inner else if context.guarded then Guarded else Top
  }

  predicate CatchesImport(caught: Caught) {
    match caught
    case Everything => true
    case Name(id) => id == "ImportError" || id == "ModuleNotFoundError"
    case Names(ids) => Some("ImportError") in ids || Some("ModuleNotFoundError") in ids
    case Other => false
  }

  predicate Catches(handlers: seq<Handler>) {
    exists i :: 0 <= i < |handlers| && CatchesImport(handlers[i].caught)
  }

  function Dots(level: nat): string {
    seq(level, i => '.')
  }

  // ---- the definition by context ----

  datatype Occurrence = Occurrence(found: Found, kind: Kind)

  function Named(names: seq<string>, line: int, kind: Kind): seq<Occurrence> {
    if names == [] then []
    else Named(names[..|names| - 1], line, kind) + [Occurrence(Found(names[|names| - 1], line), kind)]
  }

  /** Every import below the node in source order, each with the kind its context gives it. */
  function Occurrences(node: Node, context: Context): seq<Occurrence>
    decreases node, 0
  {
    match node
    case Import(names, line) => Named(names, line, KindIn(context))
    case ImportFrom(from, level, line) =>
      if from.None? || from.value == "" then []
      else Named([Dots(level) + from.value], line, KindIn(context))
    case Function(body) => InAll(body, context.(inFunction := true))
    case Try(body, handlers, orelse, final) =>
      InAll(body, context.(guarded := context.guarded || Catches(handlers)))
      + InHandlers(handlers, context) + InAll(orelse, context) + InAll(final, context)
    case Compound(children) => InAll(children, context)
  }

  function InAll(nodes: seq<Node>, context: Context): seq<Occurrence>
    decreases nodes, 0
  {
    if nodes == [] then []
    else InAll(nodes[..|nodes| - 1], context) + Occurrences(nodes[|nodes| - 1], context)
  }

  function InHandlers(handlers: seq<Handler>, context: Context): seq<Occurrence>
    decreases handlers, 0
  {
    if handlers == [] then []
    else InHandlers(handlers[..|handlers| - 1], context) + InAll(handlers[|handlers| - 1].body, context)
  }

  /** The imports of one kind, in order. */
  function Bucket(all: seq<Occurrence>, kind: Kind): seq<Found>
    decreases |all|
  {
    if all == [] then []
    else
      var last := all[|all| - 1];
      Bucket(all[..|all| - 1], kind) + if last.kind == kind then [last.found] else []
  }

  lemma BucketAppend(left: seq<Occurrence>, right: seq<Occurrence>, kind: Kind)
    ensures Bucket(left + right, kind) == Bucket(left, kind) + Bucket(right, kind)
    decreases |right|
  {
    if right == [] {
      assert left + right == left;
    } else {
      var init := right[..|right| - 1];
      assert (left + right)[..|left + right| - 1] == left + init;
      BucketAppend(left, init, kind);
    }
  }

  /** The three buckets lose and invent nothing. */
  lemma {:induction false} BucketHas(all: seq<Occurrence>, found: Found, kind: Kind)
    ensures found in Bucket(all, kind) <==> Occurrence(found, kind) in all
    decreases |all|
  {
    if all != [] {
      assert all == all[..|all| - 1] + [all[|all| - 1]];
      BucketHas(all[..|all| - 1], found, kind);
    }
  }

  // ---- the visitor ----

  class Collector {
    var top: seq<Found>
    var guarded: seq<Found>
    var inner: seq<Found>
    var functionDepth: nat
    var guardDepth: nat

    constructor ()
      ensures Here() == Context(false, false)
      ensures top == [] && guarded == [] && inner == []
    {
      top, guarded, inner := [], [], [];
      functionDepth, guardDepth := 0, 0;
    }

    function Here(): Context
      reads this
    {
      Context(functionDepth > 0, guardDepth > 0)
    }

    /** The visit added these occurrences to the buckets and restored both counters. */
    twostate predicate Gathered(all: seq<Occurrence>)
      reads this
    {
      && functionDepth == old(functionDepth)
      && guardDepth == old(guardDepth)
      && top == old(top) + Bucket(all, Top)
      && guarded == old(guarded) + Bucket(all, Guarded)
      && inner == old(inner) + Bucket(all, Inner)
    }

    /** Two visits in a row. */
    static lemma Joined(start: seq<Found>, left: seq<Occurrence>, right: seq<Occurrence>, kind: Kind)
      ensures (start + Bucket(left, kind)) + Bucket(right, kind) == start + Bucket(left + right, kind)
    {
      BucketAppend(left, right, kind);
    }

    static lemma JoinedAll(top: seq<Found>, guarded: seq<Found>, inner: seq<Found>,
                           left: seq<Occurrence>, right: seq<Occurrence>)
      ensures (top + Bucket(left, Top)) + Bucket(right, Top) == top + Bucket(left + right, Top)
      ensures (guarded + Bucket(left, Guarded)) + Bucket(right, Guarded) == guarded + Bucket(left + right, Guarded)
      ensures (inner + Bucket(left, Inner)) + Bucket(right, Inner) == inner + Bucket(left + right, Inner)
    {
      Joined(top, left, right, Top);
      Joined(guarded, left, right, Guarded);
      Joined(inner, left, right, Inner);
    }

    method Record(raw: string, line: int)
      modifies this
      ensures Gathered([Occurrence(Found(raw, line), KindIn(old(Here())))])
    {
      ghost var one := [Occurrence(Found(raw, line), KindIn(Here()))];
      assert one[..0] == [];
      if functionDepth > 0 {
        inner := inner + [Found(raw, line)];
      } else if guardDepth > 0 {
        guarded := guarded + [Found(raw, line)];
      } else {
        top := top + [Found(raw, line)];
      }
    }

    method RecordAll(names: seq<string>, line: int)
      modifies this
      ensures Gathered(Named(names, line, KindIn(old(Here()))))
    {
      ghost var kind := KindIn(Here());
      for i := 0 to |names|
        invariant Gathered(Named(names[..i], line, kind))
      {
        ghost var one := [Occurrence(Found(names[i], line), kind)];
        assert names[..i + 1][..i] == names[..i];
        JoinedAll(old(top), old(guarded), old(inner), Named(names[..i], line, kind), one);
        Record(names[i], line);
      }
      assert names[..|names|] == names;
    }

    method Visit(node: Node)
      modifies this
      ensures Gathered(Occurrences(node, old(Here())))
      decreases node, 1
    {
      match node {
        case Import(names, line) =>
          RecordAll(names, line);
        case ImportFrom(from, level, line) =>
          if from.Some? && from.value != "" {
            RecordAll([Dots(level) + from.value], line);
          }
        case Function(body) =>
          functionDepth := functionDepth + 1;
          VisitAll(body);
          functionDepth := functionDepth - 1;
        case Try(_, _, _, _) =>
          VisitTry(node);
        case Compound(children) =>
          VisitAll(children);
      }
    }

    method VisitAll(nodes: seq<Node>)
      modifies this
      ensures Gathered(InAll(nodes, old(Here())))
      decreases nodes, 0
    {
      ghost var here := Here();
      for i := 0 to |nodes|
        invariant Gathered(InAll(nodes[..i], here))
      {
        assert nodes[..i + 1][..i] == nodes[..i];
        JoinedAll(old(top), old(guarded), old(inner), InAll(nodes[..i], here), Occurrences(nodes[i], here));
        Visit(nodes[i]);
      }
      assert nodes[..|nodes|] == nodes;
    }

    method VisitTry(node: Node)
      requires node.Try?
      modifies this
      ensures Gathered(Occurrences(node, old(Here())))
      decreases node, 0
    {
      ghost var here := Here();
      var catches := CatchesAny(node.handlers);
      if catches {
        guardDepth := guardDepth + 1;
      }
      ghost var body := InAll(node.body, Here());
      VisitAll(node.body);
      if catches {
        guardDepth := guardDepth - 1;
      }
      ghost var handlers := InHandlers(node.handlers, here);
      JoinedAll(old(top), old(guarded), old(inner), body, handlers);
      VisitHandlers(node.handlers);
      ghost var orelse := InAll(node.orelse, here);
      JoinedAll(old(top), old(guarded), old(inner), body + handlers, orelse);
      VisitAll(node.orelse);
      JoinedAll(old(top), old(guarded), old(inner), body + handlers + orelse, InAll(node.final, here));
      VisitAll(node.final);
    }

    method VisitHandlers(handlers: seq<Handler>)
      modifies this
      ensures Gathered(InHandlers(handlers, old(Here())))
      decreases handlers, 0
    {
      ghost var here := Here();
      for i := 0 to |handlers|
        invariant Gathered(InHandlers(handlers[..i], here))
      {
        assert handlers[..i + 1][..i] == handlers[..i];
        JoinedAll(old(top), old(guarded), old(inner), InHandlers(handlers[..i], here), InAll(handlers[i].body, here));
        VisitAll(handlers[i].body);
      }
      assert handlers[..|handlers|] == handlers;
    }
  }

  method CatchesAny(handlers: seq<Handler>) returns (catches: bool)
    ensures catches == Catches(handlers)
  {
    catches := false;
    for i := 0 to |handlers|
      invariant catches == Catches(handlers[..i])
    {
      assert forall j :: 0 <= j < i ==> handlers[..i][j] == handlers[j] == handlers[..i + 1][j];
      assert handlers[..i + 1][i] == handlers[i];
      if CatchesImport(handlers[i].caught) {
        catches := true;
      }
    }
    assert handlers[..|handlers|] == handlers;
  }

  // ---- what the kinds mean: an import is judged by the nodes it stands under ----

  /** One step down the tree. */
  datatype Step = Child(i: nat) | InBody(i: nat) | InHandler(h: nat, i: nat) | InElse(i: nat) | InFinal(i: nat)

  function Below(node: Node, step: Step): Option<Node> {
    match (node, step)
    case (Function(body), Child(i)) => if i < |body| then Some(body[i]) else None
    case (Compound(children), Child(i)) => if i < |children| then Some(children[i]) else None
    case (Try(body, _, _, _), InBody(i)) => if i < |body| then Some(body[i]) else None
    case (Try(_, handlers, _, _), InHandler(h, i)) =>
      if h < |handlers| && i < |handlers[h].body| then Some(handlers[h].body[i]) else None
    case (Try(_, _, orelse, _), InElse(i)) => if i < |orelse| then Some(orelse[i]) else None
    case (Try(_, _, _, final), InFinal(i)) => if i < |final| then Some(final[i]) else None
    case _ => None
  }

  /** The import statement itself names this. */
  predicate Imports(node: Node, found: Found) {
    match node
    case Import(names, line) => found.raw in names && found.line == line
    case ImportFrom(from, level, line) =>
      from.Some? && from.value != "" && found == Found(Dots(level) + from.value, line)
    case _ => false
  }

  /** The path leads from the node to an import statement that names this. */
  predicate LeadsTo(node: Node, path: seq<Step>, found: Found) {
    if path == [] then Imports(node, found)
    else Below(node, path[0]).Some? && LeadsTo(Below(node, path[0]).value, path[1..], found)
  }

  /** Some node on the path is a function. */
  predicate UnderFunction(node: Node, path: seq<Step>) {
    path != [] && Below(node, path[0]).Some? && (node.Function? || UnderFunction(Below(node, path[0]).value, path[1..]))
  }

  /** The path enters the body of some try that catches a failing import. */
  predicate UnderGuard(node: Node, path: seq<Step>) {
    && path != [] && Below(node, path[0]).Some?
    && (   (node.Try? && path[0].InBody? && Catches(node.handlers))
        || UnderGuard(Below(node, path[0]).value, path[1..]))
  }

  function Narrow(node: Node, step: Step, context: Context): Context {
    if node.Function? then context.(inFunction := true)
    else if node.Try? && step.InBody? then context.(guarded := context.guarded || Catches(node.handlers))
    else context
  }

  lemma {:induction false} NamedHas(names: seq<string>, line: int, kind: Kind, o: Occurrence)
    ensures o in Named(names, line, kind) <==> o.kind == kind && o.found.line == line && o.found.raw in names
    decreases |names|
  {
    if names != [] {
      assert names == names[..|names| - 1] + [names[|names| - 1]];
      NamedHas(names[..|names| - 1], line, kind, o);
    }
  }

  lemma {:induction false} InAllHas(nodes: seq<Node>, context: Context, i: nat, o: Occurrence)
    requires i < |nodes| && o in Occurrences(nodes[i], context)
    ensures o in InAll(nodes, context)
    decreases |nodes|
  {
    if i < |nodes| - 1 {
      InAllHas(nodes[..|nodes| - 1], context, i, o);
    }
  }

  lemma {:induction false} InAllFrom(nodes: seq<Node>, context: Context, o: Occurrence) returns (i: nat)
    requires o in InAll(nodes, context)
    ensures i < |nodes| && o in Occurrences(nodes[i], context)
    decreases |nodes|
  {
    if o in Occurrences(nodes[|nodes| - 1], context) {
      i := |nodes| - 1;
    } else {
      i := InAllFrom(nodes[..|nodes| - 1], context, o);
    }
  }

  lemma {:induction false} InHandlersHas(handlers: seq<Handler>, context: Context, h: nat, o: Occurrence)
    requires h < |handlers| && o in InAll(handlers[h].body, context)
    ensures o in InHandlers(handlers, context)
    decreases |handlers|
  {
    if h < |handlers| - 1 {
      InHandlersHas(handlers[..|handlers| - 1], context, h, o);
    }
  }

  lemma {:induction false} InHandlersFrom(handlers: seq<Handler>, context: Context, o: Occurrence) returns (h: nat)
    requires o in InHandlers(handlers, context)
    ensures h < |handlers| && o in InAll(handlers[h].body, context)
    decreases |handlers|
  {
    if o in InAll(handlers[|handlers| - 1].body, context) {
      h := |handlers| - 1;
    } else {
      h := InHandlersFrom(handlers[..|handlers| - 1], context, o);
    }
  }

  /** A node has what stands one step below it, in the context of that step. */
  lemma HasBelow(node: Node, step: Step, context: Context, o: Occurrence)
    requires Below(node, step).Some? && o in Occurrences(Below(node, step).value, Narrow(node, step, context))
    ensures o in Occurrences(node, context)
  {
    var inside := Narrow(node, step, context);
    match step
    case Child(i) => InAllHas(if node.Function? then node.body else node.children, inside, i, o);
    case InBody(i) => InAllHas(node.body, inside, i, o);
    case InHandler(h, i) =>
      InAllHas(node.handlers[h].body, inside, i, o);
      InHandlersHas(node.handlers, context, h, o);
    case InElse(i) => InAllHas(node.orelse, inside, i, o);
    case InFinal(i) => InAllHas(node.final, inside, i, o);
  }

  /** Conversely, what a node has is its own import or stands one step below. */
  lemma FromBelow(node: Node, context: Context, o: Occurrence) returns (step: Step)
    requires o in Occurrences(node, context) && !node.Import? && !node.ImportFrom?
    ensures Below(node, step).Some? && o in Occurrences(Below(node, step).value, Narrow(node, step, context))
  {
    match node
    case Function(body) =>
      var i := InAllFrom(body, context.(inFunction := true), o);
      step := Child(i);
    case Compound(children) =>
      var i := InAllFrom(children, context, o);
      step := Child(i);
    case Try(body, handlers, orelse, final) =>
      step := FromBelowTry(node, context, o);
  }

  lemma FromBelowTry(node: Node, context: Context, o: Occurrence) returns (step: Step)
    requires o in Occurrences(node, context) && node.Try?
    ensures Below(node, step).Some? && o in Occurrences(Below(node, step).value, Narrow(node, step, context))
  {
    var inside := context.(guarded := context.guarded || Catches(node.handlers));
    if o in InAll(node.body, inside) {
      var i := InAllFrom(node.body, inside, o);
      step := InBody(i);
    } else if o in InHandlers(node.handlers, context) {
      var h := InHandlersFrom(node.handlers, context, o);
      var i := InAllFrom(node.handlers[h].body, context, o);
      step := InHandler(h, i);
    } else if o in InAll(node.orelse, context) {
      var i := InAllFrom(node.orelse, context, o);
      step := InElse(i);
    } else {
      var i := InAllFrom(node.final, context, o);
      step := InFinal(i);
    }
  }

  /** The kind an import at the end of a path must have. */
  function KindAt(node: Node, path: seq<Step>, context: Context): Kind {
    KindIn(Context(context.inFunction || UnderFunction(node, path), context.guarded || UnderGuard(node, path)))
  }

  lemma {:induction false} PathHas(node: Node, path: seq<Step>, context: Context, found: Found)
    requires LeadsTo(node, path, found)
    ensures Occurrence(found, KindAt(node, path, context)) in Occurrences(node, context)
    decreases |path|
  {
    var o := Occurrence(found, KindAt(node, path, context));
    if path == [] {
      match node {
        case Import(names, line) => NamedHas(names, line, KindIn(context), o);
        case ImportFrom(from, level, line) => NamedHas([Dots(level) + from.value], line, KindIn(context), o);
      }
    } else {
      PathHas(Below(node, path[0]).value, path[1..], Narrow(node, path[0], context), found);
      HasBelow(node, path[0], context, o);
    }
  }

  lemma {:induction false} PathFrom(node: Node, context: Context, o: Occurrence) returns (path: seq<Step>)
    requires o in Occurrences(node, context)
    ensures LeadsTo(node, path, o.found) && o.kind == KindAt(node, path, context)
    decreases node
  {
    if node.Import? {
      NamedHas(node.names, node.line, KindIn(context), o);
      path := [];
    } else if node.ImportFrom? {
      NamedHas([Dots(node.level) + node.from.value], node.line, KindIn(context), o);
      path := [];
    } else {
      var step := FromBelow(node, context, o);
      var rest := PathFrom(Below(node, step).value, Narrow(node, step, context), o);
      path := [step] + rest;
      assert path[1..] == rest;
    }
  }

  /** An import is found as inner exactly when a function stands above it, else as guarded
      exactly when its path enters the body of a try that catches a failing import, else as top. */
  lemma KindIsWhereItStands(file: Node, o: Occurrence)
    ensures o in Occurrences(file, Context(false, false)) <==>
            exists path :: LeadsTo(file, path, o.found) && o.kind == KindAt(file, path, Context(false, false))
  {
    var start := Context(false, false);
    if o in Occurrences(file, start) {
      var path := PathFrom(file, start, o);
    }
    forall path | LeadsTo(file, path, o.found) && o.kind == KindAt(file, path, start)
      ensures o in Occurrences(file, start)
    {
      PathHas(file, path, start, o.found);
    }
  }
}
