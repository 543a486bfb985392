/** The gate over one captured run: its loops of checks, and the global facts they add up to. */
module ProductGate {
  import Arithmetic
  import opened Results

  datatype Mode = DL | LL

  datatype Identity = Identity(operation: string, config: string, generation: int)

  datatype Span = Span(start: int, end: int)

  datatype Assignment = Assignment(node: string, span: Span, engine: string)

  datatype Prepared = Prepared(identity: Identity, node: string, span: Span, assignment: string, artifact: string)

  datatype Stage = Stage(node: string, span: Span, prepared: Prepared)

  /** The step a composite name ends in, and what stands before it: a task or a node. */
  datatype StepName = StepName(owner: string, step: int)

  datatype Event = Event(task: string, node: string, request: StepName, stage: StepName, identity: Identity,
                         span: Span, assignment: string, artifact: string, kind: string, hidden: string,
                         tokens: int, completedAt: real)

  datatype Window = Window(started: real, finished: real)

  /** What a raw capture yields for the two summaries that cite it. */
  datatype Derived = Derived(topology: string, native: string, total: int, started: real, captured: real,
                             finished: real)

  datatype Observer = Observer(node: string, complete: bool, peers: seq<string>, raw: string, claim: string)

  datatype Load = Load(node: string, revision: string, clean: bool, source: string, fullModel: bool, engine: string,
                       span: Span, complete: bool, raw: string, claim: string)

  const MASTER := "master"

  predicate Blank(s: string) {
    forall i :: 0 <= i < |s| ==> s[i] in " \t\r\n"
  }

  predicate IsDigest(s: string) {
    |s| == 64 && forall i :: 0 <= i < |s| ==> '0' <= s[i] <= '9' || 'a' <= s[i] <= 'f'
  }

  predicate Named(identity: Identity) {
    !Blank(identity.operation) && !Blank(identity.config) && identity.generation >= 1
  }

  /** A proper part of the decoder: never empty, never the whole. */
  predicate Partial(span: Span, total: int) {
    0 <= span.start < span.end <= total && span.end - span.start < total
  }

  // ---- the plan tiles the decoder ----

  function Engine(mode: Mode, index: nat): string {
    if mode == DL && index == 0 then "pytorch" else "llama_cpp"
  }

  predicate DistinctNodes(plan: seq<Assignment>) {
    forall i, j :: 0 <= i < j < |plan| ==> plan[i].node != plan[j].node
  }

  predicate Seated(mode: Mode, total: int, a: Assignment, index: nat, cursor: int) {
    && !Blank(a.node) && Partial(a.span, total) && a.span.start == cursor
    && (a.node == MASTER <==> index == 0) && a.engine == Engine(mode, index)
  }

  predicate SeatedAt(mode: Mode, total: int, plan: seq<Assignment>, i: nat)
    requires i < |plan|
  {
    Seated(mode, total, plan[i], i, if i == 0 then 0 else plan[i - 1].span.end)
  }

  predicate Tiles(mode: Mode, total: int, plan: seq<Assignment>) {
    && |plan| >= 3 && DistinctNodes(plan)
    && (forall i :: 0 <= i < |plan| ==> SeatedAt(mode, total, plan, i))
    && plan[|plan| - 1].span.end == total
  }

  method CheckPlan(mode: Mode, total: int, plan: seq<Assignment>) returns (ok: bool)
    ensures ok <==> Tiles(mode, total, plan)
  {
    if |plan| < 3 {
      return false;
    }
    var nodes: set<string>, cursor := {}, 0;
    for index := 0 to |plan|
      invariant forall node :: node in nodes <==> exists i :: 0 <= i < index && plan[i].node == node
      invariant forall i, j :: 0 <= i < j < index ==> plan[i].node != plan[j].node
      invariant forall i :: 0 <= i < index ==> SeatedAt(mode, total, plan, i)
      invariant cursor == if index == 0 then 0 else plan[index - 1].span.end
    {
      var a := plan[index];
      if Blank(a.node) || a.node in nodes {
        assert a.node in nodes || !SeatedAt(mode, total, plan, index);
        return false;
      }
      if !Partial(a.span, total) || a.span.start != cursor {
        assert !SeatedAt(mode, total, plan, index);
        return false;
      }
      cursor := a.span.end;
      if (a.node == MASTER) != (index == 0) || a.engine != Engine(mode, index) {
        assert !SeatedAt(mode, total, plan, index);
        return false;
      }
      nodes := nodes + {a.node};
    }
    ok := cursor == total;
  }

  /** The assignment owns the layer. */
  predicate Owns(a: Assignment, layer: int) {
    a.span.start <= layer < a.span.end
  }

  lemma {:induction false} EndsAscend(mode: Mode, total: int, plan: seq<Assignment>, i: nat, j: nat)
    requires Tiles(mode, total, plan) && i < j < |plan|
    ensures plan[i].span.end <= plan[j].span.start
    decreases j
  {
    assert SeatedAt(mode, total, plan, j);
    if i < j - 1 {
      EndsAscend(mode, total, plan, i, j - 1);
      assert SeatedAt(mode, total, plan, j - 1);
    }
  }

  lemma {:induction false} OwnerBelow(mode: Mode, total: int, plan: seq<Assignment>, n: nat, layer: int)
    returns (i: nat)
    requires Tiles(mode, total, plan) && n < |plan| && 0 <= layer < plan[n].span.end
    ensures i <= n && Owns(plan[i], layer)
    decreases n
  {
    assert SeatedAt(mode, total, plan, n);
    if layer >= plan[n].span.start {
      i := n;
    } else {
      i := OwnerBelow(mode, total, plan, n - 1, layer);
    }
  }

  /** An accepted plan gives every layer of the decoder exactly one owner; no node owns them
      all, only the first is the master, and at least two others take part. */
  lemma EveryLayerOnce(mode: Mode, total: int, plan: seq<Assignment>, layer: int)
    requires Tiles(mode, total, plan) && 0 <= layer < total
    ensures exists i :: 0 <= i < |plan| && Owns(plan[i], layer)
                        && forall j :: 0 <= j < |plan| && Owns(plan[j], layer) ==> j == i
    ensures exists i :: 0 <= i < |plan| && !Owns(plan[i], layer)
    ensures plan[0].node == MASTER && plan[1].node != plan[2].node
    ensures forall i :: 0 < i < |plan| ==> plan[i].node != MASTER
  {
    var i := OwnerBelow(mode, total, plan, |plan| - 1, layer);
    forall j | 0 <= j < |plan| && Owns(plan[j], layer)
      ensures j == i
    {
      if i < j {
        EndsAscend(mode, total, plan, i, j);
      } else if j < i {
        EndsAscend(mode, total, plan, j, i);
      }
    }
    assert !Owns(plan[if i == 0 then 1 else 0], layer);
    assert SeatedAt(mode, total, plan, 0);
    forall k | 0 < k < |plan|
      ensures plan[k].node != MASTER
    {
      assert SeatedAt(mode, total, plan, k);
    }
  }

  // ---- the stages that ran are the planned ones ----

  predicate StageAgrees(total: int, identity: Identity, planned: Assignment, stage: Stage) {
    && stage.node == planned.node
    && Partial(stage.span, total) && stage.span == planned.span
    && stage.prepared.identity == identity && Named(stage.prepared.identity)
    && stage.prepared.node == planned.node
    && Partial(stage.prepared.span, total) && stage.prepared.span == planned.span
    && !Blank(stage.prepared.assignment) && IsDigest(stage.prepared.artifact)
  }

  predicate StagesAgree(total: int, identity: Identity, remote: seq<Assignment>, stages: seq<Stage>) {
    |stages| == |remote| && forall i :: 0 <= i < |remote| ==> StageAgrees(total, identity, remote[i], stages[i])
  }

  method CheckStages(total: int, identity: Identity, remote: seq<Assignment>, stages: seq<Stage>) returns (ok: bool)
    ensures ok <==> StagesAgree(total, identity, remote, stages)
  {
    if |stages| != |remote| {
      return false;
    }
    for i := 0 to |remote|
      invariant forall j :: 0 <= j < i ==> StageAgrees(total, identity, remote[j], stages[j])
    {
      if !StageAgrees(total, identity, remote[i], stages[i]) {
        return false;
      }
    }
    return true;
  }

  // ---- the handoffs are a full round-robin schedule ----

  /** The completed handoffs of one task, in the order of the log. */
  function OfTask(log: seq<Event>, task: string): seq<Event>
    decreases |log|
  {
    if log == [] then []
    else OfTask(log[..|log| - 1], task) + if log[|log| - 1].task == task then [log[|log| - 1]] else []
  }

  method Select(log: seq<Event>, task: string) returns (events: seq<Event>)
    ensures events == OfTask(log, task)
  {
    events := [];
    for i := 0 to |log|
      invariant events == OfTask(log[..i], task)
    {
      assert log[..i + 1][..i] == log[..i];
      if log[i].task == task {
        events := events + [log[i]];
      }
    }
    assert log[..|log|] == log;
  }

  function Extra(stop: string): nat {
    if stop == "eos_token" then 1 else 0
  }

  /** What the handoffs of a run are held against. */
  datatype Schedule = Schedule(total: int, identity: Identity, task: string, remote: seq<Assignment>,
                               stages: seq<Stage>, window: Window)
  {
    predicate Sized() {
      0 < |remote| == |stages|
    }
  }

  predicate EventAgrees(s: Schedule, n: nat, step: nat, e: Event)
    requires s.Sized() && n < |s.remote|
  {
    && e.node == s.remote[n].node
    && e.request == StepName(s.task, step) && e.stage == StepName(s.remote[n].node, step)
    && e.identity == s.identity && Named(e.identity)
    && Partial(e.span, s.total) && e.span == s.remote[n].span
    && e.assignment == s.stages[n].prepared.assignment && e.artifact == s.stages[n].prepared.artifact
    && e.kind == (if s.remote[n].node == s.remote[|s.remote| - 1].node then "token" else "hidden")
    && IsDigest(e.hidden) && e.tokens >= 1 && e.completedAt > 0.0
  }

  /** The event is the one due at this place, and no earlier than the one before it. */
  predicate Due(s: Schedule, events: seq<Event>, i: nat)
    requires s.Sized() && i < |events|
  {
    && EventAgrees(s, i % |s.remote|, i / |s.remote|, events[i])
    && (if i == 0 then s.window.started else events[i - 1].completedAt) <= events[i].completedAt <= s.window.finished
  }

  predicate Rounds(s: Schedule, events: seq<Event>, steps: nat, stop: string)
    requires s.Sized()
  {
    && events != [] && |events| % |s.remote| == 0
    && stop in ["eos_token", "text_stop"] && |events| / |s.remote| == steps + Extra(stop)
  }

  predicate RoundRobin(s: Schedule, events: seq<Event>, steps: nat, stop: string)
    requires s.Sized()
  {
    Rounds(s, events, steps, stop) && forall i :: 0 <= i < |events| ==> Due(s, events, i)
  }

  method CheckHandoffs(s: Schedule, events: seq<Event>, steps: nat, stop: string) returns (ok: bool)
    requires s.Sized()
    ensures ok <==> RoundRobin(s, events, steps, stop)
  {
    if !Rounds(s, events, steps, stop) {
      return false;
    }
    var last := s.window.started;
    for index := 0 to |events|
      invariant last == if index == 0 then s.window.started else events[index - 1].completedAt
      invariant forall i :: 0 <= i < index ==> Due(s, events, i)
    {
      var n, step := index % |s.remote|, index / |s.remote|;
      if !EventAgrees(s, n, step, events[index]) || !(last <= events[index].completedAt <= s.window.finished) {
        assert !Due(s, events, index);
        return false;
      }
      last := events[index].completedAt;
    }
    return true;
  }

  // ---- the schedule as a whole ----

  /** The place of a node's step in the log: step by step, and in plan order within a step. */
  function PlaceOf(s: Schedule, n: nat, step: nat): nat
    requires s.Sized()
  {
    step * |s.remote| + n
  }

  predicate IsHandoff(s: Schedule, e: Event, n: nat, step: nat)
    requires s.Sized() && n < |s.remote|
  {
    e.node == s.remote[n].node && e.request.step == step
  }

  lemma PlaceWithin(s: Schedule, rounds: nat, n: nat, step: nat, count: nat)
    requires s.Sized() && n < |s.remote| && step < rounds && count == rounds * |s.remote|
    ensures PlaceOf(s, n, step) < count
    ensures PlaceOf(s, n, step) / |s.remote| == step && PlaceOf(s, n, step) % |s.remote| == n
  {
    Arithmetic.Scaled(step + 1, rounds, |s.remote|);
    Arithmetic.QuotientUnique(PlaceOf(s, n, step), |s.remote|, step, n);
  }

  lemma PlaceFrom(s: Schedule, i: nat)
    requires s.Sized()
    ensures PlaceOf(s, i % |s.remote|, i / |s.remote|) == i
  {
  }

  /** An accepted log holds exactly one handoff for every remote node and every round, at the
      place the schedule gives it, and the rounds are the visible steps plus one for an end token. */
  lemma OneHandoffEach(s: Schedule, events: seq<Event>, steps: nat, stop: string, n: nat, step: nat)
    requires s.Sized() && RoundRobin(s, events, steps, stop) && DistinctNodes(s.remote)
    requires n < |s.remote| && step < steps + Extra(stop)
    ensures PlaceOf(s, n, step) < |events|
    ensures forall i :: 0 <= i < |events| ==> (IsHandoff(s, events[i], n, step) <==> i == PlaceOf(s, n, step))
    ensures events[PlaceOf(s, n, step)].kind == if n == |s.remote| - 1 then "token" else "hidden"
  {
    var rounds := steps + Extra(stop);
    assert |events| == rounds * |s.remote|;
    PlaceWithin(s, rounds, n, step, |events|);
    forall i | 0 <= i < |events|
      ensures IsHandoff(s, events[i], n, step) <==> i == PlaceOf(s, n, step)
    {
      assert Due(s, events, i);
      PlaceFrom(s, i);
    }
    assert Due(s, events, PlaceOf(s, n, step));
  }

  /** The times never fall and never leave the window. */
  lemma {:induction false} TimesNeverFall(s: Schedule, events: seq<Event>, steps: nat, stop: string, i: nat, j: nat)
    requires s.Sized() && RoundRobin(s, events, steps, stop) && i <= j < |events|
    ensures s.window.started <= events[i].completedAt <= events[j].completedAt <= s.window.finished
    decreases j
  {
    assert Due(s, events, j);
    if i < j {
      TimesNeverFall(s, events, steps, stop, i, j - 1);
    } else if j > 0 {
      TimesNeverFall(s, events, steps, stop, j - 1, j - 1);
    }
  }

  /** Whatever else the log holds, each round is whole: no handoff of the task is outside the schedule. */
  lemma EveryHandoffScheduled(s: Schedule, log: seq<Event>, steps: nat, stop: string, e: Event)
    requires s.Sized() && RoundRobin(s, OfTask(log, s.task), steps, stop)
    requires e in log && e.task == s.task
    ensures exists n, step :: 0 <= n < |s.remote| && 0 <= step < steps + Extra(stop) && EventAgrees(s, n, step, e)
  {
    var events := OfTask(log, s.task);
    var i := Selected(log, s.task, e);
    ScheduledAt(s, events, steps, stop, i);
  }

  lemma ScheduledAt(s: Schedule, events: seq<Event>, steps: nat, stop: string, i: nat)
    requires s.Sized() && RoundRobin(s, events, steps, stop) && i < |events|
    ensures exists n, step :: 0 <= n < |s.remote| && 0 <= step < steps + Extra(stop) &&
              EventAgrees(s, n, step, events[i])
  {
    assert Due(s, events, i);
    StepWithin(i, |s.remote|, |events|);
    assert EventAgrees(s, i % |s.remote|, i / |s.remote|, events[i]);
  }

  lemma StepWithin(i: nat, m: nat, count: nat)
    requires m > 0 && i < count && count % m == 0
    ensures i / m < count / m && i % m < m
  {
    if i / m >= count / m {
      Arithmetic.Scaled(count / m, i / m, m);
    }
  }

  lemma {:induction false} Selected(log: seq<Event>, task: string, e: Event) returns (i: nat)
    requires e in log && e.task == task
    ensures i < |OfTask(log, task)| && OfTask(log, task)[i] == e
    decreases |log|
  {
    var init, last := log[..|log| - 1], log[|log| - 1];
    assert log == init + [last];
    if e == last {
      i := |OfTask(init, task)|;
    } else {
      i := Selected(init, task, e);
    }
  }

  // ---- the observed connections are exactly the star ----

  /** What an observation is held against; what a raw capture yields for a node is some
      function of the two. */
  datatype Scene = Scene(total: int, revision: string, plan: seq<Assignment>, window: Window,
                         derive: (string, string) -> Option<Derived>)

  function Nodes(plan: seq<Assignment>): (nodes: seq<string>)
    ensures |nodes| == |plan|
  {
    seq(|plan|, i requires 0 <= i < |plan| => plan[i].node)
  }

  function Neighbours(plan: seq<Assignment>, node: string): set<string>
    requires plan != []
  {
    if node == MASTER then set name | name in Nodes(plan[1..]) else {MASTER}
  }

  predicate Timely(s: Scene, d: Derived) {
    d.total == s.total && s.window.started <= d.started <= d.captured <= d.finished <= s.window.finished
  }

  predicate Derives(s: Scene, node: string, raw: string) {
    s.derive(raw, node).Some? && Timely(s, s.derive(raw, node).value)
  }

  predicate DistinctStrings(names: seq<string>) {
    forall i, j :: 0 <= i < j < |names| ==> names[i] != names[j]
  }

  predicate ObserverAgrees(s: Scene, o: Observer)
    requires s.plan != []
  {
    && o.node in Nodes(s.plan) && o.complete
    && DistinctStrings(o.peers) && (set peer | peer in o.peers) == Neighbours(s.plan, o.node)
    && Derives(s, o.node, o.raw) && o.claim == s.derive(o.raw, o.node).value.topology
  }

  predicate ObserversAgree(s: Scene, observers: seq<Observer>)
    requires s.plan != []
  {
    && |observers| == |s.plan|
    && (forall i :: 0 <= i < |observers| ==> ObserverAgrees(s, observers[i]))
    && forall i, j :: 0 <= i < j < |observers| ==> observers[i].node != observers[j].node
  }

  method CheckObservers(s: Scene, observers: seq<Observer>) returns (ok: bool)
    requires s.plan != []
    ensures ok <==> ObserversAgree(s, observers)
  {
    if |observers| != |s.plan| {
      return false;
    }
    var seen: set<string> := {};
    for k := 0 to |observers|
      invariant forall node :: node in seen <==> exists i :: 0 <= i < k && observers[i].node == node
      invariant forall i :: 0 <= i < k ==> ObserverAgrees(s, observers[i])
      invariant forall i, j :: 0 <= i < j < k ==> observers[i].node != observers[j].node
    {
      if observers[k].node in seen || !ObserverAgrees(s, observers[k]) {
        return false;
      }
      seen := seen + {observers[k].node};
    }
    return true;
  }

  lemma {:induction false} SetSize(names: seq<string>)
    requires DistinctStrings(names)
    ensures |set name | name in names| == |names|
    decreases |names|
  {
    if names != [] {
      var init, last := names[..|names| - 1], names[|names| - 1];
      SetSize(init);
      assert names == init + [last];
      assert (set name | name in names) == (set name | name in init) + {last};
    }
  }

  /** As many distinct names out of a list as the list has are all of them. */
  lemma Pigeonhole(names: seq<string>, all: seq<string>)
    requires DistinctStrings(names) && DistinctStrings(all) && |names| == |all|
    requires forall name :: name in names ==> name in all
    ensures forall name :: name in all ==> name in names
  {
    SetSize(names);
    SetSize(all);
    var some, every := set name | name in names, set name | name in all;
    assert some <= every;
    if some != every {
      assert some < every;
      Smaller(some, every);
      assert false;
    }
    forall name | name in all
      ensures name in names
    {
      assert name in every;
    }
  }

  lemma Smaller(some: set<string>, every: set<string>)
    requires some < every
    ensures |some| < |every|
  {
    var rest := every - some;
    assert every == some + rest;
    assert rest != {};
  }

  function ObserverNodes(observers: seq<Observer>): (nodes: seq<string>)
    ensures |nodes| == |observers|
  {
    seq(|observers|, i requires 0 <= i < |observers| => observers[i].node)
  }

  /** A connection from a to b was observed. */
  predicate Connected(observers: seq<Observer>, a: string, b: string) {
    exists i :: 0 <= i < |observers| && observers[i].node == a && b in observers[i].peers
  }

  lemma AllObserved(s: Scene, observers: seq<Observer>, node: string)
    requires s.plan != [] && DistinctNodes(s.plan) && ObserversAgree(s, observers)
    ensures node in Nodes(s.plan) <==> exists i :: 0 <= i < |observers| && observers[i].node == node
  {
    var names := ObserverNodes(observers);
    forall i | 0 <= i < |observers|
      ensures observers[i].node in Nodes(s.plan) && names[i] == observers[i].node
    {
      assert ObserverAgrees(s, observers[i]);
    }
    Pigeonhole(names, Nodes(s.plan));
    if node in Nodes(s.plan) {
      var i :| 0 <= i < |names| && names[i] == node;
      assert observers[i].node == node;
    }
  }

  predicate IsRemote(plan: seq<Assignment>, node: string) {
    exists i :: 0 < i < |plan| && plan[i].node == node
  }

  /** The observed connections are exactly those between the master and each remote node, both
      ways: a star without any edge between workers. */
  lemma ExactlyTheStar(mode: Mode, s: Scene, observers: seq<Observer>, a: string, b: string)
    requires Tiles(mode, s.total, s.plan) && ObserversAgree(s, observers)
    ensures Connected(observers, a, b) <==> (a == MASTER && IsRemote(s.plan, b)) || (b == MASTER && IsRemote(s.plan, a))
    ensures Connected(observers, a, b) <==> Connected(observers, b, a)
    ensures IsRemote(s.plan, a) && IsRemote(s.plan, b) ==> !Connected(observers, a, b)
  {
    OneWay(mode, s, observers, a, b);
    OneWay(mode, s, observers, b, a);
    MasterIsNotRemote(mode, s.total, s.plan);
  }

  lemma MasterIsNotRemote(mode: Mode, total: int, plan: seq<Assignment>)
    requires Tiles(mode, total, plan)
    ensures plan[0].node == MASTER && !IsRemote(plan, MASTER)
  {
    assert SeatedAt(mode, total, plan, 0);
    forall i | 0 < i < |plan|
      ensures plan[i].node != MASTER
    {
      assert SeatedAt(mode, total, plan, i);
    }
  }

  lemma RemoteNames(plan: seq<Assignment>, node: string)
    requires plan != []
    ensures IsRemote(plan, node) <==> node in Nodes(plan[1..])
    ensures node in Nodes(plan) <==> node == plan[0].node || IsRemote(plan, node)
  {
    if IsRemote(plan, node) {
      var i :| 0 < i < |plan| && plan[i].node == node;
      assert Nodes(plan[1..])[i - 1] == node && Nodes(plan)[i] == node;
    }
    if node in Nodes(plan[1..]) {
      var i :| 0 <= i < |plan[1..]| && plan[1..][i].node == node;
      assert plan[i + 1].node == node;
    }
    assert Nodes(plan)[0] == plan[0].node;
  }

  lemma OneWay(mode: Mode, s: Scene, observers: seq<Observer>, a: string, b: string)
    requires Tiles(mode, s.total, s.plan) && ObserversAgree(s, observers)
    ensures Connected(observers, a, b) <==> (a == MASTER && IsRemote(s.plan, b)) || (b == MASTER && IsRemote(s.plan, a))
  {
    AllObserved(s, observers, a);
    RemoteNames(s.plan, a);
    RemoteNames(s.plan, b);
    MasterIsNotRemote(mode, s.total, s.plan);
    forall i | 0 <= i < |observers| && observers[i].node == a
      ensures b in observers[i].peers <==> b in Neighbours(s.plan, a)
    {
      assert ObserverAgrees(s, observers[i]);
      assert b in observers[i].peers <==> b in (set peer | peer in observers[i].peers);
    }
  }

  // ---- the loaded parts cite the same captures ----

  /** The observation of the same node, the first if there were several. */
  function TopologyOf(observers: seq<Observer>, node: string): Option<Observer> {
    if observers == [] then None
    else if observers[0].node == node then Some(observers[0])
    else TopologyOf(observers[1..], node)
  }

  predicate LoadAgrees(s: Scene, observers: seq<Observer>, load: Load) {
    && (exists i :: 0 <= i < |s.plan| &&
          s.plan[i].node == load.node && load.engine == s.plan[i].engine && load.span == s.plan[i].span)
    && load.revision == s.revision && load.clean && load.source in ["os_process_mappings", "native_loader_receipt"]
    && !load.fullModel && Partial(load.span, s.total) && load.complete
    && TopologyOf(observers, load.node).Some? && load.raw == TopologyOf(observers, load.node).value.raw
    && s.derive(load.raw, load.node).Some? && load.claim == s.derive(load.raw, load.node).value.native
  }

  predicate LoadsAgree(s: Scene, observers: seq<Observer>, loads: seq<Load>) {
    && |loads| == |s.plan|
    && (forall i :: 0 <= i < |loads| ==> LoadAgrees(s, observers, loads[i]))
    && forall i, j :: 0 <= i < j < |loads| ==> loads[i].node != loads[j].node
  }

  method CheckLoads(s: Scene, observers: seq<Observer>, loads: seq<Load>) returns (ok: bool)
    ensures ok <==> LoadsAgree(s, observers, loads)
  {
    if |loads| != |s.plan| {
      return false;
    }
    var seen: set<string> := {};
    for k := 0 to |loads|
      invariant forall node :: node in seen <==> exists i :: 0 <= i < k && loads[i].node == node
      invariant forall i :: 0 <= i < k ==> LoadAgrees(s, observers, loads[i])
      invariant forall i, j :: 0 <= i < j < k ==> loads[i].node != loads[j].node
    {
      if loads[k].node in seen || !LoadAgrees(s, observers, loads[k]) {
        return false;
      }
      seen := seen + {loads[k].node};
    }
    return true;
  }

  lemma {:induction false} TopologyIs(observers: seq<Observer>, i: nat)
    requires i < |observers| && forall j, k :: 0 <= j < k < |observers| ==> observers[j].node != observers[k].node
    ensures TopologyOf(observers, observers[i].node) == Some(observers[i])
    decreases |observers|
  {
    if i > 0 {
      TopologyIs(observers[1..], i - 1);
    }
  }

  function LoadNodes(loads: seq<Load>): (nodes: seq<string>)
    ensures |nodes| == |loads|
  {
    seq(|loads|, i requires 0 <= i < |loads| => loads[i].node)
  }

  /** Every planned node has one connection summary and one load summary; both cite the same
      raw capture, which yields what both claim; and no node loaded more than its part. */
  lemma SummariesShareCapture(s: Scene, observers: seq<Observer>, loads: seq<Load>, n: nat)
    requires s.plan != [] && DistinctNodes(s.plan) && n < |s.plan|
    requires ObserversAgree(s, observers) && LoadsAgree(s, observers, loads)
    ensures exists i, j :: 0 <= i < |observers| && 0 <= j < |loads|
                           && observers[i].node == s.plan[n].node && loads[j].node == s.plan[n].node
                           && observers[i].raw == loads[j].raw && s.derive(loads[j].raw, s.plan[n].node).Some?
                           && observers[i].claim == s.derive(loads[j].raw, s.plan[n].node).value.topology
                           && loads[j].claim == s.derive(loads[j].raw, s.plan[n].node).value.native
                           && loads[j].span == s.plan[n].span && !loads[j].fullModel
  {
    var node := s.plan[n].node;
    assert Nodes(s.plan)[n] == node;
    AllObserved(s, observers, node);
    var i :| 0 <= i < |observers| && observers[i].node == node;
    TopologyIs(observers, i);
    assert ObserverAgrees(s, observers[i]);
    var j := LoadedSomewhere(s, observers, loads, n);
    assert LoadAgrees(s, observers, loads[j]);
  }

  lemma LoadedSomewhere(s: Scene, observers: seq<Observer>, loads: seq<Load>, n: nat) returns (j: nat)
    requires DistinctNodes(s.plan) && n < |s.plan| && LoadsAgree(s, observers, loads)
    ensures j < |loads| && loads[j].node == s.plan[n].node
  {
    var names := LoadNodes(loads);
    forall name | name in names
      ensures name in Nodes(s.plan)
    {
      var i :| 0 <= i < |loads| && loads[i].node == name;
      assert LoadAgrees(s, observers, loads[i]);
      var k :| 0 <= k < |s.plan| && s.plan[k].node == name;
      assert Nodes(s.plan)[k] == name;
    }
    Pigeonhole(names, Nodes(s.plan));
    assert Nodes(s.plan)[n] in names;
    j :| 0 <= j < |names| && names[j] == s.plan[n].node;
  }
}
