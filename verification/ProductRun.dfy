/** One captured run through the whole gate, and what its acceptance means. */
module ProductRun {
  import Arithmetic
  import opened Results
  import opened ProductGate

  datatype Intent = Intent(identity: Identity, ready: bool, loaded: bool, admitted: bool, total: int,
                           plan: seq<Assignment>, masterArtifact: string)

  datatype Response = Response(done: bool, error: bool, cancelled: bool, answer: string, distributed: bool,
                               fallback: bool, fallbackReason: string, routing: string, execution: string,
                               identity: Identity, request: string, task: string, config: string,
                               workers: seq<string>, stages: seq<Stage>, steps: seq<int>, finish: string, stop: string)

  datatype Topology = Topology(identity: Identity, capturedAt: real, source: string, complete: bool,
                               observers: seq<Observer>, addresses: map<string, string>)

  datatype Native = Native(identity: Identity, capturedAt: real, addresses: map<string, string>, loads: seq<Load>)

  datatype Ui = Ui(entry: string, done: bool, request: string, expected: string, submitted: string,
                   rendered: string, capturedAt: real)

  /** The parsed evidence of a run, its log of completed handoffs, and what raw captures yield. */
  datatype Evidence = Evidence(mode: Mode, clean: bool, intent: Intent, response: Response, log: seq<Event>,
                               topology: Topology, native: Native, ui: Ui, derive: (string, string) -> Option<Derived>)

  datatype Accepted = Accepted(mode: Mode, request: string, identity: Identity, nodes: seq<string>, rounds: nat)

  function TrimStart(s: string): string {
    if s != "" && s[0] in " \t\r\n" then TrimStart(s[1..]) else s
  }

  function TrimEnd(s: string): string {
    if s != "" && s[|s| - 1] in " \t\r\n" then TrimEnd(s[..|s| - 1]) else s
  }

  function Trim(s: string): string {
    TrimEnd(TrimStart(s))
  }

  predicate IntentReady(e: Evidence) {
    e.clean && Named(e.intent.identity) && e.intent.ready && e.intent.loaded && e.intent.admitted && e.intent.total >= 3
  }

  predicate ResponseSound(e: Evidence) {
    var r := e.response;
    && r.done && !r.error && !r.cancelled && !Blank(r.answer)
    && r.distributed && !r.fallback && r.fallbackReason == ""
    && r.routing == "distributed_required" && r.execution == "route_a_stage_offer_v3"
    && r.identity == e.intent.identity && !Blank(r.request) && r.request != "-"
    && !Blank(r.task) && r.config == "route_a:" + r.task
    && r.finish == "stop"
  }

  predicate Within(captured: real, window: Window) {
    captured > 0.0 && window.started <= captured <= window.finished
  }

  predicate TopologySound(e: Evidence, window: Window) {
    && e.topology.identity == e.intent.identity && Within(e.topology.capturedAt, window)
    && e.topology.source == "os_process_connections" && e.topology.complete
    && (forall i :: 0 <= i < |e.intent.plan| ==> e.intent.plan[i].node in e.topology.addresses)
    && IsDigest(e.intent.masterArtifact)
  }

  predicate NativeSound(e: Evidence, window: Window) {
    && e.native.identity == e.intent.identity && Within(e.native.capturedAt, window)
    && e.native.addresses == e.topology.addresses
  }

  predicate UiSound(e: Evidence, window: Window) {
    && e.ui.entry in ["textual", "web", "android"] && e.ui.done && e.ui.request == e.response.request
    && !Blank(e.ui.expected) && !Blank(e.ui.submitted) && !Blank(e.ui.rendered)
    && Trim(e.ui.rendered) == Trim(e.response.answer) == Trim(e.ui.expected)
    && Within(e.ui.capturedAt, window)
  }

  function Remote(e: Evidence): seq<Assignment>
    requires e.intent.plan != []
  {
    e.intent.plan[1..]
  }

  function SceneOf(e: Evidence, revision: string, window: Window): Scene {
    Scene(e.intent.total, revision, e.intent.plan, window, e.derive)
  }

  function ScheduleOf(e: Evidence, window: Window): Schedule
    requires e.intent.plan != []
  {
    Schedule(e.intent.total, e.intent.identity, e.response.task, Remote(e), e.response.stages, window)
  }

  function Handoffs(e: Evidence): seq<Event> {
    OfTask(e.log, e.response.task)
  }

  /** The workers, stages and steps reported are those of the plan. */
  predicate Ran(e: Evidence)
    requires e.intent.plan != []
  {
    && e.response.workers == Nodes(Remote(e))
    && StagesAgree(e.intent.total, e.intent.identity, Remote(e), e.response.stages)
    && e.response.steps != [] && e.response.steps == Arithmetic.UpTo(|e.response.steps|)
  }

  predicate Observed(e: Evidence, revision: string, window: Window)
    requires e.intent.plan != []
  {
    && TopologySound(e, window) && ObserversAgree(SceneOf(e, revision, window), e.topology.observers)
    && NativeSound(e, window) && LoadsAgree(SceneOf(e, revision, window), e.topology.observers, e.native.loads)
  }

  predicate Accepts(e: Evidence, revision: string, window: Window) {
    && IntentReady(e) && Tiles(e.mode, e.intent.total, e.intent.plan)
    && ResponseSound(e) && Ran(e)
    && RoundRobin(ScheduleOf(e, window), Handoffs(e), |e.response.steps|, e.response.stop)
    && Observed(e, revision, window) && UiSound(e, window)
  }

  /** The steps are numbered from zero without a gap. */
  method CheckSteps(steps: seq<int>) returns (ok: bool)
    ensures ok <==> steps != [] && steps == Arithmetic.UpTo(|steps|)
  {
    if steps == [] {
      return false;
    }
    for i := 0 to |steps|
      invariant forall j :: 0 <= j < i ==> steps[j] == j
    {
      if steps[i] != i {
        assert Arithmetic.UpTo(|steps|)[i] == i;
        return false;
      }
    }
    return true;
  }

  method CheckRan(e: Evidence) returns (ok: bool)
    requires e.intent.plan != []
    ensures ok <==> Ran(e)
  {
    if e.response.workers != Nodes(Remote(e)) {
      return false;
    }
    var agree := CheckStages(e.intent.total, e.intent.identity, Remote(e), e.response.stages);
    var steps := CheckSteps(e.response.steps);
    ok := agree && steps;
  }

  method CheckObserved(e: Evidence, revision: string, window: Window) returns (ok: bool)
    requires e.intent.plan != []
    ensures ok <==> Observed(e, revision, window)
  {
    if !TopologySound(e, window) || !NativeSound(e, window) {
      return false;
    }
    var scene := SceneOf(e, revision, window);
    var observers := CheckObservers(scene, e.topology.observers);
    var loads := CheckLoads(scene, e.topology.observers, e.native.loads);
    ok := observers && loads;
  }

  /** The checks of one run, in order; the first that fails refuses it. */
  method ValidateRun(e: Evidence, revision: string, window: Window) returns (r: Result<Accepted>)
    ensures r.Ok? <==> Accepts(e, revision, window)
    ensures r.Ok? ==> r.value.mode == e.mode && r.value.request == e.response.request
                      && r.value.identity == e.intent.identity && r.value.nodes == Nodes(e.intent.plan)
                      && r.value.rounds == |Handoffs(e)| / (|e.intent.plan| - 1)
  {
    if !IntentReady(e) {
      return Err;
    }
    var plan := CheckPlan(e.mode, e.intent.total, e.intent.plan);
    if !plan || !ResponseSound(e) {
      return Err;
    }
    var ran := CheckRan(e);
    if !ran {
      return Err;
    }
    var events := Select(e.log, e.response.task);
    var handoffs := CheckHandoffs(ScheduleOf(e, window), events, |e.response.steps|, e.response.stop);
    if !handoffs {
      return Err;
    }
    var observed := CheckObserved(e, revision, window);
    if !observed || !UiSound(e, window) {
      return Err;
    }
    return Ok(Accepted(e.mode, e.response.request, e.intent.identity, Nodes(e.intent.plan), |events| / |Remote(e)|));
  }

  // ---- what acceptance means for the run as a whole ----

  /** The load takes in the layer. */
  predicate Holds(load: Load, layer: int) {
    load.span.start <= layer < load.span.end
  }

  /** A load that takes in the layer is that of the node the plan gives the layer to. */
  lemma HolderOwns(e: Evidence, revision: string, window: Window, layer: int, k: nat, j: nat)
    requires Accepts(e, revision, window) && k < |e.intent.plan| && j < |e.native.loads|
    requires Owns(e.intent.plan[k], layer) && Holds(e.native.loads[j], layer)
    requires forall i :: 0 <= i < |e.intent.plan| && Owns(e.intent.plan[i], layer) ==> i == k
    ensures e.native.loads[j].node == e.intent.plan[k].node
  {
    assert LoadAgrees(SceneOf(e, revision, window), e.topology.observers, e.native.loads[j]);
    var i :| 0 <= i < |e.intent.plan| && e.intent.plan[i].node == e.native.loads[j].node
             && e.native.loads[j].span == e.intent.plan[i].span;
    assert Owns(e.intent.plan[i], layer);
  }

  /** Every layer of the decoder was loaded exactly once: exactly one of the loads takes it in. */
  lemma EveryLayerLoadedOnce(e: Evidence, revision: string, window: Window, layer: int)
    requires Accepts(e, revision, window) && 0 <= layer < e.intent.total
    ensures exists j :: 0 <= j < |e.native.loads| && Holds(e.native.loads[j], layer)
                        && forall i :: 0 <= i < |e.native.loads| && Holds(e.native.loads[i], layer) ==> i == j
  {
    EveryLayerOnce(e.mode, e.intent.total, e.intent.plan, layer);
    var k :| 0 <= k < |e.intent.plan| && Owns(e.intent.plan[k], layer)
             && forall j :: 0 <= j < |e.intent.plan| && Owns(e.intent.plan[j], layer) ==> j == k;
    SummariesShareCapture(SceneOf(e, revision, window), e.topology.observers, e.native.loads, k);
    var j :| 0 <= j < |e.native.loads| && e.native.loads[j].node == e.intent.plan[k].node
             && e.native.loads[j].span == e.intent.plan[k].span;
    assert Holds(e.native.loads[j], layer);
    forall i | 0 <= i < |e.native.loads| && Holds(e.native.loads[i], layer)
      ensures i == j
    {
      HolderOwns(e, revision, window, layer, k, i);
    }
  }

  /** In every round, one more of them than visible steps after an end token, every remote node
      handed off exactly once, in plan order, and only the last one a token. */
  lemma EveryRoundWhole(e: Evidence, revision: string, window: Window, n: nat, step: nat)
    requires Accepts(e, revision, window)
    requires n < |Remote(e)| && step < |e.response.steps| + Extra(e.response.stop)
    ensures var events, place := Handoffs(e), step * |Remote(e)| + n;
            && place < |events|
            && (forall i :: 0 <= i < |events| ==>
                  (events[i].node == Remote(e)[n].node && events[i].request.step == step <==> i == place))
            && (events[place].kind == "token" <==> n == |Remote(e)| - 1)
  {
    var s := ScheduleOf(e, window);
    assert DistinctNodes(Remote(e));
    OneHandoffEach(s, Handoffs(e), |e.response.steps|, e.response.stop, n, step);
    forall i | 0 <= i < |Handoffs(e)|
      ensures Handoffs(e)[i].node == Remote(e)[n].node && Handoffs(e)[i].request.step == step
         <==> IsHandoff(s, Handoffs(e)[i], n, step)
    {
    }
  }

  /** The connections seen are exactly the master's star. */
  lemma OnlyTheStar(e: Evidence, revision: string, window: Window, a: string, b: string)
    requires Accepts(e, revision, window)
    ensures Connected(e.topology.observers, a, b) <==>
            (a == MASTER && IsRemote(e.intent.plan, b)) || (b == MASTER && IsRemote(e.intent.plan, a))
  {
    ExactlyTheStar(e.mode, SceneOf(e, revision, window), e.topology.observers, a, b);
  }
}
