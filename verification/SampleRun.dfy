/** One run over three nodes that the gate accepts, in either mode, whatever raw captures its two
    summaries cite, as long as they cite the same. */
module SampleRun {
  import Arithmetic
  import opened Results
  import opened ProductGate
  import opened ProductRun

  const REVISION := "0000000000000000000000000000000000000000"

  const DIGEST := Zeros(64)

  function Zeros(n: nat): (s: string)
    ensures |s| == n && forall i :: 0 <= i < n ==> s[i] == '0'
  {
    seq(n, _ => '0')
  }

  const IDENTITY := Identity("operation", "config", 1)

  const WINDOW := Window(1.0, 2.0)

  function PlanOf(mode: Mode): seq<Assignment> {
    [Assignment(MASTER, Span(0, 1), Engine(mode, 0)), Assignment("left", Span(1, 2), "llama_cpp"),
     Assignment("right", Span(2, 3), "llama_cpp")]
  }

  function StageOf(node: string, span: Span): Stage {
    Stage(node, span, Prepared(IDENTITY, node, span, "part", DIGEST))
  }

  function HandoffOf(node: string, span: Span, kind: string): Event {
    Event("task", node, StepName("task", 0), StepName(node, 0), IDENTITY, span, "part", DIGEST, kind, DIGEST, 1, 1.0)
  }

  function Observers(raws: seq<string>): seq<Observer>
    requires |raws| == 3
  {
    [Observer(MASTER, true, ["left", "right"], raws[0], "peers"), Observer("left", true, [MASTER], raws[1], "peers"),
     Observer("right", true, [MASTER], raws[2], "peers")]
  }

  function Loads(mode: Mode, raws: seq<string>): seq<Load>
    requires |raws| == 3
  {
    seq(3, i requires 0 <= i < 3 =>
      Load(PlanOf(mode)[i].node, REVISION, true, "os_process_mappings", false, PlanOf(mode)[i].engine,
           PlanOf(mode)[i].span, true, raws[i], "part"))
  }

  /** The evidence of the run; its summaries cite these raw captures. */
  function Sample(mode: Mode, topology: seq<string>, native: seq<string>): Evidence
    requires |topology| == |native| == 3
  {
    Evidence(mode, true, Intent(IDENTITY, true, true, true, 3, PlanOf(mode), DIGEST),
             Response(true, false, false, "answer", true, false, "", "distributed_required", "route_a_stage_offer_v3",
                      IDENTITY, "request", "task", "route_a:" + "task", ["left", "right"],
                      [StageOf("left", Span(1, 2)), StageOf("right", Span(2, 3))], [0], "stop", "text_stop"),
             [HandoffOf("left", Span(1, 2), "hidden"), HandoffOf("right", Span(2, 3), "token")],
             Topology(IDENTITY, 1.0, "os_process_connections", true, Observers(topology),
                      map[MASTER := "", "left" := "", "right" := ""]),
             Native(IDENTITY, 1.0, map[MASTER := "", "left" := "", "right" := ""], Loads(mode, native)),
             Ui("web", true, "request", "answer", "message", "answer", 1.0),
             (raw: string, node: string) => Some(Derived("peers", "part", 3, 1.0, 1.0, 1.0)))
  }

  lemma NamesDiffer()
    ensures MASTER != "left" && MASTER != "right" && "left" != "right"
    ensures !Blank(MASTER) && !Blank("left") && !Blank("right")
    ensures IsDigest(DIGEST) && Named(IDENTITY)
  {
    assert MASTER[0] == 'm' && "left"[0] == 'l' && "right"[0] == 'r';
    assert "operation"[0] == 'o' && "config"[0] == 'c';
  }

  lemma PlanTiles(mode: Mode)
    ensures Tiles(mode, 3, PlanOf(mode))
  {
    NamesDiffer();
    forall i | 0 <= i < 3
      ensures SeatedAt(mode, 3, PlanOf(mode), i)
    {
    }
  }

  lemma StagesRan(mode: Mode)
    ensures StagesAgree(3, IDENTITY, PlanOf(mode)[1..], [StageOf("left", Span(1, 2)), StageOf("right", Span(2, 3))])
  {
    NamesDiffer();
    assert "part"[0] == 'p';
  }

  lemma SampleRan(mode: Mode, raws: seq<string>)
    requires |raws| == 3
    ensures var e := Sample(mode, raws, raws); ResponseSound(e) && IntentReady(e) && UiSound(e, WINDOW) && Ran(e)
  {
    var e := Sample(mode, raws, raws);
    NamesDiffer();
    StagesRan(mode);
    assert "answer"[0] == 'a' && "request"[0] == 'r' && "task"[0] == 't' && "message"[0] == 'm';
    assert |"request"| == 7;
    assert Nodes(Remote(e)) == ["left", "right"];
    assert Arithmetic.UpTo(1) == [0];
  }

  lemma SampleHandedOff(mode: Mode, raws: seq<string>)
    requires |raws| == 3
    ensures var e := Sample(mode, raws, raws);
            RoundRobin(ScheduleOf(e, WINDOW), Handoffs(e), |e.response.steps|, e.response.stop)
  {
    var e := Sample(mode, raws, raws);
    NamesDiffer();
    LogOfTask(e.log[0], e.log[1]);
    assert |"text_stop"| == 9 && |"eos_token"| == 9 && "text_stop"[0] == 't' && "eos_token"[0] == 'e';
    forall i | 0 <= i < 2
      ensures Due(ScheduleOf(e, WINDOW), e.log, i)
    {
    }
  }

  lemma LogOfTask(first: Event, second: Event)
    requires first.task == second.task
    ensures OfTask([first, second], first.task) == [first, second]
  {
    var log := [first, second];
    assert log[..1] == [first] && [first][..0] == [];
    assert OfTask([], first.task) == [] && OfTask([first], first.task) == [first];
  }

  lemma SampleCaptured(mode: Mode, raws: seq<string>)
    requires |raws| == 3
    ensures var e := Sample(mode, raws, raws); TopologySound(e, WINDOW) && NativeSound(e, WINDOW)
  {
    NamesDiffer();
  }

  lemma PeersAre(mode: Mode, raws: seq<string>, i: nat)
    requires |raws| == 3 && i < 3
    ensures var o := Observers(raws)[i];
            && o.node == Nodes(PlanOf(mode))[i] && DistinctStrings(o.peers)
            && (set peer | peer in o.peers) == Neighbours(PlanOf(mode), o.node)
  {
    NamesDiffer();
    assert Nodes(PlanOf(mode)[1..]) == ["left", "right"];
  }

  lemma SampleObserved(mode: Mode, raws: seq<string>)
    requires |raws| == 3
    ensures var e := Sample(mode, raws, raws); ObserversAgree(SceneOf(e, REVISION, WINDOW), e.topology.observers)
  {
    var e := Sample(mode, raws, raws);
    NamesDiffer();
    forall i | 0 <= i < 3
      ensures ObserverAgrees(SceneOf(e, REVISION, WINDOW), e.topology.observers[i])
    {
      PeersAre(mode, raws, i);
    }
  }

  lemma SampleLoaded(mode: Mode, raws: seq<string>)
    requires |raws| == 3
    ensures var e := Sample(mode, raws, raws);
            LoadsAgree(SceneOf(e, REVISION, WINDOW), e.topology.observers, e.native.loads)
  {
    var e := Sample(mode, raws, raws);
    var s, observers := SceneOf(e, REVISION, WINDOW), e.topology.observers;
    NamesDiffer();
    forall i | 0 <= i < 3
      ensures LoadAgrees(s, observers, e.native.loads[i])
    {
      TopologyIs(observers, i);
      assert s.plan[i].node == e.native.loads[i].node;
    }
  }

  lemma SampleAccepted(mode: Mode, raws: seq<string>)
    requires |raws| == 3
    ensures Accepts(Sample(mode, raws, raws), REVISION, WINDOW)
  {
    PlanTiles(mode);
    SampleRan(mode, raws);
    SampleHandedOff(mode, raws);
    SampleCaptured(mode, raws);
    SampleObserved(mode, raws);
    SampleLoaded(mode, raws);
  }
}
