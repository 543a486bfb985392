/** The remote control worker: frames fenced by generation, attempt and per-channel sequence,
    under arbitrary commands. */
module FencedWorker {
  import Arithmetic
  import opened Results

  type Payload = nat

  /** The declared payload stands for its size and digest; equal contents have equal digests. */
  datatype Envelope = Envelope(generation: int, attempt: string, channel: string, sequence: int,
                               deadlineMs: int, declared: Payload)

  /** A part of a command that is missing or does not parse is None. */
  datatype Command =
    | Stop
    | SetGeneration(generation: Option<int>, attempt: Option<string>)
    | Receive(envelope: Option<Envelope>, payload: Option<Payload>, nowMs: Option<int>)
    | Unknown

  datatype Response =
    | Stopped
    | GenerationSet(generation: int)
    | Accepted(generation: int, sequence: int)
    | Refused(code: string)

  datatype State = State(generation: int, attempt: string, received: map<string, int>)

  const START := State(0, "", map[])

  function Last(s: State, channel: string): int {
    if channel in s.received then s.received[channel] else -1
  }

  /** The checks of a received frame, in order; None when it passes all of them. */
  function Refusal(s: State, e: Envelope, payload: Payload, nowMs: int): Option<string> {
    if e.generation != s.generation then Some("generation_stale")
    else if e.attempt != s.attempt then Some("attempt_fenced")
    else if nowMs >= e.deadlineMs then Some("deadline_exceeded")
    else if e.declared != payload then Some("payload_mismatch")
    else if e.sequence <= Last(s, e.channel) then Some("sequence_duplicate")
    else if e.sequence != Last(s, e.channel) + 1 then Some("sequence_out_of_order")
    else None
  }

  /** One command of the loop. The generation is assigned before the attempt is looked up, so
      a set_generation without an attempt is refused after it has taken half its effect. */
  function Step(s: State, c: Command): (State, Response) {
    match c
    case Stop => (s, Stopped)
    case SetGeneration(generation, attempt) =>
      if generation.None? then (s, Refused("worker_error"))
      else if attempt.None? then (s.(generation := generation.value), Refused("worker_error"))
      else (State(generation.value, attempt.value, map[]), GenerationSet(generation.value))
    case Receive(envelope, payload, nowMs) =>
      if envelope.None? || payload.None? || nowMs.None? then (s, Refused("worker_error"))
      else
        var e := envelope.value;
        var refusal := Refusal(s, e, payload.value, nowMs.value);
        if refusal.Some? then (s, Refused(refusal.value))
        else (s.(received := s.received[e.channel := e.sequence]), Accepted(s.generation, e.sequence))
    case Unknown => (s, Refused("worker_operation_invalid"))
  }

  /** A state and the frames accepted since the last set_generation that was answered with
      success, in order of acceptance. */
  datatype Trace = Trace(state: State, log: seq<Envelope>)

  function Record(t: Trace, c: Command): Trace {
    var (s, response) := Step(t.state, c);
    Trace(s,
      if response.GenerationSet? then []
      else if response.Accepted? then t.log + [c.envelope.value]
      else t.log)
  }

  function Run(commands: seq<Command>): Trace
    decreases |commands|
  {
    if commands == [] then Trace(START, [])
    else Record(Run(commands[..|commands| - 1]), commands[|commands| - 1])
  }

  function Responses(commands: seq<Command>): seq<Response>
    decreases |commands|
  {
    if commands == [] then []
    else
      var init, c := commands[..|commands| - 1], commands[|commands| - 1];
      Responses(init) + [Step(Run(init).state, c).1]
  }

  class Worker {
    var generation: int
    var attempt: string
    var received: map<string, int>

    constructor ()
      ensures Now() == START
    {
      generation, attempt, received := 0, "", map[];
    }

    function Now(): State
      reads this
    {
      State(generation, attempt, received)
    }

    method Handle(c: Command) returns (response: Response)
      modifies this
      ensures (Now(), response) == Step(old(Now()), c)
    {
      match c {
        case Stop => response := Stopped;
        case SetGeneration(g, a) =>
          if g.None? {
            return Refused("worker_error");
          }
          generation := g.value;
          if a.None? {
            return Refused("worker_error");
          }
          attempt := a.value;
          received := map[];
          response := GenerationSet(generation);
        case Receive(envelope, payload, nowMs) =>
          if envelope.None? || payload.None? || nowMs.None? {
            return Refused("worker_error");
          }
          var e := envelope.value;
          if e.generation != generation {
            return Refused("generation_stale");
          }
          if e.attempt != attempt {
            return Refused("attempt_fenced");
          }
          if nowMs.value >= e.deadlineMs {
            return Refused("deadline_exceeded");
          }
          if e.declared != payload.value {
            return Refused("payload_mismatch");
          }
          var previous := if e.channel in received then received[e.channel] else -1;
          if e.sequence <= previous {
            return Refused("sequence_duplicate");
          }
          if e.sequence != previous + 1 {
            return Refused("sequence_out_of_order");
          }
          received := received[e.channel := e.sequence];
          response := Accepted(generation, e.sequence);
        case Unknown => response := Refused("worker_operation_invalid");
      }
    }

    /** The command loop: every command is answered in order, until stop or the end. */
    method Serve(commands: seq<Command>) returns (responses: seq<Response>)
      requires Now() == START
      modifies this
      ensures |responses| <= |commands| && responses == Responses(commands[..|responses|])
      ensures Now() == Run(commands[..|responses|]).state
      ensures |responses| < |commands| ==> responses != [] && commands[|responses| - 1].Stop?
      ensures forall i :: 0 <= i < |responses| - 1 ==> !commands[i].Stop?
    {
      responses := [];
      for i := 0 to |commands|
        invariant |responses| == i && responses == Responses(commands[..i]) && Now() == Run(commands[..i]).state
        invariant forall j :: 0 <= j < i ==> !commands[j].Stop?
      {
        assert commands[..i + 1][..i] == commands[..i];
        var response := Handle(commands[i]);
        responses := responses + [response];
        if commands[i].Stop? {
          return;
        }
      }
    }
  }

  // ---- what every run keeps ----

  /** The sequence numbers accepted on a channel, in order. */
  function OnChannel(log: seq<Envelope>, channel: string): seq<int>
    decreases |log|
  {
    if log == [] then []
    else
      OnChannel(log[..|log| - 1], channel) +
      if log[|log| - 1].channel == channel then [log[|log| - 1].sequence] else []
  }

  ghost predicate Contiguous(t: Trace) {
    && (forall channel :: channel in t.state.received ==> t.state.received[channel] >= 0)
    && (forall channel ::
          OnChannel(t.log, channel)
          == Arithmetic.UpTo(if channel in t.state.received then t.state.received[channel] + 1 else 0))
  }

  lemma OnChannelAppend(log: seq<Envelope>, e: Envelope, channel: string)
    ensures OnChannel(log + [e], channel) == OnChannel(log, channel) + if e.channel == channel then [e.sequence] else []
  {
    assert (log + [e])[..|log|] == log;
  }

  lemma UpToNext(n: nat)
    ensures Arithmetic.UpTo(n) + [n] == Arithmetic.UpTo(n + 1)
  {
  }

  lemma AcceptedKeeps(t: Trace, c: Command, channel: string)
    requires Contiguous(t) && Step(t.state, c).1.Accepted?
    ensures var next := Record(t, c);
            OnChannel(next.log, channel)
            == Arithmetic.UpTo(if channel in next.state.received then next.state.received[channel] + 1 else 0)
  {
    var e := c.envelope.value;
    OnChannelAppend(t.log, e, channel);
    if channel == e.channel {
      UpToNext(e.sequence);
    }
  }

  lemma ContiguousStep(t: Trace, c: Command)
    requires Contiguous(t)
    ensures Contiguous(Record(t, c))
  {
    if Step(t.state, c).1.Accepted? {
      forall channel {
        AcceptedKeeps(t, c, channel);
      }
    }
  }

  /** Whatever the commands, duplicated, reordered or stale: the frames accepted on a channel
      since the last completed set_generation are exactly 0, 1, ..., last, in order, once each. */
  lemma {:induction false} EveryChannelContiguous(commands: seq<Command>)
    ensures Contiguous(Run(commands))
    decreases |commands|
  {
    if commands != [] {
      EveryChannelContiguous(commands[..|commands| - 1]);
      ContiguousStep(Run(commands[..|commands| - 1]), commands[|commands| - 1]);
    }
  }

  /** The command that is refused after it has moved the generation. */
  predicate HalfApplied(s: State, c: Command) {
    c.SetGeneration? && c.generation.Some? && c.attempt.None? && c.generation.value != s.generation
  }

  /** A refused command leaves the state as it was, exactly unless it is such a command; in
      particular a refused frame never changes anything. */
  lemma RefusedLeavesState(s: State, c: Command)
    requires Step(s, c).1.Refused?
    ensures Step(s, c).0 == s <==> !HalfApplied(s, c)
    ensures c.Receive? ==> Step(s, c).0 == s
  {
  }

  /** All accepted frames carry the current generation and the current attempt. */
  ghost predicate Fenced(t: Trace) {
    forall i :: 0 <= i < |t.log| ==> t.log[i].generation == t.state.generation && t.log[i].attempt == t.state.attempt
  }

  /** One command keeps the fence, exactly unless it half-applies over accepted frames. */
  lemma FenceStep(t: Trace, c: Command)
    requires Fenced(t)
    ensures Fenced(Record(t, c)) <==> !(HalfApplied(t.state, c) && t.log != [])
  {
    if HalfApplied(t.state, c) && t.log != [] {
      assert Record(t, c).log[0] == t.log[0];
    }
  }

  /** Every run without a set_generation that names a generation but no attempt is fenced. */
  lemma {:induction false} EveryRunFenced(commands: seq<Command>)
    requires forall i :: 0 <= i < |commands| ==>
               !(commands[i].SetGeneration? && commands[i].generation.Some? && commands[i].attempt.None?)
    ensures Fenced(Run(commands))
    decreases |commands|
  {
    if commands != [] {
      EveryRunFenced(commands[..|commands| - 1]);
      FenceStep(Run(commands[..|commands| - 1]), commands[|commands| - 1]);
    }
  }

  /** The run is fenced after its first k commands. */
  ghost predicate FencedAt(commands: seq<Command>, k: nat)
    requires k <= |commands|
  {
    Fenced(Run(commands[..k]))
  }

  /** The next command half-applies over accepted frames. */
  predicate BreaksAt(commands: seq<Command>, k: nat)
    requires k < |commands|
  {
    HalfApplied(Run(commands[..k]).state, commands[k]) && Run(commands[..k]).log != []
  }

  lemma NextFenced(commands: seq<Command>, k: nat)
    requires k < |commands| && FencedAt(commands, k)
    ensures FencedAt(commands, k + 1) <==> !BreaksAt(commands, k)
  {
    assert commands[..k + 1] == commands[..k] + [commands[k]];
    RunSnoc(commands[..k], commands[k]);
    FenceStep(Run(commands[..k]), commands[k]);
  }

  /** A run is fenced after each of its first n commands exactly when none of them
      half-applies over accepted frames. */
  lemma {:induction false} AlwaysFencedIff(commands: seq<Command>, n: nat)
    requires n <= |commands|
    ensures (forall k :: 0 <= k <= n ==> FencedAt(commands, k)) <==> (forall k :: 0 <= k < n ==> !BreaksAt(commands, k))
    decreases n
  {
    if n > 0 {
      AlwaysFencedIff(commands, n - 1);
      if FencedAt(commands, n - 1) {
        NextFenced(commands, n - 1);
      }
    }
  }

  /** With one such command the fence does fail: a frame of generation 1 and a frame of
      generation 2 are accepted in one unbroken sequence of the same attempt. */
  lemma FenceCanFail()
    ensures Run([FIRST_SET, FIRST_FRAME, HALF_SET, SECOND_FRAME]).log == [FRAME_OF_1, FRAME_OF_2]
    ensures !Fenced(Run([FIRST_SET, FIRST_FRAME, HALF_SET, SECOND_FRAME]))
  {
    var t1 := Trace(State(1, "a", map[]), []);
    var t2 := Trace(State(1, "a", map["control" := 0]), [FRAME_OF_1]);
    var t3 := Trace(State(2, "a", map["control" := 0]), [FRAME_OF_1]);
    assert Record(Run([]), FIRST_SET) == t1;
    RunSnoc([], FIRST_SET);
    assert [] + [FIRST_SET] == [FIRST_SET];
    Accepts(t1, FRAME_OF_1);
    RunSnoc([FIRST_SET], FIRST_FRAME);
    assert [FIRST_SET] + [FIRST_FRAME] == [FIRST_SET, FIRST_FRAME];
    assert Record(t2, HALF_SET) == t3;
    RunSnoc([FIRST_SET, FIRST_FRAME], HALF_SET);
    assert [FIRST_SET, FIRST_FRAME] + [HALF_SET] == [FIRST_SET, FIRST_FRAME, HALF_SET];
    Accepts(t3, FRAME_OF_2);
    RunSnoc([FIRST_SET, FIRST_FRAME, HALF_SET], SECOND_FRAME);
    assert [FIRST_SET, FIRST_FRAME, HALF_SET] + [SECOND_FRAME] == [FIRST_SET, FIRST_FRAME, HALF_SET, SECOND_FRAME];
    assert Run([FIRST_SET, FIRST_FRAME, HALF_SET, SECOND_FRAME]).log[0] == FRAME_OF_1;
  }

  const FRAME_OF_1 := Envelope(1, "a", "control", 0, 10, 7)
  const FRAME_OF_2 := Envelope(2, "a", "control", 1, 10, 7)
  const FIRST_SET := SetGeneration(Some(1), Some("a"))
  const FIRST_FRAME := Receive(Some(FRAME_OF_1), Some(7), Some(0))
  const HALF_SET := SetGeneration(Some(2), None)
  const SECOND_FRAME := Receive(Some(FRAME_OF_2), Some(7), Some(0))

  lemma Accepts(t: Trace, e: Envelope)
    requires e.generation == t.state.generation && e.attempt == t.state.attempt
    requires e.deadlineMs > 0 && e.declared == 7 && e.sequence == Last(t.state, e.channel) + 1
    ensures Record(t, Receive(Some(e), Some(7), Some(0)))
            == Trace(t.state.(received := t.state.received[e.channel := e.sequence]), t.log + [e])
  {
  }

  lemma RunSnoc(commands: seq<Command>, c: Command)
    ensures Run(commands + [c]) == Record(Run(commands), c)
  {
    assert (commands + [c])[..|commands|] == commands;
  }
}
