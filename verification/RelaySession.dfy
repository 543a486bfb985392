/** A segment service: one relay session with a head, middle or tail runner, and the accept
    loop over sessions. */
module RelaySession {
  import opened Results
  import opened CausalLayers
  import opened DecodeBatch
  import opened NativeContexts
  import opened GreedyReference
  import opened SegmentRunners

  /** The body of a HIDDEN_SEQ payload: its own count, ids and positions. */
  datatype SeqBody = SeqBody(count: nat, seqIds: seq<nat>, positions: seq<nat>)

  /** Frame kinds a server can tell apart. A HIDDEN_SEQ body that does not decode is None; a
      CLOSE comes with whether the engine survives the reset it asks for; Other is the rest. */
  datatype Kind =
    | Hidden
    | HiddenSeq(body: Option<SeqBody>)
    | TokenIds(ids: seq<Token>)
    | Close(resetFails: bool)
    | Other

  datatype Frame = Frame(sequence: nat, kind: Kind, nTokens: nat, rows: seq<Row>)

  /** The payload of an answer: hidden rows, one token, or one token for each row. */
  datatype Payload = HiddenRows(rows: seq<Row>) | OneToken(token: Token) | TokenList(tokens: seq<Token>)

  datatype Reply = Produced(sequence: nat, payload: Payload) | Closed(sequence: nat) | Failed(sequence: nat)

  datatype Mode = Unset | PlainMode | SeqMode

  datatype Session = Session(sequence: nat, mode: Mode, pos: nat, h: History)

  const START := Session(0, Unset, 0, map[])

  // ---- the four runners that can be served ----

  /** What a runner eats and makes: rows to rows, tokens to rows, or rows to tokens. */
  datatype Role = MiddleRole | HeadRole(embed: Token -> Row) | TailRole(logits: Logits) | ShimTailRole(logits: Logits)
  {
    predicate MakesRows() {
      MiddleRole? || HeadRole?
    }
  }

  datatype Runner =
    | Middle(middle: MiddleRunner)
    | Head(head: HeadRunner)
    | Tail(tail: TailRunner)
    | ShimTail(shim: ShimTailRunner)
  {
    function Context(): NativeContext {
      match this
      case Middle(r) => r.context
      case Head(r) => r.context
      case Tail(r) => r.context
      case ShimTail(r) => r.context
    }

    function Itself(): object {
      match this
      case Middle(r) => r
      case Head(r) => r
      case Tail(r) => r
      case ShimTail(r) => r
    }

    function RoleOf(): Role {
      match this
      case Middle(_) => MiddleRole
      case Head(r) => HeadRole(r.embed)
      case Tail(r) => TailRole(r.logits)
      case ShimTail(r) => ShimTailRole(r.logits)
    }

    function Pos(): nat
      reads Itself()
    {
      match this
      case Middle(r) => r.pos
      case Head(r) => r.pos
      case Tail(r) => r.pos
      case ShimTail(r) => r.pos
    }

    method Reset()
      requires Context().layers != []
      modifies Itself(), Context()
      ensures Pos() == 0 && Context().Valid() && Context().Fed() == map[]
    {
      match this {
        case Middle(r) => r.Reset();
        case Head(r) => r.Reset();
        case Tail(r) => r.Reset();
        case ShimTail(r) => r.Reset();
      }
    }
  }

  // ---- one frame ----

  predicate ModeKept(mode: Mode, kind: Kind) {
    (kind.Hidden? ==> mode != SeqMode) && (kind.HiddenSeq? ==> mode != PlainMode)
  }

  /** Whether a data frame is answered, before the engine is asked. */
  predicate WellFormed(role: Role, s: Session, limit: nat, f: Frame) {
    && f.sequence == s.sequence && ModeKept(s.mode, f.kind)
    && match f.kind
       case Hidden => !role.HeadRole? && 1 <= f.nTokens <= limit && |f.rows| == f.nTokens
       case HiddenSeq(None) => false
       case HiddenSeq(Some(b)) =>
         && !role.HeadRole? && |b.seqIds| == |b.positions| == |f.rows| == b.count
         && b.count == f.nTokens && 1 <= b.count <= limit
       case TokenIds(ids) => role.HeadRole? && 1 <= |ids| <= limit && |ids| == f.nTokens
       case Close(_) => false
       case Other => false
  }

  /** The rows a frame brings to the engine. */
  function Brought(role: Role, f: Frame): seq<Row> {
    if f.kind.TokenIds? && role.HeadRole? then TokenRows(role.embed, f.kind.ids) else f.rows
  }

  /** Where they go: at the positions they name, or on from the rows consumed so far. */
  function Items(role: Role, pos: nat, f: Frame): seq<Item> {
    match f.kind
    case HiddenSeq(Some(b)) =>
      if |b.seqIds| == |b.positions| == |f.rows| then Bind(b.seqIds, b.positions, f.rows) else []
    case _ => Plain(pos, Brought(role, f))
  }

  /** How many rows the runner's own position moves on. */
  function Counts(role: Role, f: Frame): nat {
    if f.kind.HiddenSeq? then 0 else |Brought(role, f)|
  }

  function ModeAfter(mode: Mode, kind: Kind): Mode {
    if kind.Hidden? then PlainMode else if kind.HiddenSeq? then SeqMode else mode
  }

  function After(role: Role, s: Session, f: Frame): Session {
    Session(s.sequence + 1, ModeAfter(s.mode, f.kind), s.pos + Counts(role, f), Store(s.h, Items(role, s.pos, f)))
  }

  /** The engine takes the rows in one batch; the tail without the Python engine takes explicit
      positions row by row. */
  predicate EngineAccepts(role: Role, lim: Limits, kind: Kind, h: History, items: seq<Item>) {
    if role.ShimTailRole? && kind.HiddenSeq? then AcceptsEach(lim, h, items) else Accepts(lim, h, items)
  }

  predicate Answered(role: Role, lim: Limits, limit: nat, s: Session, f: Frame) {
    WellFormed(role, s, limit, f) && EngineAccepts(role, lim, f.kind, s.h, Items(role, s.pos, f))
  }

  /** What is sent back of the rows that come out of the layers. */
  function Rendered(role: Role, kind: Kind, rows: seq<Row>): Payload {
    match role
    case MiddleRole => HiddenRows(rows)
    case HeadRole(_) => HiddenRows(rows)
    case TailRole(logits) => RenderedTokens(logits, kind, rows)
    case ShimTailRole(logits) => RenderedTokens(logits, kind, rows)
  }

  function RenderedTokens(logits: Logits, kind: Kind, rows: seq<Row>): Payload {
    if kind.HiddenSeq? || rows == [] then TokenList(Tokens(logits, rows))
    else OneToken(ArgMax(logits(rows[|rows| - 1])))
  }

  predicate CleanClose(s: Session, f: Frame) {
    f.kind.Close? && f.sequence == s.sequence && f.nTokens == 0 && f.rows == []
  }

  function FirstReply(role: Role, layers: seq<Layer>, lim: Limits, limit: nat, s: Session, f: Frame): Reply {
    if CleanClose(s, f) then (if f.kind.resetFails then Failed(s.sequence) else Closed(s.sequence))
    else if Answered(role, lim, limit, s, f) then
      Produced(s.sequence, Rendered(role, f.kind, Rows(Emit(layers, s.h, Items(role, s.pos, f)))))
    else Failed(s.sequence)
  }

  // ---- a session ----

  /** A session in progress: its state, what has been replied, and whether it goes on. */
  datatype Progress = Progress(s: Session, replies: seq<Reply>, open: bool)

  function Advance(role: Role, layers: seq<Layer>, lim: Limits, limit: nat, p: Progress, f: Frame): Progress {
    if !p.open then p
    else
      var reply := FirstReply(role, layers, lim, limit, p.s, f);
      Progress(if reply.Produced? then After(role, p.s, f) else p.s, p.replies + [reply], reply.Produced?)
  }

  function Run(role: Role, layers: seq<Layer>, lim: Limits, limit: nat, frames: seq<Frame>): Progress
    decreases |frames|
  {
    if frames == [] then Progress(START, [], true)
    else
      Advance(role, layers, lim, limit, Run(role, layers, lim, limit, frames[..|frames| - 1]), frames[|frames| - 1])
  }

  /** The replies of a session, as a function of its frames alone. A stream that ends without
      CLOSE ends with an error, as does the first frame that cannot be answered. */
  function Replies(role: Role, layers: seq<Layer>, lim: Limits, limit: nat, frames: seq<Frame>): seq<Reply> {
    var p := Run(role, layers, lim, limit, frames);
    if p.open then p.replies + [Failed(p.s.sequence)] else p.replies
  }

  /** The engine's part of a data frame. */
  method Answer(runner: Runner, limit: nat, f: Frame, ghost s: Session) returns (r: Result<Payload>)
    requires runner.Context().Valid() && WellFormed(runner.RoleOf(), s, limit, f)
    requires s.pos == runner.Pos() && s.h == runner.Context().Fed()
    modifies runner.Itself(), runner.Context()
    ensures runner.Context().Valid()
    ensures r.Ok? <==> EngineAccepts(runner.RoleOf(), runner.Context().limits, f.kind, s.h,
                                     Items(runner.RoleOf(), s.pos, f))
    ensures r.Ok? ==>
              r.value == Rendered(runner.RoleOf(), f.kind,
                                  Rows(Emit(runner.Context().layers, s.h, Items(runner.RoleOf(), s.pos, f))))
    ensures r.Ok? ==> runner.Pos() == After(runner.RoleOf(), s, f).pos
    ensures r.Ok? ==> runner.Context().Fed() == After(runner.RoleOf(), s, f).h
  {
    match runner {
      case Middle(middle) => r := AnswerMiddle(middle, limit, f, s);
      case Head(head) => r := AnswerHead(head, limit, f, s);
      case Tail(tail) => r := AnswerTail(tail, limit, f, s);
      case ShimTail(shim) => r := AnswerShimTail(shim, limit, f, s);
    }
  }

  method AnswerMiddle(middle: MiddleRunner, limit: nat, f: Frame, ghost s: Session) returns (r: Result<Payload>)
    requires middle.context.Valid() && WellFormed(MiddleRole, s, limit, f)
    requires s.pos == middle.pos && s.h == middle.context.Fed()
    modifies middle, middle.context
    ensures middle.context.Valid()
    ensures r.Ok? <==> EngineAccepts(MiddleRole, middle.context.limits, f.kind, s.h, Items(MiddleRole, s.pos, f))
    ensures r.Ok? ==>
              r.value == Rendered(MiddleRole, f.kind,
                                  Rows(Emit(middle.context.layers, s.h, Items(MiddleRole, s.pos, f))))
    ensures r.Ok? ==> middle.pos == s.pos + Counts(MiddleRole, f)
    ensures r.Ok? ==> middle.context.Fed() == Store(s.h, Items(MiddleRole, s.pos, f))
  {
    var rows;
    match f.kind {
      case Hidden => rows := middle.RequestHidden(f.rows);
      case HiddenSeq(body) => rows := middle.RequestHiddenSeq(f.rows, body.value.seqIds, body.value.positions);
    }
    r := if rows.Ok? then Ok(HiddenRows(rows.value)) else Err;
  }

  method AnswerHead(head: HeadRunner, limit: nat, f: Frame, ghost s: Session) returns (r: Result<Payload>)
    requires head.context.Valid() && WellFormed(HeadRole(head.embed), s, limit, f)
    requires s.pos == head.pos && s.h == head.context.Fed()
    modifies head, head.context
    ensures head.context.Valid()
    ensures r.Ok? <==> EngineAccepts(HeadRole(head.embed), head.context.limits, f.kind, s.h,
                                     Items(HeadRole(head.embed), s.pos, f))
    ensures r.Ok? ==>
              r.value == Rendered(HeadRole(head.embed), f.kind,
                                  Rows(Emit(head.context.layers, s.h, Items(HeadRole(head.embed), s.pos, f))))
    ensures r.Ok? ==> head.pos == s.pos + Counts(HeadRole(head.embed), f)
    ensures r.Ok? ==> head.context.Fed() == Store(s.h, Items(HeadRole(head.embed), s.pos, f))
  {
    assert TokenRows(head.embed, f.kind.ids) == Brought(HeadRole(head.embed), f);
    var rows :- head.RequestHiddenFromTokens(f.kind.ids);
    r := Ok(HiddenRows(rows));
  }

  /** The token of the last row is what a plain frame is answered with. */
  lemma OneRendered(logits: Logits, layers: seq<Layer>, h: History, items: seq<Item>, token: Token)
    requires items != [] && token == ArgMax(logits(Emit(layers, h, items)[|items| - 1].row))
    ensures RenderedTokens(logits, Hidden, Rows(Emit(layers, h, items))) == OneToken(token)
  {
  }

  method AnswerTail(tail: TailRunner, limit: nat, f: Frame, ghost s: Session) returns (r: Result<Payload>)
    requires tail.context.Valid() && WellFormed(TailRole(tail.logits), s, limit, f)
    requires s.pos == tail.pos && s.h == tail.context.Fed()
    modifies tail, tail.context
    ensures tail.context.Valid()
    ensures r.Ok? <==> EngineAccepts(TailRole(tail.logits), tail.context.limits, f.kind, s.h,
                                     Items(TailRole(tail.logits), s.pos, f))
    ensures r.Ok? ==>
              r.value == Rendered(TailRole(tail.logits), f.kind,
                                  Rows(Emit(tail.context.layers, s.h, Items(TailRole(tail.logits), s.pos, f))))
    ensures r.Ok? ==> tail.pos == s.pos + Counts(TailRole(tail.logits), f)
    ensures r.Ok? ==> tail.context.Fed() == Store(s.h, Items(TailRole(tail.logits), s.pos, f))
  {
    if f.kind.Hidden? {
      assert Items(TailRole(tail.logits), s.pos, f) == Plain(s.pos, f.rows);
      r := TailOne(tail, f.rows, s.h);
    } else {
      var b := f.kind.body.value;
      assert Items(TailRole(tail.logits), s.pos, f) == Bind(b.seqIds, b.positions, f.rows);
      r := TailList(tail, f.rows, b, s.h);
    }
  }

  method TailOne(tail: TailRunner, rows: seq<Row>, ghost h: History) returns (r: Result<Payload>)
    requires tail.context.Valid() && rows != [] && h == tail.context.Fed()
    modifies tail, tail.context
    ensures tail.context.Valid()
    ensures r.Ok? <==> Accepts(tail.context.limits, h, Plain(old(tail.pos), rows))
    ensures r.Ok? ==>
              r.value == RenderedTokens(tail.logits, Hidden, Rows(Emit(tail.context.layers, h,
                                                                       Plain(old(tail.pos), rows))))
    ensures r.Ok? ==> tail.pos == old(tail.pos) + |rows| && tail.context.Fed() == Store(h, Plain(old(tail.pos), rows))
  {
    ghost var pos := tail.pos;
    var token :- tail.RequestToken(rows);
    OneRendered(tail.logits, tail.context.layers, h, Plain(pos, rows), token);
    r := Ok(OneToken(token));
  }

  method TailList(tail: TailRunner, rows: seq<Row>, b: SeqBody, ghost h: History) returns (r: Result<Payload>)
    requires tail.context.Valid() && |b.seqIds| == |b.positions| == |rows| && h == tail.context.Fed()
    modifies tail.context
    ensures tail.context.Valid()
    ensures r.Ok? <==> Accepts(tail.context.limits, h, Bind(b.seqIds, b.positions, rows))
    ensures r.Ok? ==>
              r.value == TokenList(Tokens(tail.logits, Rows(Emit(tail.context.layers, h,
                                                                 Bind(b.seqIds, b.positions, rows)))))
    ensures r.Ok? ==> tail.context.Fed() == Store(h, Bind(b.seqIds, b.positions, rows))
  {
    var tokens :- tail.RequestTokenSeq(rows, b.seqIds, b.positions);
    r := Ok(TokenList(tokens));
  }

  method AnswerShimTail(shim: ShimTailRunner, limit: nat, f: Frame, ghost s: Session) returns (r: Result<Payload>)
    requires shim.context.Valid() && WellFormed(ShimTailRole(shim.logits), s, limit, f)
    requires s.pos == shim.pos && s.h == shim.context.Fed()
    modifies shim, shim.context
    ensures shim.context.Valid()
    ensures r.Ok? <==> EngineAccepts(ShimTailRole(shim.logits), shim.context.limits, f.kind, s.h,
                                     Items(ShimTailRole(shim.logits), s.pos, f))
    ensures r.Ok? ==>
              r.value == Rendered(ShimTailRole(shim.logits), f.kind,
                                  Rows(Emit(shim.context.layers, s.h, Items(ShimTailRole(shim.logits), s.pos, f))))
    ensures r.Ok? ==> shim.pos == s.pos + Counts(ShimTailRole(shim.logits), f)
    ensures r.Ok? ==> shim.context.Fed() == Store(s.h, Items(ShimTailRole(shim.logits), s.pos, f))
  {
    if f.kind.Hidden? {
      assert Items(ShimTailRole(shim.logits), s.pos, f) == Plain(s.pos, f.rows);
      r := ShimTailOne(shim, f.rows, s.h);
    } else {
      var b := f.kind.body.value;
      assert Items(ShimTailRole(shim.logits), s.pos, f) == Bind(b.seqIds, b.positions, f.rows);
      r := ShimTailList(shim, f.rows, b, s.h);
    }
  }

  method ShimTailOne(shim: ShimTailRunner, rows: seq<Row>, ghost h: History) returns (r: Result<Payload>)
    requires shim.context.Valid() && rows != [] && h == shim.context.Fed()
    modifies shim, shim.context
    ensures shim.context.Valid()
    ensures r.Ok? <==> Accepts(shim.context.limits, h, Plain(old(shim.pos), rows))
    ensures r.Ok? ==>
              r.value == RenderedTokens(shim.logits, Hidden, Rows(Emit(shim.context.layers, h,
                                                                       Plain(old(shim.pos), rows))))
    ensures r.Ok? ==> shim.pos == old(shim.pos) + |rows| && shim.context.Fed() == Store(h, Plain(old(shim.pos), rows))
  {
    ghost var pos := shim.pos;
    var token :- shim.RequestToken(rows);
    OneRendered(shim.logits, shim.context.layers, h, Plain(pos, rows), token);
    r := Ok(OneToken(token));
  }

  method ShimTailList(shim: ShimTailRunner, rows: seq<Row>, b: SeqBody, ghost h: History) returns (r: Result<Payload>)
    requires shim.context.Valid() && |b.seqIds| == |b.positions| == |rows| && h == shim.context.Fed()
    modifies shim.context
    ensures shim.context.Valid()
    ensures r.Ok? <==> AcceptsEach(shim.context.limits, h, Bind(b.seqIds, b.positions, rows))
    ensures r.Ok? ==>
              r.value == TokenList(Tokens(shim.logits, Rows(Emit(shim.context.layers, h,
                                                                 Bind(b.seqIds, b.positions, rows)))))
    ensures r.Ok? ==> shim.context.Fed() == Store(h, Bind(b.seqIds, b.positions, rows))
  {
    var tokens :- shim.RequestTokenSeq(rows, b.seqIds, b.positions);
    r := Ok(TokenList(tokens));
  }

  /** One frame: its reply, and the session state of the runner after it. */
  method ServeFrame(runner: Runner, limit: nat, f: Frame, sequence: nat, mode: Mode, ghost s: Session)
    returns (reply: Reply)
    requires runner.Context().Valid() && s == Session(sequence, mode, runner.Pos(), runner.Context().Fed())
    modifies runner.Itself(), runner.Context()
    ensures runner.Context().Valid()
    ensures reply == FirstReply(runner.RoleOf(), runner.Context().layers, runner.Context().limits, limit, s, f)
    ensures reply.Produced? ==> runner.Pos() == After(runner.RoleOf(), s, f).pos
    ensures reply.Produced? ==> runner.Context().Fed() == After(runner.RoleOf(), s, f).h
  {
    var now := Session(sequence, mode, runner.Pos(), runner.Context().Fed());
    if CleanClose(now, f) {
      if f.kind.resetFails {
        return Failed(sequence);
      }
      runner.Reset();
      return Closed(sequence);
    }
    if !WellFormed(runner.RoleOf(), now, limit, f) {
      return Failed(sequence);
    }
    var out := Answer(runner, limit, f, now);
    reply := if out.Ok? then Produced(sequence, out.value) else Failed(sequence);
  }

  /** Serves one connection with a runner that has just been reset. */
  method ServeConnection(runner: Runner, limit: nat, frames: seq<Frame>) returns (replies: seq<Reply>)
    requires runner.Context().Valid() && runner.Context().Fed() == map[] && runner.Pos() == 0
    modifies runner.Itself(), runner.Context()
    ensures runner.Context().Valid()
    ensures replies == Replies(runner.RoleOf(), runner.Context().layers, runner.Context().limits, limit, frames)
  {
    ghost var role, layers, lim := runner.RoleOf(), runner.Context().layers, runner.Context().limits;
    replies := [];
    var sequence, mode, open, i := 0, Unset, true, 0;
    ghost var p := Progress(START, [], true);
    while open && i < |frames|
      invariant 0 <= i <= |frames| && runner.Context().Valid()
      invariant p == Run(role, layers, lim, limit, frames[..i])
      invariant p.open == open && p.replies == replies && p.s.sequence == sequence
      invariant open ==> p.s == Session(sequence, mode, runner.Pos(), runner.Context().Fed())
      decreases |frames| - i
    {
      assert frames[..i + 1][..i] == frames[..i];
      p := Advance(role, layers, lim, limit, p, frames[i]);
      var reply := ServeFrame(runner, limit, frames[i], sequence, mode,
                              Session(sequence, mode, runner.Pos(), runner.Context().Fed()));
      replies, open := replies + [reply], reply.Produced?;
      if open {
        mode := ModeAfter(mode, frames[i].kind);
        sequence := sequence + 1;
      }
      i := i + 1;
    }
    RunClosed(role, layers, lim, limit, frames, i);
    if open {
      assert frames[..i] == frames;
      replies := replies + [Failed(sequence)];
    }
  }

  /** Frames after the end of a session are never looked at. */
  lemma {:induction false} RunClosed(role: Role, layers: seq<Layer>, lim: Limits, limit: nat, frames: seq<Frame>,
                                     i: nat)
    requires i <= |frames|
    ensures !Run(role, layers, lim, limit, frames[..i]).open ==>
              Run(role, layers, lim, limit, frames) == Run(role, layers, lim, limit, frames[..i])
    decreases |frames|
  {
    if i < |frames| {
      var init := frames[..|frames| - 1];
      RunClosed(role, layers, lim, limit, init, i);
      assert init[..i] == frames[..i];
    } else {
      assert frames[..i] == frames;
    }
  }

  // ---- the accept loop ----

  /** A connection, and whether the engine survives the reset before it. */
  datatype Connection = Connection(resetFails: bool, frames: seq<Frame>)

  datatype Outcome = Served(replies: seq<Reply>) | Rejected

  ghost predicate Degraded(connections: seq<Connection>, n: nat)
    requires n <= |connections|
  {
    exists j :: 0 <= j < n && connections[j].resetFails
  }

  /** Session isolation, and refusal for good: an accepted connection's outcome depends on
      its own frames alone; once a reset has failed, that connection and every later one is
      refused. */
  ghost function Outcomes(role: Role, layers: seq<Layer>, lim: Limits, limit: nat, connections: seq<Connection>,
                          n: nat): seq<Outcome>
    requires n <= |connections|
  {
    seq(n, i requires 0 <= i < n =>
      if Degraded(connections, i + 1) then Rejected
      else Served(Replies(role, layers, lim, limit, connections[i].frames)))
  }

  method AcceptLoop(runner: Runner, limit: nat, maxConnections: nat, connections: seq<Connection>)
    returns (outcomes: seq<Outcome>, served: nat)
    requires runner.Context().layers != []
    modifies runner.Itself(), runner.Context()
    ensures served == if maxConnections > 0 && maxConnections < |connections| then maxConnections else |connections|
    ensures outcomes
         == Outcomes(runner.RoleOf(), runner.Context().layers, runner.Context().limits, limit, connections, served)
  {
    outcomes, served := [], 0;
    var degraded := false;
    while served < |connections| && !(maxConnections > 0 && served >= maxConnections)
      invariant 0 <= served <= |connections| && (maxConnections > 0 ==> served <= maxConnections)
      invariant outcomes
           == Outcomes(runner.RoleOf(), runner.Context().layers, runner.Context().limits, limit, connections, served)
      invariant degraded <==> Degraded(connections, served)
      decreases |connections| - served
    {
      var connection := connections[served];
      if degraded {
        outcomes, served := outcomes + [Rejected], served + 1;
        continue;
      }
      if connection.resetFails {
        degraded := true;
        outcomes, served := outcomes + [Rejected], served + 1;
        continue;
      }
      runner.Reset();
      var replies := ServeConnection(runner, limit, connection.frames);
      outcomes, served := outcomes + [Served(replies)], served + 1;
    }
  }
}
