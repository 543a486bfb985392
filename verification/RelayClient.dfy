/** The client side of a relay session, against the session served at the other end. */
module RelayClients {
  import opened Results
  import opened CausalLayers
  import opened DecodeBatch
  import opened NativeContexts
  import opened GreedyReference
  import opened RelaySession

  /** What is served at an endpoint: the kind of runner, its engine, and the frame limit. */
  datatype Service = Service(role: Role, layers: seq<Layer>, limits: Limits, limit: nat)
  {
    /** The session after these frames. */
    function After(frames: seq<Frame>): Progress {
      Run(role, layers, limits, limit, frames)
    }

    function Then(p: Progress, f: Frame): Progress {
      Advance(role, layers, limits, limit, p, f)
    }
  }

  function Least(a: nat, b: nat): nat {
    if a < b then a else b
  }

  /** What a client and both bounds of the service together let through. */
  function BoundsOf(service: Service, maxTokens: nat): Limits {
    Limits(Least(service.limits.nBatch, Least(maxTokens, service.limit)), service.limits.ctxPerSeq,
           service.limits.nSeqMax)
  }

  function PlainFrame(sequence: nat, rows: seq<Row>): Frame {
    Frame(sequence, Hidden, |rows|, rows)
  }

  /** A plain frame in step with the session is answered exactly within those bounds. */
  lemma PlainAnswered(service: Service, maxTokens: nat, s: Session, rows: seq<Row>)
    requires !service.role.HeadRole? && s.mode != SeqMode && |rows| <= maxTokens
    ensures Items(service.role, s.pos, PlainFrame(s.sequence, rows)) == Plain(s.pos, rows)
    ensures Answered(service.role, service.limits, service.limit, s, PlainFrame(s.sequence, rows))
       <==> Accepts(BoundsOf(service, maxTokens), s.h, Plain(s.pos, rows))
  {
  }

  /** A tail answers it with the token of the last row. */
  lemma TailRendered(service: Service, h: History, items: seq<Item>)
    requires (service.role.TailRole? || service.role.ShimTailRole?) && items != []
    ensures var out := Emit(service.layers, h, items);
            Rendered(service.role, Hidden, Rows(out)) == OneToken(ArgMax(service.role.logits(out[|items| - 1].row)))
  {
    OneRendered(service.role.logits, service.layers, h, items,
                ArgMax(service.role.logits(Emit(service.layers, h, items)[|items| - 1].row)));
  }

  class RelayClient {
    const service: Service
    const maxTokens: nat
    var sequence: nat
    var closed: bool
    /** The frames sent so far, and where the session at the other end has got to. */
    var sent: seq<Frame>
    var peer: Progress

    constructor (service: Service, maxTokens: nat)
      ensures this.service == service && this.maxTokens == maxTokens
      ensures Valid() && !closed && sent == [] && peer.s == START
    {
      this.service, this.maxTokens := service, maxTokens;
      sequence, closed, sent, peer := 0, false, [], Progress(START, [], true);
    }

    /** The other end has answered what has been sent, and an open client is in step with it. */
    ghost predicate Valid()
      reads this
    {
      peer == service.After(sent) && (!closed ==> peer.open && peer.s.sequence == sequence)
    }

    function Bounds(): Limits {
      BoundsOf(service, maxTokens)
    }

    /** One frame and its reply. Anything but an answer to this frame ends the connection. */
    method Exchange(f: Frame) returns (r: Result<Payload>)
      requires Valid() && !closed && f.sequence == sequence && !f.kind.Close?
      modifies this
      ensures Valid() && sent == old(sent) + [f]
      ensures r.Ok? <==> Answered(service.role, service.limits, service.limit, old(peer.s), f)
      ensures r.Ok? <==> !closed
      ensures r.Ok? ==> peer.s == RelaySession.After(service.role, old(peer.s), f)
      ensures r.Ok? ==>
                r.value == Rendered(service.role, f.kind, Rows(Emit(service.layers, old(peer.s.h),
                                                                    Items(service.role, old(peer.s.pos), f))))
    {
      assert (sent + [f])[..|sent|] == sent;
      sent := sent + [f];
      peer := service.Then(peer, f);
      var reply := peer.replies[|peer.replies| - 1];
      if reply.Produced? && reply.sequence == sequence {
        sequence := sequence + 1;
        r := Ok(reply.payload);
      } else {
        closed := true;
        r := Err;
      }
    }

    /** Hidden rows for hidden rows, at the place the service has got to. */
    method RequestHidden(rows: seq<Row>) returns (r: Result<seq<Row>>)
      requires Valid() && !closed && service.role.MiddleRole? && peer.s.mode != SeqMode
      modifies this
      ensures Valid() && (r.Ok? ==> !closed && peer.s.mode != SeqMode)
      ensures r.Ok? <==> Accepts(Bounds(), old(peer.s.h), Plain(old(peer.s.pos), rows))
      ensures r.Ok? ==> peer.s.h == Store(old(peer.s.h), Plain(old(peer.s.pos), rows))
      ensures r.Ok? ==> peer.s.pos == old(peer.s.pos) + |rows|
      ensures r.Ok? ==> r.value == Rows(Emit(service.layers, old(peer.s.h), Plain(old(peer.s.pos), rows)))
    {
      if |rows| > maxTokens {
        return Err;
      }
      PlainAnswered(service, maxTokens, peer.s, rows);
      var out :- Exchange(PlainFrame(sequence, rows));
      r := HiddenPayload(out, |rows|);
    }

    /** Hidden rows for hidden rows, at the places they name. */
    method RequestHiddenSeq(rows: seq<Row>, seqIds: seq<nat>, positions: seq<nat>) returns (r: Result<seq<Row>>)
      requires Valid() && !closed && service.role.MiddleRole? && peer.s.mode != PlainMode
      requires |seqIds| == |positions| == |rows|
      modifies this
      ensures Valid() && (r.Ok? ==> !closed && peer.s.mode != PlainMode)
      ensures r.Ok? <==> Accepts(Bounds(), old(peer.s.h), Bind(seqIds, positions, rows))
      ensures r.Ok? ==> peer.s.h == Store(old(peer.s.h), Bind(seqIds, positions, rows))
      ensures r.Ok? ==> peer.s.pos == old(peer.s.pos)
      ensures r.Ok? ==> r.value == Rows(Emit(service.layers, old(peer.s.h), Bind(seqIds, positions, rows)))
    {
      if |rows| > maxTokens {
        return Err;
      }
      var body := SeqBody(|rows|, seqIds, positions);
      var out :- Exchange(Frame(sequence, HiddenSeq(Some(body)), |rows|, rows));
      r := HiddenPayload(out, |rows|);
    }

    /** Hidden rows for token ids. */
    method RequestHiddenFromTokens(tokens: seq<Token>) returns (r: Result<seq<Row>>)
      requires Valid() && !closed && service.role.HeadRole?
      modifies this
      ensures Valid() && (r.Ok? ==> !closed && peer.s.mode == old(peer.s.mode))
      ensures var items := Plain(old(peer.s.pos), TokenRows(service.role.embed, tokens));
              && (r.Ok? <==> Accepts(Bounds(), old(peer.s.h), items))
              && (r.Ok? ==> peer.s.h == Store(old(peer.s.h), items) && peer.s.pos == old(peer.s.pos) + |tokens|)
              && (r.Ok? ==> r.value == Rows(Emit(service.layers, old(peer.s.h), items)))
    {
      if |tokens| < 1 || |tokens| > maxTokens {
        return Err;
      }
      var out :- Exchange(Frame(sequence, TokenIds(tokens), |tokens|, []));
      r := HiddenPayload(out, |tokens|);
    }

    /** The token of the last row, from either tail. */
    method RequestToken(rows: seq<Row>) returns (r: Result<Token>)
      requires Valid() && !closed && (service.role.TailRole? || service.role.ShimTailRole?) && peer.s.mode != SeqMode
      modifies this
      ensures Valid() && (r.Ok? ==> !closed && peer.s.mode != SeqMode)
      ensures r.Ok? <==> Accepts(Bounds(), old(peer.s.h), Plain(old(peer.s.pos), rows))
      ensures r.Ok? ==> peer.s.h == Store(old(peer.s.h), Plain(old(peer.s.pos), rows))
      ensures r.Ok? ==> peer.s.pos == old(peer.s.pos) + |rows|
      ensures r.Ok? ==>
                r.value == ArgMax(service.role.logits(
                             Emit(service.layers, old(peer.s.h), Plain(old(peer.s.pos), rows))[|rows| - 1].row))
    {
      if |rows| > maxTokens {
        return Err;
      }
      PlainAnswered(service, maxTokens, peer.s, rows);
      if rows != [] {
        TailRendered(service, peer.s.h, Plain(peer.s.pos, rows));
      }
      var out :- Exchange(PlainFrame(sequence, rows));
      r := TokenPayload(out);
    }

    method TokenPayload(out: Payload) returns (r: Result<Token>)
      requires Valid()
      modifies this`closed
      ensures Valid() && closed == (old(closed) || r.Err?)
      ensures r.Ok? <==> out.OneToken?
      ensures r.Ok? ==> r.value == out.token
    {
      if !out.OneToken? {
        closed := true;
        return Err;
      }
      r := Ok(out.token);
    }

    /** The rows of an answer, of which there must be as many as were sent. */
    method HiddenPayload(out: Payload, count: nat) returns (r: Result<seq<Row>>)
      requires Valid()
      modifies this`closed
      ensures Valid() && closed == (old(closed) || r.Err?)
      ensures r.Ok? <==> out.HiddenRows? && |out.rows| == count
      ensures r.Ok? ==> r.value == out.rows
    {
      if !out.HiddenRows? || |out.rows| != count {
        closed := true;
        return Err;
      }
      r := Ok(out.rows);
    }

    /** Ends the session; the other end's engine survives the reset or does not. */
    method Close(resetFails: bool)
      requires Valid()
      modifies this
      ensures Valid() && closed
      ensures old(closed) ==> sent == old(sent) && peer == old(peer)
      ensures !old(closed) ==> !peer.open && sent == old(sent) + [Frame(old(sequence), Kind.Close(resetFails), 0, [])]
      ensures old(peer.replies) <= peer.replies
    {
      if closed {
        return;
      }
      var f := Frame(sequence, Kind.Close(resetFails), 0, []);
      assert (sent + [f])[..|sent|] == sent;
      sent := sent + [f];
      peer := service.Then(peer, f);
      closed := true;
    }
  }

  /** The runner behind an endpoint, served just these frames, replies what the client was told,
      and then, if the client has not ended the session, that it has ended. */
  method Serve(c: RelayClient, runner: Runner) returns (replies: seq<Reply>)
    requires c.Valid() && runner.Context().Valid() && runner.Context().Fed() == map[] && runner.Pos() == 0
    requires c.service == Service(runner.RoleOf(), runner.Context().layers, runner.Context().limits, c.service.limit)
    requires c as object != runner.Itself() && c as object != runner.Context()
    modifies runner.Itself(), runner.Context()
    ensures replies == c.peer.replies + if c.peer.open then [Failed(c.peer.s.sequence)] else []
  {
    replies := ServeConnection(runner, c.service.limit, c.sent);
  }
}
