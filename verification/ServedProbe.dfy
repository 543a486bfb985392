/** The all-native relay with every segment behind a relay connection: the driver's loop over the
    sessions that serve it. */
module ServedProbe {
  import opened Results
  import opened CausalLayers
  import opened DecodeBatch
  import opened GreedyReference
  import opened BatchLayout
  import opened RelayDriver
  import opened RelaySession
  import opened L2LProbe
  import opened RelayClients

  /** An open session whose service has consumed the context, in frames without positions. */
  ghost predicate ClientAt(c: RelayClient, embed: Token -> Row, front: seq<Layer>, ctx: seq<Token>)
    reads c
  {
    c.Valid() && !c.closed && c.peer.s.mode != SeqMode && FedAs(c.peer.s.h, c.peer.s.pos, embed, front, ctx)
  }

  // ---- the hops ----

  method AskHead(head: RelayClient, toks: seq<Token>, ghost prompt: seq<Token>, ghost tokens: seq<Token>,
                 ghost token: Token) returns (r: Result<seq<Row>>)
    requires head.service.role.HeadRole? && toks == FedAt(prompt, tokens) && (prompt == [] ==> tokens == [])
    requires ClientAt(head, head.service.role.embed, [], ContextBefore(prompt, tokens))
    modifies head
    ensures head.Valid()
    ensures r.Ok? <==> prompt != [] && CanStep(head.Bounds(), 1, |prompt|, |tokens|)
    ensures r.Ok? ==> Carries(r.value, head.service.role.embed, head.service.layers, prompt, tokens)
    ensures r.Ok? ==> ClientAt(head, head.service.role.embed, [], ContextBefore(prompt, tokens + [token]))
  {
    ghost var embed, h, count := head.service.role.embed, head.peer.s.h, head.peer.s.pos;
    ghost var rows := TokenRows(embed, toks);
    HeadAccepts(embed, head.Bounds(), prompt, tokens, h, count, rows);
    r := head.RequestHiddenFromTokens(toks);
    if r.Ok? {
      HeadDone(embed, head.service.layers, prompt, tokens, token, h, count, rows, r.value, head.peer.s.h,
               head.peer.s.pos);
    }
  }

  method AskMiddle(middle: RelayClient, rows: seq<Row>, ghost embed: Token -> Row, ghost front: seq<Layer>,
                   ghost prompt: seq<Token>, ghost tokens: seq<Token>, ghost token: Token) returns (r: Result<seq<Row>>)
    requires middle.service.role.MiddleRole? && prompt != [] && Carries(rows, embed, front, prompt, tokens)
    requires ClientAt(middle, embed, front, ContextBefore(prompt, tokens))
    modifies middle
    ensures middle.Valid()
    ensures r.Ok? <==> CanStep(middle.Bounds(), 1, |prompt|, |tokens|)
    ensures r.Ok? ==> Carries(r.value, embed, front + middle.service.layers, prompt, tokens)
    ensures r.Ok? ==> ClientAt(middle, embed, front, ContextBefore(prompt, tokens + [token]))
  {
    ghost var h, count := middle.peer.s.h, middle.peer.s.pos;
    HopAccepts(embed, front, middle.Bounds(), prompt, tokens, h, count, rows);
    r := middle.RequestHidden(rows);
    if r.Ok? {
      HopCarries(embed, front, middle.service.layers, prompt, tokens, h, count, rows, r.value);
      HopFeeds(embed, front, prompt, tokens, token, h, count, rows, middle.peer.s.h, middle.peer.s.pos);
    }
  }

  predicate IsTail(role: Role) {
    role.TailRole? || role.ShimTailRole?
  }

  method AskTail(tail: RelayClient, rows: seq<Row>, ghost embed: Token -> Row, ghost front: seq<Layer>,
                 ghost prompt: seq<Token>, ghost tokens: seq<Token>, ghost token: Token) returns (r: Result<Token>)
    requires IsTail(tail.service.role) && prompt != [] && Carries(rows, embed, front, prompt, tokens)
    requires ClientAt(tail, embed, front, ContextBefore(prompt, tokens))
    modifies tail
    ensures tail.Valid()
    ensures r.Ok? <==> CanStep(tail.Bounds(), 1, |prompt|, |tokens|)
    ensures r.Ok? ==>
              r.value == NextToken(Model(embed, front + tail.service.layers, tail.service.role.logits), prompt + tokens)
    ensures r.Ok? ==> ClientAt(tail, embed, front, ContextBefore(prompt, tokens + [token]))
  {
    ghost var h, count := tail.peer.s.h, tail.peer.s.pos;
    HopAccepts(embed, front, tail.Bounds(), prompt, tokens, h, count, rows);
    r := tail.RequestToken(rows);
    if r.Ok? {
      TailToken(embed, front, tail.service.layers, tail.service.role.logits, prompt, tokens, h, count, rows, r.value);
      HopFeeds(embed, front, prompt, tokens, token, h, count, rows, tail.peer.s.h, tail.peer.s.pos);
    }
  }

  // ---- the loop ----

  function LayersBetween(middle: RelayClient?): seq<Layer> {
    if middle == null then [] else middle.service.layers
  }

  /** Each client is connected to a service of its kind; so no two of them are one. */
  ghost predicate Served(head: RelayClient, middle: RelayClient?, tail: RelayClient) {
    && head.service.role.HeadRole? && IsTail(tail.service.role) && (middle != null ==> middle.service.role.MiddleRole?)
  }

  lemma Three(head: RelayClient, middle: RelayClient?, tail: RelayClient)
    requires Served(head, middle, tail)
    ensures head != tail && (middle != null ==> middle != head && middle != tail)
  {
  }

  function ServedModel(head: RelayClient, middle: RelayClient?, tail: RelayClient): Model
    requires Served(head, middle, tail)
  {
    Model(head.service.role.embed, head.service.layers + LayersBetween(middle) + tail.service.layers,
          tail.service.role.logits)
  }

  function Middles(middle: RelayClient?): set<object> {
    if middle == null then {} else {middle}
  }

  ghost predicate ServedAt(head: RelayClient, middle: RelayClient?, tail: RelayClient, ctx: seq<Token>)
    requires Served(head, middle, tail)
    reads head, tail, Middles(middle)
  {
    var embed := head.service.role.embed;
    && ClientAt(head, embed, [], ctx)
    && (middle != null ==> ClientAt(middle, embed, head.service.layers, ctx))
    && ClientAt(tail, embed, head.service.layers + LayersBetween(middle), ctx)
  }

  /** Whether or not a request has failed, the clients know what has been answered. */
  ghost predicate AllValid(head: RelayClient, middle: RelayClient?, tail: RelayClient)
    reads head, tail, Middles(middle)
  {
    head.Valid() && (middle != null ==> middle.Valid()) && tail.Valid()
  }

  predicate ServedCanStep(head: RelayClient, middle: RelayClient?, tail: RelayClient, promptLen: nat, step: nat) {
    && CanStep(head.Bounds(), 1, promptLen, step) && CanStep(tail.Bounds(), 1, promptLen, step)
    && (middle != null ==> CanStep(middle.Bounds(), 1, promptLen, step))
  }

  predicate ServedCanRun(head: RelayClient, middle: RelayClient?, tail: RelayClient, promptLen: nat, gen: nat) {
    && CanRun(head.Bounds(), 1, promptLen, gen) && CanRun(tail.Bounds(), 1, promptLen, gen)
    && (middle != null ==> CanRun(middle.Bounds(), 1, promptLen, gen))
  }

  predicate ServedUpTo(head: RelayClient, middle: RelayClient?, tail: RelayClient, promptLen: nat, gen: nat) {
    forall step: nat :: step < gen ==> ServedCanStep(head, middle, tail, promptLen, step)
  }

  lemma ServedRunIsSteps(head: RelayClient, middle: RelayClient?, tail: RelayClient, promptLen: nat, gen: nat)
    requires promptLen > 0
    ensures ServedCanRun(head, middle, tail, promptLen, gen) <==> ServedUpTo(head, middle, tail, promptLen, gen)
  {
    RunIsSteps(head.Bounds(), 1, promptLen, gen);
    RunIsSteps(tail.Bounds(), 1, promptLen, gen);
    if middle != null {
      RunIsSteps(middle.Bounds(), 1, promptLen, gen);
    }
    if ServedUpTo(head, middle, tail, promptLen, gen) {
      forall step: nat | step < gen
        ensures CanStep(head.Bounds(), 1, promptLen, step) && CanStep(tail.Bounds(), 1, promptLen, step)
        ensures middle != null ==> CanStep(middle.Bounds(), 1, promptLen, step)
      {
        assert ServedCanStep(head, middle, tail, promptLen, step);
      }
    }
  }

  lemma ServedNext(head: RelayClient, middle: RelayClient?, tail: RelayClient, promptLen: nat, step: nat, gen: nat)
    requires ServedUpTo(head, middle, tail, promptLen, step) && step < gen
    ensures ServedCanStep(head, middle, tail, promptLen, step) ==> ServedUpTo(head, middle, tail, promptLen, step + 1)
    ensures !ServedCanStep(head, middle, tail, promptLen, step) ==> !ServedUpTo(head, middle, tail, promptLen, gen)
  {
  }

  method AskFront(head: RelayClient, middle: RelayClient?, toks: seq<Token>, ghost prompt: seq<Token>,
                  ghost tokens: seq<Token>, ghost token: Token) returns (r: Result<seq<Row>>)
    requires head.service.role.HeadRole? && (middle != null ==> middle != head && middle.service.role.MiddleRole?)
    requires toks == FedAt(prompt, tokens) && (prompt == [] ==> tokens == [])
    requires ClientAt(head, head.service.role.embed, [], ContextBefore(prompt, tokens))
    requires middle != null ==>
               ClientAt(middle, head.service.role.embed, head.service.layers, ContextBefore(prompt, tokens))
    modifies head, Middles(middle)
    ensures head.Valid() && (middle != null ==> middle.Valid())
    ensures r.Ok? <==> prompt != [] && CanStep(head.Bounds(), 1, |prompt|, |tokens|)
                       && (middle != null ==> CanStep(middle.Bounds(), 1, |prompt|, |tokens|))
    ensures r.Ok? ==>
              Carries(r.value, head.service.role.embed, head.service.layers + LayersBetween(middle), prompt, tokens)
    ensures r.Ok? ==> ClientAt(head, head.service.role.embed, [], ContextBefore(prompt, tokens + [token]))
    ensures r.Ok? && middle != null ==>
              ClientAt(middle, head.service.role.embed, head.service.layers, ContextBefore(prompt, tokens + [token]))
  {
    ghost var first := head.service.layers;
    r := AskHead(head, toks, prompt, tokens, token);
    if r.Ok? {
      if middle == null {
        assert first + [] == first;
      } else {
        r := AskMiddle(middle, r.value, head.service.role.embed, first, prompt, tokens, token);
      }
    }
  }

  /** One step: head, middle and tail are asked in turn. */
  method AskAll(head: RelayClient, middle: RelayClient?, tail: RelayClient, toks: seq<Token>, ghost prompt: seq<Token>,
                ghost tokens: seq<Token>, ghost token: Token) returns (r: Result<Token>)
    requires Served(head, middle, tail) && toks == FedAt(prompt, tokens) && (prompt == [] ==> tokens == [])
    requires ServedAt(head, middle, tail, ContextBefore(prompt, tokens))
    modifies head, tail, Middles(middle)
    ensures AllValid(head, middle, tail)
    ensures r.Ok? <==> prompt != [] && ServedCanStep(head, middle, tail, |prompt|, |tokens|)
    ensures r.Ok? ==> r.value == NextToken(ServedModel(head, middle, tail), prompt + tokens)
    ensures r.Ok? ==> ServedAt(head, middle, tail, ContextBefore(prompt, tokens + [token]))
  {
    Three(head, middle, tail);
    var rows :- AskFront(head, middle, toks, prompt, tokens, token);
    r := AskTail(tail, rows, head.service.role.embed, head.service.layers
                 + LayersBetween(middle), prompt, tokens, token);
  }

  method NextServed(head: RelayClient, middle: RelayClient?, tail: RelayClient, prompt: seq<Token>, tokens: seq<Token>)
    returns (r: Result<seq<Token>>)
    requires Served(head, middle, tail) && (prompt == [] ==> tokens == [])
    requires ServedAt(head, middle, tail, ContextBefore(prompt, tokens))
    requires tokens == GreedyOr(ServedModel(head, middle, tail), prompt, |tokens|)
    modifies head, tail, Middles(middle)
    ensures AllValid(head, middle, tail)
    ensures r.Ok? <==> prompt != [] && ServedCanStep(head, middle, tail, |prompt|, |tokens|)
    ensures r.Ok? ==> ServedAt(head, middle, tail, ContextBefore(prompt, r.value))
    ensures r.Ok? ==> r.value == GreedyOr(ServedModel(head, middle, tail), prompt, |tokens| + 1)
  {
    var toks := if tokens == [] then prompt else [tokens[|tokens| - 1]];
    ghost var m := ServedModel(head, middle, tail);
    ghost var token := NextTokenOr(m, prompt + tokens);
    var next :- AskAll(head, middle, tail, toks, prompt, tokens, token);
    GreedyNext(m, prompt, |tokens|);
    assert next == token;
    r := Ok(tokens + [next]);
  }

  method ServedLoop(head: RelayClient, middle: RelayClient?, tail: RelayClient, prompt: seq<Token>, gen: nat)
    returns (r: Result<seq<Token>>)
    requires Served(head, middle, tail) && ServedAt(head, middle, tail, [])
    modifies head, tail, Middles(middle)
    ensures AllValid(head, middle, tail)
    ensures r.Ok? ==> gen == 0 || (prompt != [] && ServedUpTo(head, middle, tail, |prompt|, gen))
    ensures r.Err? ==> gen > 0 && (prompt == [] || !ServedUpTo(head, middle, tail, |prompt|, gen))
    ensures r.Ok? ==> r.value == GreedyOr(ServedModel(head, middle, tail), prompt, gen)
  {
    var tokens: seq<Token> := [];
    for step := 0 to gen
      invariant |tokens| == step && (prompt == [] ==> step == 0)
      invariant tokens == GreedyOr(ServedModel(head, middle, tail), prompt, step)
      invariant ServedAt(head, middle, tail, ContextBefore(prompt, tokens))
      invariant ServedUpTo(head, middle, tail, |prompt|, step)
    {
      ServedNext(head, middle, tail, |prompt|, step, gen);
      tokens :- NextServed(head, middle, tail, prompt, tokens);
    }
    r := Ok(tokens);
  }

  /** A client that has just connected. */
  ghost predicate Connected(c: RelayClient)
    reads c
  {
    c.Valid() && !c.closed && c.peer.s == START
  }

  lemma ConnectedAt(c: RelayClient, embed: Token -> Row, front: seq<Layer>)
    requires Connected(c)
    ensures ClientAt(c, embed, front, [])
  {
    assert FedWith(embed, [[]]) == map[];
    assert StackAll(front, map[]) == map[];
  }

  /** The probe over freshly connected services: it generates the greedy tokens of the model that
      their layers make up, or fails, exactly when a context or a frame limit is too small. Every
      session is closed, and a runner served what was sent on it replies what was received. */
  method ProbeServed(head: RelayClient, middle: RelayClient?, tail: RelayClient, prompt: seq<Token>, gen: nat,
                     resetFails: bool) returns (r: Result<seq<Token>>)
    requires Served(head, middle, tail) && Connected(head) && Connected(tail) && (middle != null ==> Connected(middle))
    modifies head, tail, Middles(middle)
    ensures r.Ok? <==> ServedCanRun(head, middle, tail, |prompt|, gen)
    ensures gen == 0 ==> r == Ok([])
    ensures r.Ok? && gen > 0 ==> prompt != [] && r.value == Greedy(ServedModel(head, middle, tail), prompt, gen)
    ensures AllValid(head, middle, tail) && head.closed && tail.closed && (middle != null ==> middle.closed)
  {
    Three(head, middle, tail);
    ConnectedAt(head, head.service.role.embed, []);
    ConnectedAt(tail, head.service.role.embed, head.service.layers + LayersBetween(middle));
    if middle != null {
      ConnectedAt(middle, head.service.role.embed, head.service.layers);
    }
    if prompt != [] {
      ServedRunIsSteps(head, middle, tail, |prompt|, gen);
    }
    r := ServedLoop(head, middle, tail, prompt, gen);
    tail.Close(resetFails);
    if middle != null {
      middle.Close(resetFails);
    }
    head.Close(resetFails);
  }
}
