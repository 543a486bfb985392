/** The relayed run: upstream, middle chain and downstream engine driven token by token. */
module RelayRun {
  import opened Results
  import opened CausalLayers
  import opened DecodeBatch
  import opened NativeContexts
  import opened GreedyReference
  import opened MiddleChains
  import opened BatchLayout
  import opened RelayDriver
  import opened Arithmetic

  function Copies<T>(batch: nat, x: T): (r: seq<T>)
    ensures |r| == batch && forall b :: 0 <= b < batch ==> r[b] == x
  {
    seq(batch, _ => x)
  }

  /** The sequence ids and positions the driver writes for the middle chain. */
  function MiddleMeta(isPrefill: bool, batch: nat, nTok: nat, midPos: nat): SeqMeta {
    if isPrefill then SeqMeta(SeqIds(batch, nTok), Positions(batch, nTok, 0))
    else SeqMeta(seq(batch, b => b), seq(batch, _ => midPos))
  }

  lemma {:induction false} DecodeIds(batch: nat, pos: nat)
    ensures SeqIds(batch, 1) == seq(batch, b => b)
    ensures Positions(batch, 1, pos) == seq(batch, _ => pos)
    decreases batch
  {
    if batch > 0 {
      DecodeIds(batch - 1, pos);
    }
  }

  /** The step's rows, as they enter the pipeline. */
  function StepItems(embed: Token -> Row, batch: nat, prompt: seq<Token>, tokens: seq<Token>): seq<Item> {
    Blocks(embed, |ContextBefore(prompt, tokens)|, Copies(batch, FedAt(prompt, tokens)))
  }

  /** What the first layer of the pipeline has been fed before the step. */
  function StepHistory(embed: Token -> Row, batch: nat, prompt: seq<Token>, tokens: seq<Token>): History {
    FedWith(embed, Copies(batch, ContextBefore(prompt, tokens)))
  }

  lemma CopiesStep(embed: Token -> Row, batch: nat, ctx: seq<Token>, toks: seq<Token>)
    requires toks != []
    ensures var items := Blocks(embed, |ctx|, Copies(batch, toks));
            && |items| == batch * |toks|
            && Store(FedWith(embed, Copies(batch, ctx)), items) == FedWith(embed, Copies(batch, ctx + toks))
  {
    StepBatch(embed, [], |ctx|, Copies(batch, ctx), Copies(batch, toks), |toks|);
    assert Joined(Copies(batch, ctx), Copies(batch, toks)) == Copies(batch, ctx + toks);
  }

  lemma CopiesRow(embed: Token -> Row, layers: seq<Layer>, batch: nat, ctx: seq<Token>, toks: seq<Token>, b: nat,
                  k: nat)
    requires toks != [] && b < batch && k == b * |toks| + |toks| - 1
    ensures var items := Blocks(embed, |ctx|, Copies(batch, toks));
            && k < |items|
            && Emit(layers, FedWith(embed, Copies(batch, ctx)), items)[k].row
                 == LastRow(layers, Embed(embed, ctx + toks))
  {
    StepRow(embed, layers, |ctx|, Copies(batch, ctx), Copies(batch, toks), |toks|, b, k);
  }

  lemma BatchGreedyStep(embed: Token -> Row, batch: nat, prompt: seq<Token>, tokens: seq<Token>, token: Token)
    requires prompt != []
    ensures var h, items := StepHistory(embed, batch, prompt, tokens), StepItems(embed, batch, prompt, tokens);
            && |items| == batch * |FedAt(prompt, tokens)|
            && Store(h, items) == StepHistory(embed, batch, prompt, tokens + [token])
            && |ContextBefore(prompt, tokens)| + |FedAt(prompt, tokens)| == |ContextBefore(prompt, tokens + [token])|
  {
    var ctx, toks := ContextBefore(prompt, tokens), FedAt(prompt, tokens);
    CopiesStep(embed, batch, ctx, toks);
    ContextSplits(prompt, tokens, token);
    assert |ctx + toks| == |ctx| + |toks|;
  }

  /** The row the driver reads for sequence b decides that sequence's next greedy token. */
  lemma RowOfSequence(m: Model, batch: nat, prompt: seq<Token>, tokens: seq<Token>, b: nat, k: nat)
    requires prompt != [] && b < batch && k == b * |FedAt(prompt, tokens)| + |FedAt(prompt, tokens)| - 1
    ensures var h, items := StepHistory(m.embed, batch, prompt, tokens), StepItems(m.embed, batch, prompt, tokens);
            && k < |items|
            && ArgMax(m.logits(Emit(m.layers, h, items)[k].row)) == NextToken(m, prompt + tokens)
  {
    CopiesRow(m.embed, m.layers, batch, ContextBefore(prompt, tokens), FedAt(prompt, tokens), b, k);
    ContextSplits(prompt, tokens, NextToken(m, prompt + tokens));
  }

  lemma BatchAccepted(lim: Limits, embed: Token -> Row, batch: nat, prompt: seq<Token>, tokens: seq<Token>)
    requires prompt != [] && batch > 0
    ensures Accepts(lim, StepHistory(embed, batch, prompt, tokens), StepItems(embed, batch, prompt, tokens))
       <==> CanStep(lim, batch, |prompt|, |tokens|)
  {
    var ctx, toks := ContextBefore(prompt, tokens), FedAt(prompt, tokens);
    StepAccepted(lim, embed, |ctx|, Copies(batch, ctx), Copies(batch, toks), |toks|);
  }

  /** Rows that left `front` and were flattened again are placed where they were, by the
      downstream forwarder's ids and positions and by the middle chain's. */
  lemma PlacedAgain(embed: Token -> Row, front: seq<Layer>, batch: nat, prompt: seq<Token>, tokens: seq<Token>,
                    rows: seq<Row>)
    requires prompt != [] && batch > 0
    requires Carries(rows, embed, front, batch, prompt, tokens)
    ensures var pos, n := |ContextBefore(prompt, tokens)|, |FedAt(prompt, tokens)|;
            var items := Emit(front, StepHistory(embed, batch, prompt, tokens),
                              StepItems(embed, batch, prompt, tokens));
            && |rows| == batch * n
            && Bind(SeqIds(batch, n), Positions(batch, n, pos), rows) == items
            && MiddleMeta(tokens == [], batch, n, pos) == SeqMeta(SeqIds(batch, n), Positions(batch, n, pos))
            && (batch == 1 ==> Plain(pos, rows) == items)
  {
    var pos, toks := |ContextBefore(prompt, tokens)|, FedAt(prompt, tokens);
    FlatIsBlocks(embed, pos, Copies(batch, toks), |toks|);
    Rebind(SeqIds(batch, |toks|), Positions(batch, |toks|, pos), FlatRows(embed, Copies(batch, toks)),
           front, StepHistory(embed, batch, prompt, tokens));
    DecodeIds(batch, pos);
    if batch == 1 {
      OneSequence(|toks|, pos, rows);
    }
  }

  lemma OneSequence(nTok: nat, pos: nat, rows: seq<Row>)
    requires |rows| == nTok
    ensures Bind(SeqIds(1, nTok), Positions(1, nTok, pos), rows) == Plain(pos, rows)
  {
    assert SeqIds(0, nTok) == [] && Positions(0, nTok, pos) == [];
    var s, p := seq(nTok, _ => 0), seq(nTok, i requires 0 <= i => pos + i);
    assert SeqIds(1, nTok) == s && Positions(1, nTok, pos) == p;
  }

  /** The payload between two segments: what the ones in front emit of a step's rows. */
  ghost predicate Carries(rows: seq<Row>, embed: Token -> Row, front: seq<Layer>, batch: nat,
                          prompt: seq<Token>, tokens: seq<Token>)
  {
    rows == Rows(Emit(front, StepHistory(embed, batch, prompt, tokens), StepItems(embed, batch, prompt, tokens)))
  }

  /** All three segments have consumed the same contexts. */
  ghost predicate InStep(head: TorchHead, middle: MiddleChain, tail: DownstreamEngine,
                         batch: nat, prompt: seq<Token>, tokens: seq<Token>)
    reads head, middle.runners, middle.contexts, tail.context
  {
    && middle.WellFormed() && middle.Apart() && tail.context !in middle.contexts
    && head.Consumed(Copies(batch, ContextBefore(prompt, tokens)))
    && MiddleInStep(head.embed, head.layers, middle, batch, prompt, tokens)
    && TailInStep(head.embed, head.layers + middle.Layers(), tail, batch, prompt, tokens)
  }

  ghost predicate MiddleInStep(embed: Token -> Row, front: seq<Layer>, middle: MiddleChain,
                               batch: nat, prompt: seq<Token>, tokens: seq<Token>)
    requires middle.WellFormed()
    reads middle.runners, middle.contexts
  {
    middle.Synced(StackAll(front, StepHistory(embed, batch, prompt, tokens)),
                  if batch > 1 then None else Some(|ContextBefore(prompt, tokens)|))
  }

  ghost predicate TailInStep(embed: Token -> Row, front: seq<Layer>, tail: DownstreamEngine,
                             batch: nat, prompt: seq<Token>, tokens: seq<Token>)
    reads tail.context
  {
    && tail.context.Valid()
    && tail.context.Fed() == StackAll(front, StepHistory(embed, batch, prompt, tokens))
  }

  function TheModel(head: TorchHead, middle: MiddleChain, tail: DownstreamEngine): Model {
    Model(head.embed, head.layers + middle.Layers() + tail.context.layers, tail.logits)
  }

  predicate MiddleCanStep(middle: MiddleChain, batch: nat, promptLen: nat, step: nat) {
    forall i :: 0 <= i < |middle.contexts| ==> CanStep(middle.contexts[i].limits, batch, promptLen, step)
  }

  /** The middle hop of one step. */
  method MiddleStep(middle: MiddleChain, batch: nat, rows: seq<Row>, isPrefill: bool, nTok: nat, midPos: nat,
                    ghost embed: Token -> Row, ghost front: seq<Layer>, ghost prompt: seq<Token>,
                    ghost tokens: seq<Token>, ghost token: Token)
    returns (r: Result<seq<Row>>)
    requires middle.WellFormed() && middle.Apart()
    requires isPrefill == (tokens == []) && nTok == |FedAt(prompt, tokens)|
    requires prompt != [] && batch > 0 && midPos == |ContextBefore(prompt, tokens)|
    requires Carries(rows, embed, front, batch, prompt, tokens)
    requires MiddleInStep(embed, front, middle, batch, prompt, tokens)
    modifies middle.runners, middle.contexts
    ensures r.Ok? <==> MiddleCanStep(middle, batch, |prompt|, |tokens|)
    ensures r.Ok? ==> Carries(r.value, embed, front + middle.Layers(), batch, prompt, tokens)
    ensures r.Ok? ==> MiddleInStep(embed, front, middle, batch, prompt, tokens + [token])
  {
    ghost var h := StepHistory(embed, batch, prompt, tokens);
    MiddleGiven(batch, rows, isPrefill, nTok, midPos, embed, front, prompt, tokens);
    MiddleFed(batch, embed, front, middle.Layers(), prompt, tokens, token);
    MiddleMoves(batch, rows, midPos, embed, front, prompt, tokens, token);
    MiddleLimits(middle, batch, embed, front, prompt, tokens);
    r := middle.Forward(rows, midPos, MetaFor(isPrefill, batch, nTok, midPos), StackAll(front, h));
  }

  function MetaFor(isPrefill: bool, batch: nat, nTok: nat, midPos: nat): Option<SeqMeta> {
    if batch > 1 then Some(MiddleMeta(isPrefill, batch, nTok, midPos)) else None
  }

  /** What the chain is given is what the segments before it emit, at its places. */
  lemma MiddleGiven(batch: nat, rows: seq<Row>, isPrefill: bool, nTok: nat, midPos: nat,
                    embed: Token -> Row, front: seq<Layer>, prompt: seq<Token>, tokens: seq<Token>)
    requires isPrefill == (tokens == []) && nTok == |FedAt(prompt, tokens)|
    requires prompt != [] && batch > 0 && midPos == |ContextBefore(prompt, tokens)|
    requires Carries(rows, embed, front, batch, prompt, tokens)
    ensures var h, items := StepHistory(embed, batch, prompt, tokens), StepItems(embed, batch, prompt, tokens);
            var meta := MetaFor(isPrefill, batch, nTok, midPos);
            Shaped(meta, rows) && Placed(meta, midPos, rows) == Emit(front, h, items)
  {
    PlacedAgain(embed, front, batch, prompt, tokens, rows);
  }

  /** What the chain will have been fed, and how far it will have come. */
  lemma MiddleFed(batch: nat, embed: Token -> Row, front: seq<Layer>, back: seq<Layer>,
                  prompt: seq<Token>, tokens: seq<Token>, token: Token)
    requires prompt != []
    ensures var h, items := StepHistory(embed, batch, prompt, tokens), StepItems(embed, batch, prompt, tokens);
            && Store(StackAll(front, h), Emit(front, h, items))
               == StackAll(front, StepHistory(embed, batch, prompt, tokens + [token]))
            && Emit(back, StackAll(front, h), Emit(front, h, items)) == Emit(front + back, h, items)
  {
    BatchGreedyStep(embed, batch, prompt, tokens, token);
    EmitConcat(front, back, StepHistory(embed, batch, prompt, tokens), StepItems(embed, batch, prompt, tokens));
  }

  lemma MiddleMoves(batch: nat, rows: seq<Row>, midPos: nat, embed: Token -> Row, front: seq<Layer>,
                    prompt: seq<Token>, tokens: seq<Token>, token: Token)
    requires prompt != [] && midPos == |ContextBefore(prompt, tokens)|
    requires Carries(rows, embed, front, batch, prompt, tokens)
    ensures batch == 1 ==> midPos + |rows| == |ContextBefore(prompt, tokens + [token])|
  {
    BatchGreedyStep(embed, batch, prompt, tokens, token);
  }

  lemma MiddleLimits(middle: MiddleChain, batch: nat, embed: Token -> Row, front: seq<Layer>, prompt: seq<Token>,
                     tokens: seq<Token>)
    requires prompt != [] && batch > 0
    ensures var h, items := StepHistory(embed, batch, prompt, tokens), StepItems(embed, batch, prompt, tokens);
            (forall i :: 0 <= i < |middle.contexts| ==>
             Accepts(middle.contexts[i].limits, StackAll(front, h), Emit(front, h, items)))
            <==> MiddleCanStep(middle, batch, |prompt|, |tokens|)
  {
    var h, items := StepHistory(embed, batch, prompt, tokens), StepItems(embed, batch, prompt, tokens);
    forall i | 0 <= i < |middle.contexts|
      ensures Accepts(middle.contexts[i].limits, StackAll(front, h), Emit(front, h, items))
         <==> CanStep(middle.contexts[i].limits, batch, |prompt|, |tokens|)
    {
      AcceptsThrough(middle.contexts[i].limits, front, h, items);
      BatchAccepted(middle.contexts[i].limits, embed, batch, prompt, tokens);
    }
  }

  /** The downstream hop of one step, and the tokens read from its logits. */
  method DownStep(tail: DownstreamEngine, batch: nat, rows: seq<Row>, pos: nat, nTok: nat,
                  ghost m: Model, ghost front: seq<Layer>, ghost prompt: seq<Token>, ghost tokens: seq<Token>)
    returns (r: Result<seq<Token>>)
    requires prompt != [] && batch > 0 && pos == |ContextBefore(prompt, tokens)| && nTok == |FedAt(prompt, tokens)|
    requires m.layers == front + tail.context.layers && m.logits == tail.logits
    requires Carries(rows, m.embed, front, batch, prompt, tokens)
    requires TailInStep(m.embed, front, tail, batch, prompt, tokens)
    modifies tail.context
    ensures r.Ok? <==> CanStep(tail.context.limits, batch, |prompt|, |tokens|)
    ensures r.Ok? ==> r.value == Copies(batch, NextToken(m, prompt + tokens))
    ensures r.Ok? ==> TailInStep(m.embed, front, tail, batch, prompt, tokens + [NextToken(m, prompt + tokens)])
  {
    ghost var h, items := StepHistory(m.embed, batch, prompt, tokens), StepItems(m.embed, batch, prompt, tokens);
    PlacedAgain(m.embed, front, batch, prompt, tokens, rows);
    PerSequence(batch, rows, nTok, m.embed, front, prompt, tokens);
    DownView(tail.context.layers, tail.context.limits, batch, m, front, prompt, tokens);
    var logits :- tail.Forward(rows, pos, batch);
    var out := ReadTokens(batch, logits, nTok, m, prompt, tokens);
    r := Ok(out);
  }

  /** The rows divide evenly among the sequences. */
  lemma PerSequence(batch: nat, rows: seq<Row>, nTok: nat, embed: Token -> Row, front: seq<Layer>,
                    prompt: seq<Token>, tokens: seq<Token>)
    requires prompt != [] && batch > 0 && nTok == |FedAt(prompt, tokens)|
    requires Carries(rows, embed, front, batch, prompt, tokens)
    ensures |rows| / batch == nTok && nTok * batch == |rows|
  {
    PlacedAgain(embed, front, batch, prompt, tokens, rows);
    QuotientUnique(|rows|, batch, nTok, 0);
  }

  /** What the last segment accepts, will have been fed and adds to the ones before it. */
  lemma DownView(layers: seq<Layer>, lim: Limits, batch: nat, m: Model, front: seq<Layer>,
                 prompt: seq<Token>, tokens: seq<Token>)
    requires prompt != [] && batch > 0 && m.layers == front + layers
    ensures var h, items := StepHistory(m.embed, batch, prompt, tokens), StepItems(m.embed, batch, prompt, tokens);
            var token := NextToken(m, prompt + tokens);
            && (Accepts(lim, StackAll(front, h), Emit(front, h, items)) <==> CanStep(lim, batch, |prompt|, |tokens|))
            && Store(StackAll(front, h), Emit(front, h, items))
               == StackAll(front, StepHistory(m.embed, batch, prompt, tokens + [token]))
            && Emit(layers, StackAll(front, h), Emit(front, h, items)) == Emit(m.layers, h, items)
            && |items| == batch * |FedAt(prompt, tokens)|
  {
    var h, items := StepHistory(m.embed, batch, prompt, tokens), StepItems(m.embed, batch, prompt, tokens);
    EmitConcat(front, layers, h, items);
    AcceptsThrough(lim, front, h, items);
    BatchAccepted(lim, m.embed, batch, prompt, tokens);
    BatchGreedyStep(m.embed, batch, prompt, tokens, NextToken(m, prompt + tokens));
  }

  /** The token of sequence b is read from row b * nTok + nTok - 1. */
  method ReadTokens(batch: nat, logits: seq<seq<real>>, nTok: nat,
                    ghost m: Model, ghost prompt: seq<Token>, ghost tokens: seq<Token>)
    returns (out: seq<Token>)
    requires prompt != [] && nTok == |FedAt(prompt, tokens)|
    requires |logits| == batch * nTok == |StepItems(m.embed, batch, prompt, tokens)|
    requires forall k :: 0 <= k < |logits| ==>
               logits[k] == m.logits(Emit(m.layers, StepHistory(m.embed, batch, prompt, tokens),
                                          StepItems(m.embed, batch, prompt, tokens))[k].row)
    ensures out == Copies(batch, NextToken(m, prompt + tokens))
  {
    out := [];
    for b := 0 to batch
      invariant out == Copies(b, NextToken(m, prompt + tokens))
    {
      RowOfSequence(m, batch, prompt, tokens, b, b * nTok + nTok - 1);
      out := out + [ArgMax(logits[b * nTok + nTok - 1])];
    }
  }

  /** The upstream hop of one step. */
  method UpStep(head: TorchHead, ids: seq<seq<Token>>, ghost batch: nat, ghost prompt: seq<Token>,
                ghost tokens: seq<Token>, ghost token: Token)
    returns (r: Result<seq<Row>>)
    requires batch > 0 && ids == Copies(batch, FedAt(prompt, tokens)) && (prompt == [] ==> tokens == [])
    requires head.Consumed(Copies(batch, ContextBefore(prompt, tokens)))
    modifies head
    ensures r.Ok? <==> prompt != []
    ensures r.Ok? ==> Carries(r.value, head.embed, head.layers, batch, prompt, tokens)
    ensures r.Ok? ==> head.Consumed(Copies(batch, ContextBefore(prompt, tokens + [token])))
  {
    ghost var ctxs := Copies(batch, ContextBefore(prompt, tokens));
    assert head.pastLen == |ctxs[0]|;
    r := head.ForwardLayers(ids, ctxs);
    if r.Ok? {
      ContextSplits(prompt, tokens, token);
      assert Joined(ctxs, ids) == Copies(batch, prompt + tokens);
    }
  }

  /** The middle hop, when there is a middle: without one the rows go on as they are. */
  method MiddlePart(middle: MiddleChain, batch: nat, rows: seq<Row>, isPrefill: bool, nTok: nat, midPos: nat,
                    ghost embed: Token -> Row, ghost front: seq<Layer>, ghost prompt: seq<Token>,
                    ghost tokens: seq<Token>, ghost token: Token)
    returns (r: Result<seq<Row>>)
    requires middle.WellFormed() && middle.Apart() && MiddlePosition(middle, midPos, prompt, tokens)
    requires isPrefill == (tokens == []) && nTok == |FedAt(prompt, tokens)|
    requires prompt != [] && batch > 0
    requires Carries(rows, embed, front, batch, prompt, tokens)
    requires MiddleInStep(embed, front, middle, batch, prompt, tokens)
    modifies middle.runners, middle.contexts
    ensures r.Ok? <==> MiddleCanStep(middle, batch, |prompt|, |tokens|)
    ensures r.Ok? ==> Carries(r.value, embed, front + middle.Layers(), batch, prompt, tokens)
    ensures r.Ok? ==> MiddleInStep(embed, front, middle, batch, prompt, tokens + [token])
  {
    if middle.runners == [] {
      assert front + middle.Layers() == front;
      r := Ok(rows);
    } else {
      r := MiddleStep(middle, batch, rows, isPrefill, nTok, midPos, embed, front, prompt, tokens, token);
    }
  }

  /** The middle's own position is counted only when there is a middle. */
  ghost predicate MiddlePosition(middle: MiddleChain, midPos: nat, prompt: seq<Token>, tokens: seq<Token>) {
    midPos == if middle.runners == [] then 0 else |ContextBefore(prompt, tokens)|
  }

  /** The hops behind the head: the middle segments and the downstream engine. */
  method RelayOn(middle: MiddleChain, tail: DownstreamEngine, batch: nat, rows: seq<Row>, isPrefill: bool, nTok: nat,
                 pos: nat, midPos: nat, ghost m: Model, ghost front: seq<Layer>, ghost prompt: seq<Token>,
                 ghost tokens: seq<Token>, ghost token: Token)
    returns (r: Result<seq<Token>>)
    requires middle.WellFormed() && middle.Apart() && tail.context !in middle.contexts
    requires token == NextTokenOr(m, prompt + tokens)
    requires isPrefill == (tokens == []) && prompt != [] && batch > 0
    requires pos == |ContextBefore(prompt, tokens)| && nTok == |FedAt(prompt, tokens)|
    requires MiddlePosition(middle, midPos, prompt, tokens)
    requires m.layers == front + middle.Layers() + tail.context.layers && m.logits == tail.logits
    requires Carries(rows, m.embed, front, batch, prompt, tokens)
    requires MiddleInStep(m.embed, front, middle, batch, prompt, tokens)
    requires TailInStep(m.embed, front + middle.Layers(), tail, batch, prompt, tokens)
    modifies middle.runners, middle.contexts, tail.context
    ensures r.Ok? <==> CanStepAll(middle, tail, batch, |prompt|, |tokens|)
    ensures r.Ok? ==> r.value == Copies(batch, token)
    ensures r.Ok? ==> MiddleInStep(m.embed, front, middle, batch, prompt, tokens + [token])
    ensures r.Ok? ==> TailInStep(m.embed, front + middle.Layers(), tail, batch, prompt, tokens + [token])
  {
    var out :- MiddlePart(middle, batch, rows, isPrefill, nTok, midPos, m.embed, front, prompt, tokens, token);
    r := DownStep(tail, batch, out, pos, nTok, m, front + middle.Layers(), prompt, tokens);
  }

  /** One step of the driver loop, for all sequences of the batch. */
  method Step(head: TorchHead, middle: MiddleChain, tail: DownstreamEngine, batch: nat, ids: seq<seq<Token>>,
              isPrefill: bool, pos: nat, midPos: nat, ghost prompt: seq<Token>, ghost tokens: seq<Token>,
              ghost token: Token)
    returns (r: Result<seq<Token>>)
    requires isPrefill == (tokens == []) && token == NextTokenOr(TheModel(head, middle, tail), prompt + tokens)
    requires batch > 0 && ids == Copies(batch, FedAt(prompt, tokens)) && (prompt == [] ==> tokens == [])
    requires pos == |ContextBefore(prompt, tokens)| && MiddlePosition(middle, midPos, prompt, tokens)
    requires InStep(head, middle, tail, batch, prompt, tokens)
    modifies head, middle.runners, middle.contexts, tail.context
    ensures r.Ok? <==> prompt != [] && CanStepAll(middle, tail, batch, |prompt|, |tokens|)
    ensures r.Ok? ==> r.value == Copies(batch, token)
    ensures r.Ok? ==> InStep(head, middle, tail, batch, prompt, tokens + [token])
  {
    var nTok := |ids[0]|;
    assert nTok == |FedAt(prompt, tokens)|;
    var rows := UpStep(head, ids, batch, prompt, tokens, token);
    if rows.Err? {
      return Err;
    }
    r := RelayOn(middle, tail, batch, rows.value, isPrefill, nTok, pos, midPos, TheModel(head, middle, tail),
                 head.layers, prompt, tokens, token);
  }

  predicate CanStepAll(middle: MiddleChain, tail: DownstreamEngine, batch: nat, promptLen: nat, step: nat) {
    && MiddleCanStep(middle, batch, promptLen, step)
    && CanStep(tail.context.limits, batch, promptLen, step)
  }

  predicate CanRunAll(middle: MiddleChain, tail: DownstreamEngine, batch: nat, promptLen: nat, gen: nat) {
    && (forall i :: 0 <= i < |middle.contexts| ==> CanRun(middle.contexts[i].limits, batch, promptLen, gen))
    && CanRun(tail.context.limits, batch, promptLen, gen)
  }

  lemma RunAllIsSteps(middle: MiddleChain, tail: DownstreamEngine, batch: nat, promptLen: nat, gen: nat)
    requires batch > 0 && promptLen > 0
    ensures CanRunAll(middle, tail, batch, promptLen, gen)
       <==> CanStepUpTo(middle, tail, batch, promptLen, gen)
  {
    RunIsSteps(tail.context.limits, batch, promptLen, gen);
    forall i | 0 <= i < |middle.contexts|
      ensures CanRun(middle.contexts[i].limits, batch, promptLen, gen)
         <==> forall step: nat :: step < gen ==> CanStep(middle.contexts[i].limits, batch, promptLen, step)
    {
      RunIsSteps(middle.contexts[i].limits, batch, promptLen, gen);
    }
    if CanStepUpTo(middle, tail, batch, promptLen, gen) {
      forall step: nat | step < gen ensures CanStep(tail.context.limits, batch, promptLen, step) {
        assert CanStepAll(middle, tail, batch, promptLen, step);
      }
      forall step: nat, i: nat | step < gen && i < |middle.contexts|
        ensures CanStep(middle.contexts[i].limits, batch, promptLen, step)
      {
        assert CanStepAll(middle, tail, batch, promptLen, step);
      }
    }
  }

  /** The relayed run without hidden compression. However the layers are cut, however many
      middle segments there are, local or remote, and however many sequences are decoded at
      once: every sequence gets exactly the greedy tokens of the whole model, or the run
      fails, and it fails exactly when some segment's context is too small for it. */
  method RunRelay(head: TorchHead, middle: MiddleChain, tail: DownstreamEngine, prompt: seq<Token>, batchArg: int,
                  gen: nat)
    returns (r: Result<seq<seq<Token>>>)
    requires middle.WellFormed() && middle.Apart() && tail.context !in middle.contexts
    requires middle.Synced(map[], Some(0)) && tail.context.Valid() && tail.context.Fed() == map[]
    modifies head, middle.runners, middle.contexts, tail.context
    ensures r.Ok? <==> CanRunAll(middle, tail, BatchSize(batchArg), |prompt|, gen)
    ensures r.Ok? && gen == 0 ==> r.value == Copies(BatchSize(batchArg), [])
    ensures r.Ok? && gen > 0 ==> prompt != []
    ensures r.Ok? && gen > 0 ==>
              r.value == Copies(BatchSize(batchArg), Greedy(TheModel(head, middle, tail), prompt, gen))
  {
    var batch := BatchSize(batchArg);
    head.Start(batch);
    StartInStep(head, middle, tail, batch, prompt);
    if prompt != [] {
      RunAllIsSteps(middle, tail, batch, |prompt|, gen);
    }
    r := RunSteps(head, middle, tail, prompt, batch, gen);
  }

  function BatchSize(batchArg: int): nat {
    if batchArg < 1 then 1 else batchArg
  }

  /** Where the driver loop stands after some steps, when each sequence has these tokens. */
  ghost predicate LoopAt(head: TorchHead, middle: MiddleChain, tail: DownstreamEngine, batch: nat, prompt: seq<Token>,
                         one: seq<Token>, tokens: seq<seq<Token>>, ids: seq<seq<Token>>, pos: nat, midPos: nat)
    reads head, middle.runners, middle.contexts, tail.context
  {
    && InStep(head, middle, tail, batch, prompt, one)
    && tokens == Copies(batch, one) && ids == Copies(batch, FedAt(prompt, one))
    && pos == |ContextBefore(prompt, one)| && MiddlePosition(middle, midPos, prompt, one)
  }

  /** The body of the driver loop. */
  method LoopBody(head: TorchHead, middle: MiddleChain, tail: DownstreamEngine, batch: nat, isPrefill: bool,
                  tokens: seq<seq<Token>>, ids: seq<seq<Token>>, pos: nat, midPos: nat,
                  ghost prompt: seq<Token>, ghost one: seq<Token>)
    returns (ok: bool, moved: seq<seq<Token>>, fed: seq<seq<Token>>, at: nat, midAt: nat)
    requires batch > 0 && isPrefill == (one == []) && (prompt == [] ==> one == [])
    requires LoopAt(head, middle, tail, batch, prompt, one, tokens, ids, pos, midPos)
    modifies head, middle.runners, middle.contexts, tail.context
    ensures ok <==> prompt != [] && CanStepAll(middle, tail, batch, |prompt|, |one|)
    ensures ok ==>
              LoopAt(head, middle, tail, batch, prompt, one + [NextToken(TheModel(head, middle, tail), prompt + one)],
                     moved, fed, at, midAt)
  {
    ghost var token := NextTokenOr(TheModel(head, middle, tail), prompt + one);
    LoopStep(batch, prompt, one, token);
    var next := Step(head, middle, tail, batch, ids, isPrefill, pos, midPos, prompt, one, token);
    if next.Err? {
      return false, tokens, ids, pos, midPos;
    }
    midAt := if middle.runners == [] then midPos else midPos + |ids[0]|;
    return true, AppendEach(tokens, next.value), Singles(next.value), pos + |ids[0]|, midAt;
  }

  lemma UpToNext(middle: MiddleChain, tail: DownstreamEngine, batch: nat, promptLen: nat, step: nat, gen: nat)
    requires CanStepUpTo(middle, tail, batch, promptLen, step) && step < gen
    ensures CanStepAll(middle, tail, batch, promptLen, step) ==> CanStepUpTo(middle, tail, batch, promptLen, step + 1)
    ensures !CanStepAll(middle, tail, batch, promptLen, step) ==> !CanStepUpTo(middle, tail, batch, promptLen, gen)
  {
  }

  /** The driver loop. */
  method RunSteps(head: TorchHead, middle: MiddleChain, tail: DownstreamEngine, prompt: seq<Token>, batch: nat,
                  gen: nat)
    returns (r: Result<seq<seq<Token>>>)
    requires batch > 0 && InStep(head, middle, tail, batch, prompt, [])
    modifies head, middle.runners, middle.contexts, tail.context
    ensures r.Ok? ==> gen == 0 || (prompt != [] && CanStepUpTo(middle, tail, batch, |prompt|, gen))
    ensures r.Err? ==> gen > 0 && (prompt == [] || !CanStepUpTo(middle, tail, batch, |prompt|, gen))
    ensures r.Ok? ==> r.value == Copies(batch, GreedyOr(TheModel(head, middle, tail), prompt, gen))
  {
    var tokens: seq<seq<Token>> := Copies(batch, []);
    var ids := Copies(batch, prompt);
    var pos, midPos := 0, 0;
    ghost var one: seq<Token> := [];
    for step := 0 to gen
      invariant |one| == step && (prompt == [] ==> step == 0)
      invariant one == GreedyOr(TheModel(head, middle, tail), prompt, step)
      invariant LoopAt(head, middle, tail, batch, prompt, one, tokens, ids, pos, midPos)
      invariant CanStepUpTo(middle, tail, batch, |prompt|, step)
    {
      UpToNext(middle, tail, batch, |prompt|, step, gen);
      var ok;
      ok, tokens, ids, pos, midPos :=
        LoopBody(head, middle, tail, batch, step == 0, tokens, ids, pos, midPos, prompt, one);
      if !ok {
        return Err;
      }
      GreedyNext(TheModel(head, middle, tail), prompt, step);
      one := one + [NextToken(TheModel(head, middle, tail), prompt + one)];
    }
    r := Ok(tokens);
  }

  predicate CanStepUpTo(middle: MiddleChain, tail: DownstreamEngine, batch: nat, promptLen: nat, gen: nat) {
    forall step: nat :: step < gen ==> CanStepAll(middle, tail, batch, promptLen, step)
  }

  function Singles(next: seq<Token>): seq<seq<Token>> {
    seq(|next|, b requires 0 <= b < |next| => [next[b]])
  }

  /** How the driver's lists move on after a step. */
  lemma LoopStep(batch: nat, prompt: seq<Token>, one: seq<Token>, token: Token)
    ensures AppendEach(Copies(batch, one), Copies(batch, token)) == Copies(batch, one + [token])
    ensures Singles(Copies(batch, token)) == Copies(batch, FedAt(prompt, one + [token]))
    ensures |ContextBefore(prompt, one)| + |FedAt(prompt, one)| == |ContextBefore(prompt, one + [token])|
  {
    ContextSplits(prompt, one, token);
    assert |ContextBefore(prompt, one) + FedAt(prompt, one)| == |ContextBefore(prompt, one)| + |FedAt(prompt, one)|;
  }

  function AppendEach(tokens: seq<seq<Token>>, next: seq<Token>): seq<seq<Token>>
    requires |tokens| == |next|
  {
    seq(|tokens|, b requires 0 <= b < |tokens| => tokens[b] + [next[b]])
  }

  lemma StartInStep(head: TorchHead, middle: MiddleChain, tail: DownstreamEngine, batch: nat, prompt: seq<Token>)
    requires middle.WellFormed() && middle.Apart() && tail.context !in middle.contexts
    requires middle.Synced(map[], Some(0)) && tail.context.Valid() && tail.context.Fed() == map[]
    requires head.Consumed(seq(batch, _ => []))
    ensures InStep(head, middle, tail, batch, prompt, [])
  {
    assert StepHistory(head.embed, batch, prompt, []) == map[];
    assert Copies(batch, ContextBefore(prompt, [])) == seq(batch, _ => []);
    forall layers: seq<Layer> ensures StackAll(layers, map[]) == map[] {}
  }
}
