/** The experiment driver: the whole-model baseline and the relayed run it is compared with. */
module RelayDriver {
  import opened Results
  import opened CausalLayers
  import opened DecodeBatch
  import opened NativeContexts
  import opened GreedyReference
  import opened BatchLayout

  /** A batched step of an engine fed ctxs, in terms of the sequences it moves on. */
  lemma HeadStep(embed: Token -> Row, layers: seq<Layer>, pos: nat, ctxs: seq<seq<Token>>, ids: seq<seq<Token>>,
                 nTok: nat)
    requires |ctxs| == |ids| && Rectangular(ctxs, pos) && Rectangular(ids, nTok) && nTok > 0
    ensures |FlatRows(embed, ids)| == |ids| * nTok
    ensures Decode(layers, CachesOf(layers, FedWith(embed, ctxs)),
                   Bind(SeqIds(|ids|, nTok), Positions(|ids|, nTok, pos), FlatRows(embed, ids)))
         == (CachesOf(layers, FedWith(embed, Joined(ctxs, ids))),
             Emit(layers, FedWith(embed, ctxs), Blocks(embed, pos, ids)))
    ensures Rectangular(Joined(ctxs, ids), pos + nTok)
  {
    FlatIsBlocks(embed, pos, ids, nTok);
    StepBatch(embed, layers, pos, ctxs, ids, nTok);
    FedAscending(embed, ctxs);
    DecodeIsEmit(layers, FedWith(embed, ctxs), Blocks(embed, pos, ids));
  }

  /** The upstream segment: a framework engine that keeps its own cache between calls and
      places every sequence's new rows after the ones it has. */
  class TorchHead {
    const embed: Token -> Row
    const layers: seq<Layer>
    var past: seq<History>
    var pastLen: nat

    constructor (embed: Token -> Row, layers: seq<Layer>)
      ensures this.embed == embed && this.layers == layers
    {
      this.embed, this.layers := embed, layers;
      past, pastLen := CachesOf(layers, map[]), 0;
    }

    ghost predicate Consumed(ctxs: seq<seq<Token>>)
      reads this
    {
      Rectangular(ctxs, pastLen) && past == CachesOf(layers, FedWith(embed, ctxs))
    }

    /** Drops the cache: the first call of a run passes no past. */
    method Start(batch: nat)
      modifies this
      ensures Consumed(seq(batch, _ => []))
    {
      past, pastLen := CachesOf(layers, map[]), 0;
      assert FedWith(embed, seq(batch, _ => [])) == map[];
    }

    /** Flattened hidden rows of one step. No rows at all cannot be flattened. */
    method ForwardLayers(ids: seq<seq<Token>>, ghost ctxs: seq<seq<Token>>) returns (r: Result<seq<Row>>)
      requires ids != [] && |ids| == |ctxs| && Rectangular(ids, |ids[0]|) && Consumed(ctxs)
      modifies this
      ensures r.Ok? <==> ids[0] != []
      ensures r.Ok? ==> Consumed(Joined(ctxs, ids))
      ensures r.Ok? ==> r.value == Rows(Emit(layers, FedWith(embed, ctxs), Blocks(embed, old(pastLen), ids)))
    {
      var nTok := |ids[0]|;
      if nTok == 0 {
        return Err;
      }
      HeadStep(embed, layers, pastLen, ctxs, ids, nTok);
      var items := Bind(SeqIds(|ids|, nTok), Positions(|ids|, nTok, pastLen), FlatRows(embed, ids));
      var (stored, out) := DecodeBatch.Decode(layers, past, items);
      past, pastLen := stored, pastLen + nTok;
      r := Ok(Rows(out));
    }
  }

  /** The downstream segment: hidden rows of all sequences in, logits of every row out. */
  class DownstreamEngine {
    const context: NativeContext
    const logits: Logits

    constructor (context: NativeContext, logits: Logits)
      ensures this.context == context && this.logits == logits
    {
      this.context, this.logits := context, logits;
    }

    method Forward(rows: seq<Row>, pos: nat, batch: nat) returns (r: Result<seq<seq<real>>>)
      requires context.Valid() && batch > 0
      modifies context
      ensures context.Valid()
      ensures var n := |rows| / batch;
              r.Ok? <==>
                && n * batch == |rows|
                && Accepts(context.limits, old(context.Fed()), Bind(SeqIds(batch, n), Positions(batch, n, pos), rows))
      ensures var n := |rows| / batch;
              r.Ok? ==>
                var items := Bind(SeqIds(batch, n), Positions(batch, n, pos), rows);
                && context.Fed() == Store(old(context.Fed()), items)
                && |r.value| == |rows|
                && forall k :: 0 <= k < |rows| ==>
                   r.value[k] == logits(Emit(context.layers, old(context.Fed()), items)[k].row)
    {
      var perSeq := |rows| / batch;
      if perSeq * batch != |rows| {
        return Err;
      }
      var out :- context.Decode(Bind(SeqIds(batch, perSeq), Positions(batch, perSeq, pos), rows));
      r := Ok(seq(|out|, k requires 0 <= k < |out| => logits(out[k])));
    }
  }

  /** The limits under which a segment survives a whole run. */
  predicate CanRun(lim: Limits, batch: nat, promptLen: nat, gen: nat) {
    gen == 0 ||
    (promptLen > 0 && batch * promptLen <= lim.nBatch && batch <= lim.nSeqMax && promptLen + gen - 1 <= lim.ctxPerSeq)
  }

  /** Step number step feeds the prompt, or one more token per sequence. */
  predicate CanStep(lim: Limits, batch: nat, promptLen: nat, step: nat) {
    var nTok := if step == 0 then promptLen else 1;
    && batch * nTok <= lim.nBatch && batch <= lim.nSeqMax
    && (if step == 0 then promptLen else promptLen + step) <= lim.ctxPerSeq
  }

  lemma RunIsSteps(lim: Limits, batch: nat, promptLen: nat, gen: nat)
    requires batch > 0 && promptLen > 0
    ensures CanRun(lim, batch, promptLen, gen)
       <==> forall step: nat :: step < gen ==> CanStep(lim, batch, promptLen, step)
  {
    assert batch <= batch * promptLen;
    if gen > 0 && forall step: nat :: step < gen ==> CanStep(lim, batch, promptLen, step) {
      assert CanStep(lim, batch, promptLen, 0);
      assert CanStep(lim, batch, promptLen, gen - 1);
    }
  }

  lemma {:induction false} BlocksBounds(embed: Token -> Row, pos: nat, ids: seq<seq<Token>>, nTok: nat)
    requires Rectangular(ids, nTok)
    ensures forall k :: 0 <= k < |Blocks(embed, pos, ids)| ==>
              && Blocks(embed, pos, ids)[k].seqId < |ids|
              && Blocks(embed, pos, ids)[k].pos < pos + nTok
    ensures ids != [] && nTok > 0 ==>
              && Blocks(embed, pos, ids) != []
              && var last := Blocks(embed, pos, ids)[|Blocks(embed, pos, ids)| - 1];
                 last.seqId == |ids| - 1 && last.pos == pos + nTok - 1
    decreases |ids|
  {
    if ids != [] {
      BlocksBounds(embed, pos, ids[..|ids| - 1], nTok);
    }
  }

  /** A segment accepts a step exactly when its limits do. */
  lemma StepAccepted(lim: Limits, embed: Token -> Row, pos: nat, ctxs: seq<seq<Token>>, ids: seq<seq<Token>>, nTok: nat)
    requires |ctxs| == |ids| && ids != [] && Rectangular(ctxs, pos) && Rectangular(ids, nTok) && nTok > 0
    ensures Accepts(lim, FedWith(embed, ctxs), Blocks(embed, pos, ids))
       <==> |ids| * nTok <= lim.nBatch && |ids| <= lim.nSeqMax && pos + nTok <= lim.ctxPerSeq
  {
    StepBatch(embed, [], pos, ctxs, ids, nTok);
    BlocksBounds(embed, pos, ids, nTok);
  }

  /** A single-sequence step at the position the context has reached. */
  lemma SingleStep(embed: Token -> Row, layers: seq<Layer>, lim: Limits, ctx: seq<Token>, toks: seq<Token>)
    requires toks != []
    ensures var items := Plain(|ctx|, TokenRows(embed, toks));
            && (Accepts(lim, FedWith(embed, [ctx]), items)
                <==> |toks| <= lim.nBatch && 1 <= lim.nSeqMax && |ctx| + |toks| <= lim.ctxPerSeq)
            && Store(FedWith(embed, [ctx]), items) == FedWith(embed, [ctx + toks])
            && Emit(layers, FedWith(embed, [ctx]), items)[|toks| - 1].row == LastRow(layers, Embed(embed, ctx + toks))
  {
    SingleBlock(embed, |ctx|, toks);
    StepAccepted(lim, embed, |ctx|, [ctx], [toks], |toks|);
    StepBatch(embed, layers, |ctx|, [ctx], [toks], |toks|);
    StepRow(embed, layers, |ctx|, [ctx], [toks], |toks|, 0, |toks| - 1);
    assert Joined([ctx], [toks]) == [ctx + toks];
  }

  lemma SingleBlock(embed: Token -> Row, pos: nat, toks: seq<Token>)
    ensures Plain(pos, TokenRows(embed, toks)) == Blocks(embed, pos, [toks])
  {
    assert [toks][..0] == [];
    assert Blocks(embed, pos, []) == [];
  }

  /** The context consumed before a step: nothing, then the prompt and all tokens but the last. */
  function ContextBefore(prompt: seq<Token>, tokens: seq<Token>): seq<Token> {
    if tokens == [] then [] else prompt + tokens[..|tokens| - 1]
  }

  function FedAt(prompt: seq<Token>, tokens: seq<Token>): seq<Token> {
    if tokens == [] then prompt else [tokens[|tokens| - 1]]
  }

  lemma ContextSplits(prompt: seq<Token>, tokens: seq<Token>, next: Token)
    ensures ContextBefore(prompt, tokens) + FedAt(prompt, tokens) == prompt + tokens
    ensures ContextBefore(prompt, tokens + [next]) == prompt + tokens
  {
    assert (tokens + [next])[..|tokens|] == tokens;
  }

  lemma RowsLast(items: seq<Item>, n: nat)
    requires |items| == n && n > 0
    ensures |Rows(items)| == n && Rows(items)[n - 1] == items[n - 1].row
  {
  }

  /** What the baseline's engine is asked in a step. */
  function Asked(m: Model, prompt: seq<Token>, tokens: seq<Token>): seq<Item> {
    Plain(|ContextBefore(prompt, tokens)|, TokenRows(m.embed, FedAt(prompt, tokens)))
  }

  function FedBefore(m: Model, prompt: seq<Token>, tokens: seq<Token>): History {
    FedWith(m.embed, [ContextBefore(prompt, tokens)])
  }

  /** One greedy step of a single-sequence engine that holds all layers of m. */
  lemma GreedyStep(m: Model, lim: Limits, prompt: seq<Token>, tokens: seq<Token>, out: seq<Row>)
    requires prompt != [] && tokens == Greedy(m, prompt, |tokens|)
    requires out == Rows(Emit(m.layers, FedBefore(m, prompt, tokens), Asked(m, prompt, tokens)))
    ensures Accepts(lim, FedBefore(m, prompt, tokens), Asked(m, prompt, tokens))
       <==> CanStep(lim, 1, |prompt|, |tokens|)
    ensures |out| == |FedAt(prompt, tokens)| > 0
    ensures var next := tokens + [ArgMax(m.logits(out[|out| - 1]))];
            && next == Greedy(m, prompt, |tokens| + 1)
            && Store(FedBefore(m, prompt, tokens), Asked(m, prompt, tokens)) == FedBefore(m, prompt, next)
            && |ContextBefore(prompt, tokens)| + |FedAt(prompt, tokens)| == |ContextBefore(prompt, next)|
  {
    var ctx, toks := ContextBefore(prompt, tokens), FedAt(prompt, tokens);
    ContextSplits(prompt, tokens, NextToken(m, prompt + tokens));
    assert |ctx + toks| == |ctx| + |toks|;
    SingleStep(m.embed, m.layers, lim, ctx, toks);
    RowsLast(Emit(m.layers, FedBefore(m, prompt, tokens), Asked(m, prompt, tokens)), |toks|);
  }

  /** An engine has been fed what stands before the last token, up to this position, and the
      tokens are the greedy ones. */
  ghost predicate BaselineAt(m: Model, h: History, prompt: seq<Token>, tokens: seq<Token>, pos: nat) {
    && h == FedBefore(m, prompt, tokens) && pos == |ContextBefore(prompt, tokens)|
    && if prompt == [] then tokens == [] else tokens == Greedy(m, prompt, |tokens|)
  }

  lemma BaselineAccepts(m: Model, lim: Limits, h: History, prompt: seq<Token>, tokens: seq<Token>, pos: nat,
                        items: seq<Item>)
    requires BaselineAt(m, h, prompt, tokens, pos) && items == Plain(pos, TokenRows(m.embed, FedAt(prompt, tokens)))
    ensures Accepts(lim, h, items) <==> prompt != [] && CanStep(lim, 1, |prompt|, |tokens|)
  {
    if prompt == [] {
      assert items == [];
    } else {
      GreedyStep(m, lim, prompt, tokens, Rows(Emit(m.layers, h, items)));
    }
  }

  lemma BaselineNext(m: Model, h: History, prompt: seq<Token>, tokens: seq<Token>, pos: nat, items: seq<Item>,
                     fed: History, rows: seq<Row>, token: Token, nTok: nat)
    requires BaselineAt(m, h, prompt, tokens, pos) && prompt != [] && nTok == |FedAt(prompt, tokens)|
    requires items == Plain(pos, TokenRows(m.embed, FedAt(prompt, tokens)))
    requires fed == Store(h, items) && rows == Rows(Emit(m.layers, h, items))
    requires rows != [] ==> token == ArgMax(m.logits(rows[|rows| - 1]))
    ensures BaselineAt(m, fed, prompt, tokens + [token], pos + nTok)
  {
    GreedyStep(m, Limits(0, 0, 0), prompt, tokens, rows);
  }

  lemma BaselineRows(m: Model, h: History, pos: nat, toks: seq<Token>, rows: seq<Row>)
    requires rows == Rows(Emit(m.layers, h, Plain(pos, TokenRows(m.embed, toks))))
    ensures |rows| == |toks|
  {
  }

  /** One step of the baseline loop: the token and how many rows it consumed. */
  method BaselineStep(m: Model, context: NativeContext, prompt: seq<Token>, tokens: seq<Token>, pos: nat)
    returns (r: Result<Token>, nTok: nat)
    requires context.Valid() && context.layers == m.layers && BaselineAt(m, context.Fed(), prompt, tokens, pos)
    modifies context
    ensures context.Valid()
    ensures r.Ok? <==> prompt != [] && CanStep(context.limits, 1, |prompt|, |tokens|)
    ensures r.Ok? ==> BaselineAt(m, context.Fed(), prompt, tokens + [r.value], pos + nTok)
  {
    var toks := if tokens == [] then prompt else [tokens[|tokens| - 1]];
    assert toks == FedAt(prompt, tokens);
    ghost var h := context.Fed();
    var items := Plain(pos, TokenRows(m.embed, toks));
    BaselineAccepts(m, context.limits, h, prompt, tokens, pos, items);
    nTok := |toks|;
    var rows := context.Decode(items);
    if rows.Err? {
      return Err, nTok;
    }
    BaselineRows(m, h, pos, toks, rows.value);
    var token := ArgMax(m.logits(rows.value[|rows.value| - 1]));
    BaselineNext(m, h, prompt, tokens, pos, items, context.Fed(), rows.value, token, nTok);
    r := Ok(token);
  }

  /** The baseline: the whole model in one native context, one token per step. It emits the
      greedy tokens, and it fails exactly when the context is too small for the run. */
  method BaselineTokens(m: Model, context: NativeContext, prompt: seq<Token>, gen: nat) returns (r: Result<seq<Token>>)
    requires context.Valid() && context.Fed() == map[] && context.layers == m.layers
    modifies context
    ensures r.Ok? <==> CanRun(context.limits, 1, |prompt|, gen)
    ensures gen == 0 ==> r == Ok([])
    ensures r.Ok? && gen > 0 ==> prompt != [] && r.value == Greedy(m, prompt, gen)
  {
    var tokens: seq<Token> := [];
    var pos := 0;
    if prompt != [] {
      RunIsSteps(context.limits, 1, |prompt|, gen);
    }
    for step := 0 to gen
      invariant context.Valid() && |tokens| == step && BaselineAt(m, context.Fed(), prompt, tokens, pos)
      invariant prompt != [] ==> forall s: nat :: s < step ==> CanStep(context.limits, 1, |prompt|, s)
    {
      var next, nTok := BaselineStep(m, context, prompt, tokens, pos);
      if next.Err? {
        return Err;
      }
      tokens := tokens + [next.value];
      pos := pos + nTok;
    }
    r := Ok(tokens);
  }
}
