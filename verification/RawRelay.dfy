/** The relayed run over the raw binding: the downstream engine is given rows without sequence
    ids, and places them all on one sequence. */
module RawRelay {
  import Arithmetic
  import opened Results
  import opened CausalLayers
  import opened DecodeBatch
  import opened NativeContexts
  import opened GreedyReference
  import opened BatchLayout
  import opened RelayDriver
  import opened RelayRun
  import opened RawPrefill

  class RawDownstream {
    const context: NativeContext
    const logits: Logits

    constructor (context: NativeContext, logits: Logits)
      ensures this.context == context && this.logits == logits
    {
      this.context, this.logits := context, logits;
    }

    method Forward(rows: seq<Row>, pos: nat) returns (r: Result<seq<seq<real>>>)
      requires context.Valid()
      modifies context
      ensures context.Valid()
      ensures r.Ok? <==> Accepts(context.limits, old(context.Fed()), Plain(pos, rows))
      ensures r.Ok? ==> context.Fed() == Store(old(context.Fed()), Plain(pos, rows))
      ensures r.Ok? ==> r.value == LogitsOf(logits, Emit(context.layers, old(context.Fed()), Plain(pos, rows)))
    {
      var out :- context.Decode(Plain(pos, rows));
      r := Ok(EachLogits(logits, out));
    }
  }

  /** One step of the driver, over the raw binding. */
  method RawStep(head: TorchHead, tail: RawDownstream, ids: seq<seq<Token>>, pos: nat, ghost ctxs: seq<seq<Token>>)
    returns (r: Result<seq<Token>>)
    requires tail.context.Valid() && head.Consumed(ctxs) && pos == head.pastLen
    requires ids != [] && |ids| == |ctxs| && Rectangular(ids, |ids[0]|)
    modifies head, tail.context
    ensures tail.context.Valid()
    ensures var rows := HeadRows(head.embed, head.layers, ctxs, pos, ids);
            r.Ok? <==> ids[0] != [] && Accepts(tail.context.limits, old(tail.context.Fed()), Plain(pos, rows))
    ensures var rows := HeadRows(head.embed, head.layers, ctxs, pos, ids);
            r.Ok? ==>
              && head.Consumed(Joined(ctxs, ids))
              && tail.context.Fed() == Store(old(tail.context.Fed()), Plain(pos, rows))
              && r.value == PickTokens(|ids|, |ids[0]|,
                                       LogitsOf(tail.logits, Emit(tail.context.layers, old(tail.context.Fed()),
                                                                  Plain(pos, rows))))
  {
    var rows :- head.ForwardLayers(ids, ctxs);
    var logits :- tail.Forward(rows, pos);
    r := Ok(PickTokens(|ids|, |ids[0]|, logits));
  }

  function WholeModel(head: TorchHead, tail: RawDownstream): Model {
    Model(head.embed, head.layers + tail.context.layers, tail.logits)
  }

  // ---- one sequence ----

  /** An engine behind these layers that has been fed what stands before the last token. */
  ghost predicate FedRaw(embed: Token -> Row, front: seq<Layer>, h: History, prompt: seq<Token>, one: seq<Token>) {
    h == StackAll(front, StepHistory(embed, 1, prompt, one))
  }

  /** With one sequence the raw binding places the rows where they belong. */
  lemma RawOneAccepts(m: Model, front: seq<Layer>, back: seq<Layer>, lim: Limits, h: History,
                      prompt: seq<Token>, one: seq<Token>, rows: seq<Row>)
    requires prompt != [] && m.layers == front + back && FedRaw(m.embed, front, h, prompt, one)
    requires Carries(rows, m.embed, front, 1, prompt, one)
    ensures var items := Plain(|ContextBefore(prompt, one)|, rows);
            && (Accepts(lim, h, items) <==> CanStep(lim, 1, |prompt|, |one|))
            && FedRaw(m.embed, front, Store(h, items), prompt, one + [NextToken(m, prompt + one)])
  {
    PlacedAgain(m.embed, front, 1, prompt, one, rows);
    DownView(back, lim, 1, m, front, prompt, one);
  }

  lemma RawOneToken(m: Model, front: seq<Layer>, back: seq<Layer>, lim: Limits, h: History,
                    prompt: seq<Token>, one: seq<Token>, rows: seq<Row>)
    requires prompt != [] && m.layers == front + back && FedRaw(m.embed, front, h, prompt, one)
    requires Carries(rows, m.embed, front, 1, prompt, one)
    ensures var items, nTok := Plain(|ContextBefore(prompt, one)|, rows), |FedAt(prompt, one)|;
            PickTokens(1, nTok, LogitsOf(m.logits, Emit(back, h, items))) == [NextToken(m, prompt + one)]
  {
    PlacedAgain(m.embed, front, 1, prompt, one, rows);
    DownView(back, lim, 1, m, front, prompt, one);
    RowOfSequence(m, 1, prompt, one, 0, |FedAt(prompt, one)| - 1);
    PickOne(m.logits, Emit(back, h, Plain(|ContextBefore(prompt, one)|, rows)), |FedAt(prompt, one)|);
  }

  lemma PickOne(logits: Logits, items: seq<Item>, n: nat)
    requires |items| == n && n > 0
    ensures PickTokens(1, n, LogitsOf(logits, items)) == [ArgMax(logits(items[n - 1].row))]
  {
  }

  // ---- several sequences ----

  lemma {:induction false} RawPrefilled(rows: seq<Row>)
    ensures Next(Store(map[], Plain(0, rows)), 0) == |rows|
    decreases |rows|
  {
    if rows != [] {
      var init, x := rows[..|rows| - 1], rows[|rows| - 1];
      RawPrefilled(init);
      assert Plain(0, rows) == Plain(0, init) + [Item(0, |init|, x)];
      StoreSplit(map[], Plain(0, init), [Item(0, |init|, x)]);
    }
  }

  // ---- the loop ----

  /** The driver's lists and position. */
  datatype RawAt = RawAt(tokens: seq<seq<Token>>, ids: seq<seq<Token>>, pos: nat)

  /** One sequence: it has its greedy tokens, and both engines have consumed its context. */
  ghost predicate OneLoop(m: Model, front: seq<Layer>, lim: Limits, h: History, prompt: seq<Token>, step: nat,
                          ctxs: seq<seq<Token>>, at: RawAt)
  {
    var one := GreedyOr(m, prompt, step);
    && |one| == step && (prompt == [] ==> step == 0)
    && at.tokens == [one] && at.ids == [FedAt(prompt, one)] && ctxs == [ContextBefore(prompt, one)]
    && FedRaw(m.embed, front, h, prompt, one)
    && forall s: nat :: s < step ==> CanStep(lim, 1, |prompt|, s)
  }

  /** Several sequences: nothing has been fed, or one token of each has been produced and more
      has been fed than any sequence's own length. */
  ghost predicate ManyLoop(m: Model, front: seq<Layer>, back: seq<Layer>, lim: Limits, h: History, batch: nat,
                           prompt: seq<Token>, step: nat, ctxs: seq<seq<Token>>, at: RawAt)
  {
    if step == 0 then
      && h == map[] && at.pos == 0 && at.ids == Copies(batch, prompt)
      && at.tokens == Copies(batch, []) && ctxs == Copies(batch, [])
    else
      && step == 1 && Next(h, 0) > at.pos && CanPrefill(lim, batch, |prompt|)
      && at.tokens == Singles(RawTokens(m, front, back, prompt, batch))
  }

  ghost predicate RawState(m: Model, front: seq<Layer>, back: seq<Layer>, lim: Limits, h: History, batch: nat,
                           prompt: seq<Token>, step: nat, ctxs: seq<seq<Token>>, at: RawAt)
  {
    && |at.ids| == |ctxs| == |at.tokens| == batch
    && (forall b :: 0 <= b < batch ==> |at.ids[b]| == |at.ids[0]| && |ctxs[b]| == at.pos)
    && (batch == 1 ==> OneLoop(m, front, lim, h, prompt, step, ctxs, at))
    && (batch > 1 ==> ManyLoop(m, front, back, lim, h, batch, prompt, step, ctxs, at))
  }

  ghost predicate RawLoop(head: TorchHead, tail: RawDownstream, batch: nat, prompt: seq<Token>, step: nat,
                          ctxs: seq<seq<Token>>, at: RawAt)
    reads head, tail.context
  {
    && tail.context.Valid() && head.Consumed(ctxs) && at.pos == head.pastLen
    && RawState(WholeModel(head, tail), head.layers, tail.context.layers, tail.context.limits, tail.context.Fed(),
                batch,
                prompt, step, ctxs, at)
  }

  /** What one step gives, when there is one sequence. */
  lemma OneView(m: Model, front: seq<Layer>, back: seq<Layer>, lim: Limits, h: History, prompt: seq<Token>,
                one: seq<Token>, rows: seq<Row>)
    requires prompt != [] && m.layers == front + back && FedRaw(m.embed, front, h, prompt, one)
    requires rows == HeadRows(m.embed, front, [ContextBefore(prompt, one)], |ContextBefore(prompt, one)|,
                              [FedAt(prompt, one)])
    ensures var items := Plain(|ContextBefore(prompt, one)|, rows);
            && (Accepts(lim, h, items) <==> CanStep(lim, 1, |prompt|, |one|))
            && FedRaw(m.embed, front, Store(h, items), prompt, one + [NextToken(m, prompt + one)])
            && PickTokens(1, |FedAt(prompt, one)|, LogitsOf(m.logits, Emit(back, h, items)))
                 == [NextToken(m, prompt + one)]
  {
    assert Copies(1, ContextBefore(prompt, one)) == [ContextBefore(prompt, one)];
    assert Copies(1, FedAt(prompt, one)) == [FedAt(prompt, one)];
    RawOneAccepts(m, front, back, lim, h, prompt, one, rows);
    RawOneToken(m, front, back, lim, h, prompt, one, rows);
  }

  lemma OneLists(prompt: seq<Token>, one: seq<Token>, token: Token)
    ensures Joined([ContextBefore(prompt, one)], [FedAt(prompt, one)]) == [ContextBefore(prompt, one + [token])]
    ensures AppendEach([one], [token]) == [one + [token]] && Singles([token]) == [FedAt(prompt, one + [token])]
  {
    ContextSplits(prompt, one, token);
  }

  /** The loop's state after a step, when there is one sequence. */
  lemma OneNext(m: Model, front: seq<Layer>, back: seq<Layer>, lim: Limits, h: History, prompt: seq<Token>, step: nat,
                ctxs: seq<seq<Token>>, at: RawAt, rows: seq<Row>)
    requires OneLoop(m, front, lim, h, prompt, step, ctxs, at) && m.layers == front + back
    requires prompt != [] && at.pos == |ctxs[0]| && rows == HeadRows(m.embed, front, ctxs, at.pos, at.ids)
    ensures Accepts(lim, h, Plain(at.pos, rows)) <==> CanStep(lim, 1, |prompt|, step)
    ensures var items := Plain(at.pos, rows);
            var next := PickTokens(1, |at.ids[0]|, LogitsOf(m.logits, Emit(back, h, items)));
            CanStep(lim, 1, |prompt|, step) ==>
              && |next| == |at.tokens|
              && OneLoop(m, front, lim, Store(h, items), prompt, step + 1, Joined(ctxs, at.ids),
                         RawAt(AppendEach(at.tokens, next), Singles(next), at.pos + |at.ids[0]|))
  {
    var one := GreedyOr(m, prompt, step);
    OneView(m, front, back, lim, h, prompt, one, rows);
    GreedyNext(m, prompt, step);
    OneLists(prompt, one, NextToken(m, prompt + one));
  }

  /** When a step succeeds: with one sequence when the context is large enough, with several
      only the prefill, when it takes all their prompts. */
  predicate RawCanStep(lim: Limits, batch: nat, promptLen: nat, step: nat) {
    promptLen > 0 && if batch == 1 then CanStep(lim, 1, promptLen, step)
        else step == 0 && CanPrefill(lim, batch, promptLen)
  }

  predicate RawCanRun(lim: Limits, batch: nat, promptLen: nat, gen: nat) {
    if batch == 1 then CanRun(lim, 1, promptLen, gen) else gen == 0 || (gen == 1 && CanPrefill(lim, batch, promptLen))
  }

  /** The run over the raw binding, of which the driver tells no sequences. One sequence gets the
      greedy tokens of the whole model. Several get one token each, read behind the rows of the
      sequences before, and no second one is ever produced. */
  method RunRaw(head: TorchHead, tail: RawDownstream, prompt: seq<Token>, batchArg: int, gen: nat)
    returns (r: Result<seq<seq<Token>>>)
    requires tail.context.Valid() && tail.context.Fed() == map[]
    modifies head, tail.context
    ensures r.Ok? <==> RawCanRun(tail.context.limits, BatchSize(batchArg), |prompt|, gen)
    ensures r.Ok? && BatchSize(batchArg) == 1 ==> r.value == [GreedyOr(WholeModel(head, tail), prompt, gen)]
    ensures r.Ok? && gen == 0 ==> r.value == Copies(BatchSize(batchArg), [])
    ensures r.Ok? && BatchSize(batchArg) > 1 && gen > 0 ==>
              r.value == Singles(RawTokens(WholeModel(head, tail), head.layers, tail.context.layers, prompt,
                                           BatchSize(batchArg)))
  {
    var batch := BatchSize(batchArg);
    head.Start(batch);
    var at := RawAt(Copies(batch, []), Copies(batch, prompt), 0);
    ghost var ctxs: seq<seq<Token>> := Copies(batch, []);
    assert ctxs == seq(batch, _ => []);
    RawStarts(head, tail, batch, prompt, ctxs);
    var end;
    end, ctxs := RawSteps(head, tail, batch, at, gen, prompt, ctxs);
    if end.Err? {
      return Err;
    }
    RawEnds(WholeModel(head, tail), head.layers, tail.context.layers, tail.context.limits, tail.context.Fed(), batch,
            prompt, gen, ctxs, end.value);
    r := Ok(end.value.tokens);
  }

  /** The driver loop. */
  method RawSteps(head: TorchHead, tail: RawDownstream, batch: nat, start: RawAt, gen: nat,
                  ghost prompt: seq<Token>, ghost begin: seq<seq<Token>>)
    returns (r: Result<RawAt>, ghost ctxs: seq<seq<Token>>)
    requires batch > 0 && RawLoop(head, tail, batch, prompt, 0, begin, start)
    modifies head, tail.context
    ensures r.Ok? ==> RawLoop(head, tail, batch, prompt, gen, ctxs, r.value)
    ensures r.Err? ==> !RawCanRun(tail.context.limits, batch, |prompt|, gen)
  {
    var at := start;
    ctxs := begin;
    for step := 0 to gen
      invariant RawLoop(head, tail, batch, prompt, step, ctxs, at)
    {
      var next := RawBody(head, tail, batch, prompt, step, ctxs, at);
      if next.Err? {
        StepFails(tail.context.limits, batch, prompt, step, gen);
        r := Err;
        return;
      }
      ctxs, at := Joined(ctxs, at.ids), next.value;
    }
    r := Ok(at);
  }

  /** What a run that ends well has produced. */
  ghost predicate RawDone(m: Model, front: seq<Layer>, back: seq<Layer>, lim: Limits, batch: nat, prompt: seq<Token>,
                          gen: nat, tokens: seq<seq<Token>>)
  {
    && RawCanRun(lim, batch, |prompt|, gen)
    && (batch == 1 ==> tokens == [GreedyOr(m, prompt, gen)])
    && (gen == 0 ==> tokens == Copies(batch, []))
    && (batch > 1 && gen > 0 ==> tokens == Singles(RawTokens(m, front, back, prompt, batch)))
  }

  lemma RawEnds(m: Model, front: seq<Layer>, back: seq<Layer>, lim: Limits, h: History, batch: nat, prompt: seq<Token>,
                gen: nat, ctxs: seq<seq<Token>>, at: RawAt)
    requires batch > 0 && RawState(m, front, back, lim, h, batch, prompt, gen, ctxs, at)
    ensures RawDone(m, front, back, lim, batch, prompt, gen, at.tokens)
  {
    if batch == 1 {
      if prompt != [] {
        RunIsSteps(lim, 1, |prompt|, gen);
      }
      if gen == 0 {
        assert GreedyOr(m, prompt, 0) == [] && Copies<seq<Token>>(1, []) == [[]];
      }
    }
  }

  lemma StepFails(lim: Limits, batch: nat, prompt: seq<Token>, step: nat, gen: nat)
    requires step < gen && !RawCanStep(lim, batch, |prompt|, step) && (batch > 1 ==> step <= 1)
    requires batch > 0
    ensures !RawCanRun(lim, batch, |prompt|, gen)
  {
    if batch == 1 && prompt != [] {
      RunIsSteps(lim, 1, |prompt|, gen);
    }
  }

  lemma RawStarts(head: TorchHead, tail: RawDownstream, batch: nat, prompt: seq<Token>, ctxs: seq<seq<Token>>)
    requires batch > 0 && tail.context.Valid() && tail.context.Fed() == map[]
    requires head.Consumed(ctxs) && ctxs == Copies(batch, [])
    ensures RawLoop(head, tail, batch, prompt, 0, ctxs, RawAt(Copies(batch, []), Copies(batch, prompt), 0))
  {
    assert |ctxs[0]| == 0;
    if batch == 1 {
      OneStarts(WholeModel(head, tail), head.layers, tail.context.limits, prompt);
      assert Copies<seq<Token>>(1, []) == [[]] && Copies(1, prompt) == [prompt];
    }
  }

  lemma OneStarts(m: Model, front: seq<Layer>, lim: Limits, prompt: seq<Token>)
    ensures OneLoop(m, front, lim, map[], prompt, 0, [[]], RawAt([[]], [prompt], 0))
  {
    assert GreedyOr(m, prompt, 0) == [];
    assert StepHistory(m.embed, 1, prompt, []) == map[];
    assert StackAll(front, map[]) == map[];
  }

  /** The body of the loop. */
  method RawBody(head: TorchHead, tail: RawDownstream, batch: nat, ghost prompt: seq<Token>, ghost step: nat,
                 ghost ctxs: seq<seq<Token>>, at: RawAt)
    returns (r: Result<RawAt>)
    requires batch > 0 && RawLoop(head, tail, batch, prompt, step, ctxs, at)
    modifies head, tail.context
    ensures r.Ok? <==> RawCanStep(tail.context.limits, batch, |prompt|, step)
    ensures |ctxs| == |at.ids| && (batch > 1 ==> step <= 1)
    ensures r.Ok? ==> RawLoop(head, tail, batch, prompt, step + 1, Joined(ctxs, at.ids), r.value)
  {
    ghost var rows := HeadRows(head.embed, head.layers, ctxs, at.pos, at.ids);
    ghost var h := tail.context.Fed();
    RawVerdict(WholeModel(head, tail), head.layers, tail.context.layers, tail.context.limits, h, batch, prompt, step,
               ctxs, at, rows);
    var next :- RawStep(head, tail, at.ids, at.pos, ctxs);
    r := Ok(RawAt(AppendEach(at.tokens, next), Singles(next), at.pos + |at.ids[0]|));
    RawMoved(head, tail, h, batch, prompt, step, ctxs, at, rows, next, r.value);
  }

  lemma RawMoved(head: TorchHead, tail: RawDownstream, h: History, batch: nat, prompt: seq<Token>, step: nat,
                 ctxs: seq<seq<Token>>, at: RawAt, rows: seq<Row>, next: seq<Token>, later: RawAt)
    requires batch > 0
    requires RawState(WholeModel(head, tail), head.layers, tail.context.layers, tail.context.limits, h, batch, prompt,
                      step,
                      ctxs, at)
    requires rows == HeadRows(head.embed, head.layers, ctxs, at.pos, at.ids)
    requires at.ids[0] != [] && Accepts(tail.context.limits, h, Plain(at.pos, rows))
    requires next == PickTokens(batch, |at.ids[0]|,
                                LogitsOf(tail.logits, Emit(tail.context.layers, h, Plain(at.pos, rows))))
    requires later == RawAt(AppendEach(at.tokens, next), Singles(next), at.pos + |at.ids[0]|)
    requires tail.context.Valid() && tail.context.Fed() == Store(h, Plain(at.pos, rows))
               && head.Consumed(Joined(ctxs, at.ids))
    ensures RawLoop(head, tail, batch, prompt, step + 1, Joined(ctxs, at.ids), later)
  {
    assert |Joined(ctxs, at.ids)[0]| == at.pos + |at.ids[0]|;
    RawNext(WholeModel(head, tail), head.layers, tail.context.layers, tail.context.limits, h, batch, prompt, step,
            ctxs, at, rows, next, later);
  }

  lemma RawNext(m: Model, front: seq<Layer>, back: seq<Layer>, lim: Limits, h: History, batch: nat, prompt: seq<Token>,
                step: nat, ctxs: seq<seq<Token>>, at: RawAt, rows: seq<Row>, next: seq<Token>, later: RawAt)
    requires batch > 0 && RawState(m, front, back, lim, h, batch, prompt, step, ctxs, at)
    requires m.layers == front + back && rows == HeadRows(m.embed, front, ctxs, at.pos, at.ids)
    requires at.ids[0] != [] && Accepts(lim, h, Plain(at.pos, rows))
    requires next == PickTokens(batch, |at.ids[0]|, LogitsOf(m.logits, Emit(back, h, Plain(at.pos, rows))))
    requires later == RawAt(AppendEach(at.tokens, next), Singles(next), at.pos + |at.ids[0]|)
    ensures RawState(m, front, back, lim, Store(h, Plain(at.pos, rows)), batch, prompt, step + 1, Joined(ctxs, at.ids),
                     later)
  {
    StillRectangular(ctxs, at.ids, at.pos, next);
    if batch > 1 {
      ManyVerdict(m, front, back, lim, h, batch, prompt, step, ctxs, at, rows);
      ManyNext(m, front, back, lim, batch, prompt, at, rows, next, later);
    } else {
      OneNext(m, front, back, lim, h, prompt, step, ctxs, at, rows);
    }
  }

  lemma StillRectangular(ctxs: seq<seq<Token>>, ids: seq<seq<Token>>, pos: nat, next: seq<Token>)
    requires |ctxs| == |ids| == |next| > 0
    requires forall b :: 0 <= b < |ids| ==> |ids[b]| == |ids[0]| && |ctxs[b]| == pos
    ensures forall b :: 0 <= b < |ids| ==>
              |Singles(next)[b]| == |Singles(next)[0]| && |Joined(ctxs, ids)[b]| == pos + |ids[0]|
  {
  }

  /** What is asked of the engine in a step is accepted exactly when the step can be made. */
  lemma RawVerdict(m: Model, front: seq<Layer>, back: seq<Layer>, lim: Limits, h: History, batch: nat,
                   prompt: seq<Token>, step: nat, ctxs: seq<seq<Token>>, at: RawAt, rows: seq<Row>)
    requires batch > 0 && RawState(m, front, back, lim, h, batch, prompt, step, ctxs, at)
    requires m.layers == front + back && rows == HeadRows(m.embed, front, ctxs, at.pos, at.ids)
    ensures at.ids[0] != [] && Accepts(lim, h, Plain(at.pos, rows)) <==> RawCanStep(lim, batch, |prompt|, step)
  {
    if batch > 1 {
      ManyVerdict(m, front, back, lim, h, batch, prompt, step, ctxs, at, rows);
    } else if prompt != [] {
      OneNext(m, front, back, lim, h, prompt, step, ctxs, at, rows);
    }
  }

  /** With several sequences the prefill is accepted when all the prompts fit one behind the
      other. It leaves more rows on the one sequence than any of them has, so a second step is
      refused. */
  lemma ManyVerdict(m: Model, front: seq<Layer>, back: seq<Layer>, lim: Limits, h: History, batch: nat,
                    prompt: seq<Token>, step: nat, ctxs: seq<seq<Token>>, at: RawAt, rows: seq<Row>)
    requires batch > 1 && |at.ids| == batch && ManyLoop(m, front, back, lim, h, batch, prompt, step, ctxs, at)
    requires rows == HeadRows(m.embed, front, ctxs, at.pos, at.ids)
    ensures at.ids[0] != [] && Accepts(lim, h, Plain(at.pos, rows)) <==> RawCanStep(lim, batch, |prompt|, step)
  {
    if step == 0 {
      HeadLength(m.embed, front, batch, prompt);
      PrefillAccepted(lim, rows, batch, |prompt|);
    }
  }

  lemma ManyNext(m: Model, front: seq<Layer>, back: seq<Layer>, lim: Limits, batch: nat, prompt: seq<Token>, at: RawAt,
                 rows: seq<Row>, next: seq<Token>, later: RawAt)
    requires batch > 1 && prompt != [] && CanPrefill(lim, batch, |prompt|)
    requires at == RawAt(Copies(batch, []), Copies(batch, prompt), 0)
    requires rows == HeadRows(m.embed, front, Copies(batch, []), 0, Copies(batch, prompt))
    requires next == PickTokens(batch, |prompt|, LogitsOf(m.logits, Emit(back, map[], Plain(0, rows))))
    requires later == RawAt(AppendEach(at.tokens, next), Singles(next), |prompt|)
    ensures ManyLoop(m, front, back, lim, Store(map[], Plain(0, rows)), batch, prompt, 1,
                     Joined(Copies(batch, []), at.ids), later)
  {
    HeadPrefill(m.embed, front, batch, prompt);
    PrefillTokens(m, front, back, batch, prompt, rows);
    ManyFed(m.embed, front, batch, prompt, rows);
    AppendToNothing(next);
  }

  lemma ManyFed(embed: Token -> Row, front: seq<Layer>, batch: nat, prompt: seq<Token>, rows: seq<Row>)
    requires batch > 1 && prompt != []
    requires rows == HeadRows(embed, front, Copies(batch, []), 0, Copies(batch, prompt))
    ensures Next(Store(map[], Plain(0, rows)), 0) > |prompt|
  {
    HeadLength(embed, front, batch, prompt);
    RawPrefilled(rows);
    Arithmetic.Scaled(2, batch, |prompt|);
  }

  lemma AppendToNothing(next: seq<Token>)
    ensures AppendEach(Copies(|next|, []), next) == Singles(next)
  {
    forall b | 0 <= b < |next|
      ensures AppendEach(Copies(|next|, []), next)[b] == [next[b]]
    {
      assert [] + [next[b]] == [next[b]];
    }
  }
}
