/** The all-native relay: head, optional middle and tail runners driven over relay
    connections, the layer-coverage check, and the verdict against the whole model. */
module L2LProbe {
  import opened Results
  import opened CausalLayers
  import opened DecodeBatch
  import opened NativeContexts
  import opened GreedyReference
  import opened SegmentRunners
  import opened BatchLayout
  import opened RelayDriver

  // ---- layer coverage ----

  /** A command-line layer count: not given, not a number, or a number. */
  datatype Number = Absent | NotANumber | Number(n: int)

  /** The declared middle range: not given, or two texts that are digits or are not. */
  datatype MidText = NoMid | MidText(left: Option<nat>, right: Option<nat>)

  datatype Status = Verified | Invalid | Unverified

  datatype Spec = Spec(head: Number, mid: MidText, hasMiddle: bool, tailStart: Option<int>, total: Option<int>)

  datatype Span = Span(lo: int, hi: int)

  function ParseMid(mid: MidText): Option<Span> {
    match mid
    case NoMid => None
    case MidText(left, right) =>
      if left.None? || right.None? then None
      else if left.value < right.value then Some(Span(left.value, right.value)) else None
  }

  function LayerCoverage(s: Spec): Status {
    if s.head.Absent? || s.tailStart.None? || s.total.None? || s.total.value == 0 then Unverified
    else if s.head.NotANumber? then Unverified
    else if s.mid.MidText? && ParseMid(s.mid).None? then Unverified
    else
      var headEnd, tailStart, total := s.head.n, s.tailStart.value, s.total.value;
      if s.hasMiddle then
        if ParseMid(s.mid).None? then Unverified
        else
          var mid := ParseMid(s.mid).value;
          if headEnd != mid.lo then Invalid
          else if mid.hi != tailStart then Invalid
          else if !(0 < headEnd < total) || !(mid.hi < total) then Invalid
          else Verified
      else if headEnd != tailStart then Invalid
      else if !(0 < headEnd < total) then Invalid
      else Verified
  }

  /** The segments a complete declaration describes. */
  function Declared(s: Spec): Option<seq<Span>> {
    if LayerCoverage(s).Unverified? then None
    else
      var first, last := Span(0, s.head.n), Span(s.tailStart.value, s.total.value);
      Some(if s.hasMiddle then [first, ParseMid(s.mid).value, last] else [first, last])
  }

  predicate Covers(span: Span, layer: int) {
    span.lo <= layer < span.hi
  }

  ghost predicate Held(spans: seq<Span>, layer: int) {
    exists i :: 0 <= i < |spans| && Covers(spans[i], layer)
  }

  /** Every segment holds a layer, none holds one outside the model, and every layer of the
      model is held by exactly one segment. */
  ghost predicate ExactCover(spans: seq<Span>, total: int) {
    && (forall i :: 0 <= i < |spans| ==> 0 <= spans[i].lo < spans[i].hi <= total)
    && (forall layer :: 0 <= layer < total ==> Held(spans, layer))
    && (forall i, j, layer :: 0 <= i < j < |spans| ==> !(Covers(spans[i], layer) && Covers(spans[j], layer)))
  }

  /** The check says verified exactly when the declaration is complete and is an exact cover. */
  lemma CoverageIsExact(s: Spec)
    ensures LayerCoverage(s) == Verified <==> Declared(s).Some? && ExactCover(Declared(s).value, s.total.value)
  {
    if Declared(s).Some? {
      var spans, total := Declared(s).value, s.total.value;
      if LayerCoverage(s) == Verified {
        forall layer | 0 <= layer < total ensures Held(spans, layer) {
          assert Covers(spans[0], layer) || Covers(spans[1], layer) || Covers(spans[|spans| - 1], layer);
        }
      } else if ExactCover(spans, total) {
        ExactCoverAdjoins(spans, total);
      }
    }
  }

  lemma ExactCoverAdjoins(spans: seq<Span>, total: int)
    requires 2 <= |spans| <= 3 && ExactCover(spans, total)
    requires spans[0].lo == 0 && spans[|spans| - 1].hi == total
    ensures forall i :: 0 <= i < |spans| - 1 ==> spans[i].hi == spans[i + 1].lo
  {
    var n := |spans|;
    var a, d := spans[0].hi, spans[n - 1].lo;
    // no overlap: each start lies at or after the end before it
    assert Covers(spans[n - 1], d) && !Covers(spans[0], d);
    assert Held(spans, a);
    if n == 3 {
      var b, c := spans[1].lo, spans[1].hi;
      assert Covers(spans[1], b) && !Covers(spans[0], b);
      var top := if b < d then d else b;
      assert !(Covers(spans[1], top) && Covers(spans[2], top));
      // no gap: the layer at each end is held by a later segment
      assert c <= d && Held(spans, c);
    }
  }

  /** Artifacts that hold the layers they are declared to hold make up the whole model. */
  lemma VerifiedIsWhole(s: Spec, whole: seq<Layer>, head: seq<Layer>, middle: seq<Layer>, tail: seq<Layer>)
    requires LayerCoverage(s) == Verified && s.total.value == |whole|
    requires head == whole[..s.head.n]
    requires tail == whole[s.tailStart.value..]
    requires if s.hasMiddle then middle == whole[ParseMid(s.mid).value.lo..ParseMid(s.mid).value.hi] else middle == []
    ensures head + middle + tail == whole
  {
  }

  // ---- the generation loop ----

  /** What a segment behind `front` has been fed, and the count of rows, when the pipeline has
      consumed the context. */
  ghost predicate FedAs(h: History, count: nat, embed: Token -> Row, front: seq<Layer>, ctx: seq<Token>) {
    h == StackAll(front, FedWith(embed, [ctx])) && count == |ctx|
  }

  /** A runner has consumed the context and counts its rows. */
  ghost predicate RunnerAt(context: NativeContext, count: nat, embed: Token -> Row, front: seq<Layer>, ctx: seq<Token>)
    reads context
  {
    context.Valid() && FedAs(context.Fed(), count, embed, front, ctx)
  }

  /** The rows of a step as they enter the pipeline. */
  function Entering(embed: Token -> Row, prompt: seq<Token>, tokens: seq<Token>): seq<Item> {
    Plain(|ContextBefore(prompt, tokens)|, TokenRows(embed, FedAt(prompt, tokens)))
  }

  function Before(embed: Token -> Row, prompt: seq<Token>, tokens: seq<Token>): History {
    FedWith(embed, [ContextBefore(prompt, tokens)])
  }

  lemma StepLimits(lim: Limits, prompt: seq<Token>, tokens: seq<Token>, token: Token)
    ensures var ctx, toks := ContextBefore(prompt, tokens), FedAt(prompt, tokens);
            && |ctx| + |toks| == |ContextBefore(prompt, tokens + [token])|
            && (CanStep(lim, 1, |prompt|, |tokens|)
                <==> |toks| <= lim.nBatch && 1 <= lim.nSeqMax && |ctx| + |toks| <= lim.ctxPerSeq)
  {
  }

  /** What a segment behind `front` is sent is what `front` emits, at its places. */
  lemma HopGiven(embed: Token -> Row, front: seq<Layer>, ctx: seq<Token>, toks: seq<Token>, rows: seq<Row>)
    requires rows == Rows(Emit(front, FedWith(embed, [ctx]), Plain(|ctx|, TokenRows(embed, toks))))
    ensures |rows| == |toks|
    ensures Plain(|ctx|, rows) == Emit(front, FedWith(embed, [ctx]), Plain(|ctx|, TokenRows(embed, toks)))
  {
    RePlain(|ctx|, TokenRows(embed, toks), front, FedWith(embed, [ctx]));
  }

  lemma HopLimits(embed: Token -> Row, front: seq<Layer>, lim: Limits, ctx: seq<Token>, toks: seq<Token>)
    requires toks != []
    ensures var h, items := FedWith(embed, [ctx]), Plain(|ctx|, TokenRows(embed, toks));
            Accepts(lim, StackAll(front, h), Emit(front, h, items))
            <==> |toks| <= lim.nBatch && 1 <= lim.nSeqMax && |ctx| + |toks| <= lim.ctxPerSeq
  {
    AcceptsThrough(lim, front, FedWith(embed, [ctx]), Plain(|ctx|, TokenRows(embed, toks)));
    SingleStep(embed, [], lim, ctx, toks);
  }

  lemma HopStores(embed: Token -> Row, front: seq<Layer>, ctx: seq<Token>, toks: seq<Token>)
    requires toks != []
    ensures var h, items := FedWith(embed, [ctx]), Plain(|ctx|, TokenRows(embed, toks));
            Store(StackAll(front, h), Emit(front, h, items)) == StackAll(front, FedWith(embed, [ctx + toks]))
  {
    EmitConcat(front, [], FedWith(embed, [ctx]), Plain(|ctx|, TokenRows(embed, toks)));
    SingleStep(embed, [], Limits(0, 0, 0), ctx, toks);
  }

  /** The payload between two segments: what the ones in front emit of a step's rows. */
  ghost predicate Carries(rows: seq<Row>, embed: Token -> Row, front: seq<Layer>, prompt: seq<Token>,
                          tokens: seq<Token>)
  {
    rows == Rows(Emit(front, Before(embed, prompt, tokens), Entering(embed, prompt, tokens)))
  }

  lemma HopAccepts(embed: Token -> Row, front: seq<Layer>, lim: Limits, prompt: seq<Token>, tokens: seq<Token>,
                   h: History, count: nat, rows: seq<Row>)
    requires prompt != [] && FedAs(h, count, embed, front, ContextBefore(prompt, tokens))
    requires Carries(rows, embed, front, prompt, tokens)
    ensures |rows| == |FedAt(prompt, tokens)| > 0
    ensures Accepts(lim, h, Plain(count, rows)) <==> CanStep(lim, 1, |prompt|, |tokens|)
  {
    HopGiven(embed, front, ContextBefore(prompt, tokens), FedAt(prompt, tokens), rows);
    HopLimits(embed, front, lim, ContextBefore(prompt, tokens), FedAt(prompt, tokens));
    StepLimits(lim, prompt, tokens, 0);
  }

  lemma HopFeeds(embed: Token -> Row, front: seq<Layer>, prompt: seq<Token>, tokens: seq<Token>, token: Token,
                 h: History, count: nat, rows: seq<Row>, fed: History, after: nat)
    requires prompt != [] && FedAs(h, count, embed, front, ContextBefore(prompt, tokens))
    requires Carries(rows, embed, front, prompt, tokens)
    requires fed == Store(h, Plain(count, rows)) && after == count + |rows|
    ensures FedAs(fed, after, embed, front, ContextBefore(prompt, tokens + [token]))
  {
    HopGiven(embed, front, ContextBefore(prompt, tokens), FedAt(prompt, tokens), rows);
    HopStores(embed, front, ContextBefore(prompt, tokens), FedAt(prompt, tokens));
    StepLimits(Limits(0, 0, 0), prompt, tokens, token);
    ContextSplits(prompt, tokens, token);
  }

  lemma HopCarries(embed: Token -> Row, front: seq<Layer>, own: seq<Layer>, prompt: seq<Token>, tokens: seq<Token>,
                   h: History, count: nat, rows: seq<Row>, out: seq<Row>)
    requires prompt != [] && FedAs(h, count, embed, front, ContextBefore(prompt, tokens))
    requires Carries(rows, embed, front, prompt, tokens) && out == Rows(Emit(own, h, Plain(count, rows)))
    ensures Carries(out, embed, front + own, prompt, tokens)
  {
    HopGiven(embed, front, ContextBefore(prompt, tokens), FedAt(prompt, tokens), rows);
    EmitConcat(front, own, Before(embed, prompt, tokens), Entering(embed, prompt, tokens));
  }

  lemma EnteringCarries(embed: Token -> Row, prompt: seq<Token>, tokens: seq<Token>, rows: seq<Row>)
    requires rows == TokenRows(embed, FedAt(prompt, tokens))
    ensures Carries(rows, embed, [], prompt, tokens)
  {
    EmitNothing(Before(embed, prompt, tokens), Entering(embed, prompt, tokens));
  }

  /** Out of the tail comes the next greedy token. */
  lemma TailToken(embed: Token -> Row, front: seq<Layer>, own: seq<Layer>, logits: Logits, prompt: seq<Token>,
                  tokens: seq<Token>, h: History, count: nat, rows: seq<Row>, token: Token)
    requires prompt != [] && FedAs(h, count, embed, front, ContextBefore(prompt, tokens))
    requires Carries(rows, embed, front, prompt, tokens) && rows != []
    requires token == ArgMax(logits(Emit(own, h, Plain(count, rows))[|rows| - 1].row))
    ensures token == NextToken(Model(embed, front + own, logits), prompt + tokens)
  {
    var ctx, toks := ContextBefore(prompt, tokens), FedAt(prompt, tokens);
    HopGiven(embed, front, ctx, toks, rows);
    EmitConcat(front, own, Before(embed, prompt, tokens), Entering(embed, prompt, tokens));
    SingleStep(embed, front + own, Limits(0, 0, 0), ctx, toks);
    ContextSplits(prompt, tokens, token);
  }

  /** A head behind an endpoint uses its own position, one in this process the driver's. */
  method CallHead(head: HeadRunner, remote: bool, toks: seq<Token>, pos: nat, ghost count: nat)
    returns (r: Result<seq<Row>>)
    requires head.context.Valid() && count == if remote then head.pos else pos
    modifies head, head.context
    ensures head.context.Valid()
    ensures r.Ok? <==> Accepts(head.context.limits, old(head.context.Fed()), Plain(count, TokenRows(head.embed, toks)))
    ensures r.Ok? ==> head.context.Fed() == Store(old(head.context.Fed()), Plain(count, TokenRows(head.embed, toks)))
    ensures r.Ok? ==>
              r.value == Rows(Emit(head.context.layers, old(head.context.Fed()),
                                   Plain(count, TokenRows(head.embed, toks))))
    ensures r.Ok? ==> |r.value| == |toks|
    ensures r.Ok? && remote ==> head.pos == count + |toks|
  {
    if remote {
      r := head.RequestHiddenFromTokens(toks);
    } else {
      r := head.context.Decode(Plain(pos, TokenRows(head.embed, toks)));
    }
  }

  lemma HeadAccepts(embed: Token -> Row, lim: Limits, prompt: seq<Token>, tokens: seq<Token>, h: History, count: nat,
                    rows: seq<Row>)
    requires rows == TokenRows(embed, FedAt(prompt, tokens)) && (prompt == [] ==> tokens == [])
    requires FedAs(h, count, embed, [], ContextBefore(prompt, tokens))
    ensures Accepts(lim, h, Plain(count, rows)) <==> prompt != [] && CanStep(lim, 1, |prompt|, |tokens|)
  {
    EnteringCarries(embed, prompt, tokens, rows);
    if prompt == [] {
      assert Plain(count, rows) == [];
    } else {
      HopAccepts(embed, [], lim, prompt, tokens, h, count, rows);
    }
  }

  lemma HeadDone(embed: Token -> Row, own: seq<Layer>, prompt: seq<Token>, tokens: seq<Token>, token: Token,
                 h: History, count: nat, rows: seq<Row>, out: seq<Row>, fed: History, after: nat)
    requires prompt != [] && rows == TokenRows(embed, FedAt(prompt, tokens))
    requires FedAs(h, count, embed, [], ContextBefore(prompt, tokens))
    requires out == Rows(Emit(own, h, Plain(count, rows))) && fed == Store(h, Plain(count, rows))
               && after == count + |rows|
    ensures Carries(out, embed, own, prompt, tokens) && |out| == |rows|
    ensures FedAs(fed, after, embed, [], ContextBefore(prompt, tokens + [token]))
  {
    assert [] + own == own;
    EnteringCarries(embed, prompt, tokens, rows);
    HopCarries(embed, [], own, prompt, tokens, h, count, rows, out);
    HopFeeds(embed, [], prompt, tokens, token, h, count, rows, fed, after);
  }

  /** The head hop. */
  method HeadHop(head: HeadRunner, remote: bool, toks: seq<Token>, pos: nat,
                 ghost prompt: seq<Token>, ghost tokens: seq<Token>, ghost token: Token) returns (r: Result<seq<Row>>)
    requires toks == FedAt(prompt, tokens) && pos == |ContextBefore(prompt, tokens)|
    requires RunnerAt(head.context, if remote then head.pos else pos, head.embed, [], ContextBefore(prompt, tokens))
    requires prompt == [] ==> tokens == []
    modifies head, head.context
    ensures r.Ok? <==> prompt != [] && CanStep(head.context.limits, 1, |prompt|, |tokens|)
    ensures r.Ok? ==> Carries(r.value, head.embed, head.context.layers, prompt, tokens)
    ensures r.Ok? ==> RunnerAt(head.context, if remote then head.pos else pos + |r.value|,
                               head.embed, [], ContextBefore(prompt, tokens + [token]))
  {
    ghost var h, rows := head.context.Fed(), TokenRows(head.embed, toks);
    ghost var count: nat := if remote then head.pos else pos;
    HeadAccepts(head.embed, head.context.limits, prompt, tokens, h, count, rows);
    r := CallHead(head, remote, toks, pos, count);
    if r.Ok? {
      HeadDone(head.embed, head.context.layers, prompt, tokens, token, h, count, rows, r.value, head.context.Fed(),
        if remote then head.pos else pos + |r.value|);
    }
  }

  method MiddleHop(middle: MiddleRunner, rows: seq<Row>, ghost embed: Token -> Row, ghost front: seq<Layer>,
                   ghost prompt: seq<Token>, ghost tokens: seq<Token>, ghost token: Token) returns (r: Result<seq<Row>>)
    requires prompt != [] && Carries(rows, embed, front, prompt, tokens)
    requires RunnerAt(middle.context, middle.pos, embed, front, ContextBefore(prompt, tokens))
    modifies middle, middle.context
    ensures r.Ok? <==> CanStep(middle.context.limits, 1, |prompt|, |tokens|)
    ensures r.Ok? ==> Carries(r.value, embed, front + middle.context.layers, prompt, tokens)
    ensures r.Ok? ==> RunnerAt(middle.context, middle.pos, embed, front, ContextBefore(prompt, tokens + [token]))
  {
    ghost var h, count := middle.context.Fed(), middle.pos;
    HopAccepts(embed, front, middle.context.limits, prompt, tokens, h, count, rows);
    r := middle.RequestHidden(rows);
    if r.Ok? {
      HopCarries(embed, front, middle.context.layers, prompt, tokens, h, count, rows, r.value);
      HopFeeds(embed, front, prompt, tokens, token, h, count, rows, middle.context.Fed(), middle.pos);
    }
  }

  method TailHop(tail: AnyTail, rows: seq<Row>, ghost embed: Token -> Row, ghost front: seq<Layer>,
                 ghost prompt: seq<Token>, ghost tokens: seq<Token>, ghost token: Token) returns (r: Result<Token>)
    requires prompt != [] && Carries(rows, embed, front, prompt, tokens)
    requires RunnerAt(tail.Context(), tail.Pos(), embed, front, ContextBefore(prompt, tokens))
    modifies tail.Itself(), tail.Context()
    ensures r.Ok? <==> CanStep(tail.Context().limits, 1, |prompt|, |tokens|)
    ensures r.Ok? ==> r.value == NextToken(Model(embed, front + tail.Context().layers, tail.Logits()), prompt + tokens)
    ensures r.Ok? ==> RunnerAt(tail.Context(), tail.Pos(), embed, front, ContextBefore(prompt, tokens + [token]))
  {
    ghost var h, count := tail.Context().Fed(), tail.Pos();
    HopAccepts(embed, front, tail.Context().limits, prompt, tokens, h, count, rows);
    r := tail.RequestToken(rows);
    if r.Ok? {
      TailToken(embed, front, tail.Context().layers, tail.Logits(), prompt, tokens, h, count, rows, r.value);
      HopFeeds(embed, front, prompt, tokens, token, h, count, rows, tail.Context().Fed(), tail.Pos());
    }
  }

  function MiddleLayers(middle: MiddleRunner?): seq<Layer> {
    if middle == null then [] else middle.context.layers
  }

  function ProbedModel(head: HeadRunner, middle: MiddleRunner?, tail: AnyTail): Model {
    Model(head.embed, head.context.layers + MiddleLayers(middle) + tail.Context().layers, tail.Logits())
  }

  ghost predicate Distinct(head: HeadRunner, middle: MiddleRunner?, tail: AnyTail) {
    && head.context != tail.Context()
    && (middle != null ==> middle.context != head.context && middle.context != tail.Context())
  }

  /** The objects in front of the tail. */
  function FrontSet(head: HeadRunner, middle: MiddleRunner?): set<object> {
    {head, head.context} + if middle == null then {} else {middle, middle.context}
  }

  lemma TailApart(head: HeadRunner, middle: MiddleRunner?, tail: AnyTail)
    requires Distinct(head, middle, tail)
    ensures tail.Itself() !in FrontSet(head, middle) && tail.Context() !in FrontSet(head, middle)
    ensures tail.Itself() != tail.Context()
  {
  }

  /** The head and the middle have consumed the context the driver is at, and a runner that
      counts its own rows counts to the driver's position. */
  ghost predicate FrontAt(head: HeadRunner, headRemote: bool, middle: MiddleRunner?, pos: nat, ctx: seq<Token>)
    reads FrontSet(head, middle)
  {
    && pos == |ctx|
    && RunnerAt(head.context, if headRemote then head.pos else pos, head.embed, [], ctx)
    && (middle != null ==> RunnerAt(middle.context, middle.pos, head.embed, head.context.layers, ctx))
  }

  /** And so has the tail. */
  ghost predicate AllAt(head: HeadRunner, headRemote: bool, middle: MiddleRunner?, tail: AnyTail, pos: nat,
                        ctx: seq<Token>)
    reads FrontSet(head, middle), tail.Itself(), tail.Context()
  {
    && FrontAt(head, headRemote, middle, pos, ctx)
    && RunnerAt(tail.Context(), tail.Pos(), head.embed, head.context.layers + MiddleLayers(middle), ctx)
  }

  predicate ProbeCanStep(head: HeadRunner, middle: MiddleRunner?, tail: AnyTail, promptLen: nat, step: nat) {
    && CanStep(head.context.limits, 1, promptLen, step)
    && (middle != null ==> CanStep(middle.context.limits, 1, promptLen, step))
    && CanStep(tail.Context().limits, 1, promptLen, step)
  }

  predicate ProbeCanRun(head: HeadRunner, middle: MiddleRunner?, tail: AnyTail, promptLen: nat, gen: nat) {
    && CanRun(head.context.limits, 1, promptLen, gen)
    && (middle != null ==> CanRun(middle.context.limits, 1, promptLen, gen))
    && CanRun(tail.Context().limits, 1, promptLen, gen)
  }

  predicate ProbeCanStepUpTo(head: HeadRunner, middle: MiddleRunner?, tail: AnyTail, promptLen: nat, gen: nat) {
    forall step: nat :: step < gen ==> ProbeCanStep(head, middle, tail, promptLen, step)
  }

  lemma ProbeRunIsSteps(head: HeadRunner, middle: MiddleRunner?, tail: AnyTail, promptLen: nat, gen: nat)
    requires promptLen > 0
    ensures ProbeCanRun(head, middle, tail, promptLen, gen) <==> ProbeCanStepUpTo(head, middle, tail, promptLen, gen)
  {
    RunIsSteps(head.context.limits, 1, promptLen, gen);
    RunIsSteps(tail.Context().limits, 1, promptLen, gen);
    if middle != null {
      RunIsSteps(middle.context.limits, 1, promptLen, gen);
    }
    if ProbeCanStepUpTo(head, middle, tail, promptLen, gen) {
      forall step: nat | step < gen
        ensures CanStep(head.context.limits, 1, promptLen, step) && CanStep(tail.Context().limits, 1, promptLen, step)
        ensures middle != null ==> CanStep(middle.context.limits, 1, promptLen, step)
      {
        assert ProbeCanStep(head, middle, tail, promptLen, step);
      }
    }
  }

  /** The hops in front of the tail. */
  method FrontHops(head: HeadRunner, headRemote: bool, middle: MiddleRunner?, toks: seq<Token>, pos: nat,
                   ghost prompt: seq<Token>, ghost tokens: seq<Token>, ghost token: Token)
    returns (r: Result<(seq<Row>, nat)>)
    requires toks == FedAt(prompt, tokens) && (prompt == [] ==> tokens == [])
    requires middle != null ==> middle.context != head.context
    requires FrontAt(head, headRemote, middle, pos, ContextBefore(prompt, tokens))
    modifies FrontSet(head, middle)
    ensures r.Ok? <==> prompt != [] && CanStep(head.context.limits, 1, |prompt|, |tokens|)
                       && (middle != null ==> CanStep(middle.context.limits, 1, |prompt|, |tokens|))
    ensures r.Ok? ==> Carries(r.value.0, head.embed, head.context.layers + MiddleLayers(middle), prompt, tokens)
    ensures r.Ok? ==> FrontAt(head, headRemote, middle, pos + r.value.1, ContextBefore(prompt, tokens + [token]))
  {
    ghost var first := head.context.layers;
    var payload :- HeadHop(head, headRemote, toks, pos, prompt, tokens, token);
    var nTok := |payload|;
    StepLimits(head.context.limits, prompt, tokens, token);
    if middle == null {
      assert first + [] == first;
    } else {
      payload :- MiddleHop(middle, payload, head.embed, first, prompt, tokens, token);
    }
    r := Ok((payload, nTok));
  }

  method ProbeStep(head: HeadRunner, headRemote: bool, middle: MiddleRunner?, tail: AnyTail, toks: seq<Token>,
                   pos: nat, ghost prompt: seq<Token>, ghost tokens: seq<Token>, ghost token: Token)
    returns (r: Result<(Token, nat)>)
    requires Distinct(head, middle, tail) && toks == FedAt(prompt, tokens) && (prompt == [] ==> tokens == [])
    requires AllAt(head, headRemote, middle, tail, pos, ContextBefore(prompt, tokens))
    modifies FrontSet(head, middle), tail.Itself(), tail.Context()
    ensures r.Ok? <==> prompt != [] && ProbeCanStep(head, middle, tail, |prompt|, |tokens|)
    ensures r.Ok? ==> r.value.0 == NextToken(ProbedModel(head, middle, tail), prompt + tokens)
    ensures r.Ok? ==> AllAt(head, headRemote, middle, tail, pos + r.value.1, ContextBefore(prompt, tokens + [token]))
  {
    TailApart(head, middle, tail);
    var front :- FrontHops(head, headRemote, middle, toks, pos, prompt, tokens, token);
    var next :- TailHop(tail, front.0, head.embed, head.context.layers + MiddleLayers(middle), prompt, tokens, token);
    r := Ok((next, front.1));
  }

  /** The generation loop. The chain emits exactly the greedy tokens of the model its segments
      make up, or it fails, and it fails exactly when some segment's context is too small. The
      driver's position is every counting runner's own position at the end as at every step. */
  method Probe(head: HeadRunner, headRemote: bool, middle: MiddleRunner?, tail: AnyTail, prompt: seq<Token>,
               gen: nat)
    returns (r: Result<seq<Token>>, pos: nat)
    requires Distinct(head, middle, tail) && AllAt(head, headRemote, middle, tail, 0, [])
    modifies FrontSet(head, middle), tail.Itself(), tail.Context()
    ensures r.Ok? <==> ProbeCanRun(head, middle, tail, |prompt|, gen)
    ensures gen == 0 ==> r == Ok([])
    ensures r.Ok? && gen > 0 ==> prompt != [] && r.value == Greedy(ProbedModel(head, middle, tail), prompt, gen)
    ensures r.Ok? ==> (headRemote ==> head.pos == pos) && (middle != null ==> middle.pos == pos) && tail.Pos() == pos
    ensures r.Ok? && gen > 0 ==> pos == |prompt| + gen - 1
  {
    if prompt != [] {
      ProbeRunIsSteps(head, middle, tail, |prompt|, gen);
    }
    r, pos := ProbeLoop(head, headRemote, middle, tail, prompt, gen);
  }

  method ProbeNext(head: HeadRunner, headRemote: bool, middle: MiddleRunner?, tail: AnyTail, prompt: seq<Token>,
                   tokens: seq<Token>, pos: nat) returns (r: Result<seq<Token>>, nTok: nat)
    requires Distinct(head, middle, tail) && (prompt == [] ==> tokens == [])
    requires AllAt(head, headRemote, middle, tail, pos, ContextBefore(prompt, tokens))
    requires tokens == GreedyOr(ProbedModel(head, middle, tail), prompt, |tokens|)
    modifies FrontSet(head, middle), tail.Itself(), tail.Context()
    ensures r.Ok? <==> prompt != [] && ProbeCanStep(head, middle, tail, |prompt|, |tokens|)
    ensures r.Ok? ==> AllAt(head, headRemote, middle, tail, pos + nTok, ContextBefore(prompt, r.value))
    ensures r.Ok? ==> r.value == GreedyOr(ProbedModel(head, middle, tail), prompt, |tokens| + 1)
  {
    nTok := 0;
    var toks := if tokens == [] then prompt else [tokens[|tokens| - 1]];
    ghost var m := ProbedModel(head, middle, tail);
    ghost var token := NextTokenOr(m, prompt + tokens);
    var res := ProbeStep(head, headRemote, middle, tail, toks, pos, prompt, tokens, token);
    if res.Err? {
      return Err, nTok;
    }
    GreedyNext(m, prompt, |tokens|);
    assert res.value.0 == token;
    return Ok(tokens + [res.value.0]), res.value.1;
  }

  lemma UpToNext(head: HeadRunner, middle: MiddleRunner?, tail: AnyTail, promptLen: nat, step: nat, gen: nat)
    requires ProbeCanStepUpTo(head, middle, tail, promptLen, step) && step < gen
    ensures ProbeCanStep(head, middle, tail, promptLen, step) ==>
              ProbeCanStepUpTo(head, middle, tail, promptLen, step + 1)
    ensures !ProbeCanStep(head, middle, tail, promptLen, step) ==> !ProbeCanStepUpTo(head, middle, tail, promptLen, gen)
  {
  }

  method ProbeLoop(head: HeadRunner, headRemote: bool, middle: MiddleRunner?, tail: AnyTail, prompt: seq<Token>,
                   gen: nat)
    returns (r: Result<seq<Token>>, pos: nat)
    requires Distinct(head, middle, tail) && AllAt(head, headRemote, middle, tail, 0, [])
    modifies FrontSet(head, middle), tail.Itself(), tail.Context()
    ensures r.Ok? ==> gen == 0 || (prompt != [] && ProbeCanStepUpTo(head, middle, tail, |prompt|, gen))
    ensures r.Err? ==> gen > 0 && (prompt == [] || !ProbeCanStepUpTo(head, middle, tail, |prompt|, gen))
    ensures r.Ok? ==> r.value == GreedyOr(ProbedModel(head, middle, tail), prompt, gen)
    ensures r.Ok? ==> AllAt(head, headRemote, middle, tail, pos, ContextBefore(prompt, r.value))
  {
    var tokens: seq<Token> := [];
    pos := 0;
    TailApart(head, middle, tail);
    for step := 0 to gen
      invariant |tokens| == step && (prompt == [] ==> step == 0)
      invariant tokens == GreedyOr(ProbedModel(head, middle, tail), prompt, step)
      invariant AllAt(head, headRemote, middle, tail, pos, ContextBefore(prompt, tokens))
      invariant ProbeCanStepUpTo(head, middle, tail, |prompt|, step)
    {
      UpToNext(head, middle, tail, |prompt|, step, gen);
      var next, nTok := ProbeNext(head, headRemote, middle, tail, prompt, tokens, pos);
      if next.Err? {
        return Err, pos;
      }
      tokens, pos := next.value, pos + nTok;
    }
    r := Ok(tokens);
  }

  /** The probe's verdict: the relayed tokens are compared with the whole model's. When the
      coverage check says verified and the artifacts hold what they are declared to hold,
      a run that completes on both sides always passes. */
  method Compare(s: Spec, whole: Model, wholeContext: NativeContext, head: HeadRunner, headRemote: bool,
                 middle: MiddleRunner?, tail: AnyTail, prompt: seq<Token>, gen: nat) returns (passed: Result<bool>)
    requires wholeContext.Valid() && wholeContext.Fed() == map[] && wholeContext.layers == whole.layers
    requires Distinct(head, middle, tail) && AllAt(head, headRemote, middle, tail, 0, [])
    requires wholeContext != head.context && wholeContext != tail.Context()
    requires middle != null ==> wholeContext != middle.context
    modifies wholeContext, FrontSet(head, middle), tail.Itself(), tail.Context()
    ensures passed.Ok?
       <==> CanRun(wholeContext.limits, 1, |prompt|, gen) && ProbeCanRun(head, middle, tail, |prompt|, gen)
    ensures
      && LayerCoverage(s) == Verified && s.total.value == |whole.layers| && (s.hasMiddle <==> middle != null)
      && HoldsDeclared(s, whole, head, middle, tail) && passed.Ok?
      ==> passed.value
  {
    var baseline :- BaselineTokens(whole, wholeContext, prompt, gen);
    var relayed, _ := Probe(head, headRemote, middle, tail, prompt, gen);
    if relayed.Err? {
      return Err;
    }
    if LayerCoverage(s) == Verified && s.total.value == |whole.layers| && (s.hasMiddle <==> middle != null) {
      if HoldsDeclared(s, whole, head, middle, tail) {
        VerifiedIsWhole(s, whole.layers, head.context.layers, MiddleLayers(middle), tail.Context().layers);
      }
    }
    passed := Ok(relayed.value == baseline);
  }

  /** Every artifact holds the layers its declaration names, and the ends of the whole model. */
  ghost predicate HoldsDeclared(s: Spec, whole: Model, head: HeadRunner, middle: MiddleRunner?, tail: AnyTail)
    requires LayerCoverage(s) == Verified && s.total.value == |whole.layers| && (s.hasMiddle <==> middle != null)
  {
    && head.embed == whole.embed && tail.Logits() == whole.logits
    && head.context.layers == whole.layers[..s.head.n]
    && tail.Context().layers == whole.layers[s.tailStart.value..]
    && (middle != null ==>
          var mid := ParseMid(s.mid).value;
          middle.context.layers == whole.layers[mid.lo..mid.hi])
  }
}
