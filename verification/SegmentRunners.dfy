/** The stateful runners a remote segment service keeps between requests. */
module SegmentRunners {
  import opened Results
  import opened CausalLayers
  import opened DecodeBatch
  import opened NativeContexts
  import opened GreedyReference

  function Tokens(logits: Logits, rows: seq<Row>): seq<Token> {
    seq(|rows|, k requires 0 <= k < |rows| => ArgMax(logits(rows[k])))
  }

  /** Eats hidden rows and produces hidden rows. */
  class MiddleRunner {
    const context: NativeContext
    var pos: nat

    constructor (context: NativeContext)
      ensures this.context == context && pos == 0
    {
      this.context := context;
      pos := 0;
    }

    method Reset()
      requires context.layers != []
      modifies this, context
      ensures pos == 0 && context.Valid() && context.Fed() == map[]
    {
      pos := 0;
      context.Reset();
    }

    method RequestHidden(rows: seq<Row>) returns (r: Result<seq<Row>>)
      requires context.Valid()
      modifies this, context
      ensures context.Valid()
      ensures r.Ok? <==> Accepts(context.limits, old(context.Fed()), Plain(old(pos), rows))
      ensures r.Ok? ==> pos == old(pos) + |rows|
      ensures r.Ok? ==> context.Fed() == Store(old(context.Fed()), Plain(old(pos), rows))
      ensures r.Ok? ==> r.value == Rows(Emit(context.layers, old(context.Fed()), Plain(old(pos), rows)))
      ensures r.Err? ==> pos == old(pos) && context.Fed() == old(context.Fed())
    {
      var out :- context.Decode(Plain(pos, rows));
      pos := pos + |rows|;
      r := Ok(out);
    }

    /** Explicit sequences and positions: this runner's own position is not used or moved. */
    method RequestHiddenSeq(rows: seq<Row>, seqIds: seq<nat>, positions: seq<nat>) returns (r: Result<seq<Row>>)
      requires context.Valid()
      requires |seqIds| == |positions| == |rows|
      modifies context
      ensures context.Valid()
      ensures r.Ok? <==> Accepts(context.limits, old(context.Fed()), Bind(seqIds, positions, rows))
      ensures r.Ok? ==> context.Fed() == Store(old(context.Fed()), Bind(seqIds, positions, rows))
      ensures r.Ok? ==> r.value == Rows(Emit(context.layers, old(context.Fed()), Bind(seqIds, positions, rows)))
      ensures r.Err? ==> context.Fed() == old(context.Fed())
    {
      r := context.Decode(Bind(seqIds, positions, rows));
    }
  }

  /** Eats token ids and produces hidden rows. */
  class HeadRunner {
    const context: NativeContext
    const embed: Token -> Row
    var pos: nat

    constructor (context: NativeContext, embed: Token -> Row)
      ensures this.context == context && this.embed == embed && pos == 0
    {
      this.context, this.embed := context, embed;
      pos := 0;
    }

    method Reset()
      requires context.layers != []
      modifies this, context
      ensures pos == 0 && context.Valid() && context.Fed() == map[]
    {
      pos := 0;
      context.Reset();
    }

    method RequestHiddenFromTokens(tokens: seq<Token>) returns (r: Result<seq<Row>>)
      requires context.Valid()
      modifies this, context
      ensures context.Valid()
      ensures r.Ok? <==> Accepts(context.limits, old(context.Fed()), Plain(old(pos), TokenRows(embed, tokens)))
      ensures r.Ok? ==> pos == old(pos) + |tokens|
      ensures r.Ok? ==> context.Fed() == Store(old(context.Fed()), Plain(old(pos), TokenRows(embed, tokens)))
      ensures r.Ok? ==>
                r.value == Rows(Emit(context.layers, old(context.Fed()), Plain(old(pos), TokenRows(embed, tokens))))
      ensures r.Err? ==> pos == old(pos) && context.Fed() == old(context.Fed())
    {
      var out :- context.Decode(Plain(pos, TokenRows(embed, tokens)));
      pos := pos + |tokens|;
      r := Ok(out);
    }
  }

  /** Eats hidden rows and produces the last row's token. */
  class TailRunner {
    const context: NativeContext
    const logits: Logits
    var pos: nat

    constructor (context: NativeContext, logits: Logits)
      ensures this.context == context && this.logits == logits && pos == 0
    {
      this.context, this.logits := context, logits;
      pos := 0;
    }

    method Reset()
      requires context.layers != []
      modifies this, context
      ensures pos == 0 && context.Valid() && context.Fed() == map[]
    {
      pos := 0;
      context.Reset();
    }

    method RequestToken(rows: seq<Row>) returns (r: Result<Token>)
      requires context.Valid()
      modifies this, context
      ensures context.Valid()
      ensures r.Ok? <==> Accepts(context.limits, old(context.Fed()), Plain(old(pos), rows))
      ensures r.Ok? ==> pos == old(pos) + |rows|
      ensures r.Ok? ==> context.Fed() == Store(old(context.Fed()), Plain(old(pos), rows))
      ensures r.Ok? ==> r.value == ArgMax(logits(
                          Emit(context.layers, old(context.Fed()), Plain(old(pos), rows))[|rows| - 1].row))
      ensures r.Err? ==> pos == old(pos) && context.Fed() == old(context.Fed())
    {
      var out :- context.Decode(Plain(pos, rows));
      pos := pos + |rows|;
      r := Ok(ArgMax(logits(out[|rows| - 1])));
    }

    /** Every position's token, from one batched call. */
    method RequestTokenSeq(rows: seq<Row>, seqIds: seq<nat>, positions: seq<nat>) returns (r: Result<seq<Token>>)
      requires context.Valid()
      requires |seqIds| == |positions| == |rows|
      modifies context
      ensures context.Valid()
      ensures r.Ok? <==> Accepts(context.limits, old(context.Fed()), Bind(seqIds, positions, rows))
      ensures r.Ok? ==> context.Fed() == Store(old(context.Fed()), Bind(seqIds, positions, rows))
      ensures r.Ok? ==>
                r.value == Tokens(logits, Rows(Emit(context.layers, old(context.Fed()), Bind(seqIds, positions, rows))))
      ensures r.Err? ==> context.Fed() == old(context.Fed())
    {
      var out :- context.Decode(Bind(seqIds, positions, rows));
      r := Ok(Tokens(logits, out));
    }
  }

  /** The tail on a device without the Python engine: same requests, one row per native call. */
  class ShimTailRunner {
    const context: NativeContext
    const logits: Logits
    var pos: nat

    constructor (context: NativeContext, logits: Logits)
      ensures this.context == context && this.logits == logits && pos == 0
    {
      this.context, this.logits := context, logits;
      pos := 0;
    }

    method Reset()
      requires context.layers != []
      modifies this, context
      ensures pos == 0 && context.Valid() && context.Fed() == map[]
    {
      pos := 0;
      context.Reset();
    }

    /** One native call: the token of the last row. */
    method HiddenToToken(items: seq<Item>) returns (r: Result<Token>)
      requires context.Valid()
      modifies context
      ensures context.Valid()
      ensures r.Ok? <==> Accepts(context.limits, old(context.Fed()), items)
      ensures r.Ok? ==> context.Fed() == Store(old(context.Fed()), items)
      ensures r.Ok? ==> r.value == ArgMax(logits(Emit(context.layers, old(context.Fed()), items)[|items| - 1].row))
      ensures r.Err? ==> context.Fed() == old(context.Fed())
    {
      var out :- context.Decode(items);
      r := Ok(ArgMax(logits(out[|items| - 1])));
    }

    method RequestToken(rows: seq<Row>) returns (r: Result<Token>)
      requires context.Valid()
      modifies this, context
      ensures context.Valid()
      ensures r.Ok? <==> Accepts(context.limits, old(context.Fed()), Plain(old(pos), rows))
      ensures r.Ok? ==> pos == old(pos) + |rows|
      ensures r.Ok? ==> context.Fed() == Store(old(context.Fed()), Plain(old(pos), rows))
      ensures r.Ok? ==> r.value == ArgMax(logits(
                          Emit(context.layers, old(context.Fed()), Plain(old(pos), rows))[|rows| - 1].row))
      ensures r.Err? ==> pos == old(pos) && context.Fed() == old(context.Fed())
    {
      var token :- HiddenToToken(Plain(pos, rows));
      pos := pos + |rows|;
      r := Ok(token);
    }

    /** The row-by-row loop returns what the batched tail returns, for every mix of
        sequences, and leaves the same cache. It refuses exactly the batches whose rows
        do not all fit; unlike the batched call it has no bound on the number of rows. */
    method RequestTokenSeq(rows: seq<Row>, seqIds: seq<nat>, positions: seq<nat>) returns (r: Result<seq<Token>>)
      requires context.Valid()
      requires |seqIds| == |positions| == |rows|
      modifies context
      ensures context.Valid()
      ensures r.Ok? <==> AcceptsEach(context.limits, old(context.Fed()), Bind(seqIds, positions, rows))
      ensures r.Ok? ==> context.Fed() == Store(old(context.Fed()), Bind(seqIds, positions, rows))
      ensures r.Ok? ==>
                r.value == Tokens(logits, Rows(Emit(context.layers, old(context.Fed()), Bind(seqIds, positions, rows))))
    {
      ghost var h := context.Fed();
      ghost var items := Bind(seqIds, positions, rows);
      var out: seq<Token> := [];
      for index := 0 to |rows|
        invariant context.Valid()
        invariant AcceptsEach(context.limits, h, items[..index])
        invariant context.Fed() == Store(h, items[..index])
        invariant out == EmitTokens(context.layers, logits, h, items[..index])
      {
        AcceptsOne(context.limits, h, items, index);
        OneMoreRow(context.layers, logits, h, items, index);
        var step := HiddenToToken([Item(seqIds[index], positions[index], rows[index])]);
        if step.Err? {
          return Err;
        }
        assert EmitTokens(context.layers, logits, Store(h, items[..index]), [items[index]]) == [step.value];
        out := out + [step.value];
      }
      assert items[..|rows|] == items;
      r := Ok(out);
    }
  }

  /** Either tail: asked for one token, they answer alike. */
  datatype AnyTail = Batched(batched: TailRunner) | RowByRow(shim: ShimTailRunner) {
    function Context(): NativeContext {
      if Batched? then batched.context else shim.context
    }

    function Logits(): Logits {
      if Batched? then batched.logits else shim.logits
    }

    function Itself(): object {
      if Batched? then batched else shim
    }

    function Pos(): nat
      reads Itself()
    {
      if Batched? then batched.pos else shim.pos
    }

    method RequestToken(rows: seq<Row>) returns (r: Result<Token>)
      requires Context().Valid()
      modifies Itself(), Context()
      ensures Context().Valid()
      ensures r.Ok? <==> Accepts(Context().limits, old(Context().Fed()), Plain(old(Pos()), rows))
      ensures r.Ok? ==> Pos() == old(Pos()) + |rows|
      ensures r.Ok? ==> Context().Fed() == Store(old(Context().Fed()), Plain(old(Pos()), rows))
      ensures r.Ok? ==> r.value == ArgMax(Logits()(
                          Emit(Context().layers, old(Context().Fed()), Plain(old(Pos()), rows))[|rows| - 1].row))
      ensures r.Err? ==> Pos() == old(Pos()) && Context().Fed() == old(Context().Fed())
    {
      if Batched? {
        r := batched.RequestToken(rows);
      } else {
        r := shim.RequestToken(rows);
      }
    }
  }

  /** Every row in turn can be decoded on its own. */
  predicate AcceptsEach(lim: Limits, h: History, items: seq<Item>) {
    && (items == [] || 1 <= lim.nBatch)
    && (forall k :: 0 <= k < |items| ==> items[k].seqId < lim.nSeqMax && items[k].pos < lim.ctxPerSeq)
    && Fits(h, items)
  }

  function EmitTokens(layers: seq<Layer>, logits: Logits, h: History, items: seq<Item>): seq<Token> {
    Tokens(logits, Rows(Emit(layers, h, items)))
  }

  lemma AcceptsOne(lim: Limits, h: History, items: seq<Item>, index: nat)
    requires index < |items| && AcceptsEach(lim, h, items[..index])
    ensures AcceptsEach(lim, h, items[..index + 1])
       <==> Accepts(lim, Store(h, items[..index]), [items[index]])
    ensures AcceptsEach(lim, h, items) ==> AcceptsEach(lim, h, items[..index + 1])
  {
    var a, x := items[..index], items[index];
    StoreSplit(h, a, [x]);
    StoreSplit(h, a + [x], items[index + 1..]);
    assert items[..index + 1] == a + [x];
    assert items == a + [x] + items[index + 1..];
    assert (a + [x])[index] == x && [x][0] == x;
    assert forall k :: 0 <= k < index ==> (a + [x])[k] == a[k];
  }

  lemma EmitTokensSplit(layers: seq<Layer>, logits: Logits, h: History, a: seq<Item>, b: seq<Item>)
    ensures EmitTokens(layers, logits, h, a + b)
         == EmitTokens(layers, logits, h, a) + EmitTokens(layers, logits, Store(h, a), b)
  {
    EmitSplit(layers, h, a, b);
  }

  /** What the row-by-row loop gains from one more native call. */
  lemma OneMoreRow(layers: seq<Layer>, logits: Logits, h: History, items: seq<Item>, index: nat)
    requires index < |items|
    ensures Store(h, items[..index + 1]) == Store(Store(h, items[..index]), [items[index]])
    ensures EmitTokens(layers, logits, h, items[..index + 1])
         == EmitTokens(layers, logits, h, items[..index])
          + EmitTokens(layers, logits, Store(h, items[..index]), [items[index]])
  {
    var a, x := items[..index], items[index];
    assert items[..index + 1] == a + [x];
    StoreSplit(h, a, [x]);
    EmitTokensSplit(layers, logits, h, a, [x]);
  }
}
