/** The edge bench: one sample of a segment, prefilled in chunks and then decoded row by row. */
module EdgeBench {
  import opened Results
  import opened CausalLayers
  import opened DecodeBatch
  import opened NativeContexts
  import opened SegmentRunners
  import opened RelaySession
  import opened SessionMeaning

  /** What a sample feeds: a head gets one token over and over, the others the given rows. */
  function BenchInputs(role: Role, token: Token, hidden: seq<Row>, n: nat): (rows: seq<Row>)
    requires role.HeadRole? || |hidden| == n
    ensures |rows| == n
  {
    if role.HeadRole? then seq(n, _ => role.embed(token)) else hidden
  }

  /** What decode steps put out: rows, or for a tail the token of each. */
  function StepOutputs(role: Role, rows: seq<Row>): Payload {
    if role.MakesRows() then HiddenRows(rows) else TokenList(Tokens(role.logits, rows))
  }

  predicate BenchFits(lim: Limits, rows: nat) {
    lim.nBatch > 0 && lim.nSeqMax > 0 && rows <= lim.ctxPerSeq
  }

  /** The engine's memory after the first n inputs. */
  function FedUpTo(inputs: seq<Row>, n: nat): History
    requires n <= |inputs|
  {
    FedRows(inputs[..n])
  }

  /** The from-scratch rows of the first n inputs. */
  function RowsUpTo(layers: seq<Layer>, inputs: seq<Row>, n: nat): (rows: seq<Row>)
    requires n <= |inputs|
    ensures |rows| == n
  {
    StackRows(layers, inputs[..n])
  }

  /** One sample: its decode outputs are the from-scratch ones of the last gen inputs, whatever
      n_batch is; so every repetition puts out the same. */
  method BenchSample(context: NativeContext, role: Role, token: Token, hidden: seq<Row>, target: nat, gen: nat)
    returns (r: Result<Payload>)
    requires context.layers != [] && (role.HeadRole? || |hidden| == target + gen)
    modifies context
    ensures r.Ok? <==> target + gen == 0 || BenchFits(context.limits, target + gen)
    ensures r.Ok? ==>
              var inputs := BenchInputs(role, token, hidden, target + gen);
              && r.value == StepOutputs(role, StackRows(context.layers, inputs)[target..])
              && context.Fed() == FedRows(inputs)
  {
    var inputs := BenchInputs(role, token, hidden, target + gen);
    context.Reset();
    var _ :- BenchPrefill(context, inputs, target);
    r := BenchDecode(context, role, inputs, target);
    assert inputs[..|inputs|] == inputs;
  }

  method BenchPrefill(context: NativeContext, inputs: seq<Row>, target: nat) returns (r: Result<seq<Row>>)
    requires target <= |inputs| && context.Valid() && context.Fed() == map[]
    modifies context
    ensures context.Valid()
    ensures r.Ok? <==> target == 0 || BenchFits(context.limits, target)
    ensures r.Ok? ==> context.Fed() == FedUpTo(inputs, target)
    ensures r.Ok? ==> r.value == RowsUpTo(context.layers, inputs, target)
  {
    var produced: seq<Row> := [];
    var offset := 0;
    while offset < target
      invariant 0 <= offset <= target && context.Valid()
      invariant context.Fed() == FedUpTo(inputs, offset) && produced == RowsUpTo(context.layers, inputs, offset)
      invariant offset > 0 ==> BenchFits(context.limits, offset)
      decreases target - offset
    {
      var count := if context.limits.nBatch < target - offset then context.limits.nBatch else target - offset;
      var out :- BenchForward(context, inputs, offset, count);
      produced, offset := produced + out, offset + count;
    }
    r := Ok(produced);
  }

  method BenchForward(context: NativeContext, inputs: seq<Row>, offset: nat, count: nat) returns (r: Result<seq<Row>>)
    requires context.Valid() && offset + count <= |inputs|
    requires context.Fed() == FedUpTo(inputs, offset)
    requires count <= context.limits.nBatch || count == 1
    requires count == 0 ==> context.limits.nBatch == 0
    modifies context
    ensures context.Valid()
    ensures r.Ok? <==> BenchFits(context.limits, offset + count)
    ensures r.Ok? ==> count > 0 && context.Fed() == FedUpTo(inputs, offset + count)
    ensures r.Ok? ==>
              RowsUpTo(context.layers, inputs, offset + count) == RowsUpTo(context.layers, inputs, offset) + r.value
  {
    if 0 < count <= context.limits.nBatch {
      NextChunk(context.layers, context.limits, inputs, offset, count);
    }
    r := context.Decode(Plain(offset, inputs[offset..offset + count]));
  }

  lemma NextChunk(layers: seq<Layer>, lim: Limits, inputs: seq<Row>, offset: nat, count: nat)
    requires 0 < count <= lim.nBatch && offset + count <= |inputs|
    ensures var a, b := inputs[..offset], inputs[offset..offset + count];
            && (Accepts(lim, FedRows(a), Plain(offset, b)) <==> BenchFits(lim, offset + count))
            && Store(FedRows(a), Plain(offset, b)) == FedRows(inputs[..offset + count])
            && StackRows(layers, a) + Rows(Emit(layers, FedRows(a), Plain(offset, b)))
               == StackRows(layers, inputs[..offset + count])
  {
    var a, b := inputs[..offset], inputs[offset..offset + count];
    assert a + b == inputs[..offset + count];
    FeedRows(layers, a, b);
    assert Plain(offset, b)[count - 1].pos == offset + count - 1;
  }

  /** What the decode steps have put out so far: the rows that go into the digest, or tokens. */
  datatype Outputs = Outputs(digest: seq<Row>, tokens: seq<Token>)
  {
    function Report(role: Role): Payload {
      if role.MakesRows() then HiddenRows(digest) else TokenList(tokens)
    }

    function Add(role: Role, out: seq<Row>): Outputs {
      if role.MakesRows() then this.(digest := digest + out) else this.(tokens := tokens + Tokens(role.logits, out))
    }
  }

  /** What the decode steps have put out once n inputs are in. */
  function OutputsUpTo(role: Role, layers: seq<Layer>, inputs: seq<Row>, target: nat, n: nat): Outputs
    requires target <= n <= |inputs|
  {
    Outputs([], []).Add(role, RowsUpTo(layers, inputs, n)[target..])
  }

  lemma OutputsMore(role: Role, layers: seq<Layer>, inputs: seq<Row>, target: nat, n: nat, out: seq<Row>)
    requires target <= n < |inputs| && RowsUpTo(layers, inputs, n + 1) == RowsUpTo(layers, inputs, n) + out
    ensures OutputsUpTo(role, layers, inputs, target, n).Add(role, out)
         == OutputsUpTo(role, layers, inputs, target, n + 1)
  {
    var a := RowsUpTo(layers, inputs, n);
    assert (a + out)[target..] == a[target..] + out;
    if !role.MakesRows() {
      TokensConcat(role.logits, a[target..], out);
    }
  }

  method BenchStep(context: NativeContext, role: Role, inputs: seq<Row>, target: nat, n: nat, before: Outputs)
    returns (r: Result<Outputs>)
    requires context.Valid() && target <= n < |inputs| && context.Fed() == FedUpTo(inputs, n)
    requires before == OutputsUpTo(role, context.layers, inputs, target, n)
    modifies context
    ensures context.Valid()
    ensures r.Ok? <==> BenchFits(context.limits, n + 1)
    ensures r.Ok? ==> context.Fed() == FedUpTo(inputs, n + 1)
    ensures r.Ok? ==> r.value == OutputsUpTo(role, context.layers, inputs, target, n + 1)
  {
    var out :- BenchForward(context, inputs, n, 1);
    OutputsMore(role, context.layers, inputs, target, n, out);
    r := Ok(before.Add(role, out));
  }

  method BenchDecode(context: NativeContext, role: Role, inputs: seq<Row>, target: nat) returns (r: Result<Payload>)
    requires context.Valid() && target <= |inputs| && context.Fed() == FedUpTo(inputs, target)
    modifies context
    ensures r.Ok? <==> target == |inputs| || BenchFits(context.limits, |inputs|)
    ensures r.Ok? ==> context.Fed() == FedUpTo(inputs, |inputs|)
    ensures r.Ok? ==> r.value == OutputsUpTo(role, context.layers, inputs, target, |inputs|).Report(role)
  {
    var n, outputs := target, Outputs([], []);
    while n < |inputs|
      invariant context.Valid() && target <= n <= |inputs|
      invariant context.Fed() == FedUpTo(inputs, n)
      invariant outputs == OutputsUpTo(role, context.layers, inputs, target, n)
      invariant n > target ==> BenchFits(context.limits, n)
      decreases |inputs| - n
    {
      outputs :- BenchStep(context, role, inputs, target, n, outputs);
      n := n + 1;
    }
    r := Ok(outputs.Report(role));
  }
}
