/** What the whole model generates, without caches, chunks or segments. */
module GreedyReference {
  import opened CausalLayers

  type Logits = Row -> seq<real>

  datatype Model = Model(embed: Token -> Row, layers: seq<Layer>, logits: Logits)

  /** The first index of a largest entry. */
  function ArgMax(row: seq<real>): (r: Token)
    ensures row != [] ==> r < |row| && (forall j :: 0 <= j < |row| ==> row[j] <= row[r])
    ensures row != [] ==> forall j :: 0 <= j < r ==> row[j] < row[r]
    decreases |row|
  {
    if |row| <= 1 then 0
    else
      var best := ArgMax(row[..|row| - 1]);
      if row[best] < row[|row| - 1] then |row| - 1 else best
  }

  /** The embedding rows of token ids. */
  function TokenRows(embed: Token -> Row, toks: seq<Token>): (rows: seq<Row>)
    ensures |rows| == |toks|
  {
    seq(|toks|, i requires 0 <= i < |toks| => embed(toks[i]))
  }

  /** Token ids as the cells of one sequence from position 0. */
  function Embed(embed: Token -> Row, tokens: seq<Token>): (r: seq<Cell>) {
    seq(|tokens|, i requires 0 <= i < |tokens| => Cell(i, embed(tokens[i])))
  }

  function NextToken(m: Model, context: seq<Token>): Token
    requires context != []
  {
    ArgMax(m.logits(LastRow(m.layers, Embed(m.embed, context))))
  }

  /** Greedy decoding: every token from a fresh run of the whole model on all before it. */
  function Greedy(m: Model, prompt: seq<Token>, n: nat): (r: seq<Token>)
    requires prompt != []
    ensures |r| == n
  {
    if n == 0 then []
    else
      var g := Greedy(m, prompt, n - 1);
      g + [NextToken(m, prompt + g)]
  }

  /** The same for a run that may not start: nothing is generated from an empty prompt. */
  ghost function GreedyOr(m: Model, prompt: seq<Token>, n: nat): (r: seq<Token>)
    ensures prompt != [] ==> |r| == n
  {
    if prompt == [] then [] else Greedy(m, prompt, n)
  }

  ghost function NextTokenOr(m: Model, context: seq<Token>): Token {
    if context == [] then 0 else NextToken(m, context)
  }

  lemma GreedyNext(m: Model, prompt: seq<Token>, n: nat)
    requires prompt != []
    ensures GreedyOr(m, prompt, n + 1) == GreedyOr(m, prompt, n) + [NextToken(m, prompt + GreedyOr(m, prompt, n))]
  {
  }
}
