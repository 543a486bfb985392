/** The prefill of a batch over the raw binding: all sequences' rows one after the other on a
    single sequence. */
module RawPrefill {
  import Arithmetic
  import opened CausalLayers
  import opened DecodeBatch
  import opened NativeContexts
  import opened GreedyReference
  import opened BatchLayout
  import opened RelayRun
  import opened SessionMeaning

  function EachLogits(logits: Logits, rows: seq<Row>): (r: seq<seq<real>>)
    ensures |r| == |rows|
  {
    seq(|rows|, k requires 0 <= k < |rows| => logits(rows[k]))
  }

  function LogitsOf(logits: Logits, items: seq<Item>): (r: seq<seq<real>>)
    ensures |r| == |items|
  {
    EachLogits(logits, Rows(items))
  }

  /** The rows of a step, as they leave the head. */
  function HeadRows(embed: Token -> Row, layers: seq<Layer>, ctxs: seq<seq<Token>>, pos: nat,
                    ids: seq<seq<Token>>): seq<Row>
  {
    Rows(Emit(layers, FedWith(embed, ctxs), Blocks(embed, pos, ids)))
  }

  /** The token of sequence b is read from row b * nTok + nTok - 1. */
  function PickTokens(batch: nat, nTok: nat, logits: seq<seq<real>>): (tokens: seq<Token>)
    ensures |tokens| == batch
  {
    seq(batch, b requires 0 <= b < batch =>
      var k := b * nTok + nTok - 1;
      if 0 <= k < |logits| then ArgMax(logits[k]) else 0)
  }

  // ---- rows repeated ----

  function Repeat<T>(rows: seq<T>, n: nat): seq<T> {
    if n == 0 then [] else Repeat(rows, n - 1) + rows
  }

  lemma {:induction false} RepeatLength<T>(rows: seq<T>, n: nat)
    ensures |Repeat(rows, n)| == n * |rows|
    decreases n
  {
    if n > 0 {
      RepeatLength(rows, n - 1);
      OneMore(n, |rows|);
    }
  }

  lemma {:induction false} RepeatPrefix<T>(rows: seq<T>, n: nat, b: nat)
    requires b <= n
    ensures b * |rows| <= |Repeat(rows, n)| && Repeat(rows, n)[..b * |rows|] == Repeat(rows, b)
    decreases n
  {
    RepeatLength(rows, b);
    if b < n {
      RepeatPrefix(rows, n - 1, b);
    }
  }

  lemma RepeatAt<T>(rows: seq<T>, n: nat, b: nat, j: nat)
    requires b < n && j < |rows|
    ensures b * |rows| + j < |Repeat(rows, n)| && Repeat(rows, n)[b * |rows| + j] == rows[j]
  {
    RepeatLength(rows, b);
    RepeatPrefix(rows, n, b + 1);
    OneMore(b + 1, |rows|);
    assert Repeat(rows, n)[b * |rows| + j] == Repeat(rows, n)[..(b + 1) * |rows|][b * |rows| + j];
  }

  // ---- what the head makes of the prompts ----

  /** The head's rows for one prompt. */
  function PromptRows(embed: Token -> Row, front: seq<Layer>, prompt: seq<Token>): seq<Row> {
    StackRows(front, TokenRows(embed, prompt))
  }

  lemma CellsOfTokens(embed: Token -> Row, tokens: seq<Token>)
    ensures CellsOf(TokenRows(embed, tokens)) == Embed(embed, tokens)
  {
  }

  lemma StackRowsAt(layers: seq<Layer>, rows: seq<Row>, k: nat)
    requires k < |rows|
    ensures StackRows(layers, rows)[k] == LastRow(layers, CellsOf(rows[..k + 1]))
  {
    var cells := CellsOf(rows);
    assert cells == CellsOf(rows[..k + 1]) + cells[k + 1..];
    StackPrefix(layers, CellsOf(rows[..k + 1]), cells[k + 1..]);
    assert Stack(layers, cells)[..k + 1][k] == Stack(layers, cells)[k];
  }

  /** Up to row j of block b stand b whole prompts and a part of one. */
  lemma BlocksUpTo(embed: Token -> Row, batch: nat, prompt: seq<Token>, b: nat, j: nat)
    requires b < batch && j < |prompt|
    ensures var items, k := Blocks(embed, 0, Copies(batch, prompt)), b * |prompt| + j;
            && k < |items| == batch * |prompt| && items[k].seqId == b
            && items[..k + 1] == Blocks(embed, 0, Copies(b, prompt) + [prompt[..j + 1]])
  {
    var ids, n := Copies(batch, prompt), |prompt|;
    var items, part, k := Blocks(embed, 0, ids), Copies(b, prompt) + [prompt[..j + 1]], b * n + j;
    BlocksLength(embed, 0, ids, n);
    BlocksPrefix(embed, 0, ids, n, b + 1);
    BlocksLength(embed, 0, ids[..b], n);
    OneMore(b + 1, n);
    LastBlock(embed, 0, ids, b + 1);
    LastBlock(embed, 0, part, b + 1);
    assert part[..b + 1] == part && part[..b] == Copies(b, prompt) == ids[..b];
    assert Block(embed, b, 0, prompt[..j + 1]) == Block(embed, b, 0, prompt)[..j + 1];
    UpTo(items, Blocks(embed, 0, ids[..b]), Block(embed, b, 0, prompt), (b + 1) * n, j);
  }

  lemma UpTo<T>(all: seq<T>, before: seq<T>, block: seq<T>, end: nat, j: nat)
    requires j < |block| && end == |before| + |block| <= |all| && all[..end] == before + block
    ensures all[..|before| + j + 1] == before + block[..j + 1] && all[|before| + j] == block[j]
  {
    assert all[..|before| + j + 1] == all[..end][..|before| + j + 1];
    assert all[|before| + j] == all[..end][|before| + j];
  }

  lemma JoinedNone(ids: seq<seq<Token>>)
    ensures Joined(Copies(|ids|, []), ids) == ids
  {
    forall b | 0 <= b < |ids|
      ensures Joined(Copies(|ids|, []), ids)[b] == ids[b]
    {
      assert [] + ids[b] == ids[b];
    }
  }

  /** By then sequence b has been fed that part of its prompt. */
  lemma FedUpTo(embed: Token -> Row, prompt: seq<Token>, b: nat, part: seq<Token>)
    requires part != []
    ensures Hist(Store(map[], Blocks(embed, 0, Copies(b, prompt) + [part])), b) == Embed(embed, part)
  {
    var ids, none := Copies(b, prompt) + [part], Copies<seq<Token>>(b + 1, []);
    StoreBlocks(embed, 0, none, ids, b + 1);
    JoinedNone(ids);
    assert ids[..b + 1] == ids && none[b + 1..] == [] && ids + [] == ids;
    assert FedWith(embed, none) == map[];
  }

  lemma PromptRowAt(embed: Token -> Row, front: seq<Layer>, prompt: seq<Token>, j: nat)
    requires j < |prompt|
    ensures PromptRows(embed, front, prompt)[j] == LastRow(front, Embed(embed, prompt[..j + 1]))
  {
    StackRowsAt(front, TokenRows(embed, prompt), j);
    assert TokenRows(embed, prompt)[..j + 1] == TokenRows(embed, prompt[..j + 1]);
    CellsOfTokens(embed, prompt[..j + 1]);
  }

  lemma RowFrom(embed: Token -> Row, front: seq<Layer>, items: seq<Item>, k: nat, part: seq<Token>)
    requires k < |items| && part != []
    requires Hist(Store(map[], items[..k + 1]), items[k].seqId) == Embed(embed, part)
    ensures Rows(Emit(front, map[], items))[k] == LastRow(front, Embed(embed, part))
  {
    EmitAt(front, map[], items, k);
  }

  lemma HeadRow(embed: Token -> Row, front: seq<Layer>, batch: nat, prompt: seq<Token>, b: nat, j: nat, k: nat)
    requires b < batch && j < |prompt| && k == b * |prompt| + j
    ensures k < |HeadRows(embed, front, Copies(batch, []), 0, Copies(batch, prompt))|
    ensures HeadRows(embed, front, Copies(batch, []), 0, Copies(batch, prompt))[k]
         == PromptRows(embed, front, prompt)[j]
  {
    var items := Blocks(embed, 0, Copies(batch, prompt));
    BlocksUpTo(embed, batch, prompt, b, j);
    FedUpTo(embed, prompt, b, prompt[..j + 1]);
    assert FedWith(embed, Copies(batch, [])) == map[];
    RowFrom(embed, front, items, k, prompt[..j + 1]);
    PromptRowAt(embed, front, prompt, j);
  }

  lemma HeadLength(embed: Token -> Row, front: seq<Layer>, batch: nat, prompt: seq<Token>)
    ensures |HeadRows(embed, front, Copies(batch, []), 0, Copies(batch, prompt))| == batch * |prompt|
  {
    BlocksLength(embed, 0, Copies(batch, prompt), |prompt|);
  }

  /** The head makes of each sequence's prompt the same rows. */
  lemma HeadPrefill(embed: Token -> Row, front: seq<Layer>, batch: nat, prompt: seq<Token>)
    requires prompt != []
    ensures HeadRows(embed, front, Copies(batch, []), 0, Copies(batch, prompt))
         == Repeat(PromptRows(embed, front, prompt), batch)
  {
    var rows := HeadRows(embed, front, Copies(batch, []), 0, Copies(batch, prompt));
    var one := PromptRows(embed, front, prompt);
    HeadLength(embed, front, batch, prompt);
    RepeatLength(one, batch);
    forall k | 0 <= k < |rows|
      ensures rows[k] == Repeat(one, batch)[k]
    {
      HeadRowAgain(embed, front, batch, prompt, k);
    }
  }

  lemma HeadRowAgain(embed: Token -> Row, front: seq<Layer>, batch: nat, prompt: seq<Token>, k: nat)
    requires prompt != [] && k < batch * |prompt|
    ensures var rows := HeadRows(embed, front, Copies(batch, []), 0, Copies(batch, prompt));
            var again := Repeat(PromptRows(embed, front, prompt), batch);
            k < |rows| && k < |again| && rows[k] == again[k]
  {
    var b, j := k / |prompt|, k % |prompt|;
    RowPlace(k, |prompt|, batch);
    HeadRow(embed, front, batch, prompt, b, j, k);
    RepeatAt(PromptRows(embed, front, prompt), batch, b, j);
  }

  lemma RowPlace(k: nat, n: nat, batch: nat)
    requires n > 0 && k < batch * n
    ensures k / n < batch && k % n < n && k == k / n * n + k % n
  {
    if k / n >= batch {
      Arithmetic.Scaled(batch, k / n, n);
    }
  }

  // ---- what the engine behind it makes of them ----

  /** When the engine takes the prompts one after the other. */
  predicate CanPrefill(lim: Limits, batch: nat, promptLen: nat) {
    && promptLen > 0 && batch * promptLen <= lim.nBatch && lim.nSeqMax > 0
    && batch * promptLen <= lim.ctxPerSeq
  }

  lemma NothingBefore<T>(s: seq<T>)
    ensures [] + s == s
  {
  }

  lemma PlainFits(rows: seq<Row>)
    ensures Fits(map[], Plain(0, rows))
  {
    FeedRows([], [], rows);
  }

  lemma PlainAccepted(lim: Limits, rows: seq<Row>)
    ensures Accepts(lim, map[], Plain(0, rows))
       <==> 0 < |rows| <= lim.nBatch && |rows| <= lim.ctxPerSeq && lim.nSeqMax > 0
  {
    PlainFits(rows);
    if rows != [] {
      assert Plain(0, rows)[|rows| - 1].pos == |rows| - 1;
    }
  }

  lemma PrefillAccepted(lim: Limits, rows: seq<Row>, batch: nat, promptLen: nat)
    requires batch > 0 && |rows| == batch * promptLen
    ensures Accepts(lim, map[], Plain(0, rows)) <==> CanPrefill(lim, batch, promptLen)
  {
    PlainAccepted(lim, rows);
    Arithmetic.Scaled(1, batch, promptLen);
  }

  /** The token that sequence b gets: it stands behind b copies of the same prompt. */
  function RawToken(m: Model, front: seq<Layer>, back: seq<Layer>, prompt: seq<Token>, b: nat): Token {
    var rows := StackRows(back, Repeat(PromptRows(m.embed, front, prompt), b + 1));
    if rows == [] then 0 else ArgMax(m.logits(rows[|rows| - 1]))
  }

  function RawTokens(m: Model, front: seq<Layer>, back: seq<Layer>, prompt: seq<Token>, batch: nat): (r: seq<Token>)
    ensures |r| == batch
  {
    seq(batch, b requires 0 <= b < batch => RawToken(m, front, back, prompt, b))
  }

  lemma CellsStacked(front: seq<Layer>, rows: seq<Row>)
    ensures CellsOf(StackRows(front, rows)) == Stack(front, CellsOf(rows))
  {
  }

  lemma RepeatOnce<T>(rows: seq<T>)
    ensures Repeat(rows, 1) == rows
  {
    assert Repeat(rows, 1) == Repeat(rows, 0) + rows;
  }

  lemma RawTokenIs(m: Model, front: seq<Layer>, back: seq<Layer>, prompt: seq<Token>, b: nat, all: seq<Row>)
    requires all == Repeat(PromptRows(m.embed, front, prompt), b + 1) && all != []
    ensures RawToken(m, front, back, prompt, b) == ArgMax(m.logits(LastRow(back, CellsOf(all))))
  {
    StackRowsAt(back, all, |all| - 1);
    assert all[..|all|] == all;
  }

  lemma BehindFront(front: seq<Layer>, back: seq<Layer>, cells: seq<Cell>)
    requires cells != []
    ensures LastRow(front + back, cells) == LastRow(back, Stack(front, cells))
  {
    StackConcat(front, back, cells);
  }

  /** The first sequence's token is the greedy one. */
  lemma FirstIsGreedy(m: Model, front: seq<Layer>, back: seq<Layer>, prompt: seq<Token>)
    requires prompt != [] && m.layers == front + back
    ensures RawToken(m, front, back, prompt, 0) == NextToken(m, prompt)
  {
    var rows := PromptRows(m.embed, front, prompt);
    RepeatOnce(rows);
    RawTokenIs(m, front, back, prompt, 0, rows);
    CellsOfTokens(m.embed, prompt);
    CellsStacked(front, TokenRows(m.embed, prompt));
    BehindFront(front, back, Embed(m.embed, prompt));
  }

  /** A layer that counts the rows it sees, and an output that tells one row from more. */
  function CountRows(cells: seq<Cell>): Row {
    [|cells| as real]
  }

  function OneOrMore(row: Row): seq<real> {
    if row == [1.0] then [1.0, 0.0] else [0.0, 1.0]
  }

  lemma CountedRows(rows: seq<Row>)
    requires rows != []
    ensures LastRow([CountRows], CellsOf(rows)) == [|rows| as real]
  {
    var cells := CellsOf(rows);
    assert [CountRows][1..] == [] && cells[..|cells|] == cells;
    assert Stack([CountRows], cells) == Lift(CountRows, cells);
  }

  lemma FirstOrSecond()
    ensures ArgMax([1.0, 0.0]) == 0 && ArgMax([0.0, 1.0]) == 1
  {
  }

  /** The others' need not be: with this model the second sequence gets another token. */
  lemma SecondCanDiffer()
    ensures var m := Model(_ => [0.0], [CountRows], OneOrMore);
            && RawToken(m, [], [CountRows], [0], 0) == NextToken(m, [0])
            && RawToken(m, [], [CountRows], [0], 1) != NextToken(m, [0])
  {
    var m := Model(_ => [0.0], [CountRows], OneOrMore);
    var one := PromptRows(m.embed, [], [0]);
    FirstIsGreedy(m, [], [CountRows], [0]);
    RepeatOnce(one);
    assert Repeat(one, 2) == one + one;
    RawTokenIs(m, [], [CountRows], [0], 0, one);
    RawTokenIs(m, [], [CountRows], [0], 1, one + one);
    CountedRows(one);
    CountedRows(one + one);
    FirstOrSecond();
  }

  /** The last row of a longer run of rows stays what it was. */
  lemma LastStays(back: seq<Layer>, all: seq<Row>, n: nat)
    requires 0 < n <= |all|
    ensures StackRows(back, all)[n - 1] == StackRows(back, all[..n])[n - 1]
  {
    StackRowsAt(back, all, n - 1);
    StackRowsAt(back, all[..n], n - 1);
    assert all[..n][..n] == all[..n];
  }

  lemma PrefillToken(m: Model, front: seq<Layer>, back: seq<Layer>, batch: nat, prompt: seq<Token>, b: nat, end: nat)
    requires prompt != [] && b < batch && end == (b + 1) * |prompt|
    ensures var out := StackRows(back, Repeat(PromptRows(m.embed, front, prompt), batch));
            0 < end <= |out| && ArgMax(m.logits(out[end - 1])) == RawToken(m, front, back, prompt, b)
  {
    var one := PromptRows(m.embed, front, prompt);
    var all, mine := Repeat(one, batch), Repeat(one, b + 1);
    RepeatPrefix(one, batch, b + 1);
    assert |one| == |prompt| && end <= |all| && all[..end] == mine;
    assert mine == Repeat(one, b) + one;
    LastStays(back, all, end);
  }

  lemma PickAt(batch: nat, nTok: nat, logits: seq<seq<real>>, b: nat, k: nat)
    requires b < batch && k == b * nTok + nTok - 1 && k < |logits|
    ensures PickTokens(batch, nTok, logits)[b] == ArgMax(logits[k])
  {
  }

  lemma RawLogits(logits: Logits, back: seq<Layer>, rows: seq<Row>)
    ensures LogitsOf(logits, Emit(back, map[], Plain(0, rows))) == EachLogits(logits, StackRows(back, rows))
  {
    FeedRows(back, [], rows);
    NothingBefore(rows);
    NothingBefore(Rows(Emit(back, map[], Plain(0, rows))));
    assert StackRows(back, []) == [];
  }

  lemma PickRaw(m: Model, front: seq<Layer>, back: seq<Layer>, batch: nat, prompt: seq<Token>, b: nat)
    requires prompt != [] && b < batch
    ensures var out := StackRows(back, Repeat(PromptRows(m.embed, front, prompt), batch));
            PickTokens(batch, |prompt|, EachLogits(m.logits, out))[b] == RawToken(m, front, back, prompt, b)
  {
    var end := (b + 1) * |prompt|;
    OneMore(b + 1, |prompt|);
    PrefillToken(m, front, back, batch, prompt, b, end);
    PickAt(batch, |prompt|, EachLogits(m.logits, StackRows(back, Repeat(PromptRows(m.embed, front, prompt), batch))), b,
           end - 1);
  }

  /** What is read off the rows of the prefill. */
  lemma PrefillTokens(m: Model, front: seq<Layer>, back: seq<Layer>, batch: nat, prompt: seq<Token>, rows: seq<Row>)
    requires prompt != [] && rows == Repeat(PromptRows(m.embed, front, prompt), batch)
    ensures PickTokens(batch, |prompt|, LogitsOf(m.logits, Emit(back, map[], Plain(0, rows))))
         == RawTokens(m, front, back, prompt, batch)
  {
    RawLogits(m.logits, back, rows);
    forall b | 0 <= b < batch
      ensures PickTokens(batch, |prompt|, EachLogits(m.logits, StackRows(back, rows)))[b]
           == RawTokens(m, front, back, prompt, batch)[b]
    {
      PickRaw(m, front, back, batch, prompt, b);
    }
  }
}
