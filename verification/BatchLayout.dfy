/** How several equally long sequences are flattened into one batch, and what the batch
    then means for each of them. */
module BatchLayout {
  import opened CausalLayers
  import opened DecodeBatch
  import opened NativeContexts
  import opened GreedyReference

  /** The sequence of every flattened row: n_tok rows of sequence 0, then of sequence 1, ... */
  function SeqIds(batch: nat, nTok: nat): (r: seq<nat>)
    ensures |r| == batch * nTok
    decreases batch
  {
    if batch == 0 then [] else SeqIds(batch - 1, nTok) + seq(nTok, _ => batch - 1)
  }

  /** Every sequence's rows continue at the same position. */
  function Positions(batch: nat, nTok: nat, pos: nat): (r: seq<nat>)
    ensures |r| == batch * nTok
    decreases batch
  {
    if batch == 0 then [] else Positions(batch - 1, nTok, pos) + seq(nTok, i requires 0 <= i => pos + i)
  }

  /** The embedded rows of one step, sequence by sequence. */
  function FlatRows(embed: Token -> Row, ids: seq<seq<Token>>): (r: seq<Row>)
    decreases |ids|
  {
    if ids == [] then []
    else
      var last := ids[|ids| - 1];
      FlatRows(embed, ids[..|ids| - 1]) + seq(|last|, i requires 0 <= i < |last| => embed(last[i]))
  }

  ghost predicate Rectangular(ids: seq<seq<Token>>, nTok: nat) {
    forall b :: 0 <= b < |ids| ==> |ids[b]| == nTok
  }

  lemma OneMore(n: nat, size: nat)
    requires n > 0
    ensures n * size == (n - 1) * size + size
  {
  }

  lemma {:induction false} FlatRowsLength(embed: Token -> Row, ids: seq<seq<Token>>, nTok: nat)
    requires Rectangular(ids, nTok)
    ensures |FlatRows(embed, ids)| == |ids| * nTok
    decreases |ids|
  {
    if ids != [] {
      FlatRowsLength(embed, ids[..|ids| - 1], nTok);
      OneMore(|ids|, nTok);
    }
  }

  /** What an engine has been fed when each sequence b has consumed the tokens ctxs[b]. */
  function FedWith(embed: Token -> Row, ctxs: seq<seq<Token>>): History {
    map b | 0 <= b < |ctxs| && ctxs[b] != [] :: Embed(embed, ctxs[b])
  }

  lemma FedAscending(embed: Token -> Row, ctxs: seq<seq<Token>>)
    ensures AllAscending(FedWith(embed, ctxs))
  {
  }

  function Joined(ctxs: seq<seq<Token>>, ids: seq<seq<Token>>): (r: seq<seq<Token>>)
    requires |ctxs| == |ids|
  {
    seq(|ctxs|, b requires 0 <= b < |ctxs| => ctxs[b] + ids[b])
  }

  /** One sequence's part of the batch. */
  function Block(embed: Token -> Row, b: nat, pos: nat, tokens: seq<Token>): seq<Item> {
    seq(|tokens|, i requires 0 <= i < |tokens| => Item(b, pos + i, embed(tokens[i])))
  }

  function Blocks(embed: Token -> Row, pos: nat, ids: seq<seq<Token>>): seq<Item>
    decreases |ids|
  {
    if ids == [] then []
    else Blocks(embed, pos, ids[..|ids| - 1]) + Block(embed, |ids| - 1, pos, ids[|ids| - 1])
  }

  /** The flattened rows with the computed ids and positions are the sequences' blocks. */
  lemma {:induction false} FlatIsBlocks(embed: Token -> Row, pos: nat, ids: seq<seq<Token>>, nTok: nat)
    requires Rectangular(ids, nTok)
    ensures |FlatRows(embed, ids)| == |ids| * nTok
    ensures Bind(SeqIds(|ids|, nTok), Positions(|ids|, nTok, pos), FlatRows(embed, ids)) == Blocks(embed, pos, ids)
    decreases |ids|
  {
    FlatRowsLength(embed, ids, nTok);
    if ids != [] {
      var init, last := ids[..|ids| - 1], ids[|ids| - 1];
      FlatIsBlocks(embed, pos, init, nTok);
      BindAppend(SeqIds(|init|, nTok), Positions(|init|, nTok, pos), FlatRows(embed, init),
                 seq(nTok, _ => |ids| - 1), seq(nTok, i requires 0 <= i => pos + i),
                 seq(|last|, i requires 0 <= i < |last| => embed(last[i])));
      assert Bind(seq(nTok, _ => |ids| - 1), seq(nTok, i requires 0 <= i => pos + i),
                  seq(|last|, i requires 0 <= i < |last| => embed(last[i])))
          == Block(embed, |ids| - 1, pos, last);
    }
  }

  lemma BindAppend(s1: seq<nat>, p1: seq<nat>, r1: seq<Row>, s2: seq<nat>, p2: seq<nat>, r2: seq<Row>)
    requires |s1| == |p1| == |r1| && |s2| == |p2| == |r2|
    ensures Bind(s1 + s2, p1 + p2, r1 + r2) == Bind(s1, p1, r1) + Bind(s2, p2, r2)
  {
  }

  /** Feeding one sequence's block extends that sequence and leaves the others. */
  lemma {:induction false} StoreBlock(embed: Token -> Row, ctxs: seq<seq<Token>>, b: nat, tokens: seq<Token>)
    requires b < |ctxs|
    ensures Fits(FedWith(embed, ctxs), Block(embed, b, |ctxs[b]|, tokens))
    ensures Store(FedWith(embed, ctxs), Block(embed, b, |ctxs[b]|, tokens))
         == FedWith(embed, ctxs[b := ctxs[b] + tokens])
    decreases |tokens|
  {
    if tokens == [] {
      assert ctxs[b] + tokens == ctxs[b];
      assert ctxs[b := ctxs[b]] == ctxs;
    } else {
      var h, pos := FedWith(embed, ctxs), |ctxs[b]|;
      var first := Item(b, pos, embed(tokens[0]));
      var next := ctxs[b := ctxs[b] + [tokens[0]]];
      AppendToken(embed, ctxs, b, tokens[0]);
      StoreCons(h, first, Block(embed, b, pos + 1, tokens[1..]));
      StoreBlock(embed, next, b, tokens[1..]);
      BlockCons(embed, b, pos, tokens);
      ExtendTwice(ctxs, b, tokens);
    }
  }

  lemma BlockCons(embed: Token -> Row, b: nat, pos: nat, tokens: seq<Token>)
    requires tokens != []
    ensures Block(embed, b, pos, tokens) == [Item(b, pos, embed(tokens[0]))] + Block(embed, b, pos + 1, tokens[1..])
  {
  }

  lemma ExtendTwice(ctxs: seq<seq<Token>>, b: nat, tokens: seq<Token>)
    requires b < |ctxs| && tokens != []
    ensures var next := ctxs[b := ctxs[b] + [tokens[0]]];
            next[b := next[b] + tokens[1..]] == ctxs[b := ctxs[b] + tokens]
  {
    assert ctxs[b] + [tokens[0]] + tokens[1..] == ctxs[b] + tokens;
  }

  lemma StoreCons(h: History, it: Item, rest: seq<Item>)
    ensures Store(h, [it] + rest) == Store(Append(h, it), rest)
    ensures Fits(h, [it] + rest) <==> Next(h, it.seqId) <= it.pos && Fits(Append(h, it), rest)
  {
    assert ([it] + rest)[1..] == rest;
  }

  lemma AppendToken(embed: Token -> Row, ctxs: seq<seq<Token>>, b: nat, token: Token)
    requires b < |ctxs|
    ensures var h := FedWith(embed, ctxs);
            && Next(h, b) == |ctxs[b]|
            && Append(h, Item(b, |ctxs[b]|, embed(token))) == FedWith(embed, ctxs[b := ctxs[b] + [token]])
  {
    assert Embed(embed, ctxs[b] + [token]) == Embed(embed, ctxs[b]) + [Cell(|ctxs[b]|, embed(token))];
  }

  /** After the first j blocks, the first j sequences have moved on. */
  lemma {:induction false} StoreBlocks(embed: Token -> Row, pos: nat, ctxs: seq<seq<Token>>, ids: seq<seq<Token>>,
                                       j: nat)
    requires j <= |ctxs| == |ids| && Rectangular(ctxs, pos)
    ensures Fits(FedWith(embed, ctxs), Blocks(embed, pos, ids[..j]))
    ensures Store(FedWith(embed, ctxs), Blocks(embed, pos, ids[..j]))
         == FedWith(embed, Joined(ctxs, ids)[..j] + ctxs[j..])
    decreases j
  {
    if j == 0 {
      assert Joined(ctxs, ids)[..0] + ctxs[0..] == ctxs;
    } else {
      var mix := Joined(ctxs, ids)[..j - 1] + ctxs[j - 1..];
      StoreBlocks(embed, pos, ctxs, ids, j - 1);
      StoreSplit(FedWith(embed, ctxs), Blocks(embed, pos, ids[..j - 1]), Block(embed, j - 1, pos, ids[j - 1]));
      StoreBlock(embed, mix, j - 1, ids[j - 1]);
      LastBlock(embed, pos, ids, j);
      MixNext(ctxs, ids, j);
    }
  }

  lemma MixNext(ctxs: seq<seq<Token>>, ids: seq<seq<Token>>, j: nat)
    requires 0 < j <= |ctxs| == |ids|
    ensures var mix := Joined(ctxs, ids)[..j - 1] + ctxs[j - 1..];
            mix[j - 1 := mix[j - 1] + ids[j - 1]] == Joined(ctxs, ids)[..j] + ctxs[j..]
  {
  }

  lemma LastBlock(embed: Token -> Row, pos: nat, ids: seq<seq<Token>>, j: nat)
    requires 0 < j <= |ids|
    ensures Blocks(embed, pos, ids[..j]) == Blocks(embed, pos, ids[..j - 1]) + Block(embed, j - 1, pos, ids[j - 1])
  {
    assert ids[..j][..j - 1] == ids[..j - 1];
  }

  lemma {:induction false} BlocksLength(embed: Token -> Row, pos: nat, ids: seq<seq<Token>>, nTok: nat)
    requires Rectangular(ids, nTok)
    ensures |Blocks(embed, pos, ids)| == |ids| * nTok
    decreases |ids|
  {
    if ids != [] {
      BlocksLength(embed, pos, ids[..|ids| - 1], nTok);
      OneMore(|ids|, nTok);
    }
  }

  lemma {:induction false} BlocksPrefix(embed: Token -> Row, pos: nat, ids: seq<seq<Token>>, nTok: nat, j: nat)
    requires Rectangular(ids, nTok) && j <= |ids|
    ensures j * nTok <= |Blocks(embed, pos, ids)|
    ensures Blocks(embed, pos, ids)[..j * nTok] == Blocks(embed, pos, ids[..j])
    decreases |ids|
  {
    BlocksLength(embed, pos, ids, nTok);
    BlocksLength(embed, pos, ids[..j], nTok);
    if j < |ids| {
      var init := ids[..|ids| - 1];
      BlocksPrefix(embed, pos, init, nTok, j);
      assert init[..j] == ids[..j];
    } else {
      assert ids[..j] == ids;
    }
  }

  /** The whole step: every sequence b moves on by its tokens, and the row that ends its
      block, at index b * nTok + nTok - 1, is what all layers make of its longer context. */
  lemma StepBatch(embed: Token -> Row, layers: seq<Layer>, pos: nat, ctxs: seq<seq<Token>>, ids: seq<seq<Token>>,
                  nTok: nat)
    requires |ctxs| == |ids| && Rectangular(ctxs, pos) && Rectangular(ids, nTok) && nTok > 0
    ensures var items := Blocks(embed, pos, ids);
            && |items| == |ids| * nTok
            && Fits(FedWith(embed, ctxs), items)
            && Store(FedWith(embed, ctxs), items) == FedWith(embed, Joined(ctxs, ids))
    ensures forall b :: 0 <= b < |ids| ==>
              && b * nTok + nTok - 1 < |ids| * nTok
              && Emit(layers, FedWith(embed, ctxs), Blocks(embed, pos, ids))[b * nTok + nTok - 1].row
              == LastRow(layers, Embed(embed, ctxs[b] + ids[b]))
  {
    var items := Blocks(embed, pos, ids);
    BlocksLength(embed, pos, ids, nTok);
    StoreBlocks(embed, pos, ctxs, ids, |ids|);
    assert ids[..|ids|] == ids;
    assert Joined(ctxs, ids)[..|ids|] + ctxs[|ids|..] == Joined(ctxs, ids);
    forall b | 0 <= b < |ids|
      ensures b * nTok + nTok - 1 < |ids| * nTok
      ensures Emit(layers, FedWith(embed, ctxs), items)[b * nTok + nTok - 1].row
           == LastRow(layers, Embed(embed, ctxs[b] + ids[b]))
    {
      StepRow(embed, layers, pos, ctxs, ids, nTok, b, b * nTok + nTok - 1);
    }
  }

  /** The first b + 1 blocks end with the last row of block b. */
  lemma BlockEnd(embed: Token -> Row, pos: nat, ids: seq<seq<Token>>, nTok: nat, b: nat)
    requires Rectangular(ids, nTok) && nTok > 0 && b < |ids|
    ensures var items, k := Blocks(embed, pos, ids), b * nTok + nTok - 1;
            && k < |items| == |ids| * nTok
            && items[..k + 1] == Blocks(embed, pos, ids[..b + 1])
            && items[k].seqId == b
  {
    var items, k := Blocks(embed, pos, ids), b * nTok + nTok - 1;
    OneMore(b + 1, nTok);
    BlocksLength(embed, pos, ids, nTok);
    BlocksPrefix(embed, pos, ids, nTok, b + 1);
    BlocksLength(embed, pos, ids[..b], nTok);
    LastBlock(embed, pos, ids, b + 1);
    assert items[k] == items[..k + 1][k];
  }

  lemma StepRow(embed: Token -> Row, layers: seq<Layer>, pos: nat, ctxs: seq<seq<Token>>, ids: seq<seq<Token>>,
                nTok: nat, b: nat, k: nat)
    requires |ctxs| == |ids| && Rectangular(ctxs, pos) && Rectangular(ids, nTok) && nTok > 0 && b < |ids|
    requires k == b * nTok + nTok - 1
    ensures k < |Blocks(embed, pos, ids)| == |ids| * nTok
    ensures Emit(layers, FedWith(embed, ctxs), Blocks(embed, pos, ids))[k].row
         == LastRow(layers, Embed(embed, ctxs[b] + ids[b]))
  {
    BlockEnd(embed, pos, ids, nTok, b);
    RowAt(embed, layers, pos, ctxs, ids, b, k);
  }

  lemma RowAt(embed: Token -> Row, layers: seq<Layer>, pos: nat, ctxs: seq<seq<Token>>, ids: seq<seq<Token>>, b: nat,
              k: nat)
    requires |ctxs| == |ids| && Rectangular(ctxs, pos) && b < |ids| && k < |Blocks(embed, pos, ids)|
    requires Blocks(embed, pos, ids)[..k + 1] == Blocks(embed, pos, ids[..b + 1])
               && Blocks(embed, pos, ids)[k].seqId == b
    requires ids[b] != []
    ensures Emit(layers, FedWith(embed, ctxs), Blocks(embed, pos, ids))[k].row
         == LastRow(layers, Embed(embed, ctxs[b] + ids[b]))
  {
    StoreBlocks(embed, pos, ctxs, ids, b + 1);
    var mix := Joined(ctxs, ids)[..b + 1] + ctxs[b + 1..];
    assert mix[b] == ctxs[b] + ids[b];
    EmitAt(layers, FedWith(embed, ctxs), Blocks(embed, pos, ids), k);
  }
}
