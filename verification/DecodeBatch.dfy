/** A batched decode over a key/value cache, and its row-by-row meaning.

    The cache keeps, per layer and per sequence, the cells that layer has been fed. A
    batch is decoded layer by layer: first every row is stored, then every row attends
    to the stored cells of its own sequence whose position does not exceed its own. */
module DecodeBatch {
  import opened CausalLayers

  /** One row of a batch with its explicit sequence and position. */
  datatype Item = Item(seqId: nat, pos: nat, row: Row)

  /** Cells by sequence. */
  type History = map<nat, seq<Cell>>

  function Hist(h: History, s: nat): seq<Cell> {
    if s in h then h[s] else []
  }

  /** The smallest position the sequence accepts next. */
  function Next(h: History, s: nat): nat {
    var c := Hist(h, s);
    if c == [] then 0 else c[|c| - 1].pos + 1
  }

  function Append(h: History, it: Item): History {
    h[it.seqId := Hist(h, it.seqId) + [Cell(it.pos, it.row)]]
  }

  function Store(h: History, items: seq<Item>): History
    decreases |items|
  {
    if items == [] then h else Store(Append(h, items[0]), items[1..])
  }

  /** The batch continues every sequence it touches with ascending positions. */
  predicate Fits(h: History, items: seq<Item>)
    decreases |items|
  {
    items == [] ||
    (Next(h, items[0].seqId) <= items[0].pos && Fits(Append(h, items[0]), items[1..]))
  }

  ghost predicate Ascending(c: seq<Cell>) {
    forall i, j :: 0 <= i < j < |c| ==> c[i].pos < c[j].pos
  }

  ghost predicate AllAscending(h: History) {
    forall s :: s in h ==> h[s] != [] && Ascending(h[s])
  }

  /** The attention mask: the cells at positions up to p. */
  function Visible(c: seq<Cell>, p: nat): seq<Cell>
    decreases |c|
  {
    if c == [] then []
    else if c[|c| - 1].pos <= p then Visible(c[..|c| - 1], p) + [c[|c| - 1]]
    else Visible(c[..|c| - 1], p)
  }

  function LayerRows(layer: Layer, h: History, items: seq<Item>): seq<Item> {
    seq(|items|, k requires 0 <= k < |items| =>
      Item(items[k].seqId, items[k].pos, layer(Visible(Hist(h, items[k].seqId), items[k].pos))))
  }

  /** The batched decode: new caches and one output row per input row. */
  function Decode(layers: seq<Layer>, caches: seq<History>, items: seq<Item>): (r: (seq<History>, seq<Item>))
    requires |caches| == |layers|
    ensures |r.0| == |layers| && |r.1| == |items|
    decreases |layers|
  {
    if layers == [] then ([], items)
    else
      var stored := Store(caches[0], items);
      var rest := Decode(layers[1..], caches[1..], LayerRows(layers[0], stored, items));
      ([stored] + rest.0, rest.1)
  }

  function LiftAll(layer: Layer, h: History): History {
    map s | s in h :: Lift(layer, h[s])
  }

  function StackAll(layers: seq<Layer>, h: History): History {
    map s | s in h :: Stack(layers, h[s])
  }

  /** The caches of an engine whose first layer has been fed h. */
  function CachesOf(layers: seq<Layer>, h: History): (r: seq<History>)
    ensures |r| == |layers|
    ensures layers != [] ==> r[0] == h
    decreases |layers|
  {
    if layers == [] then [] else [h] + CachesOf(layers[1..], LiftAll(layers[0], h))
  }

  /** The meaning of feeding a batch: every row gets the last output row of the layers run
      from scratch over its own sequence so far. No cache, no mask, no batching. */
  function Emit(layers: seq<Layer>, h: History, items: seq<Item>): (r: seq<Item>)
    ensures |r| == |items|
    ensures forall k :: 0 <= k < |items| ==> r[k].seqId == items[k].seqId && r[k].pos == items[k].pos
    decreases |items|
  {
    if items == [] then []
    else
      var it := items[0];
      var h' := Append(h, it);
      [Item(it.seqId, it.pos, LastRow(layers, Hist(h', it.seqId)))] + Emit(layers, h', items[1..])
  }

  // ---- sequences and masks ----

  lemma VisibleBelow(c: seq<Cell>, p: nat)
    requires forall i :: 0 <= i < |c| ==> c[i].pos <= p
    ensures Visible(c, p) == c
    decreases |c|
  {
    if c != [] {
      VisibleBelow(c[..|c| - 1], p);
    }
  }

  lemma {:induction false} VisiblePrefix(c: seq<Cell>, more: seq<Cell>, p: nat)
    requires forall i :: 0 <= i < |c| ==> c[i].pos <= p
    requires forall i :: 0 <= i < |more| ==> p < more[i].pos
    ensures Visible(c + more, p) == c
    decreases |more|
  {
    if more == [] {
      assert c + more == c;
      VisibleBelow(c, p);
    } else {
      assert (c + more)[..|c + more| - 1] == c + more[..|more| - 1];
      VisiblePrefix(c, more[..|more| - 1], p);
    }
  }

  lemma AppendAscending(h: History, it: Item)
    requires AllAscending(h) && Next(h, it.seqId) <= it.pos
    ensures AllAscending(Append(h, it))
  {
  }

  lemma {:induction false} StoreAscending(h: History, items: seq<Item>)
    requires AllAscending(h) && Fits(h, items)
    ensures AllAscending(Store(h, items))
    decreases |items|
  {
    if items != [] {
      AppendAscending(h, items[0]);
      StoreAscending(Append(h, items[0]), items[1..]);
    }
  }

  /** Storing a fitting batch only extends a sequence, and only with later positions. */
  lemma {:induction false} StoreExtends(h: History, items: seq<Item>, s: nat) returns (more: seq<Cell>)
    requires Fits(h, items)
    ensures Hist(Store(h, items), s) == Hist(h, s) + more
    ensures forall i :: 0 <= i < |more| ==> Next(h, s) <= more[i].pos
    decreases |items|
  {
    if items == [] {
      more := [];
    } else {
      var it := items[0];
      var h' := Append(h, it);
      var rest := StoreExtends(h', items[1..], s);
      more := if s == it.seqId then [Cell(it.pos, it.row)] + rest else rest;
    }
  }

  lemma {:induction false} StoreSplit(h: History, a: seq<Item>, b: seq<Item>)
    ensures Store(h, a + b) == Store(Store(h, a), b)
    ensures Fits(h, a + b) <==> Fits(h, a) && Fits(Store(h, a), b)
    decreases |a|
  {
    if a == [] {
      assert a + b == b;
    } else {
      assert (a + b)[1..] == a[1..] + b;
      StoreSplit(Append(h, a[0]), a[1..], b);
    }
  }

  // ---- one layer ----

  lemma StackOne(layer: Layer, c: seq<Cell>)
    ensures Stack([layer], c) == Lift(layer, c)
  {
    assert [layer][1..] == [];
    assert Stack([], Lift(layer, c)) == Lift(layer, c);
  }

  /** The first row of a batch does not see the rows stored with it. */
  lemma FirstRow(layer: Layer, h: History, items: seq<Item>)
    requires items != [] && AllAscending(h) && Fits(h, items)
    ensures layer(Visible(Hist(Store(h, items), items[0].seqId), items[0].pos))
         == LastRow([layer], Hist(Append(h, items[0]), items[0].seqId))
  {
    var it := items[0];
    var c := Hist(Append(h, it), it.seqId);
    assert Visible(Hist(Store(h, items), it.seqId), it.pos) == c by {
      AppendAscending(h, it);
      assert Ascending(c) && c[|c| - 1].pos == it.pos;
      var more := StoreExtends(Append(h, it), items[1..], it.seqId);
      VisiblePrefix(c, more, it.pos);
    }
    assert LastRow([layer], c) == layer(c) by {
      StackOne(layer, c);
      assert c[..|c|] == c;
    }
  }

  lemma LayerRowsStep(layer: Layer, h: History, items: seq<Item>)
    requires items != []
    ensures LayerRows(layer, h, items) ==
            [Item(items[0].seqId, items[0].pos, layer(Visible(Hist(h, items[0].seqId), items[0].pos)))]
            + LayerRows(layer, h, items[1..])
  {
  }

  /** What a single layer computes on a batch, before and after the batch is seen as a stream. */
  lemma {:induction false} LayerIsEmit(layer: Layer, h: History, items: seq<Item>)
    requires AllAscending(h) && Fits(h, items)
    ensures LayerRows(layer, Store(h, items), items) == Emit([layer], h, items)
    decreases |items|
  {
    if items != [] {
      LayerRowsStep(layer, Store(h, items), items);
      FirstRow(layer, h, items);
      AppendAscending(h, items[0]);
      LayerIsEmit(layer, Append(h, items[0]), items[1..]);
    }
  }

  lemma {:induction false} EmitNothing(h: History, items: seq<Item>)
    ensures Emit([], h, items) == items
    decreases |items|
  {
    if items != [] {
      EmitNothing(Append(h, items[0]), items[1..]);
    }
  }

  // ---- layers one after the other ----

  lemma StackAllAppend(layers: seq<Layer>, h: History, it: Item)
    ensures StackAll(layers, Append(h, it))
         == Append(StackAll(layers, h), Item(it.seqId, it.pos, LastRow(layers, Hist(Append(h, it), it.seqId))))
  {
    StackAppend(layers, Hist(h, it.seqId), Cell(it.pos, it.row));
    if it.seqId !in h {
      assert Stack(layers, []) == [];
    }
  }

  /** Feeding first + second is feeding second with what first emits; and the rows that
      second has then been fed are exactly first's outputs. */
  lemma {:induction false} EmitConcat(first: seq<Layer>, second: seq<Layer>, h: History, items: seq<Item>)
    ensures Emit(first + second, h, items) == Emit(second, StackAll(first, h), Emit(first, h, items))
    ensures StackAll(first, Store(h, items)) == Store(StackAll(first, h), Emit(first, h, items))
    decreases |items|
  {
    if items != [] {
      var it := items[0];
      var h' := Append(h, it);
      var mid := Item(it.seqId, it.pos, LastRow(first, Hist(h', it.seqId)));
      StackAllAppend(first, h, it);
      EmitConcat(first, second, h', items[1..]);
      StackConcat(first, second, Hist(h', it.seqId));
      assert Emit(first, h, items)[1..] == Emit(first, h', items[1..]);
      assert Hist(Append(StackAll(first, h), mid), it.seqId) == Stack(first, Hist(h', it.seqId));
    }
  }

  /** Positions are untouched by layers, so a segment accepts what the one before accepted. */
  lemma {:induction false} FitsThrough(layers: seq<Layer>, h: History, items: seq<Item>)
    ensures Fits(StackAll(layers, h), Emit(layers, h, items)) <==> Fits(h, items)
    decreases |items|
  {
    if items != [] {
      var it := items[0];
      StackAllAppend(layers, h, it);
      FitsThrough(layers, Append(h, it), items[1..]);
      assert Emit(layers, h, items)[1..] == Emit(layers, Append(h, it), items[1..]);
    }
  }

  lemma StackAllAscending(layers: seq<Layer>, h: History)
    requires AllAscending(h)
    ensures AllAscending(StackAll(layers, h))
  {
  }

  lemma StackAllOne(layer: Layer, h: History)
    ensures StackAll([layer], h) == LiftAll(layer, h)
  {
    forall s | s in h ensures Stack([layer], h[s]) == Lift(layer, h[s]) {
      StackOne(layer, h[s]);
    }
  }

  /** The batched, cached, masked decode means the row-by-row recomputation, for every
      mix of sequences in the batch, and leaves the caches of the longer history. */
  lemma {:induction false} DecodeIsEmit(layers: seq<Layer>, h: History, items: seq<Item>)
    requires AllAscending(h) && Fits(h, items)
    ensures Decode(layers, CachesOf(layers, h), items)
         == (CachesOf(layers, Store(h, items)), Emit(layers, h, items))
    decreases |layers|
  {
    if layers == [] {
      EmitNothing(h, items);
    } else {
      var one, rest := [layers[0]], layers[1..];
      var mid := Emit(one, h, items);
      LayerIsEmit(layers[0], h, items);
      StackAllOne(layers[0], h);
      StackAllOne(layers[0], Store(h, items));
      EmitConcat(one, rest, h, items);
      FitsThrough(one, h, items);
      StackAllAscending(one, h);
      DecodeIsEmit(rest, StackAll(one, h), mid);
      assert one + rest == layers;
      assert CachesOf(layers, h)[1..] == CachesOf(rest, LiftAll(layers[0], h));
    }
  }

  /** A batch may be cut anywhere: the parts in turn give the same rows. */
  lemma {:induction false} EmitSplit(layers: seq<Layer>, h: History, a: seq<Item>, b: seq<Item>)
    ensures Emit(layers, h, a + b) == Emit(layers, h, a) + Emit(layers, Store(h, a), b)
    decreases |a|
  {
    if a == [] {
      assert a + b == b;
    } else {
      assert (a + b)[1..] == a[1..] + b;
      EmitSplit(layers, Append(h, a[0]), a[1..], b);
    }
  }

  /** The k-th output row in closed form. */
  lemma EmitAt(layers: seq<Layer>, h: History, items: seq<Item>, k: nat)
    requires k < |items|
    ensures Hist(Store(h, items[..k + 1]), items[k].seqId) != []
    ensures Emit(layers, h, items)[k].row
         == LastRow(layers, Hist(Store(h, items[..k + 1]), items[k].seqId))
  {
    var a, x := items[..k], items[k];
    assert items == a + [x] + items[k + 1..];
    EmitSplit(layers, h, a + [x], items[k + 1..]);
    EmitSplit(layers, h, a, [x]);
    StoreSplit(h, a, [x]);
    assert items[..k + 1] == a + [x];
    var g := Store(h, a);
    assert Emit(layers, h, items)[k] == Emit(layers, g, [x])[0];
    assert [x][1..] == [];
    assert Store(Append(g, x), []) == Append(g, x);
    assert Store(g, [x]) == Append(g, x);
  }
}
