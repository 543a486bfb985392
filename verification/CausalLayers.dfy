/** A decoder as a stack of causal layers, and what one sequence's rows become under it.

    A layer is any function from the cells a position may attend to (its own and every
    earlier one, with their positions) to that position's output row. Nothing else is
    assumed about it, so every statement below holds for every causal network. */
module CausalLayers {

  type Row = seq<real>
  type Token = nat

  datatype Cell = Cell(pos: nat, row: Row)

  type Layer = seq<Cell> -> Row

  /** One layer over a whole sequence: position i sees the cells up to and including i. */
  function Lift(layer: Layer, cells: seq<Cell>): (r: seq<Cell>)
  {
    seq(|cells|, i requires 0 <= i < |cells| => Cell(cells[i].pos, layer(cells[..i + 1])))
  }

  /** The layers one after the other. */
  function Stack(layers: seq<Layer>, cells: seq<Cell>): (r: seq<Cell>)
    ensures |r| == |cells|
    ensures forall i :: 0 <= i < |cells| ==> r[i].pos == cells[i].pos
    decreases |layers|
  {
    if layers == [] then cells else Stack(layers[1..], Lift(layers[0], cells))
  }

  /** The output row of the last position of a non-empty sequence. */
  function LastRow(layers: seq<Layer>, cells: seq<Cell>): Row
    requires cells != []
  {
    Stack(layers, cells)[|cells| - 1].row
  }

  lemma LiftAppend(layer: Layer, cells: seq<Cell>, x: Cell)
    ensures Lift(layer, cells + [x]) == Lift(layer, cells) + [Cell(x.pos, layer(cells + [x]))]
  {
    var ext := cells + [x];
    forall i | 0 <= i < |cells|
      ensures Lift(layer, ext)[i] == Lift(layer, cells)[i]
    {
      assert ext[..i + 1] == cells[..i + 1];
    }
    assert ext[..|cells| + 1] == ext;
  }

  /** Causality of the whole stack: a new cell adds one output and changes none. */
  lemma {:induction false} StackAppend(layers: seq<Layer>, cells: seq<Cell>, x: Cell)
    ensures Stack(layers, cells + [x])
         == Stack(layers, cells) + [Cell(x.pos, LastRow(layers, cells + [x]))]
    decreases |layers|
  {
    if layers != [] {
      LiftAppend(layers[0], cells, x);
      StackAppend(layers[1..], Lift(layers[0], cells), Cell(x.pos, layers[0](cells + [x])));
    }
  }

  /** Causality for any prefix: what was emitted for a prefix is final. */
  lemma {:induction false} StackPrefix(layers: seq<Layer>, cells: seq<Cell>, more: seq<Cell>)
    ensures Stack(layers, cells + more)[..|cells|] == Stack(layers, cells)
    decreases |more|
  {
    if more == [] {
      assert cells + more == cells;
    } else {
      var init := more[..|more| - 1];
      StackPrefix(layers, cells, init);
      assert cells + more == (cells + init) + [more[|more| - 1]];
      StackAppend(layers, cells + init, more[|more| - 1]);
    }
  }

  lemma {:induction false} StackConcat(first: seq<Layer>, second: seq<Layer>, cells: seq<Cell>)
    ensures Stack(first + second, cells) == Stack(second, Stack(first, cells))
    decreases |first|
  {
    if first == [] {
      assert first + second == second;
    } else {
      assert (first + second)[1..] == first[1..] + second;
      StackConcat(first[1..], second, Lift(first[0], cells));
    }
  }
}
