/** One loaded segment: its layers, its context limits and its key/value caches. */
module NativeContexts {
  import opened Results
  import opened CausalLayers
  import opened DecodeBatch

  /** Context limits of a segment. ctxPerSeq is n_ctx divided by n_seq_max. */
  datatype Limits = Limits(nBatch: nat, ctxPerSeq: nat, nSeqMax: nat)

  /** When a batch can be decoded on top of what has been fed. */
  predicate Accepts(lim: Limits, h: History, items: seq<Item>) {
    && 0 < |items| <= lim.nBatch
    && (forall k :: 0 <= k < |items| ==> items[k].seqId < lim.nSeqMax && items[k].pos < lim.ctxPerSeq)
    && Fits(h, items)
  }

  lemma AcceptsThrough(lim: Limits, layers: seq<Layer>, h: History, items: seq<Item>)
    ensures Accepts(lim, StackAll(layers, h), Emit(layers, h, items)) <==> Accepts(lim, h, items)
  {
    FitsThrough(layers, h, items);
    var out := Emit(layers, h, items);
    assert forall k :: 0 <= k < |items| ==> out[k].seqId == items[k].seqId && out[k].pos == items[k].pos;
  }

  function Rows(items: seq<Item>): seq<Row> {
    seq(|items|, k requires 0 <= k < |items| => items[k].row)
  }

  /** Rows bound to explicit sequences and positions. */
  function Bind(seqIds: seq<nat>, positions: seq<nat>, rows: seq<Row>): seq<Item>
    requires |seqIds| == |positions| == |rows|
  {
    seq(|rows|, k requires 0 <= k < |rows| => Item(seqIds[k], positions[k], rows[k]))
  }

  /** Rows of the single sequence 0, at consecutive positions from nPast. */
  function Plain(nPast: nat, rows: seq<Row>): seq<Item> {
    seq(|rows|, k requires 0 <= k < |rows| => Item(0, nPast + k, rows[k]))
  }

  /** Rebinding the rows a segment emits restores the very items it emitted. */
  lemma Rebind(seqIds: seq<nat>, positions: seq<nat>, rows: seq<Row>, layers: seq<Layer>, h: History)
    requires |seqIds| == |positions| == |rows|
    ensures var out := Emit(layers, h, Bind(seqIds, positions, rows));
            Bind(seqIds, positions, Rows(out)) == out
  {
    var items := Bind(seqIds, positions, rows);
    var out := Emit(layers, h, items);
    forall k | 0 <= k < |rows| ensures Bind(seqIds, positions, Rows(out))[k] == out[k] {
      assert out[k].seqId == items[k].seqId && out[k].pos == items[k].pos;
    }
  }

  lemma RePlain(nPast: nat, rows: seq<Row>, layers: seq<Layer>, h: History)
    ensures var out := Emit(layers, h, Plain(nPast, rows));
            Plain(nPast, Rows(out)) == out
  {
    var items := Plain(nPast, rows);
    var out := Emit(layers, h, items);
    forall k | 0 <= k < |rows| ensures Plain(nPast, Rows(out))[k] == out[k] {
      assert out[k].seqId == items[k].seqId && out[k].pos == items[k].pos;
    }
  }

  class NativeContext {
    const layers: seq<Layer>
    const limits: Limits
    var caches: seq<History>

    constructor (layers: seq<Layer>, limits: Limits)
      requires layers != []
      ensures this.layers == layers && this.limits == limits
      ensures Valid() && Fed() == map[]
    {
      this.layers, this.limits := layers, limits;
      caches := CachesOf(layers, map[]);
    }

    /** What the first layer has been fed since the last reset. */
    function Fed(): History
      reads this
    {
      if caches == [] then map[] else caches[0]
    }

    ghost predicate Valid()
      reads this
    {
      layers != [] && AllAscending(Fed()) && caches == CachesOf(layers, Fed())
    }

    method Decode(items: seq<Item>) returns (r: Result<seq<Row>>)
      requires Valid()
      modifies this
      ensures Valid()
      ensures r.Ok? <==> Accepts(limits, old(Fed()), items)
      ensures r.Ok? ==> Fed() == Store(old(Fed()), items) && r.value == Rows(Emit(layers, old(Fed()), items))
      ensures r.Err? ==> Fed() == old(Fed())
    {
      if !Accepts(limits, Fed(), items) {
        return Err;
      }
      DecodeIsEmit(layers, Fed(), items);
      StoreAscending(Fed(), items);
      var (stored, out) := DecodeBatch.Decode(layers, caches, items);
      caches := stored;
      r := Ok(Rows(out));
    }

    /** Clears the key/value memory. */
    method Reset()
      requires layers != []
      modifies this
      ensures Valid() && Fed() == map[]
    {
      caches := CachesOf(layers, map[]);
    }
  }
}
