/** Middle segments called one after the other, each local or behind a relay connection. */
module MiddleChains {
  import opened Results
  import opened CausalLayers
  import opened DecodeBatch
  import opened NativeContexts
  import opened SegmentRunners

  /** Explicit sequence ids and positions, given for several sequences at once. */
  datatype SeqMeta = SeqMeta(seqIds: seq<nat>, positions: seq<nat>)

  predicate Shaped(meta: Option<SeqMeta>, rows: seq<Row>) {
    meta.Some? ==> |meta.value.seqIds| == |meta.value.positions| == |rows|
  }

  /** How a call's rows are placed: as told, or on sequence 0 from nPast. */
  function Placed(meta: Option<SeqMeta>, nPast: nat, rows: seq<Row>): seq<Item>
    requires Shaped(meta, rows)
  {
    match meta
    case None => Plain(nPast, rows)
    case Some(m) => Bind(m.seqIds, m.positions, rows)
  }

  lemma Replaced(meta: Option<SeqMeta>, nPast: nat, rows: seq<Row>, layers: seq<Layer>, h: History)
    requires Shaped(meta, rows)
    ensures var out := Emit(layers, h, Placed(meta, nPast, rows));
            |Rows(out)| == |rows| && Placed(meta, nPast, Rows(out)) == out
  {
    match meta
    case None => RePlain(nPast, rows, layers, h);
    case Some(m) => Rebind(m.seqIds, m.positions, rows, layers, h);
  }

  /** The position remote runners must agree on: none when every row carries its own. */
  function Counted(meta: Option<SeqMeta>, pos: nat): Option<nat> {
    if meta.None? then Some(pos) else None
  }

  function LayersOf(contexts: seq<NativeContext>): seq<Layer>
    decreases |contexts|
  {
    if contexts == [] then []
    else LayersOf(contexts[..|contexts| - 1]) + contexts[|contexts| - 1].layers
  }

  lemma LayersOfNext(contexts: seq<NativeContext>, i: nat)
    requires i < |contexts|
    ensures LayersOf(contexts[..i + 1]) == LayersOf(contexts[..i]) + contexts[i].layers
  {
    assert contexts[..i + 1][..i] == contexts[..i];
  }

  /** The mutable part of one segment: its caches and the rows a remote runner has counted. */
  datatype State = State(caches: seq<History>, count: nat)

  /** A segment holds the caches of an engine fed h, and a remote runner's count is pos. */
  ghost predicate InSync(layers: seq<Layer>, st: State, h: History, remote: bool, pos: Option<nat>) {
    && layers != [] && AllAscending(h) && st.caches == CachesOf(layers, h)
    && (remote && pos.Some? ==> st.count == pos.value)
  }

  /** Segments in the order the driver calls them. A local segment is an engine in the
      driver's own process, called at the driver's position; a remote one is a runner behind
      a relay connection, which counts the rows it has consumed itself. */
  class MiddleChain {
    const runners: seq<MiddleRunner>
    const remote: seq<bool>
    const contexts: seq<NativeContext>

    constructor (runners: seq<MiddleRunner>, remote: seq<bool>)
      requires runners != [] && |remote| == |runners|
      ensures this.runners == runners && this.remote == remote && WellFormed()
    {
      this.runners, this.remote := runners, remote;
      contexts := seq(|runners|, i requires 0 <= i < |runners| => runners[i].context);
    }

    /** No middle segment: the two-segment path. */
    constructor Direct()
      ensures runners == [] && WellFormed()
    {
      runners, remote, contexts := [], [], [];
    }

    ghost predicate WellFormed() {
      && |remote| == |runners| == |contexts|
      && forall i :: 0 <= i < |runners| ==> contexts[i] == runners[i].context
    }

    /** No two segments share a runner or an engine. */
    ghost predicate Apart()
      requires WellFormed()
    {
      forall i, j :: 0 <= i < j < |runners| ==> runners[i] != runners[j] && contexts[i] != contexts[j]
    }

    function Layers(): seq<Layer> {
      LayersOf(contexts)
    }

    /** What segment i must have been fed when the chain has been fed h. */
    function Want(i: nat, h: History): History
      requires i <= |contexts|
    {
      StackAll(LayersOf(contexts[..i]), h)
    }

    function StateOf(i: nat): State
      requires WellFormed() && i < |runners|
      reads runners[i], contexts[i]
    {
      State(contexts[i].caches, runners[i].pos)
    }

    function States(): (st: seq<State>)
      requires WellFormed()
      reads runners, contexts
    {
      seq(|runners|, i requires 0 <= i < |runners| reads runners, contexts => StateOf(i))
    }

    /** Segment i has been fed exactly that, and where the caller leaves positions to the
        segment, a remote runner's own count of rows agrees with the caller's. */
    ghost predicate SyncedAt(i: nat, st: State, h: History, pos: Option<nat>)
      requires WellFormed() && i < |runners|
    {
      InSync(contexts[i].layers, st, Want(i, h), remote[i], pos)
    }

    ghost predicate SyncedIn(st: seq<State>, first: nat, last: nat, h: History, pos: Option<nat>)
      requires WellFormed() && last <= |runners| == |st|
    {
      forall i :: first <= i < last ==> SyncedAt(i, st[i], h, pos)
    }

    ghost predicate Synced(h: History, pos: Option<nat>)
      requires WellFormed()
      reads runners, contexts
    {
      SyncedIn(States(), 0, |runners|, h, pos)
    }

    lemma SyncStep(st: seq<State>, i: nat, s: State, h: History, after: History, now: Option<nat>, later: Option<nat>)
      requires WellFormed() && i < |runners| == |st|
      requires SyncedIn(st, 0, i, after, later) && SyncedIn(st, i, |runners|, h, now) && SyncedAt(i, s, after, later)
      ensures SyncedIn(st[i := s], 0, i + 1, after, later)
      ensures SyncedIn(st[i := s], i + 1, |runners|, h, now)
    {
    }

    lemma StepAt(i: nat, h: History, items: seq<Item>)
      requires i < |contexts|
      ensures var layers := contexts[i].layers;
              && Store(Want(i, h), Emit(LayersOf(contexts[..i]), h, items)) == Want(i, Store(h, items))
              && Emit(LayersOf(contexts[..i + 1]), h, items)
              == Emit(layers, Want(i, h), Emit(LayersOf(contexts[..i]), h, items))
      ensures Accepts(contexts[i].limits, Want(i, h), Emit(LayersOf(contexts[..i]), h, items))
         <==> Accepts(contexts[i].limits, h, items)
    {
      var before := LayersOf(contexts[..i]);
      AcceptsThrough(contexts[i].limits, before, h, items);
      EmitConcat(before, contexts[i].layers, h, items);
      LayersOfNext(contexts, i);
    }

    /** One hop: segment i turns what the segments before it emit into what it adds to them. */
    method Hop(i: nat, rows: seq<Row>, nPast: nat, meta: Option<SeqMeta>, ghost h: History, ghost items: seq<Item>)
      returns (r: Result<seq<Row>>)
      requires WellFormed() && i < |runners| && Shaped(meta, rows)
      requires SyncedAt(i, StateOf(i), h, Counted(meta, nPast))
      requires Placed(meta, nPast, rows) == Emit(LayersOf(contexts[..i]), h, items)
      modifies runners[i], contexts[i]
      ensures r.Ok? <==> Accepts(contexts[i].limits, h, items)
      ensures r.Ok? ==> SyncedAt(i, StateOf(i), Store(h, items), Counted(meta, nPast + |rows|))
      ensures r.Ok? ==> |r.value| == |rows|
      ensures r.Ok? ==> Placed(meta, nPast, r.value) == Emit(LayersOf(contexts[..i + 1]), h, items)
    {
      StepAt(i, h, items);
      Replaced(meta, nPast, rows, contexts[i].layers, Want(i, h));
      r := Ask(i, rows, nPast, meta);
    }

    /** A local segment is called at the driver's position, a remote one at its own. */
    method Ask(i: nat, rows: seq<Row>, nPast: nat, meta: Option<SeqMeta>) returns (r: Result<seq<Row>>)
      requires WellFormed() && i < |runners| && Shaped(meta, rows) && contexts[i].Valid()
      requires remote[i] && meta.None? ==> runners[i].pos == nPast
      modifies runners[i], contexts[i]
      ensures contexts[i].Valid()
      ensures r.Ok? <==> Accepts(contexts[i].limits, old(contexts[i].Fed()), Placed(meta, nPast, rows))
      ensures r.Ok? ==> contexts[i].Fed() == Store(old(contexts[i].Fed()), Placed(meta, nPast, rows))
      ensures r.Ok? ==> r.value == Rows(Emit(contexts[i].layers, old(contexts[i].Fed()), Placed(meta, nPast, rows)))
      ensures r.Ok? && remote[i] && meta.None? ==> runners[i].pos == nPast + |rows|
    {
      if !remote[i] {
        r := contexts[i].Decode(Placed(meta, nPast, rows));
      } else {
        match meta {
          case None => r := runners[i].RequestHidden(rows);
          case Some(m) => r := runners[i].RequestHiddenSeq(rows, m.seqIds, m.positions);
        }
      }
    }

    /** A hop leaves every other segment alone. */
    method HopInPlace(i: nat, rows: seq<Row>, nPast: nat, meta: Option<SeqMeta>, ghost h: History,
                      ghost items: seq<Item>)
      returns (r: Result<seq<Row>>)
      requires WellFormed() && Apart() && i < |runners| && Shaped(meta, rows)
      requires SyncedAt(i, StateOf(i), h, Counted(meta, nPast))
      requires Placed(meta, nPast, rows) == Emit(LayersOf(contexts[..i]), h, items)
      modifies runners[i], contexts[i]
      ensures r.Ok? <==> Accepts(contexts[i].limits, h, items)
      ensures r.Ok? ==> SyncedAt(i, StateOf(i), Store(h, items), Counted(meta, nPast + |rows|))
      ensures r.Ok? ==> |r.value| == |rows|
      ensures r.Ok? ==> Placed(meta, nPast, r.value) == Emit(LayersOf(contexts[..i + 1]), h, items)
      ensures States() == old(States())[i := StateOf(i)]
    {
      r := Hop(i, rows, nPast, meta, h, items);
    }

    /** Between two hops: the first i segments have consumed the rows, the others have not, and
        the payload is what the first i emit. */
    ghost predicate Passing(i: nat, out: seq<Row>, nPast: nat, meta: Option<SeqMeta>, h: History, items: seq<Item>,
                            n: nat)
      requires WellFormed()
      reads runners, contexts
    {
      && i <= |runners| && |out| == n && Shaped(meta, out)
      && Placed(meta, nPast, out) == Emit(LayersOf(contexts[..i]), h, items)
      && SyncedIn(States(), 0, i, Store(h, items), Counted(meta, nPast + n))
      && SyncedIn(States(), i, |runners|, h, Counted(meta, nPast))
    }

    method Pass(i: nat, rows: seq<Row>, nPast: nat, meta: Option<SeqMeta>, ghost h: History, ghost items: seq<Item>,
                ghost n: nat)
      returns (r: Result<seq<Row>>)
      requires WellFormed() && Apart() && i < |runners| && Passing(i, rows, nPast, meta, h, items, n)
      modifies runners[i], contexts[i]
      ensures r.Ok? <==> Accepts(contexts[i].limits, h, items)
      ensures r.Ok? ==> Passing(i + 1, r.value, nPast, meta, h, items, n)
    {
      ghost var st := States();
      assert SyncedAt(i, st[i], h, Counted(meta, nPast));
      r := HopInPlace(i, rows, nPast, meta, h, items);
      if r.Ok? {
        SyncStep(st, i, StateOf(i), h, Store(h, items), Counted(meta, nPast), Counted(meta, nPast + n));
      }
    }

    /** The whole chain is one segment holding all the layers: it accepts what every segment
        accepts, returns what all the layers emit, and afterwards every segment has been fed
        what the ones before make of the longer history; remote positions advance alike. */
    method Forward(rows: seq<Row>, nPast: nat, meta: Option<SeqMeta>, ghost h: History) returns (r: Result<seq<Row>>)
      requires WellFormed() && Apart() && Synced(h, Counted(meta, nPast)) && Shaped(meta, rows)
      modifies runners, contexts
      ensures r.Ok? <==> forall i :: 0 <= i < |runners| ==>
                Accepts(contexts[i].limits, h, Placed(meta, nPast, rows))
      ensures r.Ok? ==> Synced(Store(h, Placed(meta, nPast, rows)), Counted(meta, nPast + |rows|))
      ensures r.Ok? ==> r.value == Rows(Emit(Layers(), h, Placed(meta, nPast, rows)))
    {
      ghost var items := Placed(meta, nPast, rows);
      var out := rows;
      EmitNothing(h, items);
      for i := 0 to |runners|
        invariant Passing(i, out, nPast, meta, h, items, |rows|)
        invariant forall j :: 0 <= j < i ==> Accepts(contexts[j].limits, h, items)
      {
        out :- Pass(i, out, nPast, meta, h, items, |rows|);
      }
      assert contexts[..|runners|] == contexts;
      RowsOfPlaced(meta, nPast, out);
      r := Ok(out);
    }
  }

  lemma RowsOfPlaced(meta: Option<SeqMeta>, nPast: nat, rows: seq<Row>)
    requires Shaped(meta, rows)
    ensures Rows(Placed(meta, nPast, rows)) == rows
  {
  }
}
