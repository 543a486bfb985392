/** The layer cutter: which cuts of a source artifact are accepted, and what they write. */
module CutLayers {

  type Data = nat

  /** A tensor of block `index`, or one outside the blocks. */
  datatype Tensor = Block(index: nat, suffix: string, data: Data) | Global(name: string, data: Data)

  datatype ArrayKind = RecurrentLayers | HeadCount | HeadCountKv | KeyLength | AttentionInterval

  /** A metadata field that llama.cpp may want per layer: one value shared by all, or a list. */
  datatype Field = Scalar(kind: ArrayKind, value: int) | PerLayer(kind: ArrayKind, values: seq<int>)

  /** An artifact. An interval of 0 stands for an absent full_attention_interval. */
  datatype Artifact = Artifact(arch: string, blockCount: nat, nextn: nat, interval: nat,
                               tensors: seq<Tensor>, fields: seq<Field>)
  {
    /** The ordinary layers; the MTP blocks come after them. */
    function NLayer(): nat {
      if blockCount < nextn then 0 else blockCount - nextn
    }
  }

  /** head keeps the first n layers, tail drops the first k, middle keeps k up to end. */
  datatype Cut = Head(n: nat) | Tail(k: nat) | Middle(k: nat, end: nat) {

    function Lo(): nat {
      match this
      case Head(_) => 0
      case Tail(k) => k
      case Middle(k, _) => k
    }

    /** One past the last block kept of a source with that many blocks. */
    function Hi(blockCount: nat): nat {
      match this
      case Head(n) => n
      case Tail(_) => blockCount
      case Middle(_, end) => end
    }

    predicate Keeps(index: nat) {
      match this
      case Head(n) => index < n
      case Tail(k) => k <= index
      case Middle(k, end) => k <= index < end
    }

    /** The number of blocks the written artifact declares. */
    function KeptBlockCount(blockCount: nat): nat {
      match this
      case Head(n) => n
      case Tail(k) => if blockCount < k then 0 else blockCount - k
      case Middle(k, end) => if end < k then 0 else end - k
    }
  }

  predicate Multiple(value: nat, interval: nat) {
    interval == 0 || value % interval == 0
  }

  /** The cut-point check. */
  predicate CutAccepted(a: Artifact, c: Cut) {
    match c
    case Head(n) => 0 < n < a.NLayer() && Multiple(n, a.interval)
    case Tail(k) => 0 < k < a.NLayer() && Multiple(k, a.interval)
    case Middle(k, end) =>
      && 0 < k < a.NLayer() && Multiple(k, a.interval)
      && k < end <= a.NLayer() && Multiple(end, a.interval) && Multiple(end - k, a.interval)
  }

  // ---- tensors ----

  /** What becomes of one tensor: dropped, or kept under its name in the artifact. */
  function Renamed(c: Cut, t: Tensor): seq<Tensor> {
    if t.Global? then [t]
    else if c.Keeps(t.index) then [t.(index := t.index - c.Lo())]
    else []
  }

  function Kept(c: Cut, ts: seq<Tensor>): seq<Tensor>
    decreases |ts|
  {
    if ts == [] then [] else Kept(c, ts[..|ts| - 1]) + Renamed(c, ts[|ts| - 1])
  }

  function Dropped(c: Cut, ts: seq<Tensor>): seq<Tensor>
    decreases |ts|
  {
    if ts == [] then []
    else Dropped(c, ts[..|ts| - 1]) + if Renamed(c, ts[|ts| - 1]) == [] then [ts[|ts| - 1]] else []
  }

  /** The tensors to keep under their new names and those to drop, in source order. */
  method PlanTensors(ts: seq<Tensor>, c: Cut) returns (keep: seq<Tensor>, drop: seq<Tensor>)
    ensures keep == Kept(c, ts) && drop == Dropped(c, ts)
    ensures |keep| + |drop| == |ts|
  {
    keep, drop := [], [];
    for i := 0 to |ts|
      invariant keep == Kept(c, ts[..i]) && drop == Dropped(c, ts[..i])
      invariant |keep| + |drop| == i
    {
      assert ts[..i + 1][..i] == ts[..i];
      var t := ts[i];
      if t.Global? {
        keep := keep + [t];
      } else if c.Head? {
        if t.index >= c.n {
          drop := drop + [t];
        } else {
          keep := keep + [t];
        }
      } else if t.index < c.k || (c.Middle? && t.index >= c.end) {
        drop := drop + [t];
      } else {
        keep := keep + [t.(index := t.index - c.k)];
      }
    }
    assert ts[..|ts|] == ts;
  }

  // ---- per-layer metadata ----

  /** Python slicing of a list between non-negative bounds. */
  function Slice(values: seq<int>, lo: nat, hi: nat): seq<int> {
    var to := if hi < |values| then hi else |values|;
    if lo <= to then values[lo..to] else []
  }

  function ExpectedLength(a: Artifact, kind: ArrayKind): nat {
    if kind.RecurrentLayers? then a.NLayer() else a.blockCount
  }

  predicate FieldAccepted(a: Artifact, c: Cut, f: Field) {
    match f
    case Scalar(kind, _) => !kind.RecurrentLayers?
    case PerLayer(kind, values) =>
      && |values| == ExpectedLength(a, kind)
      && |Slice(values, c.Lo(), c.Hi(a.blockCount))| == c.Hi(a.blockCount) - c.Lo()
  }

  function CutField(a: Artifact, c: Cut, f: Field): Field {
    match f
    case Scalar(_, _) => f
    case PerLayer(kind, values) => PerLayer(kind, Slice(values, c.Lo(), c.Hi(a.blockCount)))
  }

  function CutFields(a: Artifact, c: Cut, fs: seq<Field>): (r: seq<Field>)
    ensures |r| == |fs|
  {
    seq(|fs|, i requires 0 <= i < |fs| => CutField(a, c, fs[i]))
  }

  /** The rewritten fields, and whether a problem was found. */
  method PerLayerOverrides(a: Artifact, c: Cut) returns (fields: seq<Field>, problems: nat)
    ensures problems == 0 <==> forall i :: 0 <= i < |a.fields| ==> FieldAccepted(a, c, a.fields[i])
    ensures problems == 0 ==> fields == CutFields(a, c, a.fields)
  {
    fields, problems := [], 0;
    for i := 0 to |a.fields|
      invariant problems == 0 <==> forall j :: 0 <= j < i ==> FieldAccepted(a, c, a.fields[j])
      invariant problems == 0 ==> fields == CutFields(a, c, a.fields[..i])
    {
      match a.fields[i] {
        case Scalar(kind, _) =>
          if kind.RecurrentLayers? {
            problems := problems + 1;
          } else {
            fields := fields + [a.fields[i]];
          }
        case PerLayer(kind, values) =>
          var sliced := Slice(values, c.Lo(), c.Hi(a.blockCount));
          if |values| != ExpectedLength(a, kind) {
            problems := problems + 1;
          } else if |sliced| != c.Hi(a.blockCount) - c.Lo() {
            problems := problems + 1;
          } else {
            fields := fields + [PerLayer(kind, sliced)];
          }
      }
    }
    assert a.fields[..|a.fields|] == a.fields;
  }

  // ---- layer types and required tensors ----

  /** llama.cpp's rule for a layer, from its number in the artifact it loads. */
  predicate FullAttention(local: nat, interval: nat)
    requires interval > 0
  {
    (local + 1) % interval == 0
  }

  /** The check of the declared layer types: llama.cpp re-derives exactly these. */
  predicate TypesFollowRule(types: seq<string>, interval: nat)
    requires interval > 0
  {
    forall i :: 0 <= i < |types| ==> (types[i] == "full_attention" <==> FullAttention(i, interval))
  }

  method ValidateLayerTypes(a: Artifact, types: seq<string>) returns (ok: bool)
    ensures ok <==> a.interval > 0 && types != [] && |types| == a.NLayer() && TypesFollowRule(types, a.interval)
  {
    if a.interval == 0 || types == [] || |types| != a.NLayer() {
      return false;
    }
    ok := true;
    for i := 0 to |types|
      invariant ok <==> TypesFollowRule(types[..i], a.interval)
    {
      if FullAttention(i, a.interval) != (types[i] == "full_attention") {
        assert !TypesFollowRule(types, a.interval);
        return false;
      }
    }
    assert types[..|types|] == types;
  }

  const REQUIRED_LINEAR := {
    "attn_norm.weight", "post_attention_norm.weight",
    "ssm_conv1d.weight", "ssm_dt.bias", "ssm_a", "ssm_beta.weight",
    "ssm_alpha.weight", "ssm_norm.weight", "ssm_out.weight",
    "ffn_gate.weight", "ffn_down.weight", "ffn_up.weight"}

  const REQUIRED_FULL := {
    "attn_norm.weight", "post_attention_norm.weight",
    "attn_q.weight", "attn_k.weight", "attn_v.weight", "attn_output.weight",
    "attn_q_norm.weight", "attn_k_norm.weight",
    "ffn_gate.weight", "ffn_down.weight", "ffn_up.weight"}

  const REQUIRED_GLOBAL := {"token_embd.weight", "output_norm.weight"}

  predicate HasBlock(ts: seq<Tensor>, index: nat, suffix: string) {
    exists t :: t in ts && t.Block? && t.index == index && t.suffix == suffix
  }

  predicate HasGlobal(ts: seq<Tensor>, name: string) {
    exists t :: t in ts && t.Global? && t.name == name
  }

  predicate HasAll(ts: seq<Tensor>, index: nat, suffixes: set<string>) {
    forall s :: s in suffixes ==> HasBlock(ts, index, s)
  }

  /** The interval the required-tensor check uses: llama.cpp's default where none is given. */
  function RequiredInterval(interval: nat): (r: nat)
    ensures r > 0
  {
    if interval == 0 then 4 else interval
  }

  function RequiredSuffixes(local: nat, interval: nat): set<string> {
    if FullAttention(local, RequiredInterval(interval)) then REQUIRED_FULL else REQUIRED_LINEAR
  }

  /** The check applies to an architecture with a table, when the source looks complete. */
  predicate RequiredApplies(a: Artifact) {
    a.arch == "qwen35" && HasAll(a.tensors, 0, REQUIRED_LINEAR)
  }

  function RequiredHi(a: Artifact, c: Cut): nat {
    match c
    case Head(n) => n
    case Tail(_) => a.NLayer()
    case Middle(_, end) => end
  }

  /** Kept source block `index` has what its layer type in the artifact requires. */
  predicate HasRequired(a: Artifact, c: Cut, index: nat) {
    c.Lo() <= index ==> HasAll(a.tensors, index, RequiredSuffixes(index - c.Lo(), a.interval))
  }

  ghost predicate RequiredAccepted(a: Artifact, c: Cut) {
    RequiredApplies(a) ==>
      && (forall name :: name in REQUIRED_GLOBAL ==> HasGlobal(a.tensors, name))
      && (forall index :: c.Lo() <= index < RequiredHi(a, c) ==> HasRequired(a, c, index))
  }

  method ValidateRequiredTensors(a: Artifact, c: Cut) returns (ok: bool)
    ensures ok <==> RequiredAccepted(a, c)
  {
    if !RequiredApplies(a) {
      return true;
    }
    ok := forall name :: name in REQUIRED_GLOBAL ==> HasGlobal(a.tensors, name);
    ghost var globals := ok;
    var index := c.Lo();
    while index < RequiredHi(a, c)
      invariant c.Lo() <= index
      invariant ok <==> globals && forall i :: c.Lo() <= i < index && i < RequiredHi(a, c) ==> HasRequired(a, c, i)
      decreases RequiredHi(a, c) - index
    {
      if !HasRequired(a, c, index) {
        ok := false;
      }
      index := index + 1;
    }
  }

  // ---- the whole cut ----

  ghost predicate Accepted(a: Artifact, c: Cut) {
    && CutAccepted(a, c)
    && (forall i :: 0 <= i < |a.fields| ==> FieldAccepted(a, c, a.fields[i]))
    && RequiredAccepted(a, c)
  }

  /** The MTP count written: zeroed when the last block is not kept. */
  function WrittenNextn(a: Artifact, c: Cut): nat {
    if a.nextn == 0 then 0
    else
      var mtpIndex := a.blockCount - 1;
      var mtpKept :=
        match c
        case Head(n) => mtpIndex < n
        case Tail(k) => mtpIndex >= k
        case Middle(k, end) => k <= mtpIndex < end;
      if mtpKept then a.nextn else 0
  }

  function Apply(a: Artifact, c: Cut): Artifact {
    Artifact(a.arch, c.KeptBlockCount(a.blockCount), WrittenNextn(a, c), a.interval,
             Kept(c, a.tensors), CutFields(a, c, a.fields))
  }
}
