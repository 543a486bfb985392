/** The block quantisation of a hidden row on the wire, over the reals: what one round trip may
    change and what it keeps. */
module HiddenQuant {

  const BLOCK := 128

  /** The two block modes differ in the largest code: 127 for eight bits, 7 for four. */
  const INT8 := 127
  const INT4 := 7

  function Abs(x: real): real {
    if x < 0.0 then -x else x
  }

  /** Rounds to the nearest integer, a half to the even one. */
  function RoundHalfEven(x: real): int {
    var low := x.Floor;
    var rest := x - low as real;
    if rest < 0.5 || (rest == 0.5 && low % 2 == 0) then low else low + 1
  }

  function Clip(code: int, levels: int): int {
    if code < -levels then -levels else if code > levels then levels else code
  }

  function Largest(block: seq<real>): real
    decreases |block|
  {
    if block == [] then 0.0
    else
      var rest := Largest(block[..|block| - 1]);
      if Abs(block[|block| - 1]) > rest then Abs(block[|block| - 1]) else rest
  }

  function Scale(block: seq<real>): (scale: real)
    ensures scale > 0.0
  {
    LargestNonNegative(block);
    if Largest(block) == 0.0 then 1.0 else Largest(block)
  }

  /** Where an entry lies on the scale of codes. */
  function Position(x: real, scale: real, levels: int): real
    requires scale > 0.0
  {
    x / scale * levels as real
  }

  function Code(x: real, scale: real, levels: int): int
    requires scale > 0.0
  {
    Clip(RoundHalfEven(Position(x, scale, levels)), levels)
  }

  function Restored(code: int, scale: real, levels: int): real
    requires levels > 0
  {
    code as real / levels as real * scale
  }

  /** The row filled up with zeros to whole blocks. */
  function Padded(row: seq<real>): (padded: seq<real>)
    ensures |padded| % BLOCK == 0 && |row| <= |padded| < |row| + BLOCK && padded[..|row|] == row
    ensures forall i :: |row| <= i < |padded| ==> padded[i] == 0.0
  {
    row + seq((|row| + BLOCK - 1) / BLOCK * BLOCK - |row|, i => 0.0)
  }

  /** The block of a padded row that the index falls in. */
  function BlockOf(padded: seq<real>, i: nat): seq<real>
    requires i < |padded| && |padded| % BLOCK == 0
  {
    padded[i / BLOCK * BLOCK..i / BLOCK * BLOCK + BLOCK]
  }

  function ScaleAt(row: seq<real>, i: nat): (scale: real)
    requires i < |row|
    ensures scale > 0.0
  {
    Scale(BlockOf(Padded(row), i))
  }

  /** Quantised and restored: the row that the next hop receives. */
  function RoundTrip(row: seq<real>, levels: int): (out: seq<real>)
    requires levels > 0
    ensures |out| == |row|
  {
    seq(|row|, i requires 0 <= i < |row| => Restored(Code(row[i], ScaleAt(row, i), levels), ScaleAt(row, i), levels))
  }

  // ---- one entry ----

  lemma LargestNonNegative(block: seq<real>)
    ensures Largest(block) >= 0.0
    decreases |block|
  {
  }

  lemma RoundsNear(x: real)
    ensures -0.5 <= RoundHalfEven(x) as real - x <= 0.5
  {
  }

  lemma RoundsInteger(k: int)
    ensures RoundHalfEven(k as real) == k
  {
  }

  lemma RoundsWithin(t: real, levels: int)
    requires -levels as real <= t <= levels as real
    ensures -levels <= RoundHalfEven(t) <= levels
  {
    assert t.Floor as real <= t < t.Floor as real + 1.0;
    if t.Floor >= levels {
      assert t == levels as real;
    }
  }

  lemma Cancel(t: real, l: real)
    requires l > 0.0
    ensures t * l / l == t
    ensures t / l * l == t
  {
  }

  lemma Between(d: real, bound: real, factor: real)
    requires factor > 0.0 && -bound <= d <= bound
    ensures -(bound * factor) <= d * factor <= bound * factor
  {
  }

  lemma Ratio(x: real, scale: real)
    requires scale > 0.0 && Abs(x) <= scale
    ensures -1.0 <= x / scale <= 1.0
  {
  }

  lemma PositionWithin(x: real, scale: real, levels: int)
    requires scale > 0.0 && levels > 0 && Abs(x) <= scale
    ensures -levels as real <= Position(x, scale, levels) <= levels as real
  {
    Ratio(x, scale);
    Between(x / scale, 1.0, levels as real);
  }

  /** An entry no larger than the scale is never clipped. */
  lemma NoClip(x: real, scale: real, levels: int)
    requires scale > 0.0 && levels > 0 && Abs(x) <= scale
    ensures Code(x, scale, levels) == RoundHalfEven(Position(x, scale, levels))
    ensures -levels <= Code(x, scale, levels) <= levels
  {
    PositionWithin(x, scale, levels);
    RoundsWithin(Position(x, scale, levels), levels);
  }

  /** Restoring is the inverse of positioning. */
  lemma PositionOfRestored(code: int, scale: real, levels: int)
    requires scale > 0.0 && levels > 0
    ensures Position(Restored(code, scale, levels), scale, levels) == code as real
  {
    Cancel(code as real / levels as real, scale);
    Cancel(code as real, levels as real);
  }

  /** A code as far as half a step from an entry's position restores to within half a step. */
  lemma RestoredNear(code: int, x: real, scale: real, levels: int)
    requires scale > 0.0 && levels > 0 && -0.5 <= code as real - Position(x, scale, levels) <= 0.5
    ensures Abs(Restored(code, scale, levels) - x) <= scale / (2.0 * levels as real)
  {
    var l := levels as real;
    var y := Restored(code, scale, levels);
    PositionOfRestored(code, scale, levels);
    assert y / scale * l - x / scale * l == (y - x) / scale * l;
    Cancel((y - x) / scale, l);
    Cancel(y - x, scale);
    StepBack((y - x) / scale * l, 1.0 / l, scale);
    assert (y - x) / scale * l * (1.0 / l) == (y - x) / scale;
    assert 0.5 * (1.0 / l) * scale == scale / (2.0 * l);
  }

  lemma StepBack(d: real, unit: real, scale: real)
    requires unit > 0.0 && scale > 0.0 && -0.5 <= d <= 0.5
    ensures -(0.5 * unit * scale) <= d * unit * scale <= 0.5 * unit * scale
  {
    Between(d, 0.5, unit);
    Between(d * unit, 0.5 * unit, scale);
  }

  lemma EntryError(x: real, scale: real, levels: int)
    requires scale > 0.0 && levels > 0 && Abs(x) <= scale
    ensures Abs(Restored(Code(x, scale, levels), scale, levels) - x) <= scale / (2.0 * levels as real)
  {
    NoClip(x, scale, levels);
    RoundsNear(Position(x, scale, levels));
    RestoredNear(Code(x, scale, levels), x, scale, levels);
  }

  lemma CodeReturns(code: int, scale: real, levels: int)
    requires scale > 0.0 && levels > 0 && -levels <= code <= levels
    ensures Code(Restored(code, scale, levels), scale, levels) == code
  {
    PositionOfRestored(code, scale, levels);
    RoundsInteger(code);
  }

  lemma FullCode(scale: real, levels: int)
    requires scale > 0.0 && levels > 0
    ensures Restored(levels, scale, levels) == scale && Restored(-levels, scale, levels) == -scale
  {
    assert levels as real / levels as real == 1.0;
    assert (-levels) as real / levels as real == -1.0;
  }

  lemma FullPosition(scale: real, levels: int)
    requires scale > 0.0
    ensures Position(scale, scale, levels) == levels as real && Position(-scale, scale, levels) == (-levels) as real
  {
    assert scale / scale == 1.0;
    assert -scale / scale == -1.0;
  }

  lemma ExtremeKept(x: real, scale: real, levels: int)
    requires scale > 0.0 && levels > 0 && Abs(x) == scale
    ensures Restored(Code(x, scale, levels), scale, levels) == x
  {
    FullPosition(scale, levels);
    FullCode(scale, levels);
    RoundsInteger(levels);
    RoundsInteger(-levels);
  }

  lemma ZeroKept(scale: real, levels: int)
    requires scale > 0.0 && levels > 0
    ensures Restored(Code(0.0, scale, levels), scale, levels) == 0.0
  {
    assert 0.0 / scale * levels as real == 0.0;
    RoundsInteger(0);
    assert (0 as real) / levels as real == 0.0;
  }

  lemma RestoredBounded(code: int, scale: real, levels: int)
    requires scale > 0.0 && levels > 0 && -levels <= code <= levels
    ensures Abs(Restored(code, scale, levels)) <= scale
  {
    Ratio(code as real, levels as real);
    Between(code as real / levels as real, 1.0, scale);
  }

  // ---- a block ----

  lemma {:induction false} LargestBounds(block: seq<real>, i: nat)
    requires i < |block|
    ensures Abs(block[i]) <= Largest(block)
    decreases |block|
  {
    if i < |block| - 1 {
      LargestBounds(block[..|block| - 1], i);
    }
  }

  lemma {:induction false} LargestReached(block: seq<real>) returns (i: nat)
    requires Largest(block) > 0.0
    ensures i < |block| && Abs(block[i]) == Largest(block)
    decreases |block|
  {
    if Abs(block[|block| - 1]) == Largest(block) {
      i := |block| - 1;
    } else {
      i := LargestReached(block[..|block| - 1]);
    }
  }

  /** The same largest magnitude, entry by entry bounded and somewhere reached, is the same Largest. */
  lemma LargestIs(block: seq<real>, bound: real)
    requires bound >= 0.0 && forall i :: 0 <= i < |block| ==> Abs(block[i]) <= bound
    requires bound > 0.0 ==> exists i :: 0 <= i < |block| && Abs(block[i]) == bound
    ensures Largest(block) == bound
  {
    LargestNonNegative(block);
    if Largest(block) > 0.0 {
      var i := LargestReached(block);
    }
    if bound > 0.0 {
      var i :| 0 <= i < |block| && Abs(block[i]) == bound;
      LargestBounds(block, i);
    }
  }

  // ---- a row ----

  /** The indices of a row that share a block. */
  predicate Together(row: seq<real>, i: nat, j: nat) {
    i < |row| && j < |row| && i / BLOCK == j / BLOCK
  }

  /** The largest magnitude among the row's own entries in the block of this index. */
  ghost predicate IsPeak(row: seq<real>, i: nat, peak: real) {
    && (forall j: nat :: Together(row, i, j) ==> Abs(row[j]) <= peak)
    && exists j: nat :: Together(row, i, j) && Abs(row[j]) == peak
  }

  lemma InBlock(row: seq<real>, i: nat, j: nat)
    requires Together(row, i, j)
    ensures BlockOf(Padded(row), i) == BlockOf(Padded(row), j)
    ensures BlockOf(Padded(row), i)[j - i / BLOCK * BLOCK] == row[j]
  {
    assert Padded(row)[..|row|][j] == row[j];
  }

  /** The padding is without effect: the scale of a block comes from the row's own entries. */
  lemma PaddingIgnored(row: seq<real>, i: nat, peak: real)
    requires i < |row| && IsPeak(row, i, peak)
    ensures Largest(BlockOf(Padded(row), i)) == peak
    ensures ScaleAt(row, i) == if peak == 0.0 then 1.0 else peak
  {
    var block := BlockOf(Padded(row), i);
    var start := i / BLOCK * BLOCK;
    assert Together(row, i, i) && Abs(row[i]) <= peak;
    forall k | 0 <= k < |block|
      ensures Abs(block[k]) <= peak
    {
      if start + k < |row| {
        InBlock(row, i, start + k);
      }
    }
    var j: nat :| Together(row, i, j) && Abs(row[j]) == peak;
    InBlock(row, i, j);
    assert Abs(block[j - start]) == peak;
    LargestIs(block, peak);
  }

  /** Every entry moves by at most half a step of its block. */
  lemma ErrorBound(row: seq<real>, levels: int, i: nat, peak: real)
    requires levels > 0 && i < |row| && IsPeak(row, i, peak)
    ensures Abs(RoundTrip(row, levels)[i] - row[i]) <= peak / (2.0 * levels as real)
  {
    PaddingIgnored(row, i, peak);
    assert Together(row, i, i);
    if peak == 0.0 {
      ZeroKept(1.0, levels);
    } else {
      EntryError(row[i], peak, levels);
    }
  }

  /** In the two modes: an eight-bit trip moves an entry by at most peak / 254, a four-bit one
      by at most peak / 14. */
  lemma ModeErrors(row: seq<real>, i: nat, peak: real)
    requires i < |row| && IsPeak(row, i, peak)
    ensures Abs(RoundTrip(row, INT8)[i] - row[i]) <= peak / 254.0
    ensures Abs(RoundTrip(row, INT4)[i] - row[i]) <= peak / 14.0
  {
    ErrorBound(row, INT8, i, peak);
    ErrorBound(row, INT4, i, peak);
  }

  /** An entry of the largest magnitude in its block comes back as it was. */
  lemma PeakKept(row: seq<real>, levels: int, i: nat)
    requires levels > 0 && i < |row| && IsPeak(row, i, Abs(row[i]))
    ensures RoundTrip(row, levels)[i] == row[i]
  {
    PaddingIgnored(row, i, Abs(row[i]));
    if row[i] == 0.0 {
      ZeroKept(1.0, levels);
    } else {
      ExtremeKept(row[i], Abs(row[i]), levels);
    }
  }

  lemma EntryBounded(row: seq<real>, levels: int, i: nat, peak: real)
    requires levels > 0 && i < |row| && IsPeak(row, i, peak)
    ensures Abs(RoundTrip(row, levels)[i]) <= peak
  {
    PaddingIgnored(row, i, peak);
    assert Together(row, i, i);
    if peak == 0.0 {
      ZeroKept(1.0, levels);
    } else {
      NoClip(row[i], peak, levels);
      RestoredBounded(Code(row[i], peak, levels), peak, levels);
    }
  }

  /** Every block keeps its largest magnitude. */
  lemma PeaksKept(row: seq<real>, levels: int, i: nat, peak: real)
    requires levels > 0 && i < |row| && IsPeak(row, i, peak)
    ensures IsPeak(RoundTrip(row, levels), i, peak)
  {
    var out := RoundTrip(row, levels);
    forall j: nat | Together(out, i, j)
      ensures Abs(out[j]) <= peak
    {
      assert IsPeak(row, j, peak) by {
        SharedPeak(row, i, j, peak);
      }
      EntryBounded(row, levels, j, peak);
    }
    var j: nat :| Together(row, i, j) && Abs(row[j]) == peak;
    SharedPeak(row, i, j, peak);
    PeakKept(row, levels, j);
    assert Together(out, i, j);
  }

  lemma SharedPeak(row: seq<real>, i: nat, j: nat, peak: real)
    requires Together(row, i, j) && IsPeak(row, i, peak)
    ensures IsPeak(row, j, peak)
  {
    assert forall k: nat :: Together(row, j, k) <==> Together(row, i, k);
  }

  lemma HasPeak(row: seq<real>, i: nat) returns (peak: real)
    requires i < |row|
    ensures IsPeak(row, i, peak)
  {
    var block := BlockOf(Padded(row), i);
    var start := i / BLOCK * BLOCK;
    peak := Largest(block);
    LargestNonNegative(block);
    forall j: nat | Together(row, i, j)
      ensures Abs(row[j]) <= peak
    {
      InBlock(row, i, j);
      LargestBounds(block, j - start);
    }
    if peak > 0.0 {
      var k := LargestReached(block);
      assert block[k] == Padded(row)[start + k];
      InBlock(row, i, start + k);
      assert Together(row, i, start + k);
    } else {
      assert Together(row, i, i);
    }
  }

  /** A second round trip changes nothing. */
  lemma Idempotent(row: seq<real>, levels: int)
    requires levels > 0
    ensures RoundTrip(RoundTrip(row, levels), levels) == RoundTrip(row, levels)
  {
    var once := RoundTrip(row, levels);
    forall i | 0 <= i < |row|
      ensures RoundTrip(once, levels)[i] == once[i]
    {
      var peak := HasPeak(row, i);
      PeaksKept(row, levels, i, peak);
      PaddingIgnored(row, i, peak);
      PaddingIgnored(once, i, peak);
      assert Together(row, i, i);
      NoClip(row[i], ScaleAt(row, i), levels);
      CodeReturns(Code(row[i], ScaleAt(row, i), levels), ScaleAt(row, i), levels);
    }
  }
}
