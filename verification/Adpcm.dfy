/**
 IMA ADPCM block decoding: a predictor whose state is cached in front of every block,
 stepped by four-bit nibbles. The state and its steps are over `int`; the method does
 the same in 32-bit integers, which overflow nowhere.
 */
module Adpcm {
  import opened Wrappers
  import opened Bytes

  newtype i32 = x: int | -0x8000_0000 <= x < 0x8000_0000
  newtype u32 = x: int | 0 <= x < 0x1_0000_0000

  const MAX_STEP_INDEX: nat := 88
  const MAX_SAMPLE_SIZE: int := 32768
  const I16_MAX: nat := 32767
  const BLOCK_HEADER_SIZE: nat := 4

  // The step table, in four stretches.
  const STEPS_0: seq<nat> := [
    7, 8, 9, 10, 11, 12, 13, 14, 16, 17, 19, 21, 23, 25, 28, 31, 34, 37, 41, 45, 50, 55, 60]
  const STEPS_23: seq<nat> := [
    66, 73, 80, 88, 97, 107, 118, 130, 143, 157, 173, 190, 209, 230, 253, 279, 307, 337, 371, 408, 449, 494]
  const STEPS_45: seq<nat> := [
    544, 598, 658, 724, 796, 876, 963, 1060, 1166, 1282, 1411, 1552, 1707, 1878, 2066, 2272, 2499, 2749, 3024, 3327,
    3660, 4026]
  const STEPS_67: seq<nat> := [
    4428, 4871, 5358, 5894, 6484, 7132, 7845, 8630, 9493, 10442, 11487, 12635, 13899, 15289, 16818, 18500, 20350,
    22385, 24623, 27086, 29794, 32767]
  const STEPS: seq<nat> := STEPS_0 + STEPS_23 + STEPS_45 + STEPS_67

  type nibble = x: int | 0 <= x < 16

  function Change(n: nibble): (c: int)
    ensures -1 <= c <= 8
  {
    if n % 8 < 4 then -1 else 2 * (n % 8 - 3)
  }

  predicate InRange(row: seq<nat>) {
    forall i :: 0 <= i < |row| ==> 7 <= row[i] <= I16_MAX
  }

  lemma Row0()
    ensures |STEPS_0| == 23 && STEPS_0[0] == 7 && InRange(STEPS_0)
  {
  }

  lemma Row23()
    ensures |STEPS_23| == 22 && InRange(STEPS_23)
  {
  }

  lemma Row45()
    ensures |STEPS_45| == 22 && InRange(STEPS_45)
  {
  }

  lemma Row67()
    ensures |STEPS_67| == 22 && STEPS_67[21] == I16_MAX && InRange(STEPS_67)
  {
  }

  lemma Joined(a: seq<nat>, b: seq<nat>, c: seq<nat>, d: seq<nat>)
    requires |a| > 0 && |d| > 0
    requires InRange(a) && InRange(b) && InRange(c) && InRange(d)
    ensures InRange(a + b + c + d)
    ensures (a + b + c + d)[0] == a[0]
    ensures (a + b + c + d)[|a| + |b| + |c| + |d| - 1] == d[|d| - 1]
  {
  }

  /** Every index the clamp lets through is in the table, and the table runs from 7 to 32767. */
  lemma StepTable(i: nat)
    requires i <= MAX_STEP_INDEX
    ensures |STEPS| == MAX_STEP_INDEX + 1
    ensures 7 <= STEPS[i] <= I16_MAX
    ensures STEPS[0] == 7 && STEPS[MAX_STEP_INDEX] == I16_MAX
  {
    Row0();
    Row23();
    Row45();
    Row67();
    Joined(STEPS_0, STEPS_23, STEPS_45, STEPS_67);
  }

  function ClampIndex(i: int): (r: nat)
    ensures r <= MAX_STEP_INDEX
    ensures 0 <= i <= MAX_STEP_INDEX ==> r == i
  {
    Min(Max(i, 0), MAX_STEP_INDEX)
  }

  /** The step size in force; it is always in the table. */
  function StepSize(index: int): (step: nat)
    ensures 7 <= step <= I16_MAX
  {
    StepTable(ClampIndex(index));
    STEPS[ClampIndex(index)]
  }

  /** The shift-and-add approximation of a step times a nibble's magnitude. */
  function Diff(step: nat, n: nibble): nat {
    step / 8
    + (if n / 4 % 2 == 1 then step else 0)
    + (if n / 2 % 2 == 1 then step / 2 else 0)
    + (if n % 2 == 1 then step / 4 else 0)
  }

  function ClampSample(raw: int): (s: int)
    ensures -MAX_SAMPLE_SIZE <= s < MAX_SAMPLE_SIZE
    ensures -MAX_SAMPLE_SIZE <= raw < MAX_SAMPLE_SIZE ==> s == raw
  {
    Max(Min(raw, MAX_SAMPLE_SIZE - 1), -MAX_SAMPLE_SIZE)
  }

  datatype State = State(lastOutput: int, stepIndex: int)

  /** The state after a nibble; the sample put out is its `lastOutput`. */
  function After(s: State, n: nibble): State {
    var diff := Diff(StepSize(s.stepIndex), n);
    State(ClampSample(if n / 8 == 1 then s.lastOutput - diff else s.lastOutput + diff),
          ClampIndex(s.stepIndex) + Change(n))
  }

  /** The high nibble of each byte first. */
  function Nibbles(data: seq<byte>): (ns: seq<nibble>)
    ensures |ns| == 2 * |data|
  {
    if data == [] then [] else Nibbles(data[..|data| - 1]) + [data[|data| - 1] / 16, data[|data| - 1] % 16]
  }

  function Final(s: State, ns: seq<nibble>): State {
    if ns == [] then s else After(Final(s, ns[..|ns| - 1]), ns[|ns| - 1])
  }

  function Samples(s: State, ns: seq<nibble>): (out: seq<int>)
    ensures |out| == |ns|
  {
    if ns == [] then [] else Samples(s, ns[..|ns| - 1]) + [Final(s, ns).lastOutput]
  }

  // ------------------------------------------------------------ blocks

  datatype DecodeError = TooShort(size: nat)

  /** A 16-bit value as a signed one. */
  function Signed16(x: nat): int
    requires x <= MAX_U16
  {
    if x <= I16_MAX then x else x - 0x1_0000
  }

  function FromLE16(low: byte, high: byte): (x: nat)
    ensures x <= MAX_U16
  {
    low + 256 * high
  }

  /** The predictor state in front of a block. */
  function HeaderState(block: seq<byte>): State
    requires |block| >= BLOCK_HEADER_SIZE
  {
    State(Signed16(FromLE16(block[0], block[1])), FromLE16(block[2], block[3]))
  }

  function Decode(block: seq<byte>): (r: Result<seq<int>, DecodeError>)
    ensures r.Failure? <==> |block| <= BLOCK_HEADER_SIZE
    ensures r.Success? ==> |r.value| == 2 * (|block| - BLOCK_HEADER_SIZE)
  {
    if |block| <= BLOCK_HEADER_SIZE then Failure(TooShort(|block|))
    else Success(Samples(HeaderState(block), Nibbles(block[BLOCK_HEADER_SIZE..])))
  }

  // ------------------------------------------------------------ in 32-bit integers

  /** The difference a nibble stands for, by shifts and adds. */
  method Difference(unibble: u32, step: u32) returns (diff: u32)
    requires unibble < 16 && step <= 32767
    ensures diff as int == Diff(step as int, unibble as int)
    ensures diff <= 61436
  {
    diff := step / 8;
    if unibble / 4 % 2 == 1 {
      diff := diff + step;
    }
    if unibble / 2 % 2 == 1 {
      diff := diff + step / 2;
    }
    if unibble % 2 == 1 {
      diff := diff + step / 4;
    }
  }

  lemma ChangeTable(n: nibble)
    ensures var table: seq<i32> := [-1, -1, -1, -1, 2, 4, 6, 8, -1, -1, -1, -1, 2, 4, 6, 8];
      table[n] as int == Change(n)
  {
  }

  /** One turn of the loop body. Every intermediate result is a checked 32-bit value. */
  method DecodeNibble(unibble: u32, stepIndex: i32, lastOutput: i32)
    returns (scaled: i32, stepIndex': i32, lastOutput': i32)
    requires unibble < 16
    requires -0x8000 <= lastOutput < 0x8000
    requires -1 <= stepIndex <= 0xFFFF
    ensures var after := After(State(lastOutput as int, stepIndex as int), unibble as int);
      && stepIndex' as int == after.stepIndex
      && lastOutput' as int == after.lastOutput
      && scaled == lastOutput'
    ensures -0x8000 <= lastOutput' < 0x8000
    ensures -1 <= stepIndex' <= 96
  {
    hide Diff, Change;
    var index: i32 := if stepIndex < 0 then 0 else if stepIndex > 88 then 88 else stepIndex;
    assert index as int == ClampIndex(stepIndex as int);
    StepTable(index as int);
    var step: u32 := STEPS[index as int] as u32;
    assert step as int == StepSize(stepIndex as int);
    var diff := Difference(unibble, step);
    var rawSample: i32 := if unibble / 8 % 2 == 1 then lastOutput - diff as i32 else lastOutput + diff as i32;
    lastOutput' := if rawSample > 32767 then 32767 else if rawSample < -32768 then -32768 else rawSample;
    scaled := ScaleSample(lastOutput');
    var changes: seq<i32> := [-1, -1, -1, -1, 2, 4, 6, 8, -1, -1, -1, -1, 2, 4, 6, 8];
    ChangeTable(unibble as int);
    stepIndex' := index + changes[unibble as int];
  }

  /** Division by the full 16-bit scale, truncating toward zero as the source's does. */
  function OverFullScale(a: i32): i32
    requires a > -0x8000_0000
  {
    if a >= 0 then a / 32767 else -((-a) / 32767)
  }

  /** The scaling to the 16-bit range; for IMA it changes nothing. */
  method ScaleSample(sample: i32) returns (scaled: i32)
    requires -0x8000 <= sample < 0x8000
    ensures scaled == sample
  {
    var product: i32 := sample * 32767;
    scaled := OverFullScale(product);
    ScalingIsIdentity(sample as int);
  }

  lemma ScalingIsIdentity(sample: int)
    ensures sample * 32767 / 32767 == sample
    ensures -(-(sample * 32767) / 32767) == sample
  {
  }

  lemma Snoc(s: State, ns: seq<nibble>, n: nibble)
    ensures Final(s, ns + [n]) == After(Final(s, ns), n)
    ensures Samples(s, ns + [n]) == Samples(s, ns) + [After(Final(s, ns), n).lastOutput]
  {
    hide After;
    assert (ns + [n])[..|ns|] == ns;
  }

  lemma NoneYet(s: State)
    ensures Nibbles([]) == [] && Final(s, []) == s && Samples(s, []) == []
  {
  }

  lemma NextByte(data: seq<byte>, i: nat)
    requires i < |data|
    ensures Nibbles(data[..i + 1]) == Nibbles(data[..i]) + [data[i] / 16, data[i] % 16]
  {
    assert data[..i + 1][..i] == data[..i];
  }

  method DecodeBlock(block: seq<byte>) returns (r: Result<seq<int>, DecodeError>)
    ensures r == Decode(block)
  {
    hide After, Final, Samples, Nibbles;
    if |block| <= BLOCK_HEADER_SIZE {
      return Failure(TooShort(|block|));
    }
    ghost var start := HeaderState(block);
    var lastOutput: i32 := Signed16(FromLE16(block[0], block[1])) as i32;
    var stepIndex: i32 := FromLE16(block[2], block[3]) as i32;
    var data := block[BLOCK_HEADER_SIZE..];
    var result: seq<int> := [];
    ghost var done: seq<nibble> := [];
    NoneYet(start);
    for i := 0 to |data|
      invariant -0x8000 <= lastOutput < 0x8000 && -1 <= stepIndex <= 0xFFFF
      invariant done == Nibbles(data[..i])
      invariant result == Samples(start, done)
      invariant State(lastOutput as int, stepIndex as int) == Final(start, done)
    {
      ghost var before := done;
      NextByte(data, i);
      var pair: seq<nibble> := [data[i] / 16, data[i] % 16];
      for k := 0 to 2
        invariant -0x8000 <= lastOutput < 0x8000 && -1 <= stepIndex <= 0xFFFF
        invariant done == before + pair[..k]
        invariant result == Samples(start, done)
        invariant State(lastOutput as int, stepIndex as int) == Final(start, done)
      {
        Snoc(start, done, pair[k]);
        done := done + [pair[k]];
        var scaled;
        scaled, stepIndex, lastOutput := DecodeNibble(pair[k] as u32, stepIndex, lastOutput);
        result := result + [scaled as int];
      }
      assert pair[..2] == pair;
    }
    assert data[..|data|] == data;
    r := Success(result);
  }

  // ------------------------------------------------------------ what it computes

  /** Every sample is a 16-bit value, whatever the block. */
  lemma {:induction false} SamplesFit(s: State, ns: seq<nibble>, k: nat)
    requires k < |ns|
    ensures -MAX_SAMPLE_SIZE <= Samples(s, ns)[k] < MAX_SAMPLE_SIZE
  {
    if k < |ns| - 1 {
      SamplesFit(s, ns[..|ns| - 1], k);
    }
  }

  /** The step index stays within nine of the table on either side, so a clamp always finds it. */
  lemma {:induction false} IndexStaysNear(s: State, ns: seq<nibble>)
    requires ns != []
    ensures -1 <= Final(s, ns).stepIndex <= MAX_STEP_INDEX + 8
  {
  }

  /**
   The shift-and-add form against the product it stands for: with `m` the magnitude,
   eight times the difference is (2m + 1) steps, short by at most 17.
   */
  lemma DiffApproximates(step: nat, n: nibble)
    ensures 0 <= (2 * (n % 8) + 1) * step - 8 * Diff(step, n) <= 17
  {
    Magnitude(step, n);
    Twice(n % 8, step);
    Shortfall(step, n / 4 % 2 == 1, n / 2 % 2 == 1, n % 2 == 1);
  }

  lemma Twice(m: nat, step: nat)
    ensures (2 * m + 1) * step == 2 * (m * step) + step
  {
  }

  lemma Shortfall(step: nat, b2: bool, b1: bool, b0: bool)
    ensures var whole :=
        (if b2 then 8 * step else 0) + (if b1 then 4 * step else 0) + (if b0 then 2 * step else 0) + step;
      var diff := step / 8 + (if b2 then step else 0) + (if b1 then step / 2 else 0) + (if b0 then step / 4 else 0);
      0 <= whole - 8 * diff <= 17
  {
    Shares(step);
  }

  /** What each shift loses of the share it stands for, in eighths of a step. */
  lemma Shares(step: nat)
    ensures 0 <= step - 8 * (step / 8) <= 7
    ensures 0 <= 4 * step - 8 * (step / 2) <= 4
    ensures 0 <= 2 * step - 8 * (step / 4) <= 6
  {
  }

  /** A magnitude times a step, bit by bit. */
  lemma Magnitude(step: nat, n: nibble)
    ensures (n % 8) * step
         == (if n / 4 % 2 == 1 then 4 * step else 0)
          + (if n / 2 % 2 == 1 then 2 * step else 0)
          + (if n % 2 == 1 then step else 0)
  {
    MagnitudeBits(n);
    var b2, b1, b0 := n / 4 % 2 == 1, n / 2 % 2 == 1, n % 2 == 1;
    var m := n % 8;
    if b2 {
      if b1 {
        assert m == if b0 then 7 else 6;
      } else {
        assert m == if b0 then 5 else 4;
      }
    } else if b1 {
      assert m == if b0 then 3 else 2;
    } else {
      assert m == if b0 then 1 else 0;
    }
  }

  lemma MagnitudeBits(n: nibble)
    ensures n % 8
         == (if n / 4 % 2 == 1 then 4 else 0) + (if n / 2 % 2 == 1 then 2 else 0) + (if n % 2 == 1 then 1 else 0)
  {
  }

  /** The bound of 17 is met, so it cannot be lowered. */
  lemma DiffBoundIsTight()
    ensures (2 * (7 % 8) + 1) * 7 - 8 * Diff(7, 7) == 17
  {
  }

  /** A larger magnitude never gives a smaller difference. */
  lemma DiffIsMonotone(step: nat, m: nibble, n: nibble)
    requires m % 8 <= n % 8
    ensures Diff(step, m) <= Diff(step, n)
  {
    Quarters(step);
    MagnitudeBits(m);
    MagnitudeBits(n);
  }

  lemma Quarters(step: nat)
    ensures step / 4 + step / 2 <= step && step / 4 <= step / 2
  {
  }

  lemma {:induction false} Continues(s: State, a: seq<nibble>, b: seq<nibble>)
    ensures Final(s, a + b) == Final(Final(s, a), b)
    ensures Samples(s, a + b) == Samples(s, a) + Samples(Final(s, a), b)
  {
    hide After;
    if b == [] {
      assert a + b == a;
      assert Samples(s, a) + [] == Samples(s, a);
    } else {
      assert (a + b)[..|a + b| - 1] == a + b[..|b| - 1];
      Continues(s, a, b[..|b| - 1]);
    }
  }

  lemma {:induction false} NibblesConcat(a: seq<byte>, b: seq<byte>)
    ensures Nibbles(a + b) == Nibbles(a) + Nibbles(b)
  {
    if b == [] {
      assert a + b == a;
      assert Nibbles(a) + [] == Nibbles(a);
    } else {
      assert (a + b)[..|a + b| - 1] == a + b[..|b| - 1];
      NibblesConcat(a, b[..|b| - 1]);
    }
  }

  /** Only the clamped index matters to what follows. */
  lemma {:induction false} ClampedIndexIsEnough(s: State, ns: seq<nibble>)
    ensures var t := State(s.lastOutput, ClampIndex(s.stepIndex));
      && Samples(t, ns) == Samples(s, ns)
      && (ns != [] ==> Final(t, ns) == Final(s, ns))
  {
    hide Diff, Change;
    if ns != [] {
      var n := |ns| - 1;
      ClampedIndexIsEnough(s, ns[..n]);
      if n == 0 {
        assert ns[..n] == [];
      }
    }
  }

  function LE16(x: nat): (s: seq<byte>)
    requires x <= MAX_U16
    ensures |s| == 2 && FromLE16(s[0], s[1]) == x
  {
    [x % 256, x / 256]
  }

  /** The header that resumes a decoder in a given state. */
  function HeaderFor(s: State): (h: seq<byte>)
    requires -MAX_SAMPLE_SIZE <= s.lastOutput < MAX_SAMPLE_SIZE
    ensures |h| == BLOCK_HEADER_SIZE
    ensures HeaderState(h) == State(s.lastOutput, ClampIndex(s.stepIndex))
  {
    LE16(s.lastOutput % 0x1_0000) + LE16(ClampIndex(s.stepIndex))
  }

  lemma HeaderOnly(h: seq<byte>, data: seq<byte>)
    requires |h| == BLOCK_HEADER_SIZE
    ensures HeaderState(h + data) == HeaderState(h)
    ensures (h + data)[BLOCK_HEADER_SIZE..] == data
  {
  }

  lemma FinalOutputFits(s: State, ns: seq<nibble>)
    requires ns != []
    ensures -MAX_SAMPLE_SIZE <= Final(s, ns).lastOutput < MAX_SAMPLE_SIZE
  {
  }

  /**
   Splitting a block: decoding `a` and `b` in one go is decoding `a`, then `b` under a
   header rebuilt from the state after `a`. This is what the header is for.
   */
  lemma SplitsAnywhere(header: seq<byte>, a: seq<byte>, b: seq<byte>)
    requires |header| == BLOCK_HEADER_SIZE && a != [] && b != []
    ensures -MAX_SAMPLE_SIZE <= Final(HeaderState(header), Nibbles(a)).lastOutput < MAX_SAMPLE_SIZE
    ensures Decode(header + (a + b)).value
         == Decode(header + a).value + Decode(HeaderFor(Final(HeaderState(header), Nibbles(a))) + b).value
  {
    hide Samples, After;
    var s := HeaderState(header);
    FinalOutputFits(s, Nibbles(a));
    var mid := Final(s, Nibbles(a));
    var resumed := HeaderFor(mid);
    HeaderOnly(header, a + b);
    HeaderOnly(header, a);
    HeaderOnly(resumed, b);
    NibblesConcat(a, b);
    Continues(s, Nibbles(a), Nibbles(b));
    ClampedIndexIsEnough(mid, Nibbles(b));
  }

  lemma RawIndex(i: int)
    requires -1 <= i <= MAX_STEP_INDEX + 8
    ensures StepSize(i % 0x1_0000) == StepSize(i) <==> i >= 0
  {
    hide InRange;
    StepTable(0);
    if i < 0 {
      assert i % 0x1_0000 == 0xFFFF;
    } else {
      assert i % 0x1_0000 == i;
    }
  }

  /**
   The index has to be clamped before it goes into the unsigned header field: stored
   raw, it resumes at the right step if and only if it is not negative.
   */
  lemma RawIndexResumesIff(s: State, ns: seq<nibble>)
    requires ns != []
    ensures var i := Final(s, ns).stepIndex;
      StepSize(i % 0x1_0000) == StepSize(i) <==> i >= 0
  {
    hide StepSize, Final;
    IndexStaysNear(s, ns);
    RawIndex(Final(s, ns).stepIndex);
  }
}
