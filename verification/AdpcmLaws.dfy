/** What the ADPCM decoder does with each bit of its input, apart from how it computes it. */
module AdpcmLaws {
  import opened Wrappers
  import opened Bytes
  import opened Adpcm

  // ------------------------------------------------------------ the table

  /** Each entry is a tenth more than the one before it, as near as whole numbers come. */
  predicate GrowsByTenth(row: seq<nat>) {
    forall i :: 0 <= i < |row| - 1 ==> 11 * row[i] <= 10 * row[i + 1] + 7 && 10 * row[i + 1] <= 11 * row[i] + 8
  }

  lemma HalvesGrow(row: seq<nat>, k: nat)
    requires k < |row| && GrowsByTenth(row[..k + 1]) && GrowsByTenth(row[k..])
    ensures GrowsByTenth(row)
  {
    forall i | 0 <= i < |row| - 1
      ensures 11 * row[i] <= 10 * row[i + 1] + 7 && 10 * row[i + 1] <= 11 * row[i] + 8
    {
      if i < k {
        assert row[..k + 1][i] == row[i] && row[..k + 1][i + 1] == row[i + 1];
      } else {
        assert row[k..][i - k] == row[i] && row[k..][i - k + 1] == row[i + 1];
      }
    }
  }

  lemma Row0Low()
    ensures GrowsByTenth(STEPS_0[..12])
  {
  }

  lemma Row0High()
    ensures GrowsByTenth(STEPS_0[11..])
  {
  }

  lemma Row0Grows()
    ensures GrowsByTenth(STEPS_0)
  {
    hide GrowsByTenth;
    Row0Low();
    Row0High();
    HalvesGrow(STEPS_0, 11);
  }

  lemma Row23Low()
    ensures GrowsByTenth(STEPS_23[..12])
  {
  }

  lemma Row23High()
    ensures GrowsByTenth(STEPS_23[11..])
  {
  }

  lemma Row23Grows()
    ensures GrowsByTenth(STEPS_23)
  {
    hide GrowsByTenth;
    Row23Low();
    Row23High();
    HalvesGrow(STEPS_23, 11);
  }

  lemma Row45Low()
    ensures GrowsByTenth(STEPS_45[..12])
  {
  }

  lemma Row45High()
    ensures GrowsByTenth(STEPS_45[11..])
  {
  }

  lemma Row45Grows()
    ensures GrowsByTenth(STEPS_45)
  {
    hide GrowsByTenth;
    Row45Low();
    Row45High();
    HalvesGrow(STEPS_45, 11);
  }

  lemma Row67Low()
    ensures GrowsByTenth(STEPS_67[..12])
  {
  }

  lemma Row67High()
    ensures GrowsByTenth(STEPS_67[11..21])
  {
  }

  lemma Row67Grows()
    ensures GrowsByTenth(STEPS_67[..21])
  {
    hide GrowsByTenth;
    Row67Low();
    Row67High();
    var row := STEPS_67[..21];
    assert row[..12] == STEPS_67[..12] && row[11..] == STEPS_67[11..21];
    HalvesGrow(row, 11);
  }

  lemma JointsGrow()
    ensures GrowsByTenth([STEPS_0[22], STEPS_23[0]]) && GrowsByTenth([STEPS_23[21], STEPS_45[0]])
    ensures GrowsByTenth([STEPS_45[21], STEPS_67[0]])
  {
  }

  /** The table grows by a tenth from entry to entry, up to the last one, which is the largest 16-bit sample. */
  lemma StepsGrow()
    ensures GrowsByTenth(STEPS_0) && GrowsByTenth(STEPS_23) && GrowsByTenth(STEPS_45) && GrowsByTenth(STEPS_67[..21])
    ensures GrowsByTenth([STEPS_0[22], STEPS_23[0]]) && GrowsByTenth([STEPS_23[21], STEPS_45[0]])
    ensures GrowsByTenth([STEPS_45[21], STEPS_67[0]])
    ensures STEPS_0[0] == 7 && STEPS_67[21] == 32_767
  {
    hide GrowsByTenth;
    Row0Grows();
    Row23Grows();
    Row45Grows();
    Row67Grows();
    JointsGrow();
  }

  /** The entries add up to what those of the IMA table do. */
  lemma StepsTotal()
    ensures STEPS_0[0] + STEPS_0[1] + STEPS_0[2] + STEPS_0[3] + STEPS_0[4] + STEPS_0[5] + STEPS_0[6] +
      STEPS_0[7] + STEPS_0[8] + STEPS_0[9] + STEPS_0[10] + STEPS_0[11] + STEPS_0[12] + STEPS_0[13] +
      STEPS_0[14] + STEPS_0[15] + STEPS_0[16] + STEPS_0[17] + STEPS_0[18] + STEPS_0[19] + STEPS_0[20] +
      STEPS_0[21] + STEPS_0[22]
         == 586
    ensures STEPS_23[0] + STEPS_23[1] + STEPS_23[2] + STEPS_23[3] + STEPS_23[4] + STEPS_23[5] + STEPS_23[6] +
      STEPS_23[7] + STEPS_23[8] + STEPS_23[9] + STEPS_23[10] + STEPS_23[11] + STEPS_23[12] + STEPS_23[13] +
      STEPS_23[14] + STEPS_23[15] + STEPS_23[16] + STEPS_23[17] + STEPS_23[18] + STEPS_23[19] +
      STEPS_23[20] + STEPS_23[21]
         == 4_759
    ensures STEPS_45[0] + STEPS_45[1] + STEPS_45[2] + STEPS_45[3] + STEPS_45[4] + STEPS_45[5] + STEPS_45[6] +
      STEPS_45[7] + STEPS_45[8] + STEPS_45[9] + STEPS_45[10] + STEPS_45[11] + STEPS_45[12] + STEPS_45[13] +
      STEPS_45[14] + STEPS_45[15] + STEPS_45[16] + STEPS_45[17] + STEPS_45[18] + STEPS_45[19] +
      STEPS_45[20] + STEPS_45[21]
         == 38_838
    ensures STEPS_67[0] + STEPS_67[1] + STEPS_67[2] + STEPS_67[3] + STEPS_67[4] + STEPS_67[5] + STEPS_67[6] +
      STEPS_67[7] + STEPS_67[8] + STEPS_67[9] + STEPS_67[10] + STEPS_67[11] + STEPS_67[12] + STEPS_67[13] +
      STEPS_67[14] + STEPS_67[15] + STEPS_67[16] + STEPS_67[17] + STEPS_67[18] + STEPS_67[19] +
      STEPS_67[20] + STEPS_67[21]
         == 316_210
  {
  }

  // ------------------------------------------------------------ one nibble

  /** The sign bit: clear, and the output does not fall; set, and it does not rise. */
  lemma SignDirects(s: State, n: nibble)
    requires -32_768 <= s.lastOutput <= 32_767
    ensures n < 8 ==> After(s, n).lastOutput >= s.lastOutput
    ensures n >= 8 ==> After(s, n).lastOutput <= s.lastOutput
  {
    hide StepSize;
  }

  /**
   How far a sample moves: with `m` the low three bits, by (2m + 1) eighths of the step
   short by at most 17 eighths, in the direction of the sign bit; or only to the end of the
   16-bit range, if that lies on the way.
   */
  lemma SampleMoves(s: State, n: nibble)
    requires -32_768 <= s.lastOutput <= 32_767
    ensures var step := StepSize(s.stepIndex);
      var out := After(s, n).lastOutput;
      var moved := if n < 8 then out - s.lastOutput else s.lastOutput - out;
      && moved >= 0
      && 8 * moved <= (2 * (n % 8) + 1) * step
      && (8 * moved >= (2 * (n % 8) + 1) * step - 17 || out == if n < 8 then 32_767 else -32_768)
  {
    hide StepSize, Diff;
    DiffApproximates(StepSize(s.stepIndex), n);
  }

  /** How the step size moves: one entry down for a small magnitude, two to eight up for a large one. */
  lemma IndexMoves(s: State, n: nibble)
    ensures var from := if s.stepIndex < 0 then 0 else if s.stepIndex > 88 then 88 else s.stepIndex;
      var moved := After(s, n).stepIndex - from;
      && (n in {0, 1, 2, 3, 8, 9, 10, 11} ==> moved == -1)
      && (n in {4, 12} ==> moved == 2)
      && (n in {5, 13} ==> moved == 4)
      && (n in {6, 14} ==> moved == 6)
      && (n in {7, 15} ==> moved == 8)
  {
    hide StepSize, Diff;
  }

  // ------------------------------------------------------------ the order of the nibbles

  lemma {:induction false} SamplesPrefix(s: State, ns: seq<nibble>, n: nat)
    requires n <= |ns|
    ensures Samples(s, ns)[..n] == Samples(s, ns[..n])
  {
    assert ns == ns[..n] + ns[n..];
    Continues(s, ns[..n], ns[n..]);
  }

  lemma ByteBetween(data: seq<byte>, k: nat, rest: seq<byte>)
    requires k < |data| && rest == data[k + 1..]
    ensures Nibbles(data) == Nibbles(data[..k + 1]) + Nibbles(rest)
  {
    hide Nibbles;
    NibblesConcat(data[..k + 1], rest);
    assert data[..k + 1] + rest == data;
  }

  lemma NibblesPrefix(data: seq<byte>, k: nat)
    requires k < |data|
    ensures Nibbles(data)[..2 * k + 1] == Nibbles(data[..k]) + [data[k] / 16]
  {
    hide Nibbles;
    ByteBetween(data, k, data[k + 1..]);
    NextByte(data, k);
    PrefixOf(Nibbles(data), Nibbles(data[..k + 1]), Nibbles(data[k + 1..]), Nibbles(data[..k]), data[k], 2 * k + 1);
  }

  lemma PrefixOf(
      all: seq<nibble>, front: seq<nibble>, rest: seq<nibble>, a: seq<nibble>, b: byte, n: nat)
    requires all == front + rest && front == a + [b / 16, b % 16] && n == |a| + 1
    ensures n <= |all| && all[..n] == a + [b / 16]
  {
    Cut(all, front, rest, a, b / 16, b % 16, n);
  }

  lemma Cut(all: seq<nibble>, front: seq<nibble>, rest: seq<nibble>, a: seq<nibble>, x: nibble, y: nibble, n: nat)
    requires all == front + rest && front == a + [x, y] && n == |a| + 1
    ensures n <= |all| && all[..n] == a + [x]
  {
  }

  /**
   The high nibble of a byte comes first: up to and including the first of its two samples,
   only what is in front of the byte and its high nibble count.
   */
  lemma HighNibbleFirst(header: seq<byte>, x: seq<byte>, y: seq<byte>, k: nat)
    requires |header| == 4 && k < |x| && k < |y|
    requires x[..k] == y[..k] && x[k] / 16 == y[k] / 16
    ensures Decode(header + x).Success? && Decode(header + y).Success?
    ensures 2 * k + 1 <= |Decode(header + x).value| && 2 * k + 1 <= |Decode(header + y).value|
    ensures Decode(header + x).value[..2 * k + 1] == Decode(header + y).value[..2 * k + 1]
  {
    hide Samples, Nibbles;
    HeaderOnly(header, x);
    HeaderOnly(header, y);
    var s := HeaderState(header);
    SamplesPrefix(s, Nibbles(x), 2 * k + 1);
    SamplesPrefix(s, Nibbles(y), 2 * k + 1);
    NibblesPrefix(x, k);
    NibblesPrefix(y, k);
  }

  /** A known block: 4660 and entry 2 in its header, low byte first, and then all the signs there are. */
  lemma KnownBlock()
    ensures Decode([0x34, 0x12, 0x02, 0x00, 0x7F, 0x08]) == Success([4_676, 4_642, 4_647, 4_643])
  {
    var block: seq<byte> := [0x34, 0x12, 0x02, 0x00, 0x7F, 0x08];
    assert block[4..] == [0x7F, 0x08];
    assert HeaderState(block) == State(4_660, 2);
    hide Samples, Nibbles;
    KnownNibbles();
    KnownSamples();
  }

  lemma KnownNibbles()
    ensures Nibbles([0x7F, 0x08]) == [7, 15, 0, 8]
  {
    var data: seq<byte> := [0x7F, 0x08];
    assert data[..1] == [0x7F] && data[..1][..0] == [];
    assert Nibbles(data[..1]) == [7, 15];
    assert Nibbles(data) == [7, 15] + [0, 8];
  }

  lemma KnownSamples()
    ensures Samples(State(4_660, 2), [7, 15, 0, 8]) == [4_676, 4_642, 4_647, 4_643]
  {
    hide Samples, Final, After;
    var s := State(4_660, 2);
    KnownSteps();
    NoneYet(s);
    Snoc(s, [], 7);
    Snoc(s, [7], 15);
    Snoc(s, [7, 15], 0);
    Snoc(s, [7, 15, 0], 8);
    assert [] + [7 as nibble] == [7] && [7] + [15 as nibble] == [7, 15] && [7, 15] + [0 as nibble] == [7, 15, 0];
    assert [7, 15, 0] + [8 as nibble] == [7, 15, 0, 8];
  }

  lemma KnownSteps()
    ensures After(State(4_660, 2), 7) == State(4_676, 10)
    ensures After(State(4_676, 10), 15) == State(4_642, 18)
    ensures After(State(4_642, 18), 0) == State(4_647, 17)
    ensures After(State(4_647, 17), 8) == State(4_643, 16)
  {
    assert STEPS[2] == STEPS_0[2] && STEPS[10] == STEPS_0[10] && STEPS[18] == STEPS_0[18] && STEPS[17] == STEPS_0[17];
  }
}
