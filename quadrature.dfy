/**
 * Quadrature decoder of the volume knob (task `knob_controller`).
 *
 * Each encoder channel keeps a `u8` history register. On every debounced
 * edge of either channel both registers are shifted left by one and the
 * channel's current level is OR-ed into bit 0. The low three bits of the
 * two registers are then compared with fixed gray-code patterns to detect
 * one detent of rotation to the left or to the right.
 *
 * The registers are `bv8`, so shifting out of the top bit wraps exactly as
 * the source's `u8` does.
 */
module Quadrature {

  /** Keeps the three newest samples of a history register. */
  const MASK: bv8 := 7  // 0b111

  const LEFT_P1: bv8 := 4  // 0b100
  const LEFT_P2: bv8 := 6  // 0b110
  const LEFT_P1_INV: bv8 := 3  // 0b011
  const LEFT_P2_INV: bv8 := 1  // 0b001
  const RIGHT_P1: bv8 := 6  // 0b110
  const RIGHT_P2: bv8 := 4  // 0b100
  const RIGHT_P1_INV: bv8 := 1  // 0b001
  const RIGHT_P2_INV: bv8 := 3  // 0b011

  /** What one edge yields: a detent to the left, to the right, or nothing. */
  datatype Rotation = Left | Right | NoRotation

  /** The levels of channel 1 and channel 2 read right after an edge (true = high). */
  datatype Sample = Sample(level1: bool, level2: bool)

  /** The two history registers as a value. */
  datatype Histories = Histories(in1: bv8, in2: bv8)

  /** `level as u8` for a pin level. */
  function Bit(level: bool): (b: bv8)
    ensures b <= 1
    ensures level <==> b == 1
  {
    if level then 1 else 0
  }

  /** `history <<= 1; history |= level as u8` on a `u8` register. */
  function Shift(history: bv8, level: bool): (h: bv8)
    ensures h & 1 == Bit(level)
    ensures h >> 1 == history & 0x7F
  {
    (history << 1) | Bit(level)
  }

  /** `history & MASK`: the three newest samples. */
  function Pattern(history: bv8): (p: bv8)
    ensures p <= 7
    ensures (history ^ p) & MASK == 0
  {
    history & MASK
  }

  /** The 3-bit complement of a pattern. */
  function Complement(p: bv8): bv8 {
    p ^ MASK
  }

  /** The direction seen by the other channel's point of view. */
  function Mirror(r: Rotation): Rotation {
    match r
    case Left => Right
    case Right => Left
    case NoRotation => NoRotation
  }

  predicate IsLeft(p1: bv8, p2: bv8) {
    (p1 == LEFT_P1 && p2 == LEFT_P2) || (p1 == LEFT_P1_INV && p2 == LEFT_P2_INV)
  }

  predicate IsRight(p1: bv8, p2: bv8) {
    (p1 == RIGHT_P1 && p2 == RIGHT_P2) || (p1 == RIGHT_P1_INV && p2 == RIGHT_P2_INV)
  }

  /**
   * The `if ... else if ...` comparison on the two masked patterns. Left is
   * tested first; the second ensures says that this order never hides a Right.
   */
  function Classify(p1: bv8, p2: bv8): (r: Rotation)
    ensures r == Left <==> IsLeft(p1, p2)
    ensures r == Right <==> IsRight(p1, p2)
  {
    if IsLeft(p1, p2) then Left
    else if IsRight(p1, p2) then Right
    else NoRotation
  }

  /** Both registers advance together on an edge of either channel. */
  function Advance(h: Histories, s: Sample): (g: Histories)
    ensures g.in1 & 1 == Bit(s.level1) && g.in1 >> 1 == h.in1 & 0x7F
    ensures g.in2 & 1 == Bit(s.level2) && g.in2 >> 1 == h.in2 & 0x7F
  {
    Histories(Shift(h.in1, s.level1), Shift(h.in2, s.level2))
  }

  /**
   * The event reported for the registers as they stand. Every recognised
   * pattern pair has the two channels agreeing on the oldest and the newest
   * sample of the window and differing on the middle one.
   */
  function Detect(h: Histories): (r: Rotation)
    ensures r == Left <==> IsLeft(Pattern(h.in1), Pattern(h.in2))
    ensures r == Right <==> IsRight(Pattern(h.in1), Pattern(h.in2))
    ensures r != NoRotation ==> Pattern(h.in1) ^ Pattern(h.in2) == 2
  {
    Classify(Pattern(h.in1), Pattern(h.in2))
  }

  /** The registers after a sequence of edges. */
  function After(h: Histories, samples: seq<Sample>): Histories
    decreases |samples|
  {
    if samples == [] then h
    else Advance(After(h, samples[..|samples| - 1]), samples[|samples| - 1])
  }

  /** The event reported on each edge of a sequence, one per edge. */
  function Decode(h: Histories, samples: seq<Sample>): (events: seq<Rotation>)
    ensures |events| == |samples|
    decreases |samples|
  {
    if samples == [] then []
    else Decode(h, samples[..|samples| - 1]) + [Detect(After(h, samples))]
  }

  /** The three-bit window holding the samples a, b, c (c newest). */
  function Window(a: bool, b: bool, c: bool): bv8 {
    (Bit(a) << 2) | (Bit(b) << 1) | Bit(c)
  }

  /** The decoder task's state: the two history registers, updated in place. */
  class Decoder {
    var in1History: bv8
    var in2History: bv8

    function State(): Histories
      reads this
    {
      Histories(in1History, in2History)
    }

    /** Each register starts as the current level of its pin. */
    constructor (level1: bool, level2: bool)
      ensures State() == Histories(Bit(level1), Bit(level2))
    {
      in1History := Bit(level1);
      in2History := Bit(level2);
    }

    /** One edge of either channel: shift both registers, then classify. */
    method Step(level1: bool, level2: bool) returns (r: Rotation)
      modifies this
      ensures State() == Advance(old(State()), Sample(level1, level2))
      ensures r == Detect(State())
    {
      in1History := in1History << 1;
      in1History := in1History | Bit(level1);
      in2History := in2History << 1;
      in2History := in2History | Bit(level2);

      assert State() == Advance(old(State()), Sample(level1, level2));

      var in1Pattern := in1History & MASK;
      var in2Pattern := in2History & MASK;
      assert in1Pattern == Pattern(in1History) && in2Pattern == Pattern(in2History);

      if (in1Pattern == LEFT_P1 && in2Pattern == LEFT_P2)
         || (in1Pattern == LEFT_P1_INV && in2Pattern == LEFT_P2_INV)
      {
        r := Left;
      } else if (in1Pattern == RIGHT_P1 && in2Pattern == RIGHT_P2)
                || (in1Pattern == RIGHT_P1_INV && in2Pattern == RIGHT_P2_INV)
      {
        r := Right;
      } else {
        r := NoRotation;
      }
    }

    /** The task's loop, run over a finite sequence of edges. */
    method Run(samples: seq<Sample>) returns (events: seq<Rotation>)
      modifies this
      ensures State() == After(old(State()), samples)
      ensures events == Decode(old(State()), samples)
    {
      ghost var start := State();
      events := [];
      var i := 0;
      while i < |samples|
        invariant 0 <= i <= |samples|
        invariant State() == After(start, samples[..i])
        invariant events == Decode(start, samples[..i])
      {
        var r := Step(samples[i].level1, samples[i].level2);
        assert samples[..i + 1][..i] == samples[..i];
        events := events + [r];
        i := i + 1;
      }
      assert samples[..i] == samples;
    }
  }

  // ---------------------------------------------------------------------
  // Properties of the classification

  /** Left and Right never match the same pair of patterns. */
  lemma LeftRightExclusive(p1: bv8, p2: bv8)
    ensures !(IsLeft(p1, p2) && IsRight(p1, p2))
  {
  }

  /** Each `*_INV` constant is the 3-bit complement of its base pattern. */
  lemma InverseConstants()
    ensures LEFT_P1_INV == Complement(LEFT_P1) && LEFT_P2_INV == Complement(LEFT_P2)
    ensures RIGHT_P1_INV == Complement(RIGHT_P1) && RIGHT_P2_INV == Complement(RIGHT_P2)
  {
  }

  /** Complementing both masked patterns keeps the detected direction. */
  lemma ComplementSymmetry(p1: bv8, p2: bv8)
    ensures Classify(Complement(p1), Complement(p2)) == Classify(p1, p2)
  {
    assert Complement(Complement(p1)) == p1;
    assert Complement(Complement(p2)) == p2;
  }

  /** Swapping the channels swaps Left and Right. */
  lemma SwapSymmetry(p1: bv8, p2: bv8)
    ensures Classify(p2, p1) == Mirror(Classify(p1, p2))
  {
  }

  // ---------------------------------------------------------------------
  // Properties of the history window

  /** After three edges a register's pattern holds exactly those three levels. */
  lemma PatternOfThreeShifts(h: bv8, a: bool, b: bool, c: bool)
    ensures Pattern(Shift(Shift(Shift(h, a), b), c)) == Window(a, b, c)
  {
  }

  /**
   * After at least three edges both patterns are the windows of the last three
   * samples of their own channel, taken on the same edges: the registers stay
   * time-aligned and nothing older than three edges is remembered.
   */
  lemma {:induction false} AlignedWindows(h: Histories, samples: seq<Sample>)
    requires |samples| >= 3
    ensures var n := |samples|;
      Pattern(After(h, samples).in1)
        == Window(samples[n - 3].level1, samples[n - 2].level1, samples[n - 1].level1)
      && Pattern(After(h, samples).in2)
        == Window(samples[n - 3].level2, samples[n - 2].level2, samples[n - 1].level2)
  {
    var n := |samples|;
    var g := After(h, samples[..n - 3]);
    assert samples[..n - 1][..n - 2] == samples[..n - 2];
    assert samples[..n - 2][..n - 3] == samples[..n - 3];
    assert After(h, samples[..n - 2]) == Advance(g, samples[n - 3]);
    assert After(h, samples[..n - 1]) == Advance(Advance(g, samples[n - 3]), samples[n - 2]);
    PatternOfThreeShifts(g.in1, samples[n - 3].level1, samples[n - 2].level1, samples[n - 1].level1);
    PatternOfThreeShifts(g.in2, samples[n - 3].level2, samples[n - 2].level2, samples[n - 1].level2);
  }

  /** Event `i` of a decoded sequence is the classification of the registers after edge `i`. */
  lemma {:induction false} DecodeAt(h: Histories, samples: seq<Sample>, i: nat)
    requires i < |samples|
    ensures Decode(h, samples)[i] == Detect(After(h, samples[..i + 1]))
    decreases |samples|
  {
    var n := |samples|;
    if i < n - 1 {
      var init := samples[..n - 1];
      DecodeAt(h, init, i);
      assert init[..i + 1] == samples[..i + 1];
    } else {
      assert samples[..i + 1] == samples;
    }
  }

  /** From three edges on, the reported event does not depend on the starting registers. */
  lemma DetectForgetsStart(h: Histories, g: Histories, samples: seq<Sample>)
    requires |samples| >= 3
    ensures Detect(After(h, samples)) == Detect(After(g, samples))
  {
    AlignedWindows(h, samples);
    AlignedWindows(g, samples);
  }

  // ---------------------------------------------------------------------
  // Detents and bounces, from a channel pair resting at the same level `idle`

  /** Channel 1 falls (or rises) first, then channel 2: nothing, then Left. */
  lemma LeftDetent(h: Histories, idle: bool)
    requires h.in1 & 1 == Bit(idle) && h.in2 & 1 == Bit(idle)
    ensures Decode(h, [Sample(!idle, idle), Sample(!idle, !idle)]) == [NoRotation, Left]
  {
    var s := [Sample(!idle, idle), Sample(!idle, !idle)];
    assert s[..1][..0] == [] && s[..1] == [s[0]];
    var h1 := Advance(h, s[0]);
    assert After(h, s[..1]) == h1;
    assert Detect(h1) == NoRotation;
    assert After(h, s) == Advance(h1, s[1]);
  }

  /** Channel 2 moves first, then channel 1: nothing, then Right. */
  lemma RightDetent(h: Histories, idle: bool)
    requires h.in1 & 1 == Bit(idle) && h.in2 & 1 == Bit(idle)
    ensures Decode(h, [Sample(idle, !idle), Sample(!idle, !idle)]) == [NoRotation, Right]
  {
    var s := [Sample(idle, !idle), Sample(!idle, !idle)];
    assert s[..1][..0] == [] && s[..1] == [s[0]];
    var h1 := Advance(h, s[0]);
    assert After(h, s[..1]) == h1;
    assert Detect(h1) == NoRotation;
    assert After(h, s) == Advance(h1, s[1]);
  }

  /** Channel 1 bounces back before channel 2 moves: nothing on either edge. */
  lemma BounceIsIgnored(h: Histories, idle: bool)
    requires h.in1 & 1 == Bit(idle) && h.in2 & 1 == Bit(idle)
    ensures Decode(h, [Sample(!idle, idle), Sample(idle, idle)]) == [NoRotation, NoRotation]
  {
    var s := [Sample(!idle, idle), Sample(idle, idle)];
    assert s[..1][..0] == [] && s[..1] == [s[0]];
    var h1 := Advance(h, s[0]);
    assert After(h, s[..1]) == h1;
    assert Detect(h1) == NoRotation;
    assert After(h, s) == Advance(h1, s[1]);
  }

  /** Channel 2 bounces back before channel 1 moves: nothing on either edge. */
  lemma MirroredBounceIsIgnored(h: Histories, idle: bool)
    requires h.in1 & 1 == Bit(idle) && h.in2 & 1 == Bit(idle)
    ensures Decode(h, [Sample(idle, !idle), Sample(idle, idle)]) == [NoRotation, NoRotation]
  {
    var s := [Sample(idle, !idle), Sample(idle, idle)];
    assert s[..1][..0] == [] && s[..1] == [s[0]];
    var h1 := Advance(h, s[0]);
    assert After(h, s[..1]) == h1;
    assert Detect(h1) == NoRotation;
    assert After(h, s) == Advance(h1, s[1]);
  }

  // ---------------------------------------------------------------------
  // Only a full detent is reported

  /**
   * From the third edge on, Left is reported exactly when the last three
   * edges are a full left detent: both channels at rest at the same level,
   * channel 1 moves, then channel 2 follows.
   */
  lemma LeftOnlyOnDetent(h: Histories, samples: seq<Sample>)
    requires |samples| >= 3
    ensures var n := |samples|;
      Detect(After(h, samples)) == Left <==>
        exists idle: bool :: samples[n - 3] == Sample(idle, idle)
          && samples[n - 2] == Sample(!idle, idle) && samples[n - 1] == Sample(!idle, !idle)
  {
    var n := |samples|;
    AlignedWindows(h, samples);
    if Detect(After(h, samples)) == Left {
      var idle := samples[n - 3].level1;
      assert samples[n - 3] == Sample(idle, idle)
          && samples[n - 2] == Sample(!idle, idle) && samples[n - 1] == Sample(!idle, !idle);
    }
  }

  /** The mirror: Right exactly when channel 2 moves first and channel 1 follows. */
  lemma RightOnlyOnDetent(h: Histories, samples: seq<Sample>)
    requires |samples| >= 3
    ensures var n := |samples|;
      Detect(After(h, samples)) == Right <==>
        exists idle: bool :: samples[n - 3] == Sample(idle, idle)
          && samples[n - 2] == Sample(idle, !idle) && samples[n - 1] == Sample(!idle, !idle)
  {
    var n := |samples|;
    AlignedWindows(h, samples);
    if Detect(After(h, samples)) == Right {
      var idle := samples[n - 3].level1;
      assert samples[n - 3] == Sample(idle, idle)
          && samples[n - 2] == Sample(idle, !idle) && samples[n - 1] == Sample(!idle, !idle);
    }
  }

  /** The same for the events the task reports: from the third edge on, a direction is reported only on a full detent. */
  lemma DecodedOnlyOnDetent(h: Histories, samples: seq<Sample>, i: nat)
    requires 2 <= i < |samples|
    ensures Decode(h, samples)[i] == Left <==>
      exists idle: bool :: samples[i - 2] == Sample(idle, idle)
        && samples[i - 1] == Sample(!idle, idle) && samples[i] == Sample(!idle, !idle)
    ensures Decode(h, samples)[i] == Right <==>
      exists idle: bool :: samples[i - 2] == Sample(idle, idle)
        && samples[i - 1] == Sample(idle, !idle) && samples[i] == Sample(!idle, !idle)
  {
    var prefix := samples[..i + 1];
    DecodeAt(h, samples, i);
    LeftOnlyOnDetent(h, prefix);
    RightOnlyOnDetent(h, prefix);
    assert prefix[i - 2] == samples[i - 2] && prefix[i - 1] == samples[i - 1] && prefix[i] == samples[i];
  }

  /**
   * Before the third edge the start-up registers take part in the window:
   * with channel 1 high and channel 2 low at start-up, one edge that brings
   * channel 2 high is reported as Left.
   */
  method LeftFromStartupSkew() returns (r: Rotation)
    ensures r == Left
  {
    var d := new Decoder(true, false);
    r := d.Step(true, true);
  }

  /** Both pins idle high with their pull-ups: one left detent, driven through the task's state. */
  method LeftDetentFromRest() returns (first: Rotation, second: Rotation)
    ensures first == NoRotation && second == Left
  {
    var d := new Decoder(true, true);
    first := d.Step(false, true);
    second := d.Step(false, false);
  }

  /** Both pins idle high: one right detent, driven through the task's state. */
  method RightDetentFromRest() returns (first: Rotation, second: Rotation)
    ensures first == NoRotation && second == Right
  {
    var d := new Decoder(true, true);
    first := d.Step(true, false);
    second := d.Step(false, false);
  }
}
