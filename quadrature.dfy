/** The yaw decoder of quadrature.c: a signed step counter driven by the 2-bit phase
    of a quadrature encoder, wrapped into [-WrapStep, WrapStep]. */
module Quadrature {

  /** quadrature.h: steps in half a revolution, and the position at start-up. */
  const WrapStep := 224
  const YawRev := 2 * WrapStep
  const InitialYawPosition := -223

  /** The two encoder pins PB0 and PB1 read together. */
  type Phase = x: int | 0 <= x < 4

  ghost predicate InRange(pos: int) {
    -WrapStep <= pos <= WrapStep
  }

  /** a and b name the same position modulo one revolution. */
  ghost predicate Congruent(a: int, b: int) {
    (a - b) % YawRev == 0
  }

  /** 00->01, 01->11, 11->10 and 10->00: counter-clockwise rotation. */
  predicate IsReverse(last: Phase, phase: Phase) {
    || (last == 0 && phase == 1)
    || (last == 1 && phase == 3)
    || (last == 3 && phase == 2)
    || (last == 2 && phase == 0)
  }

  /** The step a changed phase stands for: -1 counter-clockwise, +1 for every other
      change, including the jumps 00<->11 and 01<->10 that skip a phase. */
  function Direction(last: Phase, phase: Phase): int {
    if IsReverse(last, phase) then -1 else 1
  }

  /** The two wrap-around tests of the edge handler, applied one after the other. */
  function Wrap(pos: int): (r: int)
    ensures InRange(pos) ==> r == pos
    ensures -WrapStep - 1 <= pos <= WrapStep + 1 ==> InRange(r) && Congruent(r, pos)
    ensures pos == WrapStep + 1 ==> r == -WrapStep + 1
    ensures pos == -WrapStep - 1 ==> r == WrapStep - 1
  {
    var p := if pos > WrapStep then -WrapStep + (pos - WrapStep) else pos;
    if p < -WrapStep then WrapStep + (p + WrapStep) else p
  }

  /** The decoder's state: the position and the function-local `last_state`. */
  datatype Decoder = Decoder(position: int, last: Phase)

  const Initial := Decoder(InitialYawPosition, 0)

  /** One edge notification that reads `phase` from the pins. */
  function Step(d: Decoder, phase: Phase): (r: Decoder)
    ensures phase == d.last ==> r == d
    ensures phase != d.last ==> r.last == phase
    ensures phase != d.last && InRange(d.position) ==>
              InRange(r.position) && Congruent(r.position, d.position + Direction(d.last, phase))
  {
    if phase == d.last then d
    else Decoder(Wrap(d.position + Direction(d.last, phase)), phase)
  }

  /** A run of edge notifications, in order. */
  function Run(d: Decoder, phases: seq<Phase>): Decoder
    decreases |phases|
  {
    if phases == [] then d else Run(Step(d, phases[0]), phases[1..])
  }

  /** One full turn of the encoder's Gray code, starting and ending at 00. */
  const ReverseCycle: seq<Phase> := [1, 3, 2, 0]
  const ForwardCycle: seq<Phase> := [2, 3, 1, 0]

  function Repeat(s: seq<Phase>, k: nat): (r: seq<Phase>)
  {
    if k == 0 then [] else s + Repeat(s, k - 1)
  }

  lemma {:induction false} CongruentTrans(a: int, b: int, c: int)
    requires Congruent(a, b) && Congruent(b, c)
    ensures Congruent(a, c)
  {
    var i, j := (a - b) / YawRev, (b - c) / YawRev;
    assert a - c == YawRev * (i + j);
  }

  lemma {:induction false} RunAppend(d: Decoder, a: seq<Phase>, b: seq<Phase>)
    ensures Run(d, a + b) == Run(Run(d, a), b)
    decreases |a|
  {
    if a == [] {
      assert a + b == b;
    } else {
      assert (a + b)[1..] == a[1..] + b;
      RunAppend(Step(d, a[0]), a[1..], b);
    }
  }

  /** One counter-clockwise turn of the encoder moves the position by -4 modulo
      a revolution and leaves it in range. */
  lemma ReverseCycleStep(d: Decoder)
    requires d.last == 0 && InRange(d.position)
    ensures var r := Run(d, ReverseCycle);
      r.last == 0 && InRange(r.position) && Congruent(r.position, d.position - 4)
  {
    var d1 := Step(d, 1);
    var d2 := Step(d1, 3);
    var d3 := Step(d2, 2);
    var d4 := Step(d3, 0);
    assert Run(d, ReverseCycle) == d4 by {
      assert ReverseCycle[1..] == [3, 2, 0];
      assert ReverseCycle[1..][1..] == [2, 0];
      assert ReverseCycle[1..][1..][1..] == [0];
    }
    CongruentTrans(d2.position, d1.position - 1, d.position - 2);
    CongruentTrans(d3.position, d2.position - 1, d.position - 3);
    CongruentTrans(d4.position, d3.position - 1, d.position - 4);
  }

  /** One clockwise turn moves the position by +4 modulo a revolution. */
  lemma ForwardCycleStep(d: Decoder)
    requires d.last == 0 && InRange(d.position)
    ensures var r := Run(d, ForwardCycle);
      r.last == 0 && InRange(r.position) && Congruent(r.position, d.position + 4)
  {
    var d1 := Step(d, 2);
    var d2 := Step(d1, 3);
    var d3 := Step(d2, 1);
    var d4 := Step(d3, 0);
    assert Run(d, ForwardCycle) == d4 by {
      assert ForwardCycle[1..] == [3, 1, 0];
      assert ForwardCycle[1..][1..] == [1, 0];
      assert ForwardCycle[1..][1..][1..] == [0];
    }
    CongruentTrans(d2.position, d1.position + 1, d.position + 2);
    CongruentTrans(d3.position, d2.position + 1, d.position + 3);
    CongruentTrans(d4.position, d3.position + 1, d.position + 4);
  }

  /** k counter-clockwise turns move the position by -4k modulo a revolution, with
      every wrap-around on the way applied correctly. */
  lemma {:induction false} ReverseCycles(d: Decoder, k: nat)
    requires d.last == 0 && InRange(d.position)
    ensures var r := Run(d, Repeat(ReverseCycle, k));
      r.last == 0 && InRange(r.position) && Congruent(r.position, d.position - 4 * k)
    decreases k
  {
    if k > 0 {
      RunAppend(d, ReverseCycle, Repeat(ReverseCycle, k - 1));
      ReverseCycleStep(d);
      var d' := Run(d, ReverseCycle);
      ReverseCycles(d', k - 1);
      CongruentTrans(Run(d', Repeat(ReverseCycle, k - 1)).position, d'.position - 4 * (k - 1), d.position - 4 * k);
    }
  }

  /** k clockwise turns move the position by +4k modulo a revolution. */
  lemma {:induction false} ForwardCycles(d: Decoder, k: nat)
    requires d.last == 0 && InRange(d.position)
    ensures var r := Run(d, Repeat(ForwardCycle, k));
      r.last == 0 && InRange(r.position) && Congruent(r.position, d.position + 4 * k)
    decreases k
  {
    if k > 0 {
      RunAppend(d, ForwardCycle, Repeat(ForwardCycle, k - 1));
      ForwardCycleStep(d);
      var d' := Run(d, ForwardCycle);
      ForwardCycles(d', k - 1);
      CongruentTrans(Run(d', Repeat(ForwardCycle, k - 1)).position, d'.position + 4 * (k - 1), d.position + 4 * k);
    }
  }

  /** Any run of notifications keeps an in-range position in range. */
  lemma {:induction false} RunInRange(d: Decoder, phases: seq<Phase>)
    requires InRange(d.position)
    ensures InRange(Run(d, phases).position)
    decreases |phases|
  {
    if phases != [] {
      RunInRange(Step(d, phases[0]), phases[1..]);
    }
  }
}
