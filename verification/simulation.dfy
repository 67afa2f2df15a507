/** One simulation time step (`simulateTimeStep`) and its accumulated effect.

    The pseudo-random source is injected: a step receives the values the
    successive `rand()` calls return, as non-negative integers. Each field is
    moved by an integer offset scaled by one hundredth. */
module Simulation {
  import opened State

  /** An offset of `n` hundredths, the scale of every random offset. */
  function Hundredths(n: int): real {
    n as real / 100.0
  }

  /** Draws one component consumes: one per numeric field. */
  const DrawsPerComponent: nat := FieldCount

  /** Draws one step consumes: one per field of every component. */
  const DrawsPerStep: nat := ComponentCount * DrawsPerComponent

  /** Offset of energy and beam size: `rand() % 4 - 2`. The source's comments
      promise +/- 0.01, but the code yields -0.02 to 0.01. */
  function NarrowOffset(draw: nat): (r: int)
    ensures -2 <= r <= 1
  {
    draw % 4 - 2
  }

  /** Offset of the six other fields: `rand() % 10 - 5`, so -0.05 to 0.04. */
  function WideOffset(draw: nat): (r: int)
    ensures -5 <= r <= 4
  {
    draw % 10 - 5
  }

  /** Energy (0) and beam size (2) use the narrow offset. */
  predicate IsNarrow(j: nat) {
    j == 0 || j == 2
  }

  function MinOffset(j: nat): int {
    if IsNarrow(j) then -2 else -5
  }

  function MaxOffset(j: nat): int {
    if IsNarrow(j) then 1 else 4
  }

  /** The offset field `j` receives from `draw`. */
  function Offset(j: nat, draw: nat): (r: int)
    requires j < FieldCount
    ensures MinOffset(j) <= r <= MaxOffset(j)
  {
    if IsNarrow(j) then NarrowOffset(draw) else WideOffset(draw)
  }

  /** Every offset in the stated ranges does occur: the bounds are exact. */
  lemma {:induction false} OffsetRangeIsTight(j: nat, v: int)
    requires j < FieldCount
    requires MinOffset(j) <= v <= MaxOffset(j)
    ensures Offset(j, (v - MinOffset(j)) as nat) == v
  {
    var d := (v - MinOffset(j)) as nat;
    if IsNarrow(j) {
      assert d < 4;
      assert d % 4 == d;
    } else {
      assert d < 10;
      assert d % 10 == d;
    }
  }

  /** The comments' "+/- 0.01" is exceeded in both directions: a narrow field
      can fall by 0.02, and a wide one can fall by 0.05 or rise by 0.04. */
  lemma CommentedRangeIsExceeded()
    ensures Hundredths(Offset(0, 0)) == -0.02
    ensures Hundredths(Offset(1, 0)) == -0.05
    ensures Hundredths(Offset(1, 9)) == 0.04
  {
  }

  /** Perturbs one component with its eight draws, in field order. */
  function Perturb(c: Component, draws: seq<nat>): (r: Component)
    requires |draws| >= DrawsPerComponent
    ensures r.name == c.name
  {
    c.(energy := c.energy + Hundredths(NarrowOffset(draws[0])),
       beamIntensity := c.beamIntensity + Hundredths(WideOffset(draws[1])),
       beamSize := c.beamSize + Hundredths(NarrowOffset(draws[2])),
       vacuumPressure := c.vacuumPressure + Hundredths(WideOffset(draws[3])),
       magneticField := c.magneticField + Hundredths(WideOffset(draws[4])),
       radioFrequency := c.radioFrequency + Hundredths(WideOffset(draws[5])),
       beamPower := c.beamPower + Hundredths(WideOffset(draws[6])),
       coolingSystem := c.coolingSystem + Hundredths(WideOffset(draws[7])))
  }

  /** Perturbing moves field `j` by the offset of draw `j`, in hundredths. */
  lemma {:induction false} PerturbMovesEachField(c: Component, draws: seq<nat>, j: nat)
    requires |draws| >= DrawsPerComponent && j < FieldCount
    ensures Field(Perturb(c, draws), j) == Field(c, j) + Hundredths(Offset(j, draws[j]))
  {
  }

  /** The draws component `i` receives within one step. */
  function ComponentDraws(draws: seq<nat>, i: nat): (d: seq<nat>)
    requires i < ComponentCount && |draws| >= DrawsPerStep
    ensures |d| == DrawsPerComponent
  {
    draws[DrawsPerComponent * i .. DrawsPerComponent * i + DrawsPerComponent]
  }

  /** `simulateTimeStep`: the first 64 draws perturb the components in order. */
  function Step(a: Accelerator, draws: seq<nat>): (r: Accelerator)
    requires Valid(a) && |draws| >= DrawsPerStep
    ensures Valid(r)
    ensures r.particleEnergy == a.particleEnergy && r.particleType == a.particleType
  {
    var comps := seq(ComponentCount, i requires 0 <= i < ComponentCount =>
                       Perturb(a.components[i], ComponentDraws(draws, i)));
    a.(components := comps)
  }

  /** A step renames nothing. */
  lemma {:induction false} StepKeepsNames(a: Accelerator, draws: seq<nat>, i: nat)
    requires Valid(a) && |draws| >= DrawsPerStep && i < ComponentCount
    ensures Step(a, draws).components[i].name == a.components[i].name
  {
    assert Step(a, draws).components[i] == Perturb(a.components[i], ComponentDraws(draws, i));
  }

  /** Within a step, field `j` of component `i` moves by the offset of draw `8 i + j`:
      every field is updated exactly once, by its own draw. */
  lemma {:induction false} StepMovesEachFieldByItsDraw(a: Accelerator, draws: seq<nat>, i: nat, j: nat)
    requires Valid(a) && |draws| >= DrawsPerStep
    requires i < ComponentCount && j < FieldCount
    ensures Field(Step(a, draws).components[i], j)
         == Field(a.components[i], j) + Hundredths(Offset(j, draws[DrawsPerComponent * i + j]))
  {
    var d := ComponentDraws(draws, i);
    assert Step(a, draws).components[i] == Perturb(a.components[i], d);
    PerturbMovesEachField(a.components[i], d, j);
    assert d[j] == draws[DrawsPerComponent * i + j];
  }

  /** No step moves energy or beam size by more than 0.02, nor another field by
      more than 0.05. */
  lemma {:induction false} StepMovesAtMost(a: Accelerator, draws: seq<nat>, i: nat, j: nat)
    requires Valid(a) && |draws| >= DrawsPerStep
    requires i < ComponentCount && j < FieldCount
    ensures var d := Field(Step(a, draws).components[i], j) - Field(a.components[i], j);
            if IsNarrow(j) then -0.02 <= d <= 0.02 else -0.05 <= d <= 0.05
  {
    StepMovesEachFieldByItsDraw(a, draws, i, j);
  }

  /** Only the first 64 draws matter to a step. */
  lemma {:induction false} StepReadsOnlyItsDraws(a: Accelerator, d1: seq<nat>, d2: seq<nat>)
    requires Valid(a) && |d1| >= DrawsPerStep && |d2| >= DrawsPerStep
    requires d1[..DrawsPerStep] == d2[..DrawsPerStep]
    ensures Step(a, d1) == Step(a, d2)
  {
    forall i | 0 <= i < ComponentCount
      ensures ComponentDraws(d1, i) == ComponentDraws(d2, i)
    {
      var lo := DrawsPerComponent * i;
      assert lo + DrawsPerComponent <= DrawsPerStep;
      forall k | 0 <= k < DrawsPerComponent
        ensures ComponentDraws(d1, i)[k] == ComponentDraws(d2, i)[k]
      {
        assert d1[lo + k] == d1[..DrawsPerStep][lo + k];
        assert d2[lo + k] == d2[..DrawsPerStep][lo + k];
      }
    }
  }

  /** A step commutes with reconfiguration: the two touch disjoint parts of the record. */
  lemma {:induction false} StepCommutesWithChange(a: Accelerator, draws: seq<nat>, e: real, t: string)
    requires Valid(a) && |draws| >= DrawsPerStep && FitsBuffer(t)
    ensures Step(Change(a, e, t), draws) == Change(Step(a, draws), e, t)
  {
  }

  /** The body of the source's loop for one component: eight `rand()` calls, one
      per field in declaration order, starting at draw `next`. */
  method PerturbInOrder(c: Component, draws: seq<nat>, next: nat) returns (r: Component, after: nat)
    requires next + DrawsPerComponent <= |draws|
    ensures r == Perturb(c, draws[next .. next + DrawsPerComponent])
    ensures after == next + DrawsPerComponent
  {
    r := c;
    after := next;
    r := r.(energy := r.energy + Hundredths(NarrowOffset(draws[after])));
    after := after + 1;
    r := r.(beamIntensity := r.beamIntensity + Hundredths(WideOffset(draws[after])));
    after := after + 1;
    r := r.(beamSize := r.beamSize + Hundredths(NarrowOffset(draws[after])));
    after := after + 1;
    r := r.(vacuumPressure := r.vacuumPressure + Hundredths(WideOffset(draws[after])));
    after := after + 1;
    r := r.(magneticField := r.magneticField + Hundredths(WideOffset(draws[after])));
    after := after + 1;
    r := r.(radioFrequency := r.radioFrequency + Hundredths(WideOffset(draws[after])));
    after := after + 1;
    r := r.(beamPower := r.beamPower + Hundredths(WideOffset(draws[after])));
    after := after + 1;
    r := r.(coolingSystem := r.coolingSystem + Hundredths(WideOffset(draws[after])));
    after := after + 1;
  }

  /** `simulateTimeStep` as the source writes it: a loop over the components in
      which `next` is the index of the next `rand()` draw. */
  method SimulateTimeStep(a: Accelerator, draws: seq<nat>) returns (r: Accelerator, used: nat)
    requires Valid(a) && |draws| >= DrawsPerStep
    ensures r == Step(a, draws)
    ensures used == DrawsPerStep
  {
    var comps := a.components;
    var next := 0;
    for i := 0 to ComponentCount
      invariant |comps| == ComponentCount
      invariant next == DrawsPerComponent * i
      invariant forall k | 0 <= k < i :: comps[k] == Perturb(a.components[k], ComponentDraws(draws, k))
      invariant forall k | i <= k < ComponentCount :: comps[k] == a.components[k]
    {
      var c;
      c, next := PerturbInOrder(comps[i], draws, next);
      comps := comps[i := c];
    }
    r := a.(components := comps);
    used := next;
  }

  /** `n` successive steps, each consuming the next 64 draws. */
  function Steps(a: Accelerator, draws: seq<nat>, n: nat): (r: Accelerator)
    requires Valid(a) && |draws| >= DrawsPerStep * n
    ensures Valid(r)
    ensures r.particleEnergy == a.particleEnergy && r.particleType == a.particleType
    decreases n
  {
    if n == 0 then a
    else Steps(Step(a, draws), draws[DrawsPerStep..], n - 1)
  }

  /** Any number of steps renames nothing. */
  lemma {:induction false} StepsKeepNames(a: Accelerator, draws: seq<nat>, n: nat, i: nat)
    requires Valid(a) && |draws| >= DrawsPerStep * n && i < ComponentCount
    ensures Steps(a, draws, n).components[i].name == a.components[i].name
    decreases n
  {
    if n > 0 {
      StepKeepsNames(a, draws, i);
      StepsKeepNames(Step(a, draws), draws[DrawsPerStep..], n - 1, i);
    }
  }

  /** One more offset in [lo, hi] before `k` earlier ones widens the bounds by one step. */
  lemma AccumulateOffset(x: real, y: real, f: real, o: int, lo: int, hi: int, k: nat)
    requires y == x + Hundredths(o) && lo <= o <= hi
    requires y + Hundredths(lo * k) <= f <= y + Hundredths(hi * k)
    ensures x + Hundredths(lo * (k + 1)) <= f <= x + Hundredths(hi * (k + 1))
  {
    assert lo * (k + 1) == lo * k + lo;
    assert hi * (k + 1) == hi * k + hi;
  }

  /** After `n` steps every field has moved by at least `MinOffset * n` and at most
      `MaxOffset * n` hundredths. */
  lemma {:induction false} StepsDrift(a: Accelerator, draws: seq<nat>, n: nat, i: nat, j: nat)
    requires Valid(a) && |draws| >= DrawsPerStep * n
    requires i < ComponentCount && j < FieldCount
    ensures var f := Field(Steps(a, draws, n).components[i], j);
            && Field(a.components[i], j) + Hundredths(MinOffset(j) * n) <= f
            && f <= Field(a.components[i], j) + Hundredths(MaxOffset(j) * n)
    decreases n
  {
    if n > 0 {
      var b := Step(a, draws);
      StepMovesEachFieldByItsDraw(a, draws, i, j);
      StepsDrift(b, draws[DrawsPerStep..], n - 1, i, j);
      AccumulateOffset(Field(a.components[i], j), Field(b.components[i], j),
                       Field(Steps(a, draws, n).components[i], j),
                       Offset(j, draws[DrawsPerComponent * i + j]), MinOffset(j), MaxOffset(j), n - 1);
    }
  }

  /** From the initial state, after `n` steps energy and beam size lie in
      [-0.02 n, 0.01 n] and the six other fields in [-0.05 n, 0.04 n]. */
  lemma {:induction false} DriftFromInit(draws: seq<nat>, n: nat, i: nat, j: nat)
    requires |draws| >= DrawsPerStep * n
    requires i < ComponentCount && j < FieldCount
    ensures var f := Field(Steps(Init(), draws, n).components[i], j);
            IsNarrow(j) ==> -0.02 * n as real <= f <= 0.01 * n as real
    ensures var f := Field(Steps(Init(), draws, n).components[i], j);
            !IsNarrow(j) ==> -0.05 * n as real <= f <= 0.04 * n as real
  {
    StepsDrift(Init(), draws, n, i, j);
  }
}
