/** A model of the gut-brain axis simulation: a three-variable linear ODE
    cascade (microbiota drives serotonin, serotonin drives brain activity),
    its default initial state and rates, and the multiplicative perturbations
    applied to the initial state before integration.

    Every quantity is a Dafny `real`, that is an exact rational number; this
    idealises the floating-point values of the original program (no rounding,
    no overflow, no NaN). */
module GutBrainAxis {

  // ---------------------------------------------------------------------
  // Data model
  // ---------------------------------------------------------------------

  /** The state vector `y = [microbiota, serotonin, brain_activity]`.
      Derivative vectors have the same shape and use the same type. */
  datatype State = State(microbiota: real, serotonin: real, brainActivity: real)

  /** The six rate constants of the model. */
  datatype Rates = Rates(
    microbiotaGrowth: real,
    microbiotaDecay: real,
    serotoninProduction: real,
    serotoninDecay: real,
    brainActivityIncrease: real,
    brainActivityDecay: real)

  /** Initial conditions of a freshly constructed simulation. */
  const DefaultState: State := State(100.0, 50.0, 10.0)

  /** Rates of a freshly constructed simulation. */
  const DefaultRates: Rates := Rates(0.1, 0.05, 0.2, 0.1, 0.15, 0.1)

  /** The zero vector. */
  const Zero: State := State(0.0, 0.0, 0.0)

  /** Componentwise sum of two state vectors. */
  function Add(y: State, z: State): State {
    State(y.microbiota + z.microbiota, y.serotonin + z.serotonin, y.brainActivity + z.brainActivity)
  }

  /** A state vector multiplied by a scalar. */
  function Scale(a: real, y: State): State {
    State(a * y.microbiota, a * y.serotonin, a * y.brainActivity)
  }

  // ---------------------------------------------------------------------
  // The derivative function
  // ---------------------------------------------------------------------

  /** Right-hand side of the ODE at state `y` and time `t`, under rates `k`.
      The time `t` is accepted, as the solver passes it, and not used. */
  function Derivatives(k: Rates, y: State, t: real): State {
    State(
      k.microbiotaGrowth * y.microbiota - k.microbiotaDecay * y.microbiota,
      k.serotoninProduction * y.microbiota - k.serotoninDecay * y.serotonin,
      k.brainActivityIncrease * y.serotonin - k.brainActivityDecay * y.brainActivity)
  }

  /** A 3x3 matrix, stored as its three rows. */
  datatype Matrix = Matrix(row0: State, row1: State, row2: State)

  /** Dot product of two vectors. */
  function Dot(u: State, y: State): real {
    u.microbiota * y.microbiota + u.serotonin * y.serotonin + u.brainActivity * y.brainActivity
  }

  /** Matrix-vector product. */
  function Apply(m: Matrix, y: State): State {
    State(Dot(m.row0, y), Dot(m.row1, y), Dot(m.row2, y))
  }

  /** The coefficient matrix of the linear system: an independent reference
      definition of the derivative, lower triangular because the model is a
      one-way cascade. */
  function RateMatrix(k: Rates): (m: Matrix)
    ensures m.row0.serotonin == 0.0 && m.row0.brainActivity == 0.0 && m.row1.brainActivity == 0.0
  {
    Matrix(
      State(k.microbiotaGrowth - k.microbiotaDecay, 0.0, 0.0),
      State(k.serotoninProduction, -k.serotoninDecay, 0.0),
      State(0.0, k.brainActivityIncrease, -k.brainActivityDecay))
  }

  /** Every matrix-vector product is linear in the vector. */
  lemma ApplyLinear(m: Matrix, a: real, y: State, b: real, z: State)
    ensures Apply(m, Add(Scale(a, y), Scale(b, z))) == Add(Scale(a, Apply(m, y)), Scale(b, Apply(m, z)))
  {
    DotLinear(m.row0, a, y, b, z);
    DotLinear(m.row1, a, y, b, z);
    DotLinear(m.row2, a, y, b, z);
  }

  /** A dot product with a fixed vector is linear in the other vector. */
  lemma DotLinear(u: State, a: real, y: State, b: real, z: State)
    ensures Dot(u, Add(Scale(a, y), Scale(b, z))) == a * Dot(u, y) + b * Dot(u, z)
  {
  }

  /** The derivative function is the rate matrix applied to the state, at every time. */
  lemma DerivativesIsRateMatrix(k: Rates, y: State, t: real)
    ensures Derivatives(k, y, t) == Apply(RateMatrix(k), y)
  {
  }

  /** The derivative is linear in the state vector, and zero at the zero vector. */
  lemma DerivativesLinear(k: Rates, a: real, y: State, b: real, z: State, t: real)
    ensures Derivatives(k, Add(Scale(a, y), Scale(b, z)), t)
         == Add(Scale(a, Derivatives(k, y, t)), Scale(b, Derivatives(k, z, t)))
    ensures Derivatives(k, Zero, t) == Zero
  {
    DerivativesIsRateMatrix(k, y, t);
    DerivativesIsRateMatrix(k, z, t);
    DerivativesIsRateMatrix(k, Add(Scale(a, y), Scale(b, z)), t);
    ApplyLinear(RateMatrix(k), a, y, b, z);
  }

  /** The system is autonomous: the time argument never affects the result. */
  lemma DerivativesIgnoreTime(k: Rates, y: State, t1: real, t2: real)
    ensures Derivatives(k, y, t1) == Derivatives(k, y, t2)
  {
  }

  /** The microbiota derivative is the net growth rate times microbiota, and
      depends on no other component of the state. */
  lemma MicrobiotaNetGrowth(k: Rates, y: State, z: State, t: real)
    requires y.microbiota == z.microbiota
    ensures Derivatives(k, y, t).microbiota == (k.microbiotaGrowth - k.microbiotaDecay) * y.microbiota
    ensures Derivatives(k, y, t).microbiota == Derivatives(k, z, t).microbiota
  {
  }

  /** With equal growth and decay rates microbiota is at rest for every state. */
  lemma BalancedMicrobiotaAtRest(k: Rates, y: State, t: real)
    requires k.microbiotaGrowth == k.microbiotaDecay
    ensures Derivatives(k, y, t).microbiota == 0.0
  {
  }

  /** The cascade is one-way: the serotonin derivative ignores brain activity,
      and the brain-activity derivative ignores microbiota. */
  lemma CascadeIsOneWay(k: Rates, y: State, z: State, t: real)
    ensures y.microbiota == z.microbiota && y.serotonin == z.serotonin ==>
              Derivatives(k, y, t).serotonin == Derivatives(k, z, t).serotonin
    ensures y.serotonin == z.serotonin && y.brainActivity == z.brainActivity ==>
              Derivatives(k, y, t).brainActivity == Derivatives(k, z, t).brainActivity
  {
  }

  /** Under the default rates the net microbiota growth rate is 0.05, so any
      positive microbiota grows. */
  lemma DefaultMicrobiotaGrows(y: State, t: real)
    ensures Derivatives(DefaultRates, y, t).microbiota == 0.05 * y.microbiota
    ensures y.microbiota > 0.0 ==> Derivatives(DefaultRates, y, t).microbiota > 0.0
  {
  }

  // ---------------------------------------------------------------------
  // Perturbations
  // ---------------------------------------------------------------------

  /** The state after applying the perturbation named `kind`. A name other
      than the three recognised ones changes nothing. */
  function Perturbed(y: State, kind: string): State {
    if kind == "antibiotic" then y.(microbiota := y.microbiota * 0.5)
    else if kind == "probiotic" then y.(microbiota := y.microbiota * 1.5)
    else if kind == "stress" then y.(brainActivity := y.brainActivity * 1.5)
    else y
  }

  /** Per-field multipliers of each perturbation: a reference table. */
  function Multipliers(kind: string): State {
    match kind
    case "antibiotic" => State(0.5, 1.0, 1.0)
    case "probiotic" => State(1.5, 1.0, 1.0)
    case "stress" => State(1.0, 1.0, 1.5)
    case _ => State(1.0, 1.0, 1.0)
  }

  /** Componentwise product of two vectors. */
  function Times(u: State, y: State): State {
    State(u.microbiota * y.microbiota, u.serotonin * y.serotonin, u.brainActivity * y.brainActivity)
  }

  /** A perturbation multiplies each field by the factor of the reference table. */
  lemma PerturbedIsScaling(y: State, kind: string)
    ensures Perturbed(y, kind) == Times(Multipliers(kind), y)
  {
  }

  /** Serotonin is never perturbed; a recognised perturbation changes exactly
      one of the other two fields (when that field is non-zero), and an
      unrecognised one changes nothing. */
  lemma PerturbedFields(y: State, kind: string)
    ensures Perturbed(y, kind).serotonin == y.serotonin
    ensures kind == "antibiotic" || kind == "probiotic" ==>
              Perturbed(y, kind).brainActivity == y.brainActivity
              && (Perturbed(y, kind).microbiota == y.microbiota <==> y.microbiota == 0.0)
    ensures kind == "stress" ==>
              Perturbed(y, kind).microbiota == y.microbiota
              && (Perturbed(y, kind).brainActivity == y.brainActivity <==> y.brainActivity == 0.0)
    ensures kind !in {"antibiotic", "probiotic", "stress"} ==> Perturbed(y, kind) == y
  {
  }

  /** Perturbations commute: applying two in either order gives the same state. */
  lemma PerturbationsCommute(y: State, kind1: string, kind2: string)
    ensures Perturbed(Perturbed(y, kind1), kind2) == Perturbed(Perturbed(y, kind2), kind1)
  {
  }

  /** A perturbation keeps every field of a non-negative state non-negative. */
  lemma PerturbedKeepsNonNegative(y: State, kind: string)
    requires y.microbiota >= 0.0 && y.serotonin >= 0.0 && y.brainActivity >= 0.0
    ensures Perturbed(y, kind).microbiota >= 0.0
    ensures Perturbed(y, kind).serotonin >= 0.0
    ensures Perturbed(y, kind).brainActivity >= 0.0
  {
  }

  /** Perturbing the state scales the derivative of the perturbed field: after
      an antibiotic the microbiota derivative halves, after a probiotic it is
      multiplied by 1.5; the perturbation of the initial state does not touch the rates. */
  lemma PerturbedMicrobiotaDerivative(k: Rates, y: State, t: real)
    ensures Derivatives(k, Perturbed(y, "antibiotic"), t).microbiota == 0.5 * Derivatives(k, y, t).microbiota
    ensures Derivatives(k, Perturbed(y, "probiotic"), t).microbiota == 1.5 * Derivatives(k, y, t).microbiota
  {
  }

  /** Each perturbation of the default state, as the initial conditions of its run. */
  lemma PerturbedDefaults()
    ensures Perturbed(DefaultState, "antibiotic") == State(50.0, 50.0, 10.0)
    ensures Perturbed(DefaultState, "probiotic") == State(150.0, 50.0, 10.0)
    ensures Perturbed(DefaultState, "stress") == State(100.0, 50.0, 15.0)
  {
  }

  // ---------------------------------------------------------------------
  // The simulation object
  // ---------------------------------------------------------------------

  /** The simulation object: three state fields and six rate fields. */
  class Simulation {
    var microbiota: real
    var serotonin: real
    var brainActivity: real
    var microbiotaGrowthRate: real
    var microbiotaDecayRate: real
    var serotoninProductionRate: real
    var serotoninDecayRate: real
    var brainActivityIncreaseRate: real
    var brainActivityDecayRate: real

    /** A simulation with the default initial state and rates. */
    constructor ()
      ensures microbiota == 100.0 && serotonin == 50.0 && brainActivity == 10.0
      ensures microbiotaGrowthRate == 0.1 && microbiotaDecayRate == 0.05
      ensures serotoninProductionRate == 0.2 && serotoninDecayRate == 0.1
      ensures brainActivityIncreaseRate == 0.15 && brainActivityDecayRate == 0.1
      ensures InitialConditions() == DefaultState && CurrentRates() == DefaultRates
    {
      microbiota := 100.0;
      serotonin := 50.0;
      brainActivity := 10.0;
      microbiotaGrowthRate := 0.1;
      microbiotaDecayRate := 0.05;
      serotoninProductionRate := 0.2;
      serotoninDecayRate := 0.1;
      brainActivityIncreaseRate := 0.15;
      brainActivityDecayRate := 0.1;
    }

    /** The initial-condition vector handed to the solver: the three state
        fields, in this order. */
    function InitialConditions(): State
      reads this
    {
      State(microbiota, serotonin, brainActivity)
    }

    /** The six rate fields, which the derivative function reads. The
        object's derivative at `(y, t)` is `Derivatives(CurrentRates(), y, t)`;
        being a function, it cannot change any field. */
    function CurrentRates(): Rates
      reads this
    {
      Rates(microbiotaGrowthRate, microbiotaDecayRate, serotoninProductionRate,
            serotoninDecayRate, brainActivityIncreaseRate, brainActivityDecayRate)
    }
  }

  /** Applies the perturbation named `kind` to the simulation in place. */
  method PerturbSystem(sim: Simulation, kind: string)
    modifies sim
    ensures kind == "antibiotic" ==> sim.microbiota == 0.5 * old(sim.microbiota)
    ensures kind == "probiotic" ==> sim.microbiota == 1.5 * old(sim.microbiota)
    ensures kind == "stress" ==> sim.brainActivity == 1.5 * old(sim.brainActivity)
    ensures kind != "antibiotic" && kind != "probiotic" ==> sim.microbiota == old(sim.microbiota)
    ensures kind != "stress" ==> sim.brainActivity == old(sim.brainActivity)
    ensures sim.serotonin == old(sim.serotonin)
    ensures sim.CurrentRates() == old(sim.CurrentRates())
    ensures sim.InitialConditions() == Perturbed(old(sim.InitialConditions()), kind)
  {
    if kind == "antibiotic" {
      sim.microbiota := sim.microbiota * 0.5;
    } else if kind == "probiotic" {
      sim.microbiota := sim.microbiota * 1.5;
    } else if kind == "stress" {
      sim.brainActivity := sim.brainActivity * 1.5;
    }
  }

  // ---------------------------------------------------------------------
  // Scenario runs
  // ---------------------------------------------------------------------

  /** The perturbations the scenario loop runs, in order. */
  const Perturbations: seq<string> := ["antibiotic", "probiotic", "stress"]

  /** One scenario run up to the solver call: build a fresh simulation,
      perturb it, and read the initial conditions and rates it integrates from. */
  method PerturbedScenario(kind: string) returns (y: State, k: Rates)
    ensures y == Perturbed(DefaultState, kind) && k == DefaultRates
  {
    var sim := new Simulation();
    PerturbSystem(sim, kind);
    y := sim.InitialConditions();
    k := sim.CurrentRates();
  }

  /** The scenario loop up to each solver call: run `i` integrates from the
      default state perturbed by `kinds[i]` alone, with the default rates,
      whatever the earlier runs did. */
  method RunScenarios(kinds: seq<string>) returns (initials: seq<State>, rates: seq<Rates>)
    ensures |initials| == |kinds| && |rates| == |kinds|
    ensures forall i :: 0 <= i < |kinds| ==> initials[i] == Perturbed(DefaultState, kinds[i])
    ensures forall i :: 0 <= i < |kinds| ==> rates[i] == DefaultRates
  {
    initials, rates := [], [];
    var i := 0;
    while i < |kinds|
      invariant 0 <= i <= |kinds|
      invariant |initials| == i && |rates| == i
      invariant forall j :: 0 <= j < i ==> initials[j] == Perturbed(DefaultState, kinds[j])
      invariant forall j :: 0 <= j < i ==> rates[j] == DefaultRates
    {
      var y, k := PerturbedScenario(kinds[i]);
      initials, rates := initials + [y], rates + [k];
      i := i + 1;
    }
  }

  /** The three scenario runs start from halved microbiota, 1.5 times the
      microbiota, and 1.5 times the brain activity, respectively. */
  lemma ScenarioInitialConditions()
    ensures [Perturbed(DefaultState, Perturbations[0]),
             Perturbed(DefaultState, Perturbations[1]),
             Perturbed(DefaultState, Perturbations[2])]
         == [State(50.0, 50.0, 10.0), State(150.0, 50.0, 10.0), State(100.0, 50.0, 15.0)]
  {
  }
}
