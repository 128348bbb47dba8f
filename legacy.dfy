/**
 * The older standalone `SEIRModel` and `SirModel` as values. They step like
 * `BaseModel`: events are folded into a flow, `dTime * flow` is added onto
 * `delta`, and each compartment takes its delta with a floor at zero. They
 * differ from it in three ways: the events are hard-wired, the rates are
 * derived in `init`, and `reset` merges new parameters into the old ones.
 * The class `LegacyModels.LegacyModel` is proved to implement these
 * functions.
 */
module Legacy {
  import opened Buckets
  import opened Engine
  import Variants

  /** Which of the two classes an instance is. */
  datatype Kind = Seir | Sir

  /** `this.modelType`. */
  function TypeName(k: Kind): string
  {
    match k
    case Seir => "SEIR"
    case Sir => "SIR"
  }

  /** `this.keys = _.keys(this.compartment)`: the compartments in declaration order. */
  function Keys(k: Kind): (r: seq<Name>)
    ensures NoDup(r)
    ensures Prevalence in r && Susceptible in r && Recovered in r
    ensures Exposed in r <==> k == Seir
  {
    match k
    case Seir => [Prevalence, Susceptible, Exposed, Recovered]
    case Sir => [Prevalence, Susceptible, Recovered]
  }

  /** `this.defaultParams`, which the constructor passes to `reset`. */
  function Defaults(k: Kind): Table
  {
    match k
    case Seir =>
      map[InitPopulation := 50000.0, Period := 30.0, Incubation := 50.0,
          CaseFatality := 200.0, Prevalence := 3000.0, ReproductionNumber := 50.0]
    case Sir =>
      map[InitPopulation := 50000.0, Period := 30.0, Prevalence := 3000.0,
          ReproductionNumber := 1.5]
  }

  /** An element of `this.inputParamEntries`. */
  datatype InputEntry = InputEntry(key: Name, value: real, placeHolder: string, caption: string)

  /**
   * `this.inputParamEntries`. The SEIR fatality entry is keyed
   * `CaseFatality` (capitalised), which is not the `caseFatality`
   * parameter the rates are derived from.
   */
  function InputEntries(k: Kind): seq<InputEntry>
  {
    match k
    case Seir =>
      [InputEntry(Period, 30.0, "", "Period"),
       InputEntry(Incubation, 50.0, "", "Latency"),
       InputEntry(Other("CaseFatality"), 200.0, "", "Fatality"),
       InputEntry(Prevalence, 3000.0, "", "Prevalence"),
       InputEntry(ReproductionNumber, 50.0, "", "R0")]
    case Sir =>
      [InputEntry(Period, 30.0, "", "duration "),
       InputEntry(Prevalence, 3000.0, "", "prevalence"),
       InputEntry(ReproductionNumber, 1.5, "", "R0")]
  }

  /** Every field of an instance that its methods read or write. */
  datatype LegacyState = LegacyState(
    keys: seq<Name>,
    compartment: Table,
    params: Table,
    vars: Table,
    events: seq<Event>,
    flow: Table,
    delta: Table)

  /** The fields as the constructor sets them, before it calls `reset`. */
  function Blank(k: Kind): LegacyState
  {
    LegacyState(Keys(k), map n | n in Keys(k) :: 0.0, map[], map[], [], map[], map[])
  }

  /**
   * The shape every instance keeps: the listed compartments are distinct,
   * include prevalence and susceptible, and are exactly the compartments
   * held (so summing over `keys` sums every compartment value).
   */
  predicate Shaped(s: LegacyState)
  {
    NoDup(s.keys) && Prevalence in s.keys && Susceptible in s.keys
    && s.compartment.Keys == set n | n in s.keys
  }

  // ----------------------------------------------------------------- init

  /** The parameters `init` writes. */
  function RateKeys(k: Kind): set<Name>
  {
    match k
    case Seir => {RecoverRate, IncubationRate, ContactRate, ProbSickCanTravel}
    case Sir => {RecoverRate, ContactRate, ProbSickCanTravel}
  }

  /** The divisors of `init`'s rate formulas are nonzero. */
  predicate RatesDefined(k: Kind, p: Table)
  {
    Get(p, Period) != 0.0 && (k == Seir ==> Get(p, CaseFatality) != 0.0 && Get(p, Incubation) != 0.0)
  }

  /** `(a / x) * x == a` for nonzero `x`. */
  lemma Quotient(a: real, x: real)
    requires x != 0.0
    ensures (a / x) * x == a
  {
  }

  /** The rate assignments at the head of `init`. */
  function Derive(k: Kind, p: Table): (r: Table)
    requires RatesDefined(k, p)
    ensures r.Keys == p.Keys + RateKeys(k)
    ensures forall n :: n in p && n !in RateKeys(k) ==> r[n] == p[n]
    ensures r[ProbSickCanTravel] == 1.0
  {
    var period, r0 := Get(p, Period), Get(p, ReproductionNumber);
    match k
    case Seir =>
      var cf, incubation := Get(p, CaseFatality), Get(p, Incubation);
      p[RecoverRate := (1.0 - 1.0 / cf) / period]
       [IncubationRate := 1.0 / incubation]
       [ContactRate := r0 * (1.0 / period)]
       [ProbSickCanTravel := 1.0]
    case Sir =>
      var p1 := p[RecoverRate := 1.0 / period];
      p1[ContactRate := r0 * p1[RecoverRate]][ProbSickCanTravel := 1.0]
  }

  /**
   * Every rate `init` derives is the reciprocal of a duration: the
   * recovery rate times the period is the surviving share
   * `1 - 1/caseFatality` (SEIR) or 1 (SIR), the incubation rate times the
   * incubation is 1, and the contact rate times the period is the
   * reproduction number (for SIR, the reproduction number times the
   * recovery rate).
   */
  lemma DerivedRates(k: Kind, p: Table)
    requires RatesDefined(k, p)
    ensures var r, period := Derive(k, p), Get(p, Period);
      && (k == Seir ==> r[RecoverRate] * period == 1.0 - 1.0 / Get(p, CaseFatality))
      && (k == Seir ==> r[IncubationRate] * Get(p, Incubation) == 1.0)
      && (k == Sir ==> r[RecoverRate] * period == 1.0)
      && (k == Sir ==> r[ContactRate] == Get(p, ReproductionNumber) * r[RecoverRate])
      && r[ContactRate] * period == Get(p, ReproductionNumber)
  {
    var period, r0 := Get(p, Period), Get(p, ReproductionNumber);
    Variants.Reciprocal(period);
    assert r0 * (1.0 / period) * period == r0 * ((1.0 / period) * period);
    if k == Seir {
      Quotient(1.0 - 1.0 / Get(p, CaseFatality), period);
      Variants.Reciprocal(Get(p, Incubation));
    }
  }

  /** `init` reads the seeding parameters after deriving the rates, which leaves them alone. */
  lemma DeriveKeepsSeeding(k: Kind, p: Table)
    requires RatesDefined(k, p)
    ensures Get(Derive(k, p), Prevalence) == Get(p, Prevalence)
    ensures Get(Derive(k, p), InitPopulation) == Get(p, InitPopulation)
  {
    assert Prevalence !in RateKeys(k) && InitPopulation !in RateKeys(k);
  }

  /** The seeding in `init`: prevalence from the parameters, susceptible the rest. */
  function Seed(c: Table, p: Table): Table
  {
    c[Prevalence := Get(p, Prevalence)][Susceptible := Get(p, InitPopulation) - Get(p, Prevalence)]
  }

  /** The compartments after `init` zeroes the listed ones and seeds two of them. */
  function Seeded(ks: seq<Name>, c: Table, p: Table): Table
  {
    Seed(SetAll(c, ks, 0.0), p)
  }

  /** Zeroing then seeding leaves a total equal to the initial population. */
  lemma {:induction false} SeededTotal(ks: seq<Name>, c: Table, p: Table)
    requires NoDup(ks) && Prevalence in ks && Susceptible in ks
    ensures Sum(ks, Seeded(ks, c, p)) == Get(p, InitPopulation)
  {
    var z := SetAll(c, ks, 0.0);
    var a, b := Get(p, Prevalence), Get(p, InitPopulation);
    SumConstant(ks, z, 0.0);
    SumUpdate(ks, z, Prevalence, a);
    SumUpdate(ks, z[Prevalence := a], Susceptible, b - a);
  }

  /** `init` is defined when the rates are and the seeded population is nonzero. */
  predicate InitDefined(k: Kind, p: Table)
  {
    RatesDefined(k, p) && Get(p, InitPopulation) != 0.0
  }

  /**
   * `calcVar`: the population is the sum of the compartments and the force
   * of infection is `contactRate / population * prevalence`; the other
   * variables are kept.
   */
  function VarsOf(ks: seq<Name>, c: Table, p: Table, vars: Table): (r: Table)
    requires Sum(ks, c) != 0.0
    ensures r.Keys == vars.Keys + {Population, RateForce}
    ensures forall n :: n in vars && n != Population && n != RateForce ==> r[n] == vars[n]
    ensures r[Population] == Sum(ks, c)
  {
    var population := Sum(ks, c);
    vars[Population := population][RateForce := Variants.PerCapita(Get(p, ContactRate), population, Get(c, Prevalence))]
  }

  /** The force of infection is mass action: times the population it is contact rate times prevalence. */
  lemma ForceIsMassAction(ks: seq<Name>, c: Table, p: Table, vars: Table)
    requires Sum(ks, c) != 0.0
    ensures var r := VarsOf(ks, c, p, vars);
      r[RateForce] * r[Population] == Get(p, ContactRate) * Get(c, Prevalence)
  {
  }

  /** `calcVar` on a state. */
  function CalcVar(s: LegacyState): LegacyState
    requires Sum(s.keys, s.compartment) != 0.0
  {
    s.(vars := VarsOf(s.keys, s.compartment, s.params, s.vars))
  }

  /**
   * `init`: derive the rates, zero and seed the compartments, and
   * recompute the variables.
   */
  function Init(k: Kind, s: LegacyState): LegacyState
    requires InitDefined(k, s.params) && Shaped(s)
  {
    var p := Derive(k, s.params);
    var c := Seeded(s.keys, s.compartment, p);
    SeededTotal(s.keys, s.compartment, p);
    DeriveKeepsSeeding(k, s.params);
    s.(params := p, compartment := c, vars := VarsOf(s.keys, c, p, s.vars))
  }

  /** `reset`: `_.assign(this.params, inputParams)`, then `init`. */
  function Reset(k: Kind, s: LegacyState, input: Table): LegacyState
    requires InitDefined(k, s.params + input) && Shaped(s)
  {
    Init(k, s.(params := s.params + input))
  }

  /** The state the constructor leaves: the blank fields reset to the defaults. */
  function Constructed(k: Kind): LegacyState
  {
    assert Shaped(Blank(k));
    Reset(k, Blank(k), Defaults(k))
  }

  /** `clearDelta`: every listed delta becomes 0; nothing else changes. */
  function ClearDelta(s: LegacyState): (r: LegacyState)
    ensures r == s.(delta := r.delta)
    ensures forall n :: n in s.keys ==> n in r.delta && r.delta[n] == 0.0
    ensures forall n :: n in s.delta && n !in s.keys ==> n in r.delta && r.delta[n] == s.delta[n]
  {
    s.(delta := SetAll(s.delta, s.keys, 0.0))
  }

  // ----------------------------------------------------------------- flow

  /**
   * The events `calcFlow` pushes. SEIR: infection S→E at the force of
   * infection, incubation E→I and recovery I→R at their rates. SIR, as
   * written: infection S→I, and a second event that carries the recovery
   * magnitude `recoverRate * prevalence` also from susceptible to
   * prevalence.
   */
  function FlowEvents(k: Kind, s: LegacyState): (r: seq<Event>)
    ensures |r| == if k == Seir then 3 else 2
    ensures k == Sir ==> forall i :: 0 <= i < |r| ==> r[i].from == Susceptible && r[i].to == Prevalence
  {
    match k
    case Seir =>
      [Event(Susceptible, Exposed, Infection(s)),
       Event(Exposed, Prevalence, Incubating(s)),
       Event(Prevalence, Recovered, Recovering(s))]
    case Sir =>
      [Event(Susceptible, Prevalence, Infection(s)),
       Event(Susceptible, Prevalence, Recovering(s))]
  }

  /** `this.var.rateForce * this.compartment.susceptible`. */
  function Infection(s: LegacyState): real
  {
    Get(s.vars, RateForce) * Get(s.compartment, Susceptible)
  }

  /** `this.params.incubationRate * this.compartment.exposed`. */
  function Incubating(s: LegacyState): real
  {
    Get(s.params, IncubationRate) * Get(s.compartment, Exposed)
  }

  /** `this.params.recoverRate * this.compartment.prevalence`. */
  function Recovering(s: LegacyState): real
  {
    Get(s.params, RecoverRate) * Get(s.compartment, Prevalence)
  }

  /** `calcFlow`: rebuild the events, zero the listed flows and fold the events in. */
  function CalcFlow(k: Kind, s: LegacyState): LegacyState
  {
    var es := FlowEvents(k, s);
    s.(events := es, flow := FlowOf(s.keys, es, s.flow))
  }

  /**
   * `updateCompartment(dTime)`: recompute the variables and the flow, add
   * `dTime * flow` onto each delta, then add each delta onto its
   * compartment with a floor at zero.
   */
  function UpdateCompartment(k: Kind, s: LegacyState, dt: real): LegacyState
    requires Sum(s.keys, s.compartment) != 0.0
  {
    Integrate(CalcFlow(k, CalcVar(s)), dt)
  }

  /** The two loops of `updateCompartment` after the flow is known. */
  function Integrate(s: LegacyState, dt: real): LegacyState
  {
    var d := AddFlow(s.delta, s.flow, s.keys, dt);
    s.(delta := d, compartment := ApplyDelta(s.compartment, d, s.keys))
  }

  // -------------------------------------------------------------- lemmas

  /**
   * `reset` merges: a parameter absent from the input keeps its previous
   * value (and its presence), one present takes the input's value, unless
   * `init` derives it.
   */
  lemma ResetMerges(k: Kind, s: LegacyState, input: Table, n: Name)
    requires InitDefined(k, s.params + input) && Shaped(s)
    requires n !in RateKeys(k)
    ensures n !in input ==> (n in Reset(k, s, input).params <==> n in s.params)
    ensures n !in input && n in s.params ==> Reset(k, s, input).params[n] == s.params[n]
    ensures n in input ==> Reset(k, s, input).params[n] == input[n]
  {
  }

  /**
   * `init` on the compartments: every listed compartment but prevalence and
   * susceptible is 0, prevalence is the `prevalence` parameter,
   * susceptible the rest of the initial population, and the population
   * variable is the initial population; events, flow and delta are kept.
   */
  lemma InitSeeds(k: Kind, s: LegacyState, n: Name)
    requires InitDefined(k, s.params) && Shaped(s)
    ensures var c := Init(k, s).compartment;
      && (n in s.keys && n != Prevalence && n != Susceptible ==> Get(c, n) == 0.0)
      && Get(c, Prevalence) == Get(s.params, Prevalence)
      && Get(c, Susceptible) == Get(s.params, InitPopulation) - Get(s.params, Prevalence)
    ensures Get(Init(k, s).vars, Population) == Get(s.params, InitPopulation)
    ensures Init(k, s).events == s.events && Init(k, s).flow == s.flow && Init(k, s).delta == s.delta
  {
    var p := Derive(k, s.params);
    SeededTotal(s.keys, s.compartment, p);
    DeriveKeepsSeeding(k, s.params);
  }

  /** `init` keeps the keys and the shape. */
  lemma InitShaped(k: Kind, s: LegacyState)
    requires InitDefined(k, s.params) && Shaped(s)
    ensures Init(k, s).keys == s.keys && Shaped(Init(k, s))
  {
  }

  /**
   * The constructor leaves the compartments named by `Keys`, the
   * defaults with their derived rates, a population of 50000 and no
   * delta or events yet.
   */
  lemma ConstructedParams(k: Kind)
    ensures Constructed(k).keys == Keys(k) && Shaped(Constructed(k))
    ensures Constructed(k).params.Keys == Defaults(k).Keys + RateKeys(k)
    ensures forall n :: n in Defaults(k) ==> Constructed(k).params[n] == Defaults(k)[n]
    ensures Get(Constructed(k).vars, Population) == 50000.0
    ensures Constructed(k).delta == map[] && Constructed(k).events == []
  {
    var b := Blank(k);
    assert Shaped(b);
    var s := b.(params := b.params + Defaults(k));
    assert s.params == Defaults(k);
    InitSeeds(k, s, Prevalence);
    InitShaped(k, s);
    DefaultsNotDerived(k);
  }

  /** `init` derives none of the default parameters; the default initial population is 50000. */
  lemma DefaultsNotDerived(k: Kind)
    ensures forall n :: n in Defaults(k) ==> n !in RateKeys(k)
    ensures Get(Defaults(k), InitPopulation) == 50000.0
  {
    match k
    case Seir =>
      assert Defaults(k).Keys == {InitPopulation, Period, Incubation, CaseFatality, Prevalence, ReproductionNumber};
    case Sir =>
      assert Defaults(k).Keys == {InitPopulation, Period, Prevalence, ReproductionNumber};
  }

  /** What one event brings into `k`. */
  function Into(e: Event, k: Name): real
  {
    if e.to == k then e.magnitude else 0.0
  }

  /** What one event takes out of `k`. */
  function OutOf(e: Event, k: Name): real
  {
    if e.from == k then e.magnitude else 0.0
  }

  /** The in- and outflow of two events, event by event. */
  lemma NetOfTwo(a: Event, b: Event, k: Name)
    ensures Inflow([a, b], k) == Into(a, k) + Into(b, k)
    ensures Outflow([a, b], k) == OutOf(a, k) + OutOf(b, k)
  {
    assert [a, b][..1] == [a];
    assert [a][..0] == [];
    assert Inflow([a], k) == Into(a, k) && Outflow([a], k) == OutOf(a, k);
  }

  /** The in- and outflow of three events, event by event. */
  lemma NetOfThree(a: Event, b: Event, c: Event, k: Name)
    ensures Inflow([a, b, c], k) == Into(a, k) + Into(b, k) + Into(c, k)
    ensures Outflow([a, b, c], k) == OutOf(a, k) + OutOf(b, k) + OutOf(c, k)
  {
    assert [a, b, c][..2] == [a, b];
    NetOfTwo(a, b, k);
  }

  /** The flow of a listed key under three events, event by event. */
  lemma FlowOfThree(keys: seq<Name>, es: seq<Event>, f0: Table, k: Name)
    requires |es| == 3 && k in keys
    ensures Get(FlowOf(keys, es, f0), k)
            == Into(es[0], k) + Into(es[1], k) + Into(es[2], k) - (OutOf(es[0], k) + OutOf(es[1], k) + OutOf(es[2], k))
  {
    assert es == [es[0], es[1], es[2]];
    NetOfThree(es[0], es[1], es[2], k);
    FlowIsNet(keys, es, f0, k);
  }

  /** The flow of a listed key under two events, event by event. */
  lemma FlowOfTwo(keys: seq<Name>, es: seq<Event>, f0: Table, k: Name)
    requires |es| == 2 && k in keys
    ensures Get(FlowOf(keys, es, f0), k) == Into(es[0], k) + Into(es[1], k) - (OutOf(es[0], k) + OutOf(es[1], k))
  {
    assert es == [es[0], es[1]];
    NetOfTwo(es[0], es[1], k);
    FlowIsNet(keys, es, f0, k);
  }

  /**
   * SEIR `calcFlow` builds exactly three events: infection, incubation and
   * recovery, whose flows are the SEIR equations, and the flow over the
   * compartments sums to zero.
   */
  lemma SeirFlow(s: LegacyState)
    requires NoDup(s.keys)
    requires Susceptible in s.keys && Exposed in s.keys && Prevalence in s.keys && Recovered in s.keys
    ensures |CalcFlow(Seir, s).events| == 3
    ensures Sum(s.keys, CalcFlow(Seir, s).flow) == 0.0
    ensures Get(CalcFlow(Seir, s).flow, Susceptible) == -Infection(s)
    ensures Get(CalcFlow(Seir, s).flow, Exposed) == Infection(s) - Incubating(s)
    ensures Get(CalcFlow(Seir, s).flow, Prevalence) == Incubating(s) - Recovering(s)
    ensures Get(CalcFlow(Seir, s).flow, Recovered) == Recovering(s)
  {
    SeirNet(s.keys, s.flow, Infection(s), Incubating(s), Recovering(s));
  }

  /** The three SEIR events with magnitudes `a`, `b`, `c`, folded into a zeroed flow. */
  lemma SeirNet(keys: seq<Name>, f0: Table, a: real, b: real, c: real)
    requires NoDup(keys)
    requires Susceptible in keys && Exposed in keys && Prevalence in keys && Recovered in keys
    ensures var f := FlowOf(keys, [Event(Susceptible, Exposed, a), Event(Exposed, Prevalence, b), Event(Prevalence, Recovered, c)], f0);
      && Sum(keys, f) == 0.0
      && Get(f, Susceptible) == -a && Get(f, Exposed) == a - b
      && Get(f, Prevalence) == b - c && Get(f, Recovered) == c
  {
    var es := [Event(Susceptible, Exposed, a), Event(Exposed, Prevalence, b), Event(Prevalence, Recovered, c)];
    var f := FlowOf(keys, es, f0);
    assert Sum(keys, f) == 0.0 by { FlowSumsToZero(keys, es, f0); }
    assert Get(f, Susceptible) == -a by { FlowOfThree(keys, es, f0, Susceptible); }
    assert Get(f, Exposed) == a - b by { FlowOfThree(keys, es, f0, Exposed); }
    assert Get(f, Prevalence) == b - c by { FlowOfThree(keys, es, f0, Prevalence); }
    assert Get(f, Recovered) == c by { FlowOfThree(keys, es, f0, Recovered); }
  }

  /**
   * SIR `calcFlow` as written: both events run from susceptible to
   * prevalence, so nobody ever enters the recovered compartment, and
   * prevalence gains exactly what susceptible loses.
   */
  lemma SirFlow(s: LegacyState)
    requires Susceptible in s.keys && Prevalence in s.keys && Recovered in s.keys
    ensures |CalcFlow(Sir, s).events| == 2
    ensures Get(CalcFlow(Sir, s).flow, Recovered) == 0.0
    ensures Get(CalcFlow(Sir, s).flow, Prevalence) == Infection(s) + Recovering(s)
    ensures Get(CalcFlow(Sir, s).flow, Susceptible) == -(Infection(s) + Recovering(s))
  {
    SirNet(s.keys, s.flow, Infection(s), Recovering(s));
  }

  /** The two SIR events with magnitudes `a` and `b`, folded into a zeroed flow. */
  lemma SirNet(keys: seq<Name>, f0: Table, a: real, b: real)
    requires Susceptible in keys && Prevalence in keys && Recovered in keys
    ensures var f := FlowOf(keys, [Event(Susceptible, Prevalence, a), Event(Susceptible, Prevalence, b)], f0);
      && Get(f, Recovered) == 0.0 && Get(f, Prevalence) == a + b && Get(f, Susceptible) == -(a + b)
  {
    var es := [Event(Susceptible, Prevalence, a), Event(Susceptible, Prevalence, b)];
    var f := FlowOf(keys, es, f0);
    assert Get(f, Recovered) == 0.0 by { FlowOfTwo(keys, es, f0, Recovered); }
    assert Get(f, Prevalence) == a + b by { FlowOfTwo(keys, es, f0, Prevalence); }
    assert Get(f, Susceptible) == -(a + b) by { FlowOfTwo(keys, es, f0, Susceptible); }
  }

  /**
   * `updateCompartment`: each listed delta keeps the accumulated
   * `delta + dTime * flow` (it is not cleared), each listed compartment
   * becomes `max(0, c + delta + dTime * flow)` and so is never negative,
   * and the parameters are kept.
   */
  lemma UpdateAt(k: Kind, s: LegacyState, dt: real, n: Name)
    requires Sum(s.keys, s.compartment) != 0.0 && NoDup(s.keys) && n in s.keys
    ensures Get(UpdateCompartment(k, s, dt).delta, n) == Grown(s.delta, UpdateCompartment(k, s, dt).flow, n, dt)
    ensures Get(UpdateCompartment(k, s, dt).compartment, n)
            == Max0(Get(s.compartment, n) + Grown(s.delta, UpdateCompartment(k, s, dt).flow, n, dt))
    ensures Get(UpdateCompartment(k, s, dt).compartment, n) >= 0.0
    ensures UpdateCompartment(k, s, dt).params == s.params
  {
    var s1 := CalcFlow(k, CalcVar(s));
    assert s1.compartment == s.compartment && s1.delta == s.delta;
    IntegrateAt(s1, dt, n);
  }

  /** Integrating one listed key: its delta grows by `dTime * flow`, its compartment takes it. */
  lemma IntegrateAt(s: LegacyState, dt: real, n: Name)
    requires NoDup(s.keys) && n in s.keys
    ensures Get(Integrate(s, dt).delta, n) == Grown(s.delta, s.flow, n, dt)
    ensures Get(Integrate(s, dt).compartment, n) == Max0(Get(s.compartment, n) + Grown(s.delta, s.flow, n, dt))
    ensures Integrate(s, dt).params == s.params && Integrate(s, dt).flow == s.flow
  {
    var d := AddFlow(s.delta, s.flow, s.keys, dt);
    AddFlowAt(s.delta, s.flow, s.keys, dt, n);
    ApplyDeltaAt(s.compartment, d, s.keys, n);
  }

  /** `updateCompartment` keeps the keys and the shape. */
  lemma UpdateShaped(k: Kind, s: LegacyState, dt: real)
    requires Sum(s.keys, s.compartment) != 0.0 && Shaped(s)
    ensures UpdateCompartment(k, s, dt).keys == s.keys && Shaped(UpdateCompartment(k, s, dt))
  {
  }
}
