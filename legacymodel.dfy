/**
 * The older `SEIRModel` and `SirModel` as one class whose `kind` says
 * which of the two an instance is. Every method is proved against the
 * function of `Legacy` that says what it does to the instance's fields.
 */
module LegacyModels {
  import opened Buckets
  import Engine
  import opened Legacy
  import Region
  import Variants

  class LegacyModel {
    /** `this.id`: the name the instance was created with. */
    const id: string
    /** SEIR or SIR. */
    const kind: Kind
    /** `this.modelType`. */
    const modelType: string
    /** `this.keys`: the compartments in declaration order. */
    const keys: seq<Name>
    /** `this.defaultParams`. */
    const defaultParams: Table
    /** `this.inputParamEntries`. */
    const inputParamEntries: seq<InputEntry>

    var compartment: Table
    var params: Table
    var vars: Table
    var events: seq<Engine.Event>
    var flow: Table
    var delta: Table

    /** The instance's fields as one value. */
    function State(): LegacyState
      reads this
    {
      LegacyState(keys, compartment, params, vars, events, flow, delta)
    }

    /** The listed compartments are the kind's, and exactly the ones held. */
    predicate Valid()
      reads this
    {
      keys == Keys(kind) && Shaped(State())
    }

    /**
     * `new SEIRModel(id)` / `new SirModel(id)`: the compartments at zero,
     * then `reset(this.defaultParams)`.
     */
    constructor (id: string, kind: Kind)
      ensures this.id == id && this.kind == kind && Valid()
      ensures modelType == TypeName(kind) && defaultParams == Defaults(kind)
      ensures inputParamEntries == InputEntries(kind)
      ensures State() == Constructed(kind)
    {
      this.id := id;
      this.kind := kind;
      modelType := TypeName(kind);
      keys := Keys(kind);
      defaultParams := Defaults(kind);
      inputParamEntries := InputEntries(kind);
      compartment := map n | n in Keys(kind) :: 0.0;
      params := map[];
      vars := map[];
      events := [];
      flow := map[];
      delta := map[];
      new;
      assert State() == Blank(kind);
      assert params + defaultParams == Defaults(kind);
      Reset(defaultParams);
    }

    /** `getInputParamEntries`: a copy of the editable parameters. */
    function GetInputParamEntries(): (r: seq<InputEntry>)
      reads this
      ensures r == inputParamEntries
    {
      inputParamEntries
    }

    /** `reset`: merge the inputs into the parameters, then `init`. */
    method Reset(input: Table)
      requires Valid() && InitDefined(kind, params + input)
      modifies this
      ensures Valid() && State() == Legacy.Reset(kind, old(State()), input)
    {
      params := params + input;
      Init();
    }

    /** `init`: derive the rates, zero and seed the compartments, recompute the variables. */
    method Init()
      requires Valid() && InitDefined(kind, params)
      modifies this
      ensures Valid() && State() == Legacy.Init(kind, old(State()))
    {
      ghost var s := State();
      DeriveRates();
      SeedCompartments();
      SeededTotal(keys, s.compartment, params);
      DeriveKeepsSeeding(kind, s.params);
      CalcVar();
      InitShaped(kind, s);
    }

    /** The rate assignments at the head of `init`. */
    method DeriveRates()
      requires RatesDefined(kind, params)
      modifies this
      ensures State() == old(State()).(params := Derive(kind, old(params)))
    {
      var period, r0 := Get(params, Period), Get(params, ReproductionNumber);
      if kind == Seir {
        var cf, incubation := Get(params, CaseFatality), Get(params, Incubation);
        params := params[RecoverRate := (1.0 - 1.0 / cf) / period];
        params := params[IncubationRate := 1.0 / incubation];
        params := params[ContactRate := r0 * (1.0 / period)];
        params := params[ProbSickCanTravel := 1.0];
        ghost var d := Derive(Seir, old(params));
        assert params.Keys == d.Keys;
        assert forall n | n in params :: params[n] == d[n];
      } else {
        params := params[RecoverRate := 1.0 / period];
        params := params[ContactRate := r0 * params[RecoverRate]];
        params := params[ProbSickCanTravel := 1.0];
        ghost var d := Derive(Sir, old(params));
        assert params.Keys == d.Keys;
        assert forall n | n in params :: params[n] == d[n];
      }
    }

    /** The compartment loop of `init`, then prevalence and susceptible from the parameters. */
    method SeedCompartments()
      modifies this
      ensures State() == old(State()).(compartment := Seeded(keys, old(compartment), params))
    {
      compartment := Region.ZeroAll(compartment, keys);
      compartment := compartment[Prevalence := Get(params, Prevalence)];
      compartment := compartment[Susceptible := Get(params, InitPopulation) - Get(params, Prevalence)];
    }

    /** `clearDelta`: zero every listed delta. */
    method ClearDelta()
      modifies this
      ensures State() == Legacy.ClearDelta(old(State()))
    {
      delta := Region.ZeroAll(delta, keys);
    }

    /**
     * `calcVar`: the population is the sum of the compartments, the force
     * of infection `contactRate / population * prevalence`.
     */
    method CalcVar()
      requires Sum(keys, compartment) != 0.0
      modifies this
      ensures State() == Legacy.CalcVar(old(State()))
    {
      var population := Sum(keys, compartment);
      vars := vars[Population := population];
      vars := vars[RateForce := Variants.PerCapita(Get(params, ContactRate), population, Get(compartment, Prevalence))];
    }

    /** `calcFlow`: push the hard-wired events, zero the listed flows, fold the events in. */
    method CalcFlow()
      modifies this
      ensures State() == Legacy.CalcFlow(kind, old(State()))
    {
      var es: seq<Engine.Event> := [];
      var d := Infection(State());
      if kind == Seir {
        es := es + [Engine.Event(Susceptible, Exposed, d)];
        d := Incubating(State());
        es := es + [Engine.Event(Exposed, Prevalence, d)];
        d := Recovering(State());
        es := es + [Engine.Event(Prevalence, Recovered, d)];
      } else {
        es := es + [Engine.Event(Susceptible, Prevalence, d)];
        d := Recovering(State());
        es := es + [Engine.Event(Susceptible, Prevalence, d)];
      }
      assert es == FlowEvents(kind, State());
      events := es;
      var f := Region.ZeroAll(flow, keys);
      flow := Region.FoldEvents(f, events);
    }

    /**
     * `updateCompartment(dTime)`: recompute the variables and the flow,
     * then add `dTime * flow` onto each delta and each delta onto its
     * compartment, floored at zero. Every listed delta must already exist
     * (`clearDelta` has run): the source adds onto it.
     */
    method UpdateCompartment(dt: real)
      requires Valid() && Sum(keys, compartment) != 0.0
      requires forall n :: n in keys ==> n in delta
      modifies this
      ensures Valid() && State() == Legacy.UpdateCompartment(kind, old(State()), dt)
    {
      ghost var s := State();
      CalcVar();
      CalcFlow();
      Integrate(dt);
      UpdateShaped(kind, s, dt);
    }

    /** The two loops of `updateCompartment` once the flow is known. */
    method Integrate(dt: real)
      modifies this
      ensures State() == Legacy.Integrate(old(State()), dt)
    {
      delta := Region.GrowAll(delta, flow, keys, dt);
      compartment := Region.ApplyAll(compartment, delta, keys);
    }

    /**
     * `getExitPrevalence`: the sick who travel, `prevalence *
     * (probSickCanTravel * travelPerDay / population)`; times the
     * population it is prevalence times the travel share of the sick.
     */
    function GetExitPrevalence(travelPerDay: real): (r: real)
      requires Get(vars, Population) != 0.0
      reads this
      ensures r * Get(vars, Population)
              == Get(compartment, Prevalence) * (Get(params, ProbSickCanTravel) * travelPerDay)
    {
      var population := Get(vars, Population);
      var probTravelPerDay := travelPerDay / population;
      var probSickTravelPerDay := Get(params, ProbSickCanTravel) * probTravelPerDay;
      ExitScales(Get(compartment, Prevalence), Get(params, ProbSickCanTravel), travelPerDay, population);
      Get(compartment, Prevalence) * probSickTravelPerDay
    }
  }

  /** `c * (q * (t / n)) * n == c * (q * t)` for nonzero `n`. */
  lemma ExitScales(c: real, q: real, t: real, n: real)
    requires n != 0.0
    ensures c * (q * (t / n)) * n == c * (q * t)
  {
    assert (t / n) * n == t;
    assert c * (q * (t / n)) * n == c * (q * ((t / n) * n));
  }
}
