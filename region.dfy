/**
 * `BaseModel` as a class: one region whose methods update its fields in
 * place. Every method is proved against the function of `Engine` that
 * says what the operation does to the region's state, so the lemmas of
 * `Engine` carry over to the objects.
 */
module Region {
  import opened Buckets
  import opened Variants
  import opened Engine

  // The loops of `BaseModel`'s methods, each over local copies of the fields it reads.

  /** `for (let key of ks) t[key] = 0`. */
  method ZeroAll(t: Table, ks: seq<Name>) returns (r: Table)
    ensures r == SetAll(t, ks, 0.0)
  {
    r := t;
    for i := 0 to |ks|
      invariant r == SetAll(t, ks[..i], 0.0)
    {
      assert ks[..i + 1][..i] == ks[..i];
      r := r[ks[i] := 0.0];
    }
    assert ks[..|ks|] == ks;
  }

  /** `for (let {key, value} of entries) p[key] = value`. */
  method AssignAll(p: Table, entries: seq<GuiParam>) returns (r: Table)
    ensures r == Assign(p, entries)
  {
    r := p;
    for i := 0 to |entries|
      invariant r == Assign(p, entries[..i])
    {
      assert entries[..i + 1][..i] == entries[..i];
      r := r[entries[i].key := entries[i].value];
    }
    assert entries[..|entries|] == entries;
  }

  /** One loop of `calcEvents`: push the event of each declaration onto `es`. */
  method PushEvents(es: seq<Event>, decls: seq<EventDecl>, rates: Table, c: Table) returns (r: seq<Event>)
    ensures r == es + BuildEvents(decls, rates, c)
  {
    r := es;
    for i := 0 to |decls|
      invariant r == es + BuildEvents(decls[..i], rates, c)
    {
      assert decls[..i + 1][..i] == decls[..i];
      r := r + [EventOf(decls[i], rates, c)];
    }
    assert decls[..|decls|] == decls;
  }

  /** The loop of `saveToSolution`: `incidence += val * dTime` for each event into prevalence. */
  method SumIncidence(es: seq<Event>, dt: real) returns (incidence: real)
    ensures incidence == Incidence(es, dt)
  {
    incidence := 0.0;
    for i := 0 to |es|
      invariant incidence == Incidence(es[..i], dt)
    {
      assert es[..i + 1][..i] == es[..i];
      if es[i].to == Prevalence {
        incidence := incidence + es[i].magnitude * dt;
      }
    }
    assert es[..|es|] == es;
  }

  /** The event loop of `runStep`: `flow[from] -= val; flow[to] += val` for each event. */
  method FoldEvents(f: Table, es: seq<Event>) returns (r: Table)
    ensures r == ApplyEvents(f, es)
  {
    r := f;
    for j := 0 to |es|
      invariant r == ApplyEvents(f, es[..j])
    {
      assert es[..j + 1][..j] == es[..j];
      var e := es[j];
      r := r[e.from := Get(r, e.from) - e.magnitude];
      r := r[e.to := Get(r, e.to) + e.magnitude];
    }
    assert es[..|es|] == es;
  }

  /** The delta loop of `runStep`: `delta[key] += dTime * flow[key]` for each key. */
  method GrowAll(delta: Table, flow: Table, ks: seq<Name>, dt: real) returns (r: Table)
    ensures r == AddFlow(delta, flow, ks, dt)
  {
    r := delta;
    for i := 0 to |ks|
      invariant r == AddFlow(delta, flow, ks[..i], dt)
    {
      AddFlowSnoc(delta, flow, ks, dt, i);
      r := Grow(r, flow, ks[i], dt);
    }
    assert ks[..|ks|] == ks;
  }

  /** The compartment loop of `runStep`: add the delta, then `if (c < 0) c = 0`. */
  method ApplyAll(c: Table, delta: Table, ks: seq<Name>) returns (r: Table)
    ensures r == ApplyDelta(c, delta, ks)
  {
    r := c;
    for i := 0 to |ks|
      invariant r == ApplyDelta(c, delta, ks[..i])
    {
      ApplyDeltaSnoc(c, delta, ks, i);
      r := Settle(r, delta, ks[i]);
    }
    assert ks[..|ks|] == ks;
  }

  class CompartmentModel {
    /** `this.id`: the name the instance was created with. */
    const id: string
    /** Which of SIS, SIR, SEIR, SEIRS or Ebola this instance is. */
    const variant: Variant

    var keys: seq<Name>
    var compartment: Table
    var param: Table
    var vars: Table
    var delta: Table
    var flow: Table
    var events: seq<Event>
    var startTime: real
    var time: real
    var times: seq<real>
    var solution: Solution
    /** `countryModel.importIncidence`, the field `GlobalModel` writes. */
    var importIncidence: real

    /** The instance's fields as one value. */
    function State(): RegionState
      reads this
    {
      RegionState(variant, keys, compartment, param, vars, delta, flow, events,
                  startTime, time, times, solution, importIncidence)
    }

    /** `new XModel(id)`: the variant's compartments at zero, its default parameters. */
    constructor (id: string, variant: Variant)
      ensures this.id == id && State() == Fresh(variant)
    {
      this.id := id;
      this.variant := variant;
      keys := [];
      compartment := map n | n in Names(variant) :: 0.0;
      param := DefaultParams(variant);
      vars := map[];
      delta := map[];
      flow := map[];
      events := [];
      startTime := 0.0;
      time := 0.0;
      times := [];
      solution := EmptySolution;
      importIncidence := 0.0;
    }

    /** `_.cloneDeep(model)`: a new instance holding the same values. */
    constructor Clone(other: CompartmentModel)
      ensures id == other.id && State() == other.State()
    {
      id := other.id;
      variant := other.variant;
      keys := other.keys;
      compartment := other.compartment;
      param := other.param;
      vars := other.vars;
      delta := other.delta;
      flow := other.flow;
      events := other.events;
      startTime := other.startTime;
      time := other.time;
      times := other.times;
      solution := other.solution;
      importIncidence := other.importIncidence;
    }

    /** `getGuiParams`: a copy of the variant's editable parameters. */
    function GetGuiParams(): (r: seq<GuiParam>)
      ensures r == GuiParams(variant)
    {
      GuiParams(variant)
    }

    /** `getInterventionParams`: a copy of the variant's intervention parameters. */
    function GetInterventionParams(): (r: seq<GuiParam>)
      ensures r == InterventionParams(variant)
    {
      InterventionParams(variant)
    }

    /** `importGuiParams`: restart from the defaults and apply each entry in order. */
    method ImportGuiParams(entries: seq<GuiParam>)
      modifies this
      ensures State() == Engine.ImportGuiParams(old(State()), entries)
    {
      param := AssignAll(DefaultParams(variant), entries);
    }

    /** `calcExtraParams`: the variant's derived rates. */
    method CalcExtraParams()
      requires ExtraDefined(variant, param)
      modifies this
      ensures State() == old(State()).(param := ExtraParams(variant, old(param)))
    {
      param := ExtraParams(variant, param);
    }

    /** `calcVars`: the population and the forces of infection. */
    method CalcVars()
      requires VarsDefined(variant, param, compartment)
      modifies this
      ensures State() == old(State()).(vars := Variants.CalcVars(variant, old(vars), old(param), old(compartment)))
    {
      vars := Variants.CalcVars(variant, vars, param, compartment);
    }

    /** `initCompartmentsByParams`: prevalence and susceptible from the parameters. */
    method InitCompartmentsByParams()
      modifies this
      ensures State() == old(State()).(compartment := Seeded(old(compartment), param))
    {
      compartment := compartment[Prevalence := Get(param, InitPrevalence)];
      compartment := compartment[Susceptible := Get(param, InitPopulation) - Get(param, InitPrevalence)];
    }

    /**
     * `initCompartments`: zero every listed compartment, derive the
     * rates, seed the compartments, and recompute the variables (the
     * computation `checkEvents` performs before its diagnostics).
     */
    method InitCompartments()
      requires InitDefined(State())
      modifies this
      ensures State() == Engine.InitCompartments(old(State()))
    {
      compartment := ZeroAll(compartment, keys);
      CalcExtraParams();
      InitCompartmentsByParams();
      assert compartment == InitialCompartments(keys, old(compartment), param);
      CalcVars();
    }

    /** `applyIntervention`: override the listed parameters, then re-derive the rates. */
    method ApplyIntervention(entries: seq<GuiParam>)
      requires InterventionDefined(State(), entries)
      modifies this
      ensures State() == Engine.ApplyIntervention(old(State()), entries)
    {
      param := AssignAll(param, entries);
      CalcExtraParams();
    }

    /** `clearSolutions`: list the compartments and empty every series. */
    method ClearSolutions()
      modifies this
      ensures State() == Engine.ClearSolutions(old(State()))
    {
      keys := Names(variant);
      solution := EmptySolution;
      times := [];
    }

    /** Zero the listed deltas (the loop shared by `clearBeforeTransfer` and `clearDeltas`). */
    method ZeroDeltas()
      modifies this
      ensures State() == old(State()).(delta := SetAll(old(delta), keys, 0.0))
    {
      delta := ZeroAll(delta, keys);
    }

    /** `clearBeforeTransfer`: zero every listed delta and `var.importIncidence`. */
    method ClearBeforeTransfer()
      modifies this
      ensures State() == Engine.ClearBeforeTransfer(old(State()))
    {
      ZeroDeltas();
      vars := vars[ImportIncidence := 0.0];
    }

    /** The `clearDeltas` that `GlobalModel.update` calls. */
    method ClearDeltas()
      modifies this
      ensures State() == Engine.ClearDeltas(old(State()))
    {
      ZeroDeltas();
    }

    /**
     * `transferTo`: move `prevalence * (1 * travelPerDay / population)`
     * people from this region's prevalence delta to the target's, and
     * count them in the target's `var.importIncidence`.
     */
    method TransferTo(target: CompartmentModel, travelPerDay: real)
      requires Get(vars, Population) != 0.0
      modifies this, target
      ensures var x := Flux(old(Get(compartment, Prevalence)), travelPerDay, old(Get(vars, Population)));
        if target != this then
          State() == Emit(old(State()), x) && target.State() == ReceiveVar(old(target.State()), x)
        else
          State() == ReceiveVar(Emit(old(State()), x), x)
    {
      var probSickCanTravel := 1.0;
      var probTravelPerDay := travelPerDay / Get(vars, Population);
      var x := Get(compartment, Prevalence) * (probSickCanTravel * probTravelPerDay);
      assert x == Flux(Get(compartment, Prevalence), travelPerDay, Get(vars, Population));
      SendOut(x);
      target.TakeIn(x);
    }

    /** `this.delta.prevalence -= delta`. */
    method SendOut(x: real)
      modifies this
      ensures State() == Emit(old(State()), x)
    {
      delta := delta[Prevalence := Get(delta, Prevalence) - x];
    }

    /** `toCountry.delta.prevalence += delta` and `toCountry.var.importIncidence += delta`. */
    method TakeIn(x: real)
      modifies this
      ensures State() == ReceiveVar(old(State()), x)
    {
      delta := delta[Prevalence := Get(delta, Prevalence) + x];
      vars := vars[ImportIncidence := Get(vars, ImportIncidence) + x];
    }

    /**
     * `calcEvents`: recompute the variables, then rebuild the event list
     * from the var-events and the param-events in declaration order.
     */
    method CalcEvents()
      requires VarsDefined(variant, param, compartment)
      modifies this
      ensures vars == Variants.CalcVars(variant, old(vars), old(param), old(compartment))
      ensures State() == old(State()).(vars := vars, events := EventsOf(variant, vars, param, compartment))
    {
      CalcVars();
      RebuildEvents();
    }

    /** The two loops of `calcEvents` that push one event per declaration. */
    method RebuildEvents()
      modifies this
      ensures State() == old(State()).(events := EventsOf(variant, vars, param, compartment))
    {
      var es := PushEvents([], VarEvents(variant), vars, compartment);
      assert es == BuildEvents(VarEvents(variant), vars, compartment);
      es := PushEvents(es, ParamEvents(variant), param, compartment);
      events := es;
    }

    /**
     * `saveToSolution`: the incidence, `dTime` times every magnitude into
     * prevalence, then prevalence and susceptible, one entry each.
     */
    method SaveToSolution(dt: real)
      modifies this
      ensures State() == old(State()).(solution := Saved(old(solution), compartment, events, dt))
    {
      var incidence := SumIncidence(events, dt);
      solution := solution.(incidence := solution.incidence + [incidence]);
      solution := solution.(prevalence := solution.prevalence + [Get(compartment, Prevalence)]);
      solution := solution.(susceptible := solution.susceptible + [Get(compartment, Susceptible)]);
    }

    /** The flow loops of `runStep`: zero the listed flows, then fold every event in. */
    method ComputeFlow()
      modifies this
      ensures State() == old(State()).(flow := FlowOf(keys, events, old(flow)))
    {
      var f := ZeroAll(flow, keys);
      flow := FoldEvents(f, events);
    }

    /** The delta loop of `runStep`: each listed delta grows by `dTime` times its flow. */
    method AddFlowToDelta(dt: real)
      modifies this
      ensures State() == old(State()).(delta := AddFlow(old(delta), flow, keys, dt))
    {
      delta := GrowAll(delta, flow, keys, dt);
    }

    /** The compartment loop of `runStep`: add the delta, then floor at zero. */
    method UpdateCompartments()
      modifies this
      ensures State() == old(State()).(compartment := ApplyDelta(old(compartment), delta, keys))
    {
      compartment := ApplyAll(compartment, delta, keys);
    }

    /** The clock of `runStep`: restart from `startTime` at the first step, then add `dTime`. */
    method AdvanceTime(dt: real)
      modifies this
      ensures State() == old(State()).(time := NextTime(old(State()), dt),
                                       times := old(times) + [NextTime(old(State()), dt)])
    {
      if times == [] {
        time := startTime;
      }
      time := time + dt;
      times := times + [time];
    }

    /** `runStep(dTime)`: one Euler step of the region. */
    method RunStep(dt: real)
      requires VarsDefined(variant, param, compartment)
      modifies this
      ensures State() == Step(old(State()), dt)
    {
      ghost var s0 := State();
      CalcEvents();
      ghost var s1 := State();
      Propagate(dt);
      StepIsAdvance(s0, dt);
      AdvanceFromCalc(s0, s1.vars, s1.events, dt);
    }

    /** What `runStep` does once the events are computed: `Engine.Advance`. */
    method Propagate(dt: real)
      modifies this
      ensures State() == Advance(old(State()), old(vars), old(events), dt)
    {
      Integrate(dt);
      AdvanceTime(dt);
      SaveToSolution(dt);
    }

    /** The Euler part of `runStep`: flows from the events, deltas from the flows, compartments from the deltas. */
    method Integrate(dt: real)
      modifies this
      ensures State() == old(State()).(flow := FlowOf(keys, events, old(flow)),
                                       delta := AddFlow(old(delta), flow, keys, dt),
                                       compartment := ApplyDelta(old(compartment), delta, keys))
    {
      ComputeFlow();
      AddFlowToDelta(dt);
      UpdateCompartments();
    }
  }
}
