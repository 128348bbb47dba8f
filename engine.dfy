/**
 * The single-region engine (`BaseModel`) as values: the state of one
 * region and the pure functions that say what each of its operations
 * does to that state. The class `Region.CompartmentModel` is proved to
 * implement these; the lemmas here state what the functions promise.
 */
module Engine {
  import opened Buckets
  import opened Variants
  import opened Wrappers

  /** One evaluated edge `[from, to, magnitude]` of `this.events`. */
  datatype Event = Event(from: Name, to: Name, magnitude: real)

  /** `this.solution`: one series per tracked quantity. */
  datatype Solution = Solution(
    prevalence: seq<real>,
    susceptible: seq<real>,
    incidence: seq<real>,
    importIncidence: seq<real>)

  const EmptySolution := Solution([], [], [], [])

  /** Every field of a `BaseModel` instance that the engine reads or writes. */
  datatype RegionState = RegionState(
    variant: Variant,
    keys: seq<Name>,
    compartment: Table,
    param: Table,
    vars: Table,
    delta: Table,
    flow: Table,
    events: seq<Event>,
    startTime: real,
    time: real,
    times: seq<real>,
    solution: Solution,
    importIncidence: real)

  /** The invariant every operation keeps. */
  predicate Valid(s: RegionState)
  {
    && s.compartment.Keys == (set n | n in Names(s.variant))
    && (s.keys == [] || s.keys == Names(s.variant))
    && DefaultParams(s.variant).Keys <= s.param.Keys
  }

  /** `max(0, x)`: the source's `if (c < 0) c = 0`. */
  function Max0(x: real): (r: real)
    ensures r >= 0.0 && r >= x
    ensures r == x || r == 0.0
  {
    if x < 0.0 then 0.0 else x
  }

  // ---------------------------------------------------------------- events

  /** The event of one declaration: its rate times its source compartment. */
  function EventOf(d: EventDecl, rates: Table, c: Table): Event
  {
    Event(d.from, d.to, Get(rates, d.rate) * Get(c, d.from))
  }

  /** The loop `for (let [from, to, key] of decls) this.events.push(...)`. */
  function BuildEvents(decls: seq<EventDecl>, rates: Table, c: Table): (r: seq<Event>)
    ensures |r| == |decls|
    ensures forall i :: 0 <= i < |decls| ==> r[i] == EventOf(decls[i], rates, c)
  {
    if decls == [] then []
    else BuildEvents(decls[..|decls| - 1], rates, c) + [EventOf(decls[|decls| - 1], rates, c)]
  }

  /**
   * `calcEvents` after `calcVars`: the var-events in declaration order,
   * then the param-events; a var-event's magnitude is its variable times
   * its source compartment, a param-event's its parameter times it.
   */
  function EventsOf(v: Variant, vars: Table, p: Table, c: Table): (r: seq<Event>)
    ensures |r| == |VarEvents(v)| + |ParamEvents(v)|
    ensures forall i :: 0 <= i < |VarEvents(v)| ==> r[i] == EventOf(VarEvents(v)[i], vars, c)
    ensures forall j :: 0 <= j < |ParamEvents(v)| ==>
      r[|VarEvents(v)| + j] == EventOf(ParamEvents(v)[j], p, c)
  {
    BuildEvents(VarEvents(v), vars, c) + BuildEvents(ParamEvents(v), p, c)
  }

  // ------------------------------------------------------------------ flow

  /** `this.flow[from] -= val; this.flow[to] += val`. */
  function ApplyEvent(f: Table, e: Event): Table
  {
    var f1 := f[e.from := Get(f, e.from) - e.magnitude];
    f1[e.to := Get(f1, e.to) + e.magnitude]
  }

  /** The loop over `this.events` that folds them into the flow. */
  function ApplyEvents(f: Table, es: seq<Event>): Table
  {
    if es == [] then f else ApplyEvent(ApplyEvents(f, es[..|es| - 1]), es[|es| - 1])
  }

  /** The flow of a step: zeroed over `keys`, then every event folded in. */
  function FlowOf(keys: seq<Name>, es: seq<Event>, f0: Table): Table
  {
    ApplyEvents(SetAll(f0, keys, 0.0), es)
  }

  /** Total magnitude of the events that end in `k` (reference definition). */
  function Inflow(es: seq<Event>, k: Name): real
  {
    if es == [] then 0.0
    else Inflow(es[..|es| - 1], k) + (if es[|es| - 1].to == k then es[|es| - 1].magnitude else 0.0)
  }

  /** Total magnitude of the events that start in `k` (reference definition). */
  function Outflow(es: seq<Event>, k: Name): real
  {
    if es == [] then 0.0
    else Outflow(es[..|es| - 1], k) + (if es[|es| - 1].from == k then es[|es| - 1].magnitude else 0.0)
  }

  /** Folding events changes each entry by what flows in minus what flows out. */
  lemma {:induction false} ApplyEventsIsNet(f: Table, es: seq<Event>, k: Name)
    ensures Get(ApplyEvents(f, es), k) == Get(f, k) + Inflow(es, k) - Outflow(es, k)
  {
    if es != [] {
      ApplyEventsIsNet(f, es[..|es| - 1], k);
    }
  }

  /**
   * The flow of every key is its inflow minus its outflow; in particular a
   * self-loop event (`from == to`, as SEIR's disease death) nets to zero.
   */
  lemma FlowIsNet(keys: seq<Name>, es: seq<Event>, f0: Table, k: Name)
    requires k in keys
    ensures Get(FlowOf(keys, es, f0), k) == Inflow(es, k) - Outflow(es, k)
  {
    ApplyEventsIsNet(SetAll(f0, keys, 0.0), es, k);
  }

  /** A self-loop event leaves every flow entry where it was. */
  lemma SelfLoopIsNeutral(f: Table, k: Name, m: real, n: Name)
    ensures Get(ApplyEvent(f, Event(k, k, m)), n) == Get(f, n)
  {
  }

  /** Each event subtracts at one key and adds the same at another. */
  lemma ApplyEventKeepsSum(keys: seq<Name>, f: Table, e: Event)
    requires NoDup(keys) && e.from in keys && e.to in keys
    ensures Sum(keys, ApplyEvent(f, e)) == Sum(keys, f)
  {
    var f1 := f[e.from := Get(f, e.from) - e.magnitude];
    SumUpdate(keys, f, e.from, Get(f, e.from) - e.magnitude);
    SumUpdate(keys, f1, e.to, Get(f1, e.to) + e.magnitude);
  }

  /** Events between listed keys never change the summed flow. */
  lemma {:induction false} ApplyEventsKeepsSum(keys: seq<Name>, f: Table, es: seq<Event>)
    requires NoDup(keys)
    requires forall i :: 0 <= i < |es| ==> es[i].from in keys && es[i].to in keys
    ensures Sum(keys, ApplyEvents(f, es)) == Sum(keys, f)
  {
    if es != [] {
      ApplyEventsKeepsSum(keys, f, es[..|es| - 1]);
      ApplyEventKeepsSum(keys, ApplyEvents(f, es[..|es| - 1]), es[|es| - 1]);
    }
  }

  /** The flow over `keys` sums to zero: the system is closed. */
  lemma FlowSumsToZero(keys: seq<Name>, es: seq<Event>, f0: Table)
    requires NoDup(keys)
    requires forall i :: 0 <= i < |es| ==> es[i].from in keys && es[i].to in keys
    ensures Sum(keys, FlowOf(keys, es, f0)) == 0.0
  {
    ApplyEventsKeepsSum(keys, SetAll(f0, keys, 0.0), es);
    SumConstant(keys, SetAll(f0, keys, 0.0), 0.0);
  }

  // ----------------------------------------------------- delta and update

  /** `for (let key of keys) this.delta[key] += dTime * this.flow[key]`. */
  function AddFlow(delta: Table, flow: Table, keys: seq<Name>, dt: real): (r: Table)
    ensures r.Keys == delta.Keys + set k | k in keys
    ensures forall k :: k !in keys ==> Get(r, k) == Get(delta, k)
  {
    if keys == [] then delta
    else Grow(AddFlow(delta, flow, keys[..|keys| - 1], dt), flow, keys[|keys| - 1], dt)
  }

  /** `this.delta[key] += dTime * this.flow[key]` for one key. */
  function Grow(delta: Table, flow: Table, k: Name, dt: real): Table
  {
    delta[k := Grown(delta, flow, k, dt)]
  }

  /** `this.delta[key] + dTime * this.flow[key]`. */
  function Grown(delta: Table, flow: Table, k: Name, dt: real): real
  {
    Get(delta, k) + dt * Get(flow, k)
  }

  /** One more key for `AddFlow`: its delta grows. */
  lemma AddFlowSnoc(delta: Table, flow: Table, keys: seq<Name>, dt: real, i: int)
    requires 0 <= i < |keys|
    ensures AddFlow(delta, flow, keys[..i + 1], dt) == Grow(AddFlow(delta, flow, keys[..i], dt), flow, keys[i], dt)
  {
    assert keys[..i + 1][..i] == keys[..i];
  }

  /** With distinct keys, each listed delta grows by `dTime` times its flow. */
  lemma {:induction false} AddFlowAt(delta: Table, flow: Table, keys: seq<Name>, dt: real, k: Name)
    requires NoDup(keys) && k in keys
    ensures Get(AddFlow(delta, flow, keys, dt), k) == Grown(delta, flow, k, dt)
  {
    LastNotInInit(keys);
    if k != keys[|keys| - 1] {
      InInit(keys, k);
      AddFlowAt(delta, flow, keys[..|keys| - 1], dt, k);
    }
  }

  /** `this.compartment[key] += this.delta[key]`, floored at zero, for every key. */
  function ApplyDelta(c: Table, delta: Table, keys: seq<Name>): (r: Table)
    ensures r.Keys == c.Keys + set k | k in keys
    ensures forall k :: k !in keys ==> Get(r, k) == Get(c, k)
  {
    if keys == [] then c
    else Settle(ApplyDelta(c, delta, keys[..|keys| - 1]), delta, keys[|keys| - 1])
  }

  /** `this.compartment[key] += this.delta[key]`, floored at zero, for one key. */
  function Settle(c: Table, delta: Table, k: Name): Table
  {
    c[k := Max0(Get(c, k) + Get(delta, k))]
  }

  /** One more key for `ApplyDelta`: its compartment becomes `max(0, c + delta)`. */
  lemma ApplyDeltaSnoc(c: Table, delta: Table, keys: seq<Name>, i: int)
    requires 0 <= i < |keys|
    ensures ApplyDelta(c, delta, keys[..i + 1]) == Settle(ApplyDelta(c, delta, keys[..i]), delta, keys[i])
  {
    assert keys[..i + 1][..i] == keys[..i];
  }

  /** With distinct keys, each listed compartment becomes `max(0, c + delta)`. */
  lemma {:induction false} ApplyDeltaAt(c: Table, delta: Table, keys: seq<Name>, k: Name)
    requires NoDup(keys) && k in keys
    ensures Get(ApplyDelta(c, delta, keys), k) == Max0(Get(c, k) + Get(delta, k))
  {
    LastNotInInit(keys);
    if k != keys[|keys| - 1] {
      InInit(keys, k);
      ApplyDeltaAt(c, delta, keys[..|keys| - 1], k);
    }
  }

  /** `saveToSolution`'s loop: `incidence += val * dTime` for events into prevalence. */
  function Incidence(es: seq<Event>, dt: real): real
  {
    if es == [] then 0.0
    else
      var e := es[|es| - 1];
      Incidence(es[..|es| - 1], dt) + (if e.to == Prevalence then e.magnitude * dt else 0.0)
  }

  /** Recorded incidence is `dTime` times the total magnitude flowing into prevalence. */
  lemma {:induction false} IncidenceIsInflow(es: seq<Event>, dt: real)
    ensures Incidence(es, dt) == dt * Inflow(es, Prevalence)
  {
    if es != [] {
      IncidenceIsInflow(es[..|es| - 1], dt);
    }
  }

  // ------------------------------------------------------------ one step

  /** `saveToSolution`: incidence and the two tracked compartments, one entry each. */
  function Saved(sol: Solution, c: Table, es: seq<Event>, dt: real): Solution
  {
    sol.(incidence := sol.incidence + [Incidence(es, dt)],
         prevalence := sol.prevalence + [Get(c, Prevalence)],
         susceptible := sol.susceptible + [Get(c, Susceptible)])
  }

  /** The time after a step: `dTime` past the last recorded time, or past `startTime` at first. */
  function NextTime(s: RegionState, dt: real): real
  {
    (if s.times == [] then s.startTime else s.time) + dt
  }

  /**
   * The part of `runStep(dTime)` after the variables and events are
   * recomputed: flow, delta, compartments, time and the recorded series.
   */
  function Advance(s: RegionState, vars: Table, events: seq<Event>, dt: real): RegionState
  {
    var flow := FlowOf(s.keys, events, s.flow);
    var delta := AddFlow(s.delta, flow, s.keys, dt);
    var c := ApplyDelta(s.compartment, delta, s.keys);
    var t := NextTime(s, dt);
    s.(vars := vars, events := events, flow := flow, delta := delta, compartment := c,
       time := t, times := s.times + [t], solution := Saved(s.solution, c, events, dt))
  }

  /** Advancing ignores the variables and events the state held before. */
  lemma AdvanceFromCalc(s: RegionState, vars: Table, events: seq<Event>, dt: real)
    ensures Advance(s.(vars := vars, events := events), vars, events, dt) == Advance(s, vars, events, dt)
  {
  }

  /** `runStep(dTime)` on a region. */
  function Step(s: RegionState, dt: real): RegionState
    requires VarsDefined(s.variant, s.param, s.compartment)
  {
    var vars := CalcVars(s.variant, s.vars, s.param, s.compartment);
    Advance(s, vars, EventsOf(s.variant, vars, s.param, s.compartment), dt)
  }

  /** A valid state lists distinct keys, and the events join listed keys. */
  lemma ValidKeys(s: RegionState)
    requires Valid(s)
    ensures NoDup(s.keys)
    ensures forall k :: k in s.keys ==> k in s.compartment
  {
  }

  /** The events of a step join compartments of the variant. */
  lemma EventsJoinNames(v: Variant, vars: Table, p: Table, c: Table)
    ensures forall i :: 0 <= i < |EventsOf(v, vars, p, c)| ==>
      EventsOf(v, vars, p, c)[i].from in Names(v) && EventsOf(v, vars, p, c)[i].to in Names(v)
  {
    EventsWithinNames(v);
    var es := EventsOf(v, vars, p, c);
    forall i | 0 <= i < |es|
      ensures es[i].from in Names(v) && es[i].to in Names(v)
    {
      if i < |VarEvents(v)| {
        assert es[i].from == VarEvents(v)[i].from && es[i].to == VarEvents(v)[i].to;
      } else {
        var j := i - |VarEvents(v)|;
        assert es[|VarEvents(v)| + j].from == ParamEvents(v)[j].from;
        assert es[|VarEvents(v)| + j].to == ParamEvents(v)[j].to;
      }
    }
  }

  /** A step keeps the invariant. */
  lemma StepValid(s: RegionState, dt: real)
    requires Valid(s) && VarsDefined(s.variant, s.param, s.compartment)
    ensures Valid(Step(s, dt))
  {
  }

  /**
   * Adding the flow and then the delta sets each listed compartment to
   * `max(0, old + seeded delta + dTime * flow)`.
   */
  lemma {:induction false} UpdateAt(c: Table, delta: Table, flow: Table, keys: seq<Name>, dt: real, k: Name)
    requires NoDup(keys) && k in keys
    ensures Get(ApplyDelta(c, AddFlow(delta, flow, keys, dt), keys), k)
            == Max0(Get(c, k) + Get(delta, k) + dt * Get(flow, k))
  {
    AddFlowAt(delta, flow, keys, dt, k);
    ApplyDeltaAt(c, AddFlow(delta, flow, keys, dt), keys, k);
  }

  /** Advancing leaves a compartment outside `keys` alone. */
  lemma AdvanceUnlisted(s: RegionState, vars: Table, es: seq<Event>, dt: real, k: Name)
    requires k !in s.keys
    ensures Get(Advance(s, vars, es, dt).compartment, k) == Get(s.compartment, k)
  {
  }

  /** Advancing sets a listed compartment to `max(0, old + seeded delta + dTime * flow)`. */
  lemma AdvanceListed(s: RegionState, vars: Table, es: seq<Event>, dt: real, k: Name)
    requires NoDup(s.keys) && k in s.keys
    ensures Get(Advance(s, vars, es, dt).compartment, k)
            == Max0(Get(s.compartment, k) + Get(s.delta, k) + dt * Get(Advance(s, vars, es, dt).flow, k))
  {
    UpdateAt(s.compartment, s.delta, Advance(s, vars, es, dt).flow, s.keys, dt, k);
  }

  /**
   * Advancing appends one entry to each series and to `times`; the
   * incidence entry is `dTime` times everything that flowed into prevalence.
   */
  lemma AdvanceRecords(s: RegionState, vars: Table, es: seq<Event>, dt: real)
    ensures Advance(s, vars, es, dt).time == (if s.times == [] then s.startTime else s.time) + dt
    ensures Advance(s, vars, es, dt).times == s.times + [Advance(s, vars, es, dt).time]
    ensures Advance(s, vars, es, dt).solution.incidence == s.solution.incidence + [dt * Inflow(es, Prevalence)]
    ensures Advance(s, vars, es, dt).solution.prevalence
            == s.solution.prevalence + [Get(Advance(s, vars, es, dt).compartment, Prevalence)]
    ensures Advance(s, vars, es, dt).solution.susceptible
            == s.solution.susceptible + [Get(Advance(s, vars, es, dt).compartment, Susceptible)]
    ensures Advance(s, vars, es, dt).solution.importIncidence == s.solution.importIncidence
  {
    IncidenceIsInflow(es, dt);
  }

  /** A step is `Advance` after the variables and the events of the old state are recomputed. */
  lemma StepIsAdvance(s: RegionState, dt: real)
    requires VarsDefined(s.variant, s.param, s.compartment)
    ensures Step(s, dt).vars == CalcVars(s.variant, s.vars, s.param, s.compartment)
    ensures Step(s, dt).events == EventsOf(s.variant, Step(s, dt).vars, s.param, s.compartment)
    ensures Step(s, dt) == Advance(s, Step(s, dt).vars, Step(s, dt).events, dt)
  {
  }

  /** A step leaves every compartment outside `keys` alone and floors every listed one at zero. */
  lemma StepCompartment(s: RegionState, dt: real, k: Name)
    requires NoDup(s.keys) && VarsDefined(s.variant, s.param, s.compartment)
    ensures k in s.keys ==> Get(Step(s, dt).compartment, k)
                            == Max0(Get(s.compartment, k) + Get(Step(s, dt).delta, k))
    ensures k !in s.keys ==> Get(Step(s, dt).compartment, k) == Get(s.compartment, k)
  {
    if k in s.keys {
      ApplyDeltaAt(s.compartment, Step(s, dt).delta, s.keys, k);
    }
  }

  /** Once `keys` lists the compartments, a step leaves no compartment negative. */
  lemma StepNonNegative(s: RegionState, dt: real)
    requires Valid(s) && VarsDefined(s.variant, s.param, s.compartment) && s.keys != []
    ensures forall k :: k in Step(s, dt).compartment ==> Step(s, dt).compartment[k] >= 0.0
  {
    forall k | k in Step(s, dt).compartment
      ensures Step(s, dt).compartment[k] >= 0.0
    {
      StepCompartment(s, dt, k);
    }
  }

  /** Each step's flow is the net of its events and sums to zero over `keys`. */
  lemma StepFlow(s: RegionState, dt: real)
    requires Valid(s) && VarsDefined(s.variant, s.param, s.compartment)
    ensures Sum(s.keys, Step(s, dt).flow) == 0.0
    ensures forall k :: k in s.keys ==>
      Get(Step(s, dt).flow, k) == Inflow(Step(s, dt).events, k) - Outflow(Step(s, dt).events, k)
  {
    var s' := Step(s, dt);
    if s.keys != [] {
      EventsJoinNames(s.variant, s'.vars, s.param, s.compartment);
      FlowSumsToZero(s.keys, s'.events, s.flow);
    }
    forall k | k in s.keys
      ensures Get(s'.flow, k) == Inflow(s'.events, k) - Outflow(s'.events, k)
    {
      FlowIsNet(s.keys, s'.events, s.flow, k);
    }
  }

  /**
   * Each step rebuilds the event list from scratch with one event per
   * declaration, and advances time by exactly `dTime` (from `startTime`
   * when no time was recorded yet), appending it to `times`.
   */
  lemma StepTiming(s: RegionState, dt: real)
    requires VarsDefined(s.variant, s.param, s.compartment)
    ensures |Step(s, dt).events| == |VarEvents(s.variant)| + |ParamEvents(s.variant)|
    ensures Step(s, dt).time == (if s.times == [] then s.startTime else s.time) + dt
    ensures Step(s, dt).times == s.times + [Step(s, dt).time]
  {
  }

  /** Each step appends exactly one entry to each recorded series and keeps the earlier ones. */
  lemma StepSeries(s: RegionState, dt: real)
    requires VarsDefined(s.variant, s.param, s.compartment)
    ensures Step(s, dt).solution.prevalence == s.solution.prevalence + [Get(Step(s, dt).compartment, Prevalence)]
    ensures Step(s, dt).solution.susceptible == s.solution.susceptible + [Get(Step(s, dt).compartment, Susceptible)]
    ensures |Step(s, dt).solution.incidence| == |s.solution.incidence| + 1
    ensures Step(s, dt).solution.incidence[..|s.solution.incidence|] == s.solution.incidence
    ensures Step(s, dt).solution.incidence == s.solution.incidence + [Incidence(Step(s, dt).events, dt)]
    ensures Step(s, dt).solution.importIncidence == s.solution.importIncidence
  {
  }

  // ------------------------------------------------ the other operations

  /** `clearSolutions`: `keys` becomes the compartment names; every series empties. */
  function ClearSolutions(s: RegionState): RegionState
  {
    s.(keys := Names(s.variant), solution := EmptySolution, times := [])
  }

  /** `clearBeforeTransfer`: every listed delta and `var.importIncidence` become 0. */
  function ClearBeforeTransfer(s: RegionState): RegionState
  {
    s.(delta := SetAll(s.delta, s.keys, 0.0), vars := s.vars[ImportIncidence := 0.0])
  }

  /** The `clearDeltas` that `GlobalModel.update` calls: every listed delta becomes 0. */
  function ClearDeltas(s: RegionState): RegionState
  {
    s.(delta := SetAll(s.delta, s.keys, 0.0))
  }

  /** `this.param[param.key] = param.value` for each entry, in order. */
  function Assign(p: Table, entries: seq<GuiParam>): (r: Table)
    ensures r.Keys == p.Keys + set i | 0 <= i < |entries| :: entries[i].key
  {
    if entries == [] then p
    else
      var e := entries[|entries| - 1];
      Assign(p, entries[..|entries| - 1])[e.key := e.value]
  }

  /** The value the last entry for `k` carries, if any (reference definition). */
  function LastValue(entries: seq<GuiParam>, k: Name): Option<real>
  {
    if entries == [] then None
    else if entries[|entries| - 1].key == k then Some(entries[|entries| - 1].value)
    else LastValue(entries[..|entries| - 1], k)
  }

  /** After assigning, an entry holds the last value given for it, or its old value. */
  lemma {:induction false} AssignAt(p: Table, entries: seq<GuiParam>, k: Name)
    ensures LastValue(entries, k).Some? ==>
      k in Assign(p, entries) && Get(Assign(p, entries), k) == LastValue(entries, k).value
    ensures LastValue(entries, k).None? ==>
      Get(Assign(p, entries), k) == Get(p, k) && (k in Assign(p, entries) <==> k in p)
  {
    if entries != [] && entries[|entries| - 1].key != k {
      AssignAt(p, entries[..|entries| - 1], k);
    }
  }

  /** `importGuiParams`: the defaults, overridden by the entries. */
  function ImportGuiParams(s: RegionState, entries: seq<GuiParam>): RegionState
  {
    s.(param := Assign(DefaultParams(s.variant), entries))
  }

  /** `applyIntervention` is defined when the overridden parameters give nonzero divisors. */
  predicate InterventionDefined(s: RegionState, entries: seq<GuiParam>)
  {
    ExtraDefined(s.variant, Assign(s.param, entries))
  }

  /** `applyIntervention`: override the listed parameters, then re-derive the rates. */
  function ApplyIntervention(s: RegionState, entries: seq<GuiParam>): RegionState
    requires InterventionDefined(s, entries)
  {
    s.(param := ExtraParams(s.variant, Assign(s.param, entries)))
  }

  /** `initCompartmentsByParams`: prevalence and susceptible from the parameters. */
  function Seeded(c: Table, p: Table): Table
  {
    c[Prevalence := Get(p, InitPrevalence)][Susceptible := Get(p, InitPopulation) - Get(p, InitPrevalence)]
  }

  /** `initCompartmentsByParams` after listed compartments are zeroed. */
  function InitialCompartments(keys: seq<Name>, c: Table, p: Table): Table
  {
    Seeded(SetAll(c, keys, 0.0), p)
  }

  /** `initCompartments` is defined when its two calculations have nonzero divisors. */
  predicate InitDefined(s: RegionState)
  {
    && ExtraDefined(s.variant, s.param)
    && var p := ExtraParams(s.variant, s.param);
       VarsDefined(s.variant, p, InitialCompartments(s.keys, s.compartment, p))
  }

  /**
   * `initCompartments`: zero every listed compartment, derive the rates,
   * seed prevalence and susceptible from the parameters, and (in the
   * consistency check) recompute the variables.
   */
  function InitCompartments(s: RegionState): RegionState
    requires InitDefined(s)
  {
    var p := ExtraParams(s.variant, s.param);
    var c := InitialCompartments(s.keys, s.compartment, p);
    s.(param := p, compartment := c, vars := CalcVars(s.variant, s.vars, p, c))
  }

  /**
   * `importGuiParams` resets the parameters: each one holds the last value
   * the entries give it, or else the variant's default, whatever it held
   * before.
   */
  lemma ImportGuiParamsAt(s: RegionState, entries: seq<GuiParam>, k: Name)
    ensures LastValue(entries, k).Some? ==>
      Get(ImportGuiParams(s, entries).param, k) == LastValue(entries, k).value
    ensures LastValue(entries, k).None? ==>
      Get(ImportGuiParams(s, entries).param, k) == Get(DefaultParams(s.variant), k)
    ensures ImportGuiParams(s, entries).compartment == s.compartment
  {
    AssignAt(DefaultParams(s.variant), entries, k);
  }

  /**
   * `applyIntervention` overrides the listed parameters (every other
   * parameter that is not re-derived keeps its value) and changes only
   * the parameters: compartments, variables and series stay.
   */
  lemma ApplyInterventionAt(s: RegionState, entries: seq<GuiParam>, k: Name)
    requires InterventionDefined(s, entries) && k !in DerivedKeys(s.variant)
    ensures LastValue(entries, k).Some? ==>
      Get(ApplyIntervention(s, entries).param, k) == LastValue(entries, k).value
    ensures LastValue(entries, k).None? ==>
      Get(ApplyIntervention(s, entries).param, k) == Get(s.param, k)
    ensures ApplyIntervention(s, entries).param.Keys
            == s.param.Keys + DerivedKeys(s.variant) + set i | 0 <= i < |entries| :: entries[i].key
    ensures ApplyIntervention(s, entries).(param := s.param) == s
  {
    AssignAt(s.param, entries, k);
  }

  /**
   * Zeroing then seeding: a listed compartment other than prevalence and
   * susceptible becomes 0, an unlisted one is kept, prevalence is the
   * initial prevalence and susceptible the rest of the initial population.
   */
  lemma InitialAt(keys: seq<Name>, c: Table, p: Table, k: Name)
    ensures k in keys && k != Prevalence && k != Susceptible ==>
      Get(InitialCompartments(keys, c, p), k) == 0.0
    ensures k !in keys && k != Prevalence && k != Susceptible ==>
      Get(InitialCompartments(keys, c, p), k) == Get(c, k)
    ensures Get(InitialCompartments(keys, c, p), Prevalence) == Get(p, InitPrevalence)
    ensures Get(InitialCompartments(keys, c, p), Susceptible)
            == Get(p, InitPopulation) - Get(p, InitPrevalence)
  {
  }

  /** Over the compartment names, zeroing then seeding totals the initial population. */
  lemma {:induction false} InitialTotal(v: Variant, c: Table, p: Table)
    ensures TotalPopulation(v, InitialCompartments(Names(v), c, p)) == Get(p, InitPopulation)
  {
    var ks := Names(v);
    var z := SetAll(c, ks, 0.0);
    var a, b := Get(p, InitPrevalence), Get(p, InitPopulation);
    SumConstant(ks, z, 0.0);
    SumUpdate(ks, z, Prevalence, a);
    SumUpdate(ks, z[Prevalence := a], Susceptible, b - a);
  }

  /**
   * `initCompartments`: the compartments are zeroed and seeded from the
   * parameters (which the derivation does not touch), and everything but
   * the parameters, compartments and variables is kept.
   */
  lemma InitCompartmentsAt(s: RegionState, k: Name)
    requires InitDefined(s)
    ensures k in s.keys && k != Prevalence && k != Susceptible ==>
      Get(InitCompartments(s).compartment, k) == 0.0
    ensures k !in s.keys && k != Prevalence && k != Susceptible ==>
      Get(InitCompartments(s).compartment, k) == Get(s.compartment, k)
    ensures Get(InitCompartments(s).compartment, Prevalence) == Get(s.param, InitPrevalence)
    ensures Get(InitCompartments(s).compartment, Susceptible)
            == Get(s.param, InitPopulation) - Get(s.param, InitPrevalence)
  {
    var p := ExtraParams(s.variant, s.param);
    ExtraKeepsInit(s.variant, s.param);
    var c := InitCompartments(s).compartment;
    assert c == InitialCompartments(s.keys, s.compartment, p);
    InitialAt(s.keys, s.compartment, p, k);
  }

  /**
   * Once the compartments are listed, `initCompartments` gives a total
   * population equal to the initial population, and that is the
   * `population` variable it records.
   */
  lemma InitKeepsPopulation(s: RegionState)
    requires InitDefined(s) && s.keys == Names(s.variant)
    ensures TotalPopulation(s.variant, InitCompartments(s).compartment) == Get(s.param, InitPopulation)
    ensures Get(InitCompartments(s).vars, Population) == Get(s.param, InitPopulation)
  {
    var p := ExtraParams(s.variant, s.param);
    ExtraKeepsInit(s.variant, s.param);
    var c := InitCompartments(s).compartment;
    assert c == InitialCompartments(s.keys, s.compartment, p);
    InitialTotal(s.variant, s.compartment, p);
  }

  // ------------------------------------------------------------ migration

  /**
   * The people who travel: `prevalence * (probSickCanTravel * travel /
   * population)` with `probSickCanTravel = 1`.
   */
  function Flux(prevalence: real, travel: real, population: real): real
    requires population != 0.0
  {
    prevalence * (1.0 * (travel / population))
  }

  /** The travellers times the population are the prevalence times the travel. */
  lemma FluxScales(prevalence: real, travel: real, population: real)
    requires population != 0.0
    ensures Flux(prevalence, travel, population) * population == prevalence * travel
  {
  }

  /** The travellers leave the source's prevalence delta. */
  function Emit(s: RegionState, x: real): RegionState
  {
    s.(delta := s.delta[Prevalence := Get(s.delta, Prevalence) - x])
  }

  /** `transferTo` at the target: prevalence delta and `var.importIncidence` grow. */
  function ReceiveVar(s: RegionState, x: real): RegionState
  {
    s.(delta := s.delta[Prevalence := Get(s.delta, Prevalence) + x],
       vars := s.vars[ImportIncidence := Get(s.vars, ImportIncidence) + x])
  }

  /** `transferPeople` at the target: prevalence delta and the `importIncidence` field grow. */
  function Receive(s: RegionState, x: real): RegionState
  {
    s.(delta := s.delta[Prevalence := Get(s.delta, Prevalence) + x],
       importIncidence := s.importIncidence + x)
  }

  /**
   * A transfer between two regions keeps the total prevalence delta,
   * adds to the target's import what leaves the source, and changes no
   * compartment; a transfer to oneself leaves the prevalence delta as
   * it was.
   */
  lemma TransferConserves(s: RegionState, t: RegionState, x: real)
    ensures Get(Emit(s, x).delta, Prevalence) + Get(ReceiveVar(t, x).delta, Prevalence)
            == Get(s.delta, Prevalence) + Get(t.delta, Prevalence)
    ensures Get(ReceiveVar(t, x).vars, ImportIncidence) - Get(t.vars, ImportIncidence)
            == Get(s.delta, Prevalence) - Get(Emit(s, x).delta, Prevalence)
    ensures Emit(s, x).compartment == s.compartment && ReceiveVar(t, x).compartment == t.compartment
    ensures Get(ReceiveVar(Emit(s, x), x).delta, Prevalence) == Get(s.delta, Prevalence)
  {
  }

  /** The state a freshly constructed variant instance has. */
  function Fresh(v: Variant): RegionState
  {
    RegionState(v, [], map n | n in Names(v) :: 0.0, DefaultParams(v), map[], map[], map[], [],
                0.0, 0.0, [], EmptySolution, 0.0)
  }

  // ------------------------------------------------------- a worked step

  /**
   * A SIR region of 10000 with 100 infected and nobody recovered, contact
   * rate 0.2, recovery rate 0.1 and no seeded deltas, whose step has
   * already listed its compartments.
   */
  predicate SirExample(s: RegionState)
  {
    && s.variant == Sir && s.keys == Names(Sir)
    && s.compartment == map[Prevalence := 100.0, Susceptible := 9900.0, Recovered := 0.0]
    && Get(s.param, ContactRate) == 0.2 && Get(s.param, RecoverRate) == 0.1
    && Get(s.delta, Prevalence) == 0.0 && Get(s.delta, Susceptible) == 0.0 && Get(s.delta, Recovered) == 0.0
    && s.times == [] && s.startTime == 0.0 && s.solution == EmptySolution
  }

  /** The two events of the example's step: 19.8 infections and 10 recoveries. */
  const SirExampleEvents: seq<Event> :=
    [Event(Susceptible, Prevalence, 19.8), Event(Prevalence, Recovered, 10.0)]

  /** The example's variables: a population of 10000 and a force of infection of 0.002. */
  lemma SirExampleVars(s: RegionState)
    requires SirExample(s)
    ensures VarsDefined(Sir, s.param, s.compartment)
    ensures var vars := CalcVars(Sir, s.vars, s.param, s.compartment);
      vars[Population] == 10000.0 && vars[RateForce] == 0.002
  {
    var ns := Names(Sir);
    assert ns[1..][1..] == [Recovered];
    assert Sum(ns[1..][1..], s.compartment) == 0.0;
    assert Sum(ns[1..], s.compartment) == 9900.0;
    assert Sum(ns, s.compartment) == 10000.0;
    assert TotalPopulation(Sir, s.compartment) == 10000.0;
  }

  /** The example's events follow from its variables. */
  lemma SirExampleEventsOf(s: RegionState, vars: Table)
    requires SirExample(s) && Get(vars, RateForce) == 0.002
    ensures EventsOf(Sir, vars, s.param, s.compartment) == SirExampleEvents
  {
    var es := EventsOf(Sir, vars, s.param, s.compartment);
    assert es[0] == SirExampleEvents[0];
    assert es[1] == SirExampleEvents[1];
  }

  /** The example's flow: -19.8 susceptible, +9.8 prevalence, +10 recovered. */
  lemma SirExampleFlow(s: RegionState, k: Name)
    requires SirExample(s) && k in Names(Sir)
    ensures Get(FlowOf(s.keys, SirExampleEvents, s.flow), k)
            == (if k == Susceptible then -19.8 else if k == Prevalence then 9.8 else 10.0)
  {
    var es := SirExampleEvents;
    assert es[..1] == [es[0]];
    assert Inflow(es[..1], k) == (if k == Prevalence then 19.8 else 0.0);
    assert Outflow(es[..1], k) == (if k == Susceptible then 19.8 else 0.0);
    FlowIsNet(s.keys, es, s.flow, k);
  }

  /** Advancing the example by one day with its events. */
  lemma SirExampleAdvance(s: RegionState, vars: Table, k: Name)
    requires SirExample(s) && k in Names(Sir)
    ensures Get(Advance(s, vars, SirExampleEvents, 1.0).compartment, k)
            == (if k == Susceptible then 9880.2 else if k == Prevalence then 109.8 else 10.0)
  {
    SirExampleFlow(s, k);
    AdvanceListed(s, vars, SirExampleEvents, 1.0, k);
  }

  /** Only the infections flow into prevalence. */
  lemma SirExampleIncidence()
    ensures Incidence(SirExampleEvents, 1.0) == 19.8
  {
    var es := SirExampleEvents;
    assert es[..1] == [es[0]];
    assert Incidence(es[..1], 1.0) == 19.8;
  }

  /** The example's first recorded time, and its incidence for events that infect 19.8 people. */
  lemma SirExampleRecords(s: RegionState, vars: Table, es: seq<Event>)
    requires SirExample(s) && Incidence(es, 1.0) == 19.8
    ensures Advance(s, vars, es, 1.0).solution.incidence == [19.8]
    ensures Advance(s, vars, es, 1.0).times == [1.0]
  {
    var a := Advance(s, vars, es, 1.0);
    assert a.solution == Saved(EmptySolution, a.compartment, es, 1.0);
  }

  /**
   * One day of the example: 19.8 people are infected and 10 recover, so
   * susceptible falls to 9880.2, prevalence rises to 109.8, recovered to
   * 10, and the recorded incidence is 19.8.
   */
  lemma SirExampleStep(s: RegionState)
    requires SirExample(s)
    ensures VarsDefined(Sir, s.param, s.compartment)
    ensures Get(Step(s, 1.0).compartment, Susceptible) == 9880.2
    ensures Get(Step(s, 1.0).compartment, Prevalence) == 109.8
    ensures Get(Step(s, 1.0).compartment, Recovered) == 10.0
    ensures Step(s, 1.0).solution.incidence == [19.8]
    ensures Step(s, 1.0).times == [1.0]
  {
    SirExampleVars(s);
    StepIsAdvance(s, 1.0);
    var vars := Step(s, 1.0).vars;
    SirExampleEventsOf(s, vars);
    SirExampleAdvance(s, vars, Susceptible);
    SirExampleAdvance(s, vars, Prevalence);
    SirExampleAdvance(s, vars, Recovered);
    SirExampleIncidence();
    SirExampleRecords(s, vars, SirExampleEvents);
  }
}
