/**
 * The five disease topologies of the single-region engine (`SisModel`,
 * `SirModel`, `SEIRModel`, `SEIRSModel`, `EbolaModel`), written as one
 * descriptor that the engine is parameterised by: compartment names,
 * event declarations, default parameters, GUI parameter descriptors,
 * the derived-parameter calculation and the per-step variables.
 */
module Variants {
  import opened Buckets

  datatype Variant = Sis | Sir | Seir | Seirs | Ebola

  /** One declared edge of the compartment multigraph: `[from, to, rateKey]`. */
  datatype EventDecl = EventDecl(from: Name, to: Name, rate: Name)

  /** One GUI parameter descriptor (`key`, `value`, `step`, `label`; the label is `caption` here). */
  datatype GuiParam = GuiParam(key: Name, value: real, step: real, caption: string)

  /** `modelType` of each variant. */
  function ModelType(v: Variant): string
  {
    match v
    case Sis => "SIS"
    case Sir => "SIR"
    case Seir => "SEIR"
    case Seirs => "SEIRS"
    case Ebola => "Ebola"
  }

  /** The keys of `this.compartment`, in declaration order. */
  function Names(v: Variant): (r: seq<Name>)
    ensures NoDup(r)
    ensures Prevalence in r && Susceptible in r
  {
    match v
    case Sis => [Prevalence, Susceptible]
    case Sir => [Prevalence, Susceptible, Recovered]
    case Seir => [Prevalence, Susceptible, Exposed, Recovered]
    case Seirs => [Prevalence, Susceptible, Exposed, Recovered]
    case Ebola =>
      [Prevalence, Susceptible, Exposed, Recovered,
       InfectedEarly, Hospitalised, Dead, Buried]
  }

  /** `this.varEvents`: edges whose rate is a per-step variable. */
  function VarEvents(v: Variant): seq<EventDecl>
  {
    match v
    case Sis => [EventDecl(Susceptible, Prevalence, RateForce)]
    case Sir => [EventDecl(Susceptible, Prevalence, RateForce)]
    case Seir => [EventDecl(Susceptible, Exposed, RateForce)]
    case Seirs => [EventDecl(Susceptible, Exposed, RateForce)]
    case Ebola =>
      [EventDecl(Susceptible, Exposed, RateForce),
       EventDecl(InfectedEarly, Prevalence, RateForce1),
       EventDecl(InfectedEarly, Hospitalised, RateForce2)]
  }

  /** `this.paramEvents`: edges whose rate is a constant parameter. */
  function ParamEvents(v: Variant): seq<EventDecl>
  {
    match v
    case Sis => [EventDecl(Prevalence, Susceptible, RecoverRate)]
    case Sir => [EventDecl(Prevalence, Recovered, RecoverRate)]
    case Seir =>
      [EventDecl(Exposed, Prevalence, IncubationRate),
       EventDecl(Prevalence, Prevalence, DisDeath),
       EventDecl(Prevalence, Recovered, RecoverRate)]
    case Seirs =>
      [EventDecl(Exposed, Prevalence, IncubationRate),
       EventDecl(Prevalence, Prevalence, DisDeath),
       EventDecl(Prevalence, Recovered, RecoverRate),
       EventDecl(Recovered, Susceptible, ImmunityLossRate)]
    case Ebola =>
      [EventDecl(Exposed, InfectedEarly, IncubationRate),
       EventDecl(Prevalence, Recovered, RecoverRate1),
       EventDecl(Hospitalised, Recovered, RecoverRate2),
       EventDecl(Prevalence, Dead, DeathRate1),
       EventDecl(Hospitalised, Dead, DeathRate2),
       EventDecl(Dead, Buried, BurialRate)]
  }

  /** `this.defaultParams`. */
  function DefaultParams(v: Variant): Table
  {
    match v
    case Sis =>
      map[InitPopulation := 50000.0, InitPrevalence := 3000.0,
          RecoverRate := 0.1, ReproductionNumber := 1.5]
    case Sir =>
      map[InitPopulation := 50000.0, InitPrevalence := 3000.0,
          RecoverRate := 0.1, ReproductionNumber := 1.5]
    case Seir =>
      map[InitPopulation := 50000.0, Period := 0.1, Incubation := 0.01,
          CaseFatality := 0.2, InitPrevalence := 5000.0, ReproductionNumber := 4.0]
    case Seirs =>
      map[InitPopulation := 50000.0, Period := 0.1, Incubation := 0.01,
          CaseFatality := 0.2, InitPrevalence := 3000.0, ReproductionNumber := 50.0,
          ImmunityPeriod := 50.0]
    case Ebola =>
      map[InitPopulation := 50000.0, InitPrevalence := 5000.0, FoiZero := 0.1,
          Foi := 0.2, FoiTwo := 0.02, Reproduction := 10.0, FoiThree := 0.2,
          Latency := 0.1, PreDetection := 0.25, PostDetection := 0.16,
          AscerProb := 0.05, HospitalCapacity := 10000.0, CaseFatalityHosp := 0.35,
          CaseFatality := 0.7, PreBurialPeriod := 3.0]
  }

  /** `this.guiParams`. */
  function GuiParams(v: Variant): seq<GuiParam>
  {
    match v
    case Sis =>
      [GuiParam(ReproductionNumber, 1.5, 0.01, "R0"),
       GuiParam(RecoverRate, 0.1, 0.01, "Recovery Rate"),
       GuiParam(InitPrevalence, 3000.0, 1.0, "Prevalence")]
    case Sir =>
      [GuiParam(ReproductionNumber, 1.5, 0.01, "R0"),
       GuiParam(RecoverRate, 0.1, 0.01, "Recovery Rate"),
       GuiParam(InitPrevalence, 3000.0, 1.0, "Prevalence")]
    case Seir =>
      [GuiParam(ReproductionNumber, 1.5, 0.01, "R0"),
       GuiParam(Period, 0.1, 0.01, "Recovery Rate"),
       GuiParam(Other("CaseFatality"), 0.2, 0.01, "Case-Fatality Rate"),
       GuiParam(InitPrevalence, 3000.0, 1.0, "Prevalence")]
    case Seirs =>
      [GuiParam(ReproductionNumber, 1.5, 0.01, "R0"),
       GuiParam(Period, 0.1, 0.01, "Recovery Rate"),
       GuiParam(Other("CaseFatality"), 0.2, 0.01, "Case-Fatality Rate"),
       GuiParam(ImmunityPeriod, 50.0, 1.0, "Immunity Period "),
       GuiParam(InitPrevalence, 3000.0, 1.0, "Prevalence")]
    case Ebola =>
      [GuiParam(Reproduction, 1.6, 0.01, "R0"),
       GuiParam(AscerProb, 0.2, 0.01, "Case-Ascertain. "),
       GuiParam(HospitalCapacity, 10000.0, 1.0, "Hospital Capacity"),
       GuiParam(Other("CaseFatalityHosp"), 0.35, 0.01, " Case-Fat.Hosp."),
       GuiParam(PreBurialPeriod, 3.0, 1.0, "Burial Period"),
       GuiParam(InitPrevalence, 5000.0, 1.0, "Prevalence")]
  }

  /** `this.interventionParams`: only the SIR variant declares any. */
  function InterventionParams(v: Variant): seq<GuiParam>
  {
    if v == Sir then
      [GuiParam(InterventionDay, 5.0, 1.0, "Start Day"),
       GuiParam(ReproductionNumber, 1.2, 0.01, "R0")]
    else []
  }


  /** Every declared edge joins two declared compartments. */
  predicate WithinNames(ds: seq<EventDecl>, names: seq<Name>)
  {
    forall i :: 0 <= i < |ds| ==> ds[i].from in names && ds[i].to in names
  }

  /** Every variant's declared events join two of its own compartments. */
  lemma EventsWithinNames(v: Variant)
    ensures WithinNames(VarEvents(v), Names(v)) && WithinNames(ParamEvents(v), Names(v))
  {
    match v
    case Sis =>
    case Sir =>
    case Seir =>
    case Seirs =>
    case Ebola =>
  }

  /** The parameters `calcExtraParams` writes. */
  function DerivedKeys(v: Variant): set<Name>
  {
    match v
    case Sis => {ContactRate}
    case Sir => {ContactRate}
    case Seir => SeirDerived
    case Seirs => SeirDerived + {ImmunityLossRate}
    case Ebola =>
      {IncubationRate, RecoverRate1, RecoverRate2, DeathRate1, DeathRate2, BurialRate, Foi}
  }

  const SeirDerived: set<Name> := {RecoverRate, DisDeath, IncubationRate, ContactRate}

  /** The divisors of `calcExtraParams` are nonzero. */
  predicate ExtraDefined(v: Variant, p: Table)
  {
    match v
    case Seirs => Get(p, ImmunityPeriod) != 0.0
    case Ebola => Get(p, PostDetection) != 0.0 && Get(p, PreBurialPeriod) != 0.0
    case _ => true
  }

  /** `x * (1 / x) == 1` for nonzero `x`. */
  lemma Reciprocal(x: real)
    requires x != 0.0
    ensures (1.0 / x) * x == 1.0
  {
  }

  /**
   * `calcExtraParams` of SIS and SIR: the contact rate is the
   * reproduction number times the recovery rate.
   */
  function ContactExtra(p: Table): (r: Table)
    ensures r.Keys == p.Keys + {ContactRate}
    ensures forall k :: k in p && k != ContactRate ==> r[k] == p[k]
    ensures r[ContactRate] == Get(r, ReproductionNumber) * Get(r, RecoverRate)
  {
    p[ContactRate := Get(p, ReproductionNumber) * Get(p, RecoverRate)]
  }

  /**
   * `calcExtraParams` of SEIR: recovery and disease death split the
   * period by the case fatality (the death rate is stored negated), the
   * incubation rate is the incubation parameter and the contact rate is
   * the reproduction number times the period.
   */
  function SeirExtra(p: Table): (r: Table)
    ensures r.Keys == p.Keys + SeirDerived
    ensures forall k :: k in p && k !in SeirDerived ==> r[k] == p[k]
    ensures r[RecoverRate] - r[DisDeath] == Get(r, Period)
    ensures r[DisDeath] == -(Get(r, CaseFatality) * Get(r, Period))
    ensures r[IncubationRate] == Get(r, Incubation)
    ensures r[ContactRate] == Get(r, ReproductionNumber) * Get(r, Period)
  {
    var cf, period := Get(p, CaseFatality), Get(p, Period);
    p[RecoverRate := (1.0 - cf) * period]
     [DisDeath := (-1.0) * cf * period]
     [IncubationRate := Get(p, Incubation)]
     [ContactRate := Get(p, ReproductionNumber) * period]
  }

  /**
   * `calcExtraParams` of SEIRS: the SEIR rates (assigned in another order
   * in the source, to the same values) plus an immunity-loss rate that is
   * the reciprocal of the immunity period.
   */
  function SeirsExtra(p: Table): (r: Table)
    requires Get(p, ImmunityPeriod) != 0.0
    ensures r.Keys == p.Keys + SeirDerived + {ImmunityLossRate}
    ensures forall k :: k in p && k !in SeirDerived && k != ImmunityLossRate ==> r[k] == p[k]
    ensures forall k :: k in SeirDerived ==> r[k] == SeirExtra(p)[k]
    ensures r[ImmunityLossRate] * Get(r, ImmunityPeriod) == 1.0
  {
    Reciprocal(Get(p, ImmunityPeriod));
    SeirExtra(p)[ImmunityLossRate := 1.0 / Get(p, ImmunityPeriod)]
  }

  /** The Ebola variant's effective force of infection of the ascertained. */
  function EbolaFoi(p: Table): real
    requires Get(p, PostDetection) != 0.0
  {
    var cf, cfh, asc := Get(p, CaseFatality), Get(p, CaseFatalityHosp), Get(p, AscerProb);
    Get(p, PreDetection) *
      (Get(p, Reproduction)
       - (Get(p, FoiZero) * (1.0 - asc) + Get(p, FoiTwo) * asc) / Get(p, PostDetection)
       - (Get(p, FoiThree) * (cfh * (1.0 - asc) + cf * asc) * Get(p, PreBurialPeriod)))
  }

  /**
   * The outcome rates of the Ebola variant: recovery and death split the
   * post-detection rate by the case fatality (outside and inside
   * hospital), and burial is the reciprocal of the pre-burial period.
   */
  function EbolaRates(p: Table): (r: Table)
    requires Get(p, PreBurialPeriod) != 0.0
    ensures r.Keys == p.Keys + (DerivedKeys(Ebola) - {Foi})
    ensures forall k :: k in p && k !in DerivedKeys(Ebola) - {Foi} ==> r[k] == p[k]
    ensures r[IncubationRate] == Get(r, Latency)
    ensures r[RecoverRate1] + r[DeathRate1] == Get(r, PostDetection)
    ensures r[RecoverRate2] + r[DeathRate2] == Get(r, PostDetection)
    ensures r[DeathRate1] == Get(r, CaseFatality) * Get(r, PostDetection)
    ensures r[DeathRate2] == Get(r, CaseFatalityHosp) * Get(r, PostDetection)
    ensures r[BurialRate] * Get(r, PreBurialPeriod) == 1.0
  {
    var cf, cfh, post := Get(p, CaseFatality), Get(p, CaseFatalityHosp), Get(p, PostDetection);
    Reciprocal(Get(p, PreBurialPeriod));
    p[IncubationRate := Get(p, Latency)]
     [RecoverRate1 := (1.0 - cf) * post]
     [RecoverRate2 := (1.0 - cfh) * post]
     [DeathRate1 := cf * post]
     [DeathRate2 := cfh * post]
     [BurialRate := 1.0 / Get(p, PreBurialPeriod)]
  }

  /**
   * `calcExtraParams` of the Ebola variant: the outcome rates, and `foi`
   * re-derived from the reproduction number (it reads none of the rates,
   * so computing it last gives the source's values).
   */
  function EbolaExtra(p: Table): (r: Table)
    requires Get(p, PostDetection) != 0.0 && Get(p, PreBurialPeriod) != 0.0
    ensures r.Keys == p.Keys + DerivedKeys(Ebola)
    ensures forall k :: k in p && k !in DerivedKeys(Ebola) ==> r[k] == p[k]
    ensures forall k :: k in DerivedKeys(Ebola) - {Foi} ==> r[k] == EbolaRates(p)[k]
    ensures r[Foi] == EbolaFoi(p)
  {
    EbolaRates(p)[Foi := EbolaFoi(p)]
  }

  /**
   * `calcExtraParams`, dispatched on the variant: only the derived keys
   * change.
   */
  function ExtraParams(v: Variant, p: Table): (r: Table)
    requires ExtraDefined(v, p)
    ensures r.Keys == p.Keys + DerivedKeys(v)
    ensures forall k :: k in p && k !in DerivedKeys(v) ==> r[k] == p[k]
  {
    match v
    case Sis => ContactExtra(p)
    case Sir => ContactExtra(p)
    case Seir => SeirExtra(p)
    case Seirs => SeirsExtra(p)
    case Ebola => EbolaExtra(p)
  }

  /** `calcExtraParams` never rewrites the initial population or prevalence. */
  lemma ExtraKeepsInit(v: Variant, p: Table)
    requires ExtraDefined(v, p)
    ensures Get(ExtraParams(v, p), InitPopulation) == Get(p, InitPopulation)
    ensures Get(ExtraParams(v, p), InitPrevalence) == Get(p, InitPrevalence)
  {
    assert InitPopulation !in DerivedKeys(v) && InitPrevalence !in DerivedKeys(v) by {
      match v {
        case Sis =>
        case Sir =>
        case Seir =>
        case Seirs =>
        case Ebola =>
      }
    }
  }

  /** The parameters the events and `calcVars` read are all present. */
  predicate ParamsReady(v: Variant, p: Table)
  {
    DefaultParams(v).Keys + DerivedKeys(v) <= p.Keys
  }

  /** The variables `calcVars` writes. */
  function VarKeys(v: Variant): set<Name>
  {
    if v == Ebola then {Population, RateForce, RateForce1, RateForce2}
    else {Population, RateForce}
  }

  /** `_.sum(_.values(this.compartment))`, the compartments being exactly `Names(v)`. */
  function TotalPopulation(v: Variant, c: Table): real
  {
    Sum(Names(v), c)
  }

  /** The divisors of `calcVars` are nonzero. */
  predicate VarsDefined(v: Variant, p: Table, c: Table)
  {
    TotalPopulation(v, c) != 0.0 && (v == Ebola ==> Get(p, HospitalCapacity) != 0.0)
  }

  /** `a / n * b`, as the source writes the mass-action force: times `n` it is `a * b`. */
  function PerCapita(a: real, n: real, b: real): (r: real)
    requires n != 0.0
    ensures r * n == a * b
  {
    a / n * b
  }

  /** The force of infection: contact rate times the infectious share of the population. */
  function MassActionForce(p: Table, c: Table, pop: real): (r: real)
    requires pop != 0.0
    ensures r * pop == Get(p, ContactRate) * Get(c, Prevalence)
  {
    PerCapita(Get(p, ContactRate), pop, Get(c, Prevalence))
  }

  /** The Ebola force of infection: infectiousness-weighted sum over four compartments. */
  function EbolaForce(p: Table, c: Table, pop: real): (r: real)
    requires pop != 0.0
    ensures r * pop ==
      Get(p, Foi) * Get(c, Prevalence) + Get(p, FoiZero) * Get(c, InfectedEarly)
      + Get(p, FoiTwo) * Get(c, Hospitalised) + Get(p, FoiThree) * Get(c, Dead)
  {
    PerCapita(Get(p, Foi) * Get(c, Prevalence) + Get(p, FoiZero) * Get(c, InfectedEarly)
              + Get(p, FoiTwo) * Get(c, Hospitalised) + Get(p, FoiThree) * Get(c, Dead), pop, 1.0)
  }

  /**
   * The Ebola detection split: the share of early infecteds that is
   * ascertained, scaled by the free hospital capacity, goes to hospital;
   * the two rates add up to the pre-detection rate.
   */
  function HospitalShare(p: Table, c: Table): (r: real)
    requires Get(p, HospitalCapacity) != 0.0
  {
    Get(p, AscerProb) * (1.0 - Get(c, Hospitalised) / Get(p, HospitalCapacity))
  }

  /** `calcVars` of SIS, SIR, SEIR and SEIRS. */
  function MassActionVars(vars: Table, p: Table, pop: real, c: Table): (r: Table)
    requires pop != 0.0
    ensures r.Keys == vars.Keys + {Population, RateForce}
    ensures forall k :: k in vars && k != Population && k != RateForce ==> r[k] == vars[k]
    ensures r[Population] == pop
    ensures r[RateForce] * pop == Get(p, ContactRate) * Get(c, Prevalence)
  {
    vars[Population := pop][RateForce := MassActionForce(p, c, pop)]
  }

  /** `calcVars` of the Ebola variant. */
  function EbolaVars(vars: Table, p: Table, pop: real, c: Table): (r: Table)
    requires pop != 0.0 && Get(p, HospitalCapacity) != 0.0
    ensures r.Keys == vars.Keys + VarKeys(Ebola)
    ensures forall k :: k in vars && k !in VarKeys(Ebola) ==> r[k] == vars[k]
    ensures r[Population] == pop
    ensures r[RateForce] * pop ==
      Get(p, Foi) * Get(c, Prevalence) + Get(p, FoiZero) * Get(c, InfectedEarly)
      + Get(p, FoiTwo) * Get(c, Hospitalised) + Get(p, FoiThree) * Get(c, Dead)
    ensures r[RateForce1] + r[RateForce2] == Get(p, PreDetection)
    ensures r[RateForce2] == HospitalShare(p, c) * Get(p, PreDetection)
  {
    var share, pre := HospitalShare(p, c), Get(p, PreDetection);
    vars[Population := pop]
        [RateForce := EbolaForce(p, c, pop)]
        [RateForce1 := (1.0 - share) * pre]
        [RateForce2 := share * pre]
  }

  /**
   * `calcVars`: the total population and the forces of infection,
   * recomputed from the current compartments; every other variable
   * (such as `importIncidence`) is kept.
   */
  function CalcVars(v: Variant, vars: Table, p: Table, c: Table): (r: Table)
    requires VarsDefined(v, p, c)
    ensures r.Keys == vars.Keys + VarKeys(v)
    ensures forall k :: k in vars && k !in VarKeys(v) ==> r[k] == vars[k]
    ensures r[Population] == TotalPopulation(v, c)
  {
    if v != Ebola then MassActionVars(vars, p, TotalPopulation(v, c), c)
    else EbolaVars(vars, p, TotalPopulation(v, c), c)
  }
}
