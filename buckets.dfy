/**
 * Named real-valued buckets: the JavaScript dictionaries `compartment`,
 * `param`, `var`, `delta` and `flow` are all tables from names to numbers.
 */
module Buckets {

  /**
   * The dictionary keys the engine uses, one constructor per key spelled
   * in the source (`Key` gives the spelling); any other key is `Other`.
   */
  datatype Name =
    // compartments
    | Prevalence | Susceptible | Exposed | Recovered
    | InfectedEarly | Hospitalised | Dead | Buried
    // per-step variables
    | Population | RateForce | RateForce1 | RateForce2 | ImportIncidence
    // parameters
    | InitPopulation | InitPrevalence | RecoverRate | ReproductionNumber | ContactRate
    | Period | Incubation | CaseFatality | ImmunityPeriod | DisDeath | IncubationRate
    | ImmunityLossRate | FoiZero | Foi | FoiTwo | Reproduction | FoiThree | Latency
    | PreDetection | PostDetection | AscerProb | HospitalCapacity | CaseFatalityHosp
    | PreBurialPeriod | RecoverRate1 | RecoverRate2 | DeathRate1 | DeathRate2
    | BurialRate | InterventionDay | ProbSickCanTravel
    | Other(text: string)

  /** The dictionary key each name stands for in the source. */
  function Key(n: Name): string
  {
    match n
    case Prevalence => "prevalence"
    case Susceptible => "susceptible"
    case Exposed => "exposed"
    case Recovered => "recovered"
    case InfectedEarly => "infectedEarly"
    case Hospitalised => "hospitalised"
    case Dead => "dead"
    case Buried => "buried"
    case Population => "population"
    case RateForce => "rateForce"
    case RateForce1 => "rateForce1"
    case RateForce2 => "rateForce2"
    case ImportIncidence => "importIncidence"
    case InitPopulation => "initPopulation"
    case InitPrevalence => "initPrevalence"
    case RecoverRate => "recoverRate"
    case ReproductionNumber => "reproductionNumber"
    case ContactRate => "contactRate"
    case Period => "period"
    case Incubation => "incubation"
    case CaseFatality => "caseFatality"
    case ImmunityPeriod => "immunityPeriod"
    case DisDeath => "disDeath"
    case IncubationRate => "incubationRate"
    case ImmunityLossRate => "immunityLossRate"
    case FoiZero => "foiZero"
    case Foi => "foi"
    case FoiTwo => "foiTwo"
    case Reproduction => "reproduction"
    case FoiThree => "foiThree"
    case Latency => "latency"
    case PreDetection => "preDetection"
    case PostDetection => "postDetection"
    case AscerProb => "ascerProb"
    case HospitalCapacity => "hospitalCapacity"
    case CaseFatalityHosp => "caseFatalityHosp"
    case PreBurialPeriod => "preBurialPeriod"
    case RecoverRate1 => "recoverRate1"
    case RecoverRate2 => "recoverRate2"
    case DeathRate1 => "deathRate1"
    case DeathRate2 => "deathRate2"
    case BurialRate => "burialRate"
    case InterventionDay => "interventionDay"
    case ProbSickCanTravel => "probSickCanTravel"
    case Other(s) => s
  }

  type Table = map<Name, real>

  /** Reads entry `k`; a missing entry reads as 0. */
  function Get(m: Table, k: Name): real
  {
    if k in m then m[k] else 0.0
  }

  /** No name occurs twice. */
  predicate NoDup<T(==)>(s: seq<T>)
  {
    forall i, j :: 0 <= i < j < |s| ==> s[i] != s[j]
  }

  /** In a list without repeats, the last element is not among the others. */
  lemma LastNotInInit<T>(idx: seq<T>)
    requires NoDup(idx) && idx != []
    ensures idx[|idx| - 1] in idx && idx[|idx| - 1] !in idx[..|idx| - 1]
    ensures NoDup(idx[..|idx| - 1]) && forall j :: j in idx[..|idx| - 1] ==> j in idx
  {
    var init := idx[..|idx| - 1];
    forall n | 0 <= n < |init|
      ensures init[n] != idx[|idx| - 1]
    {
      assert idx[n] != idx[|idx| - 1];
    }
  }

  /** An element of a list that is not its last is among the others. */
  lemma InInit<T>(s: seq<T>, x: T)
    requires x in s && x != s[|s| - 1]
    ensures x in s[..|s| - 1]
  {
    var n :| 0 <= n < |s| && s[n] == x;
    assert s[..|s| - 1][n] == x;
  }

  /** The sum of the entries named by `ks` (each occurrence counted once). */
  function Sum(ks: seq<Name>, m: Table): real
  {
    if ks == [] then 0.0 else Get(m, ks[0]) + Sum(ks[1..], m)
  }

  /**
   * `for (let key of ks) m[key] = v`: each listed entry becomes `v`,
   * every other entry is kept.
   */
  function SetAll(m: Table, ks: seq<Name>, v: real): (r: Table)
    ensures r.Keys == m.Keys + set k | k in ks
    ensures forall k :: k in ks ==> r[k] == v
    ensures forall k :: k in m && k !in ks ==> r[k] == m[k]
  {
    if ks == [] then m else SetAll(m, ks[..|ks| - 1], v)[ks[|ks| - 1] := v]
  }

  /** Changing an entry that is not summed leaves the sum alone. */
  lemma {:induction false} SumOutside(ks: seq<Name>, m: Table, k: Name, v: real)
    requires k !in ks
    ensures Sum(ks, m[k := v]) == Sum(ks, m)
  {
    if ks != [] {
      SumOutside(ks[1..], m, k, v);
    }
  }

  /** Changing a summed entry (named once) changes the sum by the difference. */
  lemma {:induction false} SumUpdate(ks: seq<Name>, m: Table, k: Name, v: real)
    requires NoDup(ks) && k in ks
    ensures Sum(ks, m[k := v]) == Sum(ks, m) - Get(m, k) + v
  {
    if ks[0] == k {
      SumOutside(ks[1..], m, k, v);
    } else {
      SumUpdate(ks[1..], m, k, v);
    }
  }

  /** Summing entries that all read as `v`. */
  lemma {:induction false} SumConstant(ks: seq<Name>, m: Table, v: real)
    requires forall k :: k in ks ==> Get(m, k) == v
    ensures Sum(ks, m) == (|ks| as real) * v
  {
    if ks != [] {
      SumConstant(ks[1..], m, v);
    }
  }

  /** Two tables agreeing on the summed names have the same sum. */
  lemma {:induction false} SumAgree(ks: seq<Name>, m: Table, m': Table)
    requires forall k :: k in ks ==> Get(m, k) == Get(m', k)
    ensures Sum(ks, m) == Sum(ks, m')
  {
    if ks != [] {
      SumAgree(ks[1..], m, m');
    }
  }
}
