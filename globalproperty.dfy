/**
 * The chain's bootstrap records (package `modules`): the global property, which
 * holds the chain parameters and the active mediator set, and the dynamic global
 * property, which counts produced units and elapsed slots. Both are seeded once
 * from the genesis descriptor.
 *
 * The chain-parameter record is opaque here: it is the type parameter `P`, and
 * the default record `core.NewChainParams()` is passed in by the caller.
 */
module Modules {
  import opened Common
  import opened Chrono

  type uint16 = x: int | 0 <= x < 0x1_0000
  type uint32 = x: int | 0 <= x < 0x1_0000_0000
  type uint64 = x: int | 0 <= x < 0x1_0000_0000_0000_0000

  /** A candidate or active producer, identified by its account address. */
  datatype Mediator = Mediator(address: Address)

  datatype GlobalProperty<P> = GlobalProperty(
    ChainParameters: P,
    /** the active mediator set, as a map whose values are always `true` */
    ActiveMediators: map<Mediator, bool>)

  datatype DynamicGlobalProperty = DynamicGlobalProperty(
    LastVerifiedUnitNum: uint32,
    /** an instant, see module Chrono */
    LastVerifiedUnitTime: int,
    /** every slot elapsed since genesis, missed ones included */
    CurrentASlot: uint64)

  datatype Genesis<P> = Genesis(
    /** seconds since the Unix epoch */
    InitialTimestamp: int,
    InitialParameters: P,
    InitialActiveMediators: uint16,
    InitialMediatorCandidates: seq<string>)

  /** A fresh global property: default parameters and no active mediator. */
  function NewGlobalProp<P>(defaultParameters: P): (gp: GlobalProperty<P>)
    ensures gp.ChainParameters == defaultParameters
    ensures gp.ActiveMediators == map[]
  {
    GlobalProperty(defaultParameters, map[])
  }

  /** A fresh dynamic global property: no unit, no slot, and the zero time. */
  function NewDynGlobalProp(): (dgp: DynamicGlobalProperty)
    ensures dgp.LastVerifiedUnitNum == 0 && dgp.CurrentASlot == 0
    ensures dgp.LastVerifiedUnitTime == ZeroTime
  {
    DynamicGlobalProperty(0, ZeroTime, 0)
  }

  /** The mediators named by the first `InitialActiveMediators` genesis candidates. */
  ghost function InitialActiveSet<P>(genesis: Genesis<P>, stringToAddress: string -> Address, n: nat): set<Mediator>
    requires n <= |genesis.InitialMediatorCandidates|
  {
    set i | 0 <= i < n :: Mediator(stringToAddress(genesis.InitialMediatorCandidates[i]))
  }

  /** No two of the first `n` candidates map to the same address. */
  ghost predicate DistinctCandidates<P>(genesis: Genesis<P>, stringToAddress: string -> Address, n: nat)
    requires n <= |genesis.InitialMediatorCandidates|
  {
    forall i, j :: 0 <= i < j < n ==>
      stringToAddress(genesis.InitialMediatorCandidates[i]) != stringToAddress(genesis.InitialMediatorCandidates[j])
  }

  /**
   * Seeds the global property from the genesis descriptor: its parameters
   * verbatim, and the first `InitialActiveMediators` candidates as active
   * mediators. `stringToAddress` stands for `common.StringToAddress`.
   * The source indexes the candidate list without a bound check, so a
   * count beyond the list is a caller error.
   */
  method InitGlobalProp<P>(genesis: Genesis<P>, defaultParameters: P, stringToAddress: string -> Address)
    returns (gp: GlobalProperty<P>)
    requires genesis.InitialActiveMediators <= |genesis.InitialMediatorCandidates|
    ensures gp.ChainParameters == genesis.InitialParameters
    ensures gp.ActiveMediators.Keys
         == InitialActiveSet(genesis, stringToAddress, genesis.InitialActiveMediators)
    ensures gp.ActiveMediators.Values <= {true}
    ensures |gp.ActiveMediators| <= genesis.InitialActiveMediators
    ensures DistinctCandidates(genesis, stringToAddress, genesis.InitialActiveMediators)
        ==> |gp.ActiveMediators| == genesis.InitialActiveMediators
    ensures genesis.InitialActiveMediators == 0 ==> gp == GlobalProperty(genesis.InitialParameters, map[])
  {
    gp := NewGlobalProp(defaultParameters);
    gp := gp.(ChainParameters := genesis.InitialParameters);
    ghost var distinct := DistinctCandidates(genesis, stringToAddress, genesis.InitialActiveMediators);
    var i: uint16 := 0;
    while i < genesis.InitialActiveMediators
      invariant i <= genesis.InitialActiveMediators
      invariant gp.ChainParameters == genesis.InitialParameters
      invariant gp.ActiveMediators.Keys == InitialActiveSet(genesis, stringToAddress, i)
      invariant gp.ActiveMediators.Values <= {true}
      invariant |gp.ActiveMediators| <= i
      invariant distinct ==> |gp.ActiveMediators| == i
    {
      var ad := stringToAddress(genesis.InitialMediatorCandidates[i]);
      var md := Mediator(ad);
      InitialActiveSetStep(genesis, stringToAddress, i, distinct);
      InsertCardinality(gp.ActiveMediators, md);
      gp := gp.(ActiveMediators := gp.ActiveMediators[md := true]);
      i := i + 1;
    }
  }

  /** Marking a mediator active adds it to the key set, and grows the map by one exactly when it is new. */
  lemma InsertCardinality(m: map<Mediator, bool>, md: Mediator)
    ensures m[md := true].Keys == m.Keys + {md}
    ensures |m[md := true]| == if md in m then |m| else |m| + 1
  {
  }

  /** One loop step of InitGlobalProp adds exactly candidate `i`, which is new when the candidates are distinct. */
  lemma InitialActiveSetStep<P>(genesis: Genesis<P>, stringToAddress: string -> Address, i: nat, distinct: bool)
    requires i < genesis.InitialActiveMediators <= |genesis.InitialMediatorCandidates|
    requires distinct ==> DistinctCandidates(genesis, stringToAddress, genesis.InitialActiveMediators)
    ensures InitialActiveSet(genesis, stringToAddress, i + 1)
         == InitialActiveSet(genesis, stringToAddress, i) + {Mediator(stringToAddress(genesis.InitialMediatorCandidates[i]))}
    ensures distinct ==> Mediator(stringToAddress(genesis.InitialMediatorCandidates[i]))
                         !in InitialActiveSet(genesis, stringToAddress, i)
  {
  }

  /**
   * Seeds the dynamic global property: the last unit time is the genesis
   * timestamp, and the unit number and absolute slot stay at zero.
   */
  function InitDynGlobalProp<P>(genesis: Genesis<P>): (dgp: DynamicGlobalProperty)
    ensures dgp == NewDynGlobalProp().(LastVerifiedUnitTime := dgp.LastVerifiedUnitTime)
    ensures dgp.LastVerifiedUnitTime % Second == 0
    ensures UnixSeconds(dgp.LastVerifiedUnitTime) == genesis.InitialTimestamp
  {
    NewDynGlobalProp().(LastVerifiedUnitTime := Unix(genesis.InitialTimestamp))
  }
}
