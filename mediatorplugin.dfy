/**
 * The verified-unit production scheduler of a mediator node (package
 * `mediatorplugin`): the wake-up alignment of the production loop, the
 * production attempt with its six outcomes, and the new-chain banner.
 *
 * The slot clock (`modules.GetSlotTime`, `modules.GetSlotAtTime`), the
 * mediator schedule (`GetScheduledMediator`) and the keystore's `Unlock` are
 * not part of this model; an attempt receives them as a SlotClock and an
 * `unlocks` oracle, already applied to the current chain snapshot. The wall
 * clock is a parameter too.
 */
module MediatorPlugin {
  import opened Common
  import opened Chrono
  import opened Modules

  datatype ProductionCondition = Produced | NotSynced | NotMyTurn | NotTimeYet | NoPrivateKey | Lag

  /** The `uint8` value of each condition, in declaration order. */
  function Ordinal(c: ProductionCondition): (n: nat)
    ensures n < 6
  {
    match c
    case Produced => 0
    case NotSynced => 1
    case NotMyTurn => 2
    case NotTimeYet => 3
    case NoPrivateKey => 4
    case Lag => 5
  }

  /** The condition with a given `uint8` value; values past `Lag` name none. */
  function ConditionOf(n: nat): (c: Option<ProductionCondition>)
    ensures c.Some? <==> n < 6
    ensures c.Some? ==> Ordinal(c.value) == n
  {
    if n == 0 then Some(Produced)
    else if n == 1 then Some(NotSynced)
    else if n == 2 then Some(NotMyTurn)
    else if n == 3 then Some(NotTimeYet)
    else if n == 4 then Some(NoPrivateKey)
    else if n == 5 then Some(Lag)
    else None
  }

  /** Distinct conditions have distinct values, and each value converts back. */
  lemma OrdinalRoundTrip(c: ProductionCondition)
    ensures ConditionOf(Ordinal(c)) == Some(c)
  {
  }

  // ---------------------------------------------------------------------------
  // Wake-up alignment of ScheduleProductionLoop

  const WakeupMargin: int := 50 * Millisecond

  /**
   * The time from an instant whose offset within its second is `nanos` to the
   * next second boundary that is at least 50 ms away.
   */
  function TimeToNextSecond(nanos: int): (d: int)
    requires 0 <= nanos < Second
    ensures WakeupMargin <= d < Second + WakeupMargin
    ensures (nanos + d) % Second == 0
  {
    var d := Second - nanos;
    if d < WakeupMargin then d + Second else d
  }

  /** TimeToNextSecond is the only delay with these two properties. */
  lemma TimeToNextSecondUnique(nanos: int, d: int)
    requires 0 <= nanos < Second
    requires WakeupMargin <= d < Second + WakeupMargin
    requires (nanos + d) % Second == 0
    ensures d == TimeToNextSecond(nanos)
  {
  }

  /** The instant ScheduleProductionLoop schedules the next production round for, seen at `now`. */
  function NextWakeup(now: int): (w: int)
    ensures w % Second == 0
    ensures now + WakeupMargin <= w < now + Second + WakeupMargin
  {
    now + TimeToNextSecond(Nanos(now))
  }

  // ---------------------------------------------------------------------------
  // Production attempt

  const LagTolerance: int := 500 * Millisecond

  /** The attempt's `now`: the wall-clock instant rounded to a whole second, halves up. */
  function RoundToSecond(t: int): (r: int)
    ensures r % Second == 0
    ensures t - 500 * Millisecond < r <= t + 500 * Millisecond
  {
    Unix(UnixSeconds(t + 500 * Millisecond))
  }

  /** RoundToSecond picks the only whole second in its half-open window. */
  lemma RoundToSecondUnique(t: int, r: int)
    requires r % Second == 0
    requires t - 500 * Millisecond < r <= t + 500 * Millisecond
    ensures r == RoundToSecond(t)
  {
  }

  /**
   * The collaborators an attempt consults, applied to the current global and
   * dynamic global property: `slotTime(n)` is `GetSlotTime(gp, dgp, n)`,
   * `slotAtTime(t)` is `GetSlotAtTime(gp, dgp, t)`, and `scheduledMediator(n)`
   * is `GetScheduledMediator(dgp, n)`.
   */
  datatype SlotClock = SlotClock(
    slotTime: nat -> int,
    slotAtTime: int -> nat,
    scheduledMediator: nat -> Mediator)

  /** A value of the attempt's detail map, before it is formatted as text. */
  datatype Field = Instant(t: int) | Addr(a: Address)

  type Detail = map<string, Field>

  /** What one attempt returns, and the production flag it leaves behind. */
  datatype Attempt = Attempt(result: ProductionCondition, detail: Detail, productionEnabled: bool)

  /** The detail keys each condition reports. */
  function DetailKeys(c: ProductionCondition): set<string>
  {
    match c
    case Produced => {}
    case NotSynced => {}
    case NotTimeYet => {"NextTime", "Now"}
    case NotMyTurn => {"ScheduledMediator"}
    case Lag => {"ScheduledTime", "Now"}
    case NoPrivateKey => {"ScheduledKey"}
  }

  /** The difference between the scheduled slot time and `now` exceeds half a second. */
  predicate Lags(scheduledTime: int, now: int): (b: bool)
    ensures !b <==> now - 500 * Millisecond <= scheduledTime <= now + 500 * Millisecond
  {
    var diff := scheduledTime - now;
    diff > LagTolerance || diff < -LagTolerance
  }

  /**
   * One production attempt, as the source writes it: the sync gate, the due-slot
   * check, the turn check, the lag check and the key check, in that order.
   * `mediators` maps the addresses this node controls to their passphrases;
   * `unlocks(a, p)` says that the keystore's `Unlock` of account `a` with
   * passphrase `p` returns no error.
   */
  function Decide(productionEnabled: bool, mediators: map<Address, string>, nowFine: int,
                  clock: SlotClock, unlocks: (Address, string) -> bool): (a: Attempt)
    ensures a.detail.Keys == DetailKeys(a.result)
    ensures productionEnabled ==> a.productionEnabled
    ensures !a.productionEnabled <==> a.result == NotSynced
  {
    var now := RoundToSecond(nowFine);
    var nextSlotTime := clock.slotTime(1);
    if !productionEnabled && nextSlotTime < now then
      Attempt(NotSynced, map[], false)
    else
      var slot := clock.slotAtTime(now);
      if slot == 0 then
        Attempt(NotTimeYet, map["NextTime" := Instant(nextSlotTime), "Now" := Instant(now)], true)
      else
        var ma := clock.scheduledMediator(slot).address;
        var ps := if ma in mediators then mediators[ma] else "";
        if ma in mediators then
          Attempt(NotMyTurn, map["ScheduledMediator" := Addr(ma)], true)
        else
          var scheduledTime := clock.slotTime(slot);
          if Lags(scheduledTime, now) then
            Attempt(Lag, map["ScheduledTime" := Instant(scheduledTime), "Now" := Instant(now)], true)
          else if unlocks(ma, ps) then
            Attempt(NoPrivateKey, map["ScheduledKey" := Addr(ma)], true)
          else
            Attempt(Produced, map[], true)
  }

  /** The node holds production back while its chain is stale, and only then. */
  lemma SyncGate(productionEnabled: bool, mediators: map<Address, string>, nowFine: int,
                 clock: SlotClock, unlocks: (Address, string) -> bool)
    ensures var a := Decide(productionEnabled, mediators, nowFine, clock, unlocks);
            (a.result == NotSynced <==> !productionEnabled && clock.slotTime(1) < RoundToSecond(nowFine))
            && (a.result == NotSynced ==> a.detail == map[] && !a.productionEnabled)
            && (a.result != NotSynced ==> a.productionEnabled)
  {
  }

  /** The attempt is in sync when the flag was set or the next slot is not in the past. */
  predicate Synced(productionEnabled: bool, nowFine: int, clock: SlotClock)
  {
    productionEnabled || clock.slotTime(1) >= RoundToSecond(nowFine)
  }

  /** In sync, no slot due yet: NotTimeYet, reporting the next slot time and `now`. */
  lemma NotTimeYetCase(productionEnabled: bool, mediators: map<Address, string>, nowFine: int,
                       clock: SlotClock, unlocks: (Address, string) -> bool)
    ensures var a := Decide(productionEnabled, mediators, nowFine, clock, unlocks);
            var now := RoundToSecond(nowFine);
            (a.result == NotTimeYet <==> Synced(productionEnabled, nowFine, clock) && clock.slotAtTime(now) == 0)
            && (a.result == NotTimeYet ==>
                  a.detail == map["NextTime" := Instant(clock.slotTime(1)), "Now" := Instant(now)])
  {
  }

  /** The address scheduled for the slot due at the attempt's `now`. */
  function ScheduledAddress(nowFine: int, clock: SlotClock): Address
  {
    clock.scheduledMediator(clock.slotAtTime(RoundToSecond(nowFine))).address
  }

  /** All checks before the turn check pass. */
  predicate DueSlot(productionEnabled: bool, nowFine: int, clock: SlotClock)
  {
    Synced(productionEnabled, nowFine, clock) && clock.slotAtTime(RoundToSecond(nowFine)) != 0
  }

  /** As written, NotMyTurn comes out exactly when the scheduled mediator IS one this node controls. */
  lemma NotMyTurnCase(productionEnabled: bool, mediators: map<Address, string>, nowFine: int,
                      clock: SlotClock, unlocks: (Address, string) -> bool)
    ensures var a := Decide(productionEnabled, mediators, nowFine, clock, unlocks);
            var ma := ScheduledAddress(nowFine, clock);
            (a.result == NotMyTurn <==> DueSlot(productionEnabled, nowFine, clock) && ma in mediators)
            && (a.result == NotMyTurn ==> a.detail == map["ScheduledMediator" := Addr(ma)])
  {
  }

  /** The slot time of the slot due at the attempt's `now`. */
  function ScheduledTime(nowFine: int, clock: SlotClock): int
  {
    clock.slotTime(clock.slotAtTime(RoundToSecond(nowFine)))
  }

  /** Past the turn check, Lag comes out exactly when the slot time is more than 500 ms from `now`. */
  lemma LagCase(productionEnabled: bool, mediators: map<Address, string>, nowFine: int,
                clock: SlotClock, unlocks: (Address, string) -> bool)
    ensures var a := Decide(productionEnabled, mediators, nowFine, clock, unlocks);
            var now := RoundToSecond(nowFine);
            var st := ScheduledTime(nowFine, clock);
            (a.result == Lag <==>
               DueSlot(productionEnabled, nowFine, clock) && ScheduledAddress(nowFine, clock) !in mediators
               && (st - now > 500 * Millisecond || st - now < -500 * Millisecond))
            && (a.result == Lag ==> a.detail == map["ScheduledTime" := Instant(st), "Now" := Instant(now)])
  {
  }

  /** A slot time exactly half a second from `now`, either way, does not lag. */
  lemma HalfSecondDoesNotLag(now: int)
    ensures !Lags(now + 500 * Millisecond, now) && !Lags(now - 500 * Millisecond, now)
    ensures Lags(now + 500 * Millisecond + 1, now) && Lags(now - 500 * Millisecond - 1, now)
  {
  }

  /** A lagging attempt is Lag whatever the keystore would answer. */
  lemma LagIgnoresKeystore(productionEnabled: bool, mediators: map<Address, string>, nowFine: int,
                           clock: SlotClock, unlocks: (Address, string) -> bool,
                           unlocks': (Address, string) -> bool)
    requires Decide(productionEnabled, mediators, nowFine, clock, unlocks).result == Lag
    ensures Decide(productionEnabled, mediators, nowFine, clock, unlocks')
         == Decide(productionEnabled, mediators, nowFine, clock, unlocks)
  {
  }

  /**
   * Past the lag check, NoPrivateKey comes out exactly when `Unlock` succeeds,
   * and Produced exactly when it fails. The passphrase the keystore sees is
   * always empty: the scheduled address is not in `mediators` by then.
   */
  lemma KeyCase(productionEnabled: bool, mediators: map<Address, string>, nowFine: int,
                clock: SlotClock, unlocks: (Address, string) -> bool)
    ensures var a := Decide(productionEnabled, mediators, nowFine, clock, unlocks);
            var ma := ScheduledAddress(nowFine, clock);
            var passed := DueSlot(productionEnabled, nowFine, clock) && ma !in mediators
                          && !Lags(ScheduledTime(nowFine, clock), RoundToSecond(nowFine));
            (a.result == NoPrivateKey <==> passed && unlocks(ma, ""))
            && (a.result == Produced <==> passed && !unlocks(ma, ""))
            && (a.result == NoPrivateKey ==> a.detail == map["ScheduledKey" := Addr(ma)])
            && (a.result == Produced ==> a.detail == map[])
  {
  }

  /** As written, a node that controls no mediator never reports NotMyTurn. */
  lemma NoMediatorsNeverNotMyTurn(productionEnabled: bool, nowFine: int,
                                  clock: SlotClock, unlocks: (Address, string) -> bool)
    ensures Decide(productionEnabled, map[], nowFine, clock, unlocks).result != NotMyTurn
  {
  }

  /** A concrete attempt: the node controls the scheduled mediator, holds its key, and is on time. */
  lemma ControlledMediatorIsNotMyTurn()
    ensures var ma: Address := seq(20, _ => 1 as bv8);
            var clock := SlotClock(n => 0, t => 1, n => Mediator(ma));
            Decide(true, map[ma := "secret"], 0, clock, (a, p) => true).result == NotMyTurn
  {
  }

  /** A concrete attempt: the keystore unlocks the scheduled account, yet the outcome is NoPrivateKey. */
  lemma UnlockedKeyIsNoPrivateKey()
    ensures var ma: Address := seq(20, _ => 1 as bv8);
            var clock := SlotClock(n => 0, t => 1, n => Mediator(ma));
            Decide(true, map[], 0, clock, (a, p) => true).result == NoPrivateKey
  {
  }

  /**
   * The attempt the comments of `mediatorplugin.go` describe: at line 167,
   * that this node must control the mediator scheduled for the slot, and at
   * line 183, that the node should check that it holds that mediator's
   * private key. So NotMyTurn when this node does NOT control the scheduled
   * mediator, and NoPrivateKey when unlocking its account with its
   * passphrase fails.
   */
  function DecideIntended(productionEnabled: bool, mediators: map<Address, string>, nowFine: int,
                          clock: SlotClock, unlocks: (Address, string) -> bool): (a: Attempt)
    ensures a.detail.Keys == DetailKeys(a.result)
    ensures productionEnabled ==> a.productionEnabled
    ensures !a.productionEnabled <==> a.result == NotSynced
  {
    var now := RoundToSecond(nowFine);
    var nextSlotTime := clock.slotTime(1);
    if !productionEnabled && nextSlotTime < now then
      Attempt(NotSynced, map[], false)
    else
      var slot := clock.slotAtTime(now);
      if slot == 0 then
        Attempt(NotTimeYet, map["NextTime" := Instant(nextSlotTime), "Now" := Instant(now)], true)
      else
        var ma := clock.scheduledMediator(slot).address;
        if ma !in mediators then
          Attempt(NotMyTurn, map["ScheduledMediator" := Addr(ma)], true)
        else
          var scheduledTime := clock.slotTime(slot);
          if Lags(scheduledTime, now) then
            Attempt(Lag, map["ScheduledTime" := Instant(scheduledTime), "Now" := Instant(now)], true)
          else if !unlocks(ma, mediators[ma]) then
            Attempt(NoPrivateKey, map["ScheduledKey" := Addr(ma)], true)
          else
            Attempt(Produced, map[], true)
  }

  /** Intended: NotMyTurn exactly when a slot is due whose mediator this node does not control. */
  lemma IntendedNotMyTurn(productionEnabled: bool, mediators: map<Address, string>, nowFine: int,
                          clock: SlotClock, unlocks: (Address, string) -> bool)
    ensures DecideIntended(productionEnabled, mediators, nowFine, clock, unlocks).result == NotMyTurn
        <==> DueSlot(productionEnabled, nowFine, clock) && ScheduledAddress(nowFine, clock) !in mediators
  {
  }

  /** Intended: a node that controls no mediator reports NotMyTurn at every due slot. */
  lemma IntendedNoMediatorsNotMyTurn(productionEnabled: bool, nowFine: int,
                                     clock: SlotClock, unlocks: (Address, string) -> bool)
    requires DueSlot(productionEnabled, nowFine, clock)
    ensures DecideIntended(productionEnabled, map[], nowFine, clock, unlocks).result == NotMyTurn
  {
  }

  /** Intended: production needs the scheduled mediator under this node's control and its key unlocked. */
  lemma IntendedProducedNeedsKey(productionEnabled: bool, mediators: map<Address, string>, nowFine: int,
                                 clock: SlotClock, unlocks: (Address, string) -> bool)
    requires DecideIntended(productionEnabled, mediators, nowFine, clock, unlocks).result == Produced
    ensures var ma := ScheduledAddress(nowFine, clock);
            ma in mediators && unlocks(ma, mediators[ma])
            && !Lags(ScheduledTime(nowFine, clock), RoundToSecond(nowFine))
  {
  }

  /** Intended: past the lag check, NoPrivateKey exactly when unlocking with the configured passphrase fails, Produced otherwise. */
  lemma IntendedKeyCase(productionEnabled: bool, mediators: map<Address, string>, nowFine: int,
                        clock: SlotClock, unlocks: (Address, string) -> bool)
    ensures var a := DecideIntended(productionEnabled, mediators, nowFine, clock, unlocks);
            var ma := ScheduledAddress(nowFine, clock);
            var passed := DueSlot(productionEnabled, nowFine, clock) && ma in mediators
                          && !Lags(ScheduledTime(nowFine, clock), RoundToSecond(nowFine));
            (a.result == NoPrivateKey <==> passed && !unlocks(ma, mediators[ma]))
            && (a.result == Produced <==> passed && unlocks(ma, mediators[ma]))
  {
  }

  /** The intended and the written attempt agree up to the turn check. */
  lemma IntendedAgreesBeforeTurn(productionEnabled: bool, mediators: map<Address, string>, nowFine: int,
                                 clock: SlotClock, unlocks: (Address, string) -> bool)
    requires !DueSlot(productionEnabled, nowFine, clock)
    ensures DecideIntended(productionEnabled, mediators, nowFine, clock, unlocks)
         == Decide(productionEnabled, mediators, nowFine, clock, unlocks)
  {
  }

  // ---------------------------------------------------------------------------
  // The new-chain banner

  const Banner: string :=
    "\n*   ------- NEW CHAIN -------   *\n*   - Welcome to PalletOne! -   *\n*   -------------------------   *\n\n"

  const OldGenesisWarning: string :=
    "Your genesis seems to have an old timestamp\nPlease consider using the --genesis-timestamp option to give your genesis a recent timestamp\n\n"

  /** The slot count past which the genesis timestamp is called old. */
  const OldGenesisSlots: nat := 200

  /** The text printed when a new chain starts at `now`. */
  function NewChainBanner(clock: SlotClock, now: int): (out: string)
    ensures Banner <= out
    ensures out == Banner + OldGenesisWarning <==> clock.slotAtTime(now) > OldGenesisSlots
    ensures out == Banner <==> clock.slotAtTime(now) <= OldGenesisSlots
  {
    Banner + (if clock.slotAtTime(now) > OldGenesisSlots then OldGenesisWarning else "")
  }

  // ---------------------------------------------------------------------------
  // The plugin object

  class MediatorPlugin {
    /** production is allowed even on a stale chain; once set, it stays set */
    var productionEnabled: bool
    /** the mediator accounts this node controls, with their passphrases */
    var mediators: map<Address, string>

    /**
     * One production attempt at wall-clock instant `nowFine`; the only state
     * it changes is `productionEnabled`, and the detail map starts empty.
     */
    method MaybeProduceVerifiedUnit(nowFine: int, clock: SlotClock, unlocks: (Address, string) -> bool)
      returns (result: ProductionCondition, detail: Detail)
      modifies this`productionEnabled
      ensures Attempt(result, detail, productionEnabled)
           == Decide(old(productionEnabled), mediators, nowFine, clock, unlocks)
      ensures old(productionEnabled) ==> productionEnabled
    {
      detail := map[];
      var now := RoundToSecond(nowFine);

      var nextSlotTime := clock.slotTime(1);
      if !productionEnabled {
        if nextSlotTime >= now {
          productionEnabled := true;
        } else {
          return NotSynced, detail;
        }
      }

      var slot := clock.slotAtTime(now);
      if slot == 0 {
        detail := detail["NextTime" := Instant(nextSlotTime)];
        detail := detail["Now" := Instant(now)];
        return NotTimeYet, detail;
      }

      var ma := clock.scheduledMediator(slot).address;
      var ps := if ma in mediators then mediators[ma] else "";
      if ma in mediators {
        detail := detail["ScheduledMediator" := Addr(ma)];
        return NotMyTurn, detail;
      }

      var scheduledTime := clock.slotTime(slot);
      var diff := scheduledTime - now;
      if diff > LagTolerance || diff < -LagTolerance {
        detail := detail["ScheduledTime" := Instant(scheduledTime)];
        detail := detail["Now" := Instant(now)];
        return Lag, detail;
      }

      if unlocks(ma, ps) {
        detail := detail["ScheduledKey" := Addr(ma)];
        return NoPrivateKey, detail;
      }

      return Produced, detail;
    }

    /**
     * One round of the production loop after its sleep: the attempt at
     * `attemptTime`, then the wake-up instant of the next round, computed from
     * the clock reading `rescheduleTime`. Every outcome reschedules.
     */
    method VerifiedUnitProductionLoop(attemptTime: int, rescheduleTime: int,
                                      clock: SlotClock, unlocks: (Address, string) -> bool)
      returns (result: ProductionCondition, nextWakeup: int)
      modifies this`productionEnabled
      ensures result == Decide(old(productionEnabled), mediators, attemptTime, clock, unlocks).result
      ensures productionEnabled == Decide(old(productionEnabled), mediators, attemptTime, clock, unlocks).productionEnabled
      ensures nextWakeup == NextWakeup(rescheduleTime)
    {
      var detail;
      result, detail := MaybeProduceVerifiedUnit(attemptTime, clock, unlocks);
      nextWakeup := NextWakeup(rescheduleTime);
    }
  }
}
