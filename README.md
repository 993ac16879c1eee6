# Verified-unit production scheduling of a PalletOne mediator node

This project models three parts of the go-palletone node.

- **Production attempt and loop.** This is `consensus/mediatorplugin`. A mediator node wakes up on whole seconds and runs one production attempt. The attempt rounds the clock to a whole second and runs five checks in order: the sync gate, the due slot, the turn, the lag and the key. The first check that fails decides the outcome, one of six `ProductionCondition` values. A detail map comes with it, built fresh for each attempt. The only persistent state is the sticky `productionEnabled` flag. The new-chain banner warns about a stale genesis timestamp.
- **Bootstrap records.** This is `dag/modules`. `GlobalProperty` holds the chain parameters and the active mediator set. `DynamicGlobalProperty` holds the last unit number and time and the absolute slot. Both are built empty or seeded from the genesis descriptor.
- **Chaincode registration check.** This is `contracts/accesscontrol`. `authenticate` accepts the first message of a chaincode container only when it is a REGISTER message and its claimed name matches the name registered for the container's certificate. The exception is when access control has been disabled.

Modules:

- `Common` (`common.dfy`): 20-byte addresses and `Option`.
- `Chrono` (`chrono.dfy`): Go's `time` package on integers. Instants are nanoseconds since the Unix epoch. Durations are nanoseconds. It provides `time.Unix`, `Time.Unix`, `Time.Nanosecond` and the zero `time.Time`.
- `Modules` (`globalproperty.dfy`): the bootstrap records.
- `MediatorPlugin` (`mediatorplugin.dfy`): the scheduler. Its class `MediatorPlugin` holds `productionEnabled` and `mediators`.
- `AccessControl` (`access.dfy`): the class `Authenticator` with its `bypass` field.

Some collaborators are parameters, because their definitions are not part of this model:

- the slot clock `GetSlotTime` / `GetSlotAtTime` and the schedule `GetScheduledMediator` (the `SlotClock` datatype);
- the keystore `Unlock` (the `unlocks` oracle, true when it returns no error);
- `common.StringToAddress`, `core.NewChainParams()` (the default parameter record), `proto.Unmarshal` of the `ChaincodeID`, the certificate-hash extraction, and the registry `lookup`;
- the wall clock (`time.Now()`).

No formula is assumed for any of them.

The model follows the code, and in three places that is not what the comments or a plain reading suggest:

- The attempt returns `NotMyTurn` when the scheduled mediator IS one this node controls (`mediatorplugin.go:169-173`).
- It returns `NoPrivateKey` when `Unlock` SUCCEEDS (`mediatorplugin.go:185-189`).
- Because of the first point, the passphrase handed to `Unlock` is always the empty string.

The sync gate continues when the next slot time is at or after `now`. This is the code's `After || Equal`. The gate is `NotSynced` only when the next slot time is strictly before `now`.

A REGISTER message whose claimed name is "" is never accepted, because the registry's "" means "unknown certificate". So the acceptance condition is `lookup(hash) == ccName` together with `lookup(hash) != ""`.

## Model

| member | source | states |
|---|---|---|
| `MediatorPlugin.Ordinal` | consensus/mediatorplugin/mediatorplugin.go:74-84 | each condition's `uint8` value, in declaration order, is below 6 |
| `MediatorPlugin.ConditionOf` | consensus/mediatorplugin/mediatorplugin.go:71-84 | a `uint8` names a condition iff it is below 6, and its condition's ordinal is that number |
| `MediatorPlugin.OrdinalRoundTrip` | consensus/mediatorplugin/mediatorplugin.go:74-84 | the ordinals Produced=0 … Lag=5 are distinct and convert back to their condition |
| `MediatorPlugin.TimeToNextSecond` | consensus/mediatorplugin/mediatorplugin.go:58-62 | the wake-up delay lies in [50 ms, 1.05 s) and lands the clock on a whole second |
| `MediatorPlugin.TimeToNextSecondUnique` | consensus/mediatorplugin/mediatorplugin.go:58-62 | no other delay in [50 ms, 1.05 s) reaches a whole second, so the delay is the nearest whole second at least 50 ms away |
| `MediatorPlugin.NextWakeup` | consensus/mediatorplugin/mediatorplugin.go:56-64 | the next wake-up is on a whole second, between 50 ms and 1.05 s after now |
| `MediatorPlugin.RoundToSecond` | consensus/mediatorplugin/mediatorplugin.go:131-133 | the attempt's `now` is a whole second within (t − 500 ms, t + 500 ms], so halves round up |
| `MediatorPlugin.RoundToSecondUnique` | consensus/mediatorplugin/mediatorplugin.go:131-133 | that whole second is the only one in the window, so `now` is the nearest whole second |
| `MediatorPlugin.Decide` | consensus/mediatorplugin/mediatorplugin.go:122-206 | the detail keys are determined by the outcome alone, so a fresh map per call leaks no key; the flag never goes from true to false; the flag ends false iff the outcome is NotSynced |
| `MediatorPlugin.SyncGate` | consensus/mediatorplugin/mediatorplugin.go:136-144 | NotSynced iff the flag is off and the next slot time is before `now`; then the detail is empty and the flag stays off; otherwise the flag ends on |
| `MediatorPlugin.NotTimeYetCase` | consensus/mediatorplugin/mediatorplugin.go:146-152 | in sync, NotTimeYet iff the slot at `now` is 0, with detail exactly {NextTime: next slot time, Now: now} |
| `MediatorPlugin.NotMyTurnCase` | consensus/mediatorplugin/mediatorplugin.go:166-173 | with a slot due, NotMyTurn iff the scheduled address is a key of `mediators`, with detail exactly {ScheduledMediator} |
| `MediatorPlugin.LagCase` | consensus/mediatorplugin/mediatorplugin.go:175-181 | past the turn check, Lag iff the scheduled time is more than 500 ms after or before `now`, with detail exactly {ScheduledTime, Now} |
| `MediatorPlugin.Lags` | consensus/mediatorplugin/mediatorplugin.go:176-177 | an attempt lags exactly when the slot time lies outside [now − 500 ms, now + 500 ms], i.e. more than 500 ms after or before `now` |
| `MediatorPlugin.HalfSecondDoesNotLag` | consensus/mediatorplugin/mediatorplugin.go:177 | a difference of exactly ±500 ms does not lag; one nanosecond more does |
| `MediatorPlugin.LagIgnoresKeystore` | consensus/mediatorplugin/mediatorplugin.go:175-189 | a lagging attempt is Lag whatever the keystore answers |
| `MediatorPlugin.KeyCase` | consensus/mediatorplugin/mediatorplugin.go:183-205 | past the lag check, NoPrivateKey (detail {ScheduledKey}) iff `Unlock` with the empty passphrase succeeds, otherwise Produced with an empty detail |
| `MediatorPlugin.NoMediatorsNeverNotMyTurn` | consensus/mediatorplugin/mediatorplugin.go:169-173 | as written, a node controlling no mediator never reports NotMyTurn |
| `MediatorPlugin.ControlledMediatorIsNotMyTurn` | consensus/mediatorplugin/mediatorplugin.go:166-173 | a concrete on-time attempt for a mediator the node controls comes out NotMyTurn |
| `MediatorPlugin.UnlockedKeyIsNoPrivateKey` | consensus/mediatorplugin/mediatorplugin.go:183-189 | a concrete attempt whose key unlocks comes out NoPrivateKey |
| `MediatorPlugin.DecideIntended` | consensus/mediatorplugin/mediatorplugin.go:122-206 | the attempt the comments at 167 and 183 describe keeps the same detail-key, flag-monotonicity and NotSynced guarantees |
| `MediatorPlugin.IntendedNotMyTurn` | consensus/mediatorplugin/mediatorplugin.go:166-173 | intended: with a slot due, NotMyTurn iff the scheduled mediator is NOT controlled by this node |
| `MediatorPlugin.IntendedNoMediatorsNotMyTurn` | consensus/mediatorplugin/mediatorplugin.go:166-173 | intended: a node controlling no mediator reports NotMyTurn at every due slot |
| `MediatorPlugin.IntendedProducedNeedsKey` | consensus/mediatorplugin/mediatorplugin.go:166-205 | intended: Produced only for a controlled, on-time mediator whose key unlocks with its passphrase |
| `MediatorPlugin.IntendedKeyCase` | consensus/mediatorplugin/mediatorplugin.go:183-189 | intended: past the lag check, NoPrivateKey iff unlocking the controlled account with its passphrase fails, Produced iff it succeeds |
| `MediatorPlugin.IntendedAgreesBeforeTurn` | consensus/mediatorplugin/mediatorplugin.go:136-152 | intended and written attempts agree whenever no slot is due or the chain is not synced |
| `MediatorPlugin.NewChainBanner` | consensus/mediatorplugin/mediatorplugin.go:42-54 | the welcome banner is always printed; the old-genesis warning follows it iff the slot at now exceeds 200 |
| `MediatorPlugin.MediatorPlugin.MaybeProduceVerifiedUnit` | consensus/mediatorplugin/mediatorplugin.go:122-206 | the outcome, detail and new flag are those of `Decide` on the old flag; the flag is never cleared; nothing else changes |
| `MediatorPlugin.MediatorPlugin.VerifiedUnitProductionLoop` | consensus/mediatorplugin/mediatorplugin.go:86-120 | a round returns the attempt's outcome and always schedules the next round, on a whole second 50 ms to 1.05 s later |
| `Modules.NewGlobalProp` | dag/modules/globalproperty.go:62-67 | a fresh global property has the default parameters and no active mediator |
| `Modules.NewDynGlobalProp` | dag/modules/globalproperty.go:69-74 | a fresh dynamic property has unit number 0, absolute slot 0, and the zero time |
| `Modules.InitGlobalProp` | dag/modules/globalproperty.go:76-96 | the parameters are the genesis ones verbatim; the active-mediator keys are exactly the first `InitialActiveMediators` candidates' mediators, all mapped to true (every value is true); at most that many, and exactly that many when their addresses are distinct; with a count of 0 the result is the fresh record carrying the genesis parameters |
| `Modules.InsertCardinality` | dag/modules/globalproperty.go:92 | marking a mediator active adds it to the key set and grows the map by one exactly when it was not there |
| `Modules.InitialActiveSetStep` | dag/modules/globalproperty.go:87-93 | one loop step adds exactly the next candidate, which is new when the candidates are distinct |
| `Modules.InitDynGlobalProp` | dag/modules/globalproperty.go:98-106 | differs from the fresh record only in the last unit time, which is the genesis timestamp as a whole second |
| `AccessControl.Authenticator.constructor` | contracts/accesscontrol/access.go:67-73 | a new authenticator enforces access control |
| `AccessControl.Authenticator.DisableAccessCheck` | contracts/accesscontrol/access.go:77-79 | afterwards `bypass` is true whatever it was, so a second call changes nothing; no other field changes |
| `AccessControl.Authenticator.Authenticate` | contracts/accesscontrol/access.go:95-134 | bypassed, everything is accepted whatever the other inputs, with no other check; otherwise accepted iff REGISTER, decodable, a non-empty hash, and a registered name that is non-empty and equal to the claimed name; so every non-bypassed accept names a non-empty chaincode |
| `AccessControl.NonRegisterRejectedFirst` | contracts/accesscontrol/access.go:100-103 | a non-REGISTER message is refused the same way whatever the decoder, hash or registry |
| `AccessControl.RegisterRejections` | contracts/accesscontrol/access.go:105-130 | a decoded REGISTER message is refused for a failed decode, an empty hash, an unknown hash, or a hash registered to another chaincode, each with its own error |

## Left out

- The `go` spawn of the next round, `time.Sleep` and the log-message switch of `VerifiedUnitProductionLoop` are left out, because they are concurrency and logging. A round receives the clock reading after its sleep as a parameter.
- The bodies of `GetSlotTime`, `GetSlotAtTime` and `GetScheduledMediator` are not part of this model. They are uninterpreted parameters, so no round-trip or round-robin law about them is stated.
- The keystore and account-manager lookup are left out. `Unlock` is a boolean oracle.
- Date formatting (`Format("2006-01-02 15:04:05")`) and `Address.Str()` are left out. Detail values are kept as the instant or address they would format.
- Unit construction, signing and broadcast are commented out in the source, so `Produced` carries an empty detail.
- `common.StringToAddress`, `core.NewChainParams` and the `ChainParameters` record are opaque. They are a function parameter, a value parameter and a type parameter.
- `Generate`, `certMapper.genCert`, `newInterceptor`, `proto.Unmarshal`, the gRPC stream context and the certificate-hash extraction are crypto, gRPC and protobuf plumbing. They are abstract inputs of `Authenticate`.
- `MediatorPlugin.RoundToSecond`: integers are unbounded, so the saturation of Go's 64-bit `Time.Add` and `Time.Sub` near the ends of their range is not modelled. Real clock readings are far from that range.
- `Modules.InitGlobalProp`: the candidate list is indexed without a bound check in the source, so a count beyond the list (a panic there) is a precondition here.

## Findings

| source | as written | input that shows it | evidently intended | confidence | as-written member | corrected member |
|---|---|---|---|---|---|---|
| consensus/mediatorplugin/mediatorplugin.go:169-173 | returns NotMyTurn when the scheduled address is in `mediators` | synced, slot 1 due, scheduled mediator `a`, `mediators = {a: "secret"}`, on time: NotMyTurn | NotMyTurn when this node does not control the scheduled mediator (comment at line 167) | high, not executed | `MediatorPlugin.ControlledMediatorIsNotMyTurn` | `MediatorPlugin.IntendedNotMyTurn` |
| consensus/mediatorplugin/mediatorplugin.go:185-189 | returns NoPrivateKey when `Unlock` succeeds, and passes the empty passphrase because the address was not found in `mediators` | synced, slot 1 due, `mediators` empty, on time, `Unlock` succeeds: NoPrivateKey | NoPrivateKey when unlocking the controlled account with its passphrase fails (comment at line 183) | high, not executed | `MediatorPlugin.UnlockedKeyIsNoPrivateKey` | `MediatorPlugin.IntendedKeyCase` |
