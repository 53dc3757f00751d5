# Ping-pong contract, modelled in Dafny

This project models the MultiversX smart contract `PingPong`. It is a state machine with a time lock.
A caller deposits exactly the configured amount of the accepted token ("ping"). After the configured
duration has passed, the caller may take the deposit back once ("pong"). Only the owner may pause and
unpause the contract or retune the amount and duration. A caller who has pinged may push their own
deadline back.

Modules:

- `Host` (`host.dfy`): what the host hands over or takes back. This covers addresses, the
  `EgldOrEsdtTokenIdentifier` token IDs, the attached `(token, amount)` payment, outgoing transfers and
  the two events.
- `Errors` (`errors.dfy`): the `PingPongError` enumeration and `From<PingPongError> for SCError`. Also
  the two inline codes: `Custom(8)` means the contract is paused, `Custom(9)` means a zero extension.
- `PingPongSpec` (`ping_pong_spec.dfy`): the storage as a value (`Storage`, one field per storage
  mapper), the views, and one transition function per endpoint. Each endpoint runs its `require!`
  checks in the order the source gives them. A failed check reports its code and leaves the storage
  as it was, because the host rolls back every write of an aborted call.
- `PingPongProperties` (`ping_pong_properties.dfy`): properties that relate several calls, or a view
  and an endpoint.
- `PingPongTraces` (`ping_pong_traces.dfy`): any sequence of calls after `init`. It proves that the
  invariant holds at every step and tracks the contract's balance of the accepted token.
- `PingPongContract` (`ping_pong_contract.dfy`): the class `PingPong`. Its six fields are the storage
  mappers, and it has one method per endpoint. Each method writes its fields step by step, like the
  source does, and its `ensures` states that the new storage and the outcome are what the matching
  `PingPongSpec` transition gives. `init` and `upgrade` write `ping_amount` before they check the
  duration. So a zero duration makes the method undo that write, modelling the host's rollback.

Host inputs become parameters of each call: the caller, the block timestamp `now` and the attached
payment. The payout `send().direct(...)` and the two events are returned in an `Outcome`.

The simple getters (`get_accepted_payment_token`, `get_ping_amount`, `get_duration_timestamp`,
`get_paused`, `get_owner`) are the fields of `Storage`, which `PingPong.Snapshot()` gives for the
object. `get_user_ping_timestamp` is `GetUserPingTimestamp`.

Two points where the code does something other than what a reader might expect, modelled as written:

- `extend_ping_duration` stores the current *enable* timestamp plus `additional_seconds` as the new
  *ping* timestamp. So the enable time grows by `additional_seconds + duration`, not by
  `additional_seconds` alone. `ExtensionOvershoots` and the contract of
  `PingPongSpec.ExtendPingDuration` state this.
- Any caller with a recorded ping may extend it; extending is not an owner-only operation. The pause
  and zero-extension failures are the bare codes `Custom(8)` and `Custom(9)`, not named error variants.

Storage semantics: the ledger `pings` holds only the non-empty entries of `user_ping_timestamp`. A
`u64` zero encodes as empty bytes, so `set(0)` leaves the entry empty. `did_user_ping` is "entry not
empty", so it then answers false (`SetTimestamp`). As a result, a `ping` committed at block time 0
keeps the payment but records no ping (`PingAtTimeZeroRecordsNothing`). The invariant `Valid` says
that the amount and duration are positive and that every recorded timestamp is non-zero.

Custody: from deployment on, and while nobody calls `upgrade`, the contract always holds enough to pay
every outstanding ping back (`InitThenRunWithoutUpgradeKeepsSolvent`, from `RunWithoutUpgradeKeepsSolvent`). `pong` pays the ping amount current at pong time. So an
`upgrade` that raises the amount while pings are outstanding can leave the contract owing more than
it holds. With two deposits of 1 and the amount raised to 2, the first pong is paid 2. That empties
custody while the second depositor is still owed 2 (`UpgradeCanOverdraw`).

## Model

| member | source | states |
|---|---|---|
| `Errors.FromError` | src/ping_pong.rs:19-32 | every error maps to a code below 8, never the pause code 8 or the extension code 9 |
| `Errors.ErrorOfCode` | src/ping_pong.rs:8-17 | exactly the codes 0..7 decode to a variant; with `DecodeFromError` it inverts `FromError` |
| `Errors.DecodeFromError` | src/ping_pong.rs:19-32 | decoding the code of an error gives that error back |
| `Errors.EncodeErrorOfCode` | src/ping_pong.rs:19-32 | every code 0..7 is the code of the error it decodes to |
| `Errors.FromErrorInjective` | src/ping_pong.rs:19-32 | distinct errors are reported under distinct codes |
| `PingPongSpec.SetTimestamp` | src/ping_pong.rs:121-123 | storing a timestamp leaves the entry present iff it is non-zero, with that value; every other address is untouched |
| `PingPongSpec.GetUserPingTimestamp` | src/ping_pong.rs:243-246 | the recorded timestamp of a pinged address; a positive answer implies a ping |
| `PingPongSpec.GetPongEnableTimestamp` | src/ping_pong.rs:196-206 | 0 without a ping; for a pinged address never earlier than the recorded ping nor than one lock duration; under the invariant non-zero exactly for pinged addresses |
| `PingPongSpec.GetTimeToPong` | src/ping_pong.rs:209-224 | None iff no ping; `Some(0)` iff pinged and now at or past the enable time; a positive answer is exactly the seconds left until the enable time |
| `PingPongSpec.Init` | src/ping_pong.rs:62-85 | zero amount fails first with PingAmountCannotBeZero, then zero duration with DurationCannotBeZero, storage unchanged; on success amount and duration are exactly the arguments, token is the given one or EGLD, owner is the caller, not paused |
| `PingPongSpec.Upgrade` | src/ping_pong.rs:87-101 | non-owner fails first with OnlyOwnerCanPerformThisAction, then the two zero checks in order, storage unchanged on failure; success iff owner with both values positive, and then only amount and duration change, to exactly the arguments; the pause flag plays no part |
| `PingPongSpec.Ping` | src/ping_pong.rs:103-127 | fails with Custom(8) when paused, else InvalidPaymentToken, else IncorrectPingAmount, else AlreadyPinged, storage unchanged; success iff not paused, exact payment and no ping yet, and then the caller's timestamp is now, no other entry or setting changes and a ping event is logged |
| `PingPongSpec.Pong` | src/ping_pong.rs:130-151 | fails with Custom(8) when paused, else NoPingFound, else CannotPongBeforeDeadline when now is before the enable time, storage unchanged; success iff pinged and due, and then the caller's entry is gone, nothing else changes, exactly one transfer of the ping amount of the accepted token goes to the caller and a pong event is logged |
| `PingPongSpec.Pause` | src/ping_pong.rs:154-162 | succeeds iff the caller is the owner and then sets the flag and changes nothing else; otherwise OnlyOwnerCanPerformThisAction with storage unchanged |
| `PingPongSpec.Unpause` | src/ping_pong.rs:165-173 | succeeds iff the caller is the owner and then clears the flag and changes nothing else; otherwise OnlyOwnerCanPerformThisAction with storage unchanged |
| `PingPongSpec.ExtendPingDuration` | src/ping_pong.rs:175-187 | fails with Custom(8) when paused, else NoPingFound, else Custom(9) for zero seconds, storage unchanged; success iff pinged and the extension is positive, and then the entry stays present, the new timestamp is the old enable time plus the extension, the new enable time is the old one plus extension plus duration, and nothing else changes |
| `PingPongProperties.InitEstablishesValid` | src/ping_pong.rs:69-84 | a successful init on fresh storage leaves positive amount and duration and an empty ledger |
| `PingPongTraces.InitThenAnyRunValid` | src/ping_pong.rs:69-100 | after a successful init on fresh storage, amount and duration stay positive and every recorded timestamp non-zero along any sequence of calls |
| `PingPongProperties.PresenceIsNonEmptyEntry` | src/ping_pong.rs:191-206 | under the invariant, pinged (`DidUserPing` models `did_user_ping`) iff the stored timestamp is non-zero iff the enable timestamp is non-zero |
| `PingPongProperties.TimeToPongAgreesWithPong` | src/ping_pong.rs:209-224 | for a pinged caller while not paused, pong passes its deadline check iff the view says 0; after waiting the time the view gives, pong succeeds |
| `PingPongProperties.PauseGate` | src/ping_pong.rs:103-187 | (the gates at lines 106, 132 and 177) while paused, ping, pong and extend_ping_duration all fail with Custom(8) and change nothing, whatever their arguments |
| `PingPongProperties.OwnerEndpointsNotGated` | src/ping_pong.rs:154-173 | the pause flag does not affect the outcome of upgrade, pause or unpause |
| `PingPongProperties.OwnerExclusivity` | src/ping_pong.rs:87-173 | (`IsOwner` models the owner guard at lines 90-93, 157-160 and 168-171) a non-owner calling upgrade, pause or unpause gets OnlyOwnerCanPerformThisAction and the storage is unchanged |
| `PingPongProperties.PauseUnpauseIdempotent` | src/ping_pong.rs:155-173 | calling pause, or unpause, twice is the same as calling it once |
| `PingPongProperties.SecondPingRefused` | src/ping_pong.rs:118-119 | after a ping recorded at a non-zero time, a second ping by the same caller fails with AlreadyPinged and the storage stays as the first one left it |
| `PingPongProperties.PingAtTimeZeroRecordsNothing` | src/ping_pong.rs:121-123 | a ping committed at time 0 leaves the storage as it was, so a later pong fails with NoPingFound and a further ping is accepted |
| `PingPongProperties.EarlyPongKeepsPing` | src/ping_pong.rs:137-142 | a pong before the enable time fails with CannotPongBeforeDeadline and the ping stays recorded |
| `PingPongProperties.PingThenPong` | src/ping_pong.rs:103-151 | ping at T > 0 gives enable time T + duration; pong at or after it pays exactly the ping amount of the accepted token to the caller and restores the original storage; a second pong fails with NoPingFound |
| `PingPongProperties.ExtensionOvershoots` | src/ping_pong.rs:183-186 | under the invariant, an extension by k moves the enable time by strictly more than k |
| `PingPongTraces.ApplyPreservesValid` | src/ping_pong.rs:96-100 | every endpoint call keeps amount and duration positive and every recorded timestamp non-zero |
| `PingPongTraces.RunPreservesValid` | src/ping_pong.rs:69-100 | the invariant holds after any sequence of calls |
| `PingPongTraces.PingKeepsSolvent` | src/ping_pong.rs:108-126 | a committed ping keeps its payment of one ping amount and records at most one new entry, so solvency is kept |
| `PingPongTraces.PongKeepsSolvent` | src/ping_pong.rs:144-149 | a committed pong removes one entry and sends out one ping amount, so solvency is kept |
| `PingPongTraces.ApplyKeepsSolvent` | src/ping_pong.rs:108-149 | every call other than upgrade keeps the accepted-token balance at least ping amount times the number of recorded pings |
| `PingPongTraces.RunWithoutUpgradeKeepsSolvent` | src/ping_pong.rs:103-151 | along any sequence of calls without upgrade, the contract can pay back every outstanding ping |
| `PingPongTraces.InitThenRunWithoutUpgradeKeepsSolvent` | src/ping_pong.rs:62-151 | from a successful init with nothing held, along any sequence of calls without upgrade, the contract can pay back every outstanding ping |
| `PingPongTraces.UpgradeCanOverdraw` | src/ping_pong.rs:146-149 | with two deposits of 1 held, raising the amount to 2 lets the first pong be paid 2, which empties custody while the second depositor is still owed 2 |
| `PingPongContract.PingPong.Init` | src/ping_pong.rs:62-85 | writes the fields step by step, undoing the ping-amount write on a zero duration; new storage and outcome are those of `PingPongSpec.Init` |
| `PingPongContract.PingPong.Upgrade` | src/ping_pong.rs:87-101 | modifies only amount and duration; new storage and outcome are those of `PingPongSpec.Upgrade` |
| `PingPongContract.PingPong.Ping` | src/ping_pong.rs:103-127 | modifies only the ledger; new storage and outcome are those of `PingPongSpec.Ping` |
| `PingPongContract.PingPong.Pong` | src/ping_pong.rs:130-151 | modifies only the ledger and clears the entry before it issues the transfer; new storage and outcome are those of `PingPongSpec.Pong` |
| `PingPongContract.PingPong.Pause` | src/ping_pong.rs:154-162 | modifies only the pause flag; new storage and outcome are those of `PingPongSpec.Pause` |
| `PingPongContract.PingPong.Unpause` | src/ping_pong.rs:165-173 | modifies only the pause flag; new storage and outcome are those of `PingPongSpec.Unpause` |
| `PingPongContract.PingPong.ExtendPingDuration` | src/ping_pong.rs:175-187 | modifies only the ledger; new storage and outcome are those of `PingPongSpec.ExtendPingDuration` |
| `PingPongContract.ExampleDeployment` | src/ping_pong.rs:62-151 | through the methods alone: after init(100, 3600, token) and a ping at 1000, a pong at 4000 fails with CannotPongBeforeDeadline, a pong at 4600 pays 100 of the token to the caller, and a further pong fails with NoPingFound |

## Left out

- Host calls `get_caller`, `get_block_timestamp` and `egld_or_single_fungible_esdt` become parameters. A
  payment with several ESDT transfers, which that host call itself rejects, is not modelled.
  Neither is a single ESDT payment with a non-zero nonce, which it also rejects; `Payment` carries no
  nonce.
- Endpoints without `#[payable]` (`pong`, `pause`, `unpause`, `extend_ping_duration`, `upgrade`) make
  the framework reject any attached payment before their body runs. That rejection comes before the
  pause check. The model takes no payment for these endpoints, so `PauseGate`'s "whatever their
  arguments" covers calls without a payment only.
- `send().direct(...)` is returned as a `Transfer` record. A transfer that the host refuses, for
  example because the contract's balance is too small, is host behaviour and is not modelled.
  `RunWithoutUpgradeKeepsSolvent` shows when this cannot arise.
- The events `ping_event` and `pong_event` are returned as `Event` values. Their log encoding is not
  modelled.
- `BigUint` amounts and `u64` times are `nat`. So overflow of the `u64` additions in
  `extend_ping_duration` and `get_pong_enable_timestamp` is not modelled; depending on the build it is
  a panic or a wrap-around.
- Reentrancy is not modelled beyond ordering. `PingPong.Pong` clears the caller's entry before it
  builds the transfer, but the host's re-entry into the contract during a transfer is not modelled.
- Deployment and upgrade bootstrapping are not modelled. The constructor gives empty storage, and
  nothing forces `Init` to run exactly once before the other endpoints.
- `SCError` is reduced to its `Custom(code)` form, the only form this contract raises.
