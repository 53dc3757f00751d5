/** Properties that relate several calls, or a view and an endpoint, of the
    ping-pong state machine. */
module PingPongProperties {
  import opened Host
  import opened Errors
  import opened PingPongSpec

  /** A successful `init` on fresh storage establishes the invariant and
      starts with an empty ledger. */
  lemma InitEstablishesValid(caller: Address, amount: nat, seconds: nat, optToken: Option<TokenId>)
    requires Init(Fresh, caller, amount, seconds, optToken).outcome.Done?
    ensures Valid(Init(Fresh, caller, amount, seconds, optToken).storage)
    ensures Init(Fresh, caller, amount, seconds, optToken).storage.pings == map[]
  {
  }

  /** Under the invariant, an address has pinged exactly when its stored
      timestamp, and its enable timestamp, are non-zero. */
  lemma PresenceIsNonEmptyEntry(s: Storage, a: Address)
    requires Valid(s)
    ensures DidUserPing(s, a) <==> GetUserPingTimestamp(s, a) > 0
    ensures DidUserPing(s, a) <==> GetPongEnableTimestamp(s, a) > 0
  {
  }

  /** The time-to-pong view answers 0 exactly when `pong` would pass its
      deadline check, and otherwise tells how long the caller must wait. */
  lemma TimeToPongAgreesWithPong(s: Storage, a: Address, now: nat)
    requires !s.paused && DidUserPing(s, a)
    ensures Pong(s, a, now).outcome.Done? <==> GetTimeToPong(s, a, now) == Some(0)
    ensures GetTimeToPong(s, a, now).value > 0 ==>
      Pong(s, a, now + GetTimeToPong(s, a, now).value).outcome.Done? &&
      Pong(s, a, now).outcome == Aborted(FromError(CannotPongBeforeDeadline))
  {
  }

  /** While paused, `ping`, `pong` and `extend_ping_duration` fail with the
      pause code whatever their other arguments, and change nothing. */
  lemma PauseGate(s: Storage, caller: Address, payment: Payment, now: nat, additional: nat)
    requires s.paused
    ensures Ping(s, caller, payment, now) == Abort(s, ContractPaused)
    ensures Pong(s, caller, now) == Abort(s, ContractPaused)
    ensures ExtendPingDuration(s, caller, additional) == Abort(s, ContractPaused)
  {
  }

  /** The owner endpoints ignore the pause flag. */
  lemma OwnerEndpointsNotGated(s: Storage, caller: Address, amount: nat, seconds: nat)
    ensures Upgrade(s.(paused := true), caller, amount, seconds).outcome
         == Upgrade(s.(paused := false), caller, amount, seconds).outcome
    ensures Pause(s.(paused := true), caller).outcome == Pause(s.(paused := false), caller).outcome
    ensures Unpause(s.(paused := true), caller).outcome == Unpause(s.(paused := false), caller).outcome
  {
  }

  /** Anyone but the owner is refused by `upgrade`, `pause` and `unpause`, and
      the storage stays as it was. */
  lemma OwnerExclusivity(s: Storage, caller: Address, amount: nat, seconds: nat)
    requires caller != s.owner
    ensures Upgrade(s, caller, amount, seconds) == Abort(s, FromError(OnlyOwnerCanPerformThisAction))
    ensures Pause(s, caller) == Abort(s, FromError(OnlyOwnerCanPerformThisAction))
    ensures Unpause(s, caller) == Abort(s, FromError(OnlyOwnerCanPerformThisAction))
  {
  }

  /** `pause` and `unpause` set the flag regardless of its prior value, so a
      second call changes nothing more. */
  lemma PauseUnpauseIdempotent(s: Storage, caller: Address)
    ensures Pause(Pause(s, caller).storage, caller) == Pause(s, caller)
    ensures Unpause(Unpause(s, caller).storage, caller) == Unpause(s, caller)
  {
  }

  /** A second `ping` by the same address, before any `pong`, is refused with
      `AlreadyPinged` and leaves the storage of the first one in place (as long
      as the first was recorded at a non-zero block time). */
  lemma SecondPingRefused(s: Storage, caller: Address, payment: Payment, t0: nat, t1: nat)
    requires Ping(s, caller, payment, t0).outcome.Done? && t0 > 0
    ensures var s1 := Ping(s, caller, payment, t0).storage;
      Ping(s1, caller, payment, t1) == Abort(s1, FromError(AlreadyPinged))
  {
  }

  /** A `ping` at block time 0 stores 0, which leaves the entry empty: the
      call commits and keeps the payment, but the ledger is as before, so a
      later `pong` finds no ping and another `ping` is accepted again. */
  lemma PingAtTimeZeroRecordsNothing(s: Storage, caller: Address, payment: Payment, later: nat)
    requires Ping(s, caller, payment, 0).outcome.Done?
    ensures Ping(s, caller, payment, 0).storage == s
    ensures Pong(s, caller, later) == Abort(s, FromError(NoPingFound))
    ensures Ping(Ping(s, caller, payment, 0).storage, caller, payment, 0).outcome.Done?
  {
  }

  /** A `pong` before the deadline is refused and the ping stays recorded. */
  lemma EarlyPongKeepsPing(s: Storage, caller: Address, now: nat)
    requires !s.paused && DidUserPing(s, caller) && now < GetPongEnableTimestamp(s, caller)
    ensures Pong(s, caller, now) == Abort(s, FromError(CannotPongBeforeDeadline))
    ensures DidUserPing(Pong(s, caller, now).storage, caller)
  {
  }

  /** The round trip: a `ping` at time `t0 > 0`, then a `pong` at or after
      `t0 + duration`, pays the ping amount of the accepted token back to the
      caller exactly once and restores the ledger; a second `pong` finds no
      ping. */
  lemma PingThenPong(s: Storage, caller: Address, t0: nat, t1: nat, t2: nat)
    requires !s.paused && !DidUserPing(s, caller) && t0 > 0 && t1 >= t0 + s.duration
    ensures var a := Ping(s, caller, Payment(s.acceptedToken, s.pingAmount), t0);
      && a.outcome.Done?
      && GetPongEnableTimestamp(a.storage, caller) == t0 + s.duration
      && var b := Pong(a.storage, caller, t1);
      && b.outcome == Done([Transfer(caller, s.acceptedToken, 0, s.pingAmount)], [PongEvent(caller)])
      && b.storage == s
      && Pong(b.storage, caller, t2) == Abort(s, FromError(NoPingFound))
  {
  }

  /** Extending by `k` moves the enable timestamp by `k + duration`, which is
      more than `k` whenever the duration is positive. */
  lemma ExtensionOvershoots(s: Storage, caller: Address, k: nat)
    requires Valid(s) && ExtendPingDuration(s, caller, k).outcome.Done?
    ensures GetPongEnableTimestamp(ExtendPingDuration(s, caller, k).storage, caller)
          > GetPongEnableTimestamp(s, caller) + k
  {
  }

}
