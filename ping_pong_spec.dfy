/** The ping-pong contract as a pure state machine: its persistent storage, the
    views that read it, and one transition function per endpoint. Each endpoint
    checks its conditions in the source's order; any failed check aborts the
    call, and the host then rolls back every write, so an aborted transition
    leaves the storage as it was and has no transfers and no events. */
module PingPongSpec {
  import opened Host
  import opened Errors

  /** One field per storage mapper. `pings` holds the non-empty entries of
      `user_ping_timestamp`; an address without a key has an empty entry. */
  datatype Storage = Storage(
    acceptedToken: TokenId,
    pingAmount: nat,
    duration: nat,
    pings: map<Address, nat>,
    paused: bool,
    owner: Address)

  /** What a call did: the transfers and events of a committed call, or the
      error an aborted call reported. */
  datatype Outcome =
    | Done(transfers: seq<Transfer>, events: seq<Event>)
    | Aborted(error: SCError)

  datatype Transition = Transition(storage: Storage, outcome: Outcome)

  /** Storage of a contract that has just been deployed, before `init` has
      written anything: every mapper is empty and decodes to its default. */
  const Fresh: Storage := Storage(Egld, 0, 0, map[], false, ZeroAddress)

  /** A failed `require!`: the host reverts the call. */
  function Abort(s: Storage, e: SCError): Transition {
    Transition(s, Aborted(e))
  }

  /** The invariant that holds after a successful `init`: both tunables are
      positive and every recorded ping timestamp is non-zero. */
  ghost predicate Valid(s: Storage) {
    s.pingAmount > 0 && s.duration > 0 &&
    forall a :: a in s.pings ==> s.pings[a] > 0
  }

  /** Only the ledger may differ between `s` and `s'`. */
  ghost predicate SameConfig(s: Storage, s': Storage) {
    s'.(pings := s.pings) == s
  }

  /** The ledger entries of every address other than `a` are the same. */
  ghost predicate LedgerChangesOnlyAt(s: Storage, s': Storage, a: Address) {
    s'.pings - {a} == s.pings - {a}
  }

  // ---------------------------------------------------------------- storage

  /** `user_ping_timestamp(a).set(t)`. A `u64` zero encodes as empty bytes,
      so storing 0 leaves the entry empty, exactly as `clear()` would. */
  function SetTimestamp(pings: map<Address, nat>, a: Address, t: nat): (m: map<Address, nat>)
    ensures a in m <==> t > 0
    ensures a in m ==> m[a] == t
    ensures m - {a} == pings - {a}
  {
    if t == 0 then pings - {a} else pings[a := t]
  }

  // ------------------------------------------------------------------ views

  /** `did_user_ping`: the caller's timestamp entry is not empty. */
  predicate DidUserPing(s: Storage, a: Address) {
    a in s.pings
  }

  /** `get_user_ping_timestamp`: an empty entry decodes as 0. */
  function GetUserPingTimestamp(s: Storage, a: Address): (r: nat)
    ensures r > 0 ==> DidUserPing(s, a)
    ensures DidUserPing(s, a) ==> r == s.pings[a]
  {
    if a in s.pings then s.pings[a] else 0
  }

  /** `get_pong_enable_timestamp`: the earliest block time at which `a` may
      pong, or 0 if `a` has no ping. It is never earlier than the ping
      itself nor than one lock duration, and under the invariant it is
      non-zero exactly for addresses that have pinged. */
  function GetPongEnableTimestamp(s: Storage, a: Address): (r: nat)
    ensures !DidUserPing(s, a) ==> r == 0
    ensures DidUserPing(s, a) ==> r >= GetUserPingTimestamp(s, a) && r >= s.duration
    ensures Valid(s) ==> (r > 0 <==> DidUserPing(s, a))
  {
    if !DidUserPing(s, a) then 0
    else GetUserPingTimestamp(s, a) + s.duration
  }

  /** `get_time_to_pong` at block time `now`: nothing without a ping, 0 once
      the pong deadline has passed, else the seconds still to wait. */
  function GetTimeToPong(s: Storage, a: Address, now: nat): (r: Option<nat>)
    ensures r.None? <==> !DidUserPing(s, a)
    ensures r == Some(0) <==> DidUserPing(s, a) && now >= GetPongEnableTimestamp(s, a)
    ensures r.Some? && r.value > 0 ==> now + r.value == GetPongEnableTimestamp(s, a)
  {
    if !DidUserPing(s, a) then None
    else
      var enable := GetPongEnableTimestamp(s, a);
      if now >= enable then Some(0) else Some(enable - now)
  }

  // -------------------------------------------------------------- endpoints

  /** `init(ping_amount, duration_in_seconds, opt_token_id)` called by `caller`. */
  function Init(s: Storage, caller: Address, amount: nat, seconds: nat, optToken: Option<TokenId>): (t: Transition)
    ensures t.outcome.Aborted? ==> t.storage == s
    ensures amount == 0 ==> t.outcome == Aborted(FromError(PingAmountCannotBeZero))
    ensures amount > 0 && seconds == 0 ==> t.outcome == Aborted(FromError(DurationCannotBeZero))
    ensures t.outcome.Done? <==> amount > 0 && seconds > 0
    ensures t.outcome.Done? ==>
      && t.outcome == Done([], [])
      && t.storage.pingAmount == amount && t.storage.duration == seconds
      && t.storage.acceptedToken == (if optToken.Some? then optToken.value else Egld)
      && t.storage.owner == caller && !t.storage.paused
      && t.storage.pings == s.pings
  {
    if amount == 0 then Abort(s, FromError(PingAmountCannotBeZero))
    else if seconds == 0 then Abort(s, FromError(DurationCannotBeZero))
    else
      var token := match optToken case Some(tk) => tk case None => Egld;
      Transition(Storage(token, amount, seconds, s.pings, false, caller), Done([], []))
  }

  /** The owner check that `upgrade`, `pause` and `unpause` begin with. */
  predicate IsOwner(s: Storage, caller: Address) {
    caller == s.owner
  }

  /** `upgrade(ping_amount, duration_in_seconds)` called by `caller`. Not gated
      by the pause flag. */
  function Upgrade(s: Storage, caller: Address, amount: nat, seconds: nat): (t: Transition)
    ensures t.outcome.Aborted? ==> t.storage == s
    ensures !IsOwner(s, caller) ==> t.outcome == Aborted(FromError(OnlyOwnerCanPerformThisAction))
    ensures IsOwner(s, caller) && amount == 0 ==> t.outcome == Aborted(FromError(PingAmountCannotBeZero))
    ensures IsOwner(s, caller) && amount > 0 && seconds == 0 ==> t.outcome == Aborted(FromError(DurationCannotBeZero))
    ensures t.outcome.Done? <==> IsOwner(s, caller) && amount > 0 && seconds > 0
    ensures t.outcome.Done? ==>
      && t.outcome == Done([], [])
      && t.storage.pingAmount == amount && t.storage.duration == seconds
      && t.storage.(pingAmount := s.pingAmount, duration := s.duration) == s
  {
    if !IsOwner(s, caller) then Abort(s, FromError(OnlyOwnerCanPerformThisAction))
    else if amount == 0 then Abort(s, FromError(PingAmountCannotBeZero))
    else if seconds == 0 then Abort(s, FromError(DurationCannotBeZero))
    else Transition(s.(pingAmount := amount, duration := seconds), Done([], []))
  }

  /** `ping()` called by `caller` at block time `now` with `payment` attached. */
  function Ping(s: Storage, caller: Address, payment: Payment, now: nat): (t: Transition)
    ensures t.outcome.Aborted? ==> t.storage == s
    ensures s.paused ==> t.outcome == Aborted(ContractPaused)
    ensures !s.paused && payment.token != s.acceptedToken ==>
      t.outcome == Aborted(FromError(InvalidPaymentToken))
    ensures !s.paused && payment.token == s.acceptedToken && payment.amount != s.pingAmount ==>
      t.outcome == Aborted(FromError(IncorrectPingAmount))
    ensures !s.paused && payment == Payment(s.acceptedToken, s.pingAmount) && DidUserPing(s, caller) ==>
      t.outcome == Aborted(FromError(AlreadyPinged))
    ensures t.outcome.Done? <==>
      !s.paused && payment == Payment(s.acceptedToken, s.pingAmount) && !DidUserPing(s, caller)
    ensures t.outcome.Done? ==>
      && t.outcome == Done([], [PingEvent(caller)])
      && SameConfig(s, t.storage) && LedgerChangesOnlyAt(s, t.storage, caller)
      && GetUserPingTimestamp(t.storage, caller) == now
      && (DidUserPing(t.storage, caller) <==> now > 0)
  {
    if s.paused then Abort(s, ContractPaused)
    else if payment.token != s.acceptedToken then Abort(s, FromError(InvalidPaymentToken))
    else if payment.amount != s.pingAmount then Abort(s, FromError(IncorrectPingAmount))
    else if DidUserPing(s, caller) then Abort(s, FromError(AlreadyPinged))
    else Transition(s.(pings := SetTimestamp(s.pings, caller, now)), Done([], [PingEvent(caller)]))
  }

  /** `pong()` called by `caller` at block time `now`. The entry is cleared
      first; the payout transfer and the event follow. */
  function Pong(s: Storage, caller: Address, now: nat): (t: Transition)
    ensures t.outcome.Aborted? ==> t.storage == s
    ensures s.paused ==> t.outcome == Aborted(ContractPaused)
    ensures !s.paused && !DidUserPing(s, caller) ==> t.outcome == Aborted(FromError(NoPingFound))
    ensures !s.paused && DidUserPing(s, caller) && now < GetPongEnableTimestamp(s, caller) ==>
      t.outcome == Aborted(FromError(CannotPongBeforeDeadline))
    ensures t.outcome.Done? <==>
      !s.paused && DidUserPing(s, caller) && now >= GetPongEnableTimestamp(s, caller)
    ensures t.outcome.Done? ==>
      && t.outcome == Done([Transfer(caller, s.acceptedToken, 0, s.pingAmount)], [PongEvent(caller)])
      && SameConfig(s, t.storage) && LedgerChangesOnlyAt(s, t.storage, caller)
      && !DidUserPing(t.storage, caller)
  {
    if s.paused then Abort(s, ContractPaused)
    else if !DidUserPing(s, caller) then Abort(s, FromError(NoPingFound))
    else if now < GetPongEnableTimestamp(s, caller) then Abort(s, FromError(CannotPongBeforeDeadline))
    else
      var cleared := s.(pings := s.pings - {caller});
      Transition(cleared, Done([Transfer(caller, s.acceptedToken, 0, s.pingAmount)], [PongEvent(caller)]))
  }

  /** `pause()` called by `caller`. */
  function Pause(s: Storage, caller: Address): (t: Transition)
    ensures t.outcome.Aborted? ==> t.storage == s
    ensures t.outcome.Done? <==> IsOwner(s, caller)
    ensures !IsOwner(s, caller) ==> t.outcome == Aborted(FromError(OnlyOwnerCanPerformThisAction))
    ensures t.outcome.Done? ==> t.outcome == Done([], []) && t.storage.paused && t.storage.(paused := s.paused) == s
  {
    if !IsOwner(s, caller) then Abort(s, FromError(OnlyOwnerCanPerformThisAction))
    else Transition(s.(paused := true), Done([], []))
  }

  /** `unpause()` called by `caller`. */
  function Unpause(s: Storage, caller: Address): (t: Transition)
    ensures t.outcome.Aborted? ==> t.storage == s
    ensures t.outcome.Done? <==> IsOwner(s, caller)
    ensures !IsOwner(s, caller) ==> t.outcome == Aborted(FromError(OnlyOwnerCanPerformThisAction))
    ensures t.outcome.Done? ==> t.outcome == Done([], []) && !t.storage.paused && t.storage.(paused := s.paused) == s
  {
    if !IsOwner(s, caller) then Abort(s, FromError(OnlyOwnerCanPerformThisAction))
    else Transition(s.(paused := false), Done([], []))
  }

  /** `extend_ping_duration(additional_seconds)` called by `caller`, as the
      code does it: the new stored timestamp is the old enable timestamp plus
      `additional`, so the enable timestamp grows by `additional + duration`. */
  function ExtendPingDuration(s: Storage, caller: Address, additional: nat): (t: Transition)
    ensures t.outcome.Aborted? ==> t.storage == s
    ensures s.paused ==> t.outcome == Aborted(ContractPaused)
    ensures !s.paused && !DidUserPing(s, caller) ==> t.outcome == Aborted(FromError(NoPingFound))
    ensures !s.paused && DidUserPing(s, caller) && additional == 0 ==> t.outcome == Aborted(ZeroExtension)
    ensures t.outcome.Done? <==> !s.paused && DidUserPing(s, caller) && additional > 0
    ensures t.outcome.Done? ==>
      && t.outcome == Done([], [])
      && SameConfig(s, t.storage) && LedgerChangesOnlyAt(s, t.storage, caller)
      && DidUserPing(t.storage, caller)
      && GetUserPingTimestamp(t.storage, caller) == GetPongEnableTimestamp(s, caller) + additional
      && GetPongEnableTimestamp(t.storage, caller) == GetPongEnableTimestamp(s, caller) + additional + s.duration
  {
    if s.paused then Abort(s, ContractPaused)
    else if !DidUserPing(s, caller) then Abort(s, FromError(NoPingFound))
    else if additional == 0 then Abort(s, ZeroExtension)
    else
      var extended := GetPongEnableTimestamp(s, caller) + additional;
      Transition(s.(pings := SetTimestamp(s.pings, caller, extended)), Done([], []))
  }
}
