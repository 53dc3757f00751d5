/** The contract as the host runs it: an object whose fields are the storage
    mappers, with one method per endpoint that writes them step by step. The
    host supplies the caller, the block time and the attached payment as
    arguments; a method's `Outcome` carries the transfers and events of a
    committed call. Every method is proved to do what the corresponding
    transition of `PingPongSpec` does. */
module PingPongContract {
  import opened Host
  import opened Errors
  import opened PingPongSpec

  class PingPong {
    var acceptedToken: TokenId
    var pingAmount: nat
    var duration: nat
    var pings: map<Address, nat>
    var paused: bool
    var owner: Address

    /** The storage as a value. */
    function Snapshot(): Storage
      reads this
    {
      Storage(acceptedToken, pingAmount, duration, pings, paused, owner)
    }

    /** A freshly deployed contract: every storage mapper is empty. */
    constructor ()
      ensures Snapshot() == Fresh
    {
      acceptedToken, pingAmount, duration := Egld, 0, 0;
      pings, paused, owner := map[], false, ZeroAddress;
    }

    /** `init`. `ping_amount` is written before the duration is checked; a
        zero duration rolls that write back. */
    method Init(caller: Address, amount: nat, seconds: nat, optToken: Option<TokenId>) returns (r: Outcome)
      modifies this
      ensures Transition(Snapshot(), r) == PingPongSpec.Init(old(Snapshot()), caller, amount, seconds, optToken)
    {
      if amount == 0 {
        return Aborted(FromError(PingAmountCannotBeZero));
      }
      var before := pingAmount;
      pingAmount := amount;
      if seconds == 0 {
        pingAmount := before;
        return Aborted(FromError(DurationCannotBeZero));
      }
      duration := seconds;
      match optToken {
        case Some(t) => acceptedToken := t;
        case None => acceptedToken := Egld;
      }
      owner := caller;
      paused := false;
      r := Done([], []);
    }

    /** `upgrade`, with the same write-then-check order as `init`. */
    method Upgrade(caller: Address, amount: nat, seconds: nat) returns (r: Outcome)
      modifies this`pingAmount, this`duration
      ensures Transition(Snapshot(), r) == PingPongSpec.Upgrade(old(Snapshot()), caller, amount, seconds)
    {
      if caller != owner {
        return Aborted(FromError(OnlyOwnerCanPerformThisAction));
      }
      if amount == 0 {
        return Aborted(FromError(PingAmountCannotBeZero));
      }
      var before := pingAmount;
      pingAmount := amount;
      if seconds == 0 {
        pingAmount := before;
        return Aborted(FromError(DurationCannotBeZero));
      }
      duration := seconds;
      r := Done([], []);
    }

    /** `ping` at block time `now` with `payment` attached. */
    method Ping(caller: Address, payment: Payment, now: nat) returns (r: Outcome)
      modifies this`pings
      ensures Transition(Snapshot(), r) == PingPongSpec.Ping(old(Snapshot()), caller, payment, now)
    {
      if paused {
        return Aborted(ContractPaused);
      }
      if payment.token != acceptedToken {
        return Aborted(FromError(InvalidPaymentToken));
      }
      if payment.amount != pingAmount {
        return Aborted(FromError(IncorrectPingAmount));
      }
      if DidUserPing(Snapshot(), caller) {
        return Aborted(FromError(AlreadyPinged));
      }
      pings := SetTimestamp(pings, caller, now);
      r := Done([], [PingEvent(caller)]);
    }

    /** `pong` at block time `now`. The ledger entry is cleared before the
        payout transfer is issued. */
    method Pong(caller: Address, now: nat) returns (r: Outcome)
      modifies this`pings
      ensures Transition(Snapshot(), r) == PingPongSpec.Pong(old(Snapshot()), caller, now)
    {
      if paused {
        return Aborted(ContractPaused);
      }
      if !DidUserPing(Snapshot(), caller) {
        return Aborted(FromError(NoPingFound));
      }
      var enable := GetPongEnableTimestamp(Snapshot(), caller);
      if now < enable {
        return Aborted(FromError(CannotPongBeforeDeadline));
      }
      pings := pings - {caller};
      var payout := Transfer(caller, acceptedToken, 0, pingAmount);
      r := Done([payout], [PongEvent(caller)]);
    }

    method Pause(caller: Address) returns (r: Outcome)
      modifies this`paused
      ensures Transition(Snapshot(), r) == PingPongSpec.Pause(old(Snapshot()), caller)
    {
      if caller != owner {
        return Aborted(FromError(OnlyOwnerCanPerformThisAction));
      }
      paused := true;
      r := Done([], []);
    }

    method Unpause(caller: Address) returns (r: Outcome)
      modifies this`paused
      ensures Transition(Snapshot(), r) == PingPongSpec.Unpause(old(Snapshot()), caller)
    {
      if caller != owner {
        return Aborted(FromError(OnlyOwnerCanPerformThisAction));
      }
      paused := false;
      r := Done([], []);
    }

    /** `extend_ping_duration`: stores the current enable timestamp plus
        `additional` as the new ping timestamp. */
    method ExtendPingDuration(caller: Address, additional: nat) returns (r: Outcome)
      modifies this`pings
      ensures Transition(Snapshot(), r) == PingPongSpec.ExtendPingDuration(old(Snapshot()), caller, additional)
    {
      if paused {
        return Aborted(ContractPaused);
      }
      if !DidUserPing(Snapshot(), caller) {
        return Aborted(FromError(NoPingFound));
      }
      if additional == 0 {
        return Aborted(ZeroExtension);
      }
      var current := GetPongEnableTimestamp(Snapshot(), caller);
      pings := SetTimestamp(pings, caller, current + additional);
      r := Done([], []);
    }
  }

  /** A client that deploys the contract with an amount of 100 and a
      duration of 3600 seconds and walks one address through a ping at time
      1000 and three pongs, using only the methods' contracts: the pong at
      4000 is early, the one at 4600 pays 100 back, and the one after that
      finds no ping. */
  method ExampleDeployment(deployer: Address, x: Address)
    returns (early: Outcome, due: Outcome, again: Outcome)
    ensures early == Aborted(FromError(CannotPongBeforeDeadline))
    ensures due == Done([Transfer(x, Esdt("ASSETA-123456"), 0, 100)], [PongEvent(x)])
    ensures again == Aborted(FromError(NoPingFound))
  {
    var token := Esdt("ASSETA-123456");
    var c := new PingPong();
    var r := c.Init(deployer, 100, 3600, Some(token));
    assert r.Done?;
    r := c.Ping(x, Payment(token, 100), 1000);
    assert r == Done([], [PingEvent(x)]);
    assert GetPongEnableTimestamp(c.Snapshot(), x) == 4600;
    early := c.Pong(x, 4000);
    due := c.Pong(x, 4600);
    assert !DidUserPing(c.Snapshot(), x);
    again := c.Pong(x, 5000);
  }
}
