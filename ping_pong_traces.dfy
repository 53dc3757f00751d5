/** Sequences of calls made after `init`, the contract's holding of the
    accepted token along them, and the invariants that hold at every step. */
module PingPongTraces {
  import opened Host
  import opened Errors
  import opened PingPongSpec

  /** One call of an endpoint, with what the host supplies to it. */
  datatype Call =
    | UpgradeCall(caller: Address, amount: nat, seconds: nat)
    | PingCall(caller: Address, payment: Payment, now: nat)
    | PongCall(caller: Address, now: nat)
    | PauseCall(caller: Address)
    | UnpauseCall(caller: Address)
    | ExtendCall(caller: Address, additional: nat)

  function Apply(s: Storage, c: Call): Transition {
    match c
    case UpgradeCall(caller, amount, seconds) => Upgrade(s, caller, amount, seconds)
    case PingCall(caller, payment, now) => Ping(s, caller, payment, now)
    case PongCall(caller, now) => Pong(s, caller, now)
    case PauseCall(caller) => Pause(s, caller)
    case UnpauseCall(caller) => Unpause(s, caller)
    case ExtendCall(caller, additional) => ExtendPingDuration(s, caller, additional)
  }

  /** The storage after the calls, one after another. */
  function Run(s: Storage, calls: seq<Call>): Storage
    decreases |calls|
  {
    if calls == [] then s else Run(Apply(s, calls[0]).storage, calls[1..])
  }

  /** Every call keeps the invariant; aborted ones because they change nothing. */
  lemma ApplyPreservesValid(s: Storage, c: Call)
    requires Valid(s)
    ensures Valid(Apply(s, c).storage)
  {
  }

  /** The invariant established by `init` holds after any sequence of calls. */
  lemma {:induction false} RunPreservesValid(s: Storage, calls: seq<Call>)
    requires Valid(s)
    ensures Valid(Run(s, calls))
    decreases |calls|
  {
    if calls != [] {
      ApplyPreservesValid(s, calls[0]);
      RunPreservesValid(Apply(s, calls[0]).storage, calls[1..]);
    }
  }

  /** From a successful `init` on fresh storage on, the ping amount and the
      duration stay positive and every recorded timestamp non-zero. */
  lemma InitThenAnyRunValid(caller: Address, amount: nat, seconds: nat, optToken: Option<TokenId>, calls: seq<Call>)
    requires Init(Fresh, caller, amount, seconds, optToken).outcome.Done?
    ensures Valid(Run(Init(Fresh, caller, amount, seconds, optToken).storage, calls))
  {
    RunPreservesValid(Init(Fresh, caller, amount, seconds, optToken).storage, calls);
  }

  // ---------------------------------------------------------------- custody

  function TotalSent(ts: seq<Transfer>): nat {
    if ts == [] then 0 else ts[0].amount + TotalSent(ts[1..])
  }

  /** The contract's balance of the accepted token after one call: a committed
      `ping` keeps its payment, committed transfers leave custody, and an
      aborted call is refunded and sends nothing. */
  function BalanceAfter(balance: int, c: Call, o: Outcome): int {
    if o.Aborted? then balance
    else balance + (if c.PingCall? then c.payment.amount else 0) - TotalSent(o.transfers)
  }

  /** The storage and the balance after the calls. */
  function RunWithBalance(s: Storage, balance: int, calls: seq<Call>): (r: (Storage, int))
    ensures r.0 == Run(s, calls)
    decreases |calls|
  {
    if calls == [] then (s, balance)
    else
      var t := Apply(s, calls[0]);
      RunWithBalance(t.storage, BalanceAfter(balance, calls[0], t.outcome), calls[1..])
  }

  /** The contract holds enough to pay every recorded ping its ping amount. */
  ghost predicate Solvent(s: Storage, balance: int) {
    balance >= s.pingAmount * |s.pings|
  }

  predicate NoUpgrade(calls: seq<Call>) {
    forall i :: 0 <= i < |calls| ==> !calls[i].UpgradeCall?
  }

  lemma CardinalityAfterSet(pings: map<Address, nat>, a: Address, t: nat)
    requires a !in pings
    ensures |SetTimestamp(pings, a, t)| == if t > 0 then |pings| + 1 else |pings|
  {
  }

  lemma CardinalityAfterClear(pings: map<Address, nat>, a: Address)
    requires a in pings
    ensures |pings - {a}| == |pings| - 1
  {
  }

  lemma MulSucc(a: nat, n: nat)
    ensures a * (n + 1) == a * n + a
  {
  }

  /** A committed `ping` adds its payment and at most one entry. */
  lemma PingKeepsSolvent(s: Storage, balance: int, caller: Address, payment: Payment, now: nat)
    requires Solvent(s, balance)
    ensures var t := Ping(s, caller, payment, now);
      Solvent(t.storage, BalanceAfter(balance, PingCall(caller, payment, now), t.outcome))
  {
    var t := Ping(s, caller, payment, now);
    if t.outcome.Done? {
      assert t.storage.pings == SetTimestamp(s.pings, caller, now);
      assert t.storage.pingAmount == s.pingAmount == payment.amount;
      CardinalityAfterSet(s.pings, caller, now);
      if now > 0 {
        MulSucc(s.pingAmount, |s.pings|);
      }
    }
  }

  /** A committed `pong` removes one entry and pays out one ping amount. */
  lemma PongKeepsSolvent(s: Storage, balance: int, caller: Address, now: nat)
    requires Solvent(s, balance)
    ensures var t := Pong(s, caller, now);
      Solvent(t.storage, BalanceAfter(balance, PongCall(caller, now), t.outcome))
  {
    var t := Pong(s, caller, now);
    if t.outcome.Done? {
      assert t.storage.pings == s.pings - {caller};
      assert t.storage.pingAmount == s.pingAmount;
      CardinalityAfterClear(s.pings, caller);
      assert TotalSent(t.outcome.transfers) == s.pingAmount;
      MulSucc(s.pingAmount, |t.storage.pings|);
    }
  }

  /** A committed extension rewrites an entry that is already there. */
  lemma ExtendKeepsSolvent(s: Storage, balance: int, caller: Address, additional: nat)
    requires Solvent(s, balance)
    ensures var t := ExtendPingDuration(s, caller, additional);
      Solvent(t.storage, BalanceAfter(balance, ExtendCall(caller, additional), t.outcome))
  {
  }

  /** Each call other than `upgrade` keeps the contract solvent. */
  lemma ApplyKeepsSolvent(s: Storage, balance: int, c: Call)
    requires Solvent(s, balance) && !c.UpgradeCall?
    ensures Solvent(Apply(s, c).storage, BalanceAfter(balance, c, Apply(s, c).outcome))
  {
    match c
    case PingCall(caller, payment, now) => PingKeepsSolvent(s, balance, caller, payment, now);
    case PongCall(caller, now) => PongKeepsSolvent(s, balance, caller, now);
    case ExtendCall(caller, additional) => ExtendKeepsSolvent(s, balance, caller, additional);
    case PauseCall(_) =>
    case UnpauseCall(_) =>
  }

  /** As long as nobody retunes the ping amount, the contract can always pay
      back every outstanding ping. */
  lemma {:induction false} RunWithoutUpgradeKeepsSolvent(s: Storage, balance: int, calls: seq<Call>)
    requires Solvent(s, balance) && NoUpgrade(calls)
    ensures var r := RunWithBalance(s, balance, calls); Solvent(r.0, r.1)
    decreases |calls|
  {
    if calls != [] {
      var t := Apply(s, calls[0]);
      ApplyKeepsSolvent(s, balance, calls[0]);
      assert NoUpgrade(calls[1..]) by {
        forall i | 0 <= i < |calls[1..]| ensures !calls[1..][i].UpgradeCall? {
          assert calls[1..][i] == calls[i + 1];
        }
      }
      RunWithoutUpgradeKeepsSolvent(t.storage, BalanceAfter(balance, calls[0], t.outcome), calls[1..]);
    }
  }

  /** From a successful `init` on fresh storage with nothing held, and as
      long as nobody calls `upgrade`, the contract can pay back every
      outstanding ping. */
  lemma InitThenRunWithoutUpgradeKeepsSolvent(
    caller: Address, amount: nat, seconds: nat, optToken: Option<TokenId>, calls: seq<Call>)
    requires Init(Fresh, caller, amount, seconds, optToken).outcome.Done? && NoUpgrade(calls)
    ensures var r := RunWithBalance(Init(Fresh, caller, amount, seconds, optToken).storage, 0, calls);
      Solvent(r.0, r.1)
  {
    RunWithoutUpgradeKeepsSolvent(Init(Fresh, caller, amount, seconds, optToken).storage, 0, calls);
  }

  /** Storage holding two deposits of 1, made at time 5 with a duration of 10. */
  function TwoDeposits(owner: Address, x: Address, y: Address): Storage {
    Storage(Egld, 1, 10, map[x := 5, y := 5], false, owner)
  }

  /** `upgrade` retunes the ping amount for pings already made. With two
      deposits of 1 held and the amount raised to 2, the first `pong` is paid
      2 out of custody, which leaves nothing for the second depositor, who is
      still owed 2. */
  lemma UpgradeCanOverdraw(owner: Address, x: Address, y: Address)
    requires x != y
    ensures Valid(TwoDeposits(owner, x, y)) && Solvent(TwoDeposits(owner, x, y), 2)
    ensures Upgrade(TwoDeposits(owner, x, y), owner, 2, 10).outcome.Done?
    ensures var p := Pong(Upgrade(TwoDeposits(owner, x, y), owner, 2, 10).storage, x, 15);
      && p.outcome == Done([Transfer(x, Egld, 0, 2)], [PongEvent(x)])
      && BalanceAfter(2, PongCall(x, 15), p.outcome) == 0
      && DidUserPing(p.storage, y) && p.storage.pingAmount == 2
      && !Solvent(p.storage, 0)
  {
    var s := TwoDeposits(owner, x, y);
    assert s.pings.Keys == {x, y};
    assert |s.pings| == 2 by { assert |s.pings| == |s.pings.Keys|; }
    var u := Upgrade(s, owner, 2, 10);
    assert u.storage.pings == s.pings;
    var p := Pong(u.storage, x, 15);
    assert p.storage.pings == map[y := 5];
    assert TotalSent(p.outcome.transfers) == 2;
  }
}
