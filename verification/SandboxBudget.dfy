/** `agent/sandbox_budget.py`: the lease that pays for a sandbox. It is sized so that it outlives the
    sandbox's own deadline, and its rate is no higher than the resources it was admitted for. */
module SandboxBudget {
  import opened Wrappers
  import opened Calendar
  import opened Ledger

  /** Provider prices in nano-dollars per second, for one CPU and for one GiB. */
  datatype Prices = Prices(cpu: nat, gib: nat)

  /** `sandbox_rate`, rounded up to a nano-dollar per second. */
  function SandboxRate(prices: Prices, cpu: nat, memoryMb: nat): nat {
    (cpu * prices.cpu * 1024 + memoryMb * prices.gib + 1023) / 1024
  }

  lemma SandboxRateAscends(prices: Prices, c1: nat, m1: nat, c2: nat, m2: nat)
    requires c1 <= c2 && m1 <= m2
    ensures SandboxRate(prices, c1, m1) <= SandboxRate(prices, c2, m2)
  {
    assert c1 * prices.cpu <= c2 * prices.cpu;
    assert m1 * prices.gib <= m2 * prices.gib;
  }

  /** The least whole number of nano-dollars per second that covers the processors, and the memory by its share of a GiB. */
  lemma SandboxRateIsCeiling(prices: Prices, cpu: nat, memoryMb: nat)
    ensures var r := SandboxRate(prices, cpu, memoryMb);
            1024 * (r - 1) < 1024 * (cpu * prices.cpu) + memoryMb * prices.gib <= 1024 * r
  {
    assert cpu * prices.cpu * 1024 == 1024 * (cpu * prices.cpu);
  }

  /** The provider's view of an existing sandbox. */
  datatype Info = Info(cpu: nat, memoryMb: nat, running: bool, endAt: nat, autoResume: bool)

  datatype LeaseError = NoProject | InvalidCost | AutoResume | TooLarge | TooLong | InvalidCeiling | NotAdmitted(error: Error)

  /** Prices and resources that have a cost at all. */
  predicate Priced(prices: Prices, cpu: int, memoryMb: int) {
    prices.cpu > 0 && prices.gib > 0 && cpu > 0 && memoryMb > 0
  }

  /** Seconds the lease lasts: the requested timeout or what is left of a running deadline, plus a minute. */
  function LeaseSeconds(timeout: nat, info: Option<Info>, now: nat): nat {
    var remaining := if info.Some? && info.value.running then Max(0, info.value.endAt - now) else 0;
    Max(timeout, remaining / SECOND + 1) + 60
  }

  /** A lease sized at `sized` and recorded at `reserved` outlives every deadline the provider can set:
      connecting or creating within a minute only extends the deadline to `timeout` from then. */
  lemma LeaseOutlivesDeadline(timeout: nat, info: Option<Info>, sized: nat, reserved: nat, connected: nat, endAt: nat)
    requires sized <= reserved <= connected <= reserved + 60 * SECOND
    requires endAt <= connected + timeout * SECOND
             || (info.Some? && info.value.running && endAt <= info.value.endAt)
    ensures endAt <= reserved + LeaseSeconds(timeout, info, sized) * SECOND
  {
    if info.Some? && info.value.running && endAt <= info.value.endAt {
      var remaining := Max(0, info.value.endAt - sized);
      assert remaining < (remaining / SECOND + 1) * SECOND;
    }
  }

  /** Apart from the spare minute, a lease is as short as a whole number of seconds can be that lasts the requested
      timeout and past the deadline that a running sandbox already has. */
  lemma LeaseIsNoLongerThanNeeded(timeout: nat, info: Option<Info>, now: nat)
    ensures var s := LeaseSeconds(timeout, info, now) - 60;
            && s >= timeout && s >= 1
            && (info.Some? && info.value.running ==> info.value.endAt < now + s * SECOND)
            && (s > timeout && s > 1 ==> info.Some? && info.value.running && now + (s - 1) * SECOND <= info.value.endAt)
  {
  }

  lemma WholeSecondsCostExactly(rate: nat, seconds: nat)
    ensures RoundedCost(rate, seconds * SECOND) == rate * seconds
  {
    assert rate * (seconds * SECOND) == rate * seconds * SECOND;
  }

  class Lessor {
    const ledger: SpendLedger
    const prices: Prices
    const maxCpu: int
    const maxMemoryMb: int

    constructor (ledger: SpendLedger, prices: Prices, maxCpu: int, maxMemoryMb: int)
      ensures this.ledger == ledger && this.prices == prices
      ensures this.maxCpu == maxCpu && this.maxMemoryMb == maxMemoryMb
    {
      this.ledger := ledger;
      this.prices := prices;
      this.maxCpu := maxCpu;
      this.maxMemoryMb := maxMemoryMb;
    }

    /** `reserve_runtime`: the new lease holds its rate for every second of its length, which is what
        later settlements and confirmations draw on. */
    method ReserveRuntime(owner: Option<nat>, account: Option<Account>, timeout: nat, previous: Option<nat>,
                          info: Option<Info>, sized: nat, now: nat) returns (r: Result<nat, LeaseError>)
      requires ledger.Valid(now) && sized <= now
      modifies ledger
      ensures ledger.Valid(now)
      ensures r.Err? ==> ledger.entries == old(ledger.entries)
      ensures r.Ok? ==>
        var seconds := LeaseSeconds(timeout, info, sized);
        && |ledger.entries| == |old(ledger.entries)| + 1 && r.value == |old(ledger.entries)|
        && var e := ledger.entries[r.value];
        && e.kind.Sandbox? && e.state == Reserved && owner == Some(e.user)
        && e.starts == now && e.ends == now + seconds * SECOND
        && e.amount == e.kind.rate * seconds == e.RuntimeAmount(e.ends)
        && maxCpu >= 1 && maxMemoryMb >= 128
        && e.kind.rate <= SandboxRate(prices, maxCpu, maxMemoryMb)
        && (info.Some? ==> !info.value.autoResume)
        && (info.Some? ==> e.kind.rate == SandboxRate(prices, info.value.cpu, info.value.memoryMb))
        && (previous.Some? ==> previous.value < |old(ledger.entries)| && ledger.entries[previous.value].state == Settled)
      ensures r == Err(AutoResume) ==> info.Some? && info.value.autoResume
      ensures r.Ok? ==> Priced(prices, maxCpu, maxMemoryMb) && (info.Some? ==> Priced(prices, info.value.cpu, info.value.memoryMb))
      ensures r == Err(InvalidCost) ==> !Priced(prices, maxCpu, maxMemoryMb)
                                        || (info.Some? && !Priced(prices, info.value.cpu, info.value.memoryMb))
      ensures r.Ok? && info.None? ==> ledger.entries[r.value].kind.rate == SandboxRate(prices, maxCpu, maxMemoryMb)
      ensures r == Err(NoProject) <==> owner.None?
      ensures r == Err(InvalidCeiling) <==> owner.Some? && (maxCpu < 1 || maxMemoryMb < 128)
      ensures r == Err(TooLarge) ==>
        && info.Some? && Priced(prices, info.value.cpu, info.value.memoryMb) && maxCpu >= 1 && maxMemoryMb >= 128
        && SandboxRate(prices, info.value.cpu, info.value.memoryMb) > SandboxRate(prices, maxCpu, maxMemoryMb)
      ensures r == Err(TooLong) ==> LeaseSeconds(timeout, info, sized) >= 86400
      ensures r.Err? && r.error.NotAdmitted? ==>
        var seconds := LeaseSeconds(timeout, info, sized);
        && owner.Some? && seconds < 86400 && maxCpu >= 1 && maxMemoryMb >= 128
        && var rate := if info.Some? then SandboxRate(prices, info.value.cpu, info.value.memoryMb)
                       else SandboxRate(prices, maxCpu, maxMemoryMb);
           !Admissible(ledger.entries, ledger.limits, owner.value, account, Sandbox(rate), rate * seconds, seconds * SECOND, previous, now)
    {
      if owner.None? {
        return Err(NoProject);
      }
      if maxCpu < 1 || maxMemoryMb < 128 {
        return Err(InvalidCeiling);
      }
      if !Priced(prices, maxCpu, maxMemoryMb) {
        return Err(InvalidCost);
      }
      var rate := SandboxRate(prices, maxCpu, maxMemoryMb);
      if info.Some? {
        if info.value.autoResume {
          return Err(AutoResume);
        }
        if !Priced(prices, info.value.cpu, info.value.memoryMb) {
          return Err(InvalidCost);
        }
        var actual := SandboxRate(prices, info.value.cpu, info.value.memoryMb);
        if actual > rate {
          return Err(TooLarge);
        }
        rate := actual;
      }
      var seconds := LeaseSeconds(timeout, info, sized);
      if seconds >= 86400 {
        return Err(TooLong);
      }
      WholeSecondsCostExactly(rate, seconds);
      var entry := ledger.Reserve(owner.value, account, Sandbox(rate), rate * seconds, seconds * SECOND, previous, now);
      if entry.Err? {
        return Err(NotAdmitted(entry.error));
      }
      r := Ok(entry.value);
    }

    /** `confirm_runtime`, whose rate is that of the sandbox as the provider reports it. */
    method ConfirmRuntime(id: nat, info: Info) returns (r: Result<(), LeaseError>)
      modifies ledger
      ensures r == Err(InvalidCost) <==> !Priced(prices, info.cpu, info.memoryMb)
      ensures ledger.entries == if r == Err(InvalidCost) then old(ledger.entries)
                                else AfterConfirm(old(ledger.entries), id, SandboxRate(prices, info.cpu, info.memoryMb), info.endAt)
      ensures r.Ok? || r == Err(NotAdmitted(Exceeded)) ==>
        && id < |old(ledger.entries)| == |ledger.entries|
        && var e, f := old(ledger.entries)[id], ledger.entries[id];
        && ledger.entries == old(ledger.entries)[id := f]
        && f.kind == Sandbox(SandboxRate(prices, info.cpu, info.memoryMb)) && f.state == Reserved
        && f.starts == e.starts && f.ends == Max(e.starts, info.endAt) && f.PaidByTime()
      ensures r == Err(NotAdmitted(Exceeded)) ==>
        && id < |old(ledger.entries)| && old(ledger.entries)[id].kind.Sandbox?
        && (SandboxRate(prices, info.cpu, info.memoryMb) > old(ledger.entries)[id].kind.rate || info.endAt > old(ledger.entries)[id].ends)
    {
      if !Priced(prices, info.cpu, info.memoryMb) {
        return Err(InvalidCost);
      }
      var confirmed := ledger.Confirm(id, SandboxRate(prices, info.cpu, info.memoryMb), info.endAt);
      r := if confirmed.Ok? then Ok(()) else Err(NotAdmitted(confirmed.error));
    }
  }
}
