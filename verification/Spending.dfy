/** The calls that `agent/model_budget.py` and `agent/sandbox_budget.py` make on the ledger, over whole runs: with a
    provider that keeps to what was reserved for, they are all within the hypothesis of the allowance theorem. */
module Spending {
  import opened Wrappers
  import opened Ledger
  import opened LedgerRuns
  import opened ModelBudget
  import opened SandboxBudget

  /** What an entry was reserved for. */
  datatype Ticket =
    | Model(rates: Rates, inputBound: int, outputLimit: int)
    | Lease(prices: Prices, cpu: nat, memoryMb: nat, timeout: nat, before: Option<Info>, sized: nat, at: nat, confirmed: bool)

  datatype Call =
    | AskModel(user: nat, account: Option<Account>, rates: Rates, inputBound: nat, outputLimit: nat, now: nat)
    | ModelAnswered(id: nat, usage: Option<Usage>, now: nat)
    | Rent(user: nat, account: Option<Account>, lease: Ticket, previous: Option<nat>, now: nat)
    | ConfirmRent(id: nat, info: Info, connected: nat, now: nat)
    | EndRent(id: nat, rejected: bool, now: nat)

  /** The entries and what each was reserved for. */
  datatype Books = Books(entries: seq<Entry>, tickets: seq<Ticket>)

  function RateOf(t: Ticket): nat
    requires t.Lease?
  {
    SandboxRate(t.prices, t.cpu, t.memoryMb)
  }

  /** The ledger operation of a call, if it makes one: an unusable usage report makes none. */
  function OpOf(b: Books, c: Call): Option<Op> {
    match c
    case AskModel(user, account, rates, inputBound, outputLimit, now) =>
      Some(Reserve(user, account, ModelCall, Bound(rates, inputBound, outputLimit), REQUEST_SECONDS * SECOND, None, now))
    case ModelAnswered(id, usage, now) =>
      // No usage stands for an explicit rejection.
      if usage.None? then Some(Settle(id, Some(0), now))
      else if id >= |b.tickets| || !b.tickets[id].Model? || ChargedUsage(usage.value).None? then None
      else
        var (inputs, outputs, cached, written) := ChargedUsage(usage.value).value;
        Some(Settle(id, Some(ModelCost(b.tickets[id].rates, inputs, outputs, cached, written)), now))
    case Rent(user, account, lease, previous, now) =>
      if !lease.Lease? then None
      else
        var seconds := LeaseSeconds(lease.timeout, lease.before, lease.sized);
        Some(Reserve(user, account, Sandbox(RateOf(lease)), RateOf(lease) * seconds, seconds * SECOND, previous, now))
    case ConfirmRent(id, info, _, now) =>
      if id >= |b.tickets| || !b.tickets[id].Lease? then None
      else Some(Confirm(id, SandboxRate(b.tickets[id].prices, info.cpu, info.memoryMb), info.endAt, now))
    case EndRent(id, rejected, now) => Some(Settle(id, if rejected then Some(0) else None, now))
  }

  function TicketOf(c: Call): Ticket {
    match c
    case AskModel(_, _, rates, inputBound, outputLimit, _) => Model(rates, inputBound, outputLimit)
    case Rent(_, _, lease, _, _) => lease
    case _ => Model(Rates(0, 0, 0, 0), 0, 0)
  }

  ghost function AfterCall(b: Books, limits: Limits, c: Call): Books {
    var op := OpOf(b, c);
    if op.None? then b
    else
      var entries := Step(b.entries, limits, op.value);
      Books(entries,
            if |entries| > |b.entries| then b.tickets + [TicketOf(c)]
            else if c.ConfirmRent? then b.tickets[c.id := b.tickets[c.id].(confirmed := true)]
            else b.tickets)
  }

  ghost function AfterCalls(b: Books, limits: Limits, calls: seq<Call>): Books {
    if calls == [] then b else AfterCall(AfterCalls(b, limits, calls[..|calls| - 1]), limits, calls[|calls| - 1])
  }

  /** The provider keeps to what was reserved for: no more tokens than asked for, no larger sandbox than the lease
      was sized for, no deadline beyond the timeout from a connect within the minute or the one that was there, and
      each lease is confirmed once. The clock does not go back. */
  ghost predicate Honest(b: Books, c: Call) {
    && StartedBy(b.entries, c.now)
    && match c
       case AskModel(_, _, _, _, _, _) => true
       case ModelAnswered(id, usage, _) =>
         id < |b.tickets| && b.tickets[id].Model?
         && (usage.Some? && usage.value.inputs.Some? ==> usage.value.inputs.value <= b.tickets[id].inputBound)
         && (usage.Some? && usage.value.outputs.Some? ==> usage.value.outputs.value <= b.tickets[id].outputLimit)
       case Rent(_, _, lease, _, now) => lease.Lease? && !lease.confirmed && lease.at == now && lease.sized <= now
       case ConfirmRent(id, info, connected, _) =>
         id < |b.tickets| && b.tickets[id].Lease?
         && var t := b.tickets[id];
            && !t.confirmed && info.cpu <= t.cpu && info.memoryMb <= t.memoryMb
            && t.at <= connected <= t.at + 60 * SECOND
            && (info.endAt <= connected + t.timeout * SECOND
                || (t.before.Some? && t.before.value.running && info.endAt <= t.before.value.endAt))
       case EndRent(_, _, _) => true
  }

  ghost predicate HonestRun(b: Books, limits: Limits, calls: seq<Call>) {
    forall i :: 0 <= i < |calls| ==> Honest(AfterCalls(b, limits, calls[..i]), calls[i])
  }

  /** A live entry still is what its ticket says. */
  predicate Agrees(e: Entry, t: Ticket) {
    e.state == Reserved ==>
      match t
      case Model(rates, inputBound, outputLimit) => e.kind == ModelCall && e.amount == Bound(rates, inputBound, outputLimit)
      case Lease(_, _, _, timeout, before, sized, at, confirmed) =>
        && e.kind.Sandbox?
        && (!confirmed ==> && e.kind.rate == RateOf(t) && e.starts == at && sized <= at
                           && e.ends == at + LeaseSeconds(timeout, before, sized) * SECOND)
  }

  ghost predicate BooksAgree(b: Books) {
    |b.entries| == |b.tickets| && forall i :: 0 <= i < |b.entries| ==> Agrees(b.entries[i], b.tickets[i])
  }

  // ----- The calls are tame -----------------------------------------------------------------------------------

  lemma AnswerIsTame(b: Books, id: nat, usage: Option<Usage>, now: nat)
    requires BooksAgree(b) && Honest(b, ModelAnswered(id, usage, now)) && b.entries[id].state == Reserved
    ensures var op := OpOf(b, ModelAnswered(id, usage, now)); op.Some? ==> op.value.cost.value <= b.entries[id].amount
  {
    var t := b.tickets[id];
    assert Agrees(b.entries[id], t);
    if usage.Some? && ChargedUsage(usage.value).Some? {
      ReportedUsageIsCovered(usage.value, Reservation(id, t.rates, t.inputBound, t.outputLimit));
    }
  }

  lemma ConfirmationIsTame(b: Books, id: nat, info: Info, connected: nat, now: nat)
    requires BooksAgree(b) && Honest(b, ConfirmRent(id, info, connected, now)) && b.entries[id].state == Reserved
    ensures var t := b.tickets[id];
            b.entries[id].kind.Sandbox? && SandboxRate(t.prices, info.cpu, info.memoryMb) <= b.entries[id].kind.rate
            && info.endAt <= b.entries[id].ends
  {
    var t := b.tickets[id];
    assert Agrees(b.entries[id], t);
    SandboxRateAscends(t.prices, info.cpu, info.memoryMb, t.cpu, t.memoryMb);
    LeaseOutlivesDeadline(t.timeout, t.before, t.sized, t.at, connected, info.endAt);
  }

  /** Where the entry is no longer reserved, a settlement does nothing, whatever its amount. */
  function Harmless(b: Books, op: Op): Op {
    if op.Settle? && op.id < |b.entries| && b.entries[op.id].state == Settled then Settle(op.id, Some(0), op.now) else op
  }

  lemma HarmlessIsTheSame(b: Books, limits: Limits, op: Op)
    ensures Step(b.entries, limits, Harmless(b, op)) == Step(b.entries, limits, op)
  {
  }

  lemma HonestIsTame(b: Books, c: Call)
    requires BooksAgree(b) && Honest(b, c) && OpOf(b, c).Some?
    ensures Tame(b.entries, Harmless(b, OpOf(b, c).value))
  {
    match c
    case AskModel(_, _, _, _, _, _) =>
    case ModelAnswered(id, usage, now) =>
      if b.entries[id].state == Reserved { AnswerIsTame(b, id, usage, now); }
    case Rent(_, _, lease, _, _) =>
      WholeSecondsCostExactly(RateOf(lease), LeaseSeconds(lease.timeout, lease.before, lease.sized));
    case ConfirmRent(id, info, connected, now) =>
      if b.entries[id].state == Reserved { ConfirmationIsTame(b, id, info, connected, now); }
    case EndRent(_, _, _) =>
  }

  // ----- The books stay in agreement --------------------------------------------------------------------------

  /** Entries other than the one that the operation names stay as they are. */
  lemma OthersStay(es: seq<Entry>, limits: Limits, op: Op, i: nat)
    requires i < |es|
    requires if op.Reserve? then op.replace != Some(i) else op.id != i
    ensures i < |Step(es, limits, op)| && Step(es, limits, op)[i] == es[i]
  {
  }

  /** A settled or replaced entry is no longer live, or was not touched. */
  lemma TouchedIsSettled(es: seq<Entry>, limits: Limits, op: Op, i: nat)
    requires i < |es| && (if op.Reserve? then op.replace == Some(i) else op.Settle? && op.id == i)
    ensures i < |Step(es, limits, op)| && (Step(es, limits, op)[i] == es[i] || Step(es, limits, op)[i].state == Settled)
  {
  }

  lemma ReservationAgrees(b: Books, limits: Limits, c: Call)
    requires Honest(b, c) && OpOf(b, c).Some? && OpOf(b, c).value.Reserve?
    ensures var es := Step(b.entries, limits, OpOf(b, c).value);
            |es| > |b.entries| ==> |es| == |b.entries| + 1 && Agrees(es[|b.entries|], TicketOf(c))
  {
    if c.AskModel? {
      BoundCoversUsage(c.rates, 0, 0, 0, None, c.inputBound, c.outputLimit);
    }
  }

  lemma CallKeepsBooks(b: Books, limits: Limits, c: Call)
    requires BooksAgree(b) && Honest(b, c)
    ensures BooksAgree(AfterCall(b, limits, c))
  {
    var op := OpOf(b, c);
    if op.Some? {
      var a := AfterCall(b, limits, c);
      if op.value.Reserve? { ReservationAgrees(b, limits, c); }
      forall i | 0 <= i < |b.entries|
        ensures i < |a.entries| && Agrees(a.entries[i], a.tickets[i])
      {
        EntryKeepsAgreeing(b, limits, c, i);
      }
    }
  }

  lemma EntryKeepsAgreeing(b: Books, limits: Limits, c: Call, i: nat)
    requires BooksAgree(b) && Honest(b, c) && OpOf(b, c).Some? && i < |b.entries|
    ensures var a := AfterCall(b, limits, c);
            i < |a.entries| && i < |a.tickets| && Agrees(a.entries[i], a.tickets[i])
  {
    var op := OpOf(b, c).value;
    assert Agrees(b.entries[i], b.tickets[i]);
    if op.Confirm? {
      if op.id != i { OthersStay(b.entries, limits, op, i); }
    } else if if op.Reserve? then op.replace == Some(i) else op.id == i {
      TouchedIsSettled(b.entries, limits, op, i);
    } else {
      OthersStay(b.entries, limits, op, i);
    }
  }

  // ----- Whole runs ---------------------------------------------------------------------------------------------

  predicate LimitedCall(c: Call, user: nat) {
    (c.AskModel? || c.Rent?) && c.user == user && c.account.Some? ==> !c.account.value.unlimited
  }

  /** The allowance theorem for what the builder really asks for: with an honest provider, no UTC day and no UTC month
      of a limited user is ever charged beyond its limit, over any run of model requests, leases and settlements. */
  lemma {:induction false} BuilderNeverOverspends(limits: Limits, calls: seq<Call>, user: nat)
    requires HonestRun(Books([], []), limits, calls)
    requires forall i :: 0 <= i < |calls| ==> LimitedCall(calls[i], user)
    ensures var b := AfterCalls(Books([], []), limits, calls);
            BooksAgree(b) && Sound(b.entries) && WithinLimits(b.entries, limits, user)
  {
    if calls == [] {
      assert forall n: nat :: Total([], user, Calendar.Day(n)) == 0;
      assert forall k: nat :: Total([], user, Calendar.Month(k)) == 0;
    } else {
      var init, c := calls[..|calls| - 1], calls[|calls| - 1];
      assert forall i :: 0 <= i < |init| ==> init[..i] == calls[..i];
      BuilderNeverOverspends(limits, init, user);
      var b := AfterCalls(Books([], []), limits, init);
      assert Honest(b, c);
      CallKeepsBooks(b, limits, c);
      CallStaysWithinLimits(b, limits, c, user);
    }
  }

  lemma CallStaysWithinLimits(b: Books, limits: Limits, c: Call, user: nat)
    requires BooksAgree(b) && Honest(b, c) && Sound(b.entries) && WithinLimits(b.entries, limits, user) && LimitedCall(c, user)
    ensures Sound(AfterCall(b, limits, c).entries) && WithinLimits(AfterCall(b, limits, c).entries, limits, user)
  {
    if OpOf(b, c).Some? {
      var op := OpOf(b, c).value;
      HonestIsTame(b, c);
      HarmlessIsTheSame(b, limits, op);
      StepKeepsSound(b.entries, limits, Harmless(b, op));
      StepStaysWithinLimits(b.entries, limits, Harmless(b, op), user);
    }
  }

  /** With an honest provider no model request costs more than it reserved. */
  lemma NoOverage(b: Books, id: nat, usage: Usage, now: nat)
    requires BooksAgree(b) && Honest(b, ModelAnswered(id, Some(usage), now)) && b.entries[id].state == Reserved
    requires ChargedUsage(usage).Some?
    ensures var (inputs, outputs, cached, written) := ChargedUsage(usage).value;
            ModelCost(b.tickets[id].rates, inputs, outputs, cached, written) <= b.entries[id].amount
  {
    AnswerIsTame(b, id, Some(usage), now);
  }

  /** What the calls that end an entry charge: the price of the reported prompt, nothing for a rejected request or
      creation, and the running time of a sandbox. */
  lemma EndingsCharge(b: Books, limits: Limits, c: Call)
    requires BooksAgree(b) && Sound(b.entries) && Honest(b, c) && (c.ModelAnswered? || c.EndRent?)
    requires c.id < |b.entries| && b.entries[c.id].state == Reserved && (c.EndRent? ==> b.entries[c.id].kind.Sandbox?)
    ensures var a := AfterCall(b, limits, c).entries;
            && |a| == |b.entries|
            && (c == EndRent(c.id, false, c.now) ==> a[c.id].state == Settled && a[c.id].PaidByTime())
            && (c == EndRent(c.id, true, c.now) || c == ModelAnswered(c.id, None, c.now) ==>
                  a[c.id].state == Settled && a[c.id].amount == 0)
    ensures var a := AfterCall(b, limits, c).entries;
            c.ModelAnswered? && c.usage.Some? ==>
              if !Usable(c.usage.value) then a == b.entries
              else && a[c.id].state == Settled
                   && forall prompt :: Reports(c.usage.value, prompt) ==>
                        Covers(a[c.id].amount, Price(b.tickets[c.id].rates, prompt, c.usage.value.outputs.value))
  {
    var e := b.entries[c.id];
    assert Agrees(e, b.tickets[c.id]);
    if c.EndRent? {
      if !c.rejected { RuntimeIsPaidByTime(e, c.now); }
    } else if c.usage.Some? && Usable(c.usage.value) {
      AnswerCharges(b, limits, c);
    }
  }

  /** A confirmation replaces the hold by that of the reported size and deadline. */
  lemma ConfirmationHolds(b: Books, limits: Limits, c: Call)
    requires BooksAgree(b) && Sound(b.entries) && Honest(b, c) && c.ConfirmRent? && b.entries[c.id].state == Reserved
    ensures var a, t := AfterCall(b, limits, c).entries, b.tickets[c.id];
            && a == b.entries[c.id := a[c.id]] && a[c.id].state == Reserved && a[c.id].PaidByTime()
            && a[c.id].kind == Sandbox(SandboxRate(t.prices, c.info.cpu, c.info.memoryMb))
            && a[c.id].ends == Max(b.entries[c.id].starts, c.info.endAt)
  {
    var e, t := b.entries[c.id], b.tickets[c.id];
    assert Agrees(e, t);
    RoundedCostIsCeiling(SandboxRate(t.prices, c.info.cpu, c.info.memoryMb), Max(e.starts, c.info.endAt) - e.starts);
  }

  lemma AnswerCharges(b: Books, limits: Limits, c: Call)
    requires c.ModelAnswered? && c.usage.Some? && Usable(c.usage.value)
    requires c.id < |b.entries| == |b.tickets| && b.entries[c.id].state == Reserved && b.tickets[c.id].Model?
    ensures var a := AfterCall(b, limits, c).entries;
            && |a| == |b.entries| && a[c.id].state == Settled
            && forall prompt :: Reports(c.usage.value, prompt) ==>
                 Covers(a[c.id].amount, Price(b.tickets[c.id].rates, prompt, c.usage.value.outputs.value))
  {
    var t := b.tickets[c.id];
    SettlementIsThePrice(Reservation(c.id, t.rates, t.inputBound, t.outputLimit), 200, true, c.usage);
    var prompt := UsableReportsDescribeAPrompt(c.usage.value);
  }
}
