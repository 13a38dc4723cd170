/** What holds of the spend ledger over whole runs: no limited user ever overspends a UTC day or
    month, and a rolled lease is charged its exact running time, to within a nano-dollar a lease. */
module LedgerRuns {
  import opened Wrappers
  import opened Calendar
  import opened Ledger

  /** One committed call, at the instant the transaction reads the clock. */
  datatype Op =
    | Reserve(user: nat, account: Option<Account>, kind: Kind, amount: int, duration: int, replace: Option<nat>, now: nat)
    | Settle(id: nat, cost: Option<int>, now: nat)
    | Confirm(id: nat, rate: nat, endAt: nat, now: nat)

  /** The effect of a call: `SpendLedger.Reserve`, `Settle` and `Confirm`. */
  ghost function Step(es: seq<Entry>, limits: Limits, op: Op): seq<Entry> {
    match op
    case Reserve(user, account, kind, amount, duration, replace, now) =>
      if Admissible(es, limits, user, account, kind, amount, duration, replace, now)
      then WithReservation(es, user, kind, amount, duration, replace, now)
      else es
    case Settle(id, cost, now) => AfterSettle(es, id, cost, now)
    case Confirm(id, rate, endAt, _) => AfterConfirm(es, id, rate, endAt)
  }

  ghost function Run(es: seq<Entry>, limits: Limits, ops: seq<Op>): seq<Entry> {
    if ops == [] then es else Step(Run(es, limits, ops[..|ops| - 1]), limits, ops[|ops| - 1])
  }

  ghost predicate Sound(es: seq<Entry>) {
    forall i :: 0 <= i < |es| ==> es[i].Sound()
  }

  ghost predicate StartedBy(es: seq<Entry>, now: int) {
    forall i :: 0 <= i < |es| ==> es[i].starts <= now
  }

  /** The clock does not go back, a sandbox reservation holds its rate for its whole duration (as
      `reserve_runtime` asks), no settlement exceeds its hold and no confirmation raises the rate
      or the deadline of a lease. */
  ghost predicate Tame(es: seq<Entry>, op: Op) {
    && StartedBy(es, op.now)
    && match op
       case Reserve(_, _, kind, amount, duration, _, _) =>
         kind.Sandbox? && 0 <= amount && 0 <= duration ==> RoundedCost(kind.rate, duration) <= amount
       case Settle(id, cost, _) =>
         id < |es| && cost.Some? ==> cost.value <= es[id].amount
       case Confirm(id, rate, endAt, _) =>
         Replaceable(es, if id < |es| then es[id].user else 0, Some(id)) ==> rate <= es[id].kind.rate && endAt <= es[id].ends
  }

  ghost predicate TameRun(es: seq<Entry>, limits: Limits, ops: seq<Op>) {
    forall i :: 0 <= i < |ops| ==> Tame(Run(es, limits, ops[..i]), ops[i])
  }

  /** `user` is never treated as unlimited. */
  predicate Limited(op: Op, user: nat) {
    op.Reserve? && op.user == user && op.account.Some? ==> !op.account.value.unlimited
  }

  ghost predicate WithinLimits(es: seq<Entry>, limits: Limits, user: nat) {
    && (forall n: nat :: Total(es, user, Day(n)) <= limits.daily)
    && (forall k: nat :: Total(es, user, Month(k)) <= limits.monthly)
  }

  lemma WithinEachLimit(es: seq<Entry>, limits: Limits, user: nat)
    ensures WithinLimits(es, limits, user) <==> forall p: Period :: Total(es, user, p) <= limits.Of(p.Month?)
  {
    if forall p: Period :: Total(es, user, p) <= limits.Of(p.Month?) {
      forall n: nat ensures Total(es, user, Day(n)) <= limits.daily { assert Total(es, user, Day(n)) <= limits.Of(false); }
      forall k: nat ensures Total(es, user, Month(k)) <= limits.monthly { assert Total(es, user, Month(k)) <= limits.Of(true); }
    }
  }

  // ----- Entries only ever shrink ----------------------------------------------------------------

  /** `b` is `a` with no higher amount over no longer an interval. */
  predicate Shrunk(a: Entry, b: Entry) {
    b.user == a.user && b.amount <= a.amount && b.starts == a.starts && b.ends <= a.ends && b.Sound()
  }

  lemma SettlingShrinks(e: Entry, now: nat, cost: nat)
    requires e.Sound() && e.starts <= now && cost <= e.amount
    ensures Shrunk(e, e.SettledAt(now, cost))
  {
  }

  /** Running time is never charged more than is held. */
  lemma RuntimeIsHeld(e: Entry, at: int)
    requires e.Sound() && e.kind.Sandbox? && e.state == Reserved
    ensures e.RuntimeAmount(at) <= e.amount
  {
    RoundedCostAscends(e.kind.rate, Max(0, Min(at, e.ends) - e.starts), e.kind.rate, Max(0, e.ends - e.starts));
  }

  lemma ConfirmingShrinks(es: seq<Entry>, id: nat, rate: nat, endAt: nat)
    requires Sound(es) && id < |es| && es[id].state == Reserved && es[id].kind.Sandbox?
    requires rate <= es[id].kind.rate && endAt <= es[id].ends
    ensures Shrunk(es[id], AfterConfirm(es, id, rate, endAt)[id])
  {
    var e := es[id];
    var f := AfterConfirm(es, id, rate, endAt)[id];
    RoundedCostAscends(rate, Max(0, f.ends - f.starts), e.kind.rate, Max(0, e.ends - e.starts));
  }

  /** Every step keeps the entries it does not add no larger than they were. */
  lemma StepShrinks(es: seq<Entry>, limits: Limits, op: Op, i: nat)
    requires Sound(es) && Tame(es, op) && i < |es|
    ensures |es| <= |Step(es, limits, op)| && Shrunk(es[i], Step(es, limits, op)[i])
  {
    match op
    case Reserve(user, account, kind, amount, duration, replace, now) =>
      if replace.Some? && replace.value == i && Replaceable(es, user, replace) {
        RuntimeIsHeld(es[i], now);
        SettlingShrinks(es[i], now, es[i].RuntimeAmount(now));
      }
    case Settle(id, cost, now) =>
      if id == i && es[i].state == Reserved {
        if cost.None? && es[i].kind.Sandbox? { RuntimeIsHeld(es[i], now); }
      }
    case Confirm(id, rate, endAt, now) =>
      if id == i && es[i].state == Reserved && es[i].kind.Sandbox? {
        ConfirmingShrinks(es, id, rate, endAt);
      }
  }

  lemma StepKeepsSound(es: seq<Entry>, limits: Limits, op: Op)
    requires Sound(es) && Tame(es, op)
    ensures Sound(Step(es, limits, op))
  {
    var next := Step(es, limits, op);
    forall i | 0 <= i < |next|
      ensures next[i].Sound()
    {
      if i < |es| { StepShrinks(es, limits, op, i); }
    }
  }

  lemma {:induction false} ShrinkingLowersUsed(es: seq<Entry>, fs: seq<Entry>, user: nat, start: int, finish: int)
    requires |es| == |fs| && forall i :: 0 <= i < |es| ==> Shrunk(es[i], fs[i])
    ensures Used(fs, user, start, finish, None) <= Used(es, user, start, finish, None)
  {
    if es != [] {
      ShrinkingLowersUsed(es[..|es| - 1], fs[..|es| - 1], user, start, finish);
    }
  }

  lemma StepStaysWithinLimits(es: seq<Entry>, limits: Limits, op: Op, user: nat)
    requires Sound(es) && Tame(es, op) && Limited(op, user) && WithinLimits(es, limits, user)
    ensures WithinLimits(Step(es, limits, op), limits, user)
  {
    var next := Step(es, limits, op);
    WithinEachLimit(es, limits, user);
    WithinEachLimit(next, limits, user);
    forall p: Period
      ensures Total(next, user, p) <= limits.Of(p.Month?)
    {
      forall i | 0 <= i < |es|
        ensures |es| <= |next| && Shrunk(es[i], next[i])
      {
        StepShrinks(es, limits, op, i);
      }
      if |next| == |es| {
        ShrinkingLowersUsed(es, next, user, p.Start(), p.Finish());
      } else {
        var e := next[|es|];
        assert next == next[..|es|] + [e];
        ShrinkingLowersUsed(es, next[..|es|], user, p.Start(), p.Finish());
        UsedAfterAppend(next[..|es|], e, user, p.Start(), p.Finish());
      }
    }
  }

  /** The allowance theorem: over any interleaving of reservations, replacements, confirmations and
      settlements, no UTC day and no UTC month of a limited user is ever charged beyond its limit. */
  lemma {:induction false} NeverOverspends(es: seq<Entry>, limits: Limits, ops: seq<Op>, user: nat)
    requires Sound(es) && WithinLimits(es, limits, user)
    requires TameRun(es, limits, ops)
    requires forall i :: 0 <= i < |ops| ==> Limited(ops[i], user)
    ensures Sound(Run(es, limits, ops)) && WithinLimits(Run(es, limits, ops), limits, user)
  {
    if ops != [] {
      var init, op := ops[..|ops| - 1], ops[|ops| - 1];
      assert forall i :: 0 <= i < |init| ==> init[..i] == ops[..i];
      NeverOverspends(es, limits, init, user);
      assert Tame(Run(es, limits, init), op);
      StepKeepsSound(Run(es, limits, init), limits, op);
      StepStaysWithinLimits(Run(es, limits, init), limits, op, user);
    }
  }

  // ----- Settled entries and lease chains ----------------------------------------------------------

  /** A settled entry never changes again, whatever is called on it. */
  lemma SettledIsFinal(es: seq<Entry>, limits: Limits, op: Op, i: nat)
    requires i < |es| && es[i].state == Settled
    ensures |Step(es, limits, op)| >= |es| && Step(es, limits, op)[i] == es[i]
  {
  }

  /** The ids of the leases rolled forward, one from the other, starting with `chain[0]`. */
  ghost function Extend(es: seq<Entry>, limits: Limits, chain: seq<nat>, op: Op): seq<nat>
    requires chain != []
  {
    if op.Reserve? && op.replace == Some(chain[|chain| - 1])
       && Admissible(es, limits, op.user, op.account, op.kind, op.amount, op.duration, op.replace, op.now)
    then chain + [|es|]
    else chain
  }

  ghost function ChainAfter(es: seq<Entry>, limits: Limits, first: nat, ops: seq<Op>): (c: seq<nat>)
    ensures c != []
  {
    if ops == [] then [first]
    else Extend(Run(es, limits, ops[..|ops| - 1]), limits, ChainAfter(es, limits, first, ops[..|ops| - 1]), ops[|ops| - 1])
  }

  /** Charged by the microsecond, rounded up once. */
  predicate ExactlyCharged(e: Entry) {
    e.kind.Sandbox? && e.state == Settled && e.starts <= e.ends && e.amount == RoundedCost(e.kind.rate, e.ends - e.starts)
  }

  /** Every lease of the chain but the last is settled for exactly its running time, and ends
      before the next begins. */
  ghost predicate Rolling(es: seq<Entry>, chain: seq<nat>) {
    && (forall j :: 0 <= j < |chain| ==> chain[j] < |es|)
    && (forall j :: 0 <= j < |chain| - 1 ==>
          ExactlyCharged(es[chain[j]]) && es[chain[j]].ends <= es[chain[j + 1]].starts)
  }

  lemma StepKeepsRolling(es: seq<Entry>, limits: Limits, op: Op, chain: seq<nat>)
    requires Sound(es) && Tame(es, op) && chain != [] && Rolling(es, chain)
    ensures Rolling(Step(es, limits, op), Extend(es, limits, chain, op))
  {
    var next, chain' := Step(es, limits, op), Extend(es, limits, chain, op);
    forall j | 0 <= j < |chain|
      ensures chain[j] < |next| && next[chain[j]].starts == es[chain[j]].starts
    {
      StepShrinks(es, limits, op, chain[j]);
    }
    forall j | 0 <= j < |chain'| - 1
      ensures ExactlyCharged(next[chain'[j]]) && next[chain'[j]].ends <= next[chain'[j + 1]].starts
    {
      if j < |chain| - 1 {
        SettledIsFinal(es, limits, op, chain[j]);
      }
    }
  }

  /** Over any run, a lease rolled forward any number of times is settled interval by interval:
      the intervals follow each other and each costs its rate for its length, rounded up. */
  lemma {:induction false} LeasesRollForward(es: seq<Entry>, limits: Limits, ops: seq<Op>, first: nat)
    requires Sound(es) && first < |es| && TameRun(es, limits, ops)
    ensures Sound(Run(es, limits, ops))
    ensures Rolling(Run(es, limits, ops), ChainAfter(es, limits, first, ops))
  {
    if ops != [] {
      var init, op := ops[..|ops| - 1], ops[|ops| - 1];
      assert forall i :: 0 <= i < |init| ==> init[..i] == ops[..i];
      LeasesRollForward(es, limits, init, first);
      assert Tame(Run(es, limits, init), op);
      StepKeepsSound(Run(es, limits, init), limits, op);
      StepKeepsRolling(Run(es, limits, init), limits, op, ChainAfter(es, limits, first, init));
    }
  }

  /** No two settled intervals of a chain overlap. */
  lemma {:induction false} SettledLeasesAreDisjoint(es: seq<Entry>, chain: seq<nat>, i: nat, j: nat)
    requires Rolling(es, chain) && i < j < |chain|
    ensures es[chain[i]].ends <= es[chain[j]].starts
  {
    if i < j - 1 {
      SettledLeasesAreDisjoint(es, chain, i, j - 1);
    }
  }

  function Charged(es: seq<Entry>, chain: seq<nat>): (n: nat)
    requires forall j :: 0 <= j < |chain| ==> chain[j] < |es|
  {
    if chain == [] then 0 else Charged(es, chain[..|chain| - 1]) + es[chain[|chain| - 1]].amount
  }

  /** Rate times running time, in nano-dollars times microseconds per second. */
  function ExactCost(es: seq<Entry>, chain: seq<nat>): (n: int)
    requires forall j :: 0 <= j < |chain| ==> chain[j] < |es| && es[chain[j]].kind.Sandbox?
  {
    if chain == [] then 0
    else var e := es[chain[|chain| - 1]]; ExactCost(es, chain[..|chain| - 1]) + e.kind.rate * (e.ends - e.starts)
  }

  /** The total charged for rolled leases is at least their exact cost, and less than one
      nano-dollar per lease above it. */
  lemma {:induction false} RoundingIsBounded(es: seq<Entry>, chain: seq<nat>)
    requires forall j :: 0 <= j < |chain| ==> chain[j] < |es| && es[chain[j]].kind.Sandbox?
    requires forall j :: 0 <= j < |chain| ==> ExactlyCharged(es[chain[j]])
    ensures ExactCost(es, chain) <= Charged(es, chain) * SECOND <= ExactCost(es, chain) + |chain| * SECOND
    ensures chain != [] ==> Charged(es, chain) * SECOND < ExactCost(es, chain) + |chain| * SECOND
  {
    if chain != [] {
      var e := es[chain[|chain| - 1]];
      RoundingIsBounded(es, chain[..|chain| - 1]);
      RoundedCostIsCeiling(e.kind.rate, e.ends - e.starts);
    }
  }

  /** Rolling a lease never charges more than it held. */
  lemma RollChargesAtMostTheHold(es: seq<Entry>, limits: Limits, op: Op)
    requires Sound(es) && Tame(es, op) && op.Reserve? && op.replace.Some?
    requires Admissible(es, limits, op.user, op.account, op.kind, op.amount, op.duration, op.replace, op.now)
    ensures var i := op.replace.value;
            ExactlyCharged(Step(es, limits, op)[i]) && Step(es, limits, op)[i].amount <= es[i].amount
  {
    RuntimeIsHeld(es[op.replace.value], op.now);
  }

  /** Nothing is ever charged beyond what was reserved for it. */
  ghost predicate WithinHolds(es: seq<Entry>) {
    forall i :: 0 <= i < |es| ==> es[i].amount <= es[i].reserved
  }

  lemma StepStaysWithinHolds(es: seq<Entry>, limits: Limits, op: Op)
    requires Sound(es) && Tame(es, op) && WithinHolds(es)
    ensures WithinHolds(Step(es, limits, op))
  {
    var next := Step(es, limits, op);
    forall i | 0 <= i < |next|
      ensures next[i].amount <= next[i].reserved
    {
      if i < |es| {
        StepShrinks(es, limits, op, i);
        assert next[i].reserved == es[i].reserved;
      }
    }
  }

  lemma {:induction false} RunStaysWithinHolds(es: seq<Entry>, limits: Limits, ops: seq<Op>)
    requires Sound(es) && TameRun(es, limits, ops) && WithinHolds(es)
    ensures Sound(Run(es, limits, ops)) && WithinHolds(Run(es, limits, ops))
  {
    if ops != [] {
      var init, op := ops[..|ops| - 1], ops[|ops| - 1];
      assert forall i :: 0 <= i < |init| ==> init[..i] == ops[..i];
      RunStaysWithinHolds(es, limits, init);
      assert Tame(Run(es, limits, init), op);
      StepKeepsSound(Run(es, limits, init), limits, op);
      StepStaysWithinHolds(Run(es, limits, init), limits, op);
    }
  }

  /** Each entry is charged at most its hold and exactly its running time rounded up; together they cost what that
      time costs, to within one nano-dollar an entry. */
  ghost predicate CostTheirTime(es: seq<Entry>, ids: seq<nat>) {
    && (forall j :: 0 <= j < |ids| ==> ids[j] < |es| && ExactlyCharged(es[ids[j]]) && es[ids[j]].amount <= es[ids[j]].reserved)
    && ExactCost(es, ids) <= Charged(es, ids) * SECOND <= ExactCost(es, ids) + |ids| * SECOND
  }

  /** The lease theorem: over any run, the leases rolled forward from a first one do not overlap, each was charged
      at most its hold and exactly its running time rounded up, and together they cost what the running time costs,
      to within one nano-dollar a lease. */
  lemma RolledLeasesAreChargedExactly(es: seq<Entry>, limits: Limits, ops: seq<Op>, first: nat)
    requires Sound(es) && WithinHolds(es) && first < |es| && TameRun(es, limits, ops)
    ensures var fs, chain := Run(es, limits, ops), ChainAfter(es, limits, first, ops);
            var rolled := chain[..|chain| - 1];
            && (forall j :: 0 <= j < |chain| ==> chain[j] < |fs|)
            && (forall j, k :: 0 <= j < k < |chain| ==> fs[chain[j]].ends <= fs[chain[k]].starts)
            && CostTheirTime(fs, rolled)
  {
    var fs, chain := Run(es, limits, ops), ChainAfter(es, limits, first, ops);
    LeasesRollForward(es, limits, ops, first);
    RunStaysWithinHolds(es, limits, ops);
    forall j, k | 0 <= j < k < |chain|
      ensures fs[chain[j]].ends <= fs[chain[k]].starts
    {
      SettledLeasesAreDisjoint(fs, chain, j, k);
    }
    RoundingIsBounded(fs, chain[..|chain| - 1]);
  }

  lemma TamePrefix(es: seq<Entry>, limits: Limits, ops: seq<Op>, n: nat)
    requires TameRun(es, limits, ops) && n <= |ops|
    ensures TameRun(es, limits, ops[..n])
  {
    assert forall i :: 0 <= i < n ==> ops[..n][..i] == ops[..i];
  }

  /** The chain as it stands, its last lease settled for its time too. */
  ghost predicate Ended(es: seq<Entry>, chain: seq<nat>) {
    chain != [] && Rolling(es, chain) && ExactlyCharged(es[chain[|chain| - 1]])
  }

  lemma StepKeepsEnded(es: seq<Entry>, limits: Limits, op: Op, chain: seq<nat>)
    requires Sound(es) && Tame(es, op) && Ended(es, chain)
    ensures Ended(Step(es, limits, op), chain) && Extend(es, limits, chain, op) == chain
  {
    StepKeepsRolling(es, limits, op, chain);
    SettledIsFinal(es, limits, op, chain[|chain| - 1]);
  }

  /** A lease whose chain was settled stays as it is, whatever follows. */
  lemma {:induction false} EndedStays(es: seq<Entry>, limits: Limits, ops: seq<Op>, n: nat, first: nat)
    requires Sound(es) && first < |es| && TameRun(es, limits, ops) && n <= |ops|
    requires Ended(Run(es, limits, ops[..n]), ChainAfter(es, limits, first, ops[..n]))
    ensures Ended(Run(es, limits, ops), ChainAfter(es, limits, first, ops[..n]))
    ensures ChainAfter(es, limits, first, ops) == ChainAfter(es, limits, first, ops[..n])
    decreases |ops|
  {
    if n == |ops| {
      assert ops[..n] == ops;
    } else {
      var init, op := ops[..|ops| - 1], ops[|ops| - 1];
      TamePrefix(es, limits, ops, |ops| - 1);
      assert init[..n] == ops[..n];
      EndedStays(es, limits, init, n, first);
      EndedOneStepOn(es, limits, ops, first);
    }
  }

  lemma EndedOneStepOn(es: seq<Entry>, limits: Limits, ops: seq<Op>, first: nat)
    requires Sound(es) && first < |es| && TameRun(es, limits, ops) && ops != []
    requires Ended(Run(es, limits, ops[..|ops| - 1]), ChainAfter(es, limits, first, ops[..|ops| - 1]))
    ensures Ended(Run(es, limits, ops), ChainAfter(es, limits, first, ops[..|ops| - 1]))
    ensures ChainAfter(es, limits, first, ops) == ChainAfter(es, limits, first, ops[..|ops| - 1])
  {
    var init, op := ops[..|ops| - 1], ops[|ops| - 1];
    TamePrefix(es, limits, ops, |ops| - 1);
    LeasesRollForward(es, limits, init, first);
    assert Tame(Run(es, limits, init), op);
    StepKeepsEnded(Run(es, limits, init), limits, op, ChainAfter(es, limits, first, init));
  }

  /** Settling a live lease without an amount charges exactly its running time. */
  lemma SettlingEndsTheChain(es: seq<Entry>, limits: Limits, chain: seq<nat>, now: nat)
    requires Sound(es) && chain != [] && Rolling(es, chain) && StartedBy(es, now)
    requires var e := es[chain[|chain| - 1]]; e.kind.Sandbox? && e.state == Reserved
    ensures var op := Settle(chain[|chain| - 1], None, now);
            Ended(Step(es, limits, op), chain) && Extend(es, limits, chain, op) == chain
  {
    var last := chain[|chain| - 1];
    var op := Settle(last, None, now);
    assert Tame(es, op);
    StepKeepsRolling(es, limits, op, chain);
  }

  /** The same for a whole lease: rolled any number of times and then settled by a pause or a removal, all its
      intervals are charged exactly for their time, and stay so whatever follows. */
  lemma WholeLeasesAreChargedExactly(es: seq<Entry>, limits: Limits, ops: seq<Op>, n: nat, first: nat, now: nat)
    requires Sound(es) && WithinHolds(es) && first < |es| && TameRun(es, limits, ops) && n < |ops|
    requires var fs, chain := Run(es, limits, ops[..n]), ChainAfter(es, limits, first, ops[..n]);
             var last := chain[|chain| - 1];
             ops[n] == Settle(last, None, now) && last < |fs| && fs[last].kind.Sandbox? && fs[last].state == Reserved
    ensures var fs, chain := Run(es, limits, ops), ChainAfter(es, limits, first, ops);
            && chain == ChainAfter(es, limits, first, ops[..n])
            && (forall j :: 0 <= j < |chain| ==> chain[j] < |fs|)
            && (forall j, k :: 0 <= j < k < |chain| ==> fs[chain[j]].ends <= fs[chain[k]].starts)
            && CostTheirTime(fs, chain)
  {
    var chain := ChainAfter(es, limits, first, ops[..n]);
    TamePrefix(es, limits, ops, n);
    TamePrefix(es, limits, ops, n + 1);
    LeasesRollForward(es, limits, ops[..n], first);
    assert ops[..n + 1][..n] == ops[..n];
    assert Tame(Run(es, limits, ops[..n]), ops[n]);
    SettlingEndsTheChain(Run(es, limits, ops[..n]), limits, chain, now);
    EndedStays(es, limits, ops, n + 1, first);
    RunStaysWithinHolds(es, limits, ops);
    EndedCostsItsTime(Run(es, limits, ops), chain);
  }

  lemma EndedCostsItsTime(es: seq<Entry>, chain: seq<nat>)
    requires Ended(es, chain) && WithinHolds(es)
    ensures CostTheirTime(es, chain)
    ensures forall j, k :: 0 <= j < k < |chain| ==> es[chain[j]].ends <= es[chain[k]].starts
  {
    forall j, k | 0 <= j < k < |chain|
      ensures es[chain[j]].ends <= es[chain[k]].starts
    {
      SettledLeasesAreDisjoint(es, chain, j, k);
    }
    RoundingIsBounded(es, chain);
  }
}
