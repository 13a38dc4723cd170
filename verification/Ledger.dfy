/** The spend ledger of `agent/budget.py`: reservations in integer nano-dollars, charged to every
    UTC day and month they can occupy, rolled forward, confirmed and settled. Instants are
    microseconds; each database transaction, taken under the user row lock, is one call. */
module Ledger {
  import opened Wrappers
  import opened Calendar

  const SECOND: int := 1_000_000

  /** A sandbox lease keeps its rate, in nano-dollars per second, in its details. */
  datatype Kind = ModelCall | Sandbox(rate: nat)

  datatype State = Reserved | Settled

  datatype Entry = Entry(user: nat, kind: Kind, state: State, reserved: nat, amount: nat, starts: nat, ends: nat) {
    /** Charged to the window `start..finish` of `owner`. */
    function Charge(owner: nat, start: int, finish: int): (n: nat) {
      if user == owner && starts < finish && ends >= start then amount else 0
    }

    /** `runtime_amount`: the cost of the lease from its start until `at`, rounded up. */
    function RuntimeAmount(at: int): (n: nat)
      requires kind.Sandbox?
    {
      RoundedCost(kind.rate, Max(0, Min(at, ends) - starts))
    }

    function SettledAt(now: int, cost: nat): (e: Entry) {
      this.(amount := cost, state := Settled, ends := Max(starts, Min(now, ends)))
    }

    /** The amount is the least whole number of nano-dollars that covers the rate over the interval. */
    predicate PaidByTime() {
      kind.Sandbox? && kind.rate * (ends - starts) <= amount * SECOND < kind.rate * (ends - starts) + SECOND
    }

    /** A live lease holds enough for all of its interval. */
    predicate Sound() {
      starts <= ends && (kind.Sandbox? && state == Reserved ==> RuntimeAmount(ends) <= amount)
    }
  }

  datatype Limits = Limits(daily: nat, monthly: nat) {
    function Of(monthly: bool): nat {
      if monthly then this.monthly else daily
    }
  }

  datatype Account = Account(verified: bool, unlimited: bool)

  datatype Error = InvalidBound | NotVerified | MissingEntry | NotReplaceable | OverLimit(window: Window)
                 | NoRate | Closed | Exceeded

  function Max(a: int, b: int): int { if a >= b then a else b }
  function Min(a: int, b: int): int { if a <= b then a else b }

  /** `rate` nano-dollars per second over `micros` microseconds, rounded up to a nano-dollar. */
  function RoundedCost(rate: nat, micros: nat): (n: nat) {
    (rate * micros + SECOND - 1) / SECOND
  }

  lemma RoundedCostIsCeiling(rate: nat, micros: nat)
    ensures rate * micros <= RoundedCost(rate, micros) * SECOND < rate * micros + SECOND
  {
    var x := rate * micros + SECOND - 1;
    assert x == x / SECOND * SECOND + x % SECOND;
  }

  /** `after` is `before`, settled at `now`; only what is charged is left open. */
  predicate EndsAs(before: Entry, after: Entry, now: int) {
    && after.state == Settled && after.user == before.user && after.kind == before.kind && after.reserved == before.reserved
    && after.starts == before.starts && after.ends == Min(now, before.ends)
  }

  /** The runtime amount at an instant pays for the time until then. */
  lemma RuntimeIsPaidByTime(e: Entry, now: int)
    requires e.kind.Sandbox? && e.starts <= now && e.starts <= e.ends
    ensures e.SettledAt(now, e.RuntimeAmount(now)).PaidByTime()
  {
    RoundedCostIsCeiling(e.kind.rate, Min(now, e.ends) - e.starts);
  }

  lemma RoundedCostAscends(r1: nat, m1: nat, r2: nat, m2: nat)
    requires r1 <= r2 && m1 <= m2
    ensures RoundedCost(r1, m1) <= RoundedCost(r2, m2)
  {
    assert r1 * m1 <= r2 * m1 <= r2 * m2;
  }

  /** `used_in_window`: the sum over the entries of `user` overlapping the window, entry `skip` left out. */
  function Used(es: seq<Entry>, user: nat, start: int, finish: int, skip: Option<nat>): (n: nat) {
    if es == [] then 0
    else
      var last := |es| - 1;
      Used(es[..last], user, start, finish, skip)
      + if skip == Some(last) then 0 else es[last].Charge(user, start, finish)
  }

  /** Everything `user` has reserved or spent that reaches into `p`. */
  function Total(es: seq<Entry>, user: nat, p: Period): (n: nat) {
    Used(es, user, p.Start(), p.Finish(), None)
  }

  /** An entry counts in full in each day and month that its interval meets, and nowhere else. */
  lemma ChargedWhereItMeets(e: Entry, owner: nat, p: Period)
    requires e.starts <= e.ends
    ensures e.Charge(owner, p.Start(), p.Finish())
            == if e.user == owner && (exists t: int :: e.starts <= t <= e.ends && p.Contains(t)) then e.amount else 0
  {
    TouchingIsMeeting(p, e.starts, e.ends);
  }

  lemma {:induction false} UsedAfterUpdate(es: seq<Entry>, i: nat, e: Entry, user: nat, start: int, finish: int)
    requires i < |es|
    ensures Used(es[i := e], user, start, finish, None)
            == Used(es, user, start, finish, Some(i)) + e.Charge(user, start, finish)
  {
    var last := |es| - 1;
    if i < last {
      UsedAfterUpdate(es[..last], i, e, user, start, finish);
      assert es[i := e][..last] == es[..last][i := e];
    } else {
      assert es[i := e][..last] == es[..last];
      UsedSkippingNone(es[..last], i, user, start, finish);
    }
  }

  lemma {:induction false} UsedSkippingNone(es: seq<Entry>, i: nat, user: nat, start: int, finish: int)
    requires i >= |es|
    ensures Used(es, user, start, finish, Some(i)) == Used(es, user, start, finish, None)
  {
    if es != [] {
      UsedSkippingNone(es[..|es| - 1], i, user, start, finish);
    }
  }

  lemma UsedAfterAppend(es: seq<Entry>, e: Entry, user: nat, start: int, finish: int)
    ensures Used(es + [e], user, start, finish, None)
            == Used(es, user, start, finish, None) + e.Charge(user, start, finish)
  {
    assert (es + [e])[..|es|] == es;
  }

  // ----- Reservations --------------------------------------------------------------------------

  predicate Replaceable(es: seq<Entry>, user: nat, replace: Option<nat>) {
    replace.Some? ==>
      && replace.value < |es|
      && var e := es[replace.value]; e.user == user && e.kind.Sandbox? && e.state == Reserved
  }

  /** The ledger once the lease `replace` has been settled at `now`. */
  function Rolled(es: seq<Entry>, user: nat, replace: Option<nat>, now: int): (r: seq<Entry>)
    requires Replaceable(es, user, replace)
    ensures |r| == |es|
  {
    if replace.None? then es
    else var e := es[replace.value]; es[replace.value := e.SettledAt(now, e.RuntimeAmount(now))]
  }

  function WithReservation(es: seq<Entry>, user: nat, kind: Kind, amount: nat, duration: nat,
                           replace: Option<nat>, now: nat): (r: seq<Entry>)
    requires Replaceable(es, user, replace)
    ensures |r| == |es| + 1
  {
    Rolled(es, user, replace, now) + [Entry(user, kind, Reserved, amount, amount, now, now + duration)]
  }

  /** No day and no month that the interval reaches is charged beyond its limit. */
  ghost predicate Fits(es: seq<Entry>, user: nat, limits: Limits, first: nat, last: nat) {
    forall p: Period :: p.Touches(first, last) ==> Total(es, user, p) <= limits.Of(p.Month?)
  }

  ghost predicate Admissible(es: seq<Entry>, limits: Limits, user: nat, account: Option<Account>, kind: Kind,
                             amount: int, duration: int, replace: Option<nat>, now: nat) {
    && 0 <= amount && 0 < duration < DAY
    && account.Some? && account.value.verified
    && Replaceable(es, user, replace)
    && (account.value.unlimited
        || Fits(WithReservation(es, user, kind, amount, duration, replace, now), user, limits, now, now + duration))
  }

  /** What the source compares with the limit of a window: the entries other than the replaced one,
      the settled cost of that one if it still reaches the window, and the new amount. */
  function Charged(es: seq<Entry>, user: nat, amount: nat, replace: Option<nat>, oldAmount: nat, now: nat, w: Window): nat
    requires replace.Some? ==> replace.value < |es|
  {
    Used(es, user, w.start, w.finish, replace) + amount
    + if replace.Some? && es[replace.value].starts < w.finish && Min(now, es[replace.value].ends) >= w.start then oldAmount
      else 0
  }

  /** That incremental sum is the total of the ledger the reservation would produce. */
  lemma WindowSum(es: seq<Entry>, user: nat, kind: Kind, amount: nat, duration: nat, replace: Option<nat>, now: nat,
                  w: Window)
    requires Replaceable(es, user, replace)
    requires replace.Some? ==> es[replace.value].starts <= now && es[replace.value].Sound()
    requires w.start <= now + duration && now < w.finish
    ensures var oldAmount := if replace.Some? then es[replace.value].RuntimeAmount(now) else 0;
            Charged(es, user, amount, replace, oldAmount, now, w)
            == Used(WithReservation(es, user, kind, amount, duration, replace, now), user, w.start, w.finish, None)
  {
    var r := Rolled(es, user, replace, now);
    UsedAfterAppend(r, Entry(user, kind, Reserved, amount, amount, now, now + duration), user, w.start, w.finish);
    if replace.Some? {
      var e := es[replace.value];
      UsedAfterUpdate(es, replace.value, e.SettledAt(now, e.RuntimeAmount(now)), user, w.start, w.finish);
    }
  }

  lemma WindowSums(es: seq<Entry>, user: nat, kind: Kind, amount: nat, duration: nat, replace: Option<nat>, now: nat,
                   ws: seq<Window>)
    requires Replaceable(es, user, replace)
    requires replace.Some? ==> es[replace.value].starts <= now && es[replace.value].Sound()
    requires forall w :: w in ws ==> w.start <= now + duration && now < w.finish
    ensures var oldAmount := if replace.Some? then es[replace.value].RuntimeAmount(now) else 0;
            var after := WithReservation(es, user, kind, amount, duration, replace, now);
            forall w :: w in ws ==>
              Charged(es, user, amount, replace, oldAmount, now, w) == Used(after, user, w.start, w.finish, None)
  {
    forall w | w in ws
      ensures var oldAmount := if replace.Some? then es[replace.value].RuntimeAmount(now) else 0;
              Charged(es, user, amount, replace, oldAmount, now, w)
              == Used(WithReservation(es, user, kind, amount, duration, replace, now), user, w.start, w.finish, None)
    {
      WindowSum(es, user, kind, amount, duration, replace, now, w);
    }
  }

  /** Checking the windows of the two ends is checking every day and month the interval reaches. */
  lemma FitsInEveryWindow(es: seq<Entry>, user: nat, limits: Limits, first: nat, last: nat)
    requires first <= last < first + DAY
    ensures Fits(es, user, limits, first, last) <==>
      forall w :: w in Windows(first) + Windows(last) ==> Used(es, user, w.start, w.finish, None) <= limits.Of(w.monthly)
  {
    if Fits(es, user, limits, first, last) {
      forall w | w in Windows(first) + Windows(last)
        ensures Used(es, user, w.start, w.finish, None) <= limits.Of(w.monthly)
      {
        var p := WindowIsTouched(first, last, w);
        assert Used(es, user, w.start, w.finish, None) == Total(es, user, p);
      }
    }
    if forall w :: w in Windows(first) + Windows(last) ==> Used(es, user, w.start, w.finish, None) <= limits.Of(w.monthly) {
      AllTouchedPeriodsFit(es, user, limits, first, last);
    }
  }

  /** The windows of both ends of an interval; room in each of them is room in every day and month
      the interval reaches. */
  method AdmissionWindows(first: nat, last: nat, ghost es: seq<Entry>, ghost user: nat, ghost limits: Limits)
    returns (ws: seq<Window>)
    requires first <= last < first + DAY
    ensures forall w :: w in ws ==> w.start <= last && first < w.finish
    ensures Fits(es, user, limits, first, last) <==>
      forall w :: w in ws ==> Used(es, user, w.start, w.finish, None) <= limits.Of(w.monthly)
  {
    ws := Windows(first) + Windows(last);
    FitsInEveryWindow(es, user, limits, first, last);
    forall w | w in ws
      ensures w.start <= last && first < w.finish
    {
      var p := WindowIsTouched(first, last, w);
    }
  }

  class SpendLedger {
    var entries: seq<Entry>
    const limits: Limits

    constructor (limits: Limits)
      ensures entries == [] && this.limits == limits
    {
      entries := [];
      this.limits := limits;
    }

    /** The clock has not gone back behind any recorded start. */
    ghost predicate Valid(now: nat)
      reads this
    {
      forall e :: e in entries ==> e.Sound() && e.starts <= now
    }

    /** Admits a reservation exactly when every UTC day and month it can occupy still has room for
        it, the replaced lease being settled in the same step. */
    method Reserve(user: nat, account: Option<Account>, kind: Kind, amount: int, duration: int,
                   replace: Option<nat>, now: nat) returns (r: Result<nat, Error>)
      requires Valid(now)
      modifies this
      ensures r.Ok? <==> Admissible(old(entries), limits, user, account, kind, amount, duration, replace, now)
      ensures r.Ok? ==>
        && r.value == |old(entries)|
        && entries == WithReservation(old(entries), user, kind, amount, duration, replace, now)
        && entries[r.value] == Entry(user, kind, Reserved, amount, amount, now, now + duration)
        && (forall i :: 0 <= i < r.value && replace != Some(i) ==> entries[i] == old(entries)[i])
        && (replace.Some? ==>
              && old(entries)[replace.value].user == user && old(entries)[replace.value].state == Reserved
              && EndsAs(old(entries)[replace.value], entries[replace.value], now) && entries[replace.value].PaidByTime())
      ensures r.Err? ==> entries == old(entries)
      ensures r == Err(InvalidBound) <==> !(0 <= amount && 0 < duration < DAY)
      ensures r == Err(NotVerified) <==> 0 <= amount && 0 < duration < DAY && (account.None? || !account.value.verified)
      ensures r == Err(MissingEntry) ==> replace.Some? && replace.value >= |entries|
      ensures r == Err(NotReplaceable) ==>
        && replace.Some? && replace.value < |entries|
        && (entries[replace.value].user != user || !entries[replace.value].kind.Sandbox? || entries[replace.value].state == Settled)
      ensures r.Err? && r.error.OverLimit? ==> account.Some? && !account.value.unlimited
      ensures r.Err? && r.error.OverLimit? ==>
        && Replaceable(entries, user, replace)
        && var w := r.error.window;
           Used(WithReservation(entries, user, kind, amount, duration, replace, now), user, w.start, w.finish, None)
           > limits.Of(w.monthly)
    {
      if amount < 0 || !(0 < duration < DAY) {
        return Err(InvalidBound);
      }
      if account.None? || !account.value.verified {
        return Err(NotVerified);
      }
      if replace.Some? && replace.value >= |entries| {
        return Err(MissingEntry);
      }
      if replace.Some? {
        var old_ := entries[replace.value];
        if old_.user != user || !old_.kind.Sandbox? || old_.state != Reserved {
          return Err(NotReplaceable);
        }
      }
      if !account.value.unlimited {
        var full := Crowded(user, kind, amount, duration, replace, now);
        if full.Some? {
          return Err(OverLimit(full.value));
        }
      }
      var id := Record(user, kind, amount, duration, replace, now);
      r := Ok(id);
    }

    /** A window that the reservation would reach and does not fit. */
    method Crowded(user: nat, ghost kind: Kind, amount: nat, duration: nat, replace: Option<nat>, now: nat)
      returns (full: Option<Window>)
      requires Valid(now) && 0 < duration < DAY && Replaceable(entries, user, replace)
      ensures full.None? <==>
        Fits(WithReservation(entries, user, kind, amount, duration, replace, now), user, limits, now, now + duration)
      ensures full.Some? ==>
        Used(WithReservation(entries, user, kind, amount, duration, replace, now), user, full.value.start, full.value.finish, None)
        > limits.Of(full.value.monthly)
    {
      ghost var after := WithReservation(entries, user, kind, amount, duration, replace, now);
      var oldAmount := if replace.Some? then entries[replace.value].RuntimeAmount(now) else 0;
      var periods := AdmissionWindows(now, now + duration, after, user, limits);
      WindowSums(entries, user, kind, amount, duration, replace, now, periods);
      full := FullWindow(user, amount, replace, oldAmount, now, periods);
    }

    /** The replaced lease ends at its running time, and the new entry begins. */
    method Record(user: nat, kind: Kind, amount: nat, duration: nat, replace: Option<nat>, now: nat) returns (id: nat)
      requires Valid(now) && Replaceable(entries, user, replace)
      modifies this
      ensures id == |old(entries)| && entries == WithReservation(old(entries), user, kind, amount, duration, replace, now)
      ensures entries[id] == Entry(user, kind, Reserved, amount, amount, now, now + duration)
      ensures forall i :: 0 <= i < id && replace != Some(i) ==> entries[i] == old(entries)[i]
      ensures replace.Some? ==>
        EndsAs(old(entries)[replace.value], entries[replace.value], now) && entries[replace.value].PaidByTime()
    {
      if replace.Some? {
        var e := entries[replace.value];
        RuntimeIsPaidByTime(e, now);
        entries := entries[replace.value := e.SettledAt(now, e.RuntimeAmount(now))];
      }
      entries := entries + [Entry(user, kind, Reserved, amount, amount, now, now + duration)];
      id := |entries| - 1;
    }

    /** The admission loop: the first window without room for the new amount. */
    method FullWindow(user: nat, amount: nat, replace: Option<nat>, oldAmount: nat, now: nat, periods: seq<Window>)
      returns (full: Option<Window>)
      requires replace.Some? ==> replace.value < |entries|
      ensures full.None? <==> forall w :: w in periods ==>
        Charged(entries, user, amount, replace, oldAmount, now, w) <= limits.Of(w.monthly)
      ensures full.Some? ==>
        && full.value in periods
        && Charged(entries, user, amount, replace, oldAmount, now, full.value) > limits.Of(full.value.monthly)
    {
      for i := 0 to |periods|
        invariant forall w :: w in periods[..i] ==>
          Charged(entries, user, amount, replace, oldAmount, now, w) <= limits.Of(w.monthly)
      {
        var w := periods[i];
        var used := Used(entries, user, w.start, w.finish, replace);
        if replace.Some? && entries[replace.value].starts < w.finish && Min(now, entries[replace.value].ends) >= w.start {
          used := used + oldAmount;
        }
        if used + amount > limits.Of(w.monthly) {
          return Some(w);
        }
      }
      full := None;
    }

    /** Idempotent settlement; an entry that is no longer reserved is left alone. */
    method Settle(id: nat, amount: Option<int>, now: nat) returns (r: Result<(), Error>)
      requires Valid(now)
      modifies this
      ensures entries == AfterSettle(old(entries), id, amount, now)
      ensures r == Err(MissingEntry) <==> id >= |entries|
      ensures r == Err(NoRate) <==>
        id < |entries| && old(entries)[id].state == Reserved && amount.None? && !old(entries)[id].kind.Sandbox?
      ensures r.Err? || old(entries)[id].state == Settled ==> entries == old(entries)
      ensures r.Ok? && old(entries)[id].state == Reserved ==>
        && EndsAs(old(entries)[id], entries[id], now)
        && entries == old(entries)[id := entries[id]]
        && (amount.Some? ==> entries[id].amount == Max(0, amount.value))
        && (amount.None? ==> entries[id].PaidByTime())
    {
      if id >= |entries| {
        return Err(MissingEntry);
      }
      var e := entries[id];
      if e.state != Reserved {
        return Ok(());
      }
      if amount.None? && !e.kind.Sandbox? {
        return Err(NoRate);
      }
      var cost := if amount.None? then e.RuntimeAmount(now) else Max(0, amount.value);
      entries := entries[id := e.SettledAt(now, cost)];
      if amount.None? { RuntimeIsPaidByTime(e, now); }
      r := Ok(());
    }

    /** `confirm_runtime`: the hold is replaced by one at the confirmed rate and deadline. The change
        is committed even when it exceeds the reservation and the caller is told so. */
    method Confirm(id: nat, rate: nat, endAt: nat) returns (r: Result<(), Error>)
      modifies this
      ensures entries == AfterConfirm(old(entries), id, rate, endAt)
      ensures r.Ok? <==>
        && Replaceable(old(entries), if id < |old(entries)| then old(entries)[id].user else 0, Some(id))
        && rate <= old(entries)[id].kind.rate && endAt <= old(entries)[id].ends
      ensures r.Ok? || r == Err(Exceeded) ==>
        && id < |old(entries)| == |entries|
        && var e, f := old(entries)[id], entries[id];
        && entries == old(entries)[id := f]
        && f.kind == Sandbox(rate) && f.state == Reserved && f.user == e.user && f.reserved == e.reserved
        && f.starts == e.starts && f.ends == Max(e.starts, endAt) && f.PaidByTime()
      ensures r.Err? && r != Err(Exceeded) ==> entries == old(entries)
      ensures r == Err(Exceeded) ==>
        && id < |old(entries)| && old(entries)[id].kind.Sandbox?
        && (rate > old(entries)[id].kind.rate || endAt > old(entries)[id].ends)
    {
      if id >= |entries| {
        return Err(MissingEntry);
      }
      var e := entries[id];
      if e.state != Reserved {
        return Err(Closed);
      }
      if !e.kind.Sandbox? {
        return Err(NoRate);
      }
      var exceeded := rate > e.kind.rate || endAt > e.ends;
      e := e.(kind := Sandbox(rate), ends := Max(e.starts, endAt));
      e := e.(amount := e.RuntimeAmount(e.ends));
      RoundedCostIsCeiling(rate, e.ends - e.starts);
      entries := entries[id := e];
      r := if exceeded then Err(Exceeded) else Ok(());
    }
  }

  lemma WindowIsTouched(first: nat, last: nat, w: Window) returns (p: Period)
    requires first <= last < first + DAY && w in Windows(first) + Windows(last)
    ensures Denotes(w, p) && p.Touches(first, last)
  {
    WindowsDenote(first);
    WindowsDenote(last);
    p := if w == Windows(first)[0] then Day(first / DAY)
         else if w == Windows(first)[1] then Month(MonthOf(first))
         else if w == Windows(last)[0] then Day(last / DAY)
         else Month(MonthOf(last));
    TouchedByAShortInterval(first, last, p);
  }

  lemma AllTouchedPeriodsFit(es: seq<Entry>, user: nat, limits: Limits, first: nat, last: nat)
    requires first <= last < first + DAY
    requires forall w :: w in Windows(first) + Windows(last) ==>
      Used(es, user, w.start, w.finish, None) <= limits.Of(w.monthly)
    ensures Fits(es, user, limits, first, last)
  {
    WindowsDenote(first);
    WindowsDenote(last);
    var ws := Windows(first) + Windows(last);
    assert ws[0] in ws && ws[1] in ws && ws[2] in ws && ws[3] in ws;
    forall p: Period | p.Touches(first, last)
      ensures Total(es, user, p) <= limits.Of(p.Month?)
    {
      TouchedByAShortInterval(first, last, p);
    }
  }

  function AfterSettle(es: seq<Entry>, id: nat, amount: Option<int>, now: nat): (r: seq<Entry>)
    ensures |r| == |es|
  {
    if id >= |es| || es[id].state != Reserved || (amount.None? && !es[id].kind.Sandbox?) then es
    else es[id := es[id].SettledAt(now, if amount.None? then es[id].RuntimeAmount(now) else Max(0, amount.value))]
  }

  function AfterConfirm(es: seq<Entry>, id: nat, rate: nat, endAt: nat): (r: seq<Entry>)
    ensures |r| == |es|
  {
    if id >= |es| || es[id].state != Reserved || !es[id].kind.Sandbox? then es
    else
      var e := es[id].(kind := Sandbox(rate), ends := Max(es[id].starts, endAt));
      es[id := e.(amount := e.RuntimeAmount(e.ends))]
  }
}
