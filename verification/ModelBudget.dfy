/** `agent/model_budget.py`: every model request reserves an upper bound of its cost before it is
    sent, and is settled at the cost of the usage the provider reports. */
module ModelBudget {
  import opened Wrappers
  import opened Ledger

  const MILLION: int := 1_000_000
  const LONG_CONTEXT: int := 272_000
  const REQUEST_SECONDS: int := 690
  const FRAMING: int := 2000
  const MAX_OUTPUT: int := 8192

  /** Nano-dollars per million tokens. */
  datatype Rates = Rates(input: nat, cached: nat, write: nat, output: nat)

  /** `model_cost`: unknown cache writes (`None`) are charged at the dearer of the input and write
      rates, and everything is dearer above the long-context threshold. */
  function ModelCost(rates: Rates, inputs: int, outputs: int, cached: int, written: Option<int>): int {
    var inputRate := if written.None? then Max(rates.input, rates.write) else rates.input;
    var w := if written.None? then 0 else written.value;
    var numerator := (inputs - cached - w) * inputRate + cached * rates.cached + w * rates.write;
    var total := if inputs > LONG_CONTEXT then numerator * 2 + outputs * rates.output * 3 / 2
                 else numerator + outputs * rates.output;
    (total + MILLION - 1) / MILLION
  }

  /** The rates used for the bound: the dearest kind of input token for all of them. */
  function ReservationRates(rates: Rates): Rates {
    rates.(input := Max(rates.input, Max(rates.cached, rates.write)))
  }

  function Bound(rates: Rates, inputs: int, outputs: int): int {
    ModelCost(ReservationRates(rates), inputs, outputs, 0, None)
  }

  lemma InputsCostAtMost(rates: Rates, inputs: int, cached: int, written: Option<int>)
    requires 0 <= cached <= inputs && (written.Some? ==> 0 <= written.value <= inputs - cached)
    ensures var inputRate := if written.None? then Max(rates.input, rates.write) else rates.input;
            var w := if written.None? then 0 else written.value;
            0 <= (inputs - cached - w) * inputRate + cached * rates.cached + w * rates.write
              <= inputs * ReservationRates(rates).input
  {
    var dearest := ReservationRates(rates).input;
    var inputRate := if written.None? then Max(rates.input, rates.write) else rates.input;
    var w := if written.None? then 0 else written.value;
    MixCostsAtMost(inputs - cached - w, cached, w, inputRate, rates.cached, rates.write, dearest);
  }

  lemma MixCostsAtMost(a: nat, b: nat, c: nat, ra: nat, rb: nat, rc: nat, dearest: nat)
    requires ra <= dearest && rb <= dearest && rc <= dearest
    ensures 0 <= a * ra + b * rb + c * rc <= (a + b + c) * dearest
  {
    ScalesUp(ra, dearest, a);
    ScalesUp(rb, dearest, b);
    ScalesUp(rc, dearest, c);
    assert a * dearest + b * dearest + c * dearest == (a + b + c) * dearest;
  }

  lemma ScalesUp(a: int, b: int, rate: nat)
    requires 0 <= a <= b
    ensures 0 <= a * rate <= b * rate
  {
  }

  /** The bound covers every usage within the input bound and the output limit, however much of it
      was cached or written and on either side of the long-context step. */
  lemma BoundCoversUsage(rates: Rates, inputs: int, outputs: int, cached: int, written: Option<int>,
                         inputBound: int, outputLimit: int)
    requires 0 <= cached <= inputs && (written.Some? ==> 0 <= written.value <= inputs - cached)
    requires inputs <= inputBound && 0 <= outputs <= outputLimit
    ensures 0 <= ModelCost(rates, inputs, outputs, cached, written) <= Bound(rates, inputBound, outputLimit)
  {
    InputsCostAtMost(rates, inputs, cached, written);
    var dearest := ReservationRates(rates).input;
    ScalesUp(inputs, inputBound, dearest);
    ScalesUp(outputs, outputLimit, rates.output);
    assert outputs * rates.output * 3 / 2 <= outputLimit * rates.output * 3 / 2;
    assert Max(dearest, rates.write) == dearest;
  }

  // ----- What the price means -------------------------------------------------------------------------

  /** How an input token was served; `Unsorted` is fresh or written to the cache, nobody knows which. */
  datatype Token = Fresh | Cached | Written | Unsorted

  function PriceOf(rates: Rates, t: Token): (n: nat) {
    match t
    case Fresh => rates.input
    case Cached => rates.cached
    case Written => rates.write
    case Unsorted => Max(rates.input, rates.write)
  }

  /** The price of a prompt, token by token. */
  function PromptPrice(rates: Rates, prompt: seq<Token>): (n: nat) {
    if prompt == [] then 0 else PromptPrice(rates, prompt[..|prompt| - 1]) + PriceOf(rates, prompt[|prompt| - 1])
  }

  function CountOf(prompt: seq<Token>, t: Token): (n: nat)
    ensures n <= |prompt|
  {
    if prompt == [] then 0 else CountOf(prompt[..|prompt| - 1], t) + if prompt[|prompt| - 1] == t then 1 else 0
  }

  lemma {:induction false} EveryTokenIsCounted(prompt: seq<Token>)
    ensures CountOf(prompt, Fresh) + CountOf(prompt, Cached) + CountOf(prompt, Written) + CountOf(prompt, Unsorted) == |prompt|
  {
    if prompt != [] { EveryTokenIsCounted(prompt[..|prompt| - 1]); }
  }

  lemma {:induction false} PromptPriceByKind(rates: Rates, prompt: seq<Token>)
    ensures PromptPrice(rates, prompt)
            == CountOf(prompt, Fresh) * rates.input + CountOf(prompt, Cached) * rates.cached
               + CountOf(prompt, Written) * rates.write + CountOf(prompt, Unsorted) * Max(rates.input, rates.write)
  {
    if prompt != [] {
      var init, last := prompt[..|prompt| - 1], prompt[|prompt| - 1];
      PromptPriceByKind(rates, init);
      OneMoreToken(CountOf(init, Fresh), rates.input);
      OneMoreToken(CountOf(init, Cached), rates.cached);
      OneMoreToken(CountOf(init, Written), rates.write);
      OneMoreToken(CountOf(init, Unsorted), Max(rates.input, rates.write));
    }
  }

  lemma OneMoreToken(n: int, price: int)
    ensures (n + 1) * price == n * price + price
  {
  }

  /** In nano-dollars per million: a long prompt costs twice as much, and an answer to it half as much again, rounded down. */
  function Price(rates: Rates, prompt: seq<Token>, outputs: nat): (n: nat) {
    if |prompt| > 272_000 then 2 * PromptPrice(rates, prompt) + 3 * (outputs * rates.output) / 2
    else PromptPrice(rates, prompt) + outputs * rates.output
  }

  /** The amount is the least whole number of nano-dollars that covers the price. */
  predicate Covers(amount: int, price: nat) {
    price <= amount * 1_000_000 < price + 1_000_000
  }

  /** The prompt has so many cached tokens, and so many written ones or an unknown number of them. */
  predicate Consists(prompt: seq<Token>, cached: int, written: Option<int>) {
    && CountOf(prompt, Cached) == cached
    && match written
       case None => CountOf(prompt, Fresh) == 0 && CountOf(prompt, Written) == 0
       case Some(n) => CountOf(prompt, Written) == n && CountOf(prompt, Unsorted) == 0
  }

  /** The cost of a usage is the price of its tokens, taken one by one and rounded up once. */
  lemma ModelCostIsThePrice(rates: Rates, prompt: seq<Token>, outputs: nat, cached: int, written: Option<int>)
    requires Consists(prompt, cached, written)
    ensures Covers(ModelCost(rates, |prompt|, outputs, cached, written), Price(rates, prompt, outputs))
  {
    EveryTokenIsCounted(prompt);
    PromptPriceByKind(rates, prompt);
    var inputRate := if written.None? then Max(rates.input, rates.write) else rates.input;
    var w := if written.None? then 0 else written.value;
    assert (|prompt| - cached - w) * inputRate + cached * rates.cached + w * rates.write == PromptPrice(rates, prompt);
    assert outputs * rates.output * 3 == 3 * (outputs * rates.output);
  }

  /** Any usage is that of some prompt. */
  lemma {:induction false} SomePrompt(inputs: nat, cached: nat, written: Option<int>) returns (prompt: seq<Token>)
    requires cached <= inputs && (written.Some? ==> 0 <= written.value <= inputs - cached)
    ensures |prompt| == inputs && Consists(prompt, cached, written)
  {
    if inputs == 0 {
      prompt := [];
    } else if cached > 0 {
      var init := SomePrompt(inputs - 1, cached - 1, written);
      prompt := init + [Cached];
      assert prompt[..|init|] == init;
    } else if written.Some? && written.value > 0 {
      var init := SomePrompt(inputs - 1, cached, Some(written.value - 1));
      prompt := init + [Written];
      assert prompt[..|init|] == init;
    } else {
      var init := SomePrompt(inputs - 1, cached, written);
      prompt := init + [if written.Some? then Fresh else Unsorted];
      assert prompt[..|init|] == init;
    }
  }

  /** The reserved amount is not too high either: it is the price of a prompt of that length, all of whose tokens are
      of the dearest kind. */
  lemma BoundIsAttained(rates: Rates, inputs: nat, outputs: nat) returns (prompt: seq<Token>)
    ensures |prompt| == inputs && Covers(Bound(rates, inputs, outputs), Price(rates, prompt, outputs))
  {
    var dearest := Max(rates.input, Max(rates.cached, rates.write));
    var t := if rates.input == dearest then Fresh else if rates.cached == dearest then Cached else Written;
    prompt := seq(inputs, i => t);
    UniformPrice(rates, prompt, t);
    assert inputs * dearest == (inputs - 0 - 0) * dearest + 0 * rates.cached + 0 * rates.write;
    assert outputs * rates.output * 3 == 3 * (outputs * rates.output);
  }

  lemma {:induction false} UniformPrice(rates: Rates, prompt: seq<Token>, t: Token)
    requires forall i :: 0 <= i < |prompt| ==> prompt[i] == t
    ensures PromptPrice(rates, prompt) == |prompt| * PriceOf(rates, t)
  {
    if prompt != [] {
      UniformPrice(rates, prompt[..|prompt| - 1], t);
      OneMoreToken(|prompt| - 1, PriceOf(rates, t));
    }
  }

  // ----- The two hooks ------------------------------------------------------------------------------

  datatype Request = Request(responsesEndpoint: bool, readable: bool, modelHasRates: bool, ratesPositive: bool, bodyBytes: nat,
                             outputLimit: Option<int>, streamed: bool, serverHistory: bool, hostedTools: bool)

  /** What a request leaves in the ledger entry's details. */
  datatype Reservation = Reservation(id: nat, rates: Rates, inputBound: int, outputLimit: int)

  /** A usage report; a field that is missing or not an integer is `None`. */
  datatype Usage = Usage(inputs: Option<int>, outputs: Option<int>, cached: Option<int>, written: Option<int>)

  datatype Failure = Unsupported | NotAdmitted(error: Error) | Unavailable | Overage | Unconfirmed

  /** How a ledger transaction ends for the hook: an exception may hide a commit. */
  datatype Commit = Heard | Refused | Unheard

  predicate Supported(r: Request) {
    && r.responsesEndpoint && r.readable && r.modelHasRates && r.ratesPositive
    && r.outputLimit.Some? && 1 <= r.outputLimit.value <= MAX_OUTPUT
    && !r.streamed && !r.serverHistory && !r.hostedTools
  }

  /** The usage as it is charged, `None` when the report cannot be used. */
  function ChargedUsage(u: Usage): Option<(int, int, int, Option<int>)> {
    if u.inputs.None? || u.outputs.None? || u.inputs.value < 0 || u.outputs.value < 0 then None
    else
      var inputs := u.inputs.value;
      var cached := if u.cached.Some? && 0 <= u.cached.value <= inputs then u.cached.value else 0;
      var written := if u.written.Some? && 0 <= u.written.value <= inputs - cached then u.written else None;
      Some((inputs, u.outputs.value, cached, written))
  }

  /** An unusable report retains the reservation; any other is charged within the reservation
      whenever it reports no more tokens than were reserved for. */
  lemma ReportedUsageIsCovered(u: Usage, r: Reservation)
    requires u.inputs.Some? && u.inputs.value <= r.inputBound
    requires u.outputs.Some? && u.outputs.value <= r.outputLimit
    ensures ChargedUsage(u).Some? ==>
      var (inputs, outputs, cached, written) := ChargedUsage(u).value;
      0 <= ModelCost(r.rates, inputs, outputs, cached, written) <= Bound(r.rates, r.inputBound, r.outputLimit)
  {
    if ChargedUsage(u).Some? {
      var (inputs, outputs, cached, written) := ChargedUsage(u).value;
      BoundCoversUsage(r.rates, inputs, outputs, cached, written, r.inputBound, r.outputLimit);
    }
  }

  const REJECTIONS: set<int> := {400, 401, 403, 404, 413, 422, 429}

  /** One run's spending scope: after the first failure no further request is admitted. */
  class SpendScope {
    const ledger: SpendLedger
    const user: nat
    var limitError: Option<Failure>

    constructor (ledger: SpendLedger, user: nat)
      ensures limitError == None && this.ledger == ledger && this.user == user
    {
      this.ledger := ledger;
      this.user := user;
      limitError := None;
    }

    /** A request is sent only with its bound reserved. An exception keeps whatever was committed, and the run sends
        no further request. */
    method ReserveRequest(account: Option<Account>, request: Request, rates: Rates, commit: Commit, now: nat)
      returns (r: Result<Reservation, Failure>)
      requires ledger.Valid(now)
      modifies this, ledger
      ensures ledger.Valid(now)
      ensures old(limitError).Some? ==> r == Err(old(limitError).value)
      ensures r.Err? ==> limitError == Some(r.error)
      ensures r.Err? && !(r.error.Unavailable? && commit.Unheard?) ==> ledger.entries == old(ledger.entries)
      ensures old(limitError).None? && r == Err(Unavailable) ==>
        request.responsesEndpoint && (!request.readable || (Supported(request) && !commit.Heard?))
      ensures old(limitError).None? && Supported(request) && commit.Refused? ==> r == Err(Unavailable)
      ensures r.Ok? ==> limitError == None && Supported(request) && commit.Heard?
      ensures r.Ok? <==>
        && old(limitError).None? && commit.Heard?
        && request.responsesEndpoint && request.readable && request.modelHasRates && request.ratesPositive
        && request.outputLimit.Some? && 1 <= request.outputLimit.value <= 8192
        && !request.streamed && !request.serverHistory && !request.hostedTools
        && Admissible(old(ledger.entries), ledger.limits, user, account, ModelCall,
                      Bound(rates, request.bodyBytes + 2000, request.outputLimit.value), 690 * SECOND, None, now)
      ensures r.Ok? ==>
        && r.value.id < |ledger.entries|
        && var e := ledger.entries[r.value.id]; e.user == user && e.starts == now && e.ends == now + 690 * SECOND
      ensures r.Ok? ==>
        && r.value == Reservation(|old(ledger.entries)|, rates, request.bodyBytes + FRAMING, request.outputLimit.value)
        && Held(old(ledger.entries), ledger.entries, r.value)
      ensures r.Err? && ledger.entries != old(ledger.entries) ==>
        && request.outputLimit.Some?
        && Held(old(ledger.entries), ledger.entries,
                Reservation(|old(ledger.entries)|, rates, request.bodyBytes + FRAMING, request.outputLimit.value))
    {
      if limitError.Some? {
        return Err(limitError.value);
      }
      if request.responsesEndpoint && !request.readable {
        limitError := Some(Unavailable);
        return Err(Unavailable);
      }
      if !Supported(request) {
        limitError := Some(Unsupported);
        return Err(Unsupported);
      }
      if commit.Refused? {
        limitError := Some(Unavailable);
        return Err(Unavailable);
      }
      var inputs := request.bodyBytes + FRAMING;
      var amount := Bound(rates, inputs, request.outputLimit.value);
      BoundCoversUsage(rates, 0, 0, 0, None, inputs, request.outputLimit.value);
      var entry := ledger.Reserve(user, account, ModelCall, amount, REQUEST_SECONDS * SECOND, None, now);
      if entry.Err? {
        limitError := Some(NotAdmitted(entry.error));
        return Err(NotAdmitted(entry.error));
      }
      if commit.Unheard? {
        limitError := Some(Unavailable);
        return Err(Unavailable);
      }
      r := Ok(Reservation(entry.value, rates, inputs, request.outputLimit.value));
    }

    /** Only explicit rejections release a hold and only a usable report replaces it by its cost; anything ambiguous
        keeps it, and what could not be recorded stops further requests. */
    method SettleResponse(r: Reservation, status: int, read: bool, usage: Option<Usage>, commit: Commit, now: nat)
      returns (f: Option<Failure>)
      requires ledger.Valid(now)
      requires r.id < |ledger.entries| && ledger.entries[r.id].kind == ModelCall
      requires ledger.entries[r.id].state == Reserved
      requires ledger.entries[r.id].reserved == ledger.entries[r.id].amount == Bound(r.rates, r.inputBound, r.outputLimit)
      modifies this, ledger
      ensures f.Some? ==> limitError == f
      ensures f.None? ==> limitError == old(limitError)
      ensures var op := Settlement(r, status, read, usage);
        && ledger.entries == (if op.Some? && !commit.Refused? then AfterSettle(old(ledger.entries), r.id, op, now)
                              else old(ledger.entries))
        && (f == Some(Unconfirmed) <==> (Succeeded(status) && !read) || (op.Some? && !commit.Heard?))
        && (f == Some(Overage) <==> op.Some? && commit.Heard? && op.value > old(ledger.entries)[r.id].reserved)
        && (f.None? || f == Some(Unconfirmed) || f == Some(Overage))
      ensures usage.Some? && Covered(r, usage.value) ==> f != Some(Overage)
      ensures !commit.Refused? && status in {400, 401, 403, 404, 413, 422, 429} ==>
        ledger.entries[r.id].state == Settled && ledger.entries[r.id].amount == 0
      ensures status !in {400, 401, 403, 404, 413, 422, 429}
              && (!(200 <= status < 300) || !read || usage.None? || !Usable(usage.value)) ==>
        ledger.entries == old(ledger.entries)
      ensures !commit.Refused? && 200 <= status < 300 && read && usage.Some? && Usable(usage.value) ==>
        && ledger.entries[r.id].state == Settled
        && forall prompt :: Reports(usage.value, prompt) ==>
             Covers(ledger.entries[r.id].amount, Price(r.rates, prompt, usage.value.outputs.value))
    {
      f := None;
      if Succeeded(status) && !read {
        f := Some(Unconfirmed);
        limitError := f;
        return;
      }
      var cost := Settlement(r, status, read, usage);
      if cost.None? {
        return;
      }
      if usage.Some? && Covered(r, usage.value) && !(status in REJECTIONS) {
        ReportedUsageIsCovered(usage.value, r);
      }
      if status !in REJECTIONS { SettlementIsThePrice(r, status, read, usage); }
      var reserved := ledger.entries[r.id].reserved;
      if !commit.Refused? {
        var _ := ledger.Settle(r.id, cost, now);
      }
      if !commit.Heard? {
        f := Some(Unconfirmed);
      } else if cost.value > reserved {
        f := Some(Overage);
      }
      if f.Some? {
        limitError := f;
      }
    }
  }

  predicate Succeeded(status: int) {
    200 <= status < 300
  }

  /** The amount that a response is settled at: nothing for a rejection, the reported cost for a success. */
  function Settlement(r: Reservation, status: int, read: bool, usage: Option<Usage>): Option<int> {
    if status in REJECTIONS then Some(0)
    else if !Succeeded(status) || !read || usage.None? || ChargedUsage(usage.value).None? then None
    else
      var (inputs, outputs, cached, written) := ChargedUsage(usage.value).value;
      Some(ModelCost(r.rates, inputs, outputs, cached, written))
  }

  /** The report names how many tokens went in and out. */
  predicate Usable(u: Usage) {
    u.inputs.Some? && u.inputs.value >= 0 && u.outputs.Some? && u.outputs.value >= 0
  }

  /** A prompt as the report describes it: a cached count that makes no sense is none, and a written count that is
      missing or makes no sense leaves open which tokens were written. */
  predicate Reports(u: Usage, prompt: seq<Token>) {
    && u.inputs == Some(|prompt|)
    && (if u.cached.Some? && 0 <= u.cached.value <= |prompt| then CountOf(prompt, Cached) == u.cached.value
        else CountOf(prompt, Cached) == 0)
    && (if u.written.Some? && 0 <= u.written.value <= |prompt| - CountOf(prompt, Cached)
        then CountOf(prompt, Written) == u.written.value && CountOf(prompt, Unsorted) == 0
        else CountOf(prompt, Written) == 0 && CountOf(prompt, Fresh) == 0)
  }

  lemma ReportConsists(u: Usage, prompt: seq<Token>)
    requires Usable(u) && Reports(u, prompt)
    ensures ChargedUsage(u).Some?
    ensures var (inputs, outputs, cached, written) := ChargedUsage(u).value;
            inputs == |prompt| && outputs == u.outputs.value && Consists(prompt, cached, written)
  {
  }

  lemma SettlementIsThePrice(r: Reservation, status: int, read: bool, usage: Option<Usage>)
    requires Settlement(r, status, read, usage).Some? && status !in REJECTIONS
    ensures usage.Some? && Usable(usage.value)
    ensures forall prompt :: Reports(usage.value, prompt) ==>
      && Settlement(r, status, read, usage).value >= 0
      && Covers(Settlement(r, status, read, usage).value, Price(r.rates, prompt, usage.value.outputs.value))
  {
    forall prompt | Reports(usage.value, prompt)
      ensures Settlement(r, status, read, usage).value >= 0
      ensures Covers(Settlement(r, status, read, usage).value, Price(r.rates, prompt, usage.value.outputs.value))
    {
      ReportConsists(usage.value, prompt);
      var (inputs, outputs, cached, written) := ChargedUsage(usage.value).value;
      ModelCostIsThePrice(r.rates, prompt, outputs, cached, written);
    }
  }

  /** Every usable report describes some prompt, so that its charge is fixed. */
  lemma UsableReportsDescribeAPrompt(u: Usage) returns (prompt: seq<Token>)
    requires Usable(u)
    ensures Reports(u, prompt)
  {
    var (inputs, outputs, cached, written) := ChargedUsage(u).value;
    prompt := SomePrompt(inputs, cached, written);
    EveryTokenIsCounted(prompt);
  }

  /** No more tokens than were reserved for. */
  predicate Covered(r: Reservation, u: Usage) {
    u.inputs.Some? && u.inputs.value <= r.inputBound && u.outputs.Some? && u.outputs.value <= r.outputLimit
  }

  /** One more entry: a live hold of the request's bound. */
  ghost predicate Held(before: seq<Entry>, after: seq<Entry>, r: Reservation) {
    && |after| == |before| + 1 && after[..|before|] == before && r.id == |before|
    && after[r.id].state == Reserved && after[r.id].kind == ModelCall
    && after[r.id].amount == after[r.id].reserved == Bound(r.rates, r.inputBound, r.outputLimit)
  }
}
