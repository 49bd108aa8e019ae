/** The autonomous strategy runner: budgets, slices and price triggers across failures and crashes. */
module StrategyRunner {
  import opened Prelude

  const MAX_CONSECUTIVE_ERRORS := 3
  const MIN_INTERVAL_SEC := 15.0
  const SLACK := 0.000000001

  datatype Status = Active | Paused | Done

  /** The parameters each kind reads. `peak` is None until a price has been seen. */
  datatype Params =
    | Dca(token: string, per: real, total: real, spent: real)
    | Twap(slicedToken: string, totalUi: real, slices: int, doneSlices: int, selling: bool)
    | TrailingStop(stopToken: string, dropPct: real, stopSize: real, peak: Option<real>)
    | TakeProfit(profitToken: string, gainPct: real, profitSize: real, entryPrice: real)

  datatype Row = Row(status: Status, params: Params, intervalSec: real, nextRunAt: real, runs: nat, errors: nat)

  /** `NoSource`: the executor has no price port. */
  datatype Price = NoSource | Rejected | Unknown | At(price: real)

  /** What becomes of a swap under a fresh key: the gateway is never reached, refuses, trades, or trades and still
      answers with an error, as it does for a fill it cannot verify and for a rejection after the send. */
  datatype SwapOutcome = NotReached | Refused | Traded | TradedUnbooked

  datatype Crash = NoCrash | BeforeSwap | BeforeSave

  datatype Moment = Moment(price: Price, swap: SwapOutcome, crash: Crash, now: real)

  datatype Plan = Skip | Finish | Throws | Swap(amountUi: real)

  // ---------------------------------------------------------------- planning

  function SliceCount(slices: int): int {
    if slices < 1 then 1 else slices
  }

  function Max(a: real, b: real): real {
    if a >= b then a else b
  }

  function Peak(p: Params, price: real): real
    requires p.TrailingStop?
  {
    if p.peak.Some? then Max(p.peak.value, price) else price
  }

  /** The plan, and the parameters as planning leaves them. */
  function PlanFor(p: Params, price: Price): (Plan, Params) {
    match p
    case Dca(token, per, total, spent) =>
      if token == "" || per <= 0.0 then (Finish, p)
      else if total > 0.0 && spent + per > total + SLACK then (Finish, p)
      else (Swap(per), p)
    case Twap(token, totalUi, slices, done, _) =>
      if token == "" || done >= SliceCount(slices) then (Finish, p)
      else (Swap(totalUi / SliceCount(slices) as real), p)
    case TrailingStop(token, dropPct, size, _) =>
      if token == "" || size <= 0.0 || price.NoSource? then (Skip, p)
      else if price.Rejected? then (Throws, p)
      else if price.Unknown? then (Skip, p)
      else
        var peak := Peak(p, price.price);
        (if price.price <= peak * (1.0 - dropPct / 100.0) then Swap(size) else Skip, p.(peak := Some(peak)))
    case TakeProfit(token, gainPct, size, entry) =>
      if token == "" || size <= 0.0 || entry <= 0.0 || price.NoSource? then (Skip, p)
      else if price.Rejected? then (Throws, p)
      else if price.Unknown? then (Skip, p)
      else (if price.price >= entry * (1.0 + gainPct / 100.0) then Swap(size) else Skip, p)
  }

  predicate OneShot(p: Params) {
    p.TrailingStop? || p.TakeProfit?
  }

  function Progress(r: Row, amountUi: real): Row {
    match r.params
    case Dca(_, _, _, spent) => r.(params := r.params.(spent := spent + amountUi))
    case Twap(_, _, _, done, _) => r.(params := r.params.(doneSlices := done + 1))
    case _ => r.(status := Done)
  }

  predicate IsComplete(p: Params) {
    match p
    case Dca(_, _, total, spent) => total > 0.0 && spent >= total - SLACK
    case Twap(_, _, slices, done, _) => done >= SliceCount(slices)
    case _ => false
  }

  function Reschedule(r: Row, now: real): Row {
    r.(nextRunAt := now + Max(MIN_INTERVAL_SEC, r.intervalSec) * 1000.0)
  }

  function Failed(r: Row): Row {
    var errors := r.errors + 1;
    r.(errors := errors, status := if errors >= MAX_CONSECUTIVE_ERRORS then Paused else r.status)
  }

  /** The row after a swap has answered, before it is saved. */
  function AfterSwap(r: Row, amountUi: real, ok: bool, now: real): Row {
    var ran := r.(runs := r.runs + 1);
    var moved := if ok then Progress(ran.(errors := 0), amountUi) else Failed(ran);
    Reschedule(if moved.status == Active && IsComplete(moved.params) then moved.(status := Done) else moved, now)
  }

  // ---------------------------------------------------------------- one step and the world it acts on

  /** `row` is the stored strategy; `used` the run numbers whose idempotency key the gateway has seen. History: amounts
      traded, how many of those trades answered ok to a runner that crashed before saving, how many answered with an
      error, and the prices saved steps have seen. */
  datatype World = World(row: Row, used: set<nat>, traded: seq<real>, lost: nat, unbooked: nat, observed: seq<real>)

  function SwapAt(w: World, key: nat, outcome: SwapOutcome, amountUi: real): (World, bool) {
    if outcome.NotReached? then (w, false)
    else if key in w.used then (w, false)
    else if outcome.Refused? then (w.(used := w.used + {key}), false)
    else
      var w1 := w.(used := w.used + {key}, traded := w.traded + [amountUi]);
      if outcome.Traded? then (w1, true) else (w1.(unbooked := w.unbooked + 1), false)
  }

  /** The prices a trailing stop has looked at. */
  function Seen(observed: seq<real>, p: Params, price: Price): seq<real> {
    if p.TrailingStop? && price.At? && p.stopToken != "" && p.stopSize > 0.0 then observed + [price.price] else observed
  }

  /** A saved step. */
  function Saved(w: World, r: Row, price: Price): World {
    w.(row := r, observed := Seen(w.observed, w.row.params, price))
  }

  function Step(w: World, m: Moment): World
    requires w.row.status == Active
  {
    var (plan, params) := PlanFor(w.row.params, m.price);
    Act(w, m, plan, params)
  }

  /** Carry out a plan; a crash leaves whatever had been saved before it. */
  function Act(w: World, m: Moment, plan: Plan, params: Params): World {
    var r := w.row.(params := params);
    if m.crash.BeforeSwap? then w
    else
      match plan
      case Finish => if m.crash.BeforeSave? then w else Saved(w, r.(status := Done), m.price)
      case Skip => if m.crash.BeforeSave? then w else Saved(w, Reschedule(r, m.now), m.price)
      case Throws => if m.crash.BeforeSave? then w else Saved(w, Reschedule(Failed(r), m.now), m.price)
      case Swap(amountUi) =>
        var (w1, ok) := SwapAt(w, w.row.runs, m.swap, amountUi);
        if m.crash.BeforeSave? then w1.(lost := if ok then w1.lost + 1 else w1.lost)
        else Saved(w1, AfterSwap(r, amountUi, ok, m.now), m.price)
  }

  // ---------------------------------------------------------------- the runner object

  class StrategyRunner {
    /** The saved row. */
    var stored: Row
    /** The gateway's side. */
    var used: set<nat>
    var traded: seq<real>
    ghost var lost: nat
    ghost var unbooked: nat
    ghost var observed: seq<real>

    ghost function State(): World
      reads this
    {
      World(stored, used, traded, lost, unbooked, observed)
    }

    constructor (row: Row)
      ensures State() == World(row, {}, [], 0, 0, [])
    {
      stored, used, traded, lost, unbooked, observed := row, {}, [], 0, 0, [];
    }

    method ExecuteSwap(key: nat, outcome: SwapOutcome, amountUi: real) returns (ok: bool)
      modifies this`used, this`traded, this`unbooked
      ensures (State(), ok) == SwapAt(old(State()), key, outcome, amountUi)
    {
      if outcome.NotReached? || key in used {
        return false;
      }
      used := used + {key};
      ok := outcome.Traded?;
      if ok || outcome.TradedUnbooked? {
        traded := traded + [amountUi];
      }
      if outcome.TradedUnbooked? {
        unbooked := unbooked + 1;
      }
    }

    /** One due strategy; a crash leaves whatever had been saved before it. */
    method StepOnce(m: Moment)
      requires stored.status == Active
      modifies this
      ensures State() == Step(old(State()), m)
    {
      if m.crash.BeforeSwap? {
        return;
      }
      var strat := stored;
      var (plan, params) := PlanFor(strat.params, m.price);
      strat := strat.(params := params);
      match plan {
      case Finish => strat := strat.(status := Done);
      case Skip => strat := Reschedule(strat, m.now);
      case Throws => strat := Reschedule(Failed(strat), m.now);
      case Swap(amountUi) =>
        var ok := ExecuteSwap(strat.runs, m.swap, amountUi);
        if ok && m.crash.BeforeSave? {
          lost := lost + 1;
        }
        strat := strat.(runs := strat.runs + 1);
        if ok {
          strat := Progress(strat.(errors := 0), amountUi);
        } else {
          strat := Failed(strat);
        }
        if strat.status == Active && IsComplete(strat.params) {
          strat := strat.(status := Done);
        }
        strat := Reschedule(strat, m.now);
      }
      if m.crash.NoCrash? {
        observed := Seen(observed, stored.params, m.price);
        stored := strat;
      }
    }
  }

  // ---------------------------------------------------------------- runs

  ghost predicate Runs(initial: Row, moments: seq<Moment>, w: World)
    decreases |moments|
  {
    if moments == [] then w == World(initial, {}, [], 0, 0, [])
    else
      var n := |moments| - 1;
      exists before ::
        Runs(initial, moments[..n], before) && before.row.status == Active && w == Step(before, moments[n])
  }

  function Total(amounts: seq<real>): real {
    if amounts == [] then 0.0 else Total(amounts[..|amounts| - 1]) + amounts[|amounts| - 1]
  }

  lemma TotalNext(amounts: seq<real>, x: real)
    ensures Total(amounts + [x]) == Total(amounts) + x
  {
    assert (amounts + [x])[..|amounts|] == amounts;
  }

  /** How many crashes fell between a trade and its save. */
  function Crashes(moments: seq<Moment>): nat {
    if moments == [] then 0
    else Crashes(moments[..|moments| - 1]) + if moments[|moments| - 1].crash.BeforeSave? then 1 else 0
  }

  /** How many swaps would trade and answer with an error. */
  function ErrorAnswers(moments: seq<Moment>): nat {
    if moments == [] then 0
    else ErrorAnswers(moments[..|moments| - 1]) + if moments[|moments| - 1].swap.TradedUnbooked? then 1 else 0
  }

  /** A used key is that of an earlier run, or of this one when a crash lost its save. */
  predicate KeysOk(w: World) {
    forall key | key in w.used :: key <= w.row.runs
  }

  /** What a step never changes about the parameters. */
  function Fixed(p: Params): Params {
    match p
    case Dca(_, _, _, _) => p.(spent := 0.0)
    case Twap(_, _, _, _, _) => p.(doneSlices := 0)
    case TrailingStop(_, _, _, _) => p.(peak := None)
    case TakeProfit(_, _, _, _) => p
  }

  lemma StepKeepsFixed(w: World, m: Moment)
    requires w.row.status == Active
    ensures Fixed(Step(w, m).row.params) == Fixed(w.row.params)
  {
  }

  lemma StepKeepsKeys(w: World, m: Moment)
    requires w.row.status == Active && KeysOk(w)
    ensures KeysOk(Step(w, m))
    ensures Step(w, m).lost <= w.lost + if m.crash.BeforeSave? then 1 else 0
    ensures Step(w, m).unbooked <= w.unbooked + if m.swap.TradedUnbooked? then 1 else 0
  {
  }

  lemma {:induction false} RunBasics(initial: Row, moments: seq<Moment>, w: World)
    requires Runs(initial, moments, w)
    ensures w.lost <= Crashes(moments) && w.unbooked <= ErrorAnswers(moments) && KeysOk(w)
    ensures Fixed(w.row.params) == Fixed(initial.params)
  {
    if moments != [] {
      var n := |moments| - 1;
      var before :| Runs(initial, moments[..n], before) && before.row.status == Active && w == Step(before, moments[n]);
      RunBasics(initial, moments[..n], before);
      StepKeepsFixed(before, moments[n]);
      StepKeepsKeys(before, moments[n]);
    }
  }

  /** `x`, `n` times. */
  function Times(n: int, x: real): real
    decreases if n < 0 then 0 else n
  {
    if n <= 0 then 0.0 else Times(n - 1, x) + x
  }

  lemma TimesNext(n: nat, x: real)
    ensures Times(n + 1, x) == Times(n, x) + x
  {
  }

  lemma {:induction false} TimesIsProduct(n: nat, x: real)
    ensures Times(n, x) == n as real * x
    decreases n
  {
    if n > 0 {
      TimesIsProduct(n - 1, x);
      assert n as real * x == (n - 1) as real * x + x;
    }
  }

  lemma {:induction false} TimesGrows(a: nat, b: nat, x: real)
    requires a <= b && x >= 0.0
    ensures Times(a, x) <= Times(b, x)
    decreases b
  {
    if a < b {
      TimesGrows(a, b - 1, x);
    }
  }

  lemma {:induction false} TimesSplits(a: nat, b: nat, x: real)
    ensures Times(a + b, x) == Times(a, x) + Times(b, x)
    decreases b
  {
    if b > 0 {
      TimesSplits(a, b - 1, x);
    }
  }

  // ---------------------------------------------------------------- DCA

  /** Trades the row was never told of. */
  function OffTheBooks(w: World): nat {
    w.lost + w.unbooked
  }

  /** Everything traded is on the books, except one step for each such trade. */
  ghost predicate DcaBooks(initial: Params, w: World) {
    && initial.Dca? && w.row.params.Dca?
    && Total(w.traded) == w.row.params.spent - initial.spent + Times(OffTheBooks(w), initial.per)
    && (initial.total > 0.0 && w.traded != [] ==>
      Total(w.traded) <= initial.total + SLACK - initial.spent + Times(OffTheBooks(w), initial.per))
  }

  lemma DcaPlan(p: Params, price: Price)
    requires p.Dca?
    ensures PlanFor(p, price)
         == (if p.token == "" || p.per <= 0.0 || (p.total > 0.0 && p.spent + p.per > p.total + SLACK) then Finish
           else Swap(p.per), p)
  {
  }

  /** Either nothing was traded, or one step was, and it is on the books or off them. */
  lemma DcaAdvances(w: World, m: Moment, plan: Plan, per: real)
    requires w.row.params.Dca? && (plan.Finish? || plan == Swap(per))
    ensures var p, w' := w.row.params, Act(w, m, plan, w.row.params);
      || (w'.traded == w.traded && w'.row.params == p && OffTheBooks(w') == OffTheBooks(w))
      || (plan.Swap? && w'.traded == w.traded + [per]
          && ((w'.row.params == p.(spent := p.spent + per) && OffTheBooks(w') == OffTheBooks(w))
              || (w'.row.params == p && OffTheBooks(w') == OffTheBooks(w) + 1)))
  {
  }

  lemma DcaBooked(initial: Params, w: World, m: Moment, plan: Plan)
    requires DcaBooks(initial, w) && w.row.params.per == initial.per && w.row.params.total == initial.total
    requires plan.Finish?
      || (plan == Swap(initial.per) && initial.per > 0.0
          && (initial.total > 0.0 ==> w.row.params.spent + initial.per <= initial.total + SLACK))
    ensures DcaBooks(initial, Act(w, m, plan, w.row.params))
  {
    var w' := Act(w, m, plan, w.row.params);
    TotalNext(w.traded, initial.per);
    TimesNext(OffTheBooks(w), initial.per);
    DcaAdvances(w, m, plan, initial.per);
  }

  lemma DcaStep(initial: Params, w: World, m: Moment)
    requires DcaBooks(initial, w) && w.row.status == Active && Fixed(w.row.params) == Fixed(initial)
    ensures DcaBooks(initial, Step(w, m))
  {
    DcaPlan(w.row.params, m.price);
    DcaBooked(initial, w, m, PlanFor(w.row.params, m.price).0);
  }

  lemma {:induction false} DcaKeepsBooks(initial: Row, moments: seq<Moment>, w: World)
    requires Runs(initial, moments, w) && initial.params.Dca?
    ensures DcaBooks(initial.params, w)
  {
    if moments != [] {
      var n := |moments| - 1;
      var before :| Runs(initial, moments[..n], before) && before.row.status == Active && w == Step(before, moments[n]);
      DcaKeepsBooks(initial, moments[..n], before);
      RunBasics(initial, moments[..n], before);
      DcaStep(initial.params, before, moments[n]);
    }
  }

  lemma DcaBound(initial: Params, w: World)
    requires DcaBooks(initial, w) && initial.total > 0.0 && initial.spent <= initial.total && initial.per > 0.0
    ensures Total(w.traded) <= initial.total - initial.spent + SLACK + Times(OffTheBooks(w), initial.per)
  {
    TimesGrows(0, OffTheBooks(w), initial.per);
  }

  /** A budgeted DCA trades at most the rest of its budget (plus the slack), one step more for each crash that lost the
      save of a trade, and one step more for each trade that was answered with an error. */
  lemma DcaStaysWithinBudget(initial: Row, moments: seq<Moment>, w: World)
    requires Runs(initial, moments, w) && initial.params.Dca?
    requires initial.params.total > 0.0 && initial.params.spent <= initial.params.total && initial.params.per > 0.0
    ensures Total(w.traded) <= initial.params.total - initial.params.spent + SLACK
      + Times(OffTheBooks(w), initial.params.per)
    ensures w.lost <= Crashes(moments) && w.unbooked <= ErrorAnswers(moments)
  {
    DcaKeepsBooks(initial, moments, w);
    RunBasics(initial, moments, w);
    DcaBound(initial.params, w);
  }

  lemma TimesIsZero(n: nat, x: real)
    requires x != 0.0
    ensures Times(n, x) == 0.0 <==> n == 0
  {
    TimesIsProduct(n, x);
  }

  /** The amount booked is the amount traded exactly when no save was lost and no trade answered with an error. */
  lemma DcaBooksAgreeExactly(initial: Row, moments: seq<Moment>, w: World)
    requires Runs(initial, moments, w) && initial.params.Dca? && initial.params.per > 0.0
    ensures w.row.params.Dca?
    ensures w.row.params.spent - initial.params.spent == Total(w.traded) <==> w.lost + w.unbooked == 0
  {
    DcaKeepsBooks(initial, moments, w);
    TimesIsZero(OffTheBooks(w), initial.params.per);
  }

  // ---------------------------------------------------------------- TWAP

  function Slice(p: Params): real
    requires p.Twap?
  {
    p.totalUi / SliceCount(p.slices) as real
  }

  ghost predicate TwapBooks(initial: Params, slice: real, w: World) {
    && initial.Twap? && w.row.params.Twap?
    && Total(w.traded) == Times(w.row.params.doneSlices - initial.doneSlices + OffTheBooks(w), slice)
    && initial.doneSlices <= w.row.params.doneSlices
    && (initial.doneSlices <= SliceCount(initial.slices) ==> w.row.params.doneSlices <= SliceCount(initial.slices))
    && (w.row.status == Done && initial.slicedToken != "" ==> w.row.params.doneSlices >= SliceCount(initial.slices))
  }

  lemma TwapPlan(p: Params, price: Price)
    requires p.Twap?
    ensures PlanFor(p, price)
         == (if p.slicedToken == "" || p.doneSlices >= SliceCount(p.slices) then Finish else Swap(Slice(p)), p)
  {
  }

  lemma SameSlice(p: Params, q: Params)
    requires p.Twap? && Fixed(p) == Fixed(q)
    ensures q.Twap? && Slice(p) == Slice(q) && p.slices == q.slices && p.slicedToken == q.slicedToken
  {
  }

  lemma TwapStep(initial: Params, w: World, m: Moment)
    requires initial.Twap? && TwapBooks(initial, Slice(initial), w)
    requires w.row.status == Active && Fixed(w.row.params) == Fixed(initial)
    ensures TwapBooks(initial, Slice(initial), Step(w, m))
  {
    TwapPlan(w.row.params, m.price);
    SameSlice(initial, w.row.params);
    TwapBooked(initial, w, m, Slice(initial), PlanFor(w.row.params, m.price).0);
  }

  lemma TwapBooked(initial: Params, w: World, m: Moment, slice: real, plan: Plan)
    requires TwapBooks(initial, slice, w) && w.row.status == Active
    requires w.row.params.slices == initial.slices && w.row.params.slicedToken == initial.slicedToken
    requires plan == if initial.slicedToken == "" || w.row.params.doneSlices >= SliceCount(initial.slices) then Finish
      else Swap(slice)
    ensures TwapBooks(initial, slice, Act(w, m, plan, w.row.params))
  {
    var w' := Act(w, m, plan, w.row.params);
    var k := w.row.params.doneSlices - initial.doneSlices + OffTheBooks(w);
    TotalNext(w.traded, slice);
    TimesNext(k, slice);
    TwapAdvances(w, m, plan, slice);
  }

  /** Either nothing was traded, or one slice was, and it is on the books or off them. */
  lemma TwapAdvances(w: World, m: Moment, plan: Plan, slice: real)
    requires w.row.params.Twap? && (plan.Finish? || plan == Swap(slice))
    ensures var w' := Act(w, m, plan, w.row.params);
      && w'.row.params.Twap? && w.row.params.doneSlices <= w'.row.params.doneSlices <= w.row.params.doneSlices + 1
      && (w'.traded == w.traded ==>
        w'.row.params.doneSlices == w.row.params.doneSlices && OffTheBooks(w') == OffTheBooks(w))
      && (w'.traded != w.traded ==>
        && plan.Swap? && w'.traded == w.traded + [slice]
        && w'.row.params.doneSlices + OffTheBooks(w') == w.row.params.doneSlices + OffTheBooks(w) + 1)
  {
  }

  lemma {:induction false} TwapKeepsBooks(initial: Row, moments: seq<Moment>, w: World)
    requires Runs(initial, moments, w) && initial.params.Twap? && initial.status == Active
    ensures TwapBooks(initial.params, Slice(initial.params), w)
  {
    if moments != [] {
      var n := |moments| - 1;
      var before :| Runs(initial, moments[..n], before) && before.row.status == Active && w == Step(before, moments[n]);
      TwapKeepsBooks(initial, moments[..n], before);
      RunBasics(initial, moments[..n], before);
      TwapStep(initial.params, before, moments[n]);
    }
  }

  lemma SlicesMakeTheTotal(p: Params)
    requires p.Twap?
    ensures Times(SliceCount(p.slices), Slice(p)) == p.totalUi
  {
    TimesIsProduct(SliceCount(p.slices), Slice(p));
  }

  lemma TwapSum(initial: Params, w: World, slice: real, totalUi: real)
    requires TwapBooks(initial, slice, w) && initial.doneSlices == 0 && initial.slicedToken != ""
      && w.row.status == Done
    requires Times(SliceCount(initial.slices), slice) == totalUi
    ensures Total(w.traded) == totalUi + Times(OffTheBooks(w), slice)
  {
    assert w.row.params.doneSlices == SliceCount(initial.slices);
    TimesSplits(SliceCount(initial.slices), OffTheBooks(w), slice);
  }

  /** A finished TWAP has traded exactly its total, plus one slice for every trade whose save a crash lost and one for
      every trade answered with an error. */
  lemma TwapTradesItsTotal(initial: Row, moments: seq<Moment>, w: World)
    requires Runs(initial, moments, w) && initial.params.Twap? && initial.status == Active
    requires initial.params.doneSlices == 0 && initial.params.slicedToken != "" && w.row.status == Done
    ensures Total(w.traded) == initial.params.totalUi + Times(OffTheBooks(w), Slice(initial.params))
    ensures w.lost <= Crashes(moments) && w.unbooked <= ErrorAnswers(moments)
  {
    TwapKeepsBooks(initial, moments, w);
    RunBasics(initial, moments, w);
    SlicesMakeTheTotal(initial.params);
    TwapSum(initial.params, w, Slice(initial.params), initial.params.totalUi);
  }

  /** At any time the slices booked make up the amount traded exactly when no save was lost and no trade answered with
      an error. */
  lemma TwapBooksAgreeExactly(initial: Row, moments: seq<Moment>, w: World)
    requires Runs(initial, moments, w) && initial.params.Twap? && initial.status == Active
      && initial.params.totalUi != 0.0
    ensures w.row.params.Twap? && initial.params.doneSlices <= w.row.params.doneSlices
    ensures BookedSlices(initial.params, w) == Total(w.traded) <==> w.lost + w.unbooked == 0
  {
    TwapKeepsBooks(initial, moments, w);
    SliceIsNotZero(initial.params);
    TwapBooksMatch(initial.params, w, Slice(initial.params));
  }

  /** What the slices booked since then amount to. */
  function BookedSlices(initial: Params, w: World): real
    requires initial.Twap? && w.row.params.Twap?
  {
    Times(w.row.params.doneSlices - initial.doneSlices, Slice(initial))
  }

  lemma SliceIsNotZero(p: Params)
    requires p.Twap? && p.totalUi != 0.0
    ensures Slice(p) != 0.0
  {
    SlicesMakeTheTotal(p);
    TimesIsProduct(SliceCount(p.slices), Slice(p));
  }

  lemma TwapBooksMatch(initial: Params, w: World, slice: real)
    requires TwapBooks(initial, slice, w) && slice == Slice(initial) && slice != 0.0
    ensures BookedSlices(initial, w) == Total(w.traded) <==> w.lost + w.unbooked == 0
  {
    TimesSplits(w.row.params.doneSlices - initial.doneSlices, OffTheBooks(w), slice);
    TimesIsZero(OffTheBooks(w), slice);
  }

  // ---------------------------------------------------------------- price triggers

  function Highest(prices: seq<real>): Option<real> {
    if prices == [] then None
    else
      var before, last := Highest(prices[..|prices| - 1]), prices[|prices| - 1];
      if before.Some? then Some(Max(before.value, last)) else Some(last)
  }

  lemma HighestNext(prices: seq<real>, x: real)
    ensures Highest(prices + [x]) == Some(if Highest(prices).Some? then Max(Highest(prices).value, x) else x)
  {
    assert (prices + [x])[..|prices|] == prices;
  }

  lemma {:induction false} HighestIsHighest(prices: seq<real>)
    requires prices != []
    ensures Highest(prices).Some? && Highest(prices).value in prices
    ensures forall x :: x in prices ==> x <= Highest(prices).value
  {
    if |prices| > 1 {
      HighestIsHighest(prices[..|prices| - 1]);
    }
    assert prices == prices[..|prices| - 1] + [prices[|prices| - 1]];
  }

  /** One-shot strategies: the stored peak is the running maximum of the prices seen, and every trade but the one that
      finished the strategy is off the books. */
  ghost predicate TriggerBooks(initial: Params, w: World) {
    && OneShot(initial)
    && (initial.TrailingStop? && w.row.params.TrailingStop? ==> w.row.params.peak == Highest(w.observed))
    && |w.traded| == OffTheBooks(w) + if w.row.status == Done then 1 else 0
  }

  lemma PlanKeepsPeak(p: Params, price: Price)
    requires OneShot(p)
    ensures PlanFor(p, price).1
         == if p.TrailingStop? && price.At? && p.stopToken != ""
           && p.stopSize > 0.0 then p.(peak := Some(Peak(p, price.price))) else p
    ensures !PlanFor(p, price).0.Finish?
  {
  }

  predicate Looked(w: World, m: Moment) {
    w.row.params.TrailingStop? && m.price.At? && w.row.params.stopToken != "" && w.row.params.stopSize > 0.0
  }

  lemma AfterSwapKeepsPeak(r: Row, amountUi: real, ok: bool, now: real)
    requires r.params.TrailingStop?
    ensures AfterSwap(r, amountUi, ok, now).params == r.params
  {
  }

  lemma PeakBooked(w: World, m: Moment, plan: Plan, params: Params)
    requires w.row.params.TrailingStop? && w.row.params.peak == Highest(w.observed)
    requires params == if Looked(w, m) then w.row.params.(peak := Some(Peak(w.row.params, m.price.price)))
      else w.row.params
    ensures var w' := Act(w, m, plan, params);
      w'.row.params.TrailingStop? && w'.row.params.peak == Highest(w'.observed)
  {
    if m.price.At? {
      HighestNext(w.observed, m.price.price);
    }
    SavedParams(w, m, plan, params);
  }

  /** A saved step stores the planned parameters of a trailing stop and looks at its price; a lost one changes
      neither. */
  lemma SavedParams(w: World, m: Moment, plan: Plan, params: Params)
    requires w.row.params.TrailingStop? && params.TrailingStop?
    ensures var w' := Act(w, m, plan, params);
      || (w'.row.params == w.row.params && w'.observed == w.observed)
      || (w'.row.params == params && w'.observed == Seen(w.observed, w.row.params, m.price))
  {
    if plan.Swap? {
      AfterSwapKeepsPeak(w.row.(params := params), plan.amountUi, SwapAt(w, w.row.runs, m.swap, plan.amountUi).1,
        m.now);
    }
  }

  lemma TradesBooked(w: World, m: Moment, plan: Plan, params: Params)
    requires |w.traded| == OffTheBooks(w) && w.row.status == Active && OneShot(params) && !plan.Finish?
    ensures var w' := Act(w, m, plan, params);
      |w'.traded| == OffTheBooks(w') + if w'.row.status == Done then 1 else 0
  {
  }

  lemma TriggerStep(initial: Params, w: World, m: Moment)
    requires TriggerBooks(initial, w) && w.row.status == Active
    requires Fixed(w.row.params) == Fixed(initial)
    ensures TriggerBooks(initial, Step(w, m))
  {
    PlanKeepsPeak(w.row.params, m.price);
    var (plan, params) := PlanFor(w.row.params, m.price);
    TradesBooked(w, m, plan, params);
    if initial.TrailingStop? {
      PeakBooked(w, m, plan, params);
    }
  }

  lemma {:induction false} TriggersFollowThePeak(initial: Row, moments: seq<Moment>, w: World)
    requires Runs(initial, moments, w) && OneShot(initial.params)
      && (initial.params.TrailingStop? ==> initial.params.peak.None?)
    requires initial.status == Active
    ensures TriggerBooks(initial.params, w)
  {
    if moments != [] {
      var n := |moments| - 1;
      var before :| Runs(initial, moments[..n], before) && before.row.status == Active && w == Step(before, moments[n]);
      TriggersFollowThePeak(initial, moments[..n], before);
      RunBasics(initial, moments[..n], before);
      TriggerStep(initial.params, before, moments[n]);
    }
  }

  /** A price trigger trades once when it is done, once more for each lost save and once more for each trade answered
      with an error; its stored peak is the highest price it has saved. */
  lemma TriggersTradeOnceUnlessMisinformed(initial: Row, moments: seq<Moment>, w: World)
    requires Runs(initial, moments, w) && OneShot(initial.params)
      && (initial.params.TrailingStop? ==> initial.params.peak.None?)
    requires initial.status == Active
    ensures |w.traded| == w.lost + w.unbooked + if w.row.status == Done then 1 else 0
    ensures |w.traded| <= 1 + Crashes(moments) + w.unbooked && w.unbooked <= ErrorAnswers(moments)
    ensures initial.params.TrailingStop? && w.row.params.TrailingStop? ==> w.row.params.peak == Highest(w.observed)
  {
    TriggersFollowThePeak(initial, moments, w);
    RunBasics(initial, moments, w);
  }

  /** What the error breaker leaves room for: while the row is active, each trade of a trigger has cost it an error or a
      lost save. */
  predicate BreakerBooks(initial: Row, crashes: nat, w: World) {
    && OneShot(w.row.params)
    && if w.row.status == Active then
         |w.traded| + initial.errors <= w.row.errors + crashes
         && (w.row.errors == initial.errors || w.row.errors < MAX_CONSECUTIVE_ERRORS)
       else |w.traded| <= MAX_CONSECUTIVE_ERRORS + crashes
  }

  lemma BreakerStep(initial: Row, crashes: nat, w: World, m: Moment)
    requires BreakerBooks(initial, crashes, w) && w.row.status == Active
    ensures BreakerBooks(initial, crashes + if m.crash.BeforeSave? then 1 else 0, Step(w, m))
  {
    PlanKeepsPeak(w.row.params, m.price);
  }

  /** However many trades are answered with errors, the breaker stops a trigger after three, and one more per lost
      save. */
  lemma {:induction false} BreakerBoundsTriggers(initial: Row, moments: seq<Moment>, w: World)
    requires Runs(initial, moments, w) && OneShot(initial.params)
    ensures BreakerBooks(initial, Crashes(moments), w)
    ensures |w.traded| <= MAX_CONSECUTIVE_ERRORS + Crashes(moments)
  {
    if moments != [] {
      var n := |moments| - 1;
      var before :| Runs(initial, moments[..n], before) && before.row.status == Active && w == Step(before, moments[n]);
      BreakerBoundsTriggers(initial, moments[..n], before);
      BreakerStep(initial, Crashes(moments[..n]), before, moments[n]);
    }
  }

  // ---------------------------------------------------------------- the failing inputs

  lemma RunsNext(initial: Row, moments: seq<Moment>, w: World, m: Moment)
    requires Runs(initial, moments, w) && w.row.status == Active
    ensures Runs(initial, moments + [m], Step(w, m))
  {
    var more := moments + [m];
    assert more[..|more| - 1] == moments && more[|more| - 1] == m;
  }

  /** The trade is made, the answer is an error: the row stays as it was planned, armed for the next tick under a new
      key. */
  lemma UnbookedTradeIsRepeated(w: World, m: Moment)
    requires w.row.status == Active && KeysOk(w) && w.row.runs !in w.used && w.row.errors + 1 < MAX_CONSECUTIVE_ERRORS
    requires !IsComplete(w.row.params) && PlanFor(w.row.params, m.price).0.Swap? && m.swap.TradedUnbooked?
      && m.crash.NoCrash?
    ensures var w' := Step(w, m);
      && w'.traded == w.traded + [PlanFor(w.row.params, m.price).0.amountUi]
      && w'.row.params == PlanFor(w.row.params, m.price).1 && w'.row.status == Active
      && w'.row.errors == w.row.errors + 1 && w'.row.runs == w.row.runs + 1
      && KeysOk(w') && w'.row.runs !in w'.used
      && PlanFor(w'.row.params, m.price) == PlanFor(w.row.params, m.price).(1 := w'.row.params)
  {
  }

  /** Any armed trigger can sell three times over without a single crash: two trades answered with errors, then one that
      is booked. */
  lemma TriggerCanTradeThrice(initial: Row, price: Price, now: real)
    requires initial.status == Active && initial.errors == 0 && OneShot(initial.params)
    requires PlanFor(initial.params, price).0.Swap?
    ensures exists moments, w ::
      Runs(initial, moments, w) && Crashes(moments) == 0 && |w.traded| == 3 && w.row.status == Done
  {
    var bad, good := Moment(price, TradedUnbooked, NoCrash, now), Moment(price, Traded, NoCrash, now);
    var w := TwoUnbookedThenDone(initial, bad, good);
    NoCrashIsCounted(bad, good);
    assert Runs(initial, [bad, bad] + [good], w);
  }

  lemma TwoUnbookedThenDone(initial: Row, bad: Moment, good: Moment) returns (w: World)
    requires initial.status == Active && initial.errors == 0 && OneShot(initial.params)
    requires bad.swap.TradedUnbooked? && good.swap.Traded? && bad.crash.NoCrash? && good.crash.NoCrash?
      && bad.price == good.price
    requires PlanFor(initial.params, bad.price).0.Swap?
    ensures Runs(initial, [bad, bad] + [good], w) && |w.traded| == 3 && w.row.status == Done
  {
    var w0 := World(initial, {}, [], 0, 0, []);
    assert Runs(initial, [], w0);
    var w1 := AnotherUnbookedTrade(initial, [], w0, bad);
    assert [] + [bad] == [bad] && [bad] + [bad] == [bad, bad];
    var w2 := AnotherUnbookedTrade(initial, [bad], w1, bad);
    w := Step(w2, good);
    RunsNext(initial, [bad, bad], w2, good);
    BookedTradeFinishes(w2, good);
  }

  /** A trigger still armed at this price after `|moments|` trades, none of them booked. */
  predicate Armed(moments: seq<Moment>, w: World, price: Price) {
    && w.row.status == Active && OneShot(w.row.params) && PlanFor(w.row.params, price).0.Swap?
    && KeysOk(w) && w.row.runs !in w.used && w.row.errors == |moments| == |w.traded|
  }

  lemma AnotherUnbookedTrade(initial: Row, moments: seq<Moment>, w: World, m: Moment) returns (w': World)
    requires Runs(initial, moments, w) && Armed(moments, w, m.price) && |moments| + 1 < MAX_CONSECUTIVE_ERRORS
    requires m.swap.TradedUnbooked? && m.crash.NoCrash?
    ensures Runs(initial, moments + [m], w') && Armed(moments + [m], w', m.price)
  {
    w' := Step(w, m);
    UnbookedTradeIsRepeated(w, m);
    RunsNext(initial, moments, w, m);
  }

  lemma BookedTradeFinishes(w: World, m: Moment)
    requires w.row.status == Active && OneShot(w.row.params) && PlanFor(w.row.params, m.price).0.Swap?
    requires w.row.runs !in w.used && m.swap.Traded? && m.crash.NoCrash?
    ensures Step(w, m).row.status == Done && |Step(w, m).traded| == |w.traded| + 1
  {
  }

  lemma NoCrashIsCounted(bad: Moment, good: Moment)
    requires bad.crash.NoCrash? && good.crash.NoCrash?
    ensures Crashes([bad, bad] + [good]) == 0
  {
    var three := [bad, bad] + [good];
    assert three[..2] == [bad, bad] && [bad, bad][..1] == [bad] && [bad][..0] == [];
    assert Crashes([bad]) == 0;
    assert Crashes([bad, bad]) == 0;
  }

  /** No crash so far, and the next key has not been used. */
  predicate Smooth(moments: seq<Moment>, w: World) {
    Crashes(moments) == 0 && KeysOk(w) && w.row.runs !in w.used
  }

  lemma SwapUsesItsKey(w: World, m: Moment)
    requires w.row.status == Active && KeysOk(w) && w.row.runs !in w.used && m.crash.NoCrash?
    requires !m.swap.NotReached? && PlanFor(w.row.params, m.price).0.Swap?
    ensures KeysOk(Step(w, m)) && Step(w, m).row.runs !in Step(w, m).used
  {
    StepKeepsKeys(w, m);
    assert Step(w, m).used == w.used + {w.row.runs} && Step(w, m).row.runs == w.row.runs + 1;
  }

  lemma CrashesNext(moments: seq<Moment>, m: Moment)
    ensures Crashes(moments + [m]) == Crashes(moments) + if m.crash.BeforeSave? then 1 else 0
  {
    assert (moments + [m])[..|moments|] == moments;
  }

  lemma SmoothNext(initial: Row, moments: seq<Moment>, w: World, m: Moment)
    requires Runs(initial, moments, w) && w.row.status == Active && Smooth(moments, w) && m.crash.NoCrash?
    requires !m.swap.NotReached? && PlanFor(w.row.params, m.price).0.Swap?
    ensures Runs(initial, moments + [m], Step(w, m)) && Smooth(moments + [m], Step(w, m))
  {
    RunsNext(initial, moments, w, m);
    CrashesNext(moments, m);
    SwapUsesItsKey(w, m);
  }

  /** A booked step of a budgeted DCA. */
  lemma DcaBooksOne(w: World, m: Moment)
    requires w.row.status == Active && w.row.params.Dca? && PlanFor(w.row.params, m.price).0.Swap?
    requires w.row.runs !in w.used && m.swap.Traded? && m.crash.NoCrash?
    ensures var p, w' := w.row.params, Step(w, m);
      && w'.row.params == p.(spent := p.spent + p.per)
      && w'.row.status == (if IsComplete(w'.row.params) then Done else Active)
      && OffTheBooks(w') == OffTheBooks(w)
  {
  }

  lemma Finishes(initial: Row, moments: seq<Moment>, w: World, m: Moment) returns (end: World)
    requires Runs(initial, moments, w) && w.row.status == Active && Crashes(moments) == 0 && m.crash.NoCrash?
    requires !OneShot(w.row.params) && PlanFor(w.row.params, m.price).0.Finish?
    ensures Runs(initial, moments + [m], end) && Crashes(moments + [m]) == 0
    ensures end.row == w.row.(status := Done) && OffTheBooks(end) == OffTheBooks(w)
  {
    end := Step(w, m);
    RunsNext(initial, moments, w, m);
    CrashesNext(moments, m);
  }

  /** `n` more steps spend the budget. */
  predicate DcaRoom(p: Params, n: nat)
    decreases n
  {
    p.Dca? && p.token != "" && p.per > SLACK && p.total > 0.0
    && (p.spent + p.per > p.total + SLACK || (n > 0 && DcaRoom(p.(spent := p.spent + p.per), n - 1)))
  }

  lemma {:induction false} DcaRoomFor(p: Params, n: nat)
    requires p.Dca? && p.token != "" && p.per > SLACK && p.total > 0.0
    requires Times(n, p.per) > p.total + SLACK - p.spent
    ensures DcaRoom(p, n)
    decreases n
  {
    if n > 0 {
      TimesNext(n - 1, p.per);
      DcaRoomFor(p.(spent := p.spent + p.per), n - 1);
    }
  }

  lemma DcaGoesOn(initial: Row, moments: seq<Moment>, w: World, good: Moment) returns (after: World)
    requires Runs(initial, moments, w) && w.row.status == Active && Smooth(moments, w) && w.row.params.Dca?
    requires PlanFor(w.row.params, good.price).0.Swap? && good.swap.Traded? && good.crash.NoCrash?
    ensures Runs(initial, moments + [good], after) && Smooth(moments + [good], after)
    ensures var p := w.row.params;
      && after.row.params == p.(spent := p.spent + p.per) && OffTheBooks(after) == OffTheBooks(w)
      && after.row.status == if IsComplete(after.row.params) then Done else Active
  {
    after := Step(w, good);
    SmoothNext(initial, moments, w, good);
    DcaBooksOne(w, good);
  }

  /** To less than one step. */
  predicate NearlySpent(p: Params) {
    p.Dca? && p.spent > p.total - p.per
  }

  lemma RoomLeft(p: Params, n: nat, price: Price)
    requires DcaRoom(p, n)
    ensures PlanFor(p, price).0.Finish? ==> NearlySpent(p)
    ensures !PlanFor(p, price).0.Finish? ==>
      PlanFor(p, price).0.Swap? && n > 0 && DcaRoom(p.(spent := p.spent + p.per), n - 1)
    ensures IsComplete(p) ==> NearlySpent(p)
    ensures IsComplete(p.(spent := p.spent + p.per)) ==> NearlySpent(p.(spent := p.spent + p.per))
  {
    DcaPlan(p, price);
  }

  /** A DCA whose swaps from now on all succeed spends its budget; `n` steps are enough. */
  lemma {:induction false} DcaRunsOut(initial: Row, moments: seq<Moment>, w: World, good: Moment, n: nat)
    returns (all: seq<Moment>, end: World)
    requires Runs(initial, moments, w) && w.row.status == Active && Smooth(moments, w) && DcaRoom(w.row.params, n)
    requires good.swap.Traded? && good.crash.NoCrash?
    ensures Runs(initial, all, end) && Crashes(all) == 0 && end.row.status == Done && OffTheBooks(end) == OffTheBooks(w)
    ensures NearlySpent(end.row.params)
    decreases n
  {
    RoomLeft(w.row.params, n, good.price);
    all := moments + [good];
    if PlanFor(w.row.params, good.price).0.Finish? {
      end := Finishes(initial, moments, w, good);
    } else {
      end := DcaGoesOn(initial, moments, w, good);
      if end.row.status == Active {
        all, end := DcaRunsOut(initial, all, end, good, n - 1);
      }
    }
  }

  lemma EnoughSteps(rest: real, per: real) returns (n: nat)
    requires per > 0.0
    ensures Times(n, per) > rest
  {
    n := if rest < 0.0 then 1 else (rest / per).Floor + 1;
    TimesIsProduct(n, per);
    if rest >= 0.0 {
      assert n as real > rest / per;
      assert n as real * per > rest / per * per == rest;
    } else {
      assert n as real * per == per;
    }
  }

  function Rest(p: Params): real
    requires p.Dca?
  {
    p.total - p.spent
  }

  /** A finished run without a crash in which more than this was traded. */
  ghost predicate TradesMoreThan(initial: Row, moments: seq<Moment>, w: World, amount: real) {
    Runs(initial, moments, w) && Crashes(moments) == 0 && w.row.status == Done && Total(w.traded) > amount
  }

  /** Any budgeted DCA with a step to make can pass its budget without a crash: one trade answered with an error is
      enough. */
  lemma DcaCanPassItsBudget(initial: Row, price: Price, now: real)
    requires initial.status == Active && initial.errors == 0 && initial.params.Dca?
    requires initial.params.total > 0.0 && initial.params.per > SLACK && PlanFor(initial.params, price).0.Swap?
    requires !IsComplete(initial.params)
    ensures exists moments, w :: TradesMoreThan(initial, moments, w, Rest(initial.params))
  {
    var bad, good := Moment(price, TradedUnbooked, NoCrash, now), Moment(price, Traded, NoCrash, now);
    var w1 := StartsUnbooked(initial, bad);
    var p := w1.row.params;
    var n := EnoughSteps(p.total + SLACK - p.spent, p.per);
    DcaRoomFor(p, n);
    var all, end := DcaRunsOut(initial, [bad], w1, good, n);
    DcaKeepsBooks(initial, all, end);
    RunBasics(initial, all, end);
    OneTimes(initial.params.per);
    assert TradesMoreThan(initial, all, end, Rest(initial.params));
  }

  lemma OneTimes(x: real)
    ensures Times(1, x) == x
  {
    TimesNext(0, x);
  }

  /** The first swap trades and is answered with an error. */
  lemma StartsUnbooked(initial: Row, bad: Moment) returns (w: World)
    requires initial.status == Active && initial.errors == 0 && !IsComplete(initial.params)
    requires PlanFor(initial.params, bad.price).0.Swap? && bad.swap.TradedUnbooked? && bad.crash.NoCrash?
    ensures Runs(initial, [bad], w) && Smooth([bad], w) && w.row.status == Active && OffTheBooks(w) == 1
    ensures w.row.params == PlanFor(initial.params, bad.price).1
  {
    var w0 := World(initial, {}, [], 0, 0, []);
    assert Runs(initial, [], w0) && Smooth([], w0);
    w := Step(w0, bad);
    UnbookedTradeIsRepeated(w0, bad);
    SmoothNext(initial, [], w0, bad);
    assert [] + [bad] == [bad];
  }

  lemma TwapBooksOne(w: World, m: Moment)
    requires w.row.status == Active && w.row.params.Twap? && PlanFor(w.row.params, m.price).0.Swap?
    requires w.row.runs !in w.used && m.swap.Traded? && m.crash.NoCrash?
    ensures var p, w' := w.row.params, Step(w, m);
      && w'.row.params == p.(doneSlices := p.doneSlices + 1)
      && w'.row.status == (if IsComplete(w'.row.params) then Done else Active)
      && OffTheBooks(w') == OffTheBooks(w)
  {
  }

  lemma TwapGoesOn(initial: Row, moments: seq<Moment>, w: World, good: Moment) returns (after: World)
    requires Runs(initial, moments, w) && w.row.status == Active && Smooth(moments, w) && w.row.params.Twap?
    requires PlanFor(w.row.params, good.price).0.Swap? && good.swap.Traded? && good.crash.NoCrash?
    ensures Runs(initial, moments + [good], after) && Smooth(moments + [good], after)
    ensures var p := w.row.params;
      && after.row.params == p.(doneSlices := p.doneSlices + 1) && OffTheBooks(after) == OffTheBooks(w)
      && after.row.status == if IsComplete(after.row.params) then Done else Active
  {
    after := Step(w, good);
    SmoothNext(initial, moments, w, good);
    TwapBooksOne(w, good);
  }

  lemma {:induction false} TwapRunsOut(initial: Row, moments: seq<Moment>, w: World, good: Moment)
    returns (all: seq<Moment>, end: World)
    requires Runs(initial, moments, w) && w.row.status == Active && Smooth(moments, w)
    requires w.row.params.Twap? && w.row.params.slicedToken != ""
    requires good.swap.Traded? && good.crash.NoCrash?
    ensures Runs(initial, all, end) && Crashes(all) == 0 && end.row.status == Done && OffTheBooks(end) == OffTheBooks(w)
    decreases if w.row.params.doneSlices >= SliceCount(w.row.params.slices) then 0
              else SliceCount(w.row.params.slices) - w.row.params.doneSlices
  {
    TwapPlan(w.row.params, good.price);
    all := moments + [good];
    if w.row.params.doneSlices >= SliceCount(w.row.params.slices) {
      end := Finishes(initial, moments, w, good);
    } else {
      end := TwapGoesOn(initial, moments, w, good);
      if end.row.status == Active {
        all, end := TwapRunsOut(initial, all, end, good);
      }
    }
  }

  /** Any TWAP can trade more than its total without a crash. */
  lemma TwapCanPassItsTotal(initial: Row, price: Price, now: real)
    requires initial.status == Active && initial.errors == 0 && initial.params.Twap? && initial.params.doneSlices == 0
    requires initial.params.slicedToken != "" && initial.params.totalUi > 0.0
    ensures exists moments, w :: TradesMoreThan(initial, moments, w, initial.params.totalUi)
  {
    var bad, good := Moment(price, TradedUnbooked, NoCrash, now), Moment(price, Traded, NoCrash, now);
    TwapPlan(initial.params, price);
    var w1 := StartsUnbooked(initial, bad);
    var all, end := TwapRunsOut(initial, [bad], w1, good);
    TwapTradesItsTotal(initial, all, end);
    OneTimes(Slice(initial.params));
    SliceIsPositive(initial.params);
    assert TradesMoreThan(initial, all, end, initial.params.totalUi);
  }

  lemma SliceIsPositive(p: Params)
    requires p.Twap? && p.totalUi > 0.0
    ensures Slice(p) > 0.0
  {
    SlicesMakeTheTotal(p);
    TimesIsProduct(SliceCount(p.slices), Slice(p));
  }

  /** After a crash between a trade and its save the next run that plans a swap offers the same key and is refused as a
      duplicate: the trade is not repeated, but nothing is booked for it either. */
  lemma LostTradeIsNeitherRepeatedNorCounted(w: World, lostAt: Moment, next: Moment)
    requires w.row.status == Active && KeysOk(w) && w.row.runs !in w.used
    requires PlanFor(w.row.params, lostAt.price).0.Swap? && PlanFor(w.row.params, next.price).0.Swap?
    requires (lostAt.swap.Traded? || lostAt.swap.TradedUnbooked?) && lostAt.crash.BeforeSave? && next.crash.NoCrash?
    ensures var w1 := Step(w, lostAt);
      && w1.row == w.row && |w1.traded| == |w.traded| + 1
      && Step(w1, next).traded == w1.traded && Step(w1, next).row.params == PlanFor(w.row.params, next.price).1
      && Step(w1, next).row.runs == w.row.runs + 1 && Step(w1, next).row.errors == w.row.errors + 1
  {
  }
}
