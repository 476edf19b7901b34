/**
 * The polling waits of the Apps Script set-up automation (gas/autosetup.js,
 * `waitForElement` and `waitForButtonByText`): every 500 ms the page is searched for an
 * enabled element; the wait succeeds on the first tick that finds one, fails once the number
 * of fruitless ticks exceeds `timeout / 500`, and fails at once when the user cancels.
 */
module GasSetup {
  import opened Wrappers
  import opened Text

  const INTERVAL_MS: int := 500
  const DEFAULT_TIMEOUT_MS: int := 10000

  datatype RejectReason = Cancelled | NotFound

  /** The state of the promise. */
  datatype Outcome = Pending | Resolved | Rejected(reason: RejectReason)

  /** What one tick of the interval sees: whether the automation has been cancelled, and whether a usable element is there. */
  datatype Tick = Tick(cancelled: bool, found: bool)

  /** The interval's closure: the attempt counter, whether the interval is still set, and the promise. */
  datatype PollState = PollState(attempts: nat, running: bool, outcome: Outcome)

  const START: PollState := PollState(0, true, Pending)

  /** Settling a promise that has already settled does nothing. */
  function Settle(o: Outcome, to: Outcome): Outcome {
    if o.Pending? then to else o
  }

  /**
   * One tick. A cancelled tick rejects but returns before `clearInterval`, so the interval
   * keeps running; otherwise the interval is cleared on success, or when the incremented
   * counter exceeds `timeout / 500`.
   */
  function Step(timeout: int, st: PollState, t: Tick): PollState {
    if !st.running then st
    else if t.cancelled then st.(outcome := Settle(st.outcome, Rejected(Cancelled)))
    else if t.found then PollState(st.attempts, false, Settle(st.outcome, Resolved))
    else if (st.attempts + 1) * INTERVAL_MS > timeout then PollState(st.attempts + 1, false, Settle(st.outcome, Rejected(NotFound)))
    else PollState(st.attempts + 1, true, st.outcome)
  }

  function Run(timeout: int, st: PollState, ticks: seq<Tick>): PollState
    decreases |ticks|
  {
    if ticks == [] then st else Run(timeout, Step(timeout, st, ticks[0]), ticks[1..])
  }

  /** `n` ticks that find nothing. */
  function Misses(n: nat): (r: seq<Tick>)
    ensures |r| == n
  {
    seq(n, _ => Tick(false, false))
  }

  /** A settled promise stays settled with the same value. */
  lemma {:induction false} SettledStays(timeout: int, st: PollState, ticks: seq<Tick>)
    requires !st.outcome.Pending?
    ensures Run(timeout, st, ticks).outcome == st.outcome
    decreases |ticks|
  {
    if ticks != [] {
      SettledStays(timeout, Step(timeout, st, ticks[0]), ticks[1..]);
    }
  }

  /**
   * From the start, `n` fruitless ticks leave the wait pending while `n * 500 <= timeout`, and
   * the first tick past that rejects it and clears the interval.
   */
  lemma {:induction false} MissesTimeOut(timeout: int, n: nat)
    requires 0 <= timeout && (n - 1) * INTERVAL_MS <= timeout
    ensures Run(timeout, START, Misses(n)) ==
      if n * INTERVAL_MS > timeout then PollState(n, false, Rejected(NotFound)) else PollState(n, true, Pending)
  {
    MissesFrom(timeout, 0, n);
  }

  lemma {:induction false} MissesFrom(timeout: int, k: nat, n: nat)
    requires 0 <= timeout && k <= n && (n - 1) * INTERVAL_MS <= timeout && k * INTERVAL_MS <= timeout
    ensures Run(timeout, PollState(k, true, Pending), Misses(n - k)) ==
      if n * INTERVAL_MS > timeout then PollState(n, false, Rejected(NotFound)) else PollState(n, true, Pending)
    decreases n - k
  {
    if k < n {
      var next := Step(timeout, PollState(k, true, Pending), Tick(false, false));
      assert Misses(n - k)[1..] == Misses(n - (k + 1));
      if (k + 1) * INTERVAL_MS > timeout {
        assert k + 1 == n;
        assert Misses(n - (k + 1)) == [];
      } else {
        MissesFrom(timeout, k + 1, n);
      }
    }
  }

  /** With the default timeout the wait gives up on the 21st fruitless tick, after 10.5 seconds. */
  lemma DefaultGivesUpAt21()
    ensures Run(DEFAULT_TIMEOUT_MS, START, Misses(20)).outcome == Pending
    ensures Run(DEFAULT_TIMEOUT_MS, START, Misses(21)).outcome == Rejected(NotFound)
  {
    MissesTimeOut(DEFAULT_TIMEOUT_MS, 20);
    MissesTimeOut(DEFAULT_TIMEOUT_MS, 21);
  }

  /** A tick that finds the element, while the wait is still pending, resolves it and clears the interval. */
  lemma FoundResolves(timeout: int, n: nat)
    requires 0 <= timeout && n * INTERVAL_MS <= timeout
    ensures Run(timeout, START, Misses(n) + [Tick(false, true)]) == PollState(n, false, Resolved)
  {
    MissesTimeOut(timeout, n);
    RunAppend(timeout, START, Misses(n), [Tick(false, true)]);
  }

  /** A cancelled tick rejects a pending wait, and the interval is left running. */
  lemma CancelRejects(timeout: int, st: PollState)
    requires st.running && st.outcome.Pending?
    ensures Step(timeout, st, Tick(true, false)) == PollState(st.attempts, true, Rejected(Cancelled))
    ensures Step(timeout, st, Tick(true, true)) == PollState(st.attempts, true, Rejected(Cancelled))
  {
  }

  lemma {:induction false} RunAppend(timeout: int, st: PollState, a: seq<Tick>, b: seq<Tick>)
    ensures Run(timeout, st, a + b) == Run(timeout, Run(timeout, st, a), b)
    decreases |a|
  {
    if a != [] {
      assert (a + b)[0] == a[0] && (a + b)[1..] == a[1..] + b;
      RunAppend(timeout, Step(timeout, st, a[0]), a[1..], b);
    } else {
      assert a + b == b;
    }
  }

  /** What `waitForButtonByText` looks at in each `<button>`. */
  datatype Button = Button(textContent: string, visible: bool, disabled: bool)

  /** A button matches when its trimmed text is `text`, it is rendered (`offsetParent !== null`) and it is enabled. */
  predicate ButtonMatches(b: Button, text: string) {
    Trim(b.textContent) == text && b.visible && !b.disabled
  }

  /** `Array.from(buttons).find(...)`: the index of the first matching button. */
  function FindButton(buttons: seq<Button>, text: string): (r: Option<nat>)
    ensures r.Some? ==> r.value < |buttons| && ButtonMatches(buttons[r.value], text)
    ensures r.Some? ==> forall j :: 0 <= j < r.value ==> !ButtonMatches(buttons[j], text)
    ensures r.None? ==> forall j :: 0 <= j < |buttons| ==> !ButtonMatches(buttons[j], text)
  {
    if buttons == [] then None
    else if ButtonMatches(buttons[0], text) then Some(0)
    else match FindButton(buttons[1..], text)
      case Some(j) => Some(j + 1)
      case None => None
  }

  /** What `waitForElement` looks at: `document.querySelector(selector)` and its `disabled` property. */
  predicate ElementReady(present: bool, disabled: bool) {
    present && !disabled
  }

  /** One pending call of either wait, with its interval. */
  class Poller {
    const timeout: int
    var attempts: nat
    var running: bool
    var outcome: Outcome

    function State(): PollState
      reads this
    {
      PollState(attempts, running, outcome)
    }

    constructor(timeout: int)
      ensures this.timeout == timeout && State() == START
    {
      this.timeout := timeout;
      attempts, running, outcome := 0, true, Pending;
    }

    /** One run of the interval callback. */
    method OnTick(cancelled: bool, found: bool)
      modifies this
      ensures State() == Step(timeout, old(State()), Tick(cancelled, found))
    {
      if !running {
        return;
      }
      if cancelled {
        outcome := Settle(outcome, Rejected(Cancelled));
        return;
      }
      if found {
        running := false;
        outcome := Settle(outcome, Resolved);
      } else {
        attempts := attempts + 1;
        if attempts * INTERVAL_MS > timeout {
          running := false;
          outcome := Settle(outcome, Rejected(NotFound));
        }
      }
    }
  }
}
