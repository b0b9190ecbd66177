/**
 * `goto` as a function of the channel and of the clock: the choice between
 * reloading and navigating, the wait for the URL to change and the wait for
 * an element, each bounded by the timeout (chrome.py:190-234,
 * lib/chrome.py:186-230, lib/chrome.js:113-138).
 *
 * The clock is the sequence of its readings in milliseconds: `clock(k)` is
 * the k-th time `goto` looks at it, and every reading is later than the one
 * before. The sleeps between polls only let time pass, which the readings
 * already say.
 */
module Polling {
  import opened Wrappers
  import opened Json
  import opened Dispatch
  import opened Commands
  import opened Launch

  /** Every reading of the clock is later than the one before. */
  ghost predicate Advancing(clock: nat -> int)
  {
    forall k: nat :: clock(k) < clock(k + 1)
  }

  // ---------------------------------------------------------------------------
  // Python: `elapsed > timeout` ends a wait

  /** How far reading `k` is from the first one past the timeout (the Python test is strict). */
  function PyMargin(clock: nat -> int, k: nat, start: int, timeout: int): nat
  {
    if clock(k) - start > timeout then 0 else timeout - (clock(k) - start) + 1
  }

  /** The number of readings after `k` up to the first one past the timeout. */
  function PyDeadline(clock: nat -> int, k: nat, start: int, timeout: int): nat
    requires Advancing(clock)
    decreases PyMargin(clock, k, start, timeout)
  {
    if clock(k) - start > timeout then 0 else 1 + PyDeadline(clock, k + 1, start, timeout)
  }

  /** How a wait ended, the channel after it, and the next unread clock reading. */
  datatype Wait = Wait(timedOut: bool, client: Option<Channel>, tick: nat)

  /**
   * The wait for the URL to change: poll `url()`; stop when it differs from
   * `oldUrl`, or, after an unchanged poll, when the clock reads past the
   * timeout.
   */
  function UrlWait(client: Option<Channel>, oldUrl: Option<Json>, clock: nat -> int, k: nat, start: int, timeout: int): Wait
    requires Advancing(clock)
    decreases PyMargin(clock, k, start, timeout)
  {
    var poll := PyCall(client, RUN_SCRIPT, Some(URL_SCRIPT));
    if oldUrl != poll.result then Wait(false, poll.client, k)
    else if clock(k) - start > timeout then Wait(true, poll.client, k + 1)
    else UrlWait(poll.client, oldUrl, clock, k + 1, start, timeout)
  }

  /**
   * The URL wait times out exactly when every poll up to the first reading
   * past the timeout saw the old URL.
   */
  lemma {:induction false} UrlWaitTimesOutIffUnchanged(
    client: Option<Channel>, oldUrl: Option<Json>, clock: nat -> int, k: nat, start: int, timeout: int)
    requires Advancing(clock)
    ensures UrlWait(client, oldUrl, clock, k, start, timeout).timedOut <==>
      forall j :: 0 <= j <= PyDeadline(clock, k, start, timeout) ==> ResultAt(client, j) == oldUrl
    decreases PyMargin(clock, k, start, timeout)
  {
    var poll := PyCall(client, RUN_SCRIPT, Some(URL_SCRIPT));
    if oldUrl == poll.result && clock(k) - start <= timeout {
      UrlWaitTimesOutIffUnchanged(poll.client, oldUrl, clock, k + 1, start, timeout);
      PollsAfterOneAll(client, poll.client, r => r == oldUrl, PyDeadline(clock, k + 1, start, timeout));
    }
  }

  /** Every poll from the first up to `d + 1` satisfies `p` exactly when the first does and every poll one reply on up to `d` does. */
  lemma PollsAfterOneAll(client: Option<Channel>, next: Option<Channel>, p: Option<Json> -> bool, d: nat)
    requires forall j: nat :: ResultAt(next, j) == ResultAt(client, j + 1)
    ensures (p(ResultAt(client, 0)) && forall j :: 0 <= j <= d ==> p(ResultAt(next, j))) <==>
      (forall j :: 0 <= j <= d + 1 ==> p(ResultAt(client, j)))
  {
    if p(ResultAt(client, 0)) && forall j :: 0 <= j <= d ==> p(ResultAt(next, j)) {
      forall j | 1 <= j <= d + 1
        ensures p(ResultAt(client, j))
      {
        assert ResultAt(next, j - 1) == ResultAt(client, j);
      }
    }
    if forall j :: 0 <= j <= d + 1 ==> p(ResultAt(client, j)) {
      forall j | 0 <= j <= d
        ensures p(ResultAt(next, j))
      {
        assert ResultAt(next, j) == ResultAt(client, j + 1);
      }
    }
  }

  /** How the element wait ended. */
  datatype ElemEnd = Found | ElemTimedOut | Threw(exception: PyException)

  datatype ElemPoll = ElemPoll(end: ElemEnd, client: Option<Channel>, tick: nat)

  /**
   * The wait for an element (chrome.py): poll `select_one`, which runs
   * `script` (the `select_all` script for the selector); stop when it
   * finds an element or raises, or, after an empty poll, when the clock reads
   * past the timeout.
   */
  function ElemWait(client: Option<Channel>, script: string, clock: nat -> int, k: nat, start: int, timeout: int): ElemPoll
    requires Advancing(clock)
    decreases PyMargin(clock, k, start, timeout)
  {
    var poll := PyCall(client, RUN_SCRIPT, Some(script));
    match FirstElement(Elements(poll.result))
    case Raised(e) => ElemPoll(Threw(e), poll.client, k)
    case Returned(Some(_)) => ElemPoll(Found, poll.client, k)
    case Returned(None) =>
      if clock(k) - start > timeout then ElemPoll(ElemTimedOut, poll.client, k + 1)
      else ElemWait(poll.client, script, clock, k + 1, start, timeout)
  }

  /**
   * The element wait times out exactly when every lookup up to the first
   * reading past the timeout found no element (and none raised).
   */
  lemma {:induction false} ElemWaitTimesOutIffEmpty(
    client: Option<Channel>, script: string, clock: nat -> int, k: nat, start: int, timeout: int)
    requires Advancing(clock)
    ensures ElemWait(client, script, clock, k, start, timeout).end == ElemTimedOut <==>
      forall j :: 0 <= j <= PyDeadline(clock, k, start, timeout) ==> Elements(ResultAt(client, j)) == Returned([])
    decreases PyMargin(clock, k, start, timeout)
  {
    var poll := PyCall(client, RUN_SCRIPT, Some(script));
    if FirstElement(Elements(poll.result)) == Returned(None) && clock(k) - start <= timeout {
      ElemWaitTimesOutIffEmpty(poll.client, script, clock, k + 1, start, timeout);
      ElemWaitEmptyStep(client, script, clock, k, start, timeout);
    } else {
      ElemWaitEmptyStop(client, script, clock, k, start, timeout);
    }
  }

  /** The element wait stated as one equivalence, for the helpers below. */
  ghost predicate ElemWaitEmptyIff(client: Option<Channel>, script: string, clock: nat -> int, k: nat, start: int, timeout: int)
    requires Advancing(clock)
  {
    ElemWait(client, script, clock, k, start, timeout).end == ElemTimedOut <==>
      forall j :: 0 <= j <= PyDeadline(clock, k, start, timeout) ==> Elements(ResultAt(client, j)) == Returned([])
  }

  /** An empty lookup under the timeout: the equivalence carries over from the next reading. */
  lemma ElemWaitEmptyStep(client: Option<Channel>, script: string, clock: nat -> int, k: nat, start: int, timeout: int)
    requires Advancing(clock)
    requires FirstElement(Elements(ResultAt(client, 0))) == Returned(None) && clock(k) - start <= timeout
    requires ElemWaitEmptyIff(PyCall(client, RUN_SCRIPT, Some(script)).client, script, clock, k + 1, start, timeout)
    ensures ElemWaitEmptyIff(client, script, clock, k, start, timeout)
  {
    var poll := PyCall(client, RUN_SCRIPT, Some(script));
    assert ElemWait(client, script, clock, k, start, timeout) == ElemWait(poll.client, script, clock, k + 1, start, timeout);
    var d := PyDeadline(clock, k + 1, start, timeout);
    assert PyDeadline(clock, k, start, timeout) == d + 1;
    PollsAfterOneAll(client, poll.client, r => Elements(r) == Returned([]), d);
    assert (forall j :: 0 <= j <= d + 1 ==> Elements(ResultAt(client, j)) == Returned([])) <==>
      Elements(ResultAt(client, 0)) == Returned([]) && forall j :: 0 <= j <= d ==> Elements(ResultAt(poll.client, j)) == Returned([]);
  }

  /** The lookup found an element, raised, or came after the timeout: the wait stops at it. */
  lemma ElemWaitEmptyStop(client: Option<Channel>, script: string, clock: nat -> int, k: nat, start: int, timeout: int)
    requires Advancing(clock)
    requires FirstElement(Elements(ResultAt(client, 0))) != Returned(None) || clock(k) - start > timeout
    ensures ElemWaitEmptyIff(client, script, clock, k, start, timeout)
  {
    var found := FirstElement(Elements(ResultAt(client, 0)));
    assert found == Returned(None) <==> Elements(ResultAt(client, 0)) == Returned([]);
    if found == Returned(None) {
      assert ElemWait(client, script, clock, k, start, timeout).end == ElemTimedOut;
      assert PyDeadline(clock, k, start, timeout) == 0;
    } else {
      assert ElemWait(client, script, clock, k, start, timeout).end != ElemTimedOut;
      assert Elements(ResultAt(client, 0)) != Returned([]);
    }
  }


  /** The outcome of a Python `goto` and the channel after it. */
  datatype Visit = Visit(ok: bool, client: Option<Channel>)

  /**
   * The element phase. In lib/chrome.py `select_one` calls the coroutine
   * `select` without awaiting it and `len` of the coroutine raises before
   * anything is sent; `goto` catches the exception and returns False.
   */
  function ElementPhase(variant: PyVariant, client: Option<Channel>, selector: Option<string>, clock: nat -> int, k: nat, timeout: int): Visit
    requires Advancing(clock)
  {
    if selector.None? then Visit(true, client)
    else if variant == Asyncio then Visit(false, client)
    else
      var wait := ElemWait(client, SelectScript(selector.value), clock, k + 1, clock(k), timeout);
      Visit(wait.end == Found, wait.client)
  }

  /**
   * `goto(url2go, timeout, selector)` of the Python variants: reload when
   * the page is already at `url2go`, otherwise navigate and wait for the URL
   * to change; then wait for the element, if one is named. True exactly when
   * no wait timed out and nothing raised.
   */
  function GotoPy(variant: PyVariant, client: Option<Channel>, url2go: string, timeout: int, selector: Option<string>, clock: nat -> int): Visit
    requires Advancing(clock)
  {
    var first := PyCall(client, RUN_SCRIPT, Some(URL_SCRIPT));
    var oldUrl := first.result;
    if oldUrl == Some(JString(url2go)) then
      var reload := PyCall(first.client, RUN_SCRIPT, Some(RELOAD_SCRIPT));
      ElementPhase(variant, reload.client, selector, clock, 0, timeout)
    else
      var nav := PyCall(first.client, RUN_SCRIPT, Some(NavigateScript(url2go)));
      var wait := UrlWait(nav.client, oldUrl, clock, 1, clock(0), timeout);
      if wait.timedOut then Visit(false, wait.client)
      else ElementPhase(variant, wait.client, selector, clock, wait.tick, timeout)
  }

  /**
   * Already at the target: `goto` sends the URL query and exactly one
   * `location.reload()` (unless that send fails), and without a selector
   * succeeds.
   */
  lemma GotoReloadsCurrentPage(variant: PyVariant, ch: Channel, url2go: string, timeout: int, clock: nat -> int)
    requires Advancing(clock)
    requires |ch.pending| >= 2 && PyDecode(ch.pending[0]) == Some(JString(url2go))
    ensures GotoPy(variant, Some(ch), url2go, timeout, None, clock) ==
      Visit(true, Some(Channel(
        ch.sent + [PyRequest(RUN_SCRIPT, Some(URL_SCRIPT))] + (if ch.pending[1].Dropped? then [] else [PyRequest(RUN_SCRIPT, Some(RELOAD_SCRIPT))]),
        ch.pending[2..])))
  {
    var first := PyCall(Some(ch), RUN_SCRIPT, Some(URL_SCRIPT));
    assert first.result == Some(JString(url2go));
    assert first.client == Some(Channel(ch.sent + [PyRequest(RUN_SCRIPT, Some(URL_SCRIPT))], ch.pending[1..]));
    var reload := PyCall(first.client, RUN_SCRIPT, Some(RELOAD_SCRIPT));
    assert ch.pending[1..][1..] == ch.pending[2..];
    assert reload.client == Some(Channel(
      ch.sent + [PyRequest(RUN_SCRIPT, Some(URL_SCRIPT))] + (if ch.pending[1].Dropped? then [] else [PyRequest(RUN_SCRIPT, Some(RELOAD_SCRIPT))]),
      ch.pending[2..]));
    assert GotoPy(variant, Some(ch), url2go, timeout, None, clock) == ElementPhase(variant, reload.client, None, clock, 0, timeout);
  }

  /**
   * Elsewhere: without a selector, `goto` succeeds exactly when one of the
   * URL polls up to the first reading past the timeout differs from the
   * first URL. Which requests it sends is stated in
   * `SentRequests.GotoNavigationRequests`.
   */
  lemma GotoNavigatesAndWaits(variant: PyVariant, client: Option<Channel>, url2go: string, timeout: int, clock: nat -> int)
    requires Advancing(clock)
    requires ResultAt(client, 0) != Some(JString(url2go))
    ensures GotoPy(variant, client, url2go, timeout, None, clock).ok <==>
      exists j :: 2 <= j <= PyDeadline(clock, 1, clock(0), timeout) + 2 && ResultAt(client, j) != ResultAt(client, 0)
  {
    var first := PyCall(client, RUN_SCRIPT, Some(URL_SCRIPT));
    var nav := PyCall(first.client, RUN_SCRIPT, Some(NavigateScript(url2go)));
    var wait := UrlWait(nav.client, first.result, clock, 1, clock(0), timeout);
    assert GotoPy(variant, client, url2go, timeout, None, clock).ok == !wait.timedOut;
    var d := PyDeadline(clock, 1, clock(0), timeout);
    UrlWaitTimesOutIffUnchanged(nav.client, first.result, clock, 1, clock(0), timeout);
    PollsAfterTwoUnchanged(client, first.client, nav.client, first.result, d);
  }

  /** The polls of a channel two replies on are the replies from the third on. */
  lemma PollsAfterTwoUnchanged(client: Option<Channel>, mid: Option<Channel>, later: Option<Channel>, oldUrl: Option<Json>, d: nat)
    requires forall j: nat :: ResultAt(mid, j) == ResultAt(client, j + 1)
    requires forall j: nat :: ResultAt(later, j) == ResultAt(mid, j + 1)
    ensures (forall j :: 0 <= j <= d ==> ResultAt(later, j) == oldUrl) <==>
      (forall j :: 2 <= j <= d + 2 ==> ResultAt(client, j) == oldUrl)
  {
    if forall j :: 0 <= j <= d ==> ResultAt(later, j) == oldUrl {
      forall j | 2 <= j <= d + 2
        ensures ResultAt(client, j) == oldUrl
      {
        assert ResultAt(later, j - 2) == ResultAt(mid, j - 1);
      }
    }
    if forall j :: 2 <= j <= d + 2 ==> ResultAt(client, j) == oldUrl {
      forall j | 0 <= j <= d
        ensures ResultAt(later, j) == oldUrl
      {
        assert ResultAt(mid, j + 1) == ResultAt(client, j + 2);
      }
    }
  }

  /** Without a client every poll yields None: the URL never changes and `goto` fails. */
  lemma GotoWithoutClientFails(variant: PyVariant, url2go: string, timeout: int, selector: Option<string>, clock: nat -> int)
    requires Advancing(clock)
    ensures !GotoPy(variant, None, url2go, timeout, selector, clock).ok
  {
    UrlWaitTimesOutIffUnchanged(None, None, clock, 1, clock(0), timeout);
  }

  /** In lib/chrome.py a `goto` that names an element never succeeds. */
  lemma AsyncGotoWithSelectorFails(client: Option<Channel>, url2go: string, timeout: int, selector: string, clock: nat -> int)
    requires Advancing(clock)
    ensures !GotoPy(Asyncio, client, url2go, timeout, Some(selector), clock).ok
  {
  }

  /**
   * In chrome.py a `goto` that names an element and does not time out on the
   * URL succeeds exactly when, up to the first reading past the timeout, a
   * lookup finds the element after lookups that all found nothing. A lookup
   * that raises (a number or a boolean where a list is expected) ends the
   * wait and `goto` returns False.
   */
  lemma ThreadedElementPhase(client: Option<Channel>, selector: string, clock: nat -> int, k: nat, timeout: int)
    requires Advancing(clock)
    ensures ElementPhase(Threaded, client, Some(selector), clock, k, timeout).ok <==>
      exists j: nat :: j <= PyDeadline(clock, k + 1, clock(k), timeout) && FoundFirstAt(client, j)
  {
    ElemWaitFindsIffFoundFirst(client, SelectScript(selector), clock, k + 1, clock(k), timeout);
  }

  /** Lookup `j` finds an element and every lookup before it found none (none raised). */
  ghost predicate FoundFirstAt(client: Option<Channel>, j: nat)
  {
    && Elements(ResultAt(client, j)).Returned?
    && Elements(ResultAt(client, j)).value != []
    && forall i :: 0 <= i < j ==> Elements(ResultAt(client, i)) == Returned([])
  }

  /** The element wait ends with an element exactly when some lookup up to the deadline is the first to find one. */
  lemma {:induction false} ElemWaitFindsIffFoundFirst(
    client: Option<Channel>, script: string, clock: nat -> int, k: nat, start: int, timeout: int)
    requires Advancing(clock)
    ensures ElemWaitFoundIff(client, script, clock, k, start, timeout)
    decreases PyMargin(clock, k, start, timeout)
  {
    var poll := PyCall(client, RUN_SCRIPT, Some(script));
    if Elements(poll.result) == Returned([]) && clock(k) - start <= timeout {
      ElemWaitFindsIffFoundFirst(poll.client, script, clock, k + 1, start, timeout);
      ElemWaitFoundStep(client, script, clock, k, start, timeout);
    } else {
      ElemWaitFoundStop(client, script, clock, k, start, timeout);
    }
  }

  ghost predicate ElemWaitFoundIff(client: Option<Channel>, script: string, clock: nat -> int, k: nat, start: int, timeout: int)
    requires Advancing(clock)
  {
    ElemWait(client, script, clock, k, start, timeout).end == Found <==>
      exists j: nat :: j <= PyDeadline(clock, k, start, timeout) && FoundFirstAt(client, j)
  }

  /** After an empty first lookup, lookup `j + 1` is the first find exactly when lookup `j` of the rest is. */
  lemma FoundFirstShift(client: Option<Channel>, next: Option<Channel>, j: nat)
    requires forall i: nat :: ResultAt(next, i) == ResultAt(client, i + 1)
    requires Elements(ResultAt(client, 0)) == Returned([])
    ensures !FoundFirstAt(client, 0)
    ensures FoundFirstAt(client, j + 1) <==> FoundFirstAt(next, j)
  {
    assert ResultAt(next, j) == ResultAt(client, j + 1);
    if FoundFirstAt(next, j) {
      forall i | 1 <= i < j + 1
        ensures Elements(ResultAt(client, i)) == Returned([])
      {
        assert ResultAt(next, i - 1) == ResultAt(client, i);
      }
    }
    if FoundFirstAt(client, j + 1) {
      forall i | 0 <= i < j
        ensures Elements(ResultAt(next, i)) == Returned([])
      {
        assert ResultAt(next, i) == ResultAt(client, i + 1);
      }
    }
  }

  /** An empty lookup under the timeout: the equivalence carries over from the next reading. */
  lemma ElemWaitFoundStep(client: Option<Channel>, script: string, clock: nat -> int, k: nat, start: int, timeout: int)
    requires Advancing(clock)
    requires Elements(ResultAt(client, 0)) == Returned([]) && clock(k) - start <= timeout
    requires ElemWaitFoundIff(PyCall(client, RUN_SCRIPT, Some(script)).client, script, clock, k + 1, start, timeout)
    ensures ElemWaitFoundIff(client, script, clock, k, start, timeout)
  {
    var poll := PyCall(client, RUN_SCRIPT, Some(script));
    assert ElemWait(client, script, clock, k, start, timeout) == ElemWait(poll.client, script, clock, k + 1, start, timeout);
    var d := PyDeadline(clock, k + 1, start, timeout);
    assert PyDeadline(clock, k, start, timeout) == d + 1;
    FoundFirstShift(client, poll.client, 0);
    if exists j: nat :: j <= d + 1 && FoundFirstAt(client, j) {
      var j: nat :| j <= d + 1 && FoundFirstAt(client, j);
      FoundFirstShift(client, poll.client, j - 1);
      assert FoundFirstAt(poll.client, j - 1);
    }
    if exists j: nat :: j <= d && FoundFirstAt(poll.client, j) {
      var j: nat :| j <= d && FoundFirstAt(poll.client, j);
      FoundFirstShift(client, poll.client, j);
      assert FoundFirstAt(client, j + 1);
    }
  }

  /** The lookup found an element, raised, or came after the timeout: the wait stops at it. */
  lemma ElemWaitFoundStop(client: Option<Channel>, script: string, clock: nat -> int, k: nat, start: int, timeout: int)
    requires Advancing(clock)
    requires Elements(ResultAt(client, 0)) != Returned([]) || clock(k) - start > timeout
    ensures ElemWaitFoundIff(client, script, clock, k, start, timeout)
  {
    var first := Elements(ResultAt(client, 0));
    if first.Returned? && first.value != [] {
      assert ElemWait(client, script, clock, k, start, timeout).end == Found;
      assert FoundFirstAt(client, 0);
    } else if first.Raised? {
      assert ElemWait(client, script, clock, k, start, timeout).end != Found;
      forall j: nat
        ensures !FoundFirstAt(client, j)
      {
        if j > 0 {
          assert !(Elements(ResultAt(client, 0)) == Returned([]));
        }
      }
    } else {
      assert ElemWait(client, script, clock, k, start, timeout).end != Found;
      assert PyDeadline(clock, k, start, timeout) == 0;
      assert !FoundFirstAt(client, 0);
    }
  }

  /** When no lookup up to the deadline raises, the element wait does not raise. */
  lemma {:induction false} ElemWaitNeverThrows(
    client: Option<Channel>, script: string, clock: nat -> int, k: nat, start: int, timeout: int)
    requires Advancing(clock)
    requires forall j :: 0 <= j <= PyDeadline(clock, k, start, timeout) ==> Elements(ResultAt(client, j)).Returned?
    ensures !ElemWait(client, script, clock, k, start, timeout).end.Threw?
    decreases PyMargin(clock, k, start, timeout)
  {
    var poll := PyCall(client, RUN_SCRIPT, Some(script));
    assert Elements(ResultAt(client, 0)).Returned?;
    if FirstElement(Elements(poll.result)) == Returned(None) && clock(k) - start <= timeout {
      forall j | 0 <= j <= PyDeadline(clock, k + 1, start, timeout)
        ensures Elements(ResultAt(poll.client, j)).Returned?
      {
        assert ResultAt(poll.client, j) == ResultAt(client, j + 1);
      }
      ElemWaitNeverThrows(poll.client, script, clock, k + 1, start, timeout);
    }
  }

  // ---------------------------------------------------------------------------
  // Node: `elapsed < timeout` keeps a wait going

  function NodeMargin(clock: nat -> int, k: nat, start: int, timeout: int): nat
  {
    if clock(k) - start >= timeout then 0 else timeout - (clock(k) - start)
  }

  /** The number of readings from `k` on that are under the timeout. */
  function NodeDeadline(clock: nat -> int, k: nat, start: int, timeout: int): nat
    requires Advancing(clock)
    decreases NodeMargin(clock, k, start, timeout)
  {
    if clock(k) - start >= timeout then 0 else 1 + NodeDeadline(clock, k + 1, start, timeout)
  }

  /** JavaScript truthiness of a resolved value. */
  predicate Truthy(v: JsVal)
  {
    match v
    case Undefined => false
    case Value(JNull) => false
    case Value(JBool(b)) => b
    case Value(JNumber(n)) => n != 0
    case Value(JString(s)) => s != ""
    case Value(_) => true
  }

  /** `===` on resolved values: objects and arrays are never equal to anything here. */
  predicate StrictEquals(a: JsVal, b: JsVal)
  {
    match (a, b)
    case (Undefined, Undefined) => true
    case (Value(x), Value(y)) => x == y && !x.JArray? && !x.JObject?
    case _ => false
  }

  /** A promise settled other than by resolving, re-typed for the caller. */
  function Propagate<T, U>(p: Promise<T>): (q: Promise<U>)
    requires !p.Resolved?
    ensures q.Rejected? <==> p.Rejected?
  {
    match p
    case Rejected(e) => Rejected(e)
    case Pending => Pending
  }

  datatype NodeWait = NodeWait(outcome: Promise<()>, client: Option<Channel>, tick: nat)

  /**
   * The URL loop of lib/chrome.js: poll `url()`; keep going while it equals
   * `oldUrl` and the clock reads under the timeout.
   */
  function NodeUrlLoop(client: Option<Channel>, oldUrl: JsVal, clock: nat -> int, k: nat, start: int, timeout: int): NodeWait
    requires Advancing(clock)
    decreases NodeMargin(clock, k, start, timeout)
  {
    var poll := JsCall(client, RUN_SCRIPT, Some(URL_SCRIPT));
    if !poll.outcome.Resolved? then NodeWait(Propagate(poll.outcome), poll.client, k)
    else if !StrictEquals(poll.outcome.value, oldUrl) then NodeWait(Resolved(()), poll.client, k)
    else if clock(k) - start < timeout then NodeUrlLoop(poll.client, oldUrl, clock, k + 1, start, timeout)
    else NodeWait(Resolved(()), poll.client, k + 1)
  }

  /**
   * The element loop of lib/chrome.js: while the clock reads under the
   * timeout, query the selector; stop at a truthy answer.
   */
  function NodeElemLoop(client: Option<Channel>, selector: string, clock: nat -> int, k: nat, start: int, timeout: int): NodeWait
    requires Advancing(clock)
    decreases NodeMargin(clock, k, start, timeout)
  {
    if clock(k) - start >= timeout then NodeWait(Resolved(()), client, k + 1)
    else
      var poll := JsCall(client, RUN_SCRIPT, Some(QuerySelectorScript(selector)));
      if !poll.outcome.Resolved? then NodeWait(Propagate(poll.outcome), poll.client, k + 1)
      else if Truthy(poll.outcome.value) then NodeWait(Resolved(()), poll.client, k + 1)
      else NodeElemLoop(poll.client, selector, clock, k + 1, start, timeout)
  }

  datatype NodeVisit = NodeVisit(outcome: Promise<bool>, client: Option<Channel>)

  /**
   * The element phase of lib/chrome.js: skipped for a falsy selector; it
   * times out exactly when a reading after the loop is at or past the
   * timeout, even if the loop found the element.
   */
  function NodeElementPhase(client: Option<Channel>, selector: Option<string>, clock: nat -> int, k: nat, timeout: int): NodeVisit
    requires Advancing(clock)
  {
    if selector.None? || selector.value == "" then NodeVisit(Resolved(true), client)
    else
      var start := clock(k);
      var wait := NodeElemLoop(client, selector.value, clock, k + 1, start, timeout);
      if !wait.outcome.Resolved? then NodeVisit(Propagate(wait.outcome), wait.client)
      else NodeVisit(Resolved(!(clock(wait.tick) - start >= timeout)), wait.client)
  }

  /**
   * `goto(url, waitTimeout, waitElemSelector)` of lib/chrome.js: any
   * rejected command rejects `goto`; after the URL loop one more `url()`
   * decides whether the URL phase timed out.
   */
  function GotoNode(client: Option<Channel>, url: string, timeout: int, selector: Option<string>, clock: nat -> int): (v: NodeVisit)
    requires Advancing(clock)
    ensures client.None? ==> v.outcome == Rejected(ClientNotConnected)
  {
    var first := JsCall(client, RUN_SCRIPT, Some(URL_SCRIPT));
    if !first.outcome.Resolved? then NodeVisit(Propagate(first.outcome), first.client)
    else
      var oldUrl := first.outcome.value;
      if StrictEquals(oldUrl, Value(JString(url))) then
        var reload := JsCall(first.client, RUN_SCRIPT, Some(RELOAD_SCRIPT));
        if !reload.outcome.Resolved? then NodeVisit(Propagate(reload.outcome), reload.client)
        else NodeElementPhase(reload.client, selector, clock, 0, timeout)
      else
        var nav := JsCall(first.client, RUN_SCRIPT, Some(NavigateScript(url)));
        if !nav.outcome.Resolved? then NodeVisit(Propagate(nav.outcome), nav.client)
        else
          var wait := NodeUrlLoop(nav.client, oldUrl, clock, 1, clock(0), timeout);
          if !wait.outcome.Resolved? then NodeVisit(Propagate(wait.outcome), wait.client)
          else
            var last := JsCall(wait.client, RUN_SCRIPT, Some(URL_SCRIPT));
            if !last.outcome.Resolved? then NodeVisit(Propagate(last.outcome), last.client)
            else if StrictEquals(last.outcome.value, oldUrl) then NodeVisit(Resolved(false), last.client)
            else NodeElementPhase(last.client, selector, clock, wait.tick, timeout)
  }

  /**
   * The Node URL loop started at reading `k` stops at its poll `n`, which is
   * reply `from + n` of `client`: every earlier poll resolved to `oldUrl`
   * under the timeout, and poll `n` resolved to something else or was read
   * at or past the timeout.
   */
  ghost predicate NodeUrlStopsAt(
    client: Option<Channel>, from: nat, oldUrl: JsVal, clock: nat -> int, k: nat, start: int, timeout: int, n: nat)
  {
    (forall j :: from <= j <= from + n ==> OutcomeAt(client, j).Resolved?) &&
    (forall j :: from <= j < from + n ==>
      StrictEquals(OutcomeAt(client, j).value, oldUrl) && clock(k + j - from) - start < timeout) &&
    (!StrictEquals(OutcomeAt(client, from + n).value, oldUrl) || clock(k + n) - start >= timeout)
  }

  /** `a` is `b` after `m + 1` replies and `b` is `c` after one: `a` is `c` after `n` = `m + 2`. */
  lemma OutcomesCompose(a: Option<Channel>, b: Option<Channel>, c: Option<Channel>, m: nat, n: nat)
    requires b.Some? && c.Some? && n == m + 1
    requires forall j: nat :: OutcomeAt(a, j) == OutcomeAt(b, m + 1 + j)
    requires forall j: nat :: OutcomeAt(b, j) == OutcomeAt(c, j + 1)
    ensures forall j: nat :: OutcomeAt(a, j) == OutcomeAt(c, n + 1 + j)
  {
    forall j: nat ensures OutcomeAt(a, j) == OutcomeAt(c, n + 1 + j) {
      assert OutcomeAt(b, m + 1 + j) == OutcomeAt(c, m + 1 + j + 1);
    }
  }

  /** A poll that saw `oldUrl` under the timeout puts one more poll before the stop. */
  lemma NodeUrlStopsLater(
    client: Option<Channel>, next: Option<Channel>, oldUrl: JsVal, clock: nat -> int, k: nat, start: int, timeout: int, m: nat)
    requires forall j: nat :: OutcomeAt(next, j) == OutcomeAt(client, j + 1)
    requires OutcomeAt(client, 0).Resolved? && StrictEquals(OutcomeAt(client, 0).value, oldUrl)
    requires clock(k) - start < timeout
    requires NodeUrlStopsAt(next, 0, oldUrl, clock, k + 1, start, timeout, m)
    ensures NodeUrlStopsAt(client, 0, oldUrl, clock, k, start, timeout, m + 1)
  {
    forall j | 0 < j <= m + 1
      ensures OutcomeAt(client, j).Resolved?
    {
      assert OutcomeAt(next, j - 1) == OutcomeAt(client, j);
    }
    forall j | 0 < j < m + 1
      ensures StrictEquals(OutcomeAt(client, j).value, oldUrl) && clock(k + j) - start < timeout
    {
      assert OutcomeAt(next, j - 1) == OutcomeAt(client, j);
      assert k + 1 + (j - 1) - 0 == k + j;
    }
    assert OutcomeAt(next, m) == OutcomeAt(client, m + 1);
    assert k + 1 + m == k + (m + 1);
  }

  /** The stop seen `from` replies later, counted on the earlier channel. */
  lemma NodeUrlStopsShift(
    client: Option<Channel>, from: nat, later: Option<Channel>, oldUrl: JsVal, clock: nat -> int, k: nat, start: int, timeout: int, n: nat)
    requires forall j: nat :: OutcomeAt(later, j) == OutcomeAt(client, from + j)
    requires NodeUrlStopsAt(later, 0, oldUrl, clock, k, start, timeout, n)
    ensures NodeUrlStopsAt(client, from, oldUrl, clock, k, start, timeout, n)
  {
    forall j | from <= j <= from + n
      ensures OutcomeAt(client, j).Resolved?
    {
      assert OutcomeAt(later, j - from) == OutcomeAt(client, j);
    }
    forall j | from <= j < from + n
      ensures StrictEquals(OutcomeAt(client, j).value, oldUrl) && clock(k + j - from) - start < timeout
    {
      assert OutcomeAt(later, j - from) == OutcomeAt(client, j);
      assert k + (j - from) - 0 == k + j - from;
    }
    assert OutcomeAt(later, n) == OutcomeAt(client, from + n);
  }

  /**
   * When every poll the Node URL loop can make resolves, the loop resolves:
   * it stops at a poll `n` no later than the last reading under the timeout,
   * leaves the channel just after that poll, and resumes the clock at the
   * reading after the one taken at that poll when the URL had not changed.
   */
  lemma NodeUrlLoopResolves(client: Option<Channel>, oldUrl: JsVal, clock: nat -> int, k: nat, start: int, timeout: int)
    requires Advancing(clock)
    requires forall j :: 0 <= j <= NodeDeadline(clock, k, start, timeout) ==> OutcomeAt(client, j).Resolved?
    ensures exists n: nat :: NodeUrlLoopEndsAt(client, oldUrl, clock, k, start, timeout, n)
  {
    var n := NodeUrlLoopStop(client, oldUrl, clock, k, start, timeout);
  }

  /**
   * How the Node URL loop started at reading `k` ends when it stops at poll
   * `n`: resolved, with the channel just after that poll and the next unread
   * reading.
   */
  ghost predicate NodeUrlLoopEndsAt(client: Option<Channel>, oldUrl: JsVal, clock: nat -> int, k: nat, start: int, timeout: int, n: nat)
    requires Advancing(clock)
  {
    var w := NodeUrlLoop(client, oldUrl, clock, k, start, timeout);
    w.outcome == Resolved(()) &&
    n <= NodeDeadline(clock, k, start, timeout) &&
    NodeUrlStopsAt(client, 0, oldUrl, clock, k, start, timeout, n) &&
    w.tick == (if StrictEquals(OutcomeAt(client, n).value, oldUrl) then k + n + 1 else k + n) &&
    forall j: nat :: OutcomeAt(w.client, j) == OutcomeAt(client, n + 1 + j)
  }

  /** The stop of the Node URL loop, found by following the loop. */
  lemma {:induction false} NodeUrlLoopStop(client: Option<Channel>, oldUrl: JsVal, clock: nat -> int, k: nat, start: int, timeout: int)
    returns (n: nat)
    requires Advancing(clock)
    requires forall j :: 0 <= j <= NodeDeadline(clock, k, start, timeout) ==> OutcomeAt(client, j).Resolved?
    ensures NodeUrlLoopEndsAt(client, oldUrl, clock, k, start, timeout, n)
    decreases NodeMargin(clock, k, start, timeout)
  {
    assert OutcomeAt(client, 0).Resolved?;
    assert client.Some? && |client.value.pending| > 0;
    var poll := JsCall(client, RUN_SCRIPT, Some(URL_SCRIPT));
    if StrictEquals(poll.outcome.value, oldUrl) && clock(k) - start < timeout {
      assert NodeDeadline(clock, k, start, timeout) == 1 + NodeDeadline(clock, k + 1, start, timeout);
      ResolvedAfterOne(client, poll.client, NodeDeadline(clock, k + 1, start, timeout));
      var m := NodeUrlLoopStop(poll.client, oldUrl, clock, k + 1, start, timeout);
      NodeUrlLoopEndsLater(client, oldUrl, clock, k, start, timeout, m);
      n := m + 1;
    } else {
      NodeUrlLoopEndsNow(client, oldUrl, clock, k, start, timeout);
      n := 0;
    }
  }

  /** The replies one frame on resolve up to `d` when the replies resolve up to `d + 1`. */
  lemma ResolvedAfterOne(client: Option<Channel>, next: Option<Channel>, d: nat)
    requires forall j: nat :: OutcomeAt(next, j) == OutcomeAt(client, j + 1)
    requires forall j :: 0 <= j <= d + 1 ==> OutcomeAt(client, j).Resolved?
    ensures forall j :: 0 <= j <= d ==> OutcomeAt(next, j).Resolved?
  {
    forall j | 0 <= j <= d
      ensures OutcomeAt(next, j).Resolved?
    {
      assert OutcomeAt(next, j) == OutcomeAt(client, j + 1);
    }
  }

  /** A first poll that ends the Node URL loop. */
  lemma NodeUrlLoopEndsNow(client: Option<Channel>, oldUrl: JsVal, clock: nat -> int, k: nat, start: int, timeout: int)
    requires Advancing(clock)
    requires client.Some? && |client.value.pending| > 0 && OutcomeAt(client, 0).Resolved?
    requires !(StrictEquals(OutcomeAt(client, 0).value, oldUrl) && clock(k) - start < timeout)
    ensures NodeUrlLoopEndsAt(client, oldUrl, clock, k, start, timeout, 0)
  {
    var poll := JsCall(client, RUN_SCRIPT, Some(URL_SCRIPT));
    assert NodeUrlLoop(client, oldUrl, clock, k, start, timeout).client == poll.client;
    assert NodeUrlStopsAt(client, 0, oldUrl, clock, k, start, timeout, 0);
  }

  /** A first poll that keeps the Node URL loop going moves its end one poll later. */
  lemma NodeUrlLoopEndsLater(client: Option<Channel>, oldUrl: JsVal, clock: nat -> int, k: nat, start: int, timeout: int, m: nat)
    requires Advancing(clock)
    requires client.Some? && |client.value.pending| > 0 && OutcomeAt(client, 0).Resolved?
    requires StrictEquals(OutcomeAt(client, 0).value, oldUrl) && clock(k) - start < timeout
    requires NodeUrlLoopEndsAt(JsCall(client, RUN_SCRIPT, Some(URL_SCRIPT)).client, oldUrl, clock, k + 1, start, timeout, m)
    ensures NodeUrlLoopEndsAt(client, oldUrl, clock, k, start, timeout, m + 1)
  {
    var w := NodeUrlLoop(client, oldUrl, clock, k, start, timeout);
    var poll := JsCall(client, RUN_SCRIPT, Some(URL_SCRIPT));
    var rest := NodeUrlLoop(poll.client, oldUrl, clock, k + 1, start, timeout);
    assert w == rest;
    NodeUrlStopsLater(client, poll.client, oldUrl, clock, k, start, timeout, m);
    assert NodeDeadline(clock, k, start, timeout) == 1 + NodeDeadline(clock, k + 1, start, timeout);
    assert OutcomeAt(poll.client, m) == OutcomeAt(client, m + 1);
    OutcomesCompose(rest.client, poll.client, client, m, m + 1);
  }

  /**
   * Already at the target: Node `goto` sends the URL query and one
   * `location.reload()` and, without a selector, resolves true.
   */
  lemma NodeGotoReloadsCurrentPage(client: Option<Channel>, url: string, timeout: int, clock: nat -> int)
    requires Advancing(clock)
    requires OutcomeAt(client, 0) == Resolved(Value(JString(url))) && OutcomeAt(client, 1).Resolved?
    ensures var v := GotoNode(client, url, timeout, None, clock);
      v.outcome == Resolved(true) && client.Some? && v.client.Some? &&
      v.client.value.sent == client.value.sent + [JsRequest(RUN_SCRIPT, Some(URL_SCRIPT)), JsRequest(RUN_SCRIPT, Some(RELOAD_SCRIPT))] &&
      forall j: nat :: OutcomeAt(v.client, j) == OutcomeAt(client, j + 2)
  {
    assert client.Some? && |client.value.pending| > 0;
    var first := JsCall(client, RUN_SCRIPT, Some(URL_SCRIPT));
    assert OutcomeAt(first.client, 0) == OutcomeAt(client, 1);
    assert first.client.Some? && |first.client.value.pending| > 0;
    assert first.outcome == Resolved(Value(JString(url)));
    assert StrictEquals(first.outcome.value, Value(JString(url)));
    var reload := JsCall(first.client, RUN_SCRIPT, Some(RELOAD_SCRIPT));
    assert reload.outcome == OutcomeAt(client, 1);
    var request := JsRequest(RUN_SCRIPT, Some(URL_SCRIPT));
    assert first.client.value.sent == client.value.sent + [request];
    assert reload.client.value.sent == client.value.sent + [request] + [JsRequest(RUN_SCRIPT, Some(RELOAD_SCRIPT))];
    assert GotoNode(client, url, timeout, None, clock) == NodeElementPhase(reload.client, None, clock, 0, timeout);
  }

  /**
   * Elsewhere: Node `goto` sends the URL query and the navigation script,
   * runs the URL loop from the third reply on, and, without a selector,
   * resolves to whether the `url()` it reads after the loop differs from the
   * first one.
   */
  lemma NodeGotoNavigatesAndWaits(client: Option<Channel>, url: string, timeout: int, clock: nat -> int)
    requires Advancing(clock)
    requires forall j :: 0 <= j <= NodeDeadline(clock, 1, clock(0), timeout) + 3 ==> OutcomeAt(client, j).Resolved?
    requires OutcomeAt(client, 0).Resolved? && !StrictEquals(OutcomeAt(client, 0).value, Value(JString(url)))
    ensures
      exists n: nat :: n <= NodeDeadline(clock, 1, clock(0), timeout) &&
        NodeUrlStopsAt(client, 2, OutcomeAt(client, 0).value, clock, 1, clock(0), timeout, n) &&
        GotoNode(client, url, timeout, None, clock).outcome ==
          Resolved(!StrictEquals(OutcomeAt(client, n + 3).value, OutcomeAt(client, 0).value))
  {
    var first := JsCall(client, RUN_SCRIPT, Some(URL_SCRIPT));
    var oldUrl := first.outcome.value;
    var nav := JsCall(first.client, RUN_SCRIPT, Some(NavigateScript(url)));
    assert nav.outcome == OutcomeAt(client, 1);
    var d := NodeDeadline(clock, 1, clock(0), timeout);
    ResolvedAfterOne(client, first.client, d + 2);
    assert first.client.Some? && |first.client.value.pending| > 0;
    ResolvedAfterOne(first.client, nav.client, d + 1);
    var n := NodeUrlLoopStop(nav.client, oldUrl, clock, 1, clock(0), timeout);
    NodeUrlStopsShift(client, 2, nav.client, oldUrl, clock, 1, clock(0), timeout, n);
    var wait := NodeUrlLoop(nav.client, oldUrl, clock, 1, clock(0), timeout);
    assert OutcomeAt(wait.client, 0) == OutcomeAt(client, n + 3);
    NodeGotoAfterWait(client, nav.client, url, timeout, clock, n);
  }

  /** Once the URL loop has resolved, the Node `goto` without a selector settles as the `url()` after it says. */
  lemma NodeGotoAfterWait(client: Option<Channel>, nav: Option<Channel>, url: string, timeout: int, clock: nat -> int, n: nat)
    requires Advancing(clock)
    requires OutcomeAt(client, 0).Resolved? && !StrictEquals(OutcomeAt(client, 0).value, Value(JString(url)))
    requires OutcomeAt(client, 1).Resolved? && OutcomeAt(client, n + 3).Resolved?
    requires nav == JsCall(JsCall(client, RUN_SCRIPT, Some(URL_SCRIPT)).client, RUN_SCRIPT, Some(NavigateScript(url))).client
    requires NodeUrlLoop(nav, OutcomeAt(client, 0).value, clock, 1, clock(0), timeout).outcome == Resolved(())
    requires OutcomeAt(NodeUrlLoop(nav, OutcomeAt(client, 0).value, clock, 1, clock(0), timeout).client, 0) == OutcomeAt(client, n + 3)
    ensures GotoNode(client, url, timeout, None, clock).outcome ==
      Resolved(!StrictEquals(OutcomeAt(client, n + 3).value, OutcomeAt(client, 0).value))
  {
    assert client.Some? && |client.value.pending| > 0;
    var first := JsCall(client, RUN_SCRIPT, Some(URL_SCRIPT));
    var step := JsCall(first.client, RUN_SCRIPT, Some(NavigateScript(url)));
    assert step.outcome == OutcomeAt(client, 1);
    var wait := NodeUrlLoop(nav, first.outcome.value, clock, 1, clock(0), timeout);
    var last := JsCall(wait.client, RUN_SCRIPT, Some(URL_SCRIPT));
    assert last.outcome == OutcomeAt(client, n + 3);
  }

  /**
   * The Node element loop started after reading `k` finds the element at its
   * poll `n` in time: every poll up to `n` resolved and was read under the
   * timeout, the earlier ones falsy and poll `n` truthy, and the reading
   * after it is still under the timeout.
   */
  ghost predicate NodeElemFoundAt(client: Option<Channel>, clock: nat -> int, k: nat, start: int, timeout: int, n: nat)
  {
    (forall j :: 0 <= j <= n ==> OutcomeAt(client, j).Resolved? && clock(k + 1 + j) - start < timeout) &&
    (forall j :: 0 <= j < n ==> !Truthy(OutcomeAt(client, j).value)) &&
    Truthy(OutcomeAt(client, n).value) && clock(k + n + 2) - start < timeout
  }

  /** A find in time reads the first lookup under the timeout, and a later find saw it falsy. */
  lemma NodeElemFoundFirst(client: Option<Channel>, clock: nat -> int, k: nat, start: int, timeout: int, n: nat)
    ensures NodeElemFoundAt(client, clock, k, start, timeout, n) ==>
      OutcomeAt(client, 0).Resolved? && clock(k + 1) - start < timeout &&
      (n == 0 || !Truthy(OutcomeAt(client, 0).value))
  {
  }

  /** A falsy lookup under the timeout puts one more lookup before the find. */
  lemma NodeElemFoundLater(
    client: Option<Channel>, next: Option<Channel>, clock: nat -> int, k: nat, start: int, timeout: int, n: nat)
    requires forall j: nat :: OutcomeAt(next, j) == OutcomeAt(client, j + 1)
    requires OutcomeAt(client, 0).Resolved? && !Truthy(OutcomeAt(client, 0).value) && clock(k + 1) - start < timeout
    ensures NodeElemFoundAt(next, clock, k + 1, start, timeout, n) <==> NodeElemFoundAt(client, clock, k, start, timeout, n + 1)
  {
    if NodeElemFoundAt(next, clock, k + 1, start, timeout, n) {
      forall j | 0 <= j <= n + 1
        ensures OutcomeAt(client, j).Resolved? && clock(k + 1 + j) - start < timeout
      {
        if j > 0 {
          assert OutcomeAt(next, j - 1) == OutcomeAt(client, j);
          assert k + 1 + 1 + (j - 1) == k + 1 + j;
        }
      }
      forall j | 0 <= j < n + 1
        ensures !Truthy(OutcomeAt(client, j).value)
      {
        if j > 0 {
          assert OutcomeAt(next, j - 1) == OutcomeAt(client, j);
        }
      }
      assert OutcomeAt(next, n) == OutcomeAt(client, n + 1);
      assert k + 1 + n + 2 == k + (n + 1) + 2;
    }
    if NodeElemFoundAt(client, clock, k, start, timeout, n + 1) {
      forall j | 0 <= j <= n
        ensures OutcomeAt(next, j).Resolved? && clock(k + 1 + 1 + j) - start < timeout
      {
        assert OutcomeAt(next, j) == OutcomeAt(client, j + 1);
        assert k + 1 + 1 + j == k + 1 + (j + 1);
      }
      forall j | 0 <= j < n
        ensures !Truthy(OutcomeAt(next, j).value)
      {
        assert OutcomeAt(next, j) == OutcomeAt(client, j + 1);
      }
      assert OutcomeAt(next, n) == OutcomeAt(client, n + 1);
      assert k + 1 + n + 2 == k + (n + 1) + 2;
      assert Truthy(OutcomeAt(next, n).value);
      assert clock(k + 1 + n + 2) - start < timeout;
      assert NodeElemFoundAt(next, clock, k + 1, start, timeout, n);
    }
  }

  /**
   * How the Node element loop started after reading `k` ends: resolved, with
   * its next reading under the timeout exactly when it found the element in
   * time.
   */
  ghost predicate NodeElemLoopEnds(client: Option<Channel>, selector: string, clock: nat -> int, k: nat, start: int, timeout: int)
    requires Advancing(clock)
  {
    var w := NodeElemLoop(client, selector, clock, k + 1, start, timeout);
    w.outcome == Resolved(()) &&
    (clock(w.tick) - start < timeout <==> exists n: nat :: NodeElemFoundAt(client, clock, k, start, timeout, n))
  }

  /** When every lookup the Node element loop can make resolves, the loop ends as `NodeElemLoopEnds` says. */
  lemma {:induction false} NodeElemLoopFinds(
    client: Option<Channel>, selector: string, clock: nat -> int, k: nat, start: int, timeout: int)
    requires Advancing(clock)
    requires forall j :: 0 <= j < NodeDeadline(clock, k + 1, start, timeout) ==> OutcomeAt(client, j).Resolved?
    ensures NodeElemLoopEnds(client, selector, clock, k, start, timeout)
    decreases NodeMargin(clock, k + 1, start, timeout)
  {
    if clock(k + 1) - start >= timeout {
      forall n: nat ensures !NodeElemFoundAt(client, clock, k, start, timeout, n) {
        NodeElemFoundFirst(client, clock, k, start, timeout, n);
      }
    } else {
      assert OutcomeAt(client, 0).Resolved?;
      assert client.Some? && |client.value.pending| > 0;
      var poll := JsCall(client, RUN_SCRIPT, Some(QuerySelectorScript(selector)));
      if Truthy(poll.outcome.value) {
        NodeElemLoopFindsNow(client, selector, clock, k, start, timeout);
      } else {
        forall j | 0 <= j < NodeDeadline(clock, k + 2, start, timeout)
          ensures OutcomeAt(poll.client, j).Resolved?
        {
          assert OutcomeAt(poll.client, j) == OutcomeAt(client, j + 1);
        }
        NodeElemLoopFinds(poll.client, selector, clock, k + 1, start, timeout);
        NodeElemLoopFindsLater(client, selector, clock, k, start, timeout);
      }
    }
  }

  /** A truthy first lookup under the timeout ends the Node element loop. */
  lemma NodeElemLoopFindsNow(client: Option<Channel>, selector: string, clock: nat -> int, k: nat, start: int, timeout: int)
    requires Advancing(clock) && clock(k + 1) - start < timeout
    requires client.Some? && |client.value.pending| > 0
    requires OutcomeAt(client, 0).Resolved? && Truthy(OutcomeAt(client, 0).value)
    ensures NodeElemLoopEnds(client, selector, clock, k, start, timeout)
  {
    var poll := JsCall(client, RUN_SCRIPT, Some(QuerySelectorScript(selector)));
    if clock(k + 2) - start < timeout {
      assert NodeElemFoundAt(client, clock, k, start, timeout, 0);
    }
    forall n: nat ensures NodeElemFoundAt(client, clock, k, start, timeout, n) ==> clock(k + 2) - start < timeout {
      NodeElemFoundFirst(client, clock, k, start, timeout, n);
    }
  }

  /** A falsy first lookup under the timeout hands the Node element loop to the next reading. */
  lemma NodeElemLoopFindsLater(client: Option<Channel>, selector: string, clock: nat -> int, k: nat, start: int, timeout: int)
    requires Advancing(clock) && clock(k + 1) - start < timeout
    requires client.Some? && |client.value.pending| > 0
    requires OutcomeAt(client, 0).Resolved? && !Truthy(OutcomeAt(client, 0).value)
    requires NodeElemLoopEnds(JsCall(client, RUN_SCRIPT, Some(QuerySelectorScript(selector))).client, selector, clock, k + 1, start, timeout)
    ensures NodeElemLoopEnds(client, selector, clock, k, start, timeout)
  {
    var poll := JsCall(client, RUN_SCRIPT, Some(QuerySelectorScript(selector)));
    var next := k + 1;
    forall n: nat ensures NodeElemFoundAt(poll.client, clock, next, start, timeout, n) <==>
      NodeElemFoundAt(client, clock, k, start, timeout, n + 1)
    {
      NodeElemFoundLater(client, poll.client, clock, k, start, timeout, n);
    }
    assert NodeElemLoop(client, selector, clock, k + 1, start, timeout) ==
      NodeElemLoop(poll.client, selector, clock, next + 1, start, timeout);
    if n: nat :| NodeElemFoundAt(client, clock, k, start, timeout, n) {
      NodeElemFoundFirst(client, clock, k, start, timeout, n);
      assert NodeElemFoundAt(poll.client, clock, next, start, timeout, n - 1);
    }
    if n: nat :| NodeElemFoundAt(poll.client, clock, next, start, timeout, n) {
      assert NodeElemFoundAt(client, clock, k, start, timeout, n + 1);
    }
  }

  /**
   * The Node element phase for a non-empty selector, when every lookup it can
   * make resolves, resolves true exactly when it found the element in time.
   */
  lemma NodeElementPhaseFinds(client: Option<Channel>, selector: string, clock: nat -> int, k: nat, timeout: int)
    requires Advancing(clock) && selector != ""
    requires forall j :: 0 <= j < NodeDeadline(clock, k + 1, clock(k), timeout) ==> OutcomeAt(client, j).Resolved?
    ensures NodeElementPhase(client, Some(selector), clock, k, timeout).outcome ==
      Resolved(exists n: nat :: NodeElemFoundAt(client, clock, k, clock(k), timeout, n))
  {
    NodeElemLoopFinds(client, selector, clock, k, clock(k), timeout);
  }

  /**
   * Unlike the Python variants, the Node element phase can find the element
   * and still report a timeout: when the reading after a successful lookup
   * is already past the timeout.
   */
  lemma NodeLateFindTimesOut(client: Option<Channel>, selector: string, clock: nat -> int, k: nat, timeout: int)
    requires Advancing(clock) && selector != ""
    requires clock(k + 1) - clock(k) < timeout && clock(k + 2) - clock(k) >= timeout
    requires OutcomeAt(client, 0).Resolved? && Truthy(OutcomeAt(client, 0).value)
    ensures NodeElementPhase(client, Some(selector), clock, k, timeout).outcome == Resolved(false)
  {
  }
}
