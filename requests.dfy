/**
 * Which commands `goto` sends once the first URL query has taken it off the
 * reload branch (chrome.py:190-234, lib/chrome.py:186-230,
 * lib/chrome.js:113-138): the navigation script goes out right after the
 * URL query, then only URL polls and element lookups follow, and never a
 * `location.reload()`.
 */
module SentRequests {
  import opened Wrappers
  import opened Json
  import opened Dispatch
  import opened Commands
  import opened Launch
  import opened Polling

  /**
   * Going from `before` to `after` keeps the frames already sent and only
   * appends requests from `allowed`; a missing client stays missing.
   */
  ghost predicate SendsOnly(before: Option<Channel>, after: Option<Channel>, allowed: set<Json>)
  {
    && (before.None? ==> after.None?)
    && (before.Some? ==>
          && after.Some?
          && |before.value.sent| <= |after.value.sent|
          && after.value.sent[..|before.value.sent|] == before.value.sent
          && forall i :: |before.value.sent| <= i < |after.value.sent| ==> after.value.sent[i] in allowed)
  }

  lemma SendsOnlyChain(a: Option<Channel>, b: Option<Channel>, c: Option<Channel>, allowed: set<Json>)
    requires SendsOnly(a, b, allowed) && SendsOnly(b, c, allowed)
    ensures SendsOnly(a, c, allowed)
  {
    if a.Some? {
      var n, m := |a.value.sent|, |b.value.sent|;
      assert c.value.sent[..n] == c.value.sent[..m][..n];
      forall i | n <= i < |c.value.sent|
        ensures c.value.sent[i] in allowed
      {
        if i < m {
          assert c.value.sent[i] == b.value.sent[i];
        }
      }
    }
  }

  /**
   * A run that first appends `two` and then only requests from `allowed`,
   * none of them `bad`, begins its appended requests with `two` and never
   * appends `bad`.
   */
  lemma BeginsWith(ch: Channel, mid: Option<Channel>, after: Option<Channel>, allowed: set<Json>, two: seq<Json>, bad: Json)
    requires SendsOnly(Some(ch), mid, allowed) && SendsOnly(mid, after, allowed) && bad !in allowed
    ensures SendsOnly(Some(ch), after, allowed)
    ensures forall i :: |ch.sent| <= i < |after.value.sent| ==> after.value.sent[i] != bad
    ensures mid.value.sent == ch.sent + two ==>
      |after.value.sent| >= |ch.sent| + |two| && after.value.sent[|ch.sent|..|ch.sent| + |two|] == two
  {
    SendsOnlyChain(Some(ch), mid, after, allowed);
    if mid.value.sent == ch.sent + two {
      var n := |ch.sent|;
      assert after.value.sent[..n + |two|] == ch.sent + two;
      assert after.value.sent[n..n + |two|] == (ch.sent + two)[n..];
    }
  }

  // ---------------------------------------------------------------------------
  // Python

  /** A `run_script(script)` request. */
  function PyScript(script: string): Json
  {
    PyRequest(RUN_SCRIPT, Some(script))
  }

  /** One exchange appends at most its own request. */
  lemma PyCallSendsOnly(client: Option<Channel>, script: string, allowed: set<Json>)
    requires PyScript(script) in allowed
    ensures SendsOnly(client, PyCall(client, RUN_SCRIPT, Some(script)).client, allowed)
  {
    if client.Some? {
      var after := PyCall(client, RUN_SCRIPT, Some(script)).client;
      assert after.value.sent[..|client.value.sent|] == client.value.sent;
    }
  }

  /** The URL wait sends URL queries only. */
  lemma {:induction false} UrlWaitSendsOnly(
    client: Option<Channel>, oldUrl: Option<Json>, clock: nat -> int, k: nat, start: int, timeout: int, allowed: set<Json>)
    requires Advancing(clock)
    requires PyScript(URL_SCRIPT) in allowed
    ensures SendsOnly(client, UrlWait(client, oldUrl, clock, k, start, timeout).client, allowed)
    decreases PyMargin(clock, k, start, timeout)
  {
    var poll := PyCall(client, RUN_SCRIPT, Some(URL_SCRIPT));
    PyCallSendsOnly(client, URL_SCRIPT, allowed);
    if oldUrl == poll.result && clock(k) - start <= timeout {
      UrlWaitSendsOnly(poll.client, oldUrl, clock, k + 1, start, timeout, allowed);
      SendsOnlyChain(client, poll.client, UrlWait(client, oldUrl, clock, k, start, timeout).client, allowed);
    }
  }

  /** The element wait sends its lookup script only. */
  lemma {:induction false} ElemWaitSendsOnly(
    client: Option<Channel>, script: string, clock: nat -> int, k: nat, start: int, timeout: int, allowed: set<Json>)
    requires Advancing(clock)
    requires PyScript(script) in allowed
    ensures SendsOnly(client, ElemWait(client, script, clock, k, start, timeout).client, allowed)
    decreases PyMargin(clock, k, start, timeout)
  {
    var poll := PyCall(client, RUN_SCRIPT, Some(script));
    PyCallSendsOnly(client, script, allowed);
    if FirstElement(Elements(poll.result)) == Returned(None) && clock(k) - start <= timeout {
      ElemWaitSendsOnly(poll.client, script, clock, k + 1, start, timeout, allowed);
      SendsOnlyChain(client, poll.client, ElemWait(client, script, clock, k, start, timeout).client, allowed);
    }
  }

  /** The script the Python element wait runs, when a selector is named. */
  function PyLookup(selector: Option<string>): Option<string>
  {
    if selector.Some? then Some(SelectScript(selector.value)) else None
  }

  /** The requests of the navigation branch: URL queries, the navigation, and the element lookups. */
  function PyNavRequests(url2go: string, lookup: Option<string>): set<Json>
  {
    {PyScript(URL_SCRIPT), PyScript(NavigateScript(url2go))}
      + if lookup.Some? then {PyScript(lookup.value)} else {}
  }

  /** Requests for different scripts differ. */
  lemma PyScriptInjective(a: string, b: string)
    requires a != b
    ensures PyScript(a) != PyScript(b)
  {
    assert Lookup(PyScript(a).members, "payload") == Some(JString(a));
  }

  /** `location.reload()` is neither the URL query, nor a navigation, nor a lookup other than itself. */
  lemma ReloadIsNoNavRequest(url2go: string, lookup: Option<string>)
    requires lookup.Some? ==> lookup.value != RELOAD_SCRIPT
    ensures PyScript(RELOAD_SCRIPT) !in PyNavRequests(url2go, lookup)
  {
    assert |URL_SCRIPT| != |RELOAD_SCRIPT|;
    assert NavigateScript(url2go)[9] != RELOAD_SCRIPT[9];
    PyScriptInjective(RELOAD_SCRIPT, URL_SCRIPT);
    PyScriptInjective(RELOAD_SCRIPT, NavigateScript(url2go));
    if lookup.Some? {
      PyScriptInjective(RELOAD_SCRIPT, lookup.value);
    }
  }

  /** The `select_all` script opens with a line break, so it is not `location.reload()`. */
  lemma PyLookupIsNoReload(selector: Option<string>)
    ensures PyLookup(selector).Some? ==> PyLookup(selector).value != RELOAD_SCRIPT
  {
    if selector.Some? {
      assert SELECT_HEAD[0] == '\n';
      assert SelectScript(selector.value)[0] != RELOAD_SCRIPT[0];
    }
  }

  /** The URL query and the navigation are the first two requests, when both sends go through. */
  lemma NavSentFirst(ch: Channel, url2go: string, lookup: Option<string>)
    ensures var first := PyCall(Some(ch), RUN_SCRIPT, Some(URL_SCRIPT));
      var nav := PyCall(first.client, RUN_SCRIPT, Some(NavigateScript(url2go)));
      && SendsOnly(Some(ch), nav.client, PyNavRequests(url2go, lookup))
      && (|ch.pending| >= 2 && !ch.pending[0].Dropped? && !ch.pending[1].Dropped? ==>
            nav.client.value.sent == ch.sent + [PyScript(URL_SCRIPT), PyScript(NavigateScript(url2go))])
  {
    var allowed := PyNavRequests(url2go, lookup);
    var first := PyCall(Some(ch), RUN_SCRIPT, Some(URL_SCRIPT));
    PyCallSendsOnly(Some(ch), URL_SCRIPT, allowed);
    PyCallSendsOnly(first.client, NavigateScript(url2go), allowed);
    SendsOnlyChain(Some(ch), first.client, PyCall(first.client, RUN_SCRIPT, Some(NavigateScript(url2go))).client, allowed);
  }

  /** Everything a Python `goto` sends after the navigation is a URL query or a lookup. */
  lemma AfterNavSendsOnly(variant: PyVariant, ch: Channel, url2go: string, timeout: int, selector: Option<string>, clock: nat -> int)
    requires Advancing(clock)
    requires ResultAt(Some(ch), 0) != Some(JString(url2go))
    ensures var first := PyCall(Some(ch), RUN_SCRIPT, Some(URL_SCRIPT));
      var nav := PyCall(first.client, RUN_SCRIPT, Some(NavigateScript(url2go)));
      SendsOnly(nav.client, GotoPy(variant, Some(ch), url2go, timeout, selector, clock).client, PyNavRequests(url2go, PyLookup(selector)))
  {
    var allowed := PyNavRequests(url2go, PyLookup(selector));
    var first := PyCall(Some(ch), RUN_SCRIPT, Some(URL_SCRIPT));
    var nav := PyCall(first.client, RUN_SCRIPT, Some(NavigateScript(url2go)));
    var wait := UrlWait(nav.client, first.result, clock, 1, clock(0), timeout);
    var v := GotoPy(variant, Some(ch), url2go, timeout, selector, clock);
    UrlWaitSendsOnly(nav.client, first.result, clock, 1, clock(0), timeout, allowed);
    if wait.timedOut {
      assert v.client == wait.client;
    } else {
      assert v == ElementPhase(variant, wait.client, selector, clock, wait.tick, timeout);
      if selector.Some? && variant == Threaded {
        ElemWaitSendsOnly(wait.client, SelectScript(selector.value), clock, wait.tick + 1, clock(wait.tick), timeout, allowed);
        SendsOnlyChain(nav.client, wait.client, v.client, allowed);
      } else {
        assert v.client == wait.client;
      }
    }
  }

  /**
   * The navigation branch of a Python `goto`: the requests it appends begin
   * with the URL query and the navigation (when both sends go through), and
   * are all URL queries, that navigation or lookups of the selector; none
   * of them is a `location.reload()`.
   */
  lemma GotoNavigationRequests(variant: PyVariant, ch: Channel, url2go: string, timeout: int, selector: Option<string>, clock: nat -> int)
    requires Advancing(clock)
    requires ResultAt(Some(ch), 0) != Some(JString(url2go))
    ensures var v := GotoPy(variant, Some(ch), url2go, timeout, selector, clock);
      && SendsOnly(Some(ch), v.client, PyNavRequests(url2go, PyLookup(selector)))
      && (forall i :: |ch.sent| <= i < |v.client.value.sent| ==> v.client.value.sent[i] != PyScript(RELOAD_SCRIPT))
      && (|ch.pending| >= 2 && !ch.pending[0].Dropped? && !ch.pending[1].Dropped? ==>
            |v.client.value.sent| >= |ch.sent| + 2 &&
            v.client.value.sent[|ch.sent|..|ch.sent| + 2] == [PyScript(URL_SCRIPT), PyScript(NavigateScript(url2go))])
  {
    AfterNavSendsOnly(variant, ch, url2go, timeout, selector, clock);
    PyLookupIsNoReload(selector);
    NavigationLog(ch, url2go, PyLookup(selector), GotoPy(variant, Some(ch), url2go, timeout, selector, clock).client);
  }

  /** What the navigation branch sends, for any continuation that sends only URL queries and lookups. */
  lemma NavigationLog(ch: Channel, url2go: string, lookup: Option<string>, after: Option<Channel>)
    requires lookup.Some? ==> lookup.value != RELOAD_SCRIPT
    requires SendsOnly(PyCall(PyCall(Some(ch), RUN_SCRIPT, Some(URL_SCRIPT)).client, RUN_SCRIPT, Some(NavigateScript(url2go))).client,
      after, PyNavRequests(url2go, lookup))
    ensures SendsOnly(Some(ch), after, PyNavRequests(url2go, lookup))
    ensures forall i :: |ch.sent| <= i < |after.value.sent| ==> after.value.sent[i] != PyScript(RELOAD_SCRIPT)
    ensures |ch.pending| >= 2 && !ch.pending[0].Dropped? && !ch.pending[1].Dropped? ==>
      |after.value.sent| >= |ch.sent| + 2 &&
      after.value.sent[|ch.sent|..|ch.sent| + 2] == [PyScript(URL_SCRIPT), PyScript(NavigateScript(url2go))]
  {
    var first := PyCall(Some(ch), RUN_SCRIPT, Some(URL_SCRIPT));
    var nav := PyCall(first.client, RUN_SCRIPT, Some(NavigateScript(url2go)));
    NavSentFirst(ch, url2go, lookup);
    ReloadIsNoNavRequest(url2go, lookup);
    BeginsWith(ch, nav.client, after, PyNavRequests(url2go, lookup),
      [PyScript(URL_SCRIPT), PyScript(NavigateScript(url2go))], PyScript(RELOAD_SCRIPT));
  }

  // ---------------------------------------------------------------------------
  // Node

  /** A `runScript(script)` request. */
  function JsScript(script: string): Json
  {
    JsRequest(RUN_SCRIPT, Some(script))
  }

  /** One exchange appends at most its own request. */
  lemma JsCallSendsOnly(client: Option<Channel>, script: string, allowed: set<Json>)
    requires JsScript(script) in allowed
    ensures SendsOnly(client, JsCall(client, RUN_SCRIPT, Some(script)).client, allowed)
  {
    if client.Some? {
      var after := JsCall(client, RUN_SCRIPT, Some(script)).client;
      assert after.value.sent[..|client.value.sent|] == client.value.sent;
    }
  }

  /** The Node URL loop sends URL queries only. */
  lemma {:induction false} NodeUrlLoopSendsOnly(
    client: Option<Channel>, oldUrl: JsVal, clock: nat -> int, k: nat, start: int, timeout: int, allowed: set<Json>)
    requires Advancing(clock)
    requires JsScript(URL_SCRIPT) in allowed
    ensures SendsOnly(client, NodeUrlLoop(client, oldUrl, clock, k, start, timeout).client, allowed)
    decreases NodeMargin(clock, k, start, timeout)
  {
    var poll := JsCall(client, RUN_SCRIPT, Some(URL_SCRIPT));
    JsCallSendsOnly(client, URL_SCRIPT, allowed);
    if poll.outcome.Resolved? && StrictEquals(poll.outcome.value, oldUrl) && clock(k) - start < timeout {
      NodeUrlLoopSendsOnly(poll.client, oldUrl, clock, k + 1, start, timeout, allowed);
      SendsOnlyChain(client, poll.client, NodeUrlLoop(client, oldUrl, clock, k, start, timeout).client, allowed);
    }
  }

  /** The Node element loop sends `querySelector` lookups only. */
  lemma {:induction false} NodeElemLoopSendsOnly(
    client: Option<Channel>, selector: string, clock: nat -> int, k: nat, start: int, timeout: int, allowed: set<Json>)
    requires Advancing(clock)
    requires JsScript(QuerySelectorScript(selector)) in allowed
    ensures SendsOnly(client, NodeElemLoop(client, selector, clock, k, start, timeout).client, allowed)
    decreases NodeMargin(clock, k, start, timeout)
  {
    if clock(k) - start < timeout {
      var poll := JsCall(client, RUN_SCRIPT, Some(QuerySelectorScript(selector)));
      JsCallSendsOnly(client, QuerySelectorScript(selector), allowed);
      if poll.outcome.Resolved? && !Truthy(poll.outcome.value) {
        NodeElemLoopSendsOnly(poll.client, selector, clock, k + 1, start, timeout, allowed);
        SendsOnlyChain(client, poll.client, NodeElemLoop(client, selector, clock, k, start, timeout).client, allowed);
      }
    }
  }

  /** The script the Node element loop runs, when a selector is named. */
  function NodeLookup(selector: Option<string>): Option<string>
  {
    if selector.Some? then Some(QuerySelectorScript(selector.value)) else None
  }

  /** The requests of the Node navigation branch. */
  function NodeNavRequests(url: string, lookup: Option<string>): set<Json>
  {
    {JsScript(URL_SCRIPT), JsScript(NavigateScript(url))}
      + if lookup.Some? then {JsScript(lookup.value)} else {}
  }

  /** Requests for different scripts differ. */
  lemma JsScriptInjective(a: string, b: string)
    requires a != b
    ensures JsScript(a) != JsScript(b)
  {
    assert Lookup(JsScript(a).members, "payload") == Some(JString(a));
  }

  /** `location.reload()` is neither the URL query, nor a navigation, nor a lookup other than itself. */
  lemma NodeReloadIsNoNavRequest(url: string, lookup: Option<string>)
    requires lookup.Some? ==> lookup.value != RELOAD_SCRIPT
    ensures JsScript(RELOAD_SCRIPT) !in NodeNavRequests(url, lookup)
  {
    assert |URL_SCRIPT| != |RELOAD_SCRIPT|;
    assert NavigateScript(url)[9] != RELOAD_SCRIPT[9];
    JsScriptInjective(RELOAD_SCRIPT, URL_SCRIPT);
    JsScriptInjective(RELOAD_SCRIPT, NavigateScript(url));
    if lookup.Some? {
      JsScriptInjective(RELOAD_SCRIPT, lookup.value);
    }
  }

  /** The element phase of Node `goto` sends `querySelector` lookups only. */
  lemma NodeElementPhaseSendsOnly(client: Option<Channel>, selector: Option<string>, clock: nat -> int, k: nat, timeout: int, allowed: set<Json>)
    requires Advancing(clock)
    requires selector.Some? ==> JsScript(QuerySelectorScript(selector.value)) in allowed
    ensures SendsOnly(client, NodeElementPhase(client, selector, clock, k, timeout).client, allowed)
  {
    if selector.Some? && selector.value != "" {
      NodeElemLoopSendsOnly(client, selector.value, clock, k + 1, clock(k), timeout, allowed);
    }
  }

  /** The URL query and the navigation are the first two requests, when the second is not rejected. */
  lemma NodeNavSentFirst(ch: Channel, url: string, lookup: Option<string>)
    requires OutcomeAt(Some(ch), 0).Resolved?
    ensures var first := JsCall(Some(ch), RUN_SCRIPT, Some(URL_SCRIPT));
      var nav := JsCall(first.client, RUN_SCRIPT, Some(NavigateScript(url)));
      && SendsOnly(Some(ch), nav.client, NodeNavRequests(url, lookup))
      && (!OutcomeAt(Some(ch), 1).Rejected? ==>
            nav.client.value.sent == ch.sent + [JsScript(URL_SCRIPT), JsScript(NavigateScript(url))])
  {
    var allowed := NodeNavRequests(url, lookup);
    assert |ch.pending| > 0;
    var first := JsCall(Some(ch), RUN_SCRIPT, Some(URL_SCRIPT));
    assert OutcomeAt(first.client, 0) == OutcomeAt(Some(ch), 1);
    JsCallSendsOnly(Some(ch), URL_SCRIPT, allowed);
    JsCallSendsOnly(first.client, NavigateScript(url), allowed);
    SendsOnlyChain(Some(ch), first.client, JsCall(first.client, RUN_SCRIPT, Some(NavigateScript(url))).client, allowed);
  }

  /** Everything Node `goto` sends after the navigation is a URL query or a lookup. */
  lemma NodeAfterNavSendsOnly(ch: Channel, url: string, timeout: int, selector: Option<string>, clock: nat -> int)
    requires Advancing(clock)
    requires OutcomeAt(Some(ch), 0).Resolved? && !StrictEquals(OutcomeAt(Some(ch), 0).value, Value(JString(url)))
    ensures var first := JsCall(Some(ch), RUN_SCRIPT, Some(URL_SCRIPT));
      var nav := JsCall(first.client, RUN_SCRIPT, Some(NavigateScript(url)));
      SendsOnly(nav.client, GotoNode(Some(ch), url, timeout, selector, clock).client, NodeNavRequests(url, NodeLookup(selector)))
  {
    var allowed := NodeNavRequests(url, NodeLookup(selector));
    var first := JsCall(Some(ch), RUN_SCRIPT, Some(URL_SCRIPT));
    var oldUrl := first.outcome.value;
    var nav := JsCall(first.client, RUN_SCRIPT, Some(NavigateScript(url)));
    var v := GotoNode(Some(ch), url, timeout, selector, clock);
    if nav.outcome.Resolved? {
      var wait := NodeUrlLoop(nav.client, oldUrl, clock, 1, clock(0), timeout);
      NodeUrlLoopSendsOnly(nav.client, oldUrl, clock, 1, clock(0), timeout, allowed);
      if wait.outcome.Resolved? {
        var last := JsCall(wait.client, RUN_SCRIPT, Some(URL_SCRIPT));
        JsCallSendsOnly(wait.client, URL_SCRIPT, allowed);
        SendsOnlyChain(nav.client, wait.client, last.client, allowed);
        if last.outcome.Resolved? && !StrictEquals(last.outcome.value, oldUrl) {
          assert v == NodeElementPhase(last.client, selector, clock, wait.tick, timeout);
          NodeElementPhaseSendsOnly(last.client, selector, clock, wait.tick, timeout, allowed);
          SendsOnlyChain(nav.client, last.client, v.client, allowed);
        } else {
          assert v.client == last.client;
        }
      } else {
        assert v.client == wait.client;
      }
    } else {
      assert v.client == nav.client;
    }
  }

  /**
   * The navigation branch of Node `goto`: the requests it appends begin with
   * the URL query and the navigation (when the second command is not
   * rejected), and are all URL queries, that navigation or lookups of the
   * selector; none of them is a `location.reload()`.
   */
  lemma NodeGotoNavigationRequests(ch: Channel, url: string, timeout: int, selector: Option<string>, clock: nat -> int)
    requires Advancing(clock)
    requires OutcomeAt(Some(ch), 0).Resolved? && !StrictEquals(OutcomeAt(Some(ch), 0).value, Value(JString(url)))
    ensures var v := GotoNode(Some(ch), url, timeout, selector, clock);
      && SendsOnly(Some(ch), v.client, NodeNavRequests(url, NodeLookup(selector)))
      && (forall i :: |ch.sent| <= i < |v.client.value.sent| ==> v.client.value.sent[i] != JsScript(RELOAD_SCRIPT))
      && (!OutcomeAt(Some(ch), 1).Rejected? ==>
            |v.client.value.sent| >= |ch.sent| + 2 &&
            v.client.value.sent[|ch.sent|..|ch.sent| + 2] == [JsScript(URL_SCRIPT), JsScript(NavigateScript(url))])
  {
    NodeAfterNavSendsOnly(ch, url, timeout, selector, clock);
    if selector.Some? {
      assert QuerySelectorScript(selector.value)[0] != RELOAD_SCRIPT[0];
    }
    NodeNavigationLog(ch, url, NodeLookup(selector), GotoNode(Some(ch), url, timeout, selector, clock).client);
  }

  /** What the Node navigation branch sends, for any continuation that sends only URL queries and lookups. */
  lemma NodeNavigationLog(ch: Channel, url: string, lookup: Option<string>, after: Option<Channel>)
    requires OutcomeAt(Some(ch), 0).Resolved?
    requires lookup.Some? ==> lookup.value != RELOAD_SCRIPT
    requires SendsOnly(JsCall(JsCall(Some(ch), RUN_SCRIPT, Some(URL_SCRIPT)).client, RUN_SCRIPT, Some(NavigateScript(url))).client,
      after, NodeNavRequests(url, lookup))
    ensures SendsOnly(Some(ch), after, NodeNavRequests(url, lookup))
    ensures forall i :: |ch.sent| <= i < |after.value.sent| ==> after.value.sent[i] != JsScript(RELOAD_SCRIPT)
    ensures !OutcomeAt(Some(ch), 1).Rejected? ==>
      |after.value.sent| >= |ch.sent| + 2 &&
      after.value.sent[|ch.sent|..|ch.sent| + 2] == [JsScript(URL_SCRIPT), JsScript(NavigateScript(url))]
  {
    var first := JsCall(Some(ch), RUN_SCRIPT, Some(URL_SCRIPT));
    var nav := JsCall(first.client, RUN_SCRIPT, Some(NavigateScript(url)));
    NodeNavSentFirst(ch, url, lookup);
    NodeReloadIsNoNavRequest(url, lookup);
    BeginsWith(ch, nav.client, after, NodeNavRequests(url, lookup),
      [JsScript(URL_SCRIPT), JsScript(NavigateScript(url))], JsScript(RELOAD_SCRIPT));
  }
}
