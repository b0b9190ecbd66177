/**
 * The Node controller (lib/chrome.js): the same browser session as the
 * Python ones, with promises for results. There is no server handle to
 * shut down; a command without a connection, or whose send fails, rejects;
 * and the command line always has its seven arguments.
 */
module ChromeNode {
  import opened Wrappers
  import opened Json
  import opened Dispatch
  import opened Commands
  import opened Launch
  import opened Polling

  class Chrome {
    var initUrl: string
    var left: int
    var top: int
    var width: int
    var height: int
    var blockImage: bool
    var userDataDir: Option<string>
    var userAgent: Option<string>
    /** The browser executable and the arguments it was started with. */
    var process: Option<(string, seq<string>)>
    /** The extension's connection. */
    var clientUnit: Option<Channel>

    /** A new controller: settings only, nothing started. */
    constructor(
      initUrl: string := "http://example.com",
      left: int := 0, top: int := 0, width: int := 0, height: int := 0,
      blockImage: bool := false,
      userDataDir: Option<string> := None,
      userAgent: Option<string> := None)
      ensures this.initUrl == initUrl && this.left == left && this.top == top
      ensures this.width == width && this.height == height && this.blockImage == blockImage
      ensures this.userDataDir == userDataDir && this.userAgent == userAgent
      ensures process.None? && clientUnit.None?
    {
      this.initUrl := initUrl;
      this.left := left;
      this.top := top;
      this.width := width;
      this.height := height;
      this.blockImage := blockImage;
      this.userDataDir := userDataDir;
      this.userAgent := userAgent;
      process := None;
      clientUnit := None;
    }

    /** The launch settings, with the profile directory a falsy `userDataDir` falls back to. */
    function Settings(defaultProfile: string): Config
      reads this
    {
      Config(initUrl, left, top, width, height, blockImage, JsUserDataDir(userDataDir, defaultProfile), userAgent)
    }

    /**
     * `start()`: reject when no candidate path exists; otherwise stage the
     * extension with the first `{PORT}` replaced, default a falsy profile
     * directory, launch with the seven arguments, accept the extension's
     * connection when it comes, and resolve after the fixed delay whether or
     * not it came.
     */
    method Start(host: Host) returns (outcome: Promise<()>, staged: Option<string>)
      modifies this
      ensures initUrl == old(initUrl) && left == old(left) && top == old(top) && width == old(width)
      ensures height == old(height) && blockImage == old(blockImage) && userAgent == old(userAgent)
      ensures FirstExisting(Candidates(host.localAppData), host.files).None? ==>
        outcome == Rejected(ChromeNotFound) && staged.None? &&
        userDataDir == old(userDataDir) && process == old(process) && clientUnit == old(clientUnit)
      ensures FirstExisting(Candidates(host.localAppData), host.files).Some? ==>
        var cands := Candidates(host.localAppData);
        outcome == Resolved(()) &&
        staged == Some(NodeStage(host.template, host.port)) &&
        userDataDir == Some(JsUserDataDir(old(userDataDir), host.defaultProfile)) &&
        process == Some((cands[FirstExisting(cands, host.files).value], NodeArgs(host.extDir, old(Settings(host.defaultProfile))))) &&
        clientUnit == (if host.connection.Some? then host.connection else old(clientUnit))
    {
      var chromePath := FindChrome(Candidates(host.localAppData), host.files);
      if !PathExists(host.files, chromePath) {
        return Rejected(ChromeNotFound), None;
      }
      var config := Settings(host.defaultProfile);
      staged := Some(NodeStage(host.template, host.port));
      userDataDir := Some(config.userDataDir);
      process := Some((chromePath, NodeArgs(host.extDir, config)));
      if host.connection.Some? {
        clientUnit := host.connection;
      }
      outcome := Resolved(());
    }

    /** Nothing left running, and the size and image settings reset by `quit`. */
    predicate Spent()
      reads this
    {
      process.None? && clientUnit.None? && width == 0 && height == 0 && blockImage
    }

    /**
     * `quit()`: kill the browser and close the connection, each only if
     * present, then reset the window size and turn image blocking on. A
     * second `quit` does nothing.
     */
    method Quit() returns (effects: seq<Effect>)
      modifies this
      ensures Spent()
      ensures effects ==
        (if old(process).Some? then [KillProcess] else []) +
        (if old(clientUnit).Some? then [CloseClient] else [])
      ensures initUrl == old(initUrl) && left == old(left) && top == old(top)
      ensures userDataDir == old(userDataDir) && userAgent == old(userAgent)
      ensures old(Spent()) ==> effects == [] && unchanged(this)
    {
      effects := [];
      if process.Some? {
        effects := effects + [KillProcess];
        process := None;
      }
      if clientUnit.Some? {
        effects := effects + [CloseClient];
        clientUnit := None;
      }
      width := 0;
      height := 0;
      blockImage := true;
    }

    /**
     * `_sendCommand(msg, payload)`: reject without a connection; reject,
     * sending nothing, when the send fails; otherwise send and settle as the
     * next frame says.
     */
    method SendCommand(msg: string, payload: Option<string>) returns (outcome: Promise<JsVal>)
      modifies this`clientUnit
      ensures outcome == OutcomeAt(old(clientUnit), 0)
      ensures clientUnit == JsCall(old(clientUnit), msg, payload).client
    {
      if clientUnit.None? {
        return Rejected(ClientNotConnected);
      }
      var ch := clientUnit.value;
      if |ch.pending| == 0 {
        return Rejected(SendFailed);
      }
      var reply := ch.pending[0];
      if reply.Dropped? {
        clientUnit := Some(Channel(ch.sent, ch.pending[1..]));
        return Rejected(SendFailed);
      }
      clientUnit := Some(Channel(ch.sent + [JsRequest(msg, payload)], ch.pending[1..]));
      outcome := JsDecode(reply);
    }

    method RunScript(script: string) returns (outcome: Promise<JsVal>)
      modifies this`clientUnit
      ensures outcome == OutcomeAt(old(clientUnit), 0)
      ensures clientUnit == JsCall(old(clientUnit), RUN_SCRIPT, Some(script)).client
    {
      outcome := SendCommand(RUN_SCRIPT, Some(script));
    }

    method Url() returns (outcome: Promise<JsVal>)
      modifies this`clientUnit
      ensures outcome == OutcomeAt(old(clientUnit), 0)
      ensures clientUnit == JsCall(old(clientUnit), RUN_SCRIPT, Some(URL_SCRIPT)).client
    {
      outcome := RunScript(URL_SCRIPT);
    }

    /**
     * The URL loop of `goto`: poll `url()` while it equals `oldUrl` and the
     * clock reads under the timeout; a rejected poll rejects.
     */
    method UrlLoop(oldUrl: JsVal, clock: nat -> int, tick0: nat, start: int, waitTimeout: int)
      returns (outcome: Promise<()>, tick: nat)
      requires Advancing(clock)
      modifies this`clientUnit
      ensures NodeWait(outcome, clientUnit, tick) == NodeUrlLoop(old(clientUnit), oldUrl, clock, tick0, start, waitTimeout)
    {
      tick := tick0;
      while true
        invariant NodeUrlLoop(clientUnit, oldUrl, clock, tick, start, waitTimeout) ==
          NodeUrlLoop(old(clientUnit), oldUrl, clock, tick0, start, waitTimeout)
        decreases NodeMargin(clock, tick, start, waitTimeout)
      {
        var now := Url();
        if !now.Resolved? {
          return Propagate(now), tick;
        }
        if !StrictEquals(now.value, oldUrl) {
          return Resolved(()), tick;
        }
        if !(clock(tick) - start < waitTimeout) {
          return Resolved(()), tick + 1;
        }
        tick := tick + 1;
      }
    }

    /**
     * The element loop of `goto`: while the clock reads under the timeout,
     * query the selector, and stop at a truthy answer.
     */
    method ElemLoop(selector: string, clock: nat -> int, tick0: nat, start: int, waitTimeout: int)
      returns (outcome: Promise<()>, tick: nat)
      requires Advancing(clock)
      modifies this`clientUnit
      ensures NodeWait(outcome, clientUnit, tick) == NodeElemLoop(old(clientUnit), selector, clock, tick0, start, waitTimeout)
    {
      tick := tick0;
      while true
        invariant NodeElemLoop(clientUnit, selector, clock, tick, start, waitTimeout) ==
          NodeElemLoop(old(clientUnit), selector, clock, tick0, start, waitTimeout)
        decreases NodeMargin(clock, tick, start, waitTimeout)
      {
        if !(clock(tick) - start < waitTimeout) {
          return Resolved(()), tick + 1;
        }
        tick := tick + 1;
        var element := RunScript(QuerySelectorScript(selector));
        if !element.Resolved? {
          return Propagate(element), tick;
        }
        if Truthy(element.value) {
          return Resolved(()), tick;
        }
      }
    }

    /**
     * The element phase of `goto`: skipped for a falsy selector; otherwise
     * run the element loop and report a timeout when the reading after it is
     * at or past the timeout. Settles as `NodeElementPhase` says.
     */
    method ElementPhase(waitElemSelector: Option<string>, clock: nat -> int, tick0: nat, waitTimeout: int)
      returns (outcome: Promise<bool>)
      requires Advancing(clock)
      modifies this`clientUnit
      ensures NodeElementPhase(old(clientUnit), waitElemSelector, clock, tick0, waitTimeout) == NodeVisit(outcome, clientUnit)
    {
      if waitElemSelector.None? || waitElemSelector.value == "" {
        return Resolved(true);
      }
      var start := clock(tick0);
      var waited, tick := ElemLoop(waitElemSelector.value, clock, tick0 + 1, start, waitTimeout);
      if !waited.Resolved? {
        return Propagate(waited);
      }
      outcome := Resolved(!(clock(tick) - start >= waitTimeout));
    }

    /**
     * `goto(url, waitTimeout, waitElemSelector)`: `clock(k)` is the k-th
     * reading of `Date.now()`. Settles as `GotoNode` says: rejected when a
     * command is, otherwise resolved true exactly when neither phase timed
     * out.
     */
    method Goto(url: string, waitTimeout: int, waitElemSelector: Option<string>, clock: nat -> int)
      returns (outcome: Promise<bool>)
      requires Advancing(clock)
      modifies this`clientUnit
      ensures GotoNode(old(clientUnit), url, waitTimeout, waitElemSelector, clock) == NodeVisit(outcome, clientUnit)
    {
      var tick: nat := 0;
      var oldUrl := Url();
      if !oldUrl.Resolved? {
        return Propagate(oldUrl);
      }
      if StrictEquals(oldUrl.value, Value(JString(url))) {
        var reloaded := RunScript(RELOAD_SCRIPT);
        if !reloaded.Resolved? {
          return Propagate(reloaded);
        }
      } else {
        var navigated := RunScript(NavigateScript(url));
        if !navigated.Resolved? {
          return Propagate(navigated);
        }
        var waited;
        waited, tick := UrlLoop(oldUrl.value, clock, tick + 1, clock(tick), waitTimeout);
        if !waited.Resolved? {
          return Propagate(waited);
        }
        var last := Url();
        if !last.Resolved? {
          return Propagate(last);
        }
        if StrictEquals(last.value, oldUrl.value) {
          return Resolved(false);
        }
      }
      outcome := ElementPhase(waitElemSelector, clock, tick, waitTimeout);
    }
  }
}
