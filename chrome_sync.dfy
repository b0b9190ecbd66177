/**
 * The threaded Python controller (chrome.py): one `Chrome` object holds the
 * window settings, the browser process, the websocket server and the one
 * connection the browser's extension opens to it. Every command is a round
 * trip on that connection (`Dispatch.PyCall`).
 */
module ChromeSync {
  import opened Wrappers
  import opened Json
  import opened Dispatch
  import opened Commands
  import opened Launch
  import opened Polling

  class Chrome {
    var initUrl: string
    var left: int
    var top: int
    var width: int
    var height: int
    var blockImage: bool
    var userDataDir: Option<string>
    var userAgent: Option<string>
    /** The command line of the running browser. */
    var process: Option<seq<string>>
    /** The port the websocket server listens on. */
    var wsServer: Option<nat>
    /** The extension's connection. */
    var wsClient: Option<Channel>

    /** A new controller: settings only, nothing started. */
    constructor(
      initUrl: string := "http://example.com",
      left: int := 0, top: int := 0, width: int := 0, height: int := 0,
      blockImage: bool := false,
      userDataDir: Option<string> := None,
      userAgent: Option<string> := None)
      ensures this.initUrl == initUrl && this.left == left && this.top == top
      ensures this.width == width && this.height == height && this.blockImage == blockImage
      ensures this.userDataDir == userDataDir && this.userAgent == userAgent
      ensures process.None? && wsServer.None? && wsClient.None?
    {
      this.initUrl := initUrl;
      this.left := left;
      this.top := top;
      this.width := width;
      this.height := height;
      this.blockImage := blockImage;
      this.userDataDir := userDataDir;
      this.userAgent := userAgent;
      process := None;
      wsServer := None;
      wsClient := None;
    }

    /** The launch settings, with the profile directory `start` falls back to. */
    function Settings(defaultProfile: string): Config
      reads this
    {
      Config(initUrl, left, top, width, height, blockImage, PyUserDataDir(userDataDir, defaultProfile), userAgent)
    }

    /**
     * `start()`: find the browser, start the server on the host's port, stage
     * the extension with every `{PORT}` replaced, default the profile
     * directory, build the command line, launch, and wait for the extension
     * to connect. The command line raises ValueError when both `left` and
     * `top` are non-zero.
     */
    method Start(host: Host) returns (report: StartReport)
      modifies this
      ensures initUrl == old(initUrl) && left == old(left) && top == old(top) && width == old(width)
      ensures height == old(height) && blockImage == old(blockImage) && userAgent == old(userAgent)
      ensures FirstExisting(Candidates(host.localAppData), host.files).None? ==>
        report == StartReport(ChromeMissing, None) &&
        userDataDir == old(userDataDir) && process == old(process) && wsServer == old(wsServer) && wsClient == old(wsClient)
      ensures FirstExisting(Candidates(host.localAppData), host.files).Some? ==>
        report.staged == Some(PyStage(host.template, host.port)) &&
        wsServer == Some(host.port) &&
        userDataDir == Some(PyUserDataDir(old(userDataDir), host.defaultProfile))
      ensures FirstExisting(Candidates(host.localAppData), host.files).Some? && left != 0 && top != 0 ==>
        report.end == StartRaised(ValueError(INT_FORMAT_ERROR)) && process == old(process) && wsClient == old(wsClient)
      ensures FirstExisting(Candidates(host.localAppData), host.files).Some? && !(left != 0 && top != 0) ==>
        var cands := Candidates(host.localAppData);
        process == Some(RenderAll(LaunchArgs(cands[FirstExisting(cands, host.files).value], host.extDir, host.extDirExists, old(Settings(host.defaultProfile))))) &&
        wsClient == (if host.connection.Some? then host.connection else old(wsClient)) &&
        report.end == (if wsClient.Some? then Connected else NeverConnected)
    {
      var chromePath := FindChrome(Candidates(host.localAppData), host.files);
      if !PathExists(host.files, chromePath) {
        return StartReport(ChromeMissing, None);
      }
      var config := Settings(host.defaultProfile);
      wsServer := Some(host.port);
      var staged := PyStage(host.template, host.port);
      if userDataDir.None? {
        userDataDir := Some(host.defaultProfile);
      }
      var cmd := BuildCommand(Threaded, chromePath, host.extDir, host.extDirExists, config);
      if cmd.Raised? {
        return StartReport(StartRaised(cmd.exception), Some(staged));
      }
      process := Some(cmd.value);
      if host.connection.Some? {
        wsClient := host.connection;
      }
      if wsClient.None? {
        return StartReport(NeverConnected, Some(staged));
      }
      report := StartReport(Connected, Some(staged));
    }

    /** Nothing left running, and the size and image settings reset by `quit`. */
    predicate Spent()
      reads this
    {
      process.None? && wsServer.None? && wsClient.None? && width == 0 && height == 0 && blockImage
    }

    /**
     * `quit()`: terminate the browser, shut the server down and close the
     * connection, each only if present, then reset the window size and turn
     * image blocking on. A second `quit` does nothing.
     */
    method Quit() returns (effects: seq<Effect>)
      modifies this
      ensures Spent()
      ensures effects ==
        (if old(process).Some? then [TerminateProcess] else []) +
        (if old(wsServer).Some? then [ShutDownServer] else []) +
        (if old(wsClient).Some? then [CloseClient] else [])
      ensures initUrl == old(initUrl) && left == old(left) && top == old(top)
      ensures userDataDir == old(userDataDir) && userAgent == old(userAgent)
      ensures old(Spent()) ==> effects == [] && unchanged(this)
    {
      effects := [];
      if process.Some? {
        effects := effects + [TerminateProcess];
        process := None;
      }
      if wsServer.Some? {
        effects := effects + [ShutDownServer];
        wsServer := None;
      }
      if wsClient.Some? {
        effects := effects + [CloseClient];
        wsClient := None;
      }
      width := 0;
      height := 0;
      blockImage := true;
    }

    /**
     * `_send_command(msg, payload)`: without a connection, or on a closed
     * one, nothing is sent and the result is None; otherwise the request goes
     * out, unless the send fails, and the next reply is decoded.
     */
    method SendCommand(msg: string, payload: Option<string>) returns (result: Option<Json>)
      modifies this`wsClient
      ensures result == ResultAt(old(wsClient), 0)
      ensures wsClient == PyCall(old(wsClient), msg, payload).client
    {
      result := None;
      if wsClient.Some? {
        var ch := wsClient.value;
        if |ch.pending| > 0 {
          var sent := if ch.pending[0].Dropped? then ch.sent else ch.sent + [PyRequest(msg, payload)];
          wsClient := Some(Channel(sent, ch.pending[1..]));
          result := PyDecode(ch.pending[0]);
        }
      }
    }

    method RunScript(script: string) returns (result: Option<Json>)
      modifies this`wsClient
      ensures result == ResultAt(old(wsClient), 0)
      ensures wsClient == PyCall(old(wsClient), RUN_SCRIPT, Some(script)).client
    {
      result := SendCommand(RUN_SCRIPT, Some(script));
    }

    method Url() returns (result: Option<Json>)
      modifies this`wsClient
      ensures result == ResultAt(old(wsClient), 0)
      ensures wsClient == PyCall(old(wsClient), RUN_SCRIPT, Some(URL_SCRIPT)).client
    {
      result := RunScript(URL_SCRIPT);
    }

    method Cookie(domain: string) returns (result: Option<Json>)
      modifies this`wsClient
      ensures result == ResultAt(old(wsClient), 0)
      ensures wsClient == PyCall(old(wsClient), GET_COOKIE, Some(domain)).client
    {
      result := SendCommand(GET_COOKIE, Some(domain));
    }

    method ClearCookie() returns (result: Option<Json>)
      modifies this`wsClient
      ensures result == ResultAt(old(wsClient), 0)
      ensures wsClient == PyCall(old(wsClient), CLEAR_COOKIE, None).client
    {
      result := SendCommand(CLEAR_COOKIE, None);
    }

    method Head() returns (result: Option<Json>)
      modifies this`wsClient
      ensures result == ResultAt(old(wsClient), 0)
      ensures wsClient == PyCall(old(wsClient), RUN_SCRIPT, Some(HEAD_SCRIPT)).client
    {
      result := RunScript(HEAD_SCRIPT);
    }

    method Body() returns (result: Option<Json>)
      modifies this`wsClient
      ensures result == ResultAt(old(wsClient), 0)
      ensures wsClient == PyCall(old(wsClient), RUN_SCRIPT, Some(BODY_SCRIPT)).client
    {
      result := RunScript(BODY_SCRIPT);
    }

    /** `select_all(selector)`: one element per item of what the selector script yields. */
    method SelectAll(selector: string) returns (elems: Outcome<seq<ChromeElem>>)
      modifies this`wsClient
      ensures elems == Elements(ResultAt(old(wsClient), 0))
      ensures wsClient == PyCall(old(wsClient), RUN_SCRIPT, Some(SelectScript(selector))).client
    {
      var jres := RunScript(SelectScript(selector));
      elems := CollectElements(jres);
    }

    /** `select_one(selector)`: the first element `select_all` yields, if any. */
    method SelectOne(selector: string) returns (elem: Outcome<Option<ChromeElem>>)
      modifies this`wsClient
      ensures elem == FirstElement(Elements(ResultAt(old(wsClient), 0)))
      ensures wsClient == PyCall(old(wsClient), RUN_SCRIPT, Some(SelectScript(selector))).client
    {
      var elems := SelectAll(selector);
      if elems.Raised? {
        return Raised(elems.exception);
      }
      if |elems.value| > 0 {
        elem := Returned(Some(elems.value[0]));
      } else {
        elem := Returned(None);
      }
    }

    /** `set_value(selector, value)`: the value travels base64-encoded. */
    method SetValue(selector: string, value: string)
      modifies this`wsClient
      ensures wsClient == PyCall(old(wsClient), RUN_SCRIPT, Some(SetValueScript(selector, value))).client
    {
      var _ := RunScript(SetValueScript(selector, value));
    }

    method Click(selector: string)
      modifies this`wsClient
      ensures wsClient == PyCall(old(wsClient), RUN_SCRIPT, Some(ClickScript(selector))).client
    {
      var _ := RunScript(ClickScript(selector));
    }

    /**
     * The wait for the URL to change (chrome.py): poll `url()` until it
     * differs from `oldUrl` or, after an unchanged poll, the clock reads past
     * the timeout; `tick` is the next unread reading.
     */
    method WaitForUrl(oldUrl: Option<Json>, clock: nat -> int, tick0: nat, start: int, waitTimeout: int)
      returns (timedOut: bool, tick: nat)
      requires Advancing(clock)
      modifies this`wsClient
      ensures Wait(timedOut, wsClient, tick) == UrlWait(old(wsClient), oldUrl, clock, tick0, start, waitTimeout)
    {
      tick := tick0;
      while true
        invariant UrlWait(wsClient, oldUrl, clock, tick, start, waitTimeout) ==
          UrlWait(old(wsClient), oldUrl, clock, tick0, start, waitTimeout)
        decreases PyMargin(clock, tick, start, waitTimeout)
      {
        var now := Url();
        if oldUrl != now {
          return false, tick;
        }
        if clock(tick) - start > waitTimeout {
          return true, tick + 1;
        }
        tick := tick + 1;
      }
    }

    /**
     * The wait for an element: poll `select_one` until it finds one or
     * raises or, after an empty poll, the clock reads past the timeout.
     */
    method WaitForElement(selector: string, clock: nat -> int, tick0: nat, start: int, waitTimeout: int)
      returns (end: ElemEnd, tick: nat)
      requires Advancing(clock)
      modifies this`wsClient
      ensures ElemPoll(end, wsClient, tick) == ElemWait(old(wsClient), SelectScript(selector), clock, tick0, start, waitTimeout)
    {
      tick := tick0;
      while true
        invariant ElemWait(wsClient, SelectScript(selector), clock, tick, start, waitTimeout) ==
          ElemWait(old(wsClient), SelectScript(selector), clock, tick0, start, waitTimeout)
        decreases PyMargin(clock, tick, start, waitTimeout)
      {
        var elem := SelectOne(selector);
        if elem.Raised? {
          return Threw(elem.exception), tick;
        }
        if elem.value.Some? {
          return Found, tick;
        }
        if clock(tick) - start > waitTimeout {
          return ElemTimedOut, tick + 1;
        }
        tick := tick + 1;
      }
    }

    /**
     * `goto(url2go, waitTimeout, waitElemSelector)`: `clock(k)` is the k-th
     * reading of the clock. Returns true exactly when no wait timed out and
     * no lookup raised, as `GotoPy` says; an exception from a lookup is
     * caught and makes it false.
     */
    method Goto(url2go: string, waitTimeout: int, waitElemSelector: Option<string>, clock: nat -> int) returns (ok: bool)
      requires Advancing(clock)
      modifies this`wsClient
      ensures GotoPy(Threaded, old(wsClient), url2go, waitTimeout, waitElemSelector, clock) == Visit(ok, wsClient)
    {
      ghost var visit := GotoPy(Threaded, wsClient, url2go, waitTimeout, waitElemSelector, clock);
      var tick: nat := 0;
      var oldUrl := Url();
      if oldUrl == Some(JString(url2go)) {
        var _ := RunScript(RELOAD_SCRIPT);
      } else {
        var _ := RunScript(NavigateScript(url2go));
        var start := clock(tick);
        var timeout;
        timeout, tick := WaitForUrl(oldUrl, clock, tick + 1, start, waitTimeout);
        if timeout {
          assert visit == Visit(false, wsClient);
          return false;
        }
      }
      assert visit == ElementPhase(Threaded, wsClient, waitElemSelector, clock, tick, waitTimeout);
      if waitElemSelector.None? {
        return true;
      }
      var start := clock(tick);
      var end;
      end, tick := WaitForElement(waitElemSelector.value, clock, tick + 1, start, waitTimeout);
      ok := end == Found;
    }
  }
}
