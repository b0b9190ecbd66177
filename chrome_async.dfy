/**
 * The asyncio Python controller (lib/chrome.py): the same object as the
 * threaded one, with coroutines for methods. It differs in three places:
 * the window position is formatted correctly, `quit` closes the connection
 * before the server, and `select_one` calls the coroutine `select` without
 * awaiting it, so it always raises TypeError and sends nothing.
 */
module ChromeAsync {
  import opened Wrappers
  import opened Json
  import opened Dispatch
  import opened Commands
  import opened Launch
  import opened Polling

  class Chrome {
    var initUrl: string
    var left: int
    var top: int
    var width: int
    var height: int
    var blockImage: bool
    var userDataDir: Option<string>
    var userAgent: Option<string>
    /** The command line of the running browser. */
    var process: Option<seq<string>>
    /** The port the websocket server listens on. */
    var websocketServer: Option<nat>
    /** The extension's connection. */
    var clientUnit: Option<Channel>

    /** A new controller: settings only, nothing started. */
    constructor(
      initUrl: string := "http://example.com",
      left: int := 0, top: int := 0, width: int := 0, height: int := 0,
      blockImage: bool := false,
      userDataDir: Option<string> := None,
      userAgent: Option<string> := None)
      ensures this.initUrl == initUrl && this.left == left && this.top == top
      ensures this.width == width && this.height == height && this.blockImage == blockImage
      ensures this.userDataDir == userDataDir && this.userAgent == userAgent
      ensures process.None? && websocketServer.None? && clientUnit.None?
    {
      this.initUrl := initUrl;
      this.left := left;
      this.top := top;
      this.width := width;
      this.height := height;
      this.blockImage := blockImage;
      this.userDataDir := userDataDir;
      this.userAgent := userAgent;
      process := None;
      websocketServer := None;
      clientUnit := None;
    }

    /** The launch settings, with the profile directory `start` falls back to. */
    function Settings(defaultProfile: string): Config
      reads this
    {
      Config(initUrl, left, top, width, height, blockImage, PyUserDataDir(userDataDir, defaultProfile), userAgent)
    }

    /**
     * `start()`: find the browser, start the server on the host's port, stage
     * the extension with every `{PORT}` replaced, default the profile
     * directory, build the command line, launch, and wait for the extension
     * to connect. Building the command line never raises here.
     */
    method Start(host: Host) returns (report: StartReport)
      modifies this
      ensures initUrl == old(initUrl) && left == old(left) && top == old(top) && width == old(width)
      ensures height == old(height) && blockImage == old(blockImage) && userAgent == old(userAgent)
      ensures FirstExisting(Candidates(host.localAppData), host.files).None? ==>
        report == StartReport(ChromeMissing, None) &&
        userDataDir == old(userDataDir) && process == old(process) && websocketServer == old(websocketServer) && clientUnit == old(clientUnit)
      ensures FirstExisting(Candidates(host.localAppData), host.files).Some? ==>
        report.staged == Some(PyStage(host.template, host.port)) &&
        websocketServer == Some(host.port) &&
        userDataDir == Some(PyUserDataDir(old(userDataDir), host.defaultProfile))
      ensures FirstExisting(Candidates(host.localAppData), host.files).Some? ==>
        var cands := Candidates(host.localAppData);
        process == Some(RenderAll(LaunchArgs(cands[FirstExisting(cands, host.files).value], host.extDir, host.extDirExists, old(Settings(host.defaultProfile))))) &&
        clientUnit == (if host.connection.Some? then host.connection else old(clientUnit)) &&
        report.end == (if clientUnit.Some? then Connected else NeverConnected)
    {
      var chromePath := FindChrome(Candidates(host.localAppData), host.files);
      if !PathExists(host.files, chromePath) {
        return StartReport(ChromeMissing, None);
      }
      var config := Settings(host.defaultProfile);
      websocketServer := Some(host.port);
      var staged := PyStage(host.template, host.port);
      if userDataDir.None? {
        userDataDir := Some(host.defaultProfile);
      }
      var cmd := BuildCommand(Asyncio, chromePath, host.extDir, host.extDirExists, config);
      process := Some(cmd.value);
      if host.connection.Some? {
        clientUnit := host.connection;
      }
      if clientUnit.None? {
        return StartReport(NeverConnected, Some(staged));
      }
      report := StartReport(Connected, Some(staged));
    }

    /** Nothing left running, and the size and image settings reset by `quit`. */
    predicate Spent()
      reads this
    {
      process.None? && websocketServer.None? && clientUnit.None? && width == 0 && height == 0 && blockImage
    }

    /**
     * `quit()`: terminate the browser, close the connection and then the
     * server, each only if present, then reset the window size and turn
     * image blocking on. A second `quit` does nothing.
     */
    method Quit() returns (effects: seq<Effect>)
      modifies this
      ensures Spent()
      ensures effects ==
        (if old(process).Some? then [TerminateProcess] else []) +
        (if old(clientUnit).Some? then [CloseClient] else []) +
        (if old(websocketServer).Some? then [CloseServer] else [])
      ensures initUrl == old(initUrl) && left == old(left) && top == old(top)
      ensures userDataDir == old(userDataDir) && userAgent == old(userAgent)
      ensures old(Spent()) ==> effects == [] && unchanged(this)
    {
      effects := [];
      if process.Some? {
        effects := effects + [TerminateProcess];
        process := None;
      }
      if clientUnit.Some? {
        effects := effects + [CloseClient];
        clientUnit := None;
      }
      if websocketServer.Some? {
        effects := effects + [CloseServer];
        websocketServer := None;
      }
      width := 0;
      height := 0;
      blockImage := true;
    }

    /**
     * `__send_command(msg, payload)`: without a connection, or on a closed
     * one, nothing is sent and the result is None; otherwise the request goes
     * out, unless the send fails, and the next reply is decoded.
     */
    method SendCommand(msg: string, payload: Option<string>) returns (result: Option<Json>)
      modifies this`clientUnit
      ensures result == ResultAt(old(clientUnit), 0)
      ensures clientUnit == PyCall(old(clientUnit), msg, payload).client
    {
      result := None;
      if clientUnit.Some? {
        var ch := clientUnit.value;
        if |ch.pending| > 0 {
          var sent := if ch.pending[0].Dropped? then ch.sent else ch.sent + [PyRequest(msg, payload)];
          clientUnit := Some(Channel(sent, ch.pending[1..]));
          result := PyDecode(ch.pending[0]);
        }
      }
    }

    method RunScript(script: string) returns (result: Option<Json>)
      modifies this`clientUnit
      ensures result == ResultAt(old(clientUnit), 0)
      ensures clientUnit == PyCall(old(clientUnit), RUN_SCRIPT, Some(script)).client
    {
      result := SendCommand(RUN_SCRIPT, Some(script));
    }

    method Url() returns (result: Option<Json>)
      modifies this`clientUnit
      ensures result == ResultAt(old(clientUnit), 0)
      ensures clientUnit == PyCall(old(clientUnit), RUN_SCRIPT, Some(URL_SCRIPT)).client
    {
      result := RunScript(URL_SCRIPT);
    }

    method Cookie(domain: string) returns (result: Option<Json>)
      modifies this`clientUnit
      ensures result == ResultAt(old(clientUnit), 0)
      ensures clientUnit == PyCall(old(clientUnit), GET_COOKIE, Some(domain)).client
    {
      result := SendCommand(GET_COOKIE, Some(domain));
    }

    method ClearCookie() returns (result: Option<Json>)
      modifies this`clientUnit
      ensures result == ResultAt(old(clientUnit), 0)
      ensures clientUnit == PyCall(old(clientUnit), CLEAR_COOKIE, None).client
    {
      result := SendCommand(CLEAR_COOKIE, None);
    }

    method Head() returns (result: Option<Json>)
      modifies this`clientUnit
      ensures result == ResultAt(old(clientUnit), 0)
      ensures clientUnit == PyCall(old(clientUnit), RUN_SCRIPT, Some(HEAD_SCRIPT)).client
    {
      result := RunScript(HEAD_SCRIPT);
    }

    method Body() returns (result: Option<Json>)
      modifies this`clientUnit
      ensures result == ResultAt(old(clientUnit), 0)
      ensures clientUnit == PyCall(old(clientUnit), RUN_SCRIPT, Some(BODY_SCRIPT)).client
    {
      result := RunScript(BODY_SCRIPT);
    }

    /** `select(selector)`: one element per item of what the selector script yields. */
    method Select(selector: string) returns (elems: Outcome<seq<ChromeElem>>)
      modifies this`clientUnit
      ensures elems == Elements(ResultAt(old(clientUnit), 0))
      ensures clientUnit == PyCall(old(clientUnit), RUN_SCRIPT, Some(SelectScript(selector))).client
    {
      var jres := RunScript(SelectScript(selector));
      elems := CollectElements(jres);
    }

    /**
     * `select_one(selector)`: `select(selector)` is a coroutine that is never
     * awaited, and `len` of it raises TypeError; nothing reaches the browser.
     */
    method SelectOne(selector: string) returns (elem: Outcome<Option<ChromeElem>>)
      ensures elem == Raised(TypeError(UNAWAITED_LEN))
    {
      elem := Raised(TypeError(UNAWAITED_LEN));
    }

    /** `set_value(selector, value)`: the value travels base64-encoded. */
    method SetValue(selector: string, value: string)
      modifies this`clientUnit
      ensures clientUnit == PyCall(old(clientUnit), RUN_SCRIPT, Some(SetValueScript(selector, value))).client
    {
      var _ := RunScript(SetValueScript(selector, value));
    }

    method Click(selector: string)
      modifies this`clientUnit
      ensures clientUnit == PyCall(old(clientUnit), RUN_SCRIPT, Some(ClickScript(selector))).client
    {
      var _ := RunScript(ClickScript(selector));
    }

    /**
     * The wait for the URL to change (lib/chrome.py:202-210): poll `url()` until it
     * differs from `oldUrl` or, after an unchanged poll, the clock reads past
     * the timeout; `tick` is the next unread reading.
     */
    method WaitForUrl(oldUrl: Option<Json>, clock: nat -> int, tick0: nat, start: int, waitTimeout: int)
      returns (timedOut: bool, tick: nat)
      requires Advancing(clock)
      modifies this`clientUnit
      ensures Wait(timedOut, clientUnit, tick) == UrlWait(old(clientUnit), oldUrl, clock, tick0, start, waitTimeout)
    {
      tick := tick0;
      while true
        invariant UrlWait(clientUnit, oldUrl, clock, tick, start, waitTimeout) ==
          UrlWait(old(clientUnit), oldUrl, clock, tick0, start, waitTimeout)
        decreases PyMargin(clock, tick, start, waitTimeout)
      {
        var now := Url();
        if oldUrl != now {
          return false, tick;
        }
        if clock(tick) - start > waitTimeout {
          return true, tick + 1;
        }
        tick := tick + 1;
      }
    }

    /**
     * `goto(url2go, waitTimeout, waitElemSelector)`: `clock(k)` is the k-th
     * reading of the clock. Returns true exactly when the URL wait did not
     * time out and no element was asked for, as `GotoPy` says: the first
     * element lookup raises, and `goto` catches it and returns false.
     */
    method Goto(url2go: string, waitTimeout: int, waitElemSelector: Option<string>, clock: nat -> int) returns (ok: bool)
      requires Advancing(clock)
      modifies this`clientUnit
      ensures GotoPy(Asyncio, old(clientUnit), url2go, waitTimeout, waitElemSelector, clock) == Visit(ok, clientUnit)
    {
      var tick: nat := 0;
      var oldUrl := Url();
      if oldUrl == Some(JString(url2go)) {
        var _ := RunScript(RELOAD_SCRIPT);
      } else {
        var _ := RunScript(NavigateScript(url2go));
        var start := clock(tick);
        var timeout;
        timeout, tick := WaitForUrl(oldUrl, clock, tick + 1, start, waitTimeout);
        if timeout {
          return false;
        }
      }
      if waitElemSelector.None? {
        return true;
      }
      var start := clock(tick);
      var elem := SelectOne(waitElemSelector.value);
      match elem
      case Raised(_) =>
        ok := false;
    }
  }
}
