# Chrome session controller, modelled in Dafny

The repository drives a desktop Chrome through a browser extension. A
`Chrome` object finds the browser executable and starts a local websocket
server. It copies the extension into a temporary directory and writes the
server's port into the extension's `background.js`. It launches the browser
with a command line built from the window settings, then waits for the
extension to connect. From then on every operation is one round trip on that
connection: a JSON request `{msg, payload}` goes out and the `result` member
of the reply comes back. Every operation is a script run in the page
(`runScript`) or a cookie command (`getCookie`, `clearCookie`).
`goto` navigates and polls the URL until it changes, then polls for an
element until it appears, each within a timeout.

There are three variants of the controller:

- `chrome.py`: threaded Python.
- `lib/chrome.py`: asyncio Python.
- `lib/chrome.js`: Node.

This project models all three with their differences:

- **Window position in `chrome.py`.** The window-position argument is built
  with `{self._top: int}`, which raises ValueError as soon as `left` and
  `top` are both non-zero.
- **`select_one` in `lib/chrome.py`.** It calls the coroutine `select`
  without awaiting it, so it always raises TypeError. `goto` therefore fails
  whenever an element is named.
- **Node port staging.** It replaces only the first `{PORT}` in the
  background script; the Python variants replace every occurrence.
- **Node command line.** It always has seven arguments, with empty strings
  for flags that are off. The Python variants append each flag only when it
  is on.
- **Node errors.** It rejects a command when there is no connection or the
  send fails. The Python variants log the error and yield None.
- **Node profile directory.** It replaces a falsy profile directory, so the
  empty string counts too. The Python variants replace only None.
- **Node timeout test.** It compares `elapsed < timeout`, not
  `elapsed > timeout`. It decides the URL timeout with one more `url()` after
  the loop, and the element timeout with one more clock reading.

## Layout

- `wrappers.dfy`: the option, Python-outcome and promise types.
- `json.dfy`: JSON values, and member lookup where the last duplicate wins.
- `text.dfy`: `str.replace` (all occurrences) and JavaScript's string
  `replace` (first occurrence); decimal rendering of integers; `join` and
  `split`.
- `base64.dfy`: UTF-8 encoding, base64 encoding and their inverses.
- `dom_selector.dfy`: the `getSelector` helper the lookup script carries.
- `dispatch.dfy`: the request record and reply decoding of each dispatcher.
  It also has the channel, which is the sequence of frames the extension
  will answer with.
- `launch.dfy`: finding the browser, staging the port, and the command line.
- `commands.dfy`: the scripts each operation sends, and the Python
  conversion of a lookup result into elements.
- `polling.dfy`: `goto` as a function of the channel and of an abstract
  clock.
- `requests.dfy`: which requests `goto` sends on the navigation branch.
- `chrome_sync.dfy`, `chrome_async.dfy`, `chrome_node.dfy`: the three
  `Chrome` classes. Each method updates the fields in place and is proved
  against the functions above.

## Model

| member | source | states |
|---|---|---|
| Json.Lookup | chrome.py:79 | the `result` lookup finds a value exactly when some member has that key, and the value belongs to such a member |
| Json.DictKeys | chrome.py:285-287 | iterating a decoded object visits exactly its keys, each once |
| Json.DictKeysInFirstOccurrenceOrder | chrome.py:285-287 | the keys come in the order of their first occurrence: each occurs in the members before any occurrence of a later key |
| Dispatch.PyRequest | chrome.py:60-75 | the request carries `msg`, and carries `payload` exactly when one is given |
| Dispatch.PyDecode | chrome.py:78-81 | a reply yields a value exactly when it is an object whose `result` is present, not null and not the "<undefined>" sentinel; the value is that `result` |
| Dispatch.PyCall | chrome.py:56-89 | one command returns the next reply's value; later replies move up by one; the request is recorded only when the send goes through on an open connection; without a connection nothing happens and the result is None |
| Dispatch.JsRequest | lib/chrome.js:39 | the request always has both members, with `payload` null when omitted |
| Dispatch.JsDecode | lib/chrome.js:40-45 | a failed send, and only that, rejects; the promise resolves null exactly for a null or sentinel `result` |
| Dispatch.JsCall | lib/chrome.js:36-51 | one command settles as the next frame says; later frames move up by one; the request is recorded exactly when the command is not rejected; without a connection it rejects with "Client unit is not connected" |
| Dispatch.DecodersAgree | lib/chrome.js:43-44 | for an object with a `result`, the Node dispatcher resolves what the Python one returns, with null for None |
| Launch.Candidates | chrome.py:102-107 | three candidate paths in order: under the local application-data folder, then the two Program Files locations |
| Launch.FirstExisting | chrome.py:108-111 | the first candidate that exists, with none before it existing; none exactly when no candidate exists |
| Launch.FindChrome | chrome.py:101-113 | the search loop yields the first existing candidate, or "" when none exists, and the result exists exactly when one was found |
| Launch.PyUserDataDir | chrome.py:132-133 | the profile directory defaults only when it is None |
| Launch.JsUserDataDir | lib/chrome.js:71 | the profile directory defaults when null or empty |
| Launch.PyStageLeavesNoToken | chrome.py:124-129 | after staging, no `{PORT}` is left in the background script |
| Launch.NodeStageKeepsSecondToken | lib/chrome.js:67-69 | a second `{PORT}` in the background script survives staging |
| Launch.StagesAgreeOnSingleToken | lib/chrome.js:69 | with exactly one `{PORT}`, the Node staging equals the Python staging |
| Launch.ProductNonZero | chrome.py:141 | `left * top != 0` exactly when both are non-zero (the same for width and height) |
| Launch.LaunchArgsEnds | chrome.py:136-152 | the command line starts with the browser path and the profile flag, and ends with the start URL when it is non-empty |
| Launch.LaunchArgsFit | chrome.py:136-152 | every argument carries the object's own settings |
| Launch.LaunchArgsOrdered | chrome.py:136-152 | the arguments keep the order the code appends them in, each at most once |
| Launch.LaunchArgsMembers | chrome.py:136-152 | an entry is on the command line exactly when it is the binary, the profile flag, or an optional entry whose condition holds |
| Launch.LaunchArgsFlags | chrome.py:138-152 | each optional flag is present exactly when its setting is on: extension directory exists; position and size when both numbers are non-zero; image blocking; user agent when given; start URL when non-empty |
| Launch.BuildCommand | chrome.py:136-152 | the threaded build raises ValueError exactly when `left` and `top` are both non-zero; otherwise it yields the rendered argument list |
| Launch.NodeArgs | lib/chrome.js:72-80 | always seven arguments, the initial URL last even when empty |
| Launch.NodeArgsSlots | lib/chrome.js:72-78 | the first four slots are the profile, extension, position and size flags even for zeros; the image slot is empty when images are on and the user-agent slot empty for a falsy agent |
| Launch.NodeArgsMatchPythonWhenAllSet | lib/chrome.js:72-80 | with every option on, the Node arguments are the Python command line without the executable |
| Text.FindFromLeftmost | chrome.py:129 | the search returns an occurrence with none before it, and finds nothing only when there is no occurrence |
| Text.ReplaceAllFromLeavesNoMatch | chrome.py:129 | from any position on, replacing every occurrence with a text that shares no character with the pattern leaves no occurrence |
| Text.ReplaceAllLeavesNoMatch | chrome.py:129 | replacing every occurrence with a text that shares no character with the pattern leaves no occurrence |
| Text.ReplaceFirstKeepsLaterMatch | lib/chrome.js:69 | replacing the first occurrence leaves every later occurrence in place |
| Text.ReplaceFirstIsAllWhenSingle | lib/chrome.js:69 | with a single occurrence, replacing the first equals replacing all |
| Text.DecimalRoundTrip | chrome.py:129 | the decimal rendering of the port reads back as the port |
| Text.IntToStringRoundTrip | chrome.py:144 | the rendering of a window coordinate, sign included, reads back as that number |
| Text.SplitJoin | chrome.py:268 | joining selector steps with `>` and splitting again gives the steps back, when no step contains `>` |
| Base64.Utf8RoundTrip | chrome.py:298 | the UTF-8 encoding of the value decodes back to it |
| Base64.Encode | chrome.py:298 | the encoding has four characters per started group of three bytes |
| Base64.EncodeAlphabet | chrome.py:298 | every character of the encoding is from the base64 alphabet or the padding |
| Base64.DecodeEncode | chrome.py:298-301 | `atob` of the encoding gives the bytes back |
| Base64.AsciiSurvivesLatin1 | chrome.py:299-301 | for an ASCII value, the byte string `atob` yields is the value itself |
| Base64.NonAsciiLengthens | chrome.py:298 | a value with a character from U+0080 on has a UTF-8 encoding longer than itself |
| Base64.NonAsciiGarbled | chrome.py:298-301 | for a value with a character from U+0080 on, the byte string `atob` yields is not the value |
| DomSelector.GetSelector | chrome.py:254-269 | the loop builds exactly the `>`-joined path of `SelectorPath` |
| DomSelector.Stop | chrome.py:257-267 | the climb stops at the first element that has an id, is BODY or has no parent element |
| DomSelector.NamesShape | chrome.py:257-267 | one step per element climbed: the anchor `#id` when the climb stops at an id, otherwise `TAG:nth-child(c)` with `c` one more than the preceding siblings |
| DomSelector.IdShortCircuits | chrome.py:257-260 | an element with an id below BODY is selected by `#id` alone |
| DomSelector.SelectorSplits | chrome.py:268 | when no tag or id contains `>`, the selector splits back into its steps |
| Commands.SetValuePayload | chrome.py:297-301 | the quoted payload has only base64 characters, so no quote or backslash ends the literal, and it decodes to the value's UTF-8 bytes |
| Commands.SetValueAsciiRoundTrip | chrome.py:297-301 | for an ASCII value, the field is set to the value itself |
| Commands.SetValueNonAsciiGarbled | chrome.py:297-301 | for a value with a character from U+0080 on, `atob` gives back the UTF-8 bytes, and the field is set to those bytes read one character each, which is not the value |
| Commands.SetValueUtf8RoundTrip | chrome.py:297-301 | for every value, decoding the bytes `atob` yields as UTF-8 gives the value back |
| Commands.Visited | chrome.py:285-287 | iterating a result visits a list's items, a string's characters, and an object's keys exactly as `DictKeys` lists them (each key once; a key is visited exactly when some member has it; their order is stated by `Json.DictKeysInFirstOccurrenceOrder`), and raises TypeError for a number or a boolean |
| Commands.Elements | chrome.py:285-288 | no result gives no elements; a number or boolean raises; otherwise one element per item visited, in order |
| Commands.CollectElements | chrome.py:285-288 | the loop that appends one element per item computes `Elements` |
| Commands.FirstElement | chrome.py:290-295 | the first element when there is one, None when there are none, and the same exception when the lookup raised |
| Commands.SelectAllFollowsPage | chrome.py:271-283 | when the page answers with one selector per match, `select_all` yields one element per match carrying that match's `getSelector` path |
| Polling.UrlWaitTimesOutIffUnchanged | chrome.py:206-214 | the URL wait times out exactly when every poll up to the first reading past the timeout saw the old URL |
| Polling.ElemWaitTimesOutIffEmpty | chrome.py:216-228 | the element wait times out exactly when every lookup up to the deadline found nothing |
| Polling.ElemWaitNeverThrows | chrome.py:216-228 | when no lookup up to the deadline raises, the element wait does not raise |
| Polling.GotoReloadsCurrentPage | chrome.py:200-202 | already at the target, `goto` sends the URL query and one `location.reload()` (unless that send fails) and succeeds without a selector |
| Polling.GotoNavigatesAndWaits | chrome.py:203-214 | elsewhere, `goto` without a selector succeeds exactly when some poll up to the deadline differs from the first URL |
| SentRequests.PyCallSendsOnly | chrome.py:56-89 | one command appends at most its own request to what was sent |
| SentRequests.UrlWaitSendsOnly | chrome.py:206-214 | the URL wait sends URL queries only |
| SentRequests.ElemWaitSendsOnly | chrome.py:216-228 | the element wait sends its lookup script only |
| SentRequests.GotoNavigationRequests | chrome.py:203-231 | off the reload branch, `goto` appends the URL query and the navigation first (when both sends go through), then only URL queries and lookups of the selector, and never `location.reload()` |
| Polling.GotoWithoutClientFails | chrome.py:190-234 | without a connection `goto` returns False |
| Polling.ThreadedElementPhase | chrome.py:216-231 | in chrome.py the element phase succeeds exactly when some lookup up to the deadline finds an element after lookups that all found nothing; a lookup that raises (a number or a boolean for a result) makes it fail |
| Polling.ElemWaitFindsIffFoundFirst | chrome.py:216-228 | the element wait ends with an element exactly when some lookup up to the deadline is the first to find one, with no lookup before it raising |
| Polling.AsyncGotoWithSelectorFails | lib/chrome.py:213-227 | in lib/chrome.py a `goto` that names an element always returns False |
| Polling.GotoNode | lib/chrome.js:113-139 | without a connection the Node `goto` rejects with "Client unit is not connected" |
| Polling.NodeUrlLoopResolves | lib/chrome.js:120-123 | when every poll the loop can make before the clock passes the timeout resolves, the Node URL loop resolves; it stops at a poll `n` no later than that last reading, every poll before `n` saw the old URL under the timeout, and poll `n` differs from it or its reading is at or past the timeout; the channel resumes after poll `n` |
| Polling.NodeGotoReloadsCurrentPage | lib/chrome.js:113-117 | already at the target, the Node `goto` sends the URL query and one `location.reload()`, resolves true without a selector, and consumes two frames |
| Polling.NodeGotoNavigatesAndWaits | lib/chrome.js:113-125 | elsewhere, the Node `goto` without a selector polls until a poll `n` stops the loop, and resolves true exactly when the `url()` after the loop is not strictly equal to the first URL |
| SentRequests.JsCallSendsOnly | lib/chrome.js:36-51 | one command appends at most its own request to what was sent |
| SentRequests.NodeUrlLoopSendsOnly | lib/chrome.js:120-123 | the Node URL loop sends URL queries only |
| SentRequests.NodeElemLoopSendsOnly | lib/chrome.js:128-133 | the Node element loop sends `querySelector` lookups only |
| SentRequests.NodeGotoNavigationRequests | lib/chrome.js:113-135 | off the reload branch, the Node `goto` appends the URL query and the navigation first (when the second command is not rejected), then only URL queries and lookups of the selector, and never `location.reload()` |
| Polling.NodeElementPhaseFinds | lib/chrome.js:127-135 | with a non-empty selector, the Node element phase resolves true exactly when some lookup finds an element while the readings up to the one after it stay under the timeout, after falsy lookups only |
| Polling.NodeLateFindTimesOut | lib/chrome.js:127-135 | the Node element phase reports a timeout when the reading after a successful lookup is past the timeout |
| ChromeSync.Chrome.constructor | chrome.py:28-49 | the settings as given; no process, server or connection |
| ChromeSync.Chrome.Start | chrome.py:101-165 | Chrome not found changes nothing; otherwise the server is on the host's port, every `{PORT}` is staged and the profile is defaulted; the build raises when both position numbers are non-zero; otherwise the process runs the rendered command line and start returns once connected |
| ChromeSync.Chrome.Quit | chrome.py:167-182 | terminate, shut down the server, close the connection (each if present, in that order); then no handles, size zero, images blocked; a second quit does nothing |
| ChromeSync.Chrome.SendCommand | chrome.py:56-89 | the method computes `PyCall`: the next reply's value and the advanced channel |
| ChromeSync.Chrome.RunScript | chrome.py:184-185 | a `runScript` command with the script as payload |
| ChromeSync.Chrome.Url | chrome.py:187-188 | runs `location.href` |
| ChromeSync.Chrome.Cookie | chrome.py:236-237 | a `getCookie` command with the domain |
| ChromeSync.Chrome.ClearCookie | chrome.py:239-242 | a `clearCookie` command without payload |
| ChromeSync.Chrome.Head | chrome.py:244-245 | runs `document.head.outerHTML` |
| ChromeSync.Chrome.Body | chrome.py:247-248 | runs `document.body.outerHTML` |
| ChromeSync.Chrome.SelectAll | chrome.py:250-288 | runs the selector script and yields `Elements` of its result |
| ChromeSync.Chrome.SelectOne | chrome.py:290-295 | the first element of `select_all`, or its exception |
| ChromeSync.Chrome.SetValue | chrome.py:297-301 | runs the base64 assignment script |
| ChromeSync.Chrome.Click | chrome.py:303-304 | runs the click script |
| ChromeSync.Chrome.WaitForUrl | chrome.py:206-214 | the polling loop computes `UrlWait` |
| ChromeSync.Chrome.WaitForElement | chrome.py:216-228 | the polling loop computes `ElemWait` |
| ChromeSync.Chrome.Goto | chrome.py:190-234 | the method computes `GotoPy` for chrome.py: result and channel |
| ChromeAsync.Chrome.constructor | lib/chrome.py:27-48 | the settings as given; nothing started |
| ChromeAsync.Chrome.Start | lib/chrome.py:93-161 | as the threaded start, except that building the command line never raises |
| ChromeAsync.Chrome.Quit | lib/chrome.py:163-178 | terminate, close the connection, then close the server (each if present); then no handles, size zero, images blocked; idempotent |
| ChromeAsync.Chrome.SendCommand | lib/chrome.py:55-88 | the method computes `PyCall` |
| ChromeAsync.Chrome.RunScript | lib/chrome.py:180-181 | a `runScript` command |
| ChromeAsync.Chrome.Url | lib/chrome.py:183-184 | runs `location.href` |
| ChromeAsync.Chrome.Cookie | lib/chrome.py:232-233 | a `getCookie` command |
| ChromeAsync.Chrome.ClearCookie | lib/chrome.py:235-238 | a `clearCookie` command |
| ChromeAsync.Chrome.Head | lib/chrome.py:240-241 | runs `document.head.outerHTML` |
| ChromeAsync.Chrome.Body | lib/chrome.py:243-244 | runs `document.body.outerHTML` |
| ChromeAsync.Chrome.Select | lib/chrome.py:246-284 | runs the selector script and yields `Elements` of its result |
| ChromeAsync.Chrome.SelectOne | lib/chrome.py:286-291 | always raises TypeError for `len` of a coroutine, and sends nothing |
| ChromeAsync.Chrome.SetValue | lib/chrome.py:293-297 | runs the base64 assignment script |
| ChromeAsync.Chrome.Click | lib/chrome.py:299-300 | runs the click script |
| ChromeAsync.Chrome.WaitForUrl | lib/chrome.py:202-210 | the polling loop computes `UrlWait` |
| ChromeAsync.Chrome.Goto | lib/chrome.py:186-230 | the method computes `GotoPy` for lib/chrome.py |
| ChromeNode.Chrome.constructor | lib/chrome.js:12-23 | the settings as given; no process or connection |
| ChromeNode.Chrome.Start | lib/chrome.js:53-89 | rejects "chrome.exe not found" and changes nothing when no candidate exists; otherwise stages the first `{PORT}`, defaults a falsy profile, runs the seven arguments, takes the connection when it comes and resolves |
| ChromeNode.Chrome.Quit | lib/chrome.js:91-103 | kill, then close the connection (each if present); then no handles, size zero, images blocked; idempotent |
| ChromeNode.Chrome.SendCommand | lib/chrome.js:36-51 | the method computes `JsCall`: how the promise settles and the advanced channel |
| ChromeNode.Chrome.RunScript | lib/chrome.js:105-107 | a `runScript` command |
| ChromeNode.Chrome.Url | lib/chrome.js:109-111 | runs `location.href` |
| ChromeNode.Chrome.UrlLoop | lib/chrome.js:120-123 | the polling loop computes `NodeUrlLoop` |
| ChromeNode.Chrome.ElemLoop | lib/chrome.js:128-133 | the polling loop computes `NodeElemLoop` |
| ChromeNode.Chrome.ElementPhase | lib/chrome.js:127-135 | the element phase computes `NodeElementPhase`: skipped for a falsy selector, timed out when the reading after the loop is at or past the timeout |
| ChromeNode.Chrome.Goto | lib/chrome.js:113-139 | the method computes `GotoNode`: how the promise settles and the channel |

## Findings

| source | as written | input that shows it | evidently intended | confidence | as-written member | corrected member |
|---|---|---|---|---|---|---|
| chrome.py:142 | the window position is formatted with the spec ` int`, which an `int` rejects with ValueError | `Chrome(left=100, top=50).start()` with Chrome installed | `--window-position=100,50`, as lib/chrome.py:136 builds it | high, not executed | Launch.BuildCommand | Launch.LaunchArgsFlags |
| lib/chrome.py:286-291 | `select_one` calls the coroutine `select` without `await`, and `len` of a coroutine raises TypeError | `await chrome.goto(url, wait_elem_selector="#q")` | the first element of `await self.select(selector)`, so `goto` waits for the element | high, not executed | Polling.AsyncGotoWithSelectorFails | Polling.ThreadedElementPhase |
| chrome.py:297-301 | the page assigns `atob`'s result, one character per UTF-8 byte of the value | `chrome.set_value("#q", "é")` sets the field to "Ã©" | the field holds the value, with the bytes read back as UTF-8 on the page | medium, not executed | Commands.SetValueNonAsciiGarbled | Commands.SetValueUtf8RoundTrip |

`Launch.BuildCommand` (as written, threaded variant) raises for every
non-zero position. `Launch.LaunchArgsFlags` proves the intended behaviour:
the position flag is present exactly when both numbers are non-zero. The
asyncio build uses that behaviour.

`Polling.AsyncGotoWithSelectorFails` shows that the as-written asyncio
`goto` never succeeds when it names an element. `Polling.ThreadedElementPhase`
proves the intended behaviour of the awaited lookup.

`Commands.SetValueNonAsciiGarbled` shows that the as-written `set_value`
(the same in lib/chrome.py:293-297) garbles any value with a character from
U+0080 on. `Commands.SetValueUtf8RoundTrip` proves that reading the bytes
back as UTF-8 gives the value for every value. The `SetValue` methods keep
the as-written script.

## Left out

- Port allocation, the websocket server and its threads or event loop, the
  process spawn, and the copying and deletion of the extension directory
  are not modelled. They become parameters of `start` (`Launch.Host`):
  - the port is given;
  - which paths exist is given;
  - whether the staged directory exists is given;
  - the connection the extension opens, if it ever does, is given.
  
  The model records the staged `background.js` text, the command line and
  the handles.
- The asyncio start deletes the staged extension ten seconds after launch,
  and Node resolves after a fixed five seconds. Neither delay is modelled.
- The connection wait: a threaded or asyncio `start` whose extension never
  connects loops forever. The model reports this as `NeverConnected`.
- The wall clock: `goto` reads an abstract strictly increasing clock
  (`clock(k)` is the k-th reading) in one integer unit.
  - The sleeps between polls are not modelled.
  - Floating-point seconds are not modelled.
- Blocking receives: the channel is the sequence of frames the extension
  will send.
  - A Python receive on an exhausted channel yields None: the connection
    closed, and the error is swallowed.
  - A JSON null frame never settles the Node promise. Reading `.result` of
    null throws a TypeError, and a frame that is not JSON makes `JSON.parse`
    throw a SyntaxError. Either is thrown uncaught in the websocket's
    `message` listener, which by default ends the Node process. The model
    says `Pending`, and nothing after it is modelled.
- Node listeners: every Node command adds a `message` listener that is never
  removed, so later frames also resolve older, already settled promises.
  Only the newest command's settlement is modelled.
- Python equality on decoded values: `old_url == url2go` compares JSON
  values, so `True == 1` and dictionary equality that ignores order are not
  modelled. Object members are kept in order, and equality is structural.
- JSON text: requests and replies are JSON values, and their byte encoding
  and parsing are not modelled. A frame that does not parse is `Garbled`.
- `path.join` normalisation of the first Node candidate is not modelled, and
  neither is the throw when `LOCALAPPDATA` is unset. The candidate is
  `localAppData + "\\" + …` as in the Python variants.
- Logging, `userpaths`, the `__main__`/`main()` demonstrations and the
  scraper scripts are not part of this model.
- Polling.GotoNode: its own contract states only the rejection without a
  connection. `Polling.NodeGotoReloadsCurrentPage`,
  `Polling.NodeGotoNavigatesAndWaits` and `Polling.NodeElementPhaseFinds`
  state its result for a reload, for a navigation without a selector and for
  the element phase. `SentRequests.NodeGotoNavigationRequests` states what it
  sends on the navigation branch. No single lemma composes a navigation with
  an element phase. `ChromeNode.Chrome.Goto` is proved to compute it.
- Base64.Utf8Encode: a Python `str` can hold a lone surrogate, and then
  `value.encode()` in `set_value` raises UnicodeEncodeError, uncaught. A
  Dafny `char` cannot be a lone surrogate, so that error is not modelled.
- JSON numbers are integers. A fractional `result`, such as a float that
  `runScript` returns, is not modelled; it would need a decimal or
  floating-point value.
