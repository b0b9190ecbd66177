/**
 * What `start` computes before and around spawning the browser: the choice
 * of the binary among fixed candidate paths, the defaulting of the profile
 * directory, the `{PORT}` substitution in the extension's background script,
 * and the command line (chrome.py:101-165, lib/chrome.py:93-161,
 * lib/chrome.js:53-89).
 */
module Launch {
  import opened Wrappers
  import opened Text
  import opened Dispatch

  /** The two Python variants: threads (chrome.py) and asyncio (lib/chrome.py). */
  datatype PyVariant = Threaded | Asyncio

  /**
   * What `start` meets outside the object: the local application-data
   * folder, the paths that exist, the free port it is given, the extension's
   * background script, the staged extension directory and whether it exists,
   * the default profile directory, and the connection the browser's
   * extension opens, if it ever does.
   */
  datatype Host = Host(
    localAppData: string,
    files: set<string>,
    port: nat,
    template: string,
    extDir: string,
    extDirExists: bool,
    defaultProfile: string,
    connection: Option<Channel>)

  /** How a Python `start` ends: `NeverConnected` is the accept loop waiting forever. */
  datatype StartEnd = ChromeMissing | StartRaised(exception: PyException) | NeverConnected | Connected

  /** The end of `start` and the background script it wrote, if it got that far. */
  datatype StartReport = StartReport(end: StartEnd, staged: Option<string>)

  /** What `quit` does to the handles, in order. */
  datatype Effect = TerminateProcess | KillProcess | ShutDownServer | CloseServer | CloseClient

  // ---------------------------------------------------------------------------
  // Locating the browser

  /** The executable's path below an installation root. */
  const CHROME_UNDER_APPDATA: string := "Google\\Chrome\\Application\\Chrome.exe"
  const PROGRAM_FILES_X86_CHROME: string := "C:\\Program Files (x86)\\" + CHROME_UNDER_APPDATA
  const PROGRAM_FILES_CHROME: string := "C:\\Program Files\\" + CHROME_UNDER_APPDATA

  /** The candidate paths, in search order; the first is under the local application-data folder. */
  function Candidates(localAppData: string): (cands: seq<string>)
    ensures |cands| == 3
    ensures cands[0] == localAppData + "\\" + CHROME_UNDER_APPDATA
    ensures cands[1] == PROGRAM_FILES_X86_CHROME && cands[2] == PROGRAM_FILES_CHROME
  {
    [localAppData + "\\" + CHROME_UNDER_APPDATA, PROGRAM_FILES_X86_CHROME, PROGRAM_FILES_CHROME]
  }

  /** `os.path.isfile` and `fs.existsSync` over the set of paths that exist: the empty path never does. */
  predicate PathExists(fs: set<string>, p: string)
  {
    p != "" && p in fs
  }

  /** The index of the first candidate that exists. */
  function FirstExisting(cands: seq<string>, fs: set<string>): (r: Option<nat>)
    ensures r.Some? ==> r.value < |cands| && PathExists(fs, cands[r.value])
    ensures r.Some? ==> forall i :: 0 <= i < r.value ==> !PathExists(fs, cands[i])
    ensures r.None? <==> forall i :: 0 <= i < |cands| ==> !PathExists(fs, cands[i])
  {
    if |cands| == 0 then None
    else if PathExists(fs, cands[0]) then Some(0)
    else match FirstExisting(cands[1..], fs)
      case None => None
      case Some(i) => Some(i + 1)
  }

  /**
   * The search loop of `start`: the first existing candidate, or the empty
   * path when none exists (which the following existence test rejects).
   */
  method FindChrome(cands: seq<string>, fs: set<string>) returns (chromePath: string)
    ensures FirstExisting(cands, fs).None? ==> chromePath == ""
    ensures FirstExisting(cands, fs).Some? ==> chromePath == cands[FirstExisting(cands, fs).value]
    ensures PathExists(fs, chromePath) <==> FirstExisting(cands, fs).Some?
  {
    chromePath := "";
    var i := 0;
    while i < |cands|
      invariant 0 <= i <= |cands|
      invariant chromePath == ""
      invariant forall j :: 0 <= j < i ==> !PathExists(fs, cands[j])
    {
      if PathExists(fs, cands[i]) {
        chromePath := cands[i];
        return;
      }
      i := i + 1;
    }
  }

  // ---------------------------------------------------------------------------
  // Profile directory and port substitution

  /** Python: the default replaces the profile directory only when it is None. */
  function PyUserDataDir(userDataDir: Option<string>, defaultDir: string): (d: string)
    ensures userDataDir.Some? ==> d == userDataDir.value
    ensures userDataDir.None? ==> d == defaultDir
  {
    match userDataDir
    case Some(u) => u
    case None => defaultDir
  }

  /** Node: `userDataDir || default` also replaces the empty string. */
  function JsUserDataDir(userDataDir: Option<string>, defaultDir: string): (d: string)
    ensures userDataDir.Some? && userDataDir.value != "" ==> d == userDataDir.value
    ensures userDataDir.None? || userDataDir.value == "" ==> d == defaultDir
  {
    if userDataDir.Some? && userDataDir.value != "" then userDataDir.value else defaultDir
  }

  const PORT_TOKEN: string := "{PORT}"

  /** Python: every `{PORT}` of the background script replaced by the port. */
  function PyStage(template: string, port: nat): string
  {
    ReplaceAll(template, PORT_TOKEN, NatToDecimal(port))
  }

  /** Node: only the first `{PORT}` replaced. */
  function NodeStage(template: string, port: nat): string
  {
    ReplaceFirst(template, PORT_TOKEN, NatToDecimal(port))
  }

  /** Digits share no character with the token. */
  lemma DigitsAvoidToken(d: string)
    requires IsDigits(d)
    ensures Disjoint(d, PORT_TOKEN)
  {
    forall i, j | 0 <= i < |d| && 0 <= j < |PORT_TOKEN|
      ensures d[i] != PORT_TOKEN[j]
    {
      assert '0' <= d[i] <= '9';
    }
  }

  /** After the Python substitution no `{PORT}` is left in the script. */
  lemma PyStageLeavesNoToken(template: string, port: nat)
    ensures forall i :: !MatchAt(PyStage(template, port), PORT_TOKEN, i)
  {
    DigitsAvoidToken(NatToDecimal(port));
    ReplaceAllLeavesNoMatch(template, PORT_TOKEN, NatToDecimal(port));
  }

  /** After the Node substitution a second `{PORT}` of the template is still there, shifted by the length difference. */
  lemma NodeStageKeepsSecondToken(template: string, port: nat, j: nat, k: nat)
    requires FindFrom(template, PORT_TOKEN, 0) == Some(j) && j + |PORT_TOKEN| <= k && MatchAt(template, PORT_TOKEN, k)
    ensures MatchAt(NodeStage(template, port), PORT_TOKEN, k - |PORT_TOKEN| + |NatToDecimal(port)|)
  {
    ReplaceFirstKeepsLaterMatch(template, PORT_TOKEN, NatToDecimal(port), j, k);
  }

  /** With a single `{PORT}` in the template both substitutions stage the same script. */
  lemma StagesAgreeOnSingleToken(template: string, port: nat, j: nat)
    requires FindFrom(template, PORT_TOKEN, 0) == Some(j) && FindFrom(template, PORT_TOKEN, j + |PORT_TOKEN|).None?
    ensures NodeStage(template, port) == PyStage(template, port)
  {
    ReplaceFirstIsAllWhenSingle(template, PORT_TOKEN, NatToDecimal(port), j);
  }

  // ---------------------------------------------------------------------------
  // The Python command line

  /** The launch settings, after the profile directory has been defaulted. */
  datatype Config = Config(
    initUrl: string,
    left: int, top: int, width: int, height: int,
    blockImage: bool,
    userDataDir: string,
    userAgent: Option<string>)

  /** One entry of the command line. */
  datatype Arg =
    | Binary(path: string)
    | UserDataDir(dir: string)
    | LoadExtension(extDir: string)
    | WindowPosition(left: int, top: int)
    | WindowSize(width: int, height: int)
    | BlockImages
    | UserAgent(agent: string)
    | InitialUrl(url: string)

  /** The place of an entry's kind in the command line. */
  function Rank(a: Arg): nat
  {
    match a
    case Binary(_) => 0
    case UserDataDir(_) => 1
    case LoadExtension(_) => 2
    case WindowPosition(_, _) => 3
    case WindowSize(_, _) => 4
    case BlockImages => 5
    case UserAgent(_) => 6
    case InitialUrl(_) => 7
  }

  /** Entries appear in rank order, each kind at most once. */
  predicate Ordered(args: seq<Arg>)
  {
    forall i, j :: 0 <= i < j < |args| ==> Rank(args[i]) < Rank(args[j])
  }

  /** An entry carries the value the settings give its kind. */
  predicate Fits(a: Arg, chromePath: string, extDir: string, c: Config)
  {
    match a
    case Binary(p) => p == chromePath
    case UserDataDir(d) => d == c.userDataDir
    case LoadExtension(d) => d == extDir
    case WindowPosition(l, t) => l == c.left && t == c.top
    case WindowSize(w, h) => w == c.width && h == c.height
    case BlockImages => c.blockImage
    case UserAgent(ua) => c.userAgent == Some(ua)
    case InitialUrl(u) => u == c.initUrl
  }

  lemma {:induction false} ProductPositive(x: int, y: int)
    requires x > 0 && y > 0
    ensures x * y > 0
    decreases x
  {
    if x > 1 {
      ProductPositive(x - 1, y);
      assert x * y == (x - 1) * y + y;
    }
  }

  /** The product of two integers is non-zero exactly when both are. */
  lemma ProductNonZero(x: int, y: int)
    ensures x * y != 0 <==> x != 0 && y != 0
  {
    if x != 0 && y != 0 {
      var a := if x > 0 then x else -x;
      var b := if y > 0 then y else -y;
      ProductPositive(a, b);
      assert a * b == x * y || a * b == -(x * y);
    }
  }

  /** The entries the Python `start` puts on the command line, in the order it appends them. */
  function LaunchArgs(chromePath: string, extDir: string, extDirExists: bool, c: Config): seq<Arg>
  {
    [Binary(chromePath), UserDataDir(c.userDataDir)]
    + Optional(extDirExists, LoadExtension(extDir))
    + Optional(c.left * c.top != 0, WindowPosition(c.left, c.top))
    + Optional(c.width * c.height != 0, WindowSize(c.width, c.height))
    + Optional(c.blockImage, BlockImages)
    + (if c.userAgent.Some? then [UserAgent(c.userAgent.value)] else [])
    + Optional(c.initUrl != "", InitialUrl(c.initUrl))
  }

  /** An entry the code appends only when its condition holds. */
  function Optional(cond: bool, a: Arg): seq<Arg>
  {
    if cond then [a] else []
  }

  /** Appending at most one entry of rank `k` after entries of lower rank keeps the order. */
  lemma OrderedExtend(a: seq<Arg>, extra: seq<Arg>, k: nat)
    requires Ordered(a) && forall y :: y in a ==> Rank(y) < k
    requires |extra| <= 1 && forall y :: y in extra ==> Rank(y) == k
    ensures Ordered(a + extra) && forall y :: y in a + extra ==> Rank(y) < k + 1
  {
    if |extra| == 1 {
      forall i, j | 0 <= i < j < |a + extra|
        ensures Rank((a + extra)[i]) < Rank((a + extra)[j])
      {
        if j == |a| {
          assert (a + extra)[i] in a;
        }
      }
    }
  }

  /** The command line opens with the binary and the profile directory, and ends with the initial URL when there is one. */
  lemma LaunchArgsEnds(chromePath: string, extDir: string, extDirExists: bool, c: Config)
    ensures var args := LaunchArgs(chromePath, extDir, extDirExists, c);
      && |args| >= 2 && args[0] == Binary(chromePath) && args[1] == UserDataDir(c.userDataDir)
      && (c.initUrl != "" ==> args[|args| - 1] == InitialUrl(c.initUrl))
  {
  }

  /** Every entry carries the configured value of its kind. */
  lemma LaunchArgsFit(chromePath: string, extDir: string, extDirExists: bool, c: Config)
    ensures forall a :: a in LaunchArgs(chromePath, extDir, extDirExists, c) ==> Fits(a, chromePath, extDir, c)
  {
  }

  /** The entries keep the fixed order, each kind at most once. */
  lemma LaunchArgsOrdered(chromePath: string, extDir: string, extDirExists: bool, c: Config)
    ensures Ordered(LaunchArgs(chromePath, extDir, extDirExists, c))
  {
    var p1 := [Binary(chromePath), UserDataDir(c.userDataDir)];
    var e2 := Optional(extDirExists, LoadExtension(extDir));
    OrderedExtend(p1, e2, 2);
    var e3 := Optional(c.left * c.top != 0, WindowPosition(c.left, c.top));
    OrderedExtend(p1 + e2, e3, 3);
    var e4 := Optional(c.width * c.height != 0, WindowSize(c.width, c.height));
    OrderedExtend(p1 + e2 + e3, e4, 4);
    var e5 := Optional(c.blockImage, BlockImages);
    OrderedExtend(p1 + e2 + e3 + e4, e5, 5);
    var e6 := if c.userAgent.Some? then [UserAgent(c.userAgent.value)] else [];
    OrderedExtend(p1 + e2 + e3 + e4 + e5, e6, 6);
    var e7 := Optional(c.initUrl != "", InitialUrl(c.initUrl));
    OrderedExtend(p1 + e2 + e3 + e4 + e5 + e6, e7, 7);
  }

  /** What the command line holds: the two fixed entries and each optional entry whose condition holds. */
  lemma LaunchArgsMembers(chromePath: string, extDir: string, extDirExists: bool, c: Config, x: Arg)
    ensures x in LaunchArgs(chromePath, extDir, extDirExists, c) <==>
      || x == Binary(chromePath) || x == UserDataDir(c.userDataDir)
      || (extDirExists && x == LoadExtension(extDir))
      || (c.left * c.top != 0 && x == WindowPosition(c.left, c.top))
      || (c.width * c.height != 0 && x == WindowSize(c.width, c.height))
      || (c.blockImage && x == BlockImages)
      || (c.userAgent.Some? && x == UserAgent(c.userAgent.value))
      || (c.initUrl != "" && x == InitialUrl(c.initUrl))
  {
    var p1 := [Binary(chromePath), UserDataDir(c.userDataDir)];
    var e2 := Optional(extDirExists, LoadExtension(extDir));
    var e3 := Optional(c.left * c.top != 0, WindowPosition(c.left, c.top));
    var e4 := Optional(c.width * c.height != 0, WindowSize(c.width, c.height));
    var e5 := Optional(c.blockImage, BlockImages);
    var e6 := if c.userAgent.Some? then [UserAgent(c.userAgent.value)] else [];
    var e7 := Optional(c.initUrl != "", InitialUrl(c.initUrl));
    var a2 := p1 + e2;
    assert x in a2 <==> x in p1 || x in e2;
    var a3 := a2 + e3;
    assert x in a3 <==> x in a2 || x in e3;
    var a4 := a3 + e4;
    assert x in a4 <==> x in a3 || x in e4;
    var a5 := a4 + e5;
    assert x in a5 <==> x in a4 || x in e5;
    var a6 := a5 + e6;
    assert x in a6 <==> x in a5 || x in e6;
    var a7 := a6 + e7;
    assert x in a7 <==> x in a6 || x in e7;
    assert LaunchArgs(chromePath, extDir, extDirExists, c) == a7;
  }

  /**
   * Which optional entries the command line holds: the extension when its
   * staged directory exists, the window position when `left*top != 0` and
   * the size when `width*height != 0` (each when both numbers are non-zero),
   * the image switch when images are blocked, the user agent when one is
   * given, and the initial URL when it is not empty.
   */
  lemma LaunchArgsFlags(chromePath: string, extDir: string, extDirExists: bool, c: Config)
    ensures LoadExtension(extDir) in LaunchArgs(chromePath, extDir, extDirExists, c) <==> extDirExists
    ensures WindowPosition(c.left, c.top) in LaunchArgs(chromePath, extDir, extDirExists, c) <==> c.left != 0 && c.top != 0
    ensures WindowSize(c.width, c.height) in LaunchArgs(chromePath, extDir, extDirExists, c) <==> c.width != 0 && c.height != 0
    ensures BlockImages in LaunchArgs(chromePath, extDir, extDirExists, c) <==> c.blockImage
    ensures forall ua :: UserAgent(ua) in LaunchArgs(chromePath, extDir, extDirExists, c) <==> c.userAgent == Some(ua)
    ensures InitialUrl(c.initUrl) in LaunchArgs(chromePath, extDir, extDirExists, c) <==> c.initUrl != ""
  {
    ProductNonZero(c.left, c.top);
    ProductNonZero(c.width, c.height);
    LaunchArgsMembers(chromePath, extDir, extDirExists, c, LoadExtension(extDir));
    LaunchArgsMembers(chromePath, extDir, extDirExists, c, WindowPosition(c.left, c.top));
    LaunchArgsMembers(chromePath, extDir, extDirExists, c, WindowSize(c.width, c.height));
    LaunchArgsMembers(chromePath, extDir, extDirExists, c, BlockImages);
    LaunchArgsMembers(chromePath, extDir, extDirExists, c, InitialUrl(c.initUrl));
    forall ua: string
      ensures UserAgent(ua) in LaunchArgs(chromePath, extDir, extDirExists, c) <==> c.userAgent == Some(ua)
    {
      LaunchArgsMembers(chromePath, extDir, extDirExists, c, UserAgent(ua));
    }
  }

  /** The text of one entry. */
  function Render(a: Arg): string
  {
    match a
    case Binary(p) => p
    case UserDataDir(d) => "--user-data-dir=" + d
    case LoadExtension(d) => "--load-extension=" + d
    case WindowPosition(l, t) => "--window-position=" + IntToString(l) + "," + IntToString(t)
    case WindowSize(w, h) => "--window-size=" + IntToString(w) + "," + IntToString(h)
    case BlockImages => BLOCK_IMAGES_FLAG
    case UserAgent(ua) => "--user-agent=" + ua
    case InitialUrl(u) => u
  }

  const BLOCK_IMAGES_FLAG: string := "--blink-settings=imagesEnabled=false"

  /** The message of the ValueError chrome.py's position flag raises: the format spec " int" is not valid for an int. */
  const INT_FORMAT_ERROR: string := "Invalid format specifier ' int' for object of type 'int'"

  /** The text of each entry, in order. */
  function RenderAll(args: seq<Arg>): (line: seq<string>)
    ensures |line| == |args|
  {
    seq(|args|, i requires 0 <= i < |args| => Render(args[i]))
  }

  /** Appending an entry's text when `cond` holds keeps the line the rendering of the entries. */
  lemma RenderStep(line: seq<string>, args: seq<Arg>, cond: bool, a: Arg, text: string)
    requires line == RenderAll(args) && text == Render(a)
    ensures (if cond then line + [text] else line) == RenderAll(args + if cond then [a] else [])
  {
    if cond {
      assert RenderAll(args + [a]) == line + [text];
    } else {
      assert args + [] == args;
    }
  }

  /**
   * The command line of `start`, built by successive appends. In chrome.py
   * the position flag's f-string formats `top` with the spec " int", which
   * raises ValueError, so building fails exactly when the flag is due.
   */
  method BuildCommand(variant: PyVariant, chromePath: string, extDir: string, extDirExists: bool, c: Config)
    returns (cmd: Outcome<seq<string>>)
    ensures cmd.Raised? <==> variant == Threaded && c.left != 0 && c.top != 0
    ensures cmd.Raised? ==> cmd.exception == ValueError(INT_FORMAT_ERROR)
    ensures cmd.Returned? ==> cmd.value == RenderAll(LaunchArgs(chromePath, extDir, extDirExists, c))
  {
    ProductNonZero(c.left, c.top);
    var line := [chromePath];
    line := line + ["--user-data-dir=" + c.userDataDir];
    ghost var args := [Binary(chromePath), UserDataDir(c.userDataDir)];
    assert line == RenderAll(args);

    RenderStep(line, args, extDirExists, LoadExtension(extDir), "--load-extension=" + extDir);
    if extDirExists {
      line := line + ["--load-extension=" + extDir];
    }
    args := args + if extDirExists then [LoadExtension(extDir)] else [];

    RenderStep(line, args, c.left * c.top != 0, WindowPosition(c.left, c.top),
      "--window-position=" + IntToString(c.left) + "," + IntToString(c.top));
    if c.left * c.top != 0 {
      if variant == Threaded {
        return Raised(ValueError(INT_FORMAT_ERROR));
      }
      line := line + ["--window-position=" + IntToString(c.left) + "," + IntToString(c.top)];
    }
    args := args + if c.left * c.top != 0 then [WindowPosition(c.left, c.top)] else [];

    RenderStep(line, args, c.width * c.height != 0, WindowSize(c.width, c.height),
      "--window-size=" + IntToString(c.width) + "," + IntToString(c.height));
    if c.width * c.height != 0 {
      line := line + ["--window-size=" + IntToString(c.width) + "," + IntToString(c.height)];
    }
    args := args + if c.width * c.height != 0 then [WindowSize(c.width, c.height)] else [];

    RenderStep(line, args, c.blockImage, BlockImages, BLOCK_IMAGES_FLAG);
    if c.blockImage {
      line := line + [BLOCK_IMAGES_FLAG];
    }
    args := args + if c.blockImage then [BlockImages] else [];

    if c.userAgent.Some? {
      RenderStep(line, args, true, UserAgent(c.userAgent.value), "--user-agent=" + c.userAgent.value);
      line := line + ["--user-agent=" + c.userAgent.value];
    } else {
      RenderStep(line, args, false, BlockImages, BLOCK_IMAGES_FLAG);
    }
    args := args + if c.userAgent.Some? then [UserAgent(c.userAgent.value)] else [];

    RenderStep(line, args, c.initUrl != "", InitialUrl(c.initUrl), c.initUrl);
    if c.initUrl != "" {
      line := line + [c.initUrl];
    }
    args := args + if c.initUrl != "" then [InitialUrl(c.initUrl)] else [];
    cmd := Returned(line);
  }

  // ---------------------------------------------------------------------------
  // The Node argument array

  /**
   * The argument array of the Node `start`: always seven slots, the
   * position and size flags even for zeros, the image and user-agent slots
   * empty when unset, the initial URL last even when empty.
   */
  function NodeArgs(extDir: string, c: Config): (args: seq<string>)
    ensures |args| == 7 && args[6] == c.initUrl
  {
    [ "--user-data-dir=" + c.userDataDir,
      "--load-extension=" + extDir,
      "--window-position=" + IntToString(c.left) + "," + IntToString(c.top),
      "--window-size=" + IntToString(c.width) + "," + IntToString(c.height),
      if c.blockImage then BLOCK_IMAGES_FLAG else "",
      if c.userAgent.Some? && c.userAgent.value != "" then "--user-agent=" + c.userAgent.value else "",
      c.initUrl ]
  }

  /**
   * Each slot of the Node arguments in terms of the entries of the Python
   * command line: the first four always present, the image slot empty when
   * images are on, the user-agent slot empty for a falsy agent.
   */
  lemma NodeArgsSlots(extDir: string, c: Config)
    ensures var args := NodeArgs(extDir, c);
      && args[0] == Render(UserDataDir(c.userDataDir)) && args[1] == Render(LoadExtension(extDir))
      && args[2] == Render(WindowPosition(c.left, c.top)) && args[3] == Render(WindowSize(c.width, c.height))
      && args[4] == (if c.blockImage then Render(BlockImages) else "")
      && args[5] == (if c.userAgent.Some? && c.userAgent.value != "" then Render(UserAgent(c.userAgent.value)) else "")
  {
  }

  /**
   * With every option set, the Node arguments are the asyncio variant's
   * command line after the binary.
   */
  lemma NodeArgsMatchPythonWhenAllSet(chromePath: string, extDir: string, c: Config)
    requires c.left != 0 && c.top != 0 && c.width != 0 && c.height != 0 && c.blockImage
    requires c.userAgent.Some? && c.userAgent.value != "" && c.initUrl != ""
    ensures RenderAll(LaunchArgs(chromePath, extDir, true, c))[1..] == NodeArgs(extDir, c)
  {
    var args := LaunchArgs(chromePath, extDir, true, c);
    assert c.left * c.top != 0 && c.width * c.height != 0;
    assert args == [Binary(chromePath), UserDataDir(c.userDataDir), LoadExtension(extDir), WindowPosition(c.left, c.top),
      WindowSize(c.width, c.height), BlockImages, UserAgent(c.userAgent.value), InitialUrl(c.initUrl)];
  }
}
