/**
 * The high-level operations as the commands they send: every one is a
 * `runScript` with a fixed or assembled script, except the cookie commands.
 * Also the list handling of `select_all` / `select` and `select_one`
 * (chrome.py:184-304, lib/chrome.py:180-300, lib/chrome.js:105-111).
 */
module Commands {
  import opened Wrappers
  import opened Json
  import opened Base64
  import DomSelector

  const RUN_SCRIPT: string := "runScript"
  const GET_COOKIE: string := "getCookie"
  const CLEAR_COOKIE: string := "clearCookie"

  const URL_SCRIPT: string := "location.href"
  const RELOAD_SCRIPT: string := "location.reload()"
  const HEAD_SCRIPT: string := "document.head.outerHTML"
  const BODY_SCRIPT: string := "document.body.outerHTML"

  /** Navigation by assigning the location. */
  function NavigateScript(url: string): string
  {
    "location.href='" + url + "'"
  }

  /** The first element matching `selector`. */
  function QuerySelectorScript(selector: string): string
  {
    "document.querySelector('" + selector + "')"
  }

  function ClickScript(selector: string): string
  {
    QuerySelectorScript(selector) + ".click()"
  }

  /** The value travels as base64 of its UTF-8 bytes and is decoded in the page by `atob`. */
  function SetValueScript(selector: string, value: string): string
  {
    QuerySelectorScript(selector) + ".value=atob('" + Encode(Utf8Encode(value)) + "')"
  }

  /** The script `select_all` runs up to the selector: the `getSelector` walk and the query. */
  const SELECT_HEAD: string :=
    "\n"
    + "function getSelector(elm) {\n"
    + "    if (elm.tagName === 'BODY') return 'BODY';\n"
    + "    const names = [];\n"
    + "    while (elm.parentElement && elm.tagName !== 'BODY') {\n"
    + "        if (elm.id) {\n"
    + "            names.unshift('#' + elm.getAttribute('id'));\n"
    + "            break;\n"
    + "        } else {\n"
    + "            let c = 1, e = elm;\n"
    + "            for (; e.previousElementSibling; e = e.previousElementSibling, c++);\n"
    + "            names.unshift(elm.tagName + ':nth-child(' + c + ')');\n"
    + "        }\n"
    + "        elm = elm.parentElement;\n"
    + "    }\n"
    + "    return names.join('>');\n"
    + "}\n"
    + "\n"
    + "var selectors = [];\n"
    + "\n"
    + "var elemList = document.querySelectorAll('"

  /** The rest of the script: the path of every matched element, in document order. */
  const SELECT_TAIL: string :=
    "');\n"
    + "for (var elem in elemList) {\n"
    + "    if (elem == elem * 1) {\n"
    + "        var selector = getSelector(elemList[elem]);\n"
    + "        selectors.push(selector);\n"
    + "    }\n"
    + "}\n"
    + "\n"
    + "selectors;"

  function SelectScript(selector: string): string
  {
    SELECT_HEAD + selector + SELECT_TAIL
  }

  // ---------------------------------------------------------------------------
  // What `set_value` embeds

  /**
   * The payload `set_value` puts between the quotes holds base64 characters
   * only, so no character of the value (a quote, a backslash) reaches the
   * script unencoded, and `atob` gives back the value's UTF-8 bytes.
   */
  lemma SetValuePayload(selector: string, value: string)
    ensures var payload := Encode(Utf8Encode(value));
      && SetValueScript(selector, value) == QuerySelectorScript(selector) + ".value=atob('" + payload + "')"
      && (forall i :: 0 <= i < |payload| ==> IsBase64Char(payload[i]) && payload[i] != '\'' && payload[i] != '\\')
      && Decode(payload) == Some(Utf8Encode(value))
  {
    var payload := Encode(Utf8Encode(value));
    DecodeEncode(Utf8Encode(value));
    EncodeAlphabet(Utf8Encode(value));
    forall i | 0 <= i < |payload|
      ensures payload[i] != '\'' && payload[i] != '\\'
    {
      assert IsBase64Char(payload[i]);
    }
  }

  /** For an ASCII value the page reads back exactly the value. */
  lemma SetValueAsciiRoundTrip(value: string)
    requires IsAscii(value)
    ensures Decode(Encode(Utf8Encode(value))) == Some(Utf8Encode(value))
    ensures Latin1(Utf8Encode(value)) == value
  {
    DecodeEncode(Utf8Encode(value));
    AsciiSurvivesLatin1(value);
  }

  /**
   * As written, a value with a character from U+0080 on reaches the field
   * garbled: the page assigns `atob`'s byte string, one character per UTF-8
   * byte, so "é" arrives as "Ã©".
   */
  lemma SetValueNonAsciiGarbled(value: string)
    requires !IsAscii(value)
    ensures Decode(Encode(Utf8Encode(value))) == Some(Utf8Encode(value))
    ensures Latin1(Utf8Encode(value)) != value
  {
    DecodeEncode(Utf8Encode(value));
    NonAsciiGarbled(value);
  }

  /**
   * Read as UTF-8, the bytes `atob` yields are the value itself, for every
   * value: this is what the page must do with them for `set_value` to set the
   * field to the value.
   */
  lemma SetValueUtf8RoundTrip(value: string)
    ensures Decode(Encode(Utf8Encode(value))).Some?
    ensures Utf8Decode(Decode(Encode(Utf8Encode(value))).value) == Some(value)
  {
    DecodeEncode(Utf8Encode(value));
    Utf8RoundTrip(value);
  }

  // ---------------------------------------------------------------------------
  // Lists of elements

  /** An element handle: the selector path the page computed for it. */
  datatype ChromeElem = ChromeElem(selector: Json)

  const NOT_ITERABLE_INT: string := "'int' object is not iterable"
  const NOT_ITERABLE_BOOL: string := "'bool' object is not iterable"

  /**
   * What Python's `for` visits in a decoded result: the items of a list,
   * the characters of a string, the keys of a dictionary; a number or a
   * boolean is not iterable.
   */
  function Visited(v: Json): (r: Outcome<seq<Json>>)
    requires !v.JNull?
    ensures r.Raised? <==> v.JNumber? || v.JBool?
    ensures v.JArray? ==> r == Returned(v.items)
    ensures v.JString? ==> r.Returned? && |r.value| == |v.s| && forall i :: 0 <= i < |v.s| ==> r.value[i] == JString([v.s[i]])
    ensures v.JObject? ==> r.Returned? && |r.value| == |DictKeys(v.members)|
    ensures v.JObject? ==> forall i :: 0 <= i < |DictKeys(v.members)| ==> r.value[i] == JString(DictKeys(v.members)[i])
    ensures v.JObject? ==> r.Returned? && forall k :: JString(k) in r.value <==> exists i :: 0 <= i < |v.members| && v.members[i].0 == k
  {
    match v
    case JBool(_) => Raised(TypeError(NOT_ITERABLE_BOOL))
    case JNumber(_) => Raised(TypeError(NOT_ITERABLE_INT))
    case JString(s) => Returned(seq(|s|, i requires 0 <= i < |s| => JString([s[i]])))
    case JArray(items) => Returned(items)
    case JObject(members) =>
      var ks := DictKeys(members);
      var keys := seq(|ks|, i requires 0 <= i < |ks| => JString(ks[i]));
      assert forall k :: JString(k) in keys <==> k in ks by {
        forall k | k in ks
          ensures JString(k) in keys
        {
          var i :| 0 <= i < |ks| && ks[i] == k;
          assert keys[i] == JString(k);
        }
      }
      Returned(keys)
  }

  /** The elements `select_all` returns for a decoded result: none for None, one per visited item otherwise. */
  function Elements(jres: Option<Json>): (r: Outcome<seq<ChromeElem>>)
    ensures jres.None? || jres == Some(JNull) ==> r == Returned([])
    ensures r.Raised? <==> jres.Some? && (jres.value.JNumber? || jres.value.JBool?)
    ensures jres.Some? && r.Returned? && !jres.value.JNull? ==>
      |r.value| == |Visited(jres.value).value| &&
      forall i :: 0 <= i < |r.value| ==> r.value[i].selector == Visited(jres.value).value[i]
  {
    if jres.None? || jres.value.JNull? then Returned([])
    else
      var visited := Visited(jres.value);
      if visited.Raised? then Raised(visited.exception)
      else Returned(seq(|visited.value|, i requires 0 <= i < |visited.value| => ChromeElem(visited.value[i])))
  }

  /** The loop of `select_all`: one handle appended per visited item. */
  method CollectElements(jres: Option<Json>) returns (r: Outcome<seq<ChromeElem>>)
    ensures r == Elements(jres)
  {
    var ret: seq<ChromeElem> := [];
    if jres.None? || jres == Some(JNull) {
      return Returned(ret);
    }
    var visited := Visited(jres.value);
    if visited.Raised? {
      return Raised(visited.exception);
    }
    var items := visited.value;
    var i := 0;
    while i < |items|
      invariant 0 <= i <= |items|
      invariant |ret| == i
      invariant forall j :: 0 <= j < i ==> ret[j] == ChromeElem(items[j])
    {
      ret := ret + [ChromeElem(items[i])];
      i := i + 1;
    }
    assert ret == seq(|items|, j requires 0 <= j < |items| => ChromeElem(items[j]));
    return Returned(ret);
  }

  /** `select_one`: the first element, None for an empty list; an exception passes through. */
  function FirstElement(elems: Outcome<seq<ChromeElem>>): (r: Outcome<Option<ChromeElem>>)
    ensures elems.Raised? <==> r.Raised?
    ensures elems.Raised? ==> r.exception == elems.exception
    ensures elems.Returned? ==> (r.value.None? <==> |elems.value| == 0)
    ensures elems.Returned? && |elems.value| > 0 ==> r.value == Some(elems.value[0])
  {
    match elems
    case Raised(e) => Raised(e)
    case Returned(es) => Returned(if |es| > 0 then Some(es[0]) else None)
  }

  /** The TypeError `len` raises on the coroutine the asyncio `select_one` forgets to await. */
  const UNAWAITED_LEN: string := "object of type 'coroutine' has no len()"

  // ---------------------------------------------------------------------------
  // The page side of `select_all`

  /** The reply value the selection script evaluates to: the path of each matched element. */
  function PageSelectors(matches: seq<seq<DomSelector.Element>>): (v: Json)
    requires forall m :: m in matches ==> |m| > 0
    ensures v.JArray? && |v.items| == |matches|
  {
    JArray(seq(|matches|, i requires 0 <= i < |matches| => JString(DomSelector.SelectorPath(matches[i]))))
  }

  /** `select_all` turns the page's answer into one handle per matched element, carrying its path. */
  lemma SelectAllFollowsPage(matches: seq<seq<DomSelector.Element>>)
    requires forall m :: m in matches ==> |m| > 0
    ensures Elements(Some(PageSelectors(matches))).Returned?
    ensures |Elements(Some(PageSelectors(matches))).value| == |matches|
    ensures forall i :: 0 <= i < |matches| ==>
      Elements(Some(PageSelectors(matches))).value[i] == ChromeElem(JString(DomSelector.SelectorPath(matches[i])))
  {
  }
}
