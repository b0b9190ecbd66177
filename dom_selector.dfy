/**
 * The `getSelector` helper that the element-lookup script carries
 * (chrome.py:254-269, lib/chrome.py:250-265). An element is seen through its
 * ancestry: `chain[0]` is the element itself, `chain[i + 1]` is the parent
 * element of `chain[i]`, and the last entry has no parent element. Each entry
 * records the tag name, the id (empty when absent) and the number of element
 * siblings that precede it.
 */
module DomSelector {
  import opened Text

  datatype Element = Element(tagName: string, id: string, previousSiblings: nat)

  /** `TAG:nth-child(k)` with k the 1-based position among the element's siblings. */
  function NthChild(e: Element): string
  {
    e.tagName + ":nth-child(" + NatToDecimal(e.previousSiblings + 1) + ")"
  }

  /** `#id`, the anchor an element with an id contributes. */
  function Anchor(e: Element): string
  {
    "#" + e.id
  }

  /**
   * The segments the walk collects, root-to-leaf: the walk stops at BODY or
   * at an element without a parent (neither contributes), and at an element
   * with an id, which contributes its anchor.
   */
  function Names(chain: seq<Element>): seq<string>
    requires |chain| > 0
  {
    if |chain| == 1 || chain[0].tagName == "BODY" then []
    else if chain[0].id != "" then [Anchor(chain[0])]
    else Names(chain[1..]) + [NthChild(chain[0])]
  }

  /** The selector `getSelector` returns for the element at the head of `chain`. */
  function SelectorPath(chain: seq<Element>): string
    requires |chain| > 0
  {
    if chain[0].tagName == "BODY" then "BODY" else Join(Names(chain), ">")
  }

  /** `getSelector(elm)`: the walk up the parent chain, unshifting one segment per step. */
  method GetSelector(chain: seq<Element>) returns (selector: string)
    requires |chain| > 0
    ensures selector == SelectorPath(chain)
  {
    if chain[0].tagName == "BODY" {
      return "BODY";
    }
    var names: seq<string> := [];
    var i := 0;
    while i + 1 < |chain| && chain[i].tagName != "BODY"
      invariant 0 <= i < |chain|
      invariant Names(chain) == Names(chain[i..]) + names
    {
      if chain[i].id != "" {
        names := [Anchor(chain[i])] + names;
        assert Names(chain) == names;
        break;
      }
      names := [NthChild(chain[i])] + names;
      assert chain[i..][1..] == chain[i + 1..];
      i := i + 1;
    }
    assert Names(chain) == names by {
      if i + 1 < |chain| && chain[i].tagName != "BODY" {
      } else {
        assert chain[i..][0] == chain[i];
        assert Names(chain[i..]) == [];
        assert [] + names == names;
      }
    }
    selector := Join(names, ">");
  }

  /** Where the walk ends: the first element that is BODY, has no parent, or has an id. */
  function Stop(chain: seq<Element>): (m: nat)
    requires |chain| > 0
    ensures m < |chain|
    ensures forall j :: 0 <= j < m ==> j + 1 < |chain| && chain[j].tagName != "BODY" && chain[j].id == ""
    ensures m + 1 == |chain| || chain[m].tagName == "BODY" || chain[m].id != ""
  {
    if |chain| == 1 || chain[0].tagName == "BODY" || chain[0].id != "" then 0
    else 1 + Stop(chain[1..])
  }

  /** The walk ends at an element with an id that contributes its anchor. */
  predicate Anchored(chain: seq<Element>)
    requires |chain| > 0
  {
    var m := Stop(chain);
    m + 1 < |chain| && chain[m].tagName != "BODY" && chain[m].id != ""
  }

  /**
   * The segments, stated without the walk: one `nth-child` segment for each
   * element passed before the stop, the leaf last, preceded by the anchor of
   * the stopping element when it has an id.
   */
  lemma {:induction false} NamesShape(chain: seq<Element>)
    requires |chain| > 0
    ensures var names := Names(chain);
      && |names| == Stop(chain) + (if Anchored(chain) then 1 else 0)
      && (forall j :: 0 <= j < Stop(chain) ==> names[|names| - 1 - j] == NthChild(chain[j]))
      && (Anchored(chain) ==> names[0] == Anchor(chain[Stop(chain)]))
  {
    if !(|chain| == 1 || chain[0].tagName == "BODY" || chain[0].id != "") {
      var tail := chain[1..];
      NamesShape(tail);
      assert Stop(chain) == 1 + Stop(tail);
      assert Anchored(chain) == Anchored(tail);
      assert forall j :: 1 <= j < |chain| ==> chain[j] == tail[j - 1];
    }
  }

  /** An element with an id below BODY is addressed by its anchor alone. */
  lemma IdShortCircuits(chain: seq<Element>)
    requires |chain| > 1 && chain[0].tagName != "BODY" && chain[0].id != ""
    ensures SelectorPath(chain) == "#" + chain[0].id
  {
  }

  lemma NthChildFree(e: Element, c: char)
    requires Free(e.tagName, c) && !('0' <= c <= '9') && c !in ":nth-child()"
    ensures Free(NthChild(e), c)
  {
    var digits := NatToDecimal(e.previousSiblings + 1);
    var s := NthChild(e);
    assert s == e.tagName + ":nth-child(" + digits + ")";
    forall i | 0 <= i < |s|
      ensures s[i] != c
    {
      if i < |e.tagName| {
        assert s[i] == e.tagName[i];
      } else if i < |e.tagName| + 11 {
        assert s[i] == ":nth-child("[i - |e.tagName|];
      } else if i < |e.tagName| + 11 + |digits| {
        assert s[i] == digits[i - |e.tagName| - 11];
      } else {
        assert s[i] == ')';
      }
    }
  }

  lemma AnchorFree(e: Element, c: char)
    requires Free(e.id, c) && c != '#'
    ensures Free(Anchor(e), c)
  {
    assert forall i :: 1 <= i < |Anchor(e)| ==> Anchor(e)[i] == e.id[i - 1];
  }

  /**
   * When no tag name and no anchoring id contains '>', the selector splits
   * back into exactly the segments of the walk.
   */
  lemma SelectorSplits(chain: seq<Element>)
    requires |chain| > 0 && chain[0].tagName != "BODY" && |Names(chain)| > 0
    requires forall i :: 0 <= i < |chain| ==> Free(chain[i].tagName, '>') && Free(chain[i].id, '>')
    ensures Split(SelectorPath(chain), '>') == Names(chain)
  {
    NamesFree(chain);
    SplitJoin(Names(chain), '>');
  }

  /** No segment contains '>' when no tag name and no anchoring id does. */
  lemma NamesFree(chain: seq<Element>)
    requires |chain| > 0
    requires forall i :: 0 <= i < |chain| ==> Free(chain[i].tagName, '>') && Free(chain[i].id, '>')
    ensures forall k :: 0 <= k < |Names(chain)| ==> Free(Names(chain)[k], '>')
  {
    NamesShape(chain);
    var names := Names(chain);
    var m := Stop(chain);
    forall k | 0 <= k < |names|
      ensures Free(names[k], '>')
    {
      if Anchored(chain) && k == 0 {
        AnchorFree(chain[m], '>');
      } else {
        NthChildFree(chain[|names| - 1 - k], '>');
      }
    }
  }
}
