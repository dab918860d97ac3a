/** The locator resolver of the content script (`getElementLocator` and its
    inner `getXPath`, content.js:70-90): how a DOM node is turned into an id,
    name, CSS or positional-xpath reference that can re-find it later. */
module Locator {
  import opened Values

  // ---------------------------------------------------------------------------
  // The DOM as the resolver sees it
  // ---------------------------------------------------------------------------

  /** An element: its `tagName` (upper case for HTML elements), `id`, `name`
      property ("" when absent), class attribute, whether it is an SVG element
      and its element children in order. On an HTML element `className` is
      the class attribute as a string; on an SVG element it is an
      `SVGAnimatedString` object, which is always truthy and has no `trim`. */
  datatype Elem = Elem(tag: string, id: string, name: string, className: string, svg: bool, kids: seq<Elem>)

  /** A node handed to the resolver. `InBody` is the element reached from
      `document.body` by the child indices `path` (the empty path is the body
      itself); `OutsideBody` is an element whose parent chain never reaches
      the body (the `html` and `head` elements, a detached element, an element
      inside a shadow root). */
  datatype Target =
    | Nothing
    | NonElement
    | InBody(body: Elem, path: seq<nat>)
    | OutsideBody(el: Elem)

  predicate ValidPath(root: Elem, path: seq<nat>)
    decreases |path|
  {
    path != [] ==> path[0] < |root.kids| && ValidPath(root.kids[path[0]], path[1..])
  }

  function At(root: Elem, path: seq<nat>): Elem
    requires ValidPath(root, path)
    decreases |path|
  {
    if path == [] then root else At(root.kids[path[0]], path[1..])
  }

  /** A target that names an element that exists. */
  predicate WellFormed(t: Target) {
    t.InBody? ==> ValidPath(t.body, t.path)
  }

  /** The element a target denotes, if it is one. */
  function ElementOf(t: Target): Option<Elem>
    requires WellFormed(t)
  {
    match t
    case InBody(body, path) => Some(At(body, path))
    case OutsideBody(el) => Some(el)
    case _ => None
  }

  // ---------------------------------------------------------------------------
  // Text helpers: toLowerCase, trim, split(/\s+/), join('.')
  // ---------------------------------------------------------------------------

  /** `toLowerCase` on the ASCII letters tag names are made of. */
  function LowerChar(c: char): char {
    if 'A' <= c <= 'Z' then (c as int + 32) as char else c
  }

  function Lower(s: string): (r: string)
    ensures |r| == |s|
    ensures forall i :: 0 <= i < |s| ==> r[i] == LowerChar(s[i])
  {
    if s == [] then [] else [LowerChar(s[0])] + Lower(s[1..])
  }

  /** The characters JavaScript's `trim` removes and `\s` matches. */
  predicate IsJsSpace(c: char) {
    c == '\t' || c == '\n' || c == '\U{000B}' || c == '\U{000C}' || c == '\r' || c == ' '
    || c == '\U{00A0}' || c == '\U{1680}' || ('\U{2000}' <= c <= '\U{200A}')
    || c == '\U{2028}' || c == '\U{2029}' || c == '\U{202F}' || c == '\U{205F}'
    || c == '\U{3000}' || c == '\U{FEFF}'
  }

  predicate NoSpace(s: string) {
    forall i :: 0 <= i < |s| ==> !IsJsSpace(s[i])
  }

  /** A string `trim` leaves unchanged: empty, or no space at either end. */
  predicate Trimmed(s: string) {
    s != [] ==> !IsJsSpace(s[0]) && !IsJsSpace(s[|s| - 1])
  }

  /** The string without its leading spaces. */
  function DropSpaces(s: string): (r: string)
    ensures |r| <= |s|
    ensures r != [] ==> !IsJsSpace(r[0])
  {
    if s != [] && IsJsSpace(s[0]) then DropSpaces(s[1..]) else s
  }

  function DropTrailingSpaces(s: string): (r: string)
    ensures |r| <= |s|
    ensures r != [] ==> !IsJsSpace(r[|r| - 1])
    ensures r == s[..|r|]
  {
    if s != [] && IsJsSpace(s[|s| - 1]) then DropTrailingSpaces(s[..|s| - 1]) else s
  }

  /** `String.prototype.trim`. */
  function Trim(s: string): (r: string)
    ensures Trimmed(r)
  {
    var d := DropSpaces(s);
    var r := DropTrailingSpaces(d);
    assert r != [] ==> r[0] == d[0];
    r
  }

  /** The non-space characters of a string, in order. */
  function NonSpace(s: string): string {
    if s == [] then [] else (if IsJsSpace(s[0]) then [] else [s[0]]) + NonSpace(s[1..])
  }

  /** `s.split(/\s+/)`: the pieces between maximal runs of spaces (the empty
      string gives one empty piece). */
  function SplitWs(s: string): (r: seq<string>)
    ensures |r| >= 1
    decreases |s|
  {
    if s == [] then [""]
    else if IsJsSpace(s[0]) then [""] + SplitWs(DropSpaces(s))
    else
      var rest := SplitWs(s[1..]);
      [[s[0]] + rest[0]] + rest[1..]
  }

  function Concat(ps: seq<string>): string {
    if ps == [] then "" else ps[0] + Concat(ps[1..])
  }

  /** `pieces.join('.')`. */
  function JoinDots(ps: seq<string>): string {
    if ps == [] then "" else if |ps| == 1 then ps[0] else ps[0] + "." + JoinDots(ps[1..])
  }

  lemma {:induction false} DropSpacesNonSpace(s: string)
    ensures NonSpace(DropSpaces(s)) == NonSpace(s)
  {
    if s != [] && IsJsSpace(s[0]) {
      DropSpacesNonSpace(s[1..]);
    }
  }

  /** Splitting on spaces keeps every non-space character, in order, and
      puts no space in any piece. */
  lemma SplitWsPieces(s: string)
    ensures Concat(SplitWs(s)) == NonSpace(s)
    ensures forall i :: 0 <= i < |SplitWs(s)| ==> NoSpace(SplitWs(s)[i])
  {
    SplitWsConcat(s);
    SplitWsNoSpace(s);
  }

  lemma {:induction false} SplitWsConcat(s: string)
    ensures Concat(SplitWs(s)) == NonSpace(s)
    decreases |s|
  {
    var r := SplitWs(s);
    if s == [] {
    } else if IsJsSpace(s[0]) {
      var d := DropSpaces(s);
      SplitWsConcat(d);
      DropSpacesNonSpace(s);
      assert r[1..] == SplitWs(d);
    } else {
      var rest := SplitWs(s[1..]);
      SplitWsConcat(s[1..]);
      assert r[1..] == rest[1..];
      assert Concat(rest) == rest[0] + Concat(rest[1..]);
      assert r[0] == [s[0]] + rest[0];
    }
  }

  lemma {:induction false} SplitWsNoSpace(s: string)
    ensures forall i :: 0 <= i < |SplitWs(s)| ==> NoSpace(SplitWs(s)[i])
    decreases |s|
  {
    var r := SplitWs(s);
    if s == [] {
    } else if IsJsSpace(s[0]) {
      var d := DropSpaces(s);
      SplitWsNoSpace(d);
      assert forall i :: 1 <= i < |r| ==> r[i] == SplitWs(d)[i - 1];
    } else {
      var rest := SplitWs(s[1..]);
      SplitWsNoSpace(s[1..]);
      assert forall i :: 1 <= i < |r| ==> r[i] == rest[i];
      assert NoSpace(rest[0]);
      assert r[0] == [s[0]] + rest[0];
      assert NoSpace(r[0]) by {
        forall i | 0 <= i < |r[0]|
          ensures !IsJsSpace(r[0][i])
        {
          if i > 0 {
            assert r[0][i] == rest[0][i - 1];
          }
        }
      }
    }
  }

  /** On a trimmed, non-empty string no piece of the split is empty. */
  lemma {:induction false} SplitWsNonEmptyPieces(s: string)
    requires s != [] && Trimmed(s)
    ensures forall i :: 0 <= i < |SplitWs(s)| ==> SplitWs(s)[i] != ""
    decreases |s|
  {
    var t := s[1..];
    var rest := SplitWs(t);
    assert SplitWs(s) == [[s[0]] + rest[0]] + rest[1..];
    SplitWsTailPieces(s);
    assert forall i :: 1 <= i < |SplitWs(s)| ==> SplitWs(s)[i] == rest[i];
  }

  /** Behind the first piece, the pieces of a trimmed string's tail are
      non-empty. */
  lemma {:induction false} SplitWsTailPieces(s: string)
    requires s != [] && Trimmed(s)
    ensures forall i :: 1 <= i < |SplitWs(s[1..])| ==> SplitWs(s[1..])[i] != ""
    decreases |s|, 0
  {
    var t := s[1..];
    if t == [] {
      assert SplitWs(t) == [""];
    } else if !IsJsSpace(t[0]) {
      assert t[|t| - 1] == s[|s| - 1];
      SplitWsNonEmptyPieces(t);
    } else {
      var d := DropSpaces(t);
      assert t[|t| - 1] == s[|s| - 1];
      DropSpacesKeepsLast(t);
      SplitWsNonEmptyPieces(d);
      assert SplitWs(t) == [""] + SplitWs(d);
      assert forall i :: 1 <= i < |SplitWs(t)| ==> SplitWs(t)[i] == SplitWs(d)[i - 1];
    }
  }

  lemma {:induction false} DropSpacesKeepsLast(s: string)
    requires s != [] && !IsJsSpace(s[|s| - 1])
    ensures DropSpaces(s) != [] && DropSpaces(s)[|DropSpaces(s)| - 1] == s[|s| - 1]
  {
    if IsJsSpace(s[0]) {
      DropSpacesKeepsLast(s[1..]);
    }
  }

  // ---------------------------------------------------------------------------
  // Locators
  // ---------------------------------------------------------------------------

  datatype Kind = ById | ByName | ByCss | ByXPath {
    /** The `type` field the content script sends. */
    function Name(): string {
      match this
      case ById => "id"
      case ByName => "name"
      case ByCss => "css"
      case ByXPath => "xpath"
    }
  }

  datatype Locator = Locator(kind: Kind, expression: string)

  /** What `getElementLocator` produces: `null`, a locator, or a TypeError:
      `className.trim` on an SVG element, or `getXPath` reading the tag of a
      parent chain that ends before the body. */
  datatype LocResult = NoLocator | Found(loc: Locator) | Throws

  /** The CSS expression the resolver builds for an HTML element: the
      lower-case tag, then, when the class attribute is non-empty, a dot and
      the trimmed class list split on spaces and joined by dots. */
  function CssSelector(e: Elem): string {
    Lower(e.tag) + (if e.className != "" then "." + JoinDots(SplitWs(Trim(e.className))) else "")
  }

  /** One segment of a positional xpath: the child's tag and its 1-based
      position among the siblings with the same tag. */
  datatype Step = Step(tag: string, ix: nat)

  /** The number of elements in `kids` whose tag is `tag`. */
  function CountTag(kids: seq<Elem>, tag: string): nat {
    if kids == [] then 0 else (if kids[0].tag == tag then 1 else 0) + CountTag(kids[1..], tag)
  }

  /** The segments `getXPath` writes for the element at `path` below `root`,
      outermost first: at each level `ix` is one plus the number of earlier
      siblings with the same tag. */
  function Steps(root: Elem, path: seq<nat>): (r: seq<Step>)
    requires ValidPath(root, path)
    ensures |r| == |path|
    ensures forall i :: 0 <= i < |r| ==> r[i].ix >= 1
    decreases |path|
  {
    if path == [] then []
    else
      var kid := root.kids[path[0]];
      [Step(kid.tag, 1 + CountTag(root.kids[..path[0]], kid.tag))] + Steps(kid, path[1..])
  }

  function StepsText(steps: seq<Step>): string {
    if steps == [] then ""
    else "/" + Lower(steps[0].tag) + "[" + NatToString(steps[0].ix) + "]" + StepsText(steps[1..])
  }

  /** `getXPath` for an element below the body. */
  function XPath(body: Elem, path: seq<nat>): (r: string)
    requires ValidPath(body, path)
    ensures |r| >= 10 && r[..10] == "/html/body"
    ensures path == [] ==> r == "/html/body"
  {
    "/html/body" + StepsText(Steps(body, path))
  }

  /** `getElementLocator(el)`: the first of id, name (not on a BUTTON), class
      list and position that applies; an SVG element without id or name
      throws at its class. */
  function GetElementLocator(t: Target): (r: LocResult)
    requires WellFormed(t)
    ensures r.NoLocator? <==> ElementOf(t).None? || ElementOf(t).value.tag == ""
    ensures ElementOf(t).Some? && ElementOf(t).value.tag != "" ==>
      var e := ElementOf(t).value;
      && (e.id != "" ==> r == Found(Locator(ById, e.id)))
      && (e.id == "" && e.name != "" && e.tag != "BUTTON" ==> r == Found(Locator(ByName, e.name)))
      && (e.id == "" && (e.name == "" || e.tag == "BUTTON") && e.svg ==> r == Throws)
      && (e.id == "" && (e.name == "" || e.tag == "BUTTON") && !e.svg && e.className != "" ==>
            r == Found(Locator(ByCss, CssSelector(e))))
      && (e.id == "" && (e.name == "" || e.tag == "BUTTON") && !e.svg && e.className == "" ==>
            (t.InBody? ==> r == Found(Locator(ByXPath, XPath(t.body, t.path))))
            && (t.OutsideBody? ==> r == Throws))
    ensures r.Throws? ==> ElementOf(t).Some? && (t.OutsideBody? || ElementOf(t).value.svg)
  {
    match ElementOf(t)
    case None => NoLocator
    case Some(e) =>
      if e.tag == "" then NoLocator
      else if e.id != "" then Found(Locator(ById, e.id))
      else if e.name != "" && e.tag != "BUTTON" then Found(Locator(ByName, e.name))
      else if e.svg then Throws
      else
        var css := CssSelector(e);
        if css != Lower(e.tag) then Found(Locator(ByCss, css))
        else if t.InBody? then Found(Locator(ByXPath, XPath(t.body, t.path)))
        else Throws
  }

  /** The class part of a CSS locator: with a class attribute that holds some
      non-space character, the expression is the lower-case tag, a dot, and
      the classes joined by dots, where each class is non-empty, holds no
      space, and together they hold exactly the attribute's non-space
      characters in order. */
  lemma CssClasses(e: Elem)
    requires NonSpace(e.className) != ""
    ensures e.className != ""
    ensures var classes := SplitWs(Trim(e.className));
      && CssSelector(e) == Lower(e.tag) + "." + JoinDots(classes)
      && Concat(classes) == NonSpace(e.className)
      && forall i :: 0 <= i < |classes| ==> classes[i] != "" && NoSpace(classes[i])
  {
    var t := Trim(e.className);
    TrimNonSpace(e.className);
    SplitWsPieces(t);
    SplitWsNonEmptyPieces(t);
  }

  lemma TrimNonSpace(s: string)
    ensures NonSpace(Trim(s)) == NonSpace(s)
  {
    var d := DropSpaces(s);
    DropSpacesNonSpace(s);
    DropTrailingNonSpace(d);
  }

  lemma {:induction false} NonSpaceAppend(a: string, b: string)
    ensures NonSpace(a + b) == NonSpace(a) + NonSpace(b)
  {
    if a == [] {
      assert a + b == b;
    } else {
      var head := if IsJsSpace(a[0]) then [] else [a[0]];
      assert (a + b)[0] == a[0];
      assert (a + b)[1..] == a[1..] + b;
      NonSpaceAppend(a[1..], b);
      assert NonSpace(a + b) == head + (NonSpace(a[1..]) + NonSpace(b));
      assert head + (NonSpace(a[1..]) + NonSpace(b)) == (head + NonSpace(a[1..])) + NonSpace(b);
    }
  }

  lemma {:induction false} DropTrailingNonSpace(s: string)
    ensures NonSpace(DropTrailingSpaces(s)) == NonSpace(s)
    decreases |s|
  {
    if s != [] && IsJsSpace(s[|s| - 1]) {
      var init := s[..|s| - 1];
      DropTrailingNonSpace(init);
      assert s == init + [s[|s| - 1]];
      NonSpaceAppend(init, [s[|s| - 1]]);
      assert NonSpace([s[|s| - 1]]) == [];
    }
  }

  /** As written, a class attribute of spaces only is truthy but trims to
      nothing, so the resolver returns the CSS expression `tag.` (a dangling
      dot) instead of falling through to the xpath. */
  lemma BlankClassGivesDanglingDot(t: Target)
    requires WellFormed(t) && ElementOf(t).Some?
    requires var e := ElementOf(t).value;
      e.tag != "" && e.id == "" && e.name == "" && !e.svg && e.className != "" && NonSpace(e.className) == ""
    ensures GetElementLocator(t) == Found(Locator(ByCss, Lower(ElementOf(t).value.tag) + "."))
  {
    var e := ElementOf(t).value;
    var tr := Trim(e.className);
    TrimNonSpace(e.className);
    assert tr == [];
    assert SplitWs(tr) == [""];
    assert JoinDots([""]) == "";
  }

  // ---------------------------------------------------------------------------
  // The xpath re-finds its element
  // ---------------------------------------------------------------------------

  /** The index of the (n+1)-th element of `kids` whose tag is `tag`. */
  function FindNth(kids: seq<Elem>, tag: string, n: nat): (r: Option<nat>)
    ensures r.Some? ==> r.value < |kids| && kids[r.value].tag == tag
  {
    if kids == [] then None
    else if kids[0].tag == tag && n == 0 then Some(0)
    else
      var m := if kids[0].tag == tag then n - 1 else n;
      match FindNth(kids[1..], tag, m)
      case None => None
      case Some(k) => Some(k + 1)
  }

  /** Evaluating a positional xpath: at each level pick the `ix`-th child with
      the step's tag. */
  function Resolve(root: Elem, steps: seq<Step>): Option<seq<nat>>
    decreases |steps|
  {
    if steps == [] then Some([])
    else if steps[0].ix == 0 then None
    else match FindNth(root.kids, steps[0].tag, steps[0].ix - 1)
      case None => None
      case Some(k) =>
        match Resolve(root.kids[k], steps[1..])
        case None => None
        case Some(rest) => Some([k] + rest)
  }

  lemma {:induction false} FindNthAt(kids: seq<Elem>, k: nat)
    requires k < |kids|
    ensures FindNth(kids, kids[k].tag, CountTag(kids[..k], kids[k].tag)) == Some(k)
  {
    var tag := kids[k].tag;
    if k > 0 {
      assert kids[..k][0] == kids[0];
      assert kids[..k][1..] == kids[1..][..k - 1];
      assert kids[1..][k - 1] == kids[k];
      FindNthAt(kids[1..], k - 1);
    }
  }

  /** The xpath the resolver builds for an element leads back to exactly that
      element: positions make it unambiguous. */
  lemma {:induction false} XPathRoundTrip(root: Elem, path: seq<nat>)
    requires ValidPath(root, path)
    ensures Resolve(root, Steps(root, path)) == Some(path)
    decreases |path|
  {
    if path != [] {
      var k := path[0];
      var kid := root.kids[k];
      var steps := Steps(root, path);
      var n := CountTag(root.kids[..k], kid.tag);
      assert steps[0] == Step(kid.tag, 1 + n);
      assert steps[1..] == Steps(kid, path[1..]);
      FindNthAt(root.kids, k);
      assert FindNth(root.kids, steps[0].tag, steps[0].ix - 1) == Some(k);
      XPathRoundTrip(kid, path[1..]);
      assert Resolve(root, steps) == Some([k] + path[1..]);
      assert path == [k] + path[1..];
    }
  }
}
