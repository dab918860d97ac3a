/** The shape of the XML text both serializers write. A `Group` is the output
    of one call of `toXml` / `convertObjectToXml`: an open tag, the children,
    the close tag and a trailer (nothing in the background page, a newline in
    the popup). A `Leaf` is the scalar branch: an element holding escaped text
    and never followed by a trailer. */
module XmlTree {
  import opened XmlEscape

  datatype Node = Group(tag: string, kids: seq<Node>) | Leaf(tag: string, text: string)

  function Render(n: Node, trailer: string): string
    decreases n, 1
  {
    match n
    case Group(tag, kids) =>
      "<" + tag + ">" + RenderAll(kids, trailer) + "</" + tag + ">" + trailer
    case Leaf(tag, text) =>
      "<" + tag + ">" + EscapeXml(text) + "</" + tag + ">"
  }

  function RenderAll(ns: seq<Node>, trailer: string): string
    decreases ns, 0
  {
    if ns == [] then "" else Render(ns[0], trailer) + RenderAll(ns[1..], trailer)
  }

  /** The leaf texts of a tree, in document order. */
  function TextOf(n: Node): string
    decreases n, 1
  {
    match n
    case Group(_, kids) => TextOfAll(kids)
    case Leaf(_, text) => text
  }

  function TextOfAll(ns: seq<Node>): string
    decreases ns, 0
  {
    if ns == [] then "" else TextOf(ns[0]) + TextOfAll(ns[1..])
  }

  /** The characters a sanitized tag name is made of. */
  predicate IsTagChar(c: char) {
    ('a' <= c <= 'z') || ('A' <= c <= 'Z') || ('0' <= c <= '9') || c == '_'
  }

  predicate IsTagName(t: string) {
    forall i :: 0 <= i < |t| ==> IsTagChar(t[i])
  }

  /** Every tag in the tree is made of tag characters only. */
  predicate WellTagged(n: Node)
    decreases n, 1
  {
    IsTagName(n.tag) && (n.Group? ==> AllWellTagged(n.kids))
  }

  predicate AllWellTagged(ns: seq<Node>)
    decreases ns, 0
  {
    ns != [] ==> WellTagged(ns[0]) && AllWellTagged(ns[1..])
  }

  // ---------------------------------------------------------------------------
  // Stripping the markup off a document
  // ---------------------------------------------------------------------------

  /** The text after the first '>' (the rest of an open or close tag). */
  function SkipTag(s: string): (r: string)
    ensures |r| <= |s|
    ensures '>' !in s ==> r == []
  {
    if s == [] then [] else if s[0] == '>' then s[1..] else SkipTag(s[1..])
  }

  /** The character data of a document: everything outside `<...>`. */
  function StripMarkup(s: string): string
    decreases |s|
  {
    if s == [] then []
    else if s[0] == '<' then StripMarkup(SkipTag(s[1..]))
    else [s[0]] + StripMarkup(s[1..])
  }

  lemma {:induction false} SkipTagPrefix(t: string, rest: string)
    requires '>' !in t
    ensures SkipTag(t + ">" + rest) == rest
  {
    if t == [] {
      assert (t + ">" + rest)[1..] == rest;
    } else {
      assert (t + ">" + rest)[1..] == t[1..] + ">" + rest;
      SkipTagPrefix(t[1..], rest);
    }
  }

  lemma StripTag(t: string, rest: string)
    requires '>' !in t
    ensures StripMarkup("<" + t + ">" + rest) == StripMarkup(rest)
  {
    assert ("<" + t + ">" + rest)[1..] == t + ">" + rest;
    SkipTagPrefix(t, rest);
  }

  lemma {:induction false} StripText(e: string, rest: string)
    requires forall i :: 0 <= i < |e| ==> e[i] != '<'
    ensures StripMarkup(e + rest) == e + StripMarkup(rest)
  {
    if e != [] {
      assert (e + rest)[0] == e[0] != '<';
      assert (e + rest)[1..] == e[1..] + rest;
      StripText(e[1..], rest);
      assert e == [e[0]] + e[1..];
    } else {
      assert e + rest == rest;
    }
  }

  lemma NoLessThanInEscaped(s: string)
    ensures forall i :: 0 <= i < |EscapeXml(s)| ==> EscapeXml(s)[i] != '<'
  {
  }

  lemma TagNameHasNoGt(t: string)
    requires IsTagName(t)
    ensures '>' !in t && '>' !in "/" + t
  {
    assert forall i :: 0 <= i < |t| ==> t[i] != '>';
    assert forall i :: 0 <= i < |"/" + t| ==> ("/" + t)[i] != '>' by {
      forall i | 0 <= i < |"/" + t|
        ensures ("/" + t)[i] != '>'
      {
        if i > 0 {
          assert ("/" + t)[i] == t[i - 1];
        }
      }
    }
  }

  /** Stripping the markup off a rendered tree (background form, no trailer)
      leaves exactly the escaped leaf texts, in document order; `rest` is what
      follows the tree in the document. */
  lemma {:induction false} StripRender(n: Node, rest: string)
    requires WellTagged(n)
    ensures StripMarkup(Render(n, "") + rest) == EscapeXml(TextOf(n)) + StripMarkup(rest)
    decreases n, 1
  {
    TagNameHasNoGt(n.tag);
    var close := "/" + n.tag;
    match n
    case Group(tag, kids) =>
      var inner := RenderAll(kids, "");
      assert Render(n, "") + rest == "<" + tag + ">" + (inner + ("<" + close + ">" + rest));
      StripTag(tag, inner + ("<" + close + ">" + rest));
      StripRenderAll(kids, "<" + close + ">" + rest);
      StripTag(close, rest);
    case Leaf(tag, text) =>
      var e := EscapeXml(text);
      assert Render(n, "") + rest == "<" + tag + ">" + (e + ("<" + close + ">" + rest));
      StripTag(tag, e + ("<" + close + ">" + rest));
      NoLessThanInEscaped(text);
      StripText(e, "<" + close + ">" + rest);
      StripTag(close, rest);
  }

  lemma {:induction false} StripRenderAll(ns: seq<Node>, rest: string)
    requires AllWellTagged(ns)
    ensures StripMarkup(RenderAll(ns, "") + rest) == EscapeXml(TextOfAll(ns)) + StripMarkup(rest)
    decreases ns, 0
  {
    if ns == [] {
      assert RenderAll(ns, "") + rest == rest;
    } else {
      var head := Render(ns[0], "");
      var tail := RenderAll(ns[1..], "");
      assert RenderAll(ns, "") == head + tail;
      StripRender(ns[0], tail + rest);
      StripRenderAll(ns[1..], rest);
      StripJoin(head, tail, rest, EscapeXml(TextOf(ns[0])), EscapeXml(TextOfAll(ns[1..])));
      EscapeAppend(TextOf(ns[0]), TextOfAll(ns[1..]));
    }
  }

  lemma StripJoin(x: string, y: string, rest: string, ex: string, ey: string)
    requires StripMarkup(x + (y + rest)) == ex + StripMarkup(y + rest)
    requires StripMarkup(y + rest) == ey + StripMarkup(rest)
    ensures StripMarkup((x + y) + rest) == (ex + ey) + StripMarkup(rest)
  {
    assert (x + y) + rest == x + (y + rest);
  }

  /** The character data of a rendered tree, once unescaped, is its leaf text:
      no scalar is lost, reordered or altered by the serialization. */
  lemma ContentRecoverable(n: Node)
    requires WellTagged(n)
    ensures Unescape(StripMarkup(Render(n, ""))) == TextOf(n)
  {
    var d := Render(n, "");
    var e := EscapeXml(TextOf(n));
    StripRender(n, "");
    assert d + "" == d;
    assert StripMarkup("") == "";
    assert e + "" == e;
    assert StripMarkup(d) == e;
    UnescapeEscape(TextOf(n));
  }

  // ---------------------------------------------------------------------------
  // Trailers
  // ---------------------------------------------------------------------------

  function StripNewlines(s: string): (r: string)
    ensures '\n' !in r
  {
    if s == [] then [] else (if s[0] == '\n' then [] else [s[0]]) + StripNewlines(s[1..])
  }

  lemma {:induction false} StripNewlinesAppend(a: string, b: string)
    ensures StripNewlines(a + b) == StripNewlines(a) + StripNewlines(b)
  {
    if a != [] {
      assert (a + b)[0] == a[0];
      assert (a + b)[1..] == a[1..] + b;
      StripNewlinesAppend(a[1..], b);
    } else {
      assert a + b == b;
    }
  }

  /** A newline trailer adds newlines and nothing else: with newlines removed,
      the popup form and the background form of a tree are the same text. */
  lemma {:induction false} TrailerOnlyAddsNewlines(n: Node)
    ensures StripNewlines(Render(n, "\n")) == StripNewlines(Render(n, ""))
    decreases n, 1
  {
    match n
    case Group(tag, kids) =>
      var open := "<" + tag + ">";
      var close := "</" + tag + ">";
      assert Render(n, "\n") == open + RenderAll(kids, "\n") + close + "\n";
      assert Render(n, "") == open + RenderAll(kids, "") + close + "";
      StripNewlinesAppend(open + RenderAll(kids, "\n") + close, "\n");
      StripNewlinesAppend(open + RenderAll(kids, "\n"), close);
      StripNewlinesAppend(open, RenderAll(kids, "\n"));
      StripNewlinesAppend(open + RenderAll(kids, "") + close, "");
      StripNewlinesAppend(open + RenderAll(kids, ""), close);
      StripNewlinesAppend(open, RenderAll(kids, ""));
      TrailerOnlyAddsNewlinesAll(kids);
      assert StripNewlines("\n") == [];
    case Leaf(_, _) =>
  }

  lemma {:induction false} TrailerOnlyAddsNewlinesAll(ns: seq<Node>)
    ensures StripNewlines(RenderAll(ns, "\n")) == StripNewlines(RenderAll(ns, ""))
    decreases ns, 0
  {
    if ns != [] {
      StripNewlinesAppend(Render(ns[0], "\n"), RenderAll(ns[1..], "\n"));
      StripNewlinesAppend(Render(ns[0], ""), RenderAll(ns[1..], ""));
      TrailerOnlyAddsNewlines(ns[0]);
      TrailerOnlyAddsNewlinesAll(ns[1..]);
    }
  }
}
