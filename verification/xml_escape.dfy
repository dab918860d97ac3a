/** The five-character XML escape shared by the background page
    (background.js:9-20) and the popup (popup.js:26-37): the two copies map the
    same characters to the same entities, so it is defined once here. */
module XmlEscape {

  /** The characters the escape rewrites. */
  predicate IsSpecial(c: char) {
    c == '<' || c == '>' || c == '&' || c == '\'' || c == '"'
  }

  /** The characters that can never appear in escaped text. The ampersand
      still appears, as the start of every entity. */
  predicate IsMarkup(c: char) {
    c == '<' || c == '>' || c == '\'' || c == '"'
  }

  function EscapeChar(c: char): (r: string)
    ensures !IsSpecial(c) ==> r == [c]
    ensures IsSpecial(c) ==> |r| > 1 && r[0] == '&' && r[|r| - 1] == ';'
    ensures forall i :: 0 <= i < |r| ==> !IsMarkup(r[i])
  {
    match c
    case '<' => "&lt;"
    case '>' => "&gt;"
    case '&' => "&amp;"
    case '\'' => "&apos;"
    case '"' => "&quot;"
    case _ => [c]
  }

  /** `escapeXml`: every special character replaced by its entity, every other
      character kept, in order. */
  function EscapeXml(s: string): (r: string)
    ensures forall i :: 0 <= i < |r| ==> !IsMarkup(r[i])
    ensures |r| >= |s|
    ensures (forall i :: 0 <= i < |s| ==> !IsSpecial(s[i])) ==> r == s
    ensures (exists i :: 0 <= i < |s| && IsSpecial(s[i])) ==> |r| > |s|
  {
    if s == [] then []
    else
      var r := EscapeChar(s[0]) + EscapeXml(s[1..]);
      assert forall i :: 0 <= i < |r| ==> !IsMarkup(r[i]) by {
        forall i | 0 <= i < |r|
          ensures !IsMarkup(r[i])
        {
          if i >= |EscapeChar(s[0])| {
            assert r[i] == EscapeXml(s[1..])[i - |EscapeChar(s[0])|];
          }
        }
      }
      assert (exists i :: 0 <= i < |s| && IsSpecial(s[i])) ==>
          IsSpecial(s[0]) || exists j :: 0 <= j < |s[1..]| && IsSpecial(s[1..][j]) by {
        if exists i :: 0 <= i < |s| && IsSpecial(s[i]) {
          var i :| 0 <= i < |s| && IsSpecial(s[i]);
          if i > 0 {
            assert IsSpecial(s[1..][i - 1]);
          }
        }
      }
      r
  }

  /** The character an entity at the front of `s` stands for, and the length
      of that entity; a character that starts no entity stands for itself. */
  function DecodeOne(s: string): (r: (char, nat))
    requires s != []
    ensures 1 <= r.1 <= |s|
  {
    if |s| >= 4 && s[0] == '&' && s[1] == 'l' && s[2] == 't' && s[3] == ';' then ('<', 4)
    else if |s| >= 4 && s[0] == '&' && s[1] == 'g' && s[2] == 't' && s[3] == ';' then ('>', 4)
    else if |s| >= 5 && s[0] == '&' && s[1] == 'a' && s[2] == 'm' && s[3] == 'p' && s[4] == ';' then ('&', 5)
    else if |s| >= 6 && s[0] == '&' && s[1] == 'a' && s[2] == 'p' && s[3] == 'o' && s[4] == 's' && s[5] == ';' then ('\'', 6)
    else if |s| >= 6 && s[0] == '&' && s[1] == 'q' && s[2] == 'u' && s[3] == 'o' && s[4] == 't' && s[5] == ';' then ('"', 6)
    else (s[0], 1)
  }

  /** Decoding of the five entities, the inverse mapping: any other text,
      including an ampersand that starts no entity, is copied through. */
  function Unescape(s: string): (r: string)
    ensures |r| <= |s|
  {
    if s == [] then []
    else
      var d := DecodeOne(s);
      [d.0] + Unescape(s[d.1..])
  }

  lemma DecodeEscaped(c: char, rest: string)
    ensures DecodeOne(EscapeChar(c) + rest) == (c, |EscapeChar(c)|)
  {
    var e := EscapeChar(c);
    var t := e + rest;
    assert forall i :: 0 <= i < |e| ==> t[i] == e[i];
  }

  lemma UnescapeChar(c: char, rest: string)
    ensures Unescape(EscapeChar(c) + rest) == [c] + Unescape(rest)
  {
    var t := EscapeChar(c) + rest;
    DecodeEscaped(c, rest);
    assert t[|EscapeChar(c)|..] == rest;
  }

  /** Reversing the entity mapping recovers the text that was escaped. */
  lemma {:induction false} UnescapeEscape(s: string)
    ensures Unescape(EscapeXml(s)) == s
  {
    if s != [] {
      UnescapeChar(s[0], EscapeXml(s[1..]));
      UnescapeEscape(s[1..]);
    }
  }

  /** The escape works character by character, so it distributes over
      concatenation. */
  lemma {:induction false} EscapeAppend(a: string, b: string)
    ensures EscapeXml(a + b) == EscapeXml(a) + EscapeXml(b)
  {
    if a != [] {
      assert (a + b)[0] == a[0];
      assert (a + b)[1..] == a[1..] + b;
      EscapeAppend(a[1..], b);
      calc {
        EscapeXml(a + b);
        EscapeChar(a[0]) + EscapeXml(a[1..] + b);
        EscapeChar(a[0]) + (EscapeXml(a[1..]) + EscapeXml(b));
        (EscapeChar(a[0]) + EscapeXml(a[1..])) + EscapeXml(b);
      }
    } else {
      assert a + b == b;
    }
  }
}
