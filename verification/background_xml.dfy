/** The background page's XML export (background.js:9-52): `toXml` writes one
    value under a root tag and `convertEventLogToXml` wraps the entries of the
    log in `<eventLog>`. */
module BackgroundXml {
  import opened Values
  import opened XmlEscape
  import opened XmlTree
  import opened Serializer

  /** `toXml(data, rootName)`. */
  function ToXml(data: Value, rootName: string): string
  {
    Render(Tree(data, rootName), "")
  }

  /** The XML of a sequence of items written one call each under `tag`. */
  function ItemsXml(items: seq<Value>, tag: string): string
  {
    if items == [] then "" else ToXml(items[0], tag) + ItemsXml(items[1..], tag)
  }

  lemma {:induction false} RenderItemTrees(items: seq<Value>, tag: string)
    ensures RenderAll(ItemTrees(items, tag), "") == ItemsXml(items, tag)
  {
    if items != [] {
      assert ItemTrees(items, tag)[0] == Tree(items[0], tag);
      assert ItemTrees(items, tag)[1..] == ItemTrees(items[1..], tag);
      RenderItemTrees(items[1..], tag);
    }
  }

  /** A scalar property becomes `<tag>escaped text</tag>` with the key's
      sanitized name as tag. */
  lemma ScalarPropertyXml(key: string, val: Value, rootName: string)
    requires val.IsScalar()
    ensures ToXml(Obj([Field(key, val)]), rootName)
      == "<" + rootName + ">"
         + ("<" + SanitizeTag(key) + ">" + EscapeXml(ToJsString(val)) + "</" + SanitizeTag(key) + ">")
         + "</" + rootName + ">"
  {
    var fs := [Field(key, val)];
    var leaf := Leaf(SanitizeTag(key), ToJsString(val));
    assert fs[1..] == [];
    assert FieldKids(fs) == [leaf];
    assert [leaf][1..] == [];
    var l := Render(leaf, "");
    assert RenderAll([leaf], "") == l + "" == l;
    var x := "<" + rootName + ">" + l + "</" + rootName + ">";
    assert ToXml(Obj(fs), rootName) == x + "";
    assert x + "" == x;
  }

  /** An array property is written item by item, each item a whole call with
      the array's sanitized key as its root tag. */
  lemma ArrayPropertyXml(key: string, items: seq<Value>, rootName: string)
    ensures ToXml(Obj([Field(key, Arr(items))]), rootName)
      == "<" + rootName + ">" + ItemsXml(items, SanitizeTag(key)) + "</" + rootName + ">"
  {
    var fs := [Field(key, Arr(items))];
    assert fs[1..] == [];
    assert FieldKids(fs) == ItemTrees(items, SanitizeTag(key));
    RenderItemTrees(items, SanitizeTag(key));
  }

  /** An object property is one nested call under the sanitized key. */
  lemma ObjectPropertyXml(key: string, fields: seq<Field>, rootName: string)
    ensures ToXml(Obj([Field(key, Obj(fields))]), rootName)
      == "<" + rootName + ">" + ToXml(Obj(fields), SanitizeTag(key)) + "</" + rootName + ">"
  {
    var fs := [Field(key, Obj(fields))];
    var inner := Tree(Obj(fields), SanitizeTag(key));
    assert fs[1..] == [];
    assert FieldKids(fs) == [inner];
    assert [inner][1..] == [];
    assert RenderAll([inner], "") == Render(inner, "") + "";
  }

  /** A number, boolean or null handed to `toXml` itself (an array item)
      enumerates nothing and gives an empty element. */
  lemma AtomItemXml(item: Value, tag: string)
    requires item.Num? || item.Bool? || item.Null?
    ensures ToXml(item, tag) == "<" + tag + "></" + tag + ">"
  {
    assert Tree(item, tag) == Group(tag, []);
    assert RenderAll([], "") == "";
    assert ToXml(item, tag) == "<" + tag + ">" + "" + "</" + tag + ">" + "";
  }

  /** The text of a string handed to `toXml` itself, one index-tagged element
      per character. */
  function CharsXml(s: string, start: nat): string
  {
    if s == [] then ""
    else "<" + NatToString(start) + ">" + EscapeXml([s[0]]) + "</" + NatToString(start) + ">"
         + CharsXml(s[1..], start + 1)
  }

  lemma {:induction false} RenderCharKids(s: string, start: nat)
    ensures RenderAll(CharKids(s, start), "") == CharsXml(s, start)
  {
    if s != [] {
      var r := CharKids(s, start);
      assert r[0] == Leaf(NatToString(start), [s[0]]);
      assert r[1..] == CharKids(s[1..], start + 1) by {
        var t := CharKids(s[1..], start + 1);
        assert |r[1..]| == |t|;
        forall i | 0 <= i < |t|
          ensures r[1..][i] == t[i]
        {
          assert r[1..][i] == r[i + 1];
          assert s[1..][i] == s[i + 1];
        }
      }
      RenderCharKids(s[1..], start + 1);
    }
  }

  /** A string handed to `toXml` itself (a string item of an array) is
      enumerated character by character under the tags `0`, `1`, ... */
  lemma StringItemXml(s: string, tag: string)
    ensures ToXml(Str(s), tag) == "<" + tag + ">" + CharsXml(s, 0) + "</" + tag + ">"
  {
    RenderCharKids(s, 0);
  }

  /** `convertEventLogToXml(log)`. */
  function ConvertEventLogToXml(log: seq<Value>): (r: string)
    ensures log == [] ==> r == "<eventLog></eventLog>"
    ensures |r| >= 21 && r[..10] == "<eventLog>" && r[|r| - 11..] == "</eventLog>"
  {
    "<eventLog>" + EntriesXml(log, "") + "</eventLog>"
  }

  /** Appending one entry to the log inserts that entry's XML, and nothing
      else, just before the closing tag; earlier entries are untouched. */
  lemma AppendEntryXml(log: seq<Value>, entry: Value)
    ensures ConvertEventLogToXml(log + [entry])
      == "<eventLog>" + EntriesXml(log, "") + ToXml(entry, "event") + "</eventLog>"
  {
    var a := EntriesXml(log, "");
    var b := ToXml(entry, "event");
    EntriesXmlAppend(log, [entry], "");
    assert [entry][1..] == [];
    assert EntriesXml([entry], "") == b + "" == b;
    assert EntriesXml(log + [entry], "") == a + b;
    assert "<eventLog>" + (a + b) == "<eventLog>" + a + b;
  }
}
