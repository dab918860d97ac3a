/** How `toXml` (background.js:23-43) and `convertObjectToXml` (popup.js:39-55)
    walk a value. Both enumerate the value with `for...in` and, for each own
    property, write an array item by item under the property's sanitized name,
    recurse into an object, and write any other value as escaped text. `Tree`
    builds the element tree of one such call; the two files differ only in the
    trailer they write after a call's close tag (see `XmlTree.Render`). */
module Serializer {
  import opened Values
  import opened XmlTree

  /** `key.replace(/[^a-zA-Z0-9_]/g, '')`: the tag characters of the key, in
      order. */
  function SanitizeTag(key: string): (r: string)
    ensures IsTagName(r)
    ensures |r| <= |key|
    ensures IsTagName(key) ==> r == key
    ensures |key| == 1 ==> r == (if IsTagChar(key[0]) then key else "")
  {
    if key == [] then []
    else
      var rest := SanitizeTag(key[1..]);
      if IsTagChar(key[0]) then [key[0]] + rest else rest
  }

  /** The regex replacement works character by character: sanitizing a
      concatenation sanitizes each part. */
  lemma {:induction false} SanitizeTagAppend(a: string, b: string)
    ensures SanitizeTag(a + b) == SanitizeTag(a) + SanitizeTag(b)
  {
    if a != [] {
      assert (a + b)[0] == a[0];
      assert (a + b)[1..] == a[1..] + b;
      SanitizeTagAppend(a[1..], b);
    } else {
      assert a + b == b;
    }
  }

  /** The element tree of one serializer call on `data` under `root`. */
  function Tree(data: Value, root: string): Node
  {
    Group(root, Kids(data))
  }

  /** What `for...in` finds in `data`: the fields of an object, the indices of
      an array, the character indices of a string, and nothing in a number, a
      boolean or null. */
  function Kids(data: Value): seq<Node>
    decreases data, 1
  {
    match data
    case Obj(fields) => FieldKids(fields)
    case Arr(items) => IndexKids(items, 0)
    case Str(s) => CharKids(s, 0)
    case _ => []
  }

  function FieldKids(fields: seq<Field>): seq<Node>
    decreases fields, 0
  {
    if fields == [] then []
    else PropertyNodes(fields[0].key, fields[0].val) + FieldKids(fields[1..])
  }

  /** Array elements enumerated by `for...in` under their index keys. */
  function IndexKids(items: seq<Value>, start: nat): seq<Node>
    decreases items, 0
  {
    if items == [] then []
    else PropertyNodes(NatToString(start), items[0]) + IndexKids(items[1..], start + 1)
  }

  /** A string enumerated by `for...in`: each property is one character, a
      one-character string, so each becomes a leaf under its index. */
  function CharKids(s: string, start: nat): (r: seq<Node>)
    ensures |r| == |s|
    ensures forall i :: 0 <= i < |s| ==> r[i] == Leaf(NatToString(start + i), [s[i]])
  {
    if s == [] then []
    else
      SanitizeDigits(start);
      [Leaf(SanitizeTag(NatToString(start)), [s[0]])] + CharKids(s[1..], start + 1)
  }

  /** The nodes one property contributes: an array gives one call per item
      under the property's tag, an object one call, anything else one leaf. */
  function PropertyNodes(key: string, val: Value): seq<Node>
    decreases val, 0
  {
    var tag := SanitizeTag(key);
    match val
    case Arr(items) => ItemTrees(items, tag)
    case Obj(fields) => [Group(tag, FieldKids(fields))]
    case _ => [Leaf(tag, ToJsString(val))]
  }

  /** `value.forEach(item => xml += toXml(item, tagName))`. */
  function ItemTrees(items: seq<Value>, tag: string): (r: seq<Node>)
    ensures |r| == |items|
    ensures forall i :: 0 <= i < |items| ==> r[i] == Group(tag, Kids(items[i]))
    decreases items, 0
  {
    if items == [] then []
    else [Group(tag, Kids(items[0]))] + ItemTrees(items[1..], tag)
  }

  lemma SanitizeDigits(n: nat)
    ensures SanitizeTag(NatToString(n)) == NatToString(n)
  {
    var d := NatToString(n);
    assert forall i :: 0 <= i < |d| ==> IsTagChar(d[i]) by {
      forall i | 0 <= i < |d|
        ensures IsTagChar(d[i])
      {
        assert IsDigit(d[i]);
      }
    }
  }

  // ---------------------------------------------------------------------------
  // Properties of the tree
  // ---------------------------------------------------------------------------

  /** Every tag the serializer writes below the root is a sanitized name. */
  lemma {:induction false} TreeWellTagged(data: Value, root: string)
    requires IsTagName(root)
    ensures WellTagged(Tree(data, root))
  {
    KidsWellTagged(data);
  }

  lemma {:induction false} KidsWellTagged(data: Value)
    ensures AllWellTagged(Kids(data))
    decreases data, 2
  {
    match data
    case Obj(fields) => FieldKidsWellTagged(fields);
    case Arr(items) => IndexKidsWellTagged(items, 0);
    case Str(s) => CharKidsWellTagged(s, 0);
    case _ =>
  }

  lemma {:induction false} AllWellTaggedAppend(a: seq<Node>, b: seq<Node>)
    requires AllWellTagged(a) && AllWellTagged(b)
    ensures AllWellTagged(a + b)
  {
    if a != [] {
      assert (a + b)[0] == a[0];
      assert (a + b)[1..] == a[1..] + b;
      AllWellTaggedAppend(a[1..], b);
    } else {
      assert a + b == b;
    }
  }

  lemma {:induction false} FieldKidsWellTagged(fields: seq<Field>)
    ensures AllWellTagged(FieldKids(fields))
    decreases fields, 1
  {
    if fields != [] {
      PropertyNodesWellTagged(fields[0].key, fields[0].val);
      FieldKidsWellTagged(fields[1..]);
      AllWellTaggedAppend(PropertyNodes(fields[0].key, fields[0].val), FieldKids(fields[1..]));
    }
  }

  lemma {:induction false} IndexKidsWellTagged(items: seq<Value>, start: nat)
    ensures AllWellTagged(IndexKids(items, start))
    decreases items, 1
  {
    if items != [] {
      PropertyNodesWellTagged(NatToString(start), items[0]);
      IndexKidsWellTagged(items[1..], start + 1);
      AllWellTaggedAppend(PropertyNodes(NatToString(start), items[0]), IndexKids(items[1..], start + 1));
    }
  }

  lemma {:induction false} CharKidsWellTagged(s: string, start: nat)
    ensures AllWellTagged(CharKids(s, start))
    decreases s
  {
    if s != [] {
      var r := CharKids(s, start);
      SanitizeDigits(start);
      assert r[1..] == CharKids(s[1..], start + 1);
      CharKidsWellTagged(s[1..], start + 1);
    }
  }

  lemma {:induction false} PropertyNodesWellTagged(key: string, val: Value)
    ensures AllWellTagged(PropertyNodes(key, val))
    decreases val, 1
  {
    match val
    case Arr(items) => ItemTreesWellTagged(items, SanitizeTag(key));
    case Obj(fields) =>
      FieldKidsWellTagged(fields);
      var r := PropertyNodes(key, val);
      assert r[1..] == [];
    case _ =>
      var r := PropertyNodes(key, val);
      assert r[1..] == [];
  }

  lemma {:induction false} ItemTreesWellTagged(items: seq<Value>, tag: string)
    requires IsTagName(tag)
    ensures AllWellTagged(ItemTrees(items, tag))
    decreases items, 1
  {
    if items != [] {
      KidsWellTagged(items[0]);
      ItemTreesWellTagged(items[1..], tag);
      assert ItemTrees(items, tag)[1..] == ItemTrees(items[1..], tag);
    }
  }

  /** Serializer output, once its markup is stripped and its entities decoded,
      is exactly the tree's leaf text (`TextOf`), in document order. */
  lemma ContentPreserved(data: Value, root: string)
    requires IsTagName(root)
    ensures XmlEscape.Unescape(StripMarkup(Render(Tree(data, root), ""))) == TextOf(Tree(data, root))
  {
    TreeWellTagged(data, root);
    ContentRecoverable(Tree(data, root));
  }

  // ---------------------------------------------------------------------------
  // A log of entries
  // ---------------------------------------------------------------------------

  /** `log.forEach(entry => xml += toXml(entry))`: one `event` call per entry,
      in log order. */
  function EntriesXml(log: seq<Value>, trailer: string): string
  {
    if log == [] then "" else Render(Tree(log[0], "event"), trailer) + EntriesXml(log[1..], trailer)
  }

  /** The entries' text is the concatenation of the parts' texts: an entry's
      position in the log is its position in the document. */
  lemma {:induction false} EntriesXmlAppend(a: seq<Value>, b: seq<Value>, trailer: string)
    ensures EntriesXml(a + b, trailer) == EntriesXml(a, trailer) + EntriesXml(b, trailer)
  {
    if a == [] {
      assert a + b == b;
    } else {
      assert (a + b)[0] == a[0];
      assert (a + b)[1..] == a[1..] + b;
      EntriesXmlAppend(a[1..], b, trailer);
    }
  }
}
