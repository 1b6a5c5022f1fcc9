/** The parsed XML response, as the XML parser hands it to the feed client. */
module XmlTree {

  /** An element: its tag, its attributes, and its child elements in document order. */
  datatype Element = Element(tag: string, attrib: map<string, string>, children: seq<Element>)

  /** The elements of `cs` whose tag is one of `kinds`, in document order. */
  function OfKind(cs: seq<Element>, kinds: set<string>): (r: seq<Element>)
    ensures |r| <= |cs|
    ensures forall c :: c in r ==> c in cs && c.tag in kinds
  {
    if cs == [] then []
    else if cs[0].tag in kinds then [cs[0]] + OfKind(cs[1..], kinds)
    else OfKind(cs[1..], kinds)
  }

  /** The values that attribute `name` takes over the elements of `cs`. */
  function AttrValues(cs: seq<Element>, name: string): set<string>
  {
    set c | c in cs && name in c.attrib :: c.attrib[name]
  }

  /** `cs[i]` is the last element of `cs` whose attribute `name` is `v`. */
  predicate LastWithAttr(cs: seq<Element>, i: int, name: string, v: string)
  {
    && 0 <= i < |cs|
    && name in cs[i].attrib && cs[i].attrib[name] == v
    && forall j :: i < j < |cs| ==> name !in cs[j].attrib || cs[j].attrib[name] != v
  }

  /** `cs[i]` is the last element of `cs` with tag `kind` whose attribute `name` is `v`. */
  predicate LastOfKind(cs: seq<Element>, i: int, kind: string, name: string, v: string)
  {
    && 0 <= i < |cs|
    && cs[i].tag == kind && name in cs[i].attrib && cs[i].attrib[name] == v
    && forall j :: i < j < |cs| ==> cs[j].tag != kind || name !in cs[j].attrib || cs[j].attrib[name] != v
  }

  /** The `name` values of the children of kind `kind`, after one more child. */
  lemma AttrValuesOfKindSnoc(cs: seq<Element>, c: Element, kind: string, name: string)
    ensures AttrValues(OfKind(cs + [c], {kind}), name)
         == AttrValues(OfKind(cs, {kind}), name) + (if c.tag == kind && name in c.attrib then {c.attrib[name]} else {})
  {
    OfKindSnoc(cs, c, {kind});
    AttrValuesSnoc(OfKind(cs, {kind}), c, name);
    if c.tag != kind {
      assert OfKind(cs + [c], {kind}) == OfKind(cs, {kind});
    }
  }

  lemma SuffixLast(cs: seq<Element>, k: nat)
    requires k < |cs|
    ensures cs[k..] == cs[..|cs| - 1][k..] + [cs[|cs| - 1]]
  {
  }

  lemma LastOfKindPrefix(cs: seq<Element>, i: int, kind: string, name: string, v: string)
    requires LastOfKind(cs, i, kind, name, v) && i < |cs| - 1
    ensures LastOfKind(cs[..|cs| - 1], i, kind, name, v)
  {
  }

  lemma {:induction false} OfKindSnoc(cs: seq<Element>, c: Element, kinds: set<string>)
    ensures OfKind(cs + [c], kinds) == OfKind(cs, kinds) + (if c.tag in kinds then [c] else [])
    decreases |cs|
  {
    if cs == [] {
      assert [c][1..] == [];
    } else {
      assert (cs + [c])[1..] == cs[1..] + [c];
      OfKindSnoc(cs[1..], c, kinds);
    }
  }

  lemma AttrValuesSnoc(cs: seq<Element>, c: Element, name: string)
    ensures AttrValues(cs + [c], name)
         == AttrValues(cs, name) + (if name in c.attrib then {c.attrib[name]} else {})
  {
    var l := AttrValues(cs + [c], name);
    var r := AttrValues(cs, name) + (if name in c.attrib then {c.attrib[name]} else {});
    forall v | v in l ensures v in r {
      var d :| d in cs + [c] && name in d.attrib && d.attrib[name] == v;
      if d != c { assert d in cs; }
    }
    forall v | v in r ensures v in l {
      if v in AttrValues(cs, name) {
        var d :| d in cs && name in d.attrib && d.attrib[name] == v;
        assert d in cs + [c];
      } else {
        assert c in cs + [c];
      }
    }
  }
}
