/** The ElementTree documents that the metadata parsers build and the lookups search.
    A document is an arena: element `i` is `d[i]`, the root is element 0, and an element
    refers to its children by index. Identity of an element object is its index. */
module XmlTree {
  import opened Base

  datatype Element = Element(tag: string, attrib: map<string, string>, text: Option<string>, children: seq<nat>)

  type Doc = seq<Element>

  const Root: nat := 0

  /** Every child index points into the document and past its parent, so the
      parent/child links form a forest rooted at element 0. */
  predicate WellFormed(d: Doc)
  {
    |d| > 0 &&
    forall i, k :: 0 <= i < |d| && 0 <= k < |d[i].children| ==> i < d[i].children[k] < |d|
  }

  /** `ET.Element(tag)` as the root of a new document. */
  function NewDoc(tag: string): (d: Doc)
    ensures WellFormed(d) && |d| == 1 && d[Root].tag == tag && d[Root].children == []
  {
    [Element(tag, map[], None, [])]
  }

  /** `ET.SubElement(d[p], tag)`: a fresh element, appended as the last child of `p`
      (see `SubElementShape`). */
  function SubElement(d: Doc, p: nat, tag: string): (r: Doc)
    requires WellFormed(d) && p < |d|
    ensures WellFormed(r) && |r| == |d| + 1
  {
    d[p := d[p].(children := d[p].children + [|d|])] + [Element(tag, map[], None, [])]
  }

  lemma SubElementShape(d: Doc, p: nat, tag: string)
    requires WellFormed(d) && p < |d|
    ensures var r := SubElement(d, p, tag);
      r[|d|] == Element(tag, map[], None, []) &&
      r[p] == d[p].(children := d[p].children + [|d|]) &&
      forall i :: 0 <= i < |d| && i != p ==> r[i] == d[i]
  {
  }

  /** `child = ET.SubElement(d[p], tag); child.text = text` (see `AddTextChildShape`). */
  function AddTextChild(d: Doc, p: nat, tag: string, text: string): (r: Doc)
    requires WellFormed(d) && p < |d|
    ensures WellFormed(r) && |r| == |d| + 1
  {
    var e := SubElement(d, p, tag);
    e[|d| := e[|d|].(text := Some(text))]
  }

  lemma AddTextChildShape(d: Doc, p: nat, tag: string, text: string)
    requires WellFormed(d) && p < |d|
    ensures var r := AddTextChild(d, p, tag, text);
      r[|d|] == Element(tag, map[], Some(text), []) &&
      r[p] == d[p].(children := d[p].children + [|d|]) &&
      forall i :: 0 <= i < |d| && i != p ==> r[i] == d[i]
  {
    SubElementShape(d, p, tag);
  }

  /** `child = ET.SubElement(d[p], tag); child.set(key, value)` (see `AddAttribChildShape`). */
  function AddAttribChild(d: Doc, p: nat, tag: string, key: string, value: string): (r: Doc)
    requires WellFormed(d) && p < |d|
    ensures WellFormed(r) && |r| == |d| + 1
  {
    var e := SubElement(d, p, tag);
    e[|d| := e[|d|].(attrib := map[key := value])]
  }

  lemma AddAttribChildShape(d: Doc, p: nat, tag: string, key: string, value: string)
    requires WellFormed(d) && p < |d|
    ensures var r := AddAttribChild(d, p, tag, key, value);
      r[|d|] == Element(tag, map[key := value], None, []) &&
      r[p] == d[p].(children := d[p].children + [|d|]) &&
      forall i :: 0 <= i < |d| && i != p ==> r[i] == d[i]
  {
    SubElementShape(d, p, tag);
  }

  /** `d[i].set(key, value)` (see `SetAttribShape`). */
  function SetAttrib(d: Doc, i: nat, key: string, value: string): (r: Doc)
    requires WellFormed(d) && i < |d|
    ensures WellFormed(r) && |r| == |d|
  {
    d[i := d[i].(attrib := d[i].attrib[key := value])]
  }

  lemma SetAttribShape(d: Doc, i: nat, key: string, value: string)
    requires WellFormed(d) && i < |d|
    ensures var r := SetAttrib(d, i, key, value);
      r[i] == d[i].(attrib := d[i].attrib[key := value]) &&
      forall j :: 0 <= j < |d| && j != i ==> r[j] == d[j]
  {
  }

  /** The indices `cs`, each moved up by `off`. */
  function ShiftAll(cs: seq<nat>, off: nat): (r: seq<nat>)
    ensures |r| == |cs| && forall k :: 0 <= k < |cs| ==> r[k] == cs[k] + off
  {
    seq(|cs|, k requires 0 <= k < |cs| => cs[k] + off)
  }

  /** The tree `t` placed after `off` other elements: every child index moves up by `off`. */
  function Shifted(t: Doc, off: nat): (r: Doc)
    ensures |r| == |t|
    ensures forall i :: 0 <= i < |t| ==> r[i] == t[i].(children := ShiftAll(t[i].children, off))
  {
    seq(|t|, i requires 0 <= i < |t| => t[i].(children := ShiftAll(t[i].children, off)))
  }

  /** `d[p].append(e)`, where `e` is the root of the separate tree `t`: all of `t` is placed
      after the elements of `d` and its root becomes the last child of `p` (see `GraftShape`). */
  function Graft(d: Doc, p: nat, t: Doc): (r: Doc)
    requires WellFormed(d) && p < |d| && WellFormed(t)
    ensures WellFormed(r) && |r| == |d| + |t|
  {
    var r := d[p := d[p].(children := d[p].children + [|d|])] + Shifted(t, |d|);
    assert forall i :: |d| <= i < |r| ==> r[i].children == ShiftAll(t[i - |d|].children, |d|);
    r
  }

  lemma GraftShape(d: Doc, p: nat, t: Doc)
    requires WellFormed(d) && p < |d| && WellFormed(t)
    ensures var r := Graft(d, p, t);
      r[p] == d[p].(children := d[p].children + [|d|]) &&
      (forall i :: 0 <= i < |d| && i != p ==> r[i] == d[i]) &&
      (forall i :: 0 <= i < |t| ==> r[|d| + i] == t[i].(children := ShiftAll(t[i].children, |d|)))
  {
  }

  /** `d2` grows `d`: no element changes its tag and children are only appended. */
  ghost predicate Extends(d: Doc, d2: Doc)
  {
    |d| <= |d2| &&
    forall i :: 0 <= i < |d| ==> d2[i].tag == d[i].tag && d[i].children <= d2[i].children
  }

  lemma SubElementExtends(d: Doc, p: nat, tag: string)
    requires WellFormed(d) && p < |d|
    ensures Extends(d, SubElement(d, p, tag))
  {
    var d2 := SubElement(d, p, tag);
    SubElementShape(d, p, tag);
    assert d2[p].children == d[p].children + [|d|];
  }

  lemma AddTextChildExtends(d: Doc, p: nat, tag: string, text: string)
    requires WellFormed(d) && p < |d|
    ensures Extends(d, AddTextChild(d, p, tag, text))
  {
    var d2 := AddTextChild(d, p, tag, text);
    AddTextChildShape(d, p, tag, text);
    assert d2[p].children == d[p].children + [|d|];
  }

  lemma AddAttribChildExtends(d: Doc, p: nat, tag: string, key: string, value: string)
    requires WellFormed(d) && p < |d|
    ensures Extends(d, AddAttribChild(d, p, tag, key, value))
  {
    var d2 := AddAttribChild(d, p, tag, key, value);
    AddAttribChildShape(d, p, tag, key, value);
    assert d2[p].children == d[p].children + [|d|];
  }

  lemma SetAttribExtends(d: Doc, i: nat, key: string, value: string)
    requires WellFormed(d) && i < |d|
    ensures Extends(d, SetAttrib(d, i, key, value))
  {
    SetAttribShape(d, i, key, value);
  }

  /** `d[i].getiterator()`: `i` and all its descendants in document (pre-)order. */
  function Iter(d: Doc, i: nat): (r: seq<nat>)
    requires WellFormed(d) && i < |d|
    ensures |r| > 0 && r[0] == i
    ensures forall k :: 1 <= k < |r| ==> i < r[k] < |d|
    decreases |d| - i, 1
  {
    [i] + IterFrom(d, i, 0)
  }

  /** The preorder of the subtrees of the children `k..` of `i`. */
  function IterFrom(d: Doc, i: nat, k: nat): (r: seq<nat>)
    requires WellFormed(d) && i < |d| && k <= |d[i].children|
    ensures forall m :: 0 <= m < |r| ==> i < r[m] < |d|
    decreases |d| - i, 0, |d[i].children| - k
  {
    if k == |d[i].children| then []
    else Iter(d, d[i].children[k]) + IterFrom(d, i, k + 1)
  }

  /** The elements of `ns` whose tag is `tag`, in the order of `ns`. */
  function Tagged(d: Doc, ns: seq<nat>, tag: string): (r: seq<nat>)
    requires forall k :: 0 <= k < |ns| ==> ns[k] < |d|
    ensures |r| <= |ns|
    ensures forall n :: n in r <==> n in ns && d[n].tag == tag
  {
    if ns == [] then []
    else assert ns[0] in ns; (if d[ns[0]].tag == tag then [ns[0]] else []) + Tagged(d, ns[1..], tag)
  }

  /** `d[i].findall(".//tag")`: the descendants of `i` (not `i` itself) tagged `tag`. */
  function FindAll(d: Doc, i: nat, tag: string): (r: seq<nat>)
    requires WellFormed(d) && i < |d|
    ensures forall n :: n in r ==> i < n < |d| && d[n].tag == tag
    ensures forall k :: 0 <= k < |r| ==> i < r[k] < |d| && d[r[k]].tag == tag
  {
    var below := Iter(d, i)[1..];
    assert forall k :: 0 <= k < |below| ==> i < below[k] < |d|;
    var r := Tagged(d, below, tag);
    assert forall k :: 0 <= k < |r| ==> r[k] in r;
    r
  }

  /** `d[i].find(".//tag")`: the first such descendant in document order. */
  function Find(d: Doc, i: nat, tag: string): (r: Option<nat>)
    requires WellFormed(d) && i < |d|
    ensures r.Some? <==> FindAll(d, i, tag) != []
    ensures r.Some? ==> r.value == FindAll(d, i, tag)[0] && i < r.value < |d| && d[r.value].tag == tag
  {
    var all := FindAll(d, i, tag);
    if all == [] then None else Some(all[0])
  }

  /** `j` lies below `i`: it is a child of `i`, or lies below one of its children. */
  predicate Descendant(d: Doc, i: nat, j: nat)
    requires WellFormed(d) && i < |d|
    decreases |d| - i
  {
    exists k :: 0 <= k < |d[i].children| &&
      (d[i].children[k] == j || Descendant(d, d[i].children[k], j))
  }

  /** Besides `i` itself, `getiterator()` lists exactly the descendants of `i`. */
  lemma {:induction false} IterDescendants(d: Doc, i: nat, j: nat)
    requires WellFormed(d) && i < |d|
    ensures j in Iter(d, i)[1..] <==> Descendant(d, i, j)
    decreases |d| - i, 1
  {
    assert Iter(d, i)[1..] == IterFrom(d, i, 0);
    IterFromDescendants(d, i, 0, j);
  }

  /** The subtrees of the children `k..` of `i` hold exactly what lies below those children. */
  lemma {:induction false} IterFromDescendants(d: Doc, i: nat, k: nat, j: nat)
    requires WellFormed(d) && i < |d| && k <= |d[i].children|
    ensures j in IterFrom(d, i, k) <==>
      exists m :: k <= m < |d[i].children| && (d[i].children[m] == j || Descendant(d, d[i].children[m], j))
    decreases |d| - i, 0, |d[i].children| - k
  {
    if k < |d[i].children| {
      var c := d[i].children[k];
      IterDescendants(d, c, j);
      IterFromDescendants(d, i, k + 1, j);
      var t := Iter(d, c);
      assert t == [c] + t[1..];
      assert j in t <==> j == c || j in t[1..];
      assert IterFrom(d, i, k) == t + IterFrom(d, i, k + 1);
    }
  }

  /** `findall(".//tag")` is complete: it lists exactly the descendants that carry the tag. */
  lemma FindAllComplete(d: Doc, i: nat, tag: string, n: nat)
    requires WellFormed(d) && i < |d|
    ensures n in FindAll(d, i, tag) <==> Descendant(d, i, n) && n < |d| && d[n].tag == tag
  {
    IterDescendants(d, i, n);
  }

  /** `d[i].findall("tag")`: the direct children of `i` tagged `tag`. */
  function ChildrenTagged(d: Doc, i: nat, tag: string): (r: seq<nat>)
    requires WellFormed(d) && i < |d|
    ensures forall n :: n in r <==> n in d[i].children && d[n].tag == tag
    ensures forall k :: 0 <= k < |r| ==> r[k] < |d|
  {
    var r := Tagged(d, d[i].children, tag);
    assert forall k :: 0 <= k < |r| ==> r[k] in r && r[k] in d[i].children;
    r
  }
}
