/** The tree `WriteOutputMetadata` writes next to an orthorectified image: an `IMD` root
    holding the processing facts (`PGC_IMD`) and the provenance of the image (`SOURCE_IMD`),
    under which the vendor's own `IMD` block is copied when there is one. */
module OutputMetadata {
  import opened Base
  import opened XmlTree

  /** What the tree is built from: the run's options and image facts, and the vendor `IMD`
      element gathered from the vendor's metadata file (None when a DigitalGlobe file has no
      `IMD`). */
  datatype Inputs = Inputs(
    processDate: string,     // `datetime.today()` formatted
    dem: Option<string>,     // `opt.dem`
    stretch: string,         // `info.stretch`
    outtype: string,         // `opt.outtype`
    format: string,          // `opt.format`
    localsrc: string,        // `info.localsrc`
    vendor: string,          // `info.vendor`
    imd: Option<Doc>)

  /** The vendors for which `imd` is bound. */
  predicate KnownVendor(vendor: string)
  {
    vendor == "DigitalGlobe" || vendor == "GeoEye"
  }

  /** `dMD["ORTHO_DEM"]`: the DEM's file name, or "None" when no (or an empty) DEM is given. */
  function OrthoDem(dem: Option<string>): string
  {
    if dem.Some? && dem.value != "" then Basename(dem.value) else "None"
  }

  /** The five `dMD` entries, as (tag, text) pairs, in the order they are written. */
  function CustomEntries(x: Inputs): seq<(string, string)>
  {
    [("PROCESS_DATE", x.processDate), ("ORTHO_DEM", OrthoDem(x.dem)), ("STRETCH", x.stretch),
     ("BITDEPTH", x.outtype), ("FORMAT", x.format)]
  }

  /** `for tag in dMD: child = ET.SubElement(pgcmd, tag); child.text = dMD[tag]`. */
  function AddEntries(d: Doc, p: nat, es: seq<(string, string)>): (r: Doc)
    requires WellFormed(d) && p < |d|
    ensures WellFormed(r) && |r| == |d| + |es|
    decreases |es|
  {
    if es == [] then d else AddEntries(AddTextChild(d, p, es[0].0, es[0].1), p, es[1..])
  }

  /** The tree written, or the NameError raised at `if imd is not None` when the vendor is
      neither DigitalGlobe nor GeoEye. */
  function OutputTree(x: Inputs): (r: Result<Doc>)
    requires x.imd.Some? ==> WellFormed(x.imd.value)
    ensures r.Err? <==> !KnownVendor(x.vendor)
    ensures r.Err? ==> r.error == NameError
    ensures r.Ok? ==> WellFormed(r.value) && |r.value| == 10 + (if x.imd.Some? then |x.imd.value| else 0)
  {
    if !KnownVendor(x.vendor) then Err(NameError)
    else
      var d := SourcePart(ProcessingPart(x), x);
      Ok(if x.imd.Some? then Graft(d, 7, x.imd.value) else d)
  }

  /** `root = ET.Element("IMD"); root.append(pgcmd)` with `pgcmd` holding the entries. */
  function ProcessingPart(x: Inputs): (d: Doc)
    ensures WellFormed(d) && |d| == 7
  {
    AddEntries(SubElement(NewDoc("IMD"), Root, "PGC_IMD"), 1, CustomEntries(x))
  }

  /** `ref = ET.SubElement(root, "SOURCE_IMD")` with its `SOURCE_IMAGE` and `VENDOR`. */
  function SourcePart(d: Doc, x: Inputs): (r: Doc)
    requires WellFormed(d) && |d| == 7
    ensures WellFormed(r) && |r| == 10
  {
    var d2 := SubElement(d, Root, "SOURCE_IMD");
    var d3 := AddTextChild(d2, 7, "SOURCE_IMAGE", Basename(x.localsrc));
    AddTextChild(d3, 7, "VENDOR", x.vendor)
  }

  // ---------------------------------------------------------------------------
  // The shape of the tree
  // ---------------------------------------------------------------------------

  /** The entries become the next children of `p`, in order, each with its text and nothing
      else; no other element changes. */
  lemma {:induction false} AddEntriesShape(d: Doc, p: nat, es: seq<(string, string)>)
    requires WellFormed(d) && p < |d|
    ensures var r := AddEntries(d, p, es);
      r[p].tag == d[p].tag && r[p].attrib == d[p].attrib && r[p].text == d[p].text &&
      r[p].children == d[p].children + seq(|es|, k => |d| + k) &&
      (forall i :: 0 <= i < |d| && i != p ==> r[i] == d[i]) &&
      (forall k :: 0 <= k < |es| ==> r[|d| + k] == Element(es[k].0, map[], Some(es[k].1), []))
    decreases |es|
  {
    if es != [] {
      var d1 := AddTextChild(d, p, es[0].0, es[0].1);
      AddTextChildShape(d, p, es[0].0, es[0].1);
      AddEntriesShape(d1, p, es[1..]);
      var r := AddEntries(d, p, es);
      assert r[p].children == d[p].children + [|d|] + seq(|es| - 1, k => |d| + 1 + k);
      assert [|d|] + seq(|es| - 1, k => |d| + 1 + k) == seq(|es|, k => |d| + k);
      assert r[p].children == d[p].children + seq(|es|, k => |d| + k);
      forall k | 1 <= k < |es|
        ensures r[|d| + k] == Element(es[k].0, map[], Some(es[k].1), [])
      {
        assert es[1..][k - 1] == es[k];
      }
    }
  }

  /** The elements of the tree, one by one: `IMD` holds `PGC_IMD` (element 1, with the five
      entries as elements 2 to 6) and `SOURCE_IMD` (element 7, holding `SOURCE_IMAGE`,
      `VENDOR` and, when there is one, the copy of the vendor `IMD` from element 10 on). */
  lemma OutputShape(x: Inputs)
    requires x.imd.Some? ==> WellFormed(x.imd.value)
    requires KnownVendor(x.vendor)
    ensures Written(OutputTree(x).value, x)
  {
    var d := SourcePart(ProcessingPart(x), x);
    BaseShape(x);
    if x.imd.Some? {
      GraftedShape(d, x.imd.value);
    }
  }

  /** The layout of the tree written for `x`. */
  ghost predicate Written(r: Doc, x: Inputs)
  {
    var es := CustomEntries(x);
    |r| == 10 + (if x.imd.Some? then |x.imd.value| else 0) &&
    r[Root] == Element("IMD", map[], None, [1, 7]) &&
    r[1] == Element("PGC_IMD", map[], None, [2, 3, 4, 5, 6]) &&
    (forall k :: 0 <= k < 5 ==> r[2 + k] == Element(es[k].0, map[], Some(es[k].1), [])) &&
    r[7] == Element("SOURCE_IMD", map[], None, if x.imd.Some? then [8, 9, 10] else [8, 9]) &&
    r[8] == Element("SOURCE_IMAGE", map[], Some(Basename(x.localsrc)), []) &&
    r[9] == Element("VENDOR", map[], Some(x.vendor), []) &&
    (x.imd.Some? ==> forall i :: 0 <= i < |x.imd.value| ==>
       r[10 + i] == x.imd.value[i].(children := ShiftAll(x.imd.value[i].children, 10)))
  }

  /** The tree before the vendor `IMD` is appended. */
  lemma BaseShape(x: Inputs)
    ensures var r := SourcePart(ProcessingPart(x), x); var es := CustomEntries(x);
      r[Root] == Element("IMD", map[], None, [1, 7]) &&
      r[1] == Element("PGC_IMD", map[], None, [2, 3, 4, 5, 6]) &&
      (forall k :: 0 <= k < 5 ==> r[2 + k] == Element(es[k].0, map[], Some(es[k].1), [])) &&
      r[7] == Element("SOURCE_IMD", map[], None, [8, 9]) &&
      r[8] == Element("SOURCE_IMAGE", map[], Some(Basename(x.localsrc)), []) &&
      r[9] == Element("VENDOR", map[], Some(x.vendor), [])
  {
    ProcessingShape(x);
    SourceShape(ProcessingPart(x), x);
  }

  /** Appending the vendor `IMD` under `SOURCE_IMD` leaves the first ten elements as they were,
      apart from the new child of element 7. */
  lemma GraftedShape(d: Doc, t: Doc)
    requires WellFormed(d) && |d| == 10 && WellFormed(t) && d[7].children == [8, 9]
    ensures var r := Graft(d, 7, t);
      (forall i :: 0 <= i < 10 && i != 7 ==> r[i] == d[i]) &&
      r[7] == d[7].(children := [8, 9, 10]) &&
      (forall i :: 0 <= i < |t| ==> r[10 + i] == t[i].(children := ShiftAll(t[i].children, 10)))
  {
    GraftShape(d, 7, t);
  }

  lemma ProcessingShape(x: Inputs)
    ensures var r := ProcessingPart(x); var es := CustomEntries(x);
      r[Root] == Element("IMD", map[], None, [1]) &&
      r[1] == Element("PGC_IMD", map[], None, [2, 3, 4, 5, 6]) &&
      (forall k :: 0 <= k < 5 ==> r[2 + k] == Element(es[k].0, map[], Some(es[k].1), []))
  {
    var es := CustomEntries(x);
    var d0 := SubElement(NewDoc("IMD"), Root, "PGC_IMD");
    SubElementShape(NewDoc("IMD"), Root, "PGC_IMD");
    AddEntriesShape(d0, 1, es);
    assert seq(|es|, k => |d0| + k) == [2, 3, 4, 5, 6];
  }

  lemma SourceShape(d: Doc, x: Inputs)
    requires WellFormed(d) && |d| == 7 && d[Root].children == [1]
    ensures var r := SourcePart(d, x);
      r[Root] == d[Root].(children := [1, 7]) &&
      (forall i :: 1 <= i < 7 ==> r[i] == d[i]) &&
      r[7] == Element("SOURCE_IMD", map[], None, [8, 9]) &&
      r[8] == Element("SOURCE_IMAGE", map[], Some(Basename(x.localsrc)), []) &&
      r[9] == Element("VENDOR", map[], Some(x.vendor), [])
  {
    SourceHeadShape(d);
    SourceTailShape(SubElement(d, Root, "SOURCE_IMD"), Basename(x.localsrc), x.vendor);
  }

  lemma SourceTailShape(d: Doc, src: string, vendor: string)
    requires WellFormed(d) && |d| == 8 && d[7].children == []
    ensures var r := AddTextChild(AddTextChild(d, 7, "SOURCE_IMAGE", src), 7, "VENDOR", vendor);
      (forall i :: 0 <= i < 7 ==> r[i] == d[i]) &&
      r[7] == d[7].(children := [8, 9]) &&
      r[8] == Element("SOURCE_IMAGE", map[], Some(src), []) &&
      r[9] == Element("VENDOR", map[], Some(vendor), [])
  {
    var d3 := AddTextChild(d, 7, "SOURCE_IMAGE", src);
    AddTextChildShape(d, 7, "SOURCE_IMAGE", src);
    AddTextChildShape(d3, 7, "VENDOR", vendor);
  }

  lemma SourceHeadShape(d: Doc)
    requires WellFormed(d) && |d| == 7 && d[Root].children == [1]
    ensures var r := SubElement(d, Root, "SOURCE_IMD");
      r[Root] == d[Root].(children := [1, 7]) &&
      (forall i :: 1 <= i < 7 ==> r[i] == d[i]) &&
      r[7] == Element("SOURCE_IMD", map[], None, [])
  {
    SubElementShape(d, Root, "SOURCE_IMD");
  }

  // ---------------------------------------------------------------------------
  // Reading the tree back
  // ---------------------------------------------------------------------------

  /** The text a reader gets from `root.find(".//tag").text`, None when no element has `tag`. */
  function TextOf(d: Doc, tag: string): (r: Option<string>)
    requires WellFormed(d)
    ensures r.Some? ==> Find(d, Root, tag).Some?
  {
    match Find(d, Root, tag)
    case None => None
    case Some(n) => d[n].text
  }

  lemma {:induction false} TaggedAppend(d: Doc, a: seq<nat>, b: seq<nat>, tag: string)
    requires forall k :: 0 <= k < |a| ==> a[k] < |d|
    requires forall k :: 0 <= k < |b| ==> b[k] < |d|
    ensures Tagged(d, a + b, tag) == Tagged(d, a, tag) + Tagged(d, b, tag)
  {
    if a == [] {
      assert a + b == b;
    } else {
      assert (a + b)[0] == a[0];
      assert (a + b)[1..] == a[1..] + b;
      TaggedAppend(d, a[1..], b, tag);
    }
  }

  lemma IterLeaf(d: Doc, i: nat)
    requires WellFormed(d) && i < |d| && d[i].children == []
    ensures Iter(d, i) == [i]
  {
    assert IterFrom(d, i, 0) == [];
  }

  /** Children that are leaves are listed as they are. */
  lemma {:induction false} IterLeaves(d: Doc, i: nat, k: nat)
    requires WellFormed(d) && i < |d| && k <= |d[i].children|
    requires forall m :: k <= m < |d[i].children| ==> d[d[i].children[m]].children == []
    ensures IterFrom(d, i, k) == d[i].children[k..]
    decreases |d[i].children| - k
  {
    if k < |d[i].children| {
      IterLeaf(d, d[i].children[k]);
      IterLeaves(d, i, k + 1);
      assert d[i].children[k..] == [d[i].children[k]] + d[i].children[k + 1..];
    }
  }

  /** An element whose children are all leaves is listed with its children after it. */
  lemma IterOfLeaves(d: Doc, i: nat)
    requires WellFormed(d) && i < |d|
    requires forall m :: 0 <= m < |d[i].children| ==> d[d[i].children[m]].children == []
    ensures Iter(d, i) == [i] + d[i].children
  {
    IterLeaves(d, i, 0);
    assert d[i].children[0..] == d[i].children;
  }

  lemma EntriesOrder(r: Doc)
    requires WellFormed(r) && |r| >= 7 && r[1].children == [2, 3, 4, 5, 6]
    requires forall i :: 2 <= i < 7 ==> r[i].children == []
    ensures Iter(r, 1) == [1] + r[1].children
  {
    var cs := r[1].children;
    forall m | 0 <= m < |cs| ensures r[cs[m]].children == [] {
      assert 2 <= cs[m] < 7;
    }
    IterOfLeaves(r, 1);
  }

  lemma SourceOrder(r: Doc) returns (rest: seq<nat>)
    requires WellFormed(r) && |r| >= 10
    requires r[7].children == [8, 9] || r[7].children == [8, 9, 10]
    requires r[8].children == [] && r[9].children == []
    ensures Iter(r, 7) == [7] + [8] + [9] + rest
    ensures forall k :: 0 <= k < |rest| ==> rest[k] < |r|
  {
    if |r[7].children| == 3 {
      rest := SourceOrderWithImd(r);
    } else {
      rest := [];
      SourceOrderBare(r);
    }
  }

  /** `SOURCE_IMD` without a copied vendor `IMD`. */
  lemma SourceOrderBare(r: Doc)
    requires WellFormed(r) && |r| >= 10 && r[7].children == [8, 9]
    requires r[8].children == [] && r[9].children == []
    ensures Iter(r, 7) == [7] + [8] + [9]
  {
    IterLeaf(r, 8); IterLeaf(r, 9);
    assert IterFrom(r, 7, 2) == [];
    assert IterFrom(r, 7, 1) == [9];
  }

  /** `SOURCE_IMD` with the copied vendor `IMD` (element 10) last. */
  lemma SourceOrderWithImd(r: Doc) returns (rest: seq<nat>)
    requires WellFormed(r) && |r| >= 10 && r[7].children == [8, 9, 10]
    requires r[8].children == [] && r[9].children == []
    ensures Iter(r, 7) == [7] + [8] + [9] + rest
    ensures forall k :: 0 <= k < |rest| ==> rest[k] < |r|
  {
    assert r[7].children[2] == 10;
    IterLeaf(r, 8); IterLeaf(r, 9);
    rest := Iter(r, 10);
    assert IterFrom(r, 7, 3) == [];
    assert IterFrom(r, 7, 2) == rest;
    assert IterFrom(r, 7, 1) == [9] + rest;
  }

  lemma Join(a: seq<nat>, b: seq<nat>, c: seq<nat>, rest: seq<nat>)
    requires a == [1] + b && b == [2, 3, 4, 5, 6] && c == [7] + [8] + [9] + rest
    ensures a + c == seq(9, k => k + 1) + rest
  {
    assert seq(9, k => k + 1) == [1, 2, 3, 4, 5, 6, 7, 8, 9];
  }

  /** In document order the tree lists `PGC_IMD` and its entries, then `SOURCE_IMD`,
      `SOURCE_IMAGE` and `VENDOR`, and only then the copied vendor elements. */
  lemma OutputOrder(r: Doc) returns (rest: seq<nat>)
    requires WellFormed(r) && |r| >= 10
    requires r[Root].children == [1, 7] && r[1].children == [2, 3, 4, 5, 6]
    requires forall i :: 2 <= i < 7 ==> r[i].children == []
    requires r[7].children == [8, 9] || r[7].children == [8, 9, 10]
    requires r[8].children == [] && r[9].children == []
    ensures Iter(r, Root)[1..] == seq(9, k => k + 1) + rest
    ensures forall k :: 0 <= k < |rest| ==> rest[k] < |r|
  {
    EntriesOrder(r);
    rest := SourceOrder(r);
    assert IterFrom(r, Root, 2) == [];
    assert IterFrom(r, Root, 1) == Iter(r, 7);
    assert Iter(r, Root)[1..] == Iter(r, 1) + Iter(r, 7);
    Join(Iter(r, 1), r[1].children, Iter(r, 7), rest);
  }

  /** The first element of `pre + rest` tagged `tag` is the only one of `pre` that is. */
  lemma TaggedFirst(d: Doc, pre: seq<nat>, rest: seq<nat>, tag: string, m: nat)
    requires forall k :: 0 <= k < |pre| ==> pre[k] < |d|
    requires forall k :: 0 <= k < |rest| ==> rest[k] < |d|
    requires m < |pre| && forall k :: 0 <= k < |pre| ==> (d[pre[k]].tag == tag <==> k == m)
    ensures var t := Tagged(d, pre + rest, tag); t != [] && t[0] == pre[m]
  {
    TaggedAppend(d, pre, rest, tag);
    var t := Tagged(d, pre, tag);
    assert pre[m] in pre;
    assert pre[m] in t;
    assert t[0] in t;
    var k :| 0 <= k < |pre| && pre[k] == t[0];
  }

  /** `find` returns the only element of `pre`, which comes first in document order,
      carrying `tag`. */
  lemma FindAmongFirst(r: Doc, pre: seq<nat>, rest: seq<nat>, tag: string, m: nat)
    requires WellFormed(r)
    requires Iter(r, Root)[1..] == pre + rest
    requires forall k :: 0 <= k < |pre| ==> pre[k] < |r|
    requires forall k :: 0 <= k < |rest| ==> rest[k] < |r|
    requires m < |pre| && forall k :: 0 <= k < |pre| ==> (r[pre[k]].tag == tag <==> k == m)
    ensures Find(r, Root, tag) == Some(pre[m])
  {
    TaggedFirst(r, pre, rest, tag, m);
  }

  /** The tags of elements 1 to 9 of the written tree, in order. */
  const WrittenTags: seq<string> := ["PGC_IMD", "PROCESS_DATE", "ORTHO_DEM", "STRETCH", "BITDEPTH",
    "FORMAT", "SOURCE_IMD", "SOURCE_IMAGE", "VENDOR"]

  lemma WrittenTagsUnique()
    ensures forall a, b ::
      0 <= a < |WrittenTags| && 0 <= b < |WrittenTags| && WrittenTags[a] == WrittenTags[b] ==> a == b
  {
  }

  /** The first nine elements of the written tree carry different tags. */
  lemma WrittenTagsDistinct(r: Doc, x: Inputs)
    requires Written(r, x)
    ensures forall a, b :: 1 <= a <= 9 && 1 <= b <= 9 && r[a].tag == r[b].tag ==> a == b
  {
    WrittenEntry(r, x, 0);
    WrittenEntry(r, x, 1);
    WrittenEntry(r, x, 2);
    WrittenEntry(r, x, 3);
    WrittenEntry(r, x, 4);
    TableTagsDistinct(r);
  }

  /** Elements 1 to 9 tagged as in `WrittenTags` carry different tags. */
  lemma TableTagsDistinct(r: Doc)
    requires |r| >= 10
    requires r[1].tag == "PGC_IMD" && r[2].tag == "PROCESS_DATE" && r[3].tag == "ORTHO_DEM"
    requires r[4].tag == "STRETCH" && r[5].tag == "BITDEPTH" && r[6].tag == "FORMAT"
    requires r[7].tag == "SOURCE_IMD" && r[8].tag == "SOURCE_IMAGE" && r[9].tag == "VENDOR"
    ensures forall a, b :: 1 <= a <= 9 && 1 <= b <= 9 && r[a].tag == r[b].tag ==> a == b
  {
    assert forall a :: 1 <= a <= 9 ==> r[a].tag == WrittenTags[a - 1];
    WrittenTagsUnique();
  }

  lemma WrittenEntry(r: Doc, x: Inputs, k: nat)
    requires Written(r, x) && k < 5
    ensures r[2 + k].tag == CustomEntries(x)[k].0 && r[2 + k].text == Some(CustomEntries(x)[k].1)
    ensures r[2 + k].children == []
  {
  }

  /** A reader of the written tree finds, by tag, each `PGC_IMD` entry with the value written
      for it, and the source image's file name and the vendor under `SOURCE_IMD`; the copied
      vendor elements come later in document order and do not hide them. */
  lemma ReadBack(x: Inputs)
    requires x.imd.Some? ==> WellFormed(x.imd.value)
    requires KnownVendor(x.vendor)
    ensures var r := OutputTree(x).value;
      TextOf(r, "PROCESS_DATE") == Some(x.processDate) &&
      TextOf(r, "ORTHO_DEM") == Some(OrthoDem(x.dem)) &&
      TextOf(r, "STRETCH") == Some(x.stretch) &&
      TextOf(r, "BITDEPTH") == Some(x.outtype) &&
      TextOf(r, "FORMAT") == Some(x.format) &&
      TextOf(r, "SOURCE_IMAGE") == Some(Basename(x.localsrc)) &&
      TextOf(r, "VENDOR") == Some(x.vendor)
  {
    OutputShape(x);
    ReadBackWritten(OutputTree(x).value, x);
  }

  lemma ReadBackWritten(r: Doc, x: Inputs)
    requires WellFormed(r) && Written(r, x)
    ensures TextOf(r, "PROCESS_DATE") == Some(x.processDate) &&
      TextOf(r, "ORTHO_DEM") == Some(OrthoDem(x.dem)) &&
      TextOf(r, "STRETCH") == Some(x.stretch) &&
      TextOf(r, "BITDEPTH") == Some(x.outtype) &&
      TextOf(r, "FORMAT") == Some(x.format) &&
      TextOf(r, "SOURCE_IMAGE") == Some(Basename(x.localsrc)) &&
      TextOf(r, "VENDOR") == Some(x.vendor)
  {
    WrittenTagsDistinct(r, x);
    var rest := WrittenOrder(r, x);
    WrittenEntry(r, x, 0); FindWritten(r, rest, 2);
    WrittenEntry(r, x, 1); FindWritten(r, rest, 3);
    WrittenEntry(r, x, 2); FindWritten(r, rest, 4);
    WrittenEntry(r, x, 3); FindWritten(r, rest, 5);
    WrittenEntry(r, x, 4); FindWritten(r, rest, 6);
    FindWritten(r, rest, 8);
    FindWritten(r, rest, 9);
  }

  lemma WrittenOrder(r: Doc, x: Inputs) returns (rest: seq<nat>)
    requires WellFormed(r) && Written(r, x)
    ensures |r| >= 10
    ensures Iter(r, Root)[1..] == seq(9, k => k + 1) + rest
    ensures forall k :: 0 <= k < |rest| ==> rest[k] < |r|
  {
    WrittenLinks(r, x);
    rest := OutputOrder(r);
  }

  /** The children lists of the first ten elements of the written tree. */
  lemma WrittenLinks(r: Doc, x: Inputs)
    requires Written(r, x)
    ensures |r| >= 10
    ensures r[Root].children == [1, 7] && r[1].children == [2, 3, 4, 5, 6]
    ensures forall i :: 2 <= i < 7 ==> r[i].children == []
    ensures r[7].children == [8, 9] || r[7].children == [8, 9, 10]
    ensures r[8].children == [] && r[9].children == []
  {
    forall i | 2 <= i < 7 ensures r[i].children == [] {
      WrittenEntry(r, x, i - 2);
    }
  }

  lemma FindWritten(r: Doc, rest: seq<nat>, j: nat)
    requires WellFormed(r) && |r| >= 10 && 1 <= j <= 9
    requires Iter(r, Root)[1..] == seq(9, k => k + 1) + rest
    requires forall k :: 0 <= k < |rest| ==> rest[k] < |r|
    requires forall a, b :: 1 <= a <= 9 && 1 <= b <= 9 && r[a].tag == r[b].tag ==> a == b
    ensures TextOf(r, r[j].tag) == r[j].text
  {
    var pre: seq<nat> := seq(9, k => k + 1);
    FindAmongFirst(r, pre, rest, r[j].tag, j - 1);
  }
}
