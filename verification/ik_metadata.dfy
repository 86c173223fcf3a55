/** `getIKMetadata`: the dictionary of IKONOS acquisition facts read from the tree that
    `getIKMetadataAsXml` builds. The image's `Source_Image_ID` is found from the file name,
    its `Product_Image_ID` leads to the matching `Component_ID`, and the keys of `ik2fp` are
    filled from those two subtrees and then from the first node of each tag in the document. */
module IKMetadata {
  import opened Base
  import opened XmlTree
  import IndentedTagParser

  /** A Python dict from tag to `node.text` (which may be None). */
  type Dict = map<string, Option<string>>

  /** The IKONOS tags of `ik2fp`, the keys of `search_keys`. */
  const SearchKeys: seq<string> := [
    "File_Format", "Product_Order_Number", "Bits_per_Pixel_per_Band", "Source_Image_ID",
    "Acquisition_Date_Time", "Scan_Direction", "Country_Code", "Percent_Component_Cloud_Cover",
    "Sensor_Name", "Sun_Angle_Elevation"]

  /** `keys`: the search keys that are not in `attribs` (`Source_Image_ID`, `Component_ID`). */
  const ValueKeys: seq<string> := [
    "File_Format", "Product_Order_Number", "Bits_per_Pixel_per_Band",
    "Acquisition_Date_Time", "Scan_Direction", "Country_Code", "Percent_Component_Cloud_Cover",
    "Sensor_Name", "Sun_Angle_Elevation"]

  // ---------------------------------------------------------------------------
  // The searches and loops, as functions
  // ---------------------------------------------------------------------------

  /** Node `n` is passed over by the `Source_Image_ID` search: it has an `id`, and not `siid`. */
  predicate PassesId(d: Doc, n: nat, siid: string)
    requires n < |d|
  {
    "id" in d[n].attrib && d[n].attrib["id"] != siid
  }

  /** The loop over `siid_nodes`: the first node whose `id` is `siid`; a node without an `id`
      before it raises KeyError. */
  function FindSiid(d: Doc, ns: seq<nat>, siid: string): (r: Result<Option<nat>>)
    requires forall k :: 0 <= k < |ns| ==> ns[k] < |d|
    ensures r.Ok? && r.value.Some? ==>
      r.value.value in ns && "id" in d[r.value.value].attrib && d[r.value.value].attrib["id"] == siid
    ensures r.Err? ==> r.error == KeyError
  {
    if ns == [] then Ok(None)
    else if "id" !in d[ns[0]].attrib then Err(KeyError)
    else if d[ns[0]].attrib["id"] == siid then Ok(Some(ns[0]))
    else FindSiid(d, ns[1..], siid)
  }

  /** Node `n` is passed over by the `Component_ID` search: it has a `Product_Image_ID`
      child, and the first one's text is not `piid`. */
  predicate PassesPiid(d: Doc, n: nat, piid: Option<string>)
    requires WellFormed(d) && n < |d|
  {
    var ps := ChildrenTagged(d, n, "Product_Image_ID");
    ps != [] && d[ps[0]].text != piid
  }

  /** The loop over `cid_nodes`: the first node whose first `Product_Image_ID` child has the
      text `piid`; a node without such a child before it raises IndexError. */
  function FindCid(d: Doc, ns: seq<nat>, piid: Option<string>): (r: Result<Option<nat>>)
    requires WellFormed(d) && forall k :: 0 <= k < |ns| ==> ns[k] < |d|
    ensures r.Ok? && r.value.Some? ==>
      r.value.value in ns && ChildrenTagged(d, r.value.value, "Product_Image_ID") != [] &&
      d[ChildrenTagged(d, r.value.value, "Product_Image_ID")[0]].text == piid
    ensures r.Err? ==> r.error == IndexError
  {
    if ns == [] then Ok(None)
    else
      var ps := ChildrenTagged(d, ns[0], "Product_Image_ID");
      if ps == [] then Err(IndexError)
      else if d[ps[0]].text == piid then Ok(Some(ns[0]))
      else FindCid(d, ns[1..], piid)
  }

  /** The loop over `cid_node.getiterator()`: each search-key tag is set to its node's text. */
  function CollectText(d: Doc, ns: seq<nat>, m: Dict): (r: Dict)
    requires forall k :: 0 <= k < |ns| ==> ns[k] < |d|
  {
    if ns == [] then m
    else CollectText(d, ns[1..], if d[ns[0]].tag in SearchKeys then m[d[ns[0]].tag := d[ns[0]].text] else m)
  }

  /** One node of the loop over `siid_node.getiterator()`: `Source_Image_ID` takes the `id`
      attribute (KeyError without one), other search keys the text. */
  function PutSiidNode(d: Doc, n: nat, m: Dict): (r: Result<Dict>)
    requires n < |d|
  {
    var t := d[n].tag;
    if t !in SearchKeys then Ok(m)
    else if t == "Source_Image_ID" then
      (if "id" in d[n].attrib then Ok(m[t := Some(d[n].attrib["id"])]) else Err(KeyError))
    else Ok(m[t := d[n].text])
  }

  /** The loop over `siid_node.getiterator()`. */
  function CollectSiid(d: Doc, ns: seq<nat>, m: Dict): (r: Result<Dict>)
    requires forall k :: 0 <= k < |ns| ==> ns[k] < |d|
    ensures r.Err? ==> r.error == KeyError
  {
    if ns == [] then Ok(m)
    else match PutSiidNode(d, ns[0], m)
      case Err(e) => Err(e)
      case Ok(m2) => CollectSiid(d, ns[1..], m2)
  }

  /** `nodes[0].text` for `nodes = metad.findall(".//" + key)`, or None when there is none. */
  function FirstText(d: Doc, key: string): Option<string>
    requires WellFormed(d)
  {
    match Find(d, Root, key)
    case None => None
    case Some(n) => d[n].text
  }

  /** The final loop: every key of `keys` is set to its first text in the document. */
  function SetFirstTexts(d: Doc, keys: seq<string>, m: Dict): (r: Dict)
    requires WellFormed(d)
    ensures forall t :: t in r <==> t in m || t in keys
  {
    if keys == [] then m else SetFirstTexts(d, keys[1..], m[keys[0] := FirstText(d, keys[0])])
  }

  /** The identifier `getIKMetadata` looks for: characters 5 to 32 of the lower-cased file name
      (`os.path.basename(metafile.lower())[5:33]`). */
  function SourceImageId(fileName: string): string
  {
    Slice(Basename(Lower(fileName)), 5, 33)
  }

  /** The `Component_ID` that shares the first `Product_Image_ID` text of the source image
      node `s` (`spiid_node = siid_node.findall("Product_Image_ID")[0]`). */
  function MatchComponent(d: Doc, s: nat): (r: Result<Option<nat>>)
    requires WellFormed(d) && s < |d|
    ensures r.Ok? && r.value.Some? ==> r.value.value < |d| && d[r.value.value].tag == "Component_ID"
  {
    var ps := ChildrenTagged(d, s, "Product_Image_ID");
    if ps == [] then Err(IndexError)
    else FindCid(d, FindAll(d, Root, "Component_ID"), d[ps[0]].text)
  }

  /** The three loops that fill the dictionary, from the component node `c` and the source
      image node `s`. */
  function Assemble(d: Doc, s: nat, c: nat): (r: Result<Dict>)
    requires WellFormed(d) && s < |d| && c < |d|
    ensures r.Err? ==> r.error == KeyError
  {
    match CollectSiid(d, Iter(d, s), CollectText(d, Iter(d, c), map[]))
    case Err(e) => Err(e)
    case Ok(m) => Ok(SetFirstTexts(d, ValueKeys, m))
  }

  /** The "renamed" branch, looking for the source image `siid`: Ok(None) where the source
      returns None, Err where it raises. */
  function Lookup(d: Doc, siid: string): (r: Result<Option<Dict>>)
    requires WellFormed(d)
    ensures r.Err? ==> r.error == KeyError || r.error == IndexError
  {
      match FindSiid(d, FindAll(d, Root, "Source_Image_ID"), siid)
      case Err(e) => Err(e)
      case Ok(None) => Ok(None)
      case Ok(Some(s)) =>
        match MatchComponent(d, s)
        case Err(e) => Err(e)
        case Ok(None) => Ok(None)
        case Ok(Some(c)) =>
          match Assemble(d, s, c)
          case Err(e) => Err(e)
          case Ok(m) => Ok(Some(m))
  }

  /** `getIKMetadata(fp_mode, metafile)` on the tree of the metadata file. */
  function IKMetadataOf(fpMode: string, fileName: string, d: Doc): (r: Result<Option<Dict>>)
    requires WellFormed(d)
  {
    if fpMode != "renamed" then Err(NameError)  // cid_node is never bound
    else Lookup(d, SourceImageId(fileName))
  }

  /** `getIKMetadata` on a metadata file named `fileName` whose lines are `lines`. */
  function IKMetadata(fpMode: string, fileName: string, lines: seq<string>): Result<Option<Dict>>
  {
    match IndentedTagParser.Parse(lines)
    case Err(e) => Err(e)
    case Ok(d) => IKMetadataOf(fpMode, fileName, d)
  }

  // ---------------------------------------------------------------------------
  // getIKMetadata as the source writes it
  // ---------------------------------------------------------------------------

  /** The `for node in siid_nodes` search. */
  method SearchSourceImage(d: Doc, ns: seq<nat>, siid: string) returns (r: Result<Option<nat>>)
    requires forall k :: 0 <= k < |ns| ==> ns[k] < |d|
    ensures r == FindSiid(d, ns, siid)
  {
    var i := 0;
    while i < |ns|
      invariant 0 <= i <= |ns|
      invariant FindSiid(d, ns, siid) == FindSiid(d, ns[i..], siid)
    {
      var n := ns[i];
      if "id" !in d[n].attrib {
        return Err(KeyError);
      }
      if d[n].attrib["id"] == siid {
        return Ok(Some(n));
      }
      i := i + 1;
    }
    return Ok(None);
  }

  /** `spiid_node` and the `for node in cid_nodes` search. */
  method SearchComponent(d: Doc, s: nat) returns (r: Result<Option<nat>>)
    requires WellFormed(d) && s < |d|
    ensures r == MatchComponent(d, s)
  {
    var ps := ChildrenTagged(d, s, "Product_Image_ID");
    if ps == [] {
      return Err(IndexError);
    }
    var spiid := d[ps[0]].text;
    var ns := FindAll(d, Root, "Component_ID");
    var i := 0;
    while i < |ns|
      invariant 0 <= i <= |ns|
      invariant FindCid(d, ns, spiid) == FindCid(d, ns[i..], spiid)
    {
      var cps := ChildrenTagged(d, ns[i], "Product_Image_ID");
      if cps == [] {
        return Err(IndexError);
      }
      if d[cps[0]].text == spiid {
        return Ok(Some(ns[i]));
      }
      i := i + 1;
    }
    return Ok(None);
  }

  /** The loop over `cid_node.getiterator()`. */
  method FillFromComponent(d: Doc, c: nat) returns (m: Dict)
    requires WellFormed(d) && c < |d|
    ensures m == CollectText(d, Iter(d, c), map[])
  {
    m := map[];
    var ns := Iter(d, c);
    for j := 0 to |ns|
      invariant CollectText(d, ns, map[]) == CollectText(d, ns[j..], m)
    {
      assert ns[j..][1..] == ns[j + 1..];
      if d[ns[j]].tag in SearchKeys {
        m := m[d[ns[j]].tag := d[ns[j]].text];
      }
    }
    assert ns[|ns|..] == [];
  }

  /** The body of the loop over `siid_node.getiterator()` for the node `n`. */
  method FillFromSourceNode(d: Doc, n: nat, m: Dict) returns (r: Result<Dict>)
    requires n < |d|
    ensures r == PutSiidNode(d, n, m)
  {
    var t := d[n].tag;
    if t in SearchKeys {
      if t == "Source_Image_ID" {
        if "id" !in d[n].attrib {
          return Err(KeyError);
        }
        return Ok(m[t := Some(d[n].attrib["id"])]);
      }
      return Ok(m[t := d[n].text]);
    }
    return Ok(m);
  }

  /** The loop over `siid_node.getiterator()`, continuing from the dictionary `m0`. */
  method FillFromSource(d: Doc, s: nat, m0: Dict) returns (r: Result<Dict>)
    requires WellFormed(d) && s < |d|
    ensures r == CollectSiid(d, Iter(d, s), m0)
  {
    var m := m0;
    var ns := Iter(d, s);
    for j := 0 to |ns|
      invariant CollectSiid(d, ns, m0) == CollectSiid(d, ns[j..], m)
    {
      assert ns[j..][1..] == ns[j + 1..];
      var step := FillFromSourceNode(d, ns[j], m);
      if step.Err? {
        return Err(step.error);
      }
      m := step.value;
    }
    assert ns[|ns|..] == [];
    return Ok(m);
  }

  /** The loop over `keys`, continuing from the dictionary `m0`. */
  method FillFirstTexts(d: Doc, keys: seq<string>, m0: Dict) returns (m: Dict)
    requires WellFormed(d)
    ensures m == SetFirstTexts(d, keys, m0)
  {
    m := m0;
    for j := 0 to |keys|
      invariant SetFirstTexts(d, keys, m0) == SetFirstTexts(d, keys[j..], m)
    {
      assert keys[j..][1..] == keys[j + 1..];
      m := m[keys[j] := FirstText(d, keys[j])];
    }
    assert keys[|keys|..] == [];
  }

  /** `getIKMetadata(fp_mode, metafile)`, where `lines` is the content of the file `fileName`. */
  method GetIKMetadata(fpMode: string, fileName: string, lines: seq<string>) returns (r: Result<Option<Dict>>)
    ensures r == IKMetadata(fpMode, fileName, lines)
  {
    var d := IndentedTagParser.ParseIndentedTags(lines);
    if fpMode != "renamed" {
      return Err(NameError);
    }
    var siidNode := SearchSourceImage(d, FindAll(d, Root, "Source_Image_ID"), SourceImageId(fileName));
    if siidNode.Err? {
      return Err(siidNode.error);
    }
    if siidNode.value.None? {
      return Ok(None);
    }
    var s := siidNode.value.value;
    var cidNode := SearchComponent(d, s);
    if cidNode.Err? {
      return Err(cidNode.error);
    }
    if cidNode.value.None? {
      return Ok(None);
    }
    var m1 := FillFromComponent(d, cidNode.value.value);
    var m2 := FillFromSource(d, s, m1);
    if m2.Err? {
      return Err(m2.error);
    }
    var m := FillFirstTexts(d, ValueKeys, m2.value);
    return Ok(Some(m));
  }

  // ---------------------------------------------------------------------------
  // What the searches find
  // ---------------------------------------------------------------------------

  /** The `Source_Image_ID` search stops at the first node it cannot pass over: the node whose
      `id` is `siid` (found), or one without an `id` (KeyError); past the end it finds nothing. */
  lemma {:induction false} FindSiidFirst(d: Doc, ns: seq<nat>, siid: string, k: nat)
    requires forall j :: 0 <= j < |ns| ==> ns[j] < |d|
    requires k <= |ns| && forall j :: 0 <= j < k ==> PassesId(d, ns[j], siid)
    requires k < |ns| ==> !PassesId(d, ns[k], siid)
    ensures FindSiid(d, ns, siid) ==
      if k == |ns| then Ok(None)
      else if "id" in d[ns[k]].attrib then Ok(Some(ns[k]))
      else Err(KeyError)
  {
    if k > 0 {
      assert PassesId(d, ns[0], siid);
      FindSiidFirst(d, ns[1..], siid, k - 1);
    }
  }

  /** The `Component_ID` search stops at the first node it cannot pass over: the node whose
      first `Product_Image_ID` has the text `piid` (found), or one without a `Product_Image_ID`
      child (IndexError); past the end it finds nothing. */
  lemma {:induction false} FindCidFirst(d: Doc, ns: seq<nat>, piid: Option<string>, k: nat)
    requires WellFormed(d) && forall j :: 0 <= j < |ns| ==> ns[j] < |d|
    requires k <= |ns| && forall j :: 0 <= j < k ==> PassesPiid(d, ns[j], piid)
    requires k < |ns| ==> !PassesPiid(d, ns[k], piid)
    ensures FindCid(d, ns, piid) ==
      if k == |ns| then Ok(None)
      else if ChildrenTagged(d, ns[k], "Product_Image_ID") != [] then Ok(Some(ns[k]))
      else Err(IndexError)
  {
    if k > 0 {
      FindCidPass(d, ns, piid);
      FindCidFirst(d, ns[1..], piid, k - 1);
    }
  }

  /** A node the `Component_ID` search passes over leaves the rest of the search to decide. */
  lemma FindCidPass(d: Doc, ns: seq<nat>, piid: Option<string>)
    requires WellFormed(d) && forall j :: 0 <= j < |ns| ==> ns[j] < |d|
    requires ns != [] && PassesPiid(d, ns[0], piid)
    ensures FindCid(d, ns, piid) == FindCid(d, ns[1..], piid)
  {
  }

  // ---------------------------------------------------------------------------
  // What the loops leave in the dictionary
  // ---------------------------------------------------------------------------

  /** The final loop sets each of `keys` to its first text and leaves every other entry. */
  lemma {:induction false} SetFirstTextsValues(d: Doc, keys: seq<string>, m: Dict)
    requires WellFormed(d)
    ensures forall t :: t in keys ==> SetFirstTexts(d, keys, m)[t] == FirstText(d, t)
    ensures forall t :: t !in keys && t in m ==> SetFirstTexts(d, keys, m)[t] == m[t]
  {
    if keys != [] {
      SetFirstTextsValues(d, keys[1..], m[keys[0] := FirstText(d, keys[0])]);
    }
  }

  /** ... and it leaves alone an entry whose key is not among `keys`. */
  lemma {:induction false} SetFirstTextsKeeps(d: Doc, keys: seq<string>, m: Dict, t: string)
    requires WellFormed(d) && t !in keys && t in m
    ensures t in SetFirstTexts(d, keys, m) && SetFirstTexts(d, keys, m)[t] == m[t]
  {
    if keys != [] {
      SetFirstTextsKeeps(d, keys[1..], m[keys[0] := FirstText(d, keys[0])], t);
    }
  }

  /** A node tagged `Source_Image_ID` that has no `id` attribute. */
  predicate MissingId(d: Doc, n: nat)
    requires n < |d|
  {
    d[n].tag == "Source_Image_ID" && "id" !in d[n].attrib
  }

  /** The loop over `siid_node.getiterator()` raises exactly when one of its nodes is a
      `Source_Image_ID` without an `id`. */
  lemma {:induction false} CollectSiidError(d: Doc, ns: seq<nat>, m: Dict)
    requires forall j :: 0 <= j < |ns| ==> ns[j] < |d|
    ensures CollectSiid(d, ns, m).Err? <==> exists j :: 0 <= j < |ns| && MissingId(d, ns[j])
  {
    if ns != [] {
      match PutSiidNode(d, ns[0], m)
      case Err(_) =>
        assert MissingId(d, ns[0]);
      case Ok(m2) =>
        CollectSiidError(d, ns[1..], m2);
        if exists j :: 0 <= j < |ns| && MissingId(d, ns[j]) {
          var j :| 0 <= j < |ns| && MissingId(d, ns[j]);
          assert ns[1..][j - 1] == ns[j];
        }
    }
  }

  /** Nodes without the tag `t` leave the entry for `t` alone. */
  lemma {:induction false} CollectSiidKeeps(d: Doc, ns: seq<nat>, m: Dict, t: string)
    requires forall j :: 0 <= j < |ns| ==> ns[j] < |d| && d[ns[j]].tag != t
    requires t in m && CollectSiid(d, ns, m).Ok?
    ensures t in CollectSiid(d, ns, m).value && CollectSiid(d, ns, m).value[t] == m[t]
  {
    if ns != [] {
      match PutSiidNode(d, ns[0], m)
      case Ok(m2) =>
        CollectSiidKeeps(d, ns[1..], m2, t);
    }
  }

  /** The loop over `cid_node.getiterator()` adds search keys only. */
  lemma {:induction false} CollectTextKeys(d: Doc, ns: seq<nat>, m: Dict)
    requires forall j :: 0 <= j < |ns| ==> ns[j] < |d|
    ensures forall t :: t in CollectText(d, ns, m) ==> t in m || t in SearchKeys
  {
    if ns != [] {
      var n := ns[0];
      CollectTextKeys(d, ns[1..], if d[n].tag in SearchKeys then m[d[n].tag := d[n].text] else m);
    }
  }

  /** The loop over `siid_node.getiterator()` keeps every key and adds search keys only. */
  lemma {:induction false} CollectSiidKeys(d: Doc, ns: seq<nat>, m: Dict)
    requires forall j :: 0 <= j < |ns| ==> ns[j] < |d|
    requires CollectSiid(d, ns, m).Ok?
    ensures forall t :: t in m ==> t in CollectSiid(d, ns, m).value
    ensures forall t :: t in CollectSiid(d, ns, m).value ==> t in m || t in SearchKeys
  {
    if ns != [] {
      match PutSiidNode(d, ns[0], m)
      case Ok(m2) =>
        CollectSiidKeys(d, ns[1..], m2);
    }
  }

  /** A `Source_Image_ID` node among `ns` puts the key `Source_Image_ID` in the dictionary. */
  lemma {:induction false} CollectSiidHas(d: Doc, ns: seq<nat>, m: Dict, k: nat)
    requires forall j :: 0 <= j < |ns| ==> ns[j] < |d|
    requires k < |ns| && d[ns[k]].tag == "Source_Image_ID"
    requires CollectSiid(d, ns, m).Ok?
    ensures "Source_Image_ID" in CollectSiid(d, ns, m).value
  {
    match PutSiidNode(d, ns[0], m)
    case Ok(m2) =>
      if k > 0 {
        CollectSiidHas(d, ns[1..], m2, k - 1);
      } else {
        CollectSiidKeys(d, ns[1..], m2);
      }
  }

  /** The entry `Source_Image_ID` ends as the `id` of the last `Source_Image_ID` node. */
  lemma {:induction false} CollectSiidLast(d: Doc, ns: seq<nat>, m: Dict, k: nat)
    requires forall j :: 0 <= j < |ns| ==> ns[j] < |d|
    requires k < |ns| && d[ns[k]].tag == "Source_Image_ID"
    requires forall j :: k < j < |ns| ==> d[ns[j]].tag != "Source_Image_ID"
    requires CollectSiid(d, ns, m).Ok?
    ensures "id" in d[ns[k]].attrib
    ensures "Source_Image_ID" in CollectSiid(d, ns, m).value &&
            CollectSiid(d, ns, m).value["Source_Image_ID"] == Some(d[ns[k]].attrib["id"])
  {
    match PutSiidNode(d, ns[0], m)
    case Ok(m2) =>
      if k > 0 {
        CollectSiidLast(d, ns[1..], m2, k - 1);
      } else {
        CollectSiidKeeps(d, ns[1..], m2, "Source_Image_ID");
      }
  }

  // ---------------------------------------------------------------------------
  // What getIKMetadata returns
  // ---------------------------------------------------------------------------

  /** Outside "renamed" mode the function raises NameError (`cid_node` is never bound); in
      it, the only exceptions are the KeyError of a missing `id` and the IndexError of a
      missing `Product_Image_ID`. */
  lemma IKMetadataErrors(fpMode: string, fileName: string, d: Doc)
    requires WellFormed(d)
    ensures IKMetadataOf(fpMode, fileName, d) == Err(NameError) <==> fpMode != "renamed"
    ensures IKMetadataOf(fpMode, fileName, d).Err? ==>
      IKMetadataOf(fpMode, fileName, d).error in {NameError, KeyError, IndexError}
  {
  }

  /** A dictionary is returned only from a source image node `s` whose `id` is `siid` and a
      component node `c`, filled by the three loops. */
  lemma LookupFound(d: Doc, siid: string) returns (s: nat, c: nat)
    requires WellFormed(d)
    requires Lookup(d, siid).Ok? && Lookup(d, siid).value.Some?
    ensures s < |d| && c < |d| && d[s].tag == "Source_Image_ID"
    ensures "id" in d[s].attrib && d[s].attrib["id"] == siid
    ensures Assemble(d, s, c) == Ok(Lookup(d, siid).value.value)
  {
    s := FindSiid(d, FindAll(d, Root, "Source_Image_ID"), siid).value.value;
    c := MatchComponent(d, s).value.value;
  }

  /** The three loops, from a source image node, give exactly the keys of `ik2fp`, and each
      key other than `Source_Image_ID` holds the text of the first node with that tag. */
  lemma AssembleContents(d: Doc, s: nat, c: nat)
    requires WellFormed(d) && s < |d| && c < |d| && d[s].tag == "Source_Image_ID"
    requires Assemble(d, s, c).Ok?
    ensures forall t :: t in Assemble(d, s, c).value <==> t in SearchKeys
    ensures forall t :: t in ValueKeys ==> Assemble(d, s, c).value[t] == FirstText(d, t)
  {
    var ns := Iter(d, s);
    var m0 := CollectText(d, Iter(d, c), map[]);
    CollectTextKeys(d, Iter(d, c), map[]);
    CollectSiidKeys(d, ns, m0);
    CollectSiidHas(d, ns, m0, 0);
    SetFirstTextsValues(d, ValueKeys, CollectSiid(d, ns, m0).value);
  }

  /** A returned dictionary holds exactly the keys of `ik2fp`, and each key other than
      `Source_Image_ID` holds the text of the first node with that tag in the document. */
  lemma IKMetadataContents(d: Doc, siid: string)
    requires WellFormed(d)
    requires Lookup(d, siid).Ok? && Lookup(d, siid).value.Some?
    ensures forall t :: t in Lookup(d, siid).value.value <==> t in SearchKeys
    ensures forall t :: t in ValueKeys ==> Lookup(d, siid).value.value[t] == FirstText(d, t)
  {
    var s, c := LookupFound(d, siid);
    AssembleContents(d, s, c);
  }

  /** When `findall(".//tag")` finds nothing below `i`, no node after `i` in its iteration
      carries `tag`. */
  lemma NoneTaggedBelow(d: Doc, i: nat, tag: string)
    requires WellFormed(d) && i < |d| && FindAll(d, i, tag) == []
    ensures forall j :: 0 < j < |Iter(d, i)| ==> d[Iter(d, i)[j]].tag != tag
  {
    var ns := Iter(d, i);
    assert Tagged(d, ns[1..], tag) == [];
    forall j | 0 < j < |ns|
      ensures d[ns[j]].tag != tag
    {
      assert ns[j] in ns[1..];
    }
  }

  /** The final loop does not touch `Source_Image_ID`. */
  lemma SourceIdNotValueKey()
    ensures "Source_Image_ID" !in ValueKeys
  {
    assert forall i :: 0 <= i < |ValueKeys| ==> ValueKeys[i] != "Source_Image_ID";
  }

  /** Without a `Source_Image_ID` below the source image node, the loops record that node's
      `id` as `Source_Image_ID`. */
  lemma AssembleSourceId(d: Doc, s: nat, c: nat)
    requires WellFormed(d) && s < |d| && c < |d| && d[s].tag == "Source_Image_ID"
    requires FindAll(d, s, "Source_Image_ID") == [] && Assemble(d, s, c).Ok?
    ensures "id" in d[s].attrib && "Source_Image_ID" in Assemble(d, s, c).value
    ensures Assemble(d, s, c).value["Source_Image_ID"] == Some(d[s].attrib["id"])
  {
    var ns := Iter(d, s);
    var m0 := CollectText(d, Iter(d, c), map[]);
    NoneTaggedBelow(d, s, "Source_Image_ID");
    CollectSiidLast(d, ns, m0, 0);
    SourceIdNotValueKey();
    SetFirstTextsKeeps(d, ValueKeys, CollectSiid(d, ns, m0).value, "Source_Image_ID");
  }

  /** When source image nodes do not nest, the `Source_Image_ID` entry is the identifier
      that was looked for. */
  lemma IKMetadataSourceId(d: Doc, siid: string)
    requires WellFormed(d)
    requires forall n :: 0 <= n < |d| && d[n].tag == "Source_Image_ID" ==> FindAll(d, n, "Source_Image_ID") == []
    requires Lookup(d, siid).Ok? && Lookup(d, siid).value.Some?
    ensures "Source_Image_ID" in Lookup(d, siid).value.value
    ensures Lookup(d, siid).value.value["Source_Image_ID"] == Some(siid)
  {
    var s, c := LookupFound(d, siid);
    AssembleSourceId(d, s, c);
  }

  // ---------------------------------------------------------------------------
  // On the parser's own trees
  // ---------------------------------------------------------------------------

  /** When every node searched has an `id`, the `Source_Image_ID` search does not raise. */
  lemma {:induction false} FindSiidSafe(d: Doc, ns: seq<nat>, siid: string)
    requires forall j :: 0 <= j < |ns| ==> ns[j] < |d| && "id" in d[ns[j]].attrib
    ensures FindSiid(d, ns, siid).Ok?
  {
    if ns != [] && d[ns[0]].attrib["id"] != siid {
      FindSiidSafe(d, ns[1..], siid);
    }
  }

  /** The three loops do not raise on a tree whose `Source_Image_ID` nodes all have an `id`. */
  lemma AssembleSafe(d: Doc, s: nat, c: nat)
    requires WellFormed(d) && s < |d| && c < |d| && IndentedTagParser.IdsCarried(d)
    ensures Assemble(d, s, c).Ok?
  {
    var ns := Iter(d, s);
    CollectSiidError(d, ns, CollectText(d, Iter(d, c), map[]));
    assert forall j :: 0 <= j < |ns| ==> !MissingId(d, ns[j]);
  }

  /** When every second-level node has an `id`, the "renamed" lookup never raises KeyError:
      its only exception is the IndexError of a node without a `Product_Image_ID` child. */
  lemma LookupErrorsWithIds(d: Doc, siid: string)
    requires WellFormed(d) && IndentedTagParser.IdsCarried(d)
    ensures Lookup(d, siid).Err? ==> Lookup(d, siid).error == IndexError
  {
    var ns := FindAll(d, Root, "Source_Image_ID");
    assert forall j :: 0 <= j < |ns| ==> d[ns[j]].tag in IndentedTagParser.IdTags;
    FindSiidSafe(d, ns, siid);
    var found := FindSiid(d, ns, siid).value;
    if found.Some? && MatchComponent(d, found.value).Ok? && MatchComponent(d, found.value).value.Some? {
      AssembleSafe(d, found.value, MatchComponent(d, found.value).value.value);
    }
  }

  /** On a tree that `getIKMetadataAsXml` built, that is always the case. */
  lemma ParsedLookupErrors(lines: seq<string>, siid: string)
    ensures IndentedTagParser.Parse(lines).Ok?
    ensures var r := Lookup(IndentedTagParser.Parse(lines).value, siid); r.Err? ==> r.error == IndexError
  {
    IndentedTagParser.ParsedIdsCarried(lines);
    LookupErrorsWithIds(IndentedTagParser.Parse(lines).value, siid);
  }
}
