/** `getGEMetadata`: the GeoEye acquisition facts read from the tree that
    `getGEMetadataAsXml` builds: two single values, and the `gain` and `offset` of each band
    keyed by the band's number. */
module GEMetadata {
  import opened Base
  import opened XmlTree
  import GroupedBlockParser

  /** A value of `metadict`: a node's text, or the dictionary from band number to text that
      `gain` and `offset` hold. */
  datatype Value = Text(text: Option<string>) | PerBand(bands: map<int, Option<string>>)

  type Dict = map<string, Value>

  /** `search_keys`: looked up once each in the whole tree. */
  const SearchKeys: seq<string> := ["originalFirstLineAcquisitionDateTime", "firstLineSunElevationAngle"]

  /** `band_keys`: looked up under every `bandSpecificInformation` group. */
  const BandKeys: seq<string> := ["gain", "offset"]

  const BandGroup: string := "bandSpecificInformation"

  // ---------------------------------------------------------------------------
  // The loops, as functions
  // ---------------------------------------------------------------------------

  /** `int(node.attrib["bandNumber"])`, or None where that raises KeyError or ValueError,
      which the source catches and logs. */
  function BandNumber(e: Element): Option<int>
  {
    if "bandNumber" in e.attrib then ParseInt(e.attrib["bandNumber"]) else None
  }

  /** Group `n` records the text of `key` for band `b`: its number is `b` and a `key` node
      lies below it. */
  predicate Supplies(d: Doc, n: nat, key: string, b: int)
    requires WellFormed(d) && n < |d|
  {
    BandNumber(d[n]) == Some(b) && Find(d, n, key).Some?
  }

  /** The text that group `n` records for `key`: that of the first `key` node below it. */
  function Supplied(d: Doc, n: nat, key: string): Option<string>
    requires WellFormed(d) && n < |d| && Find(d, n, key).Some?
  {
    d[Find(d, n, key).value].text
  }

  /** One group `n` of the inner loop: `vals[band] = node.text` when it has a band number
      and a `key` node. */
  function PutBand(d: Doc, n: nat, key: string, vals: map<int, Option<string>>): map<int, Option<string>>
    requires WellFormed(d) && n < |d|
  {
    if BandNumber(d[n]).Some? && Find(d, n, key).Some? then vals[BandNumber(d[n]).value := Supplied(d, n, key)]
    else vals
  }

  /** The inner loop over the band groups `ns`, adding to `vals`. */
  function BandTexts(d: Doc, ns: seq<nat>, key: string, vals: map<int, Option<string>>): map<int, Option<string>>
    requires WellFormed(d) && forall j :: 0 <= j < |ns| ==> ns[j] < |d|
  {
    if ns == [] then vals else BandTexts(d, ns[1..], key, PutBand(d, ns[0], key, vals))
  }

  /** The loop over `search_keys`. */
  function PutSearchKeys(d: Doc, keys: seq<string>, m: Dict): Dict
    requires WellFormed(d)
  {
    if keys == [] then m
    else
      var m2 := match Find(d, Root, keys[0])
        case None => m
        case Some(n) => m[keys[0] := Text(d[n].text)];
      PutSearchKeys(d, keys[1..], m2)
  }

  /** The loop over `band_keys`. */
  function PutBandKeys(d: Doc, keys: seq<string>, m: Dict): Dict
    requires WellFormed(d)
  {
    if keys == [] then m
    else PutBandKeys(d, keys[1..], m[keys[0] := PerBand(BandTexts(d, FindAll(d, Root, BandGroup), keys[0], map[]))])
  }

  /** `getGEMetadata` on the tree of the metadata file. */
  function GEMetadataOf(d: Doc): Dict
    requires WellFormed(d)
  {
    PutBandKeys(d, BandKeys, PutSearchKeys(d, SearchKeys, map[]))
  }

  /** `getGEMetadata(fp_mode, metafile)`: `file` is the content of the metadata file, None
      when there is no such file (the tree is then None and the dictionary stays empty). */
  function GEMetadata(file: Option<seq<string>>): Dict
  {
    match file
    case None => map[]
    case Some(lines) => GEMetadataOf(GroupedBlockParser.Parse(lines))
  }

  // ---------------------------------------------------------------------------
  // getGEMetadata as the source writes it
  // ---------------------------------------------------------------------------

  /** The loop `for node in nodes` for one band key. */
  method CollectBandTexts(d: Doc, key: string) returns (vals: map<int, Option<string>>)
    requires WellFormed(d)
    ensures vals == BandTexts(d, FindAll(d, Root, BandGroup), key, map[])
  {
    var nodes := FindAll(d, Root, BandGroup);
    vals := map[];
    for j := 0 to |nodes|
      invariant BandTexts(d, nodes, key, map[]) == BandTexts(d, nodes[j..], key, vals)
    {
      assert nodes[j..][1..] == nodes[j + 1..];
      var band := BandNumber(d[nodes[j]]);
      if band.Some? {
        var node := Find(d, nodes[j], key);
        if node.Some? {
          vals := vals[band.value := d[node.value].text];
        }
      }
    }
    assert nodes[|nodes|..] == [];
  }

  /** The loop over `search_keys`. */
  method LookupSearchKeys(d: Doc) returns (metadict: Dict)
    requires WellFormed(d)
    ensures metadict == PutSearchKeys(d, SearchKeys, map[])
  {
    metadict := map[];
    for j := 0 to |SearchKeys|
      invariant PutSearchKeys(d, SearchKeys, map[]) == PutSearchKeys(d, SearchKeys[j..], metadict)
    {
      assert SearchKeys[j..][1..] == SearchKeys[j + 1..];
      var node := Find(d, Root, SearchKeys[j]);
      if node.Some? {
        metadict := metadict[SearchKeys[j] := Text(d[node.value].text)];
      }
    }
    assert SearchKeys[|SearchKeys|..] == [];
  }

  /** The loop over `band_keys`, continuing from `m0`. */
  method LookupBandKeys(d: Doc, m0: Dict) returns (metadict: Dict)
    requires WellFormed(d)
    ensures metadict == PutBandKeys(d, BandKeys, m0)
  {
    metadict := m0;
    for j := 0 to |BandKeys|
      invariant PutBandKeys(d, BandKeys, m0) == PutBandKeys(d, BandKeys[j..], metadict)
    {
      assert BandKeys[j..][1..] == BandKeys[j + 1..];
      var vals := CollectBandTexts(d, BandKeys[j]);
      metadict := metadict[BandKeys[j] := PerBand(vals)];
    }
    assert BandKeys[|BandKeys|..] == [];
  }

  /** `getGEMetadata(fp_mode, metafile)`. */
  method GetGEMetadata(file: Option<seq<string>>) returns (metadict: Dict)
    ensures metadict == GEMetadata(file)
  {
    if file.None? {
      return map[];
    }
    var d := GroupedBlockParser.ParseGroupedBlocks(file.value);
    metadict := LookupSearchKeys(d);
    metadict := LookupBandKeys(d, metadict);
  }

  // ---------------------------------------------------------------------------
  // What the dictionary holds
  // ---------------------------------------------------------------------------

  /** What one group does to the entry of band `b`. */
  lemma PutBandEffect(d: Doc, n: nat, key: string, vals: map<int, Option<string>>, b: int)
    requires WellFormed(d) && n < |d|
    ensures b in PutBand(d, n, key, vals) <==> b in vals || Supplies(d, n, key, b)
    ensures Supplies(d, n, key, b) ==> PutBand(d, n, key, vals)[b] == Supplied(d, n, key)
    ensures !Supplies(d, n, key, b) && b in vals ==> PutBand(d, n, key, vals)[b] == vals[b]
  {
  }

  /** Some group among `ns` supplies band `b`. */
  predicate SomeSupplies(d: Doc, ns: seq<nat>, key: string, b: int)
    requires WellFormed(d) && forall j :: 0 <= j < |ns| ==> ns[j] < |d|
  {
    exists n :: n in ns && n < |d| && Supplies(d, n, key, b)
  }

  lemma SomeSuppliesSplit(d: Doc, ns: seq<nat>, key: string, b: int)
    requires WellFormed(d) && forall j :: 0 <= j < |ns| ==> ns[j] < |d|
    requires ns != []
    ensures SomeSupplies(d, ns, key, b) <==> Supplies(d, ns[0], key, b) || SomeSupplies(d, ns[1..], key, b)
  {
    assert forall n :: n in ns <==> n == ns[0] || n in ns[1..];
  }

  /** A band number is recorded exactly when some group supplies it (or it was there). */
  lemma {:induction false} BandTextsDomain(d: Doc, ns: seq<nat>, key: string, vals: map<int, Option<string>>, b: int)
    requires WellFormed(d) && forall j :: 0 <= j < |ns| ==> ns[j] < |d|
    ensures b in BandTexts(d, ns, key, vals) <==> b in vals || SomeSupplies(d, ns, key, b)
  {
    if ns != [] {
      PutBandEffect(d, ns[0], key, vals, b);
      BandTextsDomain(d, ns[1..], key, PutBand(d, ns[0], key, vals), b);
      SomeSuppliesSplit(d, ns, key, b);
    }
  }

  /** Groups that do not supply band `b` leave its entry alone. */
  lemma {:induction false} BandTextsKeeps(d: Doc, ns: seq<nat>, key: string, vals: map<int, Option<string>>, b: int)
    requires WellFormed(d) && forall j :: 0 <= j < |ns| ==> ns[j] < |d|
    requires forall j :: 0 <= j < |ns| ==> !Supplies(d, ns[j], key, b)
    requires b in vals
    ensures b in BandTexts(d, ns, key, vals) && BandTexts(d, ns, key, vals)[b] == vals[b]
  {
    if ns != [] {
      var vals2 := PutBand(d, ns[0], key, vals);
      PutBandEffect(d, ns[0], key, vals, b);
      BandTextsKeeps(d, ns[1..], key, vals2, b);
    }
  }

  /** When several groups carry the same band number, the last of them wins. */
  lemma {:induction false} BandTextsLast(d: Doc, ns: seq<nat>, key: string, vals: map<int, Option<string>>, b: int, k: nat)
    requires WellFormed(d) && forall j :: 0 <= j < |ns| ==> ns[j] < |d|
    requires k < |ns| && Supplies(d, ns[k], key, b)
    requires forall j :: k < j < |ns| ==> !Supplies(d, ns[j], key, b)
    ensures b in BandTexts(d, ns, key, vals) && BandTexts(d, ns, key, vals)[b] == Supplied(d, ns[k], key)
  {
    var vals2 := PutBand(d, ns[0], key, vals);
    PutBandEffect(d, ns[0], key, vals, b);
    if k > 0 {
      BandTextsLast(d, ns[1..], key, vals2, b, k - 1);
    } else {
      BandTextsKeeps(d, ns[1..], key, vals2, b);
    }
  }

  /** The search-key loop records a key exactly when the tree has a node with that tag, and
      then its first node's text. */
  lemma {:induction false} PutSearchKeysValues(d: Doc, keys: seq<string>, m: Dict)
    requires WellFormed(d)
    ensures forall t :: t in keys ==>
      (t in PutSearchKeys(d, keys, m) <==> t in m || Find(d, Root, t).Some?)
    ensures forall t :: t in keys && Find(d, Root, t).Some? ==>
      PutSearchKeys(d, keys, m)[t] == Text(d[Find(d, Root, t).value].text)
    ensures forall t :: t !in keys ==>
      (t in PutSearchKeys(d, keys, m) <==> t in m) &&
      (t in m ==> PutSearchKeys(d, keys, m)[t] == m[t])
  {
    if keys != [] {
      var m2 := match Find(d, Root, keys[0])
        case None => m
        case Some(n) => m[keys[0] := Text(d[n].text)];
      PutSearchKeysValues(d, keys[1..], m2);
    }
  }

  /** The band-key loop sets every band key to its per-band texts and keeps other entries. */
  lemma {:induction false} PutBandKeysValues(d: Doc, keys: seq<string>, m: Dict)
    requires WellFormed(d)
    ensures forall t :: t in keys ==>
      (t in PutBandKeys(d, keys, m) &&
       PutBandKeys(d, keys, m)[t] == PerBand(BandTexts(d, FindAll(d, Root, BandGroup), t, map[])))
    ensures forall t :: t !in keys ==>
      (t in PutBandKeys(d, keys, m) <==> t in m) &&
      (t in m ==> PutBandKeys(d, keys, m)[t] == m[t])
  {
    if keys != [] {
      PutBandKeysValues(d, keys[1..], m[keys[0] := PerBand(BandTexts(d, FindAll(d, Root, BandGroup), keys[0], map[]))]);
    }
  }

  /** The dictionary holds `gain` and `offset` always, a search key exactly when the tree has
      a node with that tag (then the first such node's text), and nothing else. */
  lemma GEMetadataContents(d: Doc)
    requires WellFormed(d)
    ensures var m := GEMetadataOf(d);
      (forall t :: t in m <==> t in BandKeys || (t in SearchKeys && Find(d, Root, t).Some?)) &&
      (forall t :: t in BandKeys ==> m[t] == PerBand(BandTexts(d, FindAll(d, Root, BandGroup), t, map[]))) &&
      (forall t :: t in SearchKeys && Find(d, Root, t).Some? ==> m[t] == Text(d[Find(d, Root, t).value].text))
  {
    PutSearchKeysValues(d, SearchKeys, map[]);
    PutBandKeysValues(d, BandKeys, PutSearchKeys(d, SearchKeys, map[]));
  }

  /** For each band key, band `b` is present exactly when some `bandSpecificInformation`
      group numbered `b` has a node with that tag below it, and it holds the text recorded by
      the last such group. */
  lemma BandMeaning(d: Doc, key: string, b: int, k: nat)
    requires WellFormed(d)
    ensures var ns := FindAll(d, Root, BandGroup);
      b in BandTexts(d, ns, key, map[]) <==> SomeSupplies(d, ns, key, b)
    ensures var ns := FindAll(d, Root, BandGroup);
      k < |ns| && Supplies(d, ns[k], key, b) && (forall j :: k < j < |ns| ==> !Supplies(d, ns[j], key, b)) ==>
      BandTexts(d, ns, key, map[])[b] == Supplied(d, ns[k], key)
  {
    var ns := FindAll(d, Root, BandGroup);
    BandTextsDomain(d, ns, key, map[], b);
    if k < |ns| && Supplies(d, ns[k], key, b) && (forall j :: k < j < |ns| ==> !Supplies(d, ns[j], key, b)) {
      BandTextsLast(d, ns, key, map[], b, k);
    }
  }
}
