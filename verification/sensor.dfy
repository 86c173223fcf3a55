/** `getSensor`: which vendor and satellite an image file name belongs to, decided by seven
    regular expressions tried family by family (DigitalGlobe, then GeoEye, then IKONOS), a
    later match overriding an earlier one. The regular-expression engine is not part of this
    model: it is passed in as `search` (the group dictionary of `re.search`, None when there is
    no match) and `matches` (whether `re.match` succeeds). */
module Sensor {
  import opened Base

  datatype Pattern = RawDG | RenamedDG | RenamedDG2 | RawGE | RenamedGE | RawIK | RenamedIK

  /** The three families, each in the order it is tried. */
  const DGPatterns: seq<Pattern> := [RawDG, RenamedDG, RenamedDG2]
  const GEPatterns: seq<Pattern> := [RawGE, RenamedGE]
  const IKPatterns: seq<Pattern> := [RawIK, RenamedIK]

  /** The named groups each expression declares, which are the keys of its `groupdict()`. */
  function GroupNames(p: Pattern): set<string>
  {
    match p
    case RawDG => {"ts", "prod", "tile", "oid", "pnum"}
    case RenamedDG => {"snsr", "ts", "prod", "tile", "catid"}
    case RenamedDG2 => {"snsr", "ts", "catid"}
    case RawGE => {"snsr", "ts", "band", "said", "prod", "pid", "siid", "ver", "mono", "pnum"}
    case RenamedGE => {"snsr", "ts", "band", "said", "prod", "pid", "siid", "ver", "mono", "pnum"}
    case RawIK => {"po", "band", "cmp"}
    case RenamedIK => {"snsr", "ts", "siid", "band", "lat"}
  }

  /** A `groupdict()`: a group that took no part in the match maps to None. */
  type GroupDict = map<string, Option<string>>

  type Searcher = (Pattern, string) -> Option<GroupDict>
  type Matcher = (Pattern, string) -> bool

  /** What Python's `re` guarantees of a successful search: the dictionary has exactly the
      declared groups, and `snsr`, never marked optional, always took part. */
  ghost predicate Lawful(search: Searcher)
  {
    forall p, s :: search(p, s).Some? ==>
      search(p, s).value.Keys == GroupNames(p) &&
      ("snsr" in GroupNames(p) ==> search(p, s).value["snsr"].Some?)
  }

  datatype Identity = Identity(vendor: Option<string>, sat: Option<string>)

  /** The DigitalGlobe loop: a search hit sets the vendor, and `sat` when the pattern has a
      `snsr` group. */
  function ScanDG(ps: seq<Pattern>, name: string, search: Searcher, cur: Identity): Identity
    decreases |ps|
  {
    if ps == [] then cur
    else
      var next := match search(ps[0], name)
        case None => cur
        case Some(gd) => Identity(Some("DigitalGlobe"), if "snsr" in gd then gd["snsr"] else cur.sat);
      ScanDG(ps[1..], name, search, next)
  }

  /** The GeoEye and IKONOS loops: a match from the start of the name sets both fields to the
      family's fixed values. */
  function ScanFixed(ps: seq<Pattern>, name: string, matches: Matcher, hit: Identity, cur: Identity): Identity
    decreases |ps|
  {
    if ps == [] then cur
    else ScanFixed(ps[1..], name, matches, hit, if matches(ps[0], name) then hit else cur)
  }

  const GeoEyeHit := Identity(Some("GeoEye"), Some("GE01"))
  const IkonosHit := Identity(Some("GeoEye"), Some("IK01"))

  /** `(vendor, sat)` for the file name `srcfn`; every pattern sees the lower-cased name. */
  function SensorOf(srcfn: string, search: Searcher, matches: Matcher): Identity
  {
    var name := Lower(srcfn);
    var dg := ScanDG(DGPatterns, name, search, Identity(None, None));
    var ge := ScanFixed(GEPatterns, name, matches, GeoEyeHit, dg);
    ScanFixed(IKPatterns, name, matches, IkonosHit, ge)
  }

  method GetSensor(srcfn: string, search: Searcher, matches: Matcher)
    returns (vendor: Option<string>, sat: Option<string>)
    ensures Identity(vendor, sat) == SensorOf(srcfn, search, matches)
  {
    var name := Lower(srcfn);
    vendor, sat := None, None;
    var i := 0;
    while i < |DGPatterns|
      invariant 0 <= i <= |DGPatterns|
      invariant ScanDG(DGPatterns, name, search, Identity(None, None)) ==
        ScanDG(DGPatterns[i..], name, search, Identity(vendor, sat))
    {
      assert DGPatterns[i..][1..] == DGPatterns[i + 1..];
      var m := search(DGPatterns[i], name);
      if m.Some? {
        vendor := Some("DigitalGlobe");
        if "snsr" in m.value {
          sat := m.value["snsr"];
        }
      }
      i := i + 1;
    }
    assert DGPatterns[i..] == [];
    vendor, sat := FixedLoop(GEPatterns, name, matches, GeoEyeHit, vendor, sat);
    vendor, sat := FixedLoop(IKPatterns, name, matches, IkonosHit, vendor, sat);
  }

  method FixedLoop(ps: seq<Pattern>, name: string, matches: Matcher, hit: Identity,
                   vendor0: Option<string>, sat0: Option<string>)
    returns (vendor: Option<string>, sat: Option<string>)
    ensures Identity(vendor, sat) == ScanFixed(ps, name, matches, hit, Identity(vendor0, sat0))
  {
    vendor, sat := vendor0, sat0;
    var i := 0;
    while i < |ps|
      invariant 0 <= i <= |ps|
      invariant ScanFixed(ps, name, matches, hit, Identity(vendor0, sat0)) ==
        ScanFixed(ps[i..], name, matches, hit, Identity(vendor, sat))
    {
      assert ps[i..][1..] == ps[i + 1..];
      if matches(ps[i], name) {
        vendor, sat := hit.vendor, hit.sat;
      }
      i := i + 1;
    }
    assert ps[i..] == [];
  }

  // ---------------------------------------------------------------------------
  // What the loops compute
  // ---------------------------------------------------------------------------

  /** A fixed family gives its values when any of its patterns matches, and otherwise leaves
      the identity as it was. */
  lemma {:induction false} ScanFixedHit(ps: seq<Pattern>, name: string, matches: Matcher, hit: Identity, cur: Identity)
    ensures ScanFixed(ps, name, matches, hit, cur) ==
      if exists k :: 0 <= k < |ps| && matches(ps[k], name) then hit else cur
    decreases |ps|
  {
    if ps != [] {
      var next := if matches(ps[0], name) then hit else cur;
      ScanFixedHit(ps[1..], name, matches, hit, next);
      if exists k :: 0 <= k < |ps[1..]| && matches(ps[1..][k], name) {
        var k :| 0 <= k < |ps[1..]| && matches(ps[1..][k], name);
        assert matches(ps[k + 1], name);
      } else if matches(ps[0], name) {
      } else {
        forall k | 0 <= k < |ps| ensures !matches(ps[k], name) {
          if k > 0 {
            assert ps[k] == ps[1..][k - 1];
          }
        }
      }
    }
  }

  /** The DigitalGlobe family sets the vendor exactly when one of its searches succeeds. */
  lemma {:induction false} ScanDGVendor(ps: seq<Pattern>, name: string, search: Searcher, cur: Identity)
    ensures ScanDG(ps, name, search, cur).vendor ==
      if exists k :: 0 <= k < |ps| && search(ps[k], name).Some? then Some("DigitalGlobe") else cur.vendor
    decreases |ps|
  {
    if ps != [] {
      var next := match search(ps[0], name)
        case None => cur
        case Some(gd) => Identity(Some("DigitalGlobe"), if "snsr" in gd then gd["snsr"] else cur.sat);
      ScanDGVendor(ps[1..], name, search, next);
      if exists k :: 0 <= k < |ps[1..]| && search(ps[1..][k], name).Some? {
        var k :| 0 <= k < |ps[1..]| && search(ps[1..][k], name).Some?;
        assert search(ps[k + 1], name).Some?;
      } else if search(ps[0], name).Some? {
      } else {
        forall k | 0 <= k < |ps| ensures search(ps[k], name).None? {
          if k > 0 {
            assert ps[k] == ps[1..][k - 1];
          }
        }
      }
    }
  }

  /** A search hit whose dictionary has `snsr`. */
  predicate GivesSat(search: Searcher, p: Pattern, name: string)
  {
    search(p, name).Some? && "snsr" in search(p, name).value
  }

  /** With no hit that has `snsr`, `sat` is left as it was. */
  lemma {:induction false} ScanDGSatKept(ps: seq<Pattern>, name: string, search: Searcher, cur: Identity)
    requires forall k :: 0 <= k < |ps| ==> !GivesSat(search, ps[k], name)
    ensures ScanDG(ps, name, search, cur).sat == cur.sat
    decreases |ps|
  {
    if ps != [] {
      assert !GivesSat(search, ps[0], name);
      var next := match search(ps[0], name)
        case None => cur
        case Some(gd) => Identity(Some("DigitalGlobe"), cur.sat);
      forall j | 0 <= j < |ps[1..]| ensures !GivesSat(search, ps[1..][j], name) {
        assert ps[1..][j] == ps[j + 1];
      }
      ScanDGSatKept(ps[1..], name, search, next);
    }
  }

  /** `sat` is the `snsr` of the last hit that has one. */
  lemma {:induction false} ScanDGSatLast(ps: seq<Pattern>, name: string, search: Searcher, cur: Identity, k: nat)
    requires k < |ps| && GivesSat(search, ps[k], name)
    requires forall j :: k < j < |ps| ==> !GivesSat(search, ps[j], name)
    ensures ScanDG(ps, name, search, cur).sat == search(ps[k], name).value["snsr"]
    decreases |ps|
  {
    var next := match search(ps[0], name)
      case None => cur
      case Some(gd) => Identity(Some("DigitalGlobe"), if "snsr" in gd then gd["snsr"] else cur.sat);
    forall j | k - 1 < j < |ps[1..]| ensures !GivesSat(search, ps[1..][j], name) {
      assert ps[1..][j] == ps[j + 1];
    }
    if k == 0 {
      ScanDGSatKept(ps[1..], name, search, next);
    } else {
      assert ps[1..][k - 1] == ps[k];
      ScanDGSatLast(ps[1..], name, search, next, k - 1);
    }
  }

  // ---------------------------------------------------------------------------
  // Precedence of the families
  // ---------------------------------------------------------------------------

  predicate IkonosMatch(name: string, matches: Matcher)
  {
    matches(RawIK, name) || matches(RenamedIK, name)
  }

  predicate GeoEyeMatch(name: string, matches: Matcher)
  {
    matches(RawGE, name) || matches(RenamedGE, name)
  }

  predicate DigitalGlobeHit(name: string, search: Searcher)
  {
    search(RawDG, name).Some? || search(RenamedDG, name).Some? || search(RenamedDG2, name).Some?
  }

  /** Any IKONOS match gives (GeoEye, IK01); otherwise any GeoEye match gives (GeoEye, GE01);
      otherwise the vendor is DigitalGlobe when a DigitalGlobe search succeeds. The vendor is
      None exactly when nothing matched, and then so is `sat`. */
  lemma SensorPrecedence(srcfn: string, search: Searcher, matches: Matcher)
    ensures var name := Lower(srcfn); var r := SensorOf(srcfn, search, matches);
      (IkonosMatch(name, matches) ==> r == IkonosHit) &&
      (!IkonosMatch(name, matches) && GeoEyeMatch(name, matches) ==> r == GeoEyeHit) &&
      (!IkonosMatch(name, matches) && !GeoEyeMatch(name, matches) ==>
         r.vendor == if DigitalGlobeHit(name, search) then Some("DigitalGlobe") else None) &&
      (r.vendor.None? <==>
         !IkonosMatch(name, matches) && !GeoEyeMatch(name, matches) && !DigitalGlobeHit(name, search)) &&
      (r.vendor.None? ==> r.sat.None?)
  {
    var name := Lower(srcfn);
    var dg := ScanDG(DGPatterns, name, search, Identity(None, None));
    var ge := ScanFixed(GEPatterns, name, matches, GeoEyeHit, dg);
    ScanFixedHit(IKPatterns, name, matches, IkonosHit, ge);
    ScanFixedHit(GEPatterns, name, matches, GeoEyeHit, dg);
    ScanDGVendor(DGPatterns, name, search, Identity(None, None));
    assert IkonosMatch(name, matches) <==> exists k :: 0 <= k < |IKPatterns| && matches(IKPatterns[k], name) by {
      assert IKPatterns[0] == RawIK && IKPatterns[1] == RenamedIK;
    }
    assert GeoEyeMatch(name, matches) <==> exists k :: 0 <= k < |GEPatterns| && matches(GEPatterns[k], name) by {
      assert GEPatterns[0] == RawGE && GEPatterns[1] == RenamedGE;
    }
    assert DigitalGlobeHit(name, search) <==>
      exists k :: 0 <= k < |DGPatterns| && search(DGPatterns[k], name).Some? by {
      assert DGPatterns[0] == RawDG && DGPatterns[1] == RenamedDG && DGPatterns[2] == RenamedDG2;
    }
    if !DigitalGlobeHit(name, search) {
      forall k | 0 <= k < |DGPatterns| ensures !GivesSat(search, DGPatterns[k], name) {
        assert search(DGPatterns[k], name).None?;
      }
      ScanDGSatKept(DGPatterns, name, search, Identity(None, None));
    }
  }

  /** When only DigitalGlobe patterns match, `sat` comes from the last renamed pattern that
      matched; when only `RAW_DG` matched it stays None, since that expression has no `snsr`
      group. */
  lemma SensorDigitalGlobeSat(srcfn: string, search: Searcher, matches: Matcher)
    requires Lawful(search)
    requires !IkonosMatch(Lower(srcfn), matches) && !GeoEyeMatch(Lower(srcfn), matches)
    ensures var name := Lower(srcfn); var r := SensorOf(srcfn, search, matches);
      r.sat == (if search(RenamedDG2, name).Some? then search(RenamedDG2, name).value["snsr"]
                else if search(RenamedDG, name).Some? then search(RenamedDG, name).value["snsr"]
                else None) &&
      (search(RenamedDG, name).Some? || search(RenamedDG2, name).Some? ==> r.sat.Some?)
  {
    var name := Lower(srcfn);
    var cur := Identity(None, None);
    var dg := ScanDG(DGPatterns, name, search, cur);
    var ge := ScanFixed(GEPatterns, name, matches, GeoEyeHit, dg);
    ScanFixedHit(IKPatterns, name, matches, IkonosHit, ge);
    ScanFixedHit(GEPatterns, name, matches, GeoEyeHit, dg);
    assert !exists k :: 0 <= k < |IKPatterns| && matches(IKPatterns[k], name) by {
      assert IKPatterns[0] == RawIK && IKPatterns[1] == RenamedIK;
    }
    assert !exists k :: 0 <= k < |GEPatterns| && matches(GEPatterns[k], name) by {
      assert GEPatterns[0] == RawGE && GEPatterns[1] == RenamedGE;
    }
    assert "snsr" !in GroupNames(RawDG) && "snsr" in GroupNames(RenamedDG) && "snsr" in GroupNames(RenamedDG2);
    assert !GivesSat(search, RawDG, name);
    assert GivesSat(search, RenamedDG, name) <==> search(RenamedDG, name).Some?;
    assert GivesSat(search, RenamedDG2, name) <==> search(RenamedDG2, name).Some?;
    assert DGPatterns[0] == RawDG && DGPatterns[1] == RenamedDG && DGPatterns[2] == RenamedDG2;
    if search(RenamedDG2, name).Some? {
      ScanDGSatLast(DGPatterns, name, search, cur, 2);
    } else if search(RenamedDG, name).Some? {
      ScanDGSatLast(DGPatterns, name, search, cur, 1);
    } else {
      ScanDGSatKept(DGPatterns, name, search, cur);
    }
  }
}
