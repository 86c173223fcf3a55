/** The selection logic of the radiometric calibration: which factors `GetCalibrationFactors`
    returns, in which order, and which coefficients `GetIKcalibDict` and `getDGXmlData` pick.
    The factor values come out of floating-point formulas that are not part of this model;
    they are treated as opaque reals supplied by the caller. */
module Calibration {
  import opened Base

  /** A key of a calibration dictionary: DigitalGlobe names its bands, GeoEye and IKONOS
      number them. */
  datatype Band = Named(name: string) | Numbered(index: int)

  type CalibDict = map<Band, real>

  /** `DGbandList`. */
  const DGBandList: seq<Band> := [Named("BAND_P"), Named("BAND_C"), Named("BAND_B"), Named("BAND_G"),
    Named("BAND_Y"), Named("BAND_R"), Named("BAND_RE"), Named("BAND_N"), Named("BAND_N2")]

  /** `range(lo, hi, 1)` as band keys. */
  function Range(lo: int, hi: int): (r: seq<Band>)
    requires lo <= hi
    ensures |r| == hi - lo && forall k :: 0 <= k < |r| ==> r[k] == Numbered(lo + k)
    decreases hi - lo
  {
    if lo == hi then [] else [Numbered(lo)] + Range(lo + 1, hi)
  }

  /** The band list a GeoEye-family image of `bands` bands is read with, None where the source
      leaves `bandList` unbound. */
  function NumberedBandList(sat: string, bands: int): Option<seq<Band>>
  {
    if sat == "GE01" then
      if bands == 1 then Some([Numbered(5)]) else if bands == 4 then Some(Range(1, 5)) else None
    else
      if bands == 1 then Some([Numbered(4)]) else if bands == 4 then Some(Range(0, 4)) else None
  }

  /** The factors of the bands of `bandList` that `calib` has, in band-list order. */
  function Factors(bandList: seq<Band>, calib: CalibDict): (r: seq<real>)
    ensures |r| <= |bandList|
    decreases |bandList|
  {
    if bandList == [] then []
    else (if bandList[0] in calib then [calib[bandList[0]]] else []) + Factors(bandList[1..], calib)
  }

  /** The vendors and sensors `GetCalibrationFactors` has a metadata reader for. */
  predicate Recognised(vendor: Option<string>, sat: Option<string>)
  {
    vendor == Some("DigitalGlobe") || (vendor == Some("GeoEye") && (sat == Some("GE01") || sat == Some("IK01")))
  }

  /** `GetCalibrationFactors`. `found` is what the vendor's metadata reader gives: the
      exception it raised, None when the metadata file is missing and the reader is not
      called, or the dictionary it returns. A reader's exception passes through unchanged.
      The function's own errors are: a DigitalGlobe image without its XML reaches the misspelt
      `os.path.basenanme` (AttributeError), an unknown vendor or sensor reaches a `print` of a
      string called like a function (TypeError), and a GeoEye or IKONOS image with other
      than 1 or 4 bands leaves `bandList` unbound (NameError) once its dictionary is
      non-empty. */
  function CalibrationFactors(vendor: Option<string>, sat: Option<string>, bands: int,
                              found: Result<Option<CalibDict>>): (r: Result<seq<real>>)
    ensures Recognised(vendor, sat) && found.Err? ==> r == Err(found.error)
    ensures r.Err? && (found.Ok? || !Recognised(vendor, sat)) ==> r.error in {AttributeError, TypeError, NameError}
    ensures !Recognised(vendor, sat) ==> r == Err(TypeError)
  {
    if !Recognised(vendor, sat) then Err(TypeError)
    else if found.Err? then Err(found.error)
    else if vendor == Some("DigitalGlobe") then
      if found.value.None? then Err(AttributeError) else Ok(Factors(DGBandList, found.value.value))
    else
      var calib := if found.value.Some? then found.value.value else map[];
      if |calib| == 0 then Ok([])
      else match NumberedBandList(sat.value, bands)
        case None => Err(NameError)
        case Some(bandList) => Ok(Factors(bandList, calib))
  }

  /** The loop `for band in bandList: if band in calibDict: CFlist.append(calibDict[band])`. */
  method CollectFactors(bandList: seq<Band>, calib: CalibDict) returns (cf: seq<real>)
    ensures cf == Factors(bandList, calib)
  {
    cf := [];
    var i := 0;
    while i < |bandList|
      invariant 0 <= i <= |bandList|
      invariant Factors(bandList, calib) == cf + Factors(bandList[i..], calib)
    {
      FactorsStep(bandList, calib, i);
      if bandList[i] in calib {
        cf := cf + [calib[bandList[i]]];
      }
      i := i + 1;
    }
    assert bandList[i..] == [];
  }

  /** One band further into the list. */
  lemma FactorsStep(bandList: seq<Band>, calib: CalibDict, i: nat)
    requires i < |bandList|
    ensures Factors(bandList[i..], calib) ==
      (if bandList[i] in calib then [calib[bandList[i]]] else []) + Factors(bandList[i + 1..], calib)
  {
    assert bandList[i..][1..] == bandList[i + 1..];
  }

  method GetCalibrationFactors(vendor: Option<string>, sat: Option<string>, bands: int,
                               found: Result<Option<CalibDict>>)
    returns (r: Result<seq<real>>)
    ensures r == CalibrationFactors(vendor, sat, bands, found)
  {
    var calib: CalibDict := map[];
    var bandList: Option<seq<Band>> := None;
    if vendor == Some("DigitalGlobe") {
      if found.Err? {
        return Err(found.error);
      }
      if found.value.None? {
        return Err(AttributeError);
      }
      calib := found.value.value;
      bandList := Some(DGBandList);
    } else if vendor == Some("GeoEye") && (sat == Some("GE01") || sat == Some("IK01")) {
      if found.Err? {
        return Err(found.error);
      }
      if found.value.Some? {
        calib := found.value.value;
      }
      bandList := NumberedBandList(sat.value, bands);
    } else {
      return Err(TypeError);
    }
    if |calib| > 0 {
      if bandList.None? {
        return Err(NameError);
      }
      var cf := CollectFactors(bandList.value, calib);
      return Ok(cf);
    }
    assert Factors(DGBandList, map[]) == [] by { FactorsEmpty(DGBandList); }
    return Ok([]);
  }

  // ---------------------------------------------------------------------------
  // What the factor list holds
  // ---------------------------------------------------------------------------

  /** An empty dictionary gives no factors. */
  lemma {:induction false} FactorsEmpty(bandList: seq<Band>)
    ensures Factors(bandList, map[]) == []
    decreases |bandList|
  {
    if bandList != [] {
      FactorsEmpty(bandList[1..]);
    }
  }

  /** The list for two band lists one after the other is the two lists one after the other:
      factors keep band-list order. */
  lemma {:induction false} FactorsAppend(a: seq<Band>, b: seq<Band>, calib: CalibDict)
    ensures Factors(a + b, calib) == Factors(a, calib) + Factors(b, calib)
    decreases |a|
  {
    if a == [] {
      assert a + b == b;
    } else {
      assert (a + b)[0] == a[0];
      assert (a + b)[1..] == a[1..] + b;
      FactorsAppend(a[1..], b, calib);
    }
  }

  /** Every factor is the dictionary's value for a band of the list, and every band of the
      list that the dictionary has contributes its value. */
  lemma {:induction false} FactorsMembers(bandList: seq<Band>, calib: CalibDict)
    ensures forall v :: v in Factors(bandList, calib) ==> exists b :: b in bandList && b in calib && calib[b] == v
    ensures forall b :: b in bandList && b in calib ==> calib[b] in Factors(bandList, calib)
    decreases |bandList|
  {
    if bandList != [] {
      FactorsMembers(bandList[1..], calib);
      forall b | b in bandList[1..] ensures b in bandList {
      }
      forall b | b in bandList && b in calib ensures calib[b] in Factors(bandList, calib) {
        if b != bandList[0] {
          assert b in bandList[1..];
        }
      }
    }
  }

  /** When the dictionary has every band of the list, the factors are its values in list
      order. */
  lemma {:induction false} FactorsAllPresent(bandList: seq<Band>, calib: CalibDict)
    requires forall k :: 0 <= k < |bandList| ==> bandList[k] in calib
    ensures |Factors(bandList, calib)| == |bandList|
    ensures forall k :: 0 <= k < |bandList| ==> Factors(bandList, calib)[k] == calib[bandList[k]]
    decreases |bandList|
  {
    if bandList != [] {
      assert bandList[0] in calib;
      forall k | 0 <= k < |bandList[1..]| ensures bandList[1..][k] in calib {
        assert bandList[1..][k] == bandList[k + 1];
      }
      FactorsAllPresent(bandList[1..], calib);
    }
  }

  /** The band lists: `[5]` or bands 1 to 4 for GE01, `[4]` or bands 0 to 3 for IK01. */
  lemma BandLists()
    ensures NumberedBandList("GE01", 1) == Some([Numbered(5)])
    ensures NumberedBandList("GE01", 4) == Some([Numbered(1), Numbered(2), Numbered(3), Numbered(4)])
    ensures NumberedBandList("IK01", 1) == Some([Numbered(4)])
    ensures NumberedBandList("IK01", 4) == Some([Numbered(0), Numbered(1), Numbered(2), Numbered(3)])
    ensures forall sat, n :: n != 1 && n != 4 ==> NumberedBandList(sat, n).None?
  {
    assert Range(1, 5) == [Numbered(1), Numbered(2), Numbered(3), Numbered(4)];
    assert Range(0, 4) == [Numbered(0), Numbered(1), Numbered(2), Numbered(3)];
  }

  /** The list returned: empty when the dictionary is, and otherwise the dictionary's values
      for the vendor's band list, in that order. */
  lemma CalibrationFactorsMeaning(vendor: Option<string>, sat: Option<string>, bands: int, found: Result<Option<CalibDict>>)
    ensures var r := CalibrationFactors(vendor, sat, bands, found);
      (r.Ok? && (found == Ok(None) || (found.Ok? && found.value.Some? && |found.value.value| == 0)) ==> r.value == []) &&
      (vendor == Some("DigitalGlobe") && found.Ok? && found.value.Some? ==> r == Ok(Factors(DGBandList, found.value.value))) &&
      (vendor == Some("GeoEye") && (sat == Some("GE01") || sat == Some("IK01")) &&
       found.Ok? && found.value.Some? && |found.value.value| > 0 ==>
         (r.Ok? <==> bands == 1 || bands == 4) &&
         (r.Ok? ==> r.value == Factors(NumberedBandList(sat.value, bands).value, found.value.value)))
  {
    if vendor == Some("DigitalGlobe") && found.Ok? && found.value.Some? && |found.value.value| == 0 {
      assert found.value.value == map[];
      FactorsEmpty(DGBandList);
    }
  }

  // ---------------------------------------------------------------------------
  // Coefficient selection
  // ---------------------------------------------------------------------------

  /** `getDGXmlData`: GE01 factors are scaled by ten, and the stretch picks the radiance
      factor (`rd`) or the reflectance factor (any other stretch). */
  function DGFactor(sat: string, stretch: string, radfact: real, reflfact: real): (r: real)
    ensures r == radfact || r == reflfact || r == 10.0 * radfact || r == 10.0 * reflfact
  {
    var rad := if sat == "GE01" then radfact * 10.0 else radfact;
    var refl := if sat == "GE01" then reflfact * 10.0 else reflfact;
    if stretch == "rd" then rad else refl
  }

  /** A GE01 factor is ten times what any other satellite gets from the same values. */
  lemma GE01Scaled(sat: string, stretch: string, radfact: real, reflfact: real)
    requires sat != "GE01"
    ensures DGFactor("GE01", stretch, radfact, reflfact) == 10.0 * DGFactor(sat, stretch, radfact, reflfact)
    ensures DGFactor(sat, stretch, radfact, reflfact) == if stretch == "rd" then radfact else reflfact
  {
  }

  /** The IKONOS tables of `GetIKcalibDict`, for bands blue, green, red, near infrared and
      panchromatic (indices 0 to 4). */
  const IKEsun: seq<real> := [1930.9, 1854.8, 1556.5, 1156.9, 1375.8]
  const IKBandwidth: seq<real> := [71.3, 88.6, 65.8, 95.4, 403.0]
  /** Coefficients before 2001-02-22. */
  const IKCoefsBefore: seq<int> := [633, 649, 840, 746, 161]
  /** Coefficients from 2001-02-22 on. */
  const IKCoefsAfter: seq<int> := [728, 727, 949, 843, 161]

  /** An acquisition time as `Acquisition_Date_Time` gives it, to the minute. */
  datatype Stamp = Stamp(year: int, month: int, day: int, hour: int, minute: int)

  /** `datetime` order. */
  predicate Before(a: Stamp, b: Stamp)
  {
    a.year < b.year || (a.year == b.year && (a.month < b.month || (a.month == b.month &&
      (a.day < b.day || (a.day == b.day && (a.hour < b.hour || (a.hour == b.hour && a.minute < b.minute)))))))
  }

  const Breakdate := Stamp(2001, 2, 22, 0, 0)

  /** The calibration coefficient of `band` for an image acquired at `d`. */
  function IKCoef(band: nat, d: Stamp): (c: int)
    requires band < 5
    ensures c > 0
  {
    if Before(d, Breakdate) then IKCoefsBefore[band] else IKCoefsAfter[band]
  }

  /** The reflectance formula, a floating-point expression outside this model, applied to a
      band's coefficient, bandwidth and solar irradiance, the sun angle and the acquisition
      time (from which `calcEarthSunDist` derives the Earth-Sun distance). */
  type Reflectance = (int, real, real, real, Stamp) -> real

  /** What `getIKMetadata("renamed", metafile)` produced: the exception it raised, None, or
      the dictionary of search keys to texts (None for a missing text). */
  type IKMetadataResult = Result<Option<map<string, Option<string>>>>

  /** `s.strip(cs)`: the characters of `cs` are removed from both ends. */
  function StripChars(s: string, cs: set<char>): (r: string)
    ensures |r| <= |s|
    ensures r == [] || (r[0] !in cs && r[|r| - 1] !in cs)
    ensures forall k :: 0 <= k < |s| && s[k] !in cs ==> s[k] in r
    decreases |s|
  {
    if s == [] then []
    else if s[0] in cs then StripChars(s[1..], cs)
    else if s[|s| - 1] in cs then StripChars(s[..|s| - 1], cs)
    else s
  }

  /** The characters `strip(" degrees")` removes. */
  const DegreesChars: set<char> := {' ', 'd', 'e', 'g', 'r', 's'}

  /** A value followed only by stripped characters, with none at its own ends, is what
      stripping leaves. */
  lemma {:induction false} StripTrailing(v: string, t: string, cs: set<char>)
    requires v != [] && v[0] !in cs && v[|v| - 1] !in cs
    requires forall k :: 0 <= k < |t| ==> t[k] in cs
    ensures StripChars(v + t, cs) == v
    decreases |t|
  {
    if t == [] {
      assert v + t == v;
    } else {
      var s := v + t;
      assert s[0] == v[0] && s[|s| - 1] == t[|t| - 1];
      assert s[..|s| - 1] == v + t[..|t| - 1];
      StripTrailing(v, t[..|t| - 1], cs);
    }
  }

  /** A sun elevation written as a number and ` degrees` reads as that number. */
  lemma SunElevationText(v: string)
    requires v != [] && '0' <= v[0] <= '9' && '0' <= v[|v| - 1] <= '9'
    ensures StripChars(v + " degrees", DegreesChars) == v
  {
    StripTrailing(v, " degrees", DegreesChars);
  }

  /** The first reads of the band loop: `Sun_Angle_Elevation` with its ` degrees` stripped
      and read by `float` (`parseReal`, None for a ValueError), giving the sun angle
      `90 - elevation`; then `Acquisition_Date_Time` read by `strptime` with the format
      `%Y-%m-%d %H:%M GMT` (`parseStamp`, None for a ValueError). Subscripting a None
      dictionary is a TypeError, a missing key a KeyError, `.strip` on a None text an
      AttributeError and `strptime` on None a TypeError. An exception `getIKMetadata`
      raised propagates. */
  function ReadAcquisition(md: IKMetadataResult, parseReal: string -> Option<real>,
                           parseStamp: string -> Option<Stamp>): (r: Result<(real, Stamp)>)
    ensures md.Err? ==> r == Err(md.error)
    ensures md.Ok? && md.value.None? ==> r == Err(TypeError)
  {
    match md
    case Err(e) => Err(e)
    case Ok(None) => Err(TypeError)
    case Ok(Some(m)) =>
      if "Sun_Angle_Elevation" !in m then Err(KeyError)
      else match m["Sun_Angle_Elevation"]
        case None => Err(AttributeError)
        case Some(el) =>
          match parseReal(StripChars(el, DegreesChars))
          case None => Err(ValueError)
          case Some(elevation) =>
            if "Acquisition_Date_Time" !in m then Err(KeyError)
            else match m["Acquisition_Date_Time"]
              case None => Err(TypeError)
              case Some(ds) =>
                match parseStamp(ds)
                case None => Err(ValueError)
                case Some(d) => Ok((90.0 - elevation, d))
  }

  /** The dictionary `GetIKcalibDict` returns, or the exception it raises: the metadata
      reads fail first, and otherwise the `rd` stretch raises NameError, as it stores the
      never-assigned `radfact` (the radiance factor is computed as `redfact`). */
  function IKCalibDict(md: IKMetadataResult, stretch: string, parseReal: string -> Option<real>,
                       parseStamp: string -> Option<Stamp>, refl: Reflectance): (r: Result<CalibDict>)
    ensures r.Err? <==> ReadAcquisition(md, parseReal, parseStamp).Err? || stretch == "rd"
    ensures ReadAcquisition(md, parseReal, parseStamp).Err? ==>
      r.error == ReadAcquisition(md, parseReal, parseStamp).error
    ensures ReadAcquisition(md, parseReal, parseStamp).Ok? && stretch == "rd" ==> r == Err(NameError)
  {
    match ReadAcquisition(md, parseReal, parseStamp)
    case Err(e) => Err(e)
    case Ok((angle, d)) =>
      if stretch == "rd" then Err(NameError)
      else Ok(IKFactorsBelow(5, angle, d, refl))
  }

  /** The entries for bands `0 .. n - 1`. */
  function IKFactorsBelow(n: nat, angle: real, d: Stamp, refl: Reflectance): (m: CalibDict)
    requires n <= 5
    ensures forall b :: b in m <==> b.Numbered? && 0 <= b.index < n
    ensures forall i :: 0 <= i < n ==> m[Numbered(i)] == refl(IKCoef(i, d), IKBandwidth[i], IKEsun[i], angle, d)
  {
    if n == 0 then map[]
    else IKFactorsBelow(n - 1, angle, d, refl)[Numbered(n - 1) := refl(IKCoef(n - 1, d), IKBandwidth[n - 1], IKEsun[n - 1], angle, d)]
  }

  /** The loop over the five bands; every pass reads the metadata again. */
  method GetIKcalibDict(md: IKMetadataResult, stretch: string, parseReal: string -> Option<real>,
                        parseStamp: string -> Option<Stamp>, refl: Reflectance) returns (r: Result<CalibDict>)
    ensures r == IKCalibDict(md, stretch, parseReal, parseStamp, refl)
  {
    var calib: CalibDict := map[];
    for band := 0 to 5
      invariant band > 0 ==> ReadAcquisition(md, parseReal, parseStamp).Ok? && stretch != "rd"
      invariant ReadAcquisition(md, parseReal, parseStamp).Ok? ==>
        var (angle, d) := ReadAcquisition(md, parseReal, parseStamp).value;
        calib == IKFactorsBelow(band, angle, d, refl)
    {
      var read := ReadAcquisition(md, parseReal, parseStamp);
      if read.Err? {
        return Err(read.error);
      }
      var (angle, d) := read.value;
      if stretch == "rd" {
        return Err(NameError);
      }
      calib := calib[Numbered(band) := refl(IKCoef(band, d), IKBandwidth[band], IKEsun[band], angle, d)];
    }
    return Ok(calib);
  }

  /** Which metadata the calibration can be read from: a dictionary whose sun elevation and
      acquisition time are texts that parse; then a stretch other than `rd` yields the five
      bands with the coefficients of the acquisition's era. */
  lemma IKCalibOutcome(md: IKMetadataResult, stretch: string, parseReal: string -> Option<real>,
                       parseStamp: string -> Option<Stamp>, refl: Reflectance)
    ensures var r := IKCalibDict(md, stretch, parseReal, parseStamp, refl);
      var readable := md.Ok? && md.value.Some? &&
        "Sun_Angle_Elevation" in md.value.value && md.value.value["Sun_Angle_Elevation"].Some? &&
        parseReal(StripChars(md.value.value["Sun_Angle_Elevation"].value, DegreesChars)).Some? &&
        "Acquisition_Date_Time" in md.value.value && md.value.value["Acquisition_Date_Time"].Some? &&
        parseStamp(md.value.value["Acquisition_Date_Time"].value).Some?;
      (r.Ok? <==> readable && stretch != "rd") &&
      (r.Err? ==> r.error in {NameError, TypeError, KeyError, IndexError, AttributeError, ValueError} || md.Err?) &&
      (r.Ok? ==>
        var d := parseStamp(md.value.value["Acquisition_Date_Time"].value).value;
        var angle := 90.0 - parseReal(StripChars(md.value.value["Sun_Angle_Elevation"].value, DegreesChars)).value;
        forall i :: 0 <= i < 5 ==>
          Numbered(i) in r.value && r.value[Numbered(i)] == refl(IKCoef(i, d), IKBandwidth[i], IKEsun[i], angle, d))
  {
  }

  /** What `GetIKcalibDict` hands to `GetCalibrationFactors`: its exception, or its dictionary. */
  function IKFound(c: Result<CalibDict>): (f: Result<Option<CalibDict>>)
    ensures f.Err? <==> c.Err?
    ensures c.Err? ==> f.error == c.error
    ensures c.Ok? ==> f == Ok(Some(c.value))
  {
    match c
    case Ok(d) => Ok(Some(d))
    case Err(e) => Err(e)
  }

  /** `GetCalibrationFactors` for an IKONOS image whose metadata file exists: an exception of
      `GetIKcalibDict` passes through, and otherwise the factors are those of the panchromatic
      band for one band and of bands 0 to 3 for four; any other band count leaves `bandList`
      unbound. */
  lemma IKCalibrationFactors(bands: int, md: IKMetadataResult, stretch: string, parseReal: string -> Option<real>,
                             parseStamp: string -> Option<Stamp>, refl: Reflectance)
    ensures var c := IKCalibDict(md, stretch, parseReal, parseStamp, refl);
      var r := CalibrationFactors(Some("GeoEye"), Some("IK01"), bands, IKFound(c));
      (c.Err? ==> r == Err(c.error)) &&
      (c.Ok? && bands != 1 && bands != 4 ==> r == Err(NameError)) &&
      (c.Ok? && bands == 1 ==> r == Ok([c.value[Numbered(4)]])) &&
      (c.Ok? && bands == 4 ==>
        r == Ok([c.value[Numbered(0)], c.value[Numbered(1)], c.value[Numbered(2)], c.value[Numbered(3)]]))
  {
    var c := IKCalibDict(md, stretch, parseReal, parseStamp, refl);
    if c.Ok? {
      var (angle, d) := ReadAcquisition(md, parseReal, parseStamp).value;
      assert c.value == IKFactorsBelow(5, angle, d, refl);
      IKBandFactors(bands, c.value);
    }
  }

  /** The factors `GetCalibrationFactors` takes from a dictionary holding bands 0 to 4. */
  lemma IKBandFactors(bands: int, m: CalibDict)
    requires forall i :: 0 <= i < 5 ==> Numbered(i) in m
    ensures var r := CalibrationFactors(Some("GeoEye"), Some("IK01"), bands, Ok(Some(m)));
      (bands != 1 && bands != 4 ==> r == Err(NameError)) &&
      (bands == 1 ==> r == Ok([m[Numbered(4)]])) &&
      (bands == 4 ==> r == Ok([m[Numbered(0)], m[Numbered(1)], m[Numbered(2)], m[Numbered(3)]]))
  {
    assert Numbered(0) in m;
    assert Numbered(0) in m.Keys;
    assert |m| > 0;
    BandLists();
    if bands == 1 {
      var one := [Numbered(4)];
      assert one[0] in m;
      FactorsAllPresent(one, m);
      assert Factors(one, m) == [m[Numbered(4)]];
      assert CalibrationFactors(Some("GeoEye"), Some("IK01"), bands, Ok(Some(m))) == Ok(Factors(one, m));
    } else if bands == 4 {
      var four := [Numbered(0), Numbered(1), Numbered(2), Numbered(3)];
      assert forall k :: 0 <= k < 4 ==> four[k] == Numbered(k);
      FactorsAllPresent(four, m);
      assert Factors(four, m) == [m[Numbered(0)], m[Numbered(1)], m[Numbered(2)], m[Numbered(3)]];
      assert CalibrationFactors(Some("GeoEye"), Some("IK01"), bands, Ok(Some(m))) == Ok(Factors(four, m));
    }
  }

  /** The coefficient era changes at 2001-02-22 00:00: the old coefficients hold strictly
      before it, the new ones from that minute on; the panchromatic band has the same
      coefficient in both eras. */
  lemma IKEra(band: nat, d: Stamp)
    requires band < 5 && d.hour >= 0 && d.minute >= 0
    ensures IKCoef(band, d) == if Before(d, Breakdate) then IKCoefsBefore[band] else IKCoefsAfter[band]
    ensures Before(d, Breakdate) <==> d.year < 2001 || (d.year == 2001 && (d.month < 2 || (d.month == 2 && d.day < 22)))
    ensures IKCoef(4, d) == 161
    ensures band < 4 ==> IKCoefsBefore[band] < IKCoefsAfter[band]
  {
  }
}
