/** `processImage`: the checks and stages of one orthorectification run, threaded through the
    `err` flag. The file system is the set of paths that exist. The stages themselves (stacking,
    copying, statistics, overlap test, metadata, warping, final calculation) are GDAL work and
    external commands and are not part of this model: each is passed in as its outcome, a
    return code and the file system it leaves, or, for the stages that can raise, the
    exception. Nothing in `processImage` catches a stage's exception. */
module Pipeline {
  import opened Base
  import opened SpatialReference
  import Calibration

  // ---------------------------------------------------------------------------
  // The product-code check
  // ---------------------------------------------------------------------------

  /** The groups of a match of the product-code pattern on the file name. */
  datatype ProductMatch = ProductMatch(prod: Option<string>, tile: Option<string>, ext: string)

  /** The pattern's `prod` group, when it takes part, is four word characters. */
  predicate WellShaped(m: Option<ProductMatch>)
  {
    m.Some? && m.value.prod.Some? ==> |m.value.prod.value| == 4
  }

  /** Whether the product is refused: a mosaic, a `3*` product, or a tiled level-2A GeoTIFF.
      A match without the optional `prod` group fails on `None[3]` (TypeError). */
  function ProductRejected(m: Option<ProductMatch>): (r: Result<bool>)
    requires WellShaped(m)
    ensures r.Err? <==> m.Some? && m.value.prod.None?
    ensures r.Err? ==> r.error == TypeError
    ensures m.None? ==> r == Ok(false)
  {
    match m
    case None => Ok(false)
    case Some(g) =>
      match g.prod
      case None => Err(TypeError)
      case Some(prod) =>
        Ok(prod[3] == 'M' || prod[1] == '3' || (prod[1..3] == "2A" && g.tile.Some? && g.ext == ".tif"))
  }

  /** Each reason refuses the product on its own; a 2A product is refused only when it is
      both tiled and a GeoTIFF, and a product with none of the three marks is accepted. */
  lemma ProductReasons(prod: string, tile: Option<string>, ext: string)
    requires |prod| == 4
    ensures var r := ProductRejected(Some(ProductMatch(Some(prod), tile, ext)));
      r.Ok? &&
      (prod[3] == 'M' ==> r.value) &&
      (prod[1] == '3' ==> r.value) &&
      (prod[1..3] == "2A" && tile.Some? && ext == ".tif" ==> r.value) &&
      (prod[3] != 'M' && prod[1] != '3' && (tile.None? || ext != ".tif") ==> !r.value) &&
      (prod[3] != 'M' && prod[1] != '3' && prod[1..3] != "2A" ==> !r.value)
  {
  }

  // ---------------------------------------------------------------------------
  // Runs
  // ---------------------------------------------------------------------------

  /** The stages a run can reach, in the order they can happen. */
  datatype Step = Stacked | CopiedIn | Stats | OverlapChecked | MetadataWritten | Warped | Calculated | CopiedOut

  /** The outcome of a stage: its return code and the files it leaves. */
  datatype Outcome = Outcome(rc: int, fs: set<string>)

  /** The paths of a run (their derivation from the source, destination and working
      directory is not part of this model); `members` are the IKONOS band images. */
  datatype Paths = Paths(srcfp: string, srcfn: string, dstfp: string, localsrc: string, localdst: string,
                         warpfile: string, vrtfile: string, members: seq<string>)

  /** The options a run reads; `dem` says a DEM was given, `wd` a working directory. */
  datatype Options = Options(epsg: string, dem: bool, skipWarp: bool, wd: bool, saveTemps: bool, stretch: string)

  /** What `GetCalibrationFactors` reads for the image: the vendor, sensor and band count that
      `GetImageStats` records, and what the vendor's metadata reader gives. */
  datatype CalibInput = CalibInput(vendor: Option<string>, sat: Option<string>, bands: int,
                                   found: Result<Option<Calibration.CalibDict>>)

  /** What the outside world does: GDAL's EPSG import and proj4 export, the product-code
      search, the stages, whether `os.remove` succeeds on a path, and what `glob` lists for a
      pattern whose root holds glob metacharacters. `stats` (`GetImageStats`, which raises
      KeyError for an unknown GCP id, see `Tables.GcpTableMeaning`), `metadata`
      (`WriteOutputMetadata`, which raises NameError for an unknown vendor, see
      `OutputMetadata.OutputTree`) and `calculate` (the part of `calcStats` after the
      calibration factors) can raise. */
  datatype World = World(
    importEpsg: Importer, exportProj4: Exporter,
    searchProduct: string -> Option<ProductMatch>,
    stack: set<string> -> set<string>,
    copyIn: set<string> -> set<string>,
    stats: set<string> -> Result<Outcome>,
    overlaps: set<string> -> bool,
    metadata: set<string> -> Result<Outcome>,
    warp: set<string> -> Outcome,
    calib: CalibInput,
    calculate: set<string> -> Result<Outcome>,
    copyOut: set<string> -> set<string>,
    removable: string -> bool,
    magicGlob: string -> set<string>)

  /** `GetCalibrationFactors(info)` for the image. */
  function ImageFactors(w: World): (r: Result<seq<real>>)
    ensures r.Err? && w.calib.found.Ok? ==> r.error in {AttributeError, TypeError, NameError}
  {
    Calibration.CalibrationFactors(w.calib.vendor, w.calib.sat, w.calib.bands, w.calib.found)
  }

  /** `calcStats`: for a stretch other than `ns` the calibration factors are read first; their
      exception propagates and an empty list returns 1 before any GDAL work. The rest of the
      calculation is `w.calculate`. */
  function CalcStats(o: Options, w: World, fs: set<string>): (r: Result<Outcome>)
    ensures o.stretch != "ns" && ImageFactors(w).Err? ==> r == Err(ImageFactors(w).error)
    ensures o.stretch != "ns" && ImageFactors(w) == Ok([]) ==> r == Ok(Outcome(1, fs))
    ensures r.Err? ==> (o.stretch != "ns" && ImageFactors(w).Err?) || w.calculate(fs).Err?
    ensures o.stretch == "ns" ==> r == w.calculate(fs)
  {
    if o.stretch != "ns" && ImageFactors(w).Err? then Err(ImageFactors(w).error)
    else if o.stretch != "ns" && ImageFactors(w).value == [] then Ok(Outcome(1, fs))
    else w.calculate(fs)
  }

  /** An IKONOS image calibrated with the `rd` stretch, whose metadata reads succeed, makes
      `calcStats` raise the NameError of `GetIKcalibDict` (`radfact` is never assigned). */
  lemma CalcStatsIKRadiance(o: Options, w: World, fs: set<string>, md: Calibration.IKMetadataResult,
                            parseReal: string -> Option<real>, parseStamp: string -> Option<Calibration.Stamp>,
                            refl: Calibration.Reflectance)
    requires o.stretch == "rd"
    requires w.calib.vendor == Some("GeoEye") && w.calib.sat == Some("IK01")
    requires w.calib.found == Calibration.IKFound(Calibration.IKCalibDict(md, "rd", parseReal, parseStamp, refl))
    requires Calibration.ReadAcquisition(md, parseReal, parseStamp).Ok?
    ensures CalcStats(o, w, fs) == Err(NameError)
  {
    assert Calibration.IKCalibDict(md, "rd", parseReal, parseStamp, refl) == Err(NameError);
  }

  /** A GeoEye or IKONOS image whose dictionary is not empty, with a band count other than 1 or
      4, makes `calcStats` raise NameError for a stretch other than `ns` (`bandList` is unbound). */
  lemma CalcStatsUnboundBandList(o: Options, w: World, fs: set<string>)
    requires o.stretch != "ns"
    requires w.calib.vendor == Some("GeoEye") && (w.calib.sat == Some("GE01") || w.calib.sat == Some("IK01"))
    requires w.calib.found.Ok? && w.calib.found.value.Some? && |w.calib.found.value.value| > 0
    requires w.calib.bands != 1 && w.calib.bands != 4
    ensures CalcStats(o, w, fs) == Err(NameError)
  {
    Calibration.CalibrationFactorsMeaning(w.calib.vendor, w.calib.sat, w.calib.bands, w.calib.found);
  }

  /** `e` is an exception one of the raising stages gives for some file system. */
  ghost predicate StageError(o: Options, w: World, e: PyError)
  {
    exists fs: set<string> ::
      (w.stats(fs).Err? && w.stats(fs).error == e) ||
      (w.metadata(fs).Err? && w.metadata(fs).error == e) ||
      (CalcStats(o, w, fs).Err? && CalcStats(o, w, fs).error == e)
  }

  /** None of the raising stages raises, whatever the files. */
  ghost predicate NoStageRaises(o: Options, w: World)
  {
    forall fs: set<string> :: w.stats(fs).Ok? && w.metadata(fs).Ok? && CalcStats(o, w, fs).Ok?
  }

  /** The flag, the files and the stages run so far. */
  datatype State = State(err: int, fs: set<string>, steps: seq<Step>)

  /** The result of a run: the returned flag, whether the destination existed at the final
      check, the files left and the stages run. */
  datatype Run = Run(err: int, done: bool, fs: set<string>, steps: seq<Step>)

  /** `sum(status)`: how many of `ms` exist. */
  function Present(ms: seq<string>, fs: set<string>): (n: nat)
    ensures n <= |ms|
    ensures n == |ms| <==> forall k :: 0 <= k < |ms| ==> ms[k] in fs
  {
    if ms == [] then 0 else (if ms[0] in fs then 1 else 0) + Present(ms[1..], fs)
  }

  /** The index of the last `c` in `s`, or -1 (`str.rfind`). */
  function LastIndexOf(s: string, c: char): (i: int)
    ensures -1 <= i < |s|
    ensures i >= 0 ==> s[i] == c
    ensures forall k :: i < k < |s| ==> s[k] != c
  {
    if s == [] then -1 else if s[|s| - 1] == c then |s| - 1 else LastIndexOf(s[..|s| - 1], c)
  }

  /** `os.path.splitext(p)[0]`: `p` without the text from its last `.`, when that dot lies in
      the last path component and is not one of the component's leading dots. */
  function SplitRoot(p: string): (root: string)
    ensures root <= p
  {
    var sep := LastIndexOf(p, '/');
    var dot := LastIndexOf(p, '.');
    if dot > sep && exists k :: sep < k < dot && p[k] != '.' then p[..dot] else p
  }

  predicate HasExtension(p: string)
  {
    SplitRoot(p) != p
  }

  /** `glob.has_magic`. */
  predicate HasMagic(s: string)
  {
    exists k :: 0 <= k < |s| && (s[k] == '*' || s[k] == '?' || s[k] == '[')
  }

  /** `f` matches `root + ".*"` for a root without metacharacters: the root, a dot, and any
      characters but `/`. */
  predicate StemMatch(root: string, f: string)
  {
    |root| < |f| && f[..|root|] == root && f[|root|] == '.' && '/' !in f[|root| + 1..]
  }

  /** `f` is among the paths `glob(splitext(name)[0] + ".*")` lists. */
  predicate Globbed(name: string, f: string, magicGlob: string -> set<string>)
  {
    var root := SplitRoot(name);
    if HasMagic(root) then f in magicGlob(root + ".*") else StemMatch(root, f)
  }

  /** `deleteTempFiles`: every existing path that the `glob` of some name lists is removed,
      unless `os.remove` fails on it, which is logged and ignored. */
  function Delete(fs: set<string>, names: seq<string>, w: World): set<string>
  {
    set f | f in fs && !(w.removable(f) && exists k :: 0 <= k < |names| && Globbed(names[k], f, w.magicGlob))
  }

  lemma GlobbedByOne(n: string, f: string, w: World)
    ensures (exists k :: 0 <= k < |[n]| && Globbed([n][k], f, w.magicGlob)) <==> Globbed(n, f, w.magicGlob)
  {
    if Globbed(n, f, w.magicGlob) {
      assert Globbed([n][0], f, w.magicGlob);
    }
  }

  /** A path is its root, a dot and the extension exactly when it has an extension: so the
      `glob` of a name lists the name itself exactly when the name has an extension. */
  lemma ExtensionStem(p: string)
    ensures StemMatch(SplitRoot(p), p) <==> HasExtension(p)
  {
    var sep := LastIndexOf(p, '/');
    var dot := LastIndexOf(p, '.');
    if HasExtension(p) {
      assert SplitRoot(p) == p[..dot];
    }
  }

  /** What the clean-up does to a name without metacharacters in its root: the name itself
      goes exactly when it has an extension and can be removed. */
  lemma DeleteNameItself(fs: set<string>, n: string, w: World)
    requires !HasMagic(SplitRoot(n))
    ensures n in Delete(fs, [n], w) <==> n in fs && (!HasExtension(n) || !w.removable(n))
  {
    ExtensionStem(n);
    GlobbedByOne(n, n, w);
  }

  /** Every removable path that extends the root of a name by a dot and a `/`-free tail goes
      with it: `x.tif` takes `x.tfw` and `x.tif.aux.xml` along. */
  lemma DeleteSiblings(fs: set<string>, n: string, tail: string, w: World)
    requires !HasMagic(SplitRoot(n)) && '/' !in tail
    ensures var f := SplitRoot(n) + "." + tail;
      (f !in Delete(fs, [n], w) <==> f !in fs || w.removable(f))
  {
    var root := SplitRoot(n);
    var f := root + "." + tail;
    assert f[..|root|] == root && f[|root|] == '.' && f[|root| + 1..] == tail;
    assert Globbed(n, f, w.magicGlob);
    GlobbedByOne(n, f, w);
  }

  /** A path that cannot be removed survives every clean-up. */
  lemma DeleteUnremovable(fs: set<string>, names: seq<string>, w: World, f: string)
    requires f in fs && !w.removable(f)
    ensures f in Delete(fs, names, w)
  {
  }

  /** The destination goes when its name has an extension, its root no metacharacters, and
      `os.remove` succeeds on it. */
  predicate Removes(n: string, w: World)
  {
    HasExtension(n) && !HasMagic(SplitRoot(n)) && w.removable(n)
  }

  /** `f` goes with one of the temporary names. */
  predicate Swept(names: seq<string>, f: string, w: World)
  {
    w.removable(f) && exists k :: 0 <= k < |names| && Globbed(names[k], f, w.magicGlob)
  }

  /** The source is a set of IKONOS band images still to be stacked. */
  predicate IkonosBands(p: Paths, fs: set<string>)
  {
    Contains(p.srcfn, "IK01") && Contains(p.srcfn, "msi") && p.srcfp !in fs
  }

  // ---------------------------------------------------------------------------
  // The phases of a run
  // ---------------------------------------------------------------------------

  /** The EPSG code and the product code: the flag is raised for an EPSG code GDAL refuses and
      for a refused product; a match without a product code propagates its TypeError. */
  method Checks(p: Paths, o: Options, w: World) returns (r: Result<int>)
    requires WellShaped(w.searchProduct(p.srcfn))
    ensures r.Err? <==> ProductRejected(w.searchProduct(p.srcfn)).Err?
    ensures r.Err? ==> r.error == TypeError
    ensures r.Ok? ==> r.value == 0 || r.value == 1
    ensures r.Ok? ==> (r.value == 0 <==>
      MakeSpatialRef(o.epsg, w.importEpsg, w.exportProj4).Ok? && !ProductRejected(w.searchProduct(p.srcfn)).value)
  {
    var err := 0;
    var sr := NewSpatialRef(o.epsg, w.importEpsg, w.exportProj4);
    if sr.Err? {
      err := 1;
    }
    var m := w.searchProduct(p.srcfn);
    if m.Some? {
      if m.value.prod.None? {
        return Err(TypeError);
      }
      var prod := m.value.prod.value;
      if prod[3] == 'M' {
        err := 1;
      }
      if prod[1] == '3' {
        err := 1;
      }
      if prod[1..3] == "2A" && m.value.tile.Some? && m.value.ext == ".tif" {
        err := 1;
      }
    }
    return Ok(err);
  }

  /** Getting the source into the working directory: IKONOS band images are stacked when all
      four exist and no stacked image is there yet, whatever the flag says; any other source is
      copied in when it exists and the flag is down. */
  method StageIn(p: Paths, w: World, err: int, fs: set<string>) returns (s: State)
    requires err == 0 || err == 1
    ensures s.err == 0 || s.err == 1
    ensures s.err == 0 ==> err == 0
    ensures IkonosBands(p, fs) ==> (s.err == 1 <==> err == 1 || Present(p.members, fs) != 4)
    ensures !IkonosBands(p, fs) ==> (s.err == 1 <==> err == 1 || p.srcfp !in fs)
    ensures Stacked in s.steps <==> IkonosBands(p, fs) && Present(p.members, fs) == 4 && p.localsrc !in fs
    ensures CopiedIn in s.steps <==> !IkonosBands(p, fs) && p.srcfp in fs && err == 0
    ensures s.steps == [] || s.steps == [Stacked] || s.steps == [CopiedIn]
    ensures s.steps == [] ==> s.fs == fs
    ensures s.steps == [Stacked] ==> s.fs == w.stack(fs)
    ensures s.steps == [CopiedIn] ==> s.fs == w.copyIn(fs)
  {
    s := State(err, fs, []);
    if Contains(p.srcfn, "IK01") && Contains(p.srcfn, "msi") && p.srcfp !in fs {
      if Present(p.members, fs) != 4 {
        s := s.(err := 1);
      } else if p.localsrc !in fs {
        s := s.(fs := w.stack(fs), steps := [Stacked]);
      }
    } else {
      if p.srcfp in fs {
        if err != 1 {
          s := s.(fs := w.copyIn(fs), steps := [CopiedIn]);
        }
      } else {
        s := s.(err := 1);
      }
    }
  }

  /** Statistics, the DEM overlap test and the metadata file, each only while the flag is
      down. An exception of `GetImageStats` or `WriteOutputMetadata` ends the run. */
  method Analyse(o: Options, w: World, err: int, fs: set<string>) returns (r: Result<State>)
    requires err == 0 || err == 1
    ensures err == 1 ==> r == Ok(State(1, fs, []))
    ensures r.Err? <==>
      err == 0 &&
      (w.stats(fs).Err? ||
       (w.stats(fs).value.rc != 1 && (o.dem ==> w.overlaps(w.stats(fs).value.fs)) &&
        w.metadata(w.stats(fs).value.fs).Err?))
    ensures r.Err? && w.stats(fs).Err? ==> r.error == w.stats(fs).error
    ensures r.Err? && w.stats(fs).Ok? ==> r.error == w.metadata(w.stats(fs).value.fs).error
    ensures r.Ok? ==> r.value.err == 0 || r.value.err == 1
    ensures r.Ok? ==> (Stats in r.value.steps <==> err == 0)
    ensures r.Ok? && err == 0 ==> w.stats(fs).Ok?
    ensures r.Ok? ==> (OverlapChecked in r.value.steps <==> err == 0 && o.dem && w.stats(fs).value.rc != 1)
    ensures r.Ok? ==> (MetadataWritten in r.value.steps <==>
      err == 0 && w.stats(fs).value.rc != 1 && (o.dem ==> w.overlaps(w.stats(fs).value.fs)))
    ensures r.Ok? && MetadataWritten in r.value.steps ==> w.metadata(w.stats(fs).value.fs).Ok?
    ensures r.Ok? ==> (r.value.err == 0 <==>
      MetadataWritten in r.value.steps && w.metadata(w.stats(fs).value.fs).value.rc != 1)
    ensures r.Ok? && r.value.err == 0 ==> r.value.fs == w.metadata(w.stats(fs).value.fs).value.fs
    ensures r.Ok? ==>
      CopiedIn !in r.value.steps && Stacked !in r.value.steps && Warped !in r.value.steps &&
      Calculated !in r.value.steps && CopiedOut !in r.value.steps
  {
    var s := State(err, fs, []);
    if s.err != 1 {
      var out := w.stats(s.fs);
      if out.Err? {
        return Err(out.error);
      }
      s := s.(fs := out.value.fs, steps := s.steps + [Stats]);
      if out.value.rc == 1 {
        s := s.(err := 1);
      }
    }
    if s.err != 1 {
      if o.dem {
        s := s.(steps := s.steps + [OverlapChecked]);
        if !w.overlaps(s.fs) {
          s := s.(err := 1);
        }
      }
    }
    if s.err != 1 {
      var out := w.metadata(s.fs);
      if out.Err? {
        return Err(out.error);
      }
      s := s.(fs := out.value.fs, steps := s.steps + [MetadataWritten]);
      if out.value.rc == 1 {
        s := s.(err := 1);
      }
    }
    return Ok(s);
  }

  /** What the warping stage leaves: it runs only while the flag is down, without
      `skip_warp`, and when no warp file exists. */
  function Warping(p: Paths, o: Options, w: World, err: int, fs: set<string>): (out: Outcome)
    ensures !(err == 0 && !o.skipWarp && p.warpfile !in fs) ==> out == Outcome(0, fs)
  {
    if err == 0 && !o.skipWarp && p.warpfile !in fs then w.warp(fs) else Outcome(0, fs)
  }

  /** Whether `calcStats` runs: while the flag is down, after a warping that did not fail,
      with a warp file present or with `skip_warp`. */
  predicate CalcRuns(p: Paths, o: Options, w: World, err: int, fs: set<string>)
  {
    err == 0 && Warping(p, o, w, err, fs).rc != 1 && (o.skipWarp || p.warpfile in Warping(p, o, w, err, fs).fs)
  }

  /** Warping and the final calculation. Without `skip_warp`, the image is warped only when no
      warp file exists, and the calculation runs only when a warp file exists afterwards; with
      `skip_warp` the calculation runs directly. Nothing runs once the flag is up. An
      exception of `calcStats` ends the run. */
  method Produce(p: Paths, o: Options, w: World, err: int, fs: set<string>) returns (r: Result<State>)
    requires err == 0 || err == 1
    ensures err == 1 ==> r == Ok(State(1, fs, []))
    ensures r.Err? <==> CalcRuns(p, o, w, err, fs) && CalcStats(o, w, Warping(p, o, w, err, fs).fs).Err?
    ensures r.Err? ==> r.error == CalcStats(o, w, Warping(p, o, w, err, fs).fs).error
    ensures r.Ok? ==> r.value.err == 0 || r.value.err == 1
    ensures r.Ok? ==> (Warped in r.value.steps <==> err == 0 && !o.skipWarp && p.warpfile !in fs)
    ensures r.Ok? ==> (Calculated in r.value.steps <==> CalcRuns(p, o, w, err, fs))
    ensures r.Ok? && Calculated in r.value.steps ==> CalcStats(o, w, Warping(p, o, w, err, fs).fs).Ok?
    ensures r.Ok? ==> (r.value.err == 0 <==> (err == 0 &&
      (Warped in r.value.steps ==> w.warp(fs).rc != 1) &&
      (Calculated in r.value.steps ==> CalcStats(o, w, Warping(p, o, w, err, fs).fs).value.rc != 1)))
    ensures r.Ok? ==>
      r.value.steps == [] || r.value.steps == [Warped] || r.value.steps == [Calculated] ||
      r.value.steps == [Warped, Calculated]
  {
    var s := State(err, fs, []);
    if !o.skipWarp {
      if s.err != 1 && p.warpfile !in s.fs {
        var out := w.warp(s.fs);
        s := s.(fs := out.fs, steps := [Warped]);
        if out.rc == 1 {
          s := s.(err := 1);
        }
      }
      if s.err != 1 && p.warpfile in s.fs {
        var out := CalcStats(o, w, s.fs);
        if out.Err? {
          return Err(out.error);
        }
        s := s.(fs := out.value.fs, steps := s.steps + [Calculated]);
        if out.value.rc == 1 {
          s := s.(err := 1);
        }
      }
    } else {
      if s.err != 1 {
        var out := CalcStats(o, w, s.fs);
        if out.Err? {
          return Err(out.error);
        }
        s := s.(fs := out.value.fs, steps := [Calculated]);
        if out.value.rc == 1 {
          s := s.(err := 1);
        }
      }
    }
    return Ok(s);
  }

  /** Copying out of the working directory, the final check of the destination and the
      clean-up: the run fails when the destination is missing, and a failed run deletes it,
      as far as `deleteTempFiles` reaches it. */
  method Finish(p: Paths, o: Options, w: World, err: int, fs: set<string>) returns (r: Run)
    requires err == 0 || err == 1
    ensures r.err == 0 || r.err == 1
    ensures r.err == 0 <==> err == 0 && r.done
    ensures CopiedOut in r.steps <==> o.wd && err == 0
    ensures r.steps == [] || r.steps == [CopiedOut]
    ensures var copied := if CopiedOut in r.steps then w.copyOut(fs) else fs;
      (r.done ==> p.dstfp in copied) &&
      (!o.wd || o.saveTemps ==> (r.done <==> p.dstfp in copied)) &&
      (r.fs <= copied)
    ensures r.err == 1 && Removes(p.dstfp, w) ==> p.dstfp !in r.fs
    ensures r.err == 1 && r.done && !w.removable(p.dstfp) ==> p.dstfp in r.fs
    ensures (r.err == 1 && r.done && !HasExtension(p.dstfp) && !HasMagic(SplitRoot(p.dstfp)) &&
             (o.saveTemps || !Swept([p.warpfile, p.vrtfile, p.localsrc], p.dstfp, w))) ==> p.dstfp in r.fs
    ensures r.err == 0 ==> p.dstfp in r.fs || (!o.saveTemps && Swept([p.warpfile, p.vrtfile, p.localsrc], p.dstfp, w))
    ensures o.saveTemps && r.err == 0 ==> r.fs == (if CopiedOut in r.steps then w.copyOut(fs) else fs)
  {
    var e := err;
    var files := fs;
    var steps: seq<Step> := [];
    if o.wd {
      if e != 1 {
        files := w.copyOut(files);
        steps := [CopiedOut];
      }
      if !o.saveTemps {
        files := Delete(files, [p.localdst], w);
      }
    }
    var done := p.dstfp in files;
    if !done {
      e := 1;
    }
    if !o.saveTemps {
      files := Delete(files, [p.warpfile, p.vrtfile, p.localsrc], w);
    }
    if e == 1 {
      DeleteNameOutcome(files, p.dstfp, w);
      files := Delete(files, [p.dstfp], w);
    }
    return Run(e, done, files, steps);
  }

  /** The clean-up of the destination alone, as `Finish` uses it. */
  lemma DeleteNameOutcome(fs: set<string>, n: string, w: World)
    ensures Removes(n, w) ==> n !in Delete(fs, [n], w)
    ensures n in fs && (!w.removable(n) || (!HasExtension(n) && !HasMagic(SplitRoot(n)))) ==> n in Delete(fs, [n], w)
  {
    if !HasMagic(SplitRoot(n)) {
      DeleteNameItself(fs, n, w);
    }
  }

  /** The phases after the source is in place: analysis, production and the finish. An
      exception of a stage ends the run. */
  method Stages(p: Paths, o: Options, w: World, err: int, fs: set<string>) returns (r: Result<Run>)
    requires err == 0 || err == 1
    ensures r.Err? ==> StageError(o, w, r.error)
    ensures NoStageRaises(o, w) ==> r.Ok?
    ensures r.Ok? ==> r.value.err == 0 || r.value.err == 1
    ensures r.Ok? && r.value.err == 0 ==>
      err == 0 && Stats in r.value.steps && MetadataWritten in r.value.steps && r.value.done
    ensures r.Ok? && r.value.err == 1 && Removes(p.dstfp, w) ==> p.dstfp !in r.value.fs
    ensures r.Ok? ==> Stacked !in r.value.steps && CopiedIn !in r.value.steps
    ensures r.Ok? && (Warped in r.value.steps || Calculated in r.value.steps) ==> err == 0
    ensures r.Ok? && Warped in r.value.steps ==> !o.skipWarp
    ensures r.Ok? && Calculated in r.value.steps ==> o.stretch == "ns" || ImageFactors(w).Ok?
  {
    var a := Analyse(o, w, err, fs);
    if a.Err? {
      StatsOrMetadataError(o, w, fs, a.error);
      return Err(a.error);
    }
    var s2 := a.value;
    var b := Produce(p, o, w, s2.err, s2.fs);
    if b.Err? {
      CalcStatsError(o, w, Warping(p, o, w, s2.err, s2.fs).fs, b.error);
      return Err(b.error);
    }
    var s3 := b.value;
    var s4 := Finish(p, o, w, s3.err, s3.fs);
    r := Ok(s4.(steps := s2.steps + s3.steps + s4.steps));
  }

  /** One run: the phases in order, each seeing the flag and the files the previous one
      left. An exception of the product check or of a stage ends the run. */
  method ProcessImage(p: Paths, o: Options, w: World, fs: set<string>) returns (r: Result<Run>)
    requires WellShaped(w.searchProduct(p.srcfn))
    ensures ProductRejected(w.searchProduct(p.srcfn)).Err? ==> r == Err(TypeError)
    ensures r.Err? ==> ProductRejected(w.searchProduct(p.srcfn)).Err? || StageError(o, w, r.error)
    ensures NoStageRaises(o, w) ==> (r.Err? <==> ProductRejected(w.searchProduct(p.srcfn)).Err?)
    ensures r.Ok? ==> r.value.err == 0 || r.value.err == 1
    ensures r.Ok? && r.value.err == 0 ==>
      MakeSpatialRef(o.epsg, w.importEpsg, w.exportProj4).Ok? &&
      !ProductRejected(w.searchProduct(p.srcfn)).value &&
      (IkonosBands(p, fs) ==> Present(p.members, fs) == 4) &&
      (!IkonosBands(p, fs) ==> p.srcfp in fs) &&
      Stats in r.value.steps && MetadataWritten in r.value.steps &&
      r.value.done
    ensures r.Ok? && r.value.err == 1 && Removes(p.dstfp, w) ==> p.dstfp !in r.value.fs
    ensures r.Ok? ==> (Stacked in r.value.steps <==>
      IkonosBands(p, fs) && Present(p.members, fs) == 4 && p.localsrc !in fs)
    ensures r.Ok? && (Warped in r.value.steps || Calculated in r.value.steps || CopiedIn in r.value.steps) ==>
      MakeSpatialRef(o.epsg, w.importEpsg, w.exportProj4).Ok? && !ProductRejected(w.searchProduct(p.srcfn)).value
    ensures r.Ok? && Warped in r.value.steps ==> !o.skipWarp
    ensures r.Ok? && Calculated in r.value.steps ==> o.stretch == "ns" || ImageFactors(w).Ok?
  {
    var checked := Checks(p, o, w);
    if checked.Err? {
      return Err(checked.error);
    }
    var s1 := StageIn(p, w, checked.value, fs);
    var rest := Stages(p, o, w, s1.err, s1.fs);
    if rest.Err? {
      return Err(rest.error);
    }
    r := Ok(rest.value.(steps := s1.steps + rest.value.steps));
  }

  /** An exception of `calcStats` is a stage exception. */
  lemma CalcStatsError(o: Options, w: World, fs: set<string>, e: PyError)
    requires CalcStats(o, w, fs).Err? && CalcStats(o, w, fs).error == e
    ensures StageError(o, w, e)
  {
  }

  /** An exception of the analysis phase is one of `stats` or of `metadata`. */
  lemma StatsOrMetadataError(o: Options, w: World, fs: set<string>, e: PyError)
    requires (w.stats(fs).Err? && w.stats(fs).error == e) ||
      (w.stats(fs).Ok? && w.metadata(w.stats(fs).value.fs).Err? && w.metadata(w.stats(fs).value.fs).error == e)
    ensures StageError(o, w, e)
  {
    if !(w.stats(fs).Err? && w.stats(fs).error == e) {
      var g := w.stats(fs).value.fs;
      assert w.metadata(g).Err? && w.metadata(g).error == e;
    }
  }
}
