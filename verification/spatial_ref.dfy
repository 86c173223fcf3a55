/** `SpatialRef`: an EPSG code, checked by GDAL, and its proj4 text with the two raw datum
    spellings `+ellps=… +towgs84=0,…` rewritten to their `+datum=` shorthand. GDAL's
    `ImportFromEPSG` and `ExportToProj4` are not part of this model; they are passed in. */
module SpatialReference {
  import opened Base

  /** The OGR error code `ImportFromEPSG` returns for a code. */
  type Importer = int -> int
  /** The proj4 text `ExportToProj4` gives after a code was imported. */
  type Exporter = int -> string

  /** OGRERR_UNSUPPORTED_SRS. */
  const UnsupportedSrs: int := 7

  datatype SpatialRef = SpatialRef(epsg: int, proj4: string)

  /** The raw NAD83 and WGS84 datum spellings and their shorthand. */
  const RawNad83: string := "+ellps=GRS80 +towgs84=0,0,0,0,0,0,0"
  const DatumNad83: string := "+datum=NAD83"
  const RawWgs84: string := "+ellps=WGS84 +towgs84=0,0,0,0,0,0,0"
  const DatumWgs84: string := "+datum=WGS84"

  /** The rewrites, as (pattern, replacement). */
  const Proj4Patterns: seq<(string, string)> := [(RawNad83, DatumNad83), (RawWgs84, DatumWgs84)]

  /** `s.replace(pat, rep)`: occurrences are replaced left to right and never overlap. */
  function ReplaceAll(s: string, pat: string, rep: string): (r: string)
    requires pat != []
  {
    ReplaceFrom(s, pat, rep, 0)
  }

  /** The scan of `replace` from position `k` of `s`. */
  function ReplaceFrom(s: string, pat: string, rep: string, k: nat): (r: string)
    requires pat != [] && k <= |s|
    decreases |s| - k
  {
    if |s| - k < |pat| then s[k..]
    else if OccursAt(s, pat, k) then rep + ReplaceFrom(s, pat, rep, k + |pat|)
    else [s[k]] + ReplaceFrom(s, pat, rep, k + 1)
  }

  /** The rewrite loop: each pattern found in the text is replaced everywhere. */
  function Normalise(s: string, ps: seq<(string, string)>): string
    requires forall k :: 0 <= k < |ps| ==> ps[k].0 != []
    decreases |ps|
  {
    if ps == [] then s
    else Normalise(if Contains(s, ps[0].0) then ReplaceAll(s, ps[0].0, ps[0].1) else s, ps[1..])
  }

  /** The spatial reference for the option value `epsg`, or the RuntimeError raised for a
      value that is not an integer or a code GDAL does not support. */
  function MakeSpatialRef(epsg: string, importEpsg: Importer, exportProj4: Exporter): (r: Result<SpatialRef>)
    ensures r.Err? ==> r.error == RuntimeError
  {
    match ParseInt(epsg)
    case None => Err(RuntimeError)
    case Some(code) =>
      if importEpsg(code) == UnsupportedSrs then Err(RuntimeError)
      else Ok(SpatialRef(code, Normalise(exportProj4(code), Proj4Patterns)))
  }

  /** The body of the constructor, with the rewrite loop. */
  method NewSpatialRef(epsg: string, importEpsg: Importer, exportProj4: Exporter) returns (r: Result<SpatialRef>)
    ensures r == MakeSpatialRef(epsg, importEpsg, exportProj4)
  {
    var code := ParseInt(epsg);
    if code.None? {
      return Err(RuntimeError);
    }
    if importEpsg(code.value) == UnsupportedSrs {
      return Err(RuntimeError);
    }
    var proj4 := exportProj4(code.value);
    var i := 0;
    while i < |Proj4Patterns|
      invariant 0 <= i <= |Proj4Patterns|
      invariant Normalise(exportProj4(code.value), Proj4Patterns) == Normalise(proj4, Proj4Patterns[i..])
    {
      assert Proj4Patterns[i..][1..] == Proj4Patterns[i + 1..];
      var (pattern, replacement) := Proj4Patterns[i];
      if Contains(proj4, pattern) {
        proj4 := ReplaceAll(proj4, pattern, replacement);
      }
      i := i + 1;
    }
    assert Proj4Patterns[i..] == [];
    return Ok(SpatialRef(code.value, proj4));
  }

  // ---------------------------------------------------------------------------
  // What `replace` does
  // ---------------------------------------------------------------------------

  /** Text without the pattern is left alone, so the `find` guard before each `replace`
      changes nothing. */
  lemma ReplaceAllAbsent(s: string, pat: string, rep: string)
    requires pat != [] && !Contains(s, pat)
    ensures ReplaceAll(s, pat, rep) == s
  {
    CopyFrom(s, pat, rep, 0, |s|);
    assert s[0..|s|] == s && s[|s|..] == [];
  }

  /** Up to the first occurrence the text is copied; that occurrence is replaced and the
      scan resumes after it. */
  lemma ReplaceAllFirst(s: string, pat: string, rep: string, i: nat)
    requires pat != [] && OccursAt(s, pat, i)
    requires forall j :: 0 <= j < i ==> !OccursAt(s, pat, j)
    ensures ReplaceAll(s, pat, rep) == s[..i] + rep + ReplaceFrom(s, pat, rep, i + |pat|)
  {
    CopyFrom(s, pat, rep, 0, i);
    ReplaceAt(s, pat, rep, i);
    Regroup(s[..i], rep, ReplaceFrom(s, pat, rep, i + |pat|));
    assert s[0..i] == s[..i];
  }

  /** An occurrence where the scan stands is replaced. */
  lemma ReplaceAt(s: string, pat: string, rep: string, i: nat)
    requires pat != [] && OccursAt(s, pat, i)
    ensures ReplaceFrom(s, pat, rep, i) == rep + ReplaceFrom(s, pat, rep, i + |pat|)
  {
  }

  lemma Regroup(x: string, y: string, z: string)
    ensures x + (y + z) == x + y + z
  {
  }

  /** From position `k`, the positions before `i` where the pattern does not start are
      copied as they are. */
  lemma {:induction false} CopyFrom(s: string, pat: string, rep: string, k: nat, i: nat)
    requires pat != [] && k <= i <= |s|
    requires forall j :: k <= j < i ==> !OccursAt(s, pat, j)
    ensures ReplaceFrom(s, pat, rep, k) == s[k..i] + ReplaceFrom(s, pat, rep, i)
    decreases i - k
  {
    if k == i {
      assert s[k..i] == [];
    } else if |s| - k < |pat| {
      assert s[k..] == s[k..i] + s[i..];
    } else {
      CopyFrom(s, pat, rep, k + 1, i);
      assert s[k..i] == [s[k]] + s[k + 1..i];
    }
  }

  /** Every rewrite leaves the text unchanged when its pattern is absent. */
  lemma {:induction false} NormaliseAbsent(s: string, ps: seq<(string, string)>)
    requires forall k :: 0 <= k < |ps| ==> ps[k].0 != [] && !Contains(s, ps[k].0)
    ensures Normalise(s, ps) == s
    decreases |ps|
  {
    if ps != [] {
      NormaliseAbsent(s, ps[1..]);
    }
  }

  /** The constructor succeeds exactly for an integer GDAL accepts; the reference keeps that
      code, and proj4 text without either raw datum spelling is kept as exported. */
  lemma SpatialRefOutcome(epsg: string, importEpsg: Importer, exportProj4: Exporter)
    ensures var r := MakeSpatialRef(epsg, importEpsg, exportProj4);
      (r.Ok? <==> ParseInt(epsg).Some? && importEpsg(ParseInt(epsg).value) != UnsupportedSrs) &&
      (r.Ok? ==> r.value.epsg == ParseInt(epsg).value) &&
      (r.Ok? ==> (forall k :: 0 <= k < |Proj4Patterns| ==> !Contains(exportProj4(r.value.epsg), Proj4Patterns[k].0)) ==>
         r.value.proj4 == exportProj4(r.value.epsg))
  {
    var r := MakeSpatialRef(epsg, importEpsg, exportProj4);
    if r.Ok? && forall k :: 0 <= k < |Proj4Patterns| ==> !Contains(exportProj4(r.value.epsg), Proj4Patterns[k].0) {
      NormaliseAbsent(exportProj4(r.value.epsg), Proj4Patterns);
    }
  }

  /** An EPSG code written as decimal digits is read back as that code. */
  lemma SpatialRefOfCode(n: int, importEpsg: Importer, exportProj4: Exporter)
    ensures var r := MakeSpatialRef(ShowInt(n), importEpsg, exportProj4);
      (r.Ok? <==> importEpsg(n) != UnsupportedSrs) && (r.Ok? ==> r.value.epsg == n)
  {
    ParseShowInt(n);
  }

  // ---------------------------------------------------------------------------
  // What the rewrite achieves
  // ---------------------------------------------------------------------------

  /** Text `a` laid over `x` from offset `m` disagrees with `x` somewhere they share. */
  predicate Clash(x: string, m: nat, a: string)
  {
    exists j :: 0 <= j < |a| && m + j < |x| && x[m + j] != a[j]
  }

  /** No occurrence of `a` can start inside `x`. */
  predicate StartsApart(x: string, a: string)
  {
    forall m :: 0 <= m < |x| ==> Clash(x, m, a)
  }

  /** No occurrence of `a` can run into the start of `x`. */
  predicate EndsApart(a: string, x: string)
  {
    forall m :: 1 <= m < |a| ==> Clash(a, m, x)
  }

  lemma OccursShift(x: string, y: string, p: string, j: nat)
    requires OccursAt(y, p, j)
    ensures OccursAt(x + y, p, |x| + j)
  {
    assert (x + y)[|x| + j..|x| + j + |p|] == y[j..j + |p|];
  }

  lemma OccursUnshift(x: string, y: string, p: string, j: nat)
    requires OccursAt(x + y, p, |x| + j)
    ensures OccursAt(y, p, j)
  {
    assert (x + y)[|x| + j..|x| + j + |p|] == y[j..j + |p|];
  }

  /** An occurrence in a suffix is an occurrence in the text. */
  lemma TailOccurs(s: string, a: string, k: nat, j: nat)
    requires k <= |s|
    ensures OccursAt(s[k..], a, j) ==> OccursAt(s, a, k + j)
  {
    if OccursAt(s[k..], a, j) {
      assert s[k..][j..j + |a|] == s[k + j..k + j + |a|];
    }
  }

  /** An occurrence of `a` at `j` agrees with the text character by character. */
  lemma OccursChars(s: string, a: string, j: nat, k: nat)
    requires OccursAt(s, a, j) && k < |a|
    ensures s[j + k] == a[k]
  {
    assert s[j..j + |a|][k] == s[j + k];
  }

  /** An occurrence of `a` cannot begin inside a copy of `x`. */
  lemma NotStartingIn(w: string, x: string, a: string, i: nat, m: nat)
    requires i + |x| <= |w| && w[i..i + |x|] == x && m < |x| && Clash(x, m, a)
    ensures !OccursAt(w, a, i + m)
  {
    var j :| 0 <= j < |a| && m + j < |x| && x[m + j] != a[j];
    assert w[i + m + j] == x[m + j];
  }

  /** A `replace` scan from `k` leaves no occurrence of `a`, when every occurrence of `a` at
      or after `k` is one of the pattern (so it gets replaced) and the replacement can
      neither hold the start of an `a` nor be run into by one. With `a` the pattern itself
      this says that `replace` leaves no occurrence of its pattern behind. */
  lemma {:induction false} NoneAfterReplace(s: string, pat: string, rep: string, a: string, k: nat)
    requires pat != [] && rep != [] && a != [] && k <= |s|
    requires forall j :: k <= j <= |s| && OccursAt(s, a, j) ==> OccursAt(s, pat, j)
    requires StartsApart(rep, a) && EndsApart(a, rep)
    ensures forall j: nat :: !OccursAt(ReplaceFrom(s, pat, rep, k), a, j)
    decreases |s| - k
  {
    var w := ReplaceFrom(s, pat, rep, k);
    if |s| - k < |pat| {
      forall j: nat ensures !OccursAt(w, a, j) {
        TailOccurs(s, a, k, j);
      }
    } else if OccursAt(s, pat, k) {
      var rest := ReplaceFrom(s, pat, rep, k + |pat|);
      NoneAfterReplace(s, pat, rep, a, k + |pat|);
      assert w == rep + rest;
      forall j: nat ensures !OccursAt(w, a, j) {
        if j < |rep| {
          assert w[0..|rep|] == rep;
          NotStartingIn(w, rep, a, 0, j);
        } else if OccursAt(w, a, j) {
          OccursUnshift(rep, rest, a, j - |rep|);
        }
      }
    } else {
      var rest := ReplaceFrom(s, pat, rep, k + 1);
      NoneAfterReplace(s, pat, rep, a, k + 1);
      assert w == [s[k]] + rest;
      forall j: nat ensures !OccursAt(w, a, j) {
        if j == 0 {
          Straddle(s, pat, rep, a, k, k + 1);
          assert !OccursAt(w, a, 0);
        } else if OccursAt(w, a, j) {
          OccursUnshift([s[k]], rest, a, j - 1);
        }
      }
    }
  }

  /** The copied character at `k` cannot start an occurrence of `a` in the output: the
      occurrence would either lie in the original text, or run into a replacement. The scan
      looks for a pattern occurrence in `k + 1 .. i - 1` and finds none so far. */
  lemma {:induction false} Straddle(s: string, pat: string, rep: string, a: string, k: nat, i: nat)
    requires pat != [] && rep != [] && a != [] && k < i <= k + |a| && i <= |s| && k + |pat| <= |s|
    requires !OccursAt(s, pat, k) && !OccursAt(s, a, k)
    requires forall j :: k < j < i ==> !OccursAt(s, pat, j)
    requires EndsApart(a, rep)
    ensures !OccursAt([s[k]] + ReplaceFrom(s, pat, rep, k + 1), a, 0)
    decreases k + |a| - i
  {
    if i == k + |a| || i == |s| {
      StraddleCopied(s, pat, rep, a, k, i);
    } else if OccursAt(s, pat, i) {
      StraddleReplaced(s, pat, rep, a, k, i);
    } else {
      Straddle(s, pat, rep, a, k, i + 1);
    }
  }

  /** The output from the copied character at `k` up to the next pattern occurrence. */
  lemma CopiedHead(s: string, pat: string, rep: string, k: nat, i: nat)
    requires pat != [] && k < i <= |s|
    requires forall j :: k < j < i ==> !OccursAt(s, pat, j)
    ensures [s[k]] + ReplaceFrom(s, pat, rep, k + 1) == s[k..i] + ReplaceFrom(s, pat, rep, i)
  {
    CopyFrom(s, pat, rep, k + 1, i);
    assert [s[k]] + s[k + 1..i] == s[k..i];
  }

  /** No pattern occurrence up to the end of the text or of a would-be `a`: the output starts
      with the original text, which holds no `a` at `k`. */
  lemma StraddleCopied(s: string, pat: string, rep: string, a: string, k: nat, i: nat)
    requires pat != [] && k < i <= |s| && i <= k + |a| && k + |pat| <= |s| && (i == k + |a| || i == |s|)
    requires !OccursAt(s, a, k)
    requires forall j :: k < j < i ==> !OccursAt(s, pat, j)
    ensures !OccursAt([s[k]] + ReplaceFrom(s, pat, rep, k + 1), a, 0)
  {
    CopiedHead(s, pat, rep, k, i);
    var w := s[k..i] + ReplaceFrom(s, pat, rep, i);
    if i == k + |a| {
      assert w[..|a|] == s[k..k + |a|];
    } else {
      assert ReplaceFrom(s, pat, rep, i) == [];
      assert |w| < |a| by {
        assert |s[k..i]| == i - k;
      }
    }
  }

  /** The first pattern occurrence after `k` is at `i`, within reach of an `a` starting at
      `k`: that `a` would run into the replacement. */
  lemma StraddleReplaced(s: string, pat: string, rep: string, a: string, k: nat, i: nat)
    requires pat != [] && rep != [] && k < i < k + |a| && OccursAt(s, pat, i)
    requires forall j :: k < j < i ==> !OccursAt(s, pat, j)
    requires EndsApart(a, rep)
    ensures !OccursAt([s[k]] + ReplaceFrom(s, pat, rep, k + 1), a, 0)
  {
    CopiedHead(s, pat, rep, k, i);
    var rest := ReplaceFrom(s, pat, rep, i + |pat|);
    assert ReplaceFrom(s, pat, rep, i) == rep + rest;
    var head := s[k..i];
    var w := head + (rep + rest);
    assert |head| == i - k;
    assert Clash(a, i - k, rep);
    var j :| 0 <= j < |rep| && i - k + j < |a| && a[i - k + j] != rep[j];
    assert w[i - k + j] == rep[j];
  }

  /** `replace` puts its replacement in wherever it finds the pattern at or after `k`. */
  lemma {:induction false} ReplacementPresent(s: string, pat: string, rep: string, k: nat, i: nat)
    requires pat != [] && k <= i && OccursAt(s, pat, i)
    ensures Contains(ReplaceFrom(s, pat, rep, k), rep)
    decreases i - k
  {
    if OccursAt(s, pat, k) {
      assert OccursAt(rep + ReplaceFrom(s, pat, rep, k + |pat|), rep, 0);
    } else {
      ReplacementPresent(s, pat, rep, k + 1, i);
      var rest := ReplaceFrom(s, pat, rep, k + 1);
      var j: nat :| j <= |rest| && OccursAt(rest, rep, j);
      OccursShift([s[k]], rest, rep, j);
    }
  }

  /** `b` cannot start strictly inside an occurrence of the pattern that it does not end apart from. */
  lemma NotInsidePattern(s: string, pat: string, b: string, k: nat, i: nat)
    requires b != [] && k < i < k + |pat| && EndsApart(pat, b)
    ensures !(OccursAt(s, pat, k) && OccursAt(s, b, i))
  {
    if OccursAt(s, pat, k) && OccursAt(s, b, i) {
      assert Clash(pat, i - k, b);
      var j :| 0 <= j < |b| && i - k + j < |pat| && pat[i - k + j] != b[j];
      OccursChars(s, pat, k, i - k + j);
      OccursChars(s, b, i, j);
    }
  }

  /** An occurrence of `b` at `i` that the pattern can neither start inside nor run into
      survives a `replace` scan from `k`. */
  lemma {:induction false} KeptThroughReplace(s: string, pat: string, rep: string, b: string, k: nat, i: nat)
    requires pat != [] && b != [] && k <= i && OccursAt(s, b, i)
    requires StartsApart(b, pat) && EndsApart(pat, b)
    ensures Contains(ReplaceFrom(s, pat, rep, k), b)
    decreases i - k
  {
    var w := ReplaceFrom(s, pat, rep, k);
    if |s| - k < |pat| {
      assert w == s[k..];
      assert s[k..][i - k..i - k + |b|] == s[i..i + |b|];
      assert OccursAt(w, b, i - k);
    } else if k == i {
      forall j | i <= j < i + |b| ensures !OccursAt(s, pat, j) {
        NotStartingIn(s, b, pat, i, j - i);
      }
      CopyFrom(s, pat, rep, i, i + |b|);
      assert OccursAt(w, b, 0);
    } else if OccursAt(s, pat, k) {
      if i < k + |pat| {
        NotInsidePattern(s, pat, b, k, i);
        assert false;
      }
      KeptThroughReplace(s, pat, rep, b, k + |pat|, i);
      var rest := ReplaceFrom(s, pat, rep, k + |pat|);
      var j: nat :| j <= |rest| && OccursAt(rest, b, j);
      OccursShift(rep, rest, b, j);
    } else {
      KeptThroughReplace(s, pat, rep, b, k + 1, i);
      var rest := ReplaceFrom(s, pat, rep, k + 1);
      var j: nat :| j <= |rest| && OccursAt(rest, b, j);
      OccursShift([s[k]], rest, b, j);
    }
  }

  /** The shape of a shorthand: `+d`, and no other `+`. */
  predicate DatumShape(x: string)
  {
    |x| > 1 && x[0] == '+' && x[1] == 'd' && forall m :: 1 <= m < |x| ==> x[m] != '+'
  }

  /** The shape of a raw spelling: `+e`, and every other `+` followed by `t`. */
  predicate RawShape(x: string)
  {
    |x| > 7 && x[0] == '+' && x[1] == 'e' &&
    forall m :: 1 <= m < |x| ==> x[m] != '+' || (m + 1 < |x| && x[m + 1] == 't')
  }

  lemma DatumShapes()
    ensures DatumShape(DatumNad83) && DatumShape(DatumWgs84)
  {
  }

  lemma RawNad83Shape()
    ensures RawShape(RawNad83)
  {
  }

  lemma RawWgs84Shape()
    ensures RawShape(RawWgs84)
  {
  }

  /** Neither raw spelling can overlap a shorthand: the shorthand holds no `+` after its
      first character, and a `+` of the raw spelling is followed by `e` or `t`, never `d`. */
  lemma ShorthandApart(datum: string, raw: string)
    requires DatumShape(datum) && RawShape(raw)
    ensures StartsApart(datum, raw) && EndsApart(raw, datum)
  {
    forall m | 0 <= m < |datum| ensures Clash(datum, m, raw) {
      if m == 0 {
        assert datum[0 + 1] != raw[1];
      } else {
        assert datum[m + 0] != raw[0];
      }
    }
    forall m | 1 <= m < |raw| ensures Clash(raw, m, datum) {
      assert raw[m] != '+' || (m + 1 < |raw| && raw[m + 1] == 't');
      if raw[m] != '+' {
        assert raw[m + 0] != datum[0];
      } else {
        assert raw[m + 1] != datum[1];
      }
    }
  }

  /** The two raw spellings part at their eighth character (`W` against `G`) and have their
      other `+` at `+towgs84`: the WGS84 spelling can neither hold the start of a NAD83 one
      nor be run into by one. */
  lemma RawApart()
    ensures StartsApart(RawWgs84, RawNad83) && EndsApart(RawNad83, RawWgs84)
  {
    RawNad83Shape();
    RawWgs84Shape();
    var x, a := RawWgs84, RawNad83;
    forall m | 0 <= m < |x| ensures Clash(x, m, a) {
      if m == 0 {
        assert x[0 + 7] != a[7];
      } else if x[m] != '+' {
        assert x[m + 0] != a[0];
      } else {
        assert x[m] != '+' || (m + 1 < |x| && x[m + 1] == 't');
        assert x[m + 1] != a[1];
      }
    }
    forall m | 1 <= m < |a| ensures Clash(a, m, x) {
      assert a[m] != '+' || (m + 1 < |a| && a[m + 1] == 't');
      if a[m] != '+' {
        assert a[m + 0] != x[0];
      } else {
        assert a[m + 1] != x[1];
      }
    }
  }

  /** The rewrite loop leaves neither raw spelling in the proj4 text, and puts in each
      shorthand whose raw spelling the text held. */
  lemma DatumShorthand(s: string)
    ensures var r := Normalise(s, Proj4Patterns);
      !Contains(r, RawNad83) && !Contains(r, RawWgs84) &&
      (Contains(s, RawNad83) ==> Contains(r, DatumNad83)) &&
      (Contains(s, RawWgs84) ==> Contains(r, DatumWgs84))
  {
    var s1 := if Contains(s, RawNad83) then ReplaceAll(s, RawNad83, DatumNad83) else s;
    var r := if Contains(s1, RawWgs84) then ReplaceAll(s1, RawWgs84, DatumWgs84) else s1;
    var tail := Proj4Patterns[1..];
    assert Proj4Patterns[0] == (RawNad83, DatumNad83) && tail == [(RawWgs84, DatumWgs84)];
    assert Normalise(s, Proj4Patterns) == Normalise(s1, tail);
    assert tail[1..] == [];
    assert Normalise(s1, tail) == r;
    FirstRewrite(s);
    SecondRewrite(s1);
  }

  /** After the NAD83 rewrite: no raw NAD83 spelling, its shorthand if it had one, and every
      raw WGS84 spelling of the text still there. */
  lemma FirstRewrite(s: string)
    ensures var s1 := if Contains(s, RawNad83) then ReplaceAll(s, RawNad83, DatumNad83) else s;
      !Contains(s1, RawNad83) &&
      (Contains(s, RawNad83) ==> Contains(s1, DatumNad83)) &&
      (Contains(s, RawWgs84) ==> Contains(s1, RawWgs84))
  {
    if Contains(s, RawNad83) {
      DatumShapes();
      RawNad83Shape();
      ShorthandApart(DatumNad83, RawNad83);
      NoneAfterReplace(s, RawNad83, DatumNad83, RawNad83, 0);
      var i: nat :| i <= |s| && OccursAt(s, RawNad83, i);
      ReplacementPresent(s, RawNad83, DatumNad83, 0, i);
      if Contains(s, RawWgs84) {
        RawApart();
        var i2: nat :| i2 <= |s| && OccursAt(s, RawWgs84, i2);
        KeptThroughReplace(s, RawNad83, DatumNad83, RawWgs84, 0, i2);
      }
    }
  }

  /** The WGS84 rewrite removes the raw WGS84 spelling, puts its shorthand in, and neither
      brings back a raw NAD83 spelling nor loses a NAD83 shorthand. */
  lemma SecondRewrite(s1: string)
    requires !Contains(s1, RawNad83)
    ensures var r := if Contains(s1, RawWgs84) then ReplaceAll(s1, RawWgs84, DatumWgs84) else s1;
      !Contains(r, RawNad83) && !Contains(r, RawWgs84) &&
      (Contains(s1, RawWgs84) ==> Contains(r, DatumWgs84)) &&
      (Contains(s1, DatumNad83) ==> Contains(r, DatumNad83))
  {
    if Contains(s1, RawWgs84) {
      DatumShapes();
      RawNad83Shape();
      RawWgs84Shape();
      ShorthandApart(DatumWgs84, RawWgs84);
      ShorthandApart(DatumWgs84, RawNad83);
      NoneAfterReplace(s1, RawWgs84, DatumWgs84, RawWgs84, 0);
      NoneAfterReplace(s1, RawWgs84, DatumWgs84, RawNad83, 0);
      var i: nat :| i <= |s1| && OccursAt(s1, RawWgs84, i);
      ReplacementPresent(s1, RawWgs84, DatumWgs84, 0, i);
      if Contains(s1, DatumNad83) {
        ShorthandApart(DatumNad83, RawWgs84);
        var i2: nat :| i2 <= |s1| && OccursAt(s1, DatumNad83, i2);
        KeptThroughReplace(s1, RawWgs84, DatumWgs84, DatumNad83, 0, i2);
      }
    }
  }

  /** A constructed reference writes its datum with the `+datum=` shorthand: its proj4 text
      holds neither raw spelling, and holds each shorthand whose raw spelling GDAL exported. */
  lemma SpatialRefDatum(epsg: string, importEpsg: Importer, exportProj4: Exporter)
    ensures var r := MakeSpatialRef(epsg, importEpsg, exportProj4);
      r.Ok? ==>
        !Contains(r.value.proj4, RawNad83) && !Contains(r.value.proj4, RawWgs84) &&
        (Contains(exportProj4(r.value.epsg), RawNad83) ==> Contains(r.value.proj4, DatumNad83)) &&
        (Contains(exportProj4(r.value.epsg), RawWgs84) ==> Contains(r.value.proj4, DatumWgs84))
  {
    var r := MakeSpatialRef(epsg, importEpsg, exportProj4);
    if r.Ok? {
      DatumShorthand(exportProj4(r.value.epsg));
    }
  }
}
