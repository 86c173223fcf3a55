/** The fixed tables of the orthorectification run: the output bit depth tag, the stretch
    ceiling `omax`, the band selection handed to `gdal_translate`, and the numbering of the
    four corner ground control points. */
module Tables {
  import opened Base

  /** The output data types the command line accepts (`outtypes`). */
  const OutTypes: seq<string> := ["Byte", "UInt16", "Float32"]

  /** `getBitdepth`; any other type leaves `bitdepth` unbound (NameError). */
  function Bitdepth(outtype: string): (r: Result<string>)
    ensures r.Ok? <==> outtype in OutTypes
    ensures r.Err? ==> r.error == NameError
  {
    if outtype == "Byte" then Ok("u08")
    else if outtype == "UInt16" then Ok("u16")
    else if outtype == "Float32" then Ok("f32")
    else Err(NameError)
  }

  /** Each accepted type has its own three-letter tag. */
  lemma BitdepthDistinct(a: string, b: string)
    requires a in OutTypes && b in OutTypes && a != b
    ensures Bitdepth(a).Ok? && Bitdepth(b).Ok? && Bitdepth(a).value != Bitdepth(b).value
    ensures |Bitdepth(a).value| == 3
  {
  }

  /** The input ceiling `imax`. */
  const InputMax: real := 2047.0

  /** `omax`: the largest output value of the stretch, by stretch and output type; an output
      type outside the table leaves `omax` unbound (NameError). */
  function Omax(stretch: string, outtype: string): (r: Result<real>)
    ensures r.Ok? <==> outtype in OutTypes
  {
    if stretch == "ns" then
      if outtype == "Byte" then Ok(255.0)
      else if outtype == "UInt16" then Ok(2047.0)
      else if outtype == "Float32" then Ok(2047.0)
      else Err(NameError)
    else
      if outtype == "Byte" then Ok(200.0)
      else if outtype == "UInt16" then Ok(2000.0)
      else if outtype == "Float32" then Ok(1.0)
      else Err(NameError)
  }

  /** The ceiling is positive, never above the input ceiling, fits a byte for Byte output, and
      is lower for a calibrated stretch than for no stretch. */
  lemma OmaxBounds(stretch: string, outtype: string)
    requires outtype in OutTypes
    ensures var r := Omax(stretch, outtype).value;
      0.0 < r <= InputMax &&
      (outtype == "Byte" ==> r <= 255.0) &&
      (stretch != "ns" ==> r < Omax("ns", outtype).value)
  {
  }

  // ---------------------------------------------------------------------------
  // Band selection
  // ---------------------------------------------------------------------------

  /** The bands picked for `--rgb` (red, green, blue of a 4- or 8-band image) and `--bgrn`
      (blue, green, red, near infrared of an 8-band image), `--bgrn` taking precedence. */
  function RgbBandList(rgb: bool, bgrn: bool, bands: int): seq<nat>
  {
    var picked := if rgb && bands == 4 then [3, 2, 1] else if rgb && bands == 8 then [5, 3, 2] else [];
    if bgrn && bands == 8 then [2, 3, 5, 7] else picked
  }

  /** The `-b <n> ` arguments for the bands `bs`. */
  function BandArgs(bs: seq<nat>): (r: string)
    ensures bs == [] <==> r == []
  {
    if bs == [] then [] else "-b " + ShowNat(bs[0]) + " " + BandArgs(bs[1..])
  }

  /** `info.rgb_bands`. */
  function RgbBands(rgb: bool, bgrn: bool, bands: int): string
  {
    BandArgs(RgbBandList(rgb, bgrn, bands))
  }

  /** A single-digit band gives `-b <digit> `. */
  lemma BandArgsDigit(n: nat)
    requires n < 10
    ensures BandArgs([n]) == "-b " + [('0' as int + n) as char] + " "
  {
  }

  /** The arguments for a list are those of its parts, one after the other. */
  lemma {:induction false} BandArgsAppend(a: seq<nat>, b: seq<nat>)
    ensures BandArgs(a + b) == BandArgs(a) + BandArgs(b)
  {
    if a != [] {
      assert (a + b)[1..] == a[1..] + b;
      BandArgsAppend(a[1..], b);
    } else {
      assert a + b == b;
    }
  }

  /** The arguments of three single-digit bands. */
  lemma BandArgsThree(x: nat, y: nat, z: nat)
    requires x < 10 && y < 10 && z < 10
    ensures BandArgs([x, y, z]) == BandArgs([x]) + BandArgs([y]) + BandArgs([z])
  {
    BandArgsAppend([x], [y, z]);
    BandArgsAppend([y], [z]);
    assert [x] + [y, z] == [x, y, z] && [y] + [z] == [y, z];
  }

  /** The arguments for `--rgb` on a 4-band image, as written in the source. */
  lemma RgbBandsFour()
    ensures RgbBands(true, false, 4) == "-b 3 -b 2 -b 1 "
  {
    assert RgbBandList(true, false, 4) == [3, 2, 1];
    BandArgsThree(3, 2, 1);
    BandArgsDigit(3);
    BandArgsDigit(2);
    BandArgsDigit(1);
  }

  /** The arguments for `--rgb` on an 8-band image. */
  lemma RgbBandsEight()
    ensures RgbBands(true, false, 8) == "-b 5 -b 3 -b 2 "
  {
    assert RgbBandList(true, false, 8) == [5, 3, 2];
    BandArgsThree(5, 3, 2);
    BandArgsDigit(5);
    BandArgsDigit(3);
    BandArgsDigit(2);
  }

  /** The arguments for `--bgrn` on an 8-band image, with or without `--rgb`. */
  lemma BgrnBandsEight(rgb: bool)
    ensures RgbBands(rgb, true, 8) == "-b 2 -b 3 -b 5 -b 7 "
  {
    assert RgbBandList(rgb, true, 8) == [2] + [3, 5, 7];
    BandArgsAppend([2], [3, 5, 7]);
    BgrnHead();
    BgrnTail();
    BgrnJoin();
  }

  /** The first band of the `--bgrn` selection. */
  lemma BgrnHead()
    ensures BandArgs([2]) == "-b 2 "
  {
    BandArgsDigit(2);
  }

  lemma BgrnJoin()
    ensures "-b 2 " + "-b 3 -b 5 -b 7 " == "-b 2 -b 3 -b 5 -b 7 "
  {
  }

  /** The last three bands of the `--bgrn` selection. */
  lemma BgrnTail()
    ensures BandArgs([3, 5, 7]) == "-b 3 -b 5 -b 7 "
  {
    BandArgsThree(3, 5, 7);
    BandArgsDigit(3);
    BandArgsDigit(5);
    BandArgsDigit(7);
  }

  /** Only existing bands are selected, each at most once; a selection is made exactly for a
      4- or 8-band image with `--rgb` or an 8-band image with `--bgrn`, and `--bgrn` wins. */
  lemma RgbBandListMeaning(rgb: bool, bgrn: bool, bands: int)
    ensures var bs := RgbBandList(rgb, bgrn, bands);
      (forall k :: 0 <= k < |bs| ==> 1 <= bs[k] <= bands) &&
      (forall j, k :: 0 <= j < k < |bs| ==> bs[j] != bs[k]) &&
      (bs != [] <==> (rgb && (bands == 4 || bands == 8)) || (bgrn && bands == 8)) &&
      (bgrn && bands == 8 ==> |bs| == 4) &&
      (!(bgrn && bands == 8) && bs != [] ==> |bs| == 3)
  {
  }

  // ---------------------------------------------------------------------------
  // Ground control points
  // ---------------------------------------------------------------------------

  datatype Gcp = Gcp(id: string, pixel: real, line: real, x: real, y: real, z: real)

  /** `id_dict`: both naming schemes of the corners, upper left 1, upper right 2, lower right
      3, lower left 4. */
  function CornerNumber(id: string): (r: Option<nat>)
    ensures r.Some? ==> 1 <= r.value <= 4
  {
    if id == "UpperLeft" || id == "1" then Some(1)
    else if id == "UpperRight" || id == "2" then Some(2)
    else if id == "LowerLeft" || id == "4" then Some(4)
    else if id == "LowerRight" || id == "3" then Some(3)
    else None
  }

  /** `gcp_dict`, filled point by point; an unknown id raises KeyError. */
  function GcpTable(gcps: seq<Gcp>, acc: map<nat, Gcp>): Result<map<nat, Gcp>>
    decreases |gcps|
  {
    if gcps == [] then Ok(acc)
    else match CornerNumber(gcps[0].id)
      case None => Err(KeyError)
      case Some(c) => GcpTable(gcps[1..], acc[c := gcps[0]])
  }

  method BuildGcpTable(gcps: seq<Gcp>) returns (r: Result<map<nat, Gcp>>)
    ensures r == GcpTable(gcps, map[])
  {
    var table: map<nat, Gcp> := map[];
    var i := 0;
    while i < |gcps|
      invariant 0 <= i <= |gcps|
      invariant GcpTable(gcps, map[]) == GcpTable(gcps[i..], table)
    {
      assert gcps[i..][1..] == gcps[i + 1..];
      var c := CornerNumber(gcps[i].id);
      if c.None? {
        return Err(KeyError);
      }
      table := table[c.value := gcps[i]];
      i := i + 1;
    }
    assert gcps[i..] == [];
    return Ok(table);
  }

  datatype Corners = Corners(upperLeft: Gcp, upperRight: Gcp, lowerRight: Gcp, lowerLeft: Gcp)

  /** The corner reads `gcp_dict[1]` … `gcp_dict[4]`; a missing corner raises KeyError. */
  function CornersOf(table: map<nat, Gcp>): (r: Result<Corners>)
    ensures r.Ok? <==> 1 in table && 2 in table && 3 in table && 4 in table
  {
    if 1 in table && 2 in table && 3 in table && 4 in table then
      Ok(Corners(table[1], table[2], table[3], table[4]))
    else Err(KeyError)
  }

  /** The table fails exactly when some id is unknown; otherwise its corners are those named
      by the points and the accumulated ones, each holding the last point named for it. */
  lemma {:induction false} GcpTableMeaning(gcps: seq<Gcp>, acc: map<nat, Gcp>)
    ensures var r := GcpTable(gcps, acc);
      (r.Ok? <==> forall k :: 0 <= k < |gcps| ==> CornerNumber(gcps[k].id).Some?) &&
      (r.Err? ==> r.error == KeyError) &&
      (r.Ok? ==> forall c :: c in r.value <==> c in acc || exists k :: 0 <= k < |gcps| && CornerNumber(gcps[k].id) == Some(c))
    decreases |gcps|
  {
    if gcps != [] {
      var c := CornerNumber(gcps[0].id);
      if c.Some? {
        GcpTableMeaning(gcps[1..], acc[c.value := gcps[0]]);
        forall k | 0 <= k < |gcps[1..]| ensures gcps[1..][k] == gcps[k + 1] { }
        var r := GcpTable(gcps, acc);
        if r.Ok? {
          forall d ensures d in r.value <==> d in acc || exists k :: 0 <= k < |gcps| && CornerNumber(gcps[k].id) == Some(d) {
            if exists k :: 0 <= k < |gcps| && CornerNumber(gcps[k].id) == Some(d) {
              var k :| 0 <= k < |gcps| && CornerNumber(gcps[k].id) == Some(d);
              if k > 0 {
                assert CornerNumber(gcps[1..][k - 1].id) == Some(d);
              }
            }
          }
        }
        if !forall k :: 0 <= k < |gcps| ==> CornerNumber(gcps[k].id).Some? {
          var k :| 0 <= k < |gcps| && CornerNumber(gcps[k].id).None?;
          assert CornerNumber(gcps[1..][k - 1].id).None?;
        }
      }
    }
  }

  /** A corner holds the last point named for it. */
  lemma {:induction false} GcpTableLast(gcps: seq<Gcp>, acc: map<nat, Gcp>, k: nat)
    requires k < |gcps| && CornerNumber(gcps[k].id).Some?
    requires forall j :: k < j < |gcps| ==> CornerNumber(gcps[j].id) != CornerNumber(gcps[k].id)
    requires GcpTable(gcps, acc).Ok?
    ensures CornerNumber(gcps[k].id).value in GcpTable(gcps, acc).value
    ensures GcpTable(gcps, acc).value[CornerNumber(gcps[k].id).value] == gcps[k]
    decreases |gcps|
  {
    var c := CornerNumber(gcps[0].id).value;
    forall j | k - 1 < j < |gcps[1..]|
      ensures CornerNumber(gcps[1..][j].id) != CornerNumber(gcps[k].id)
    {
      assert gcps[1..][j] == gcps[j + 1];
    }
    if k == 0 {
      GcpTableKeeps(gcps[1..], acc[c := gcps[0]], c);
    } else {
      assert gcps[1..][k - 1] == gcps[k];
      GcpTableLast(gcps[1..], acc[c := gcps[0]], k - 1);
    }
  }

  /** A corner no later point names keeps its entry. */
  lemma {:induction false} GcpTableKeeps(gcps: seq<Gcp>, acc: map<nat, Gcp>, c: nat)
    requires c in acc
    requires forall j :: 0 <= j < |gcps| ==> CornerNumber(gcps[j].id) != Some(c)
    requires GcpTable(gcps, acc).Ok?
    ensures c in GcpTable(gcps, acc).value && GcpTable(gcps, acc).value[c] == acc[c]
    decreases |gcps|
  {
    if gcps != [] {
      var d := CornerNumber(gcps[0].id).value;
      forall j | 0 <= j < |gcps[1..]| ensures CornerNumber(gcps[1..][j].id) != Some(c) {
        assert gcps[1..][j] == gcps[j + 1];
      }
      GcpTableKeeps(gcps[1..], acc[d := gcps[0]], c);
    }
  }

  /** Some point is named for corner `c`. */
  predicate Named(gcps: seq<Gcp>, c: nat)
  {
    exists k :: 0 <= k < |gcps| && CornerNumber(gcps[k].id) == Some(c)
  }

  /** The four corners can be read exactly when the points name all four of them. */
  lemma CornersPresent(gcps: seq<Gcp>)
    requires GcpTable(gcps, map[]).Ok?
    ensures CornersOf(GcpTable(gcps, map[]).value).Ok? <==>
      Named(gcps, 1) && Named(gcps, 2) && Named(gcps, 3) && Named(gcps, 4)
  {
    GcpTableMeaning(gcps, map[]);
  }
}
