# Orthorectification utilities, modelled in Dafny

This project models the core of `lib/ortho_utils.py`. That module drives orthorectification of
DigitalGlobe, GeoEye and IKONOS satellite images. For one source image it:

- identifies the vendor and satellite from the file name (`getSensor`);
- checks the EPSG code (`SpatialRef`) and the product code;
- reads the vendor metadata, using two hand-written text parsers that turn GeoEye and IKONOS
  metadata files into element trees;
- selects calibration factors;
- writes an output metadata XML file;
- threads an `err` flag through the stages of `processImage`.

The model follows the code's own structure:

| file | module | what it holds |
|---|---|---|
| `base.dfy` | `Base` | Python string and integer built-ins the code relies on (`strip`, `lower`, `int`, `str`, `os.path.basename`) |
| `xml_tree.dfy` | `XmlTree` | ElementTree as an arena of elements: `SubElement`, `set`, `append`, `getiterator`, `find`, `findall` |
| `ge_parser.dfy` | `GroupedBlockParser` | `getGEMetadataAsXml`: the line patterns, the step function, the loop as a method, and the group-stack invariants |
| `ik_parser.dfy` | `IndentedTagParser` | `getIKMetadataAsXml`: the line patterns, the unwind loops, and the proof that the line loop never raises |
| `ik_metadata.dfy` | `IKMetadata` | `getIKMetadata`: the source-image/component search and the dictionary it fills |
| `ge_metadata.dfy` | `GEMetadata` | `getGEMetadata`: the search keys and the per-band `gain`/`offset` dictionaries |
| `output_metadata.dfy` | `OutputMetadata` | `WriteOutputMetadata`: the tree written and what a reader gets back from it |
| `sensor.dfy` | `Sensor` | `getSensor`: the three pattern loops and their precedence |
| `spatial_ref.dfy` | `SpatialReference` | `SpatialRef`: the EPSG checks and the proj4 rewriting |
| `julian_day.dfy` | `JulianDay` | the Julian Day part of `calcEarthSunDist` |
| `calibration.dfy` | `Calibration` | `GetCalibrationFactors`, `GetIKcalibDict` (its metadata reads, coefficient choice and band loop) and the GE01 scaling of `getDGXmlData` |
| `tables.dfy` | `Tables` | `getBitdepth`, the `omax` table, the `rgb_bands` selection and the GCP corner numbering |
| `pipeline.dfy` | `Pipeline` | the product-code check and the stage/`err` skeleton of `processImage` |

Each loop of the source is a method. The method is proved equal to a specification function,
or it states its result outright. The lemmas then state what the source promises about that
function.

Regular expressions are handled in one of two ways:

- The line patterns of the two metadata parsers are written out as functions, following
  Python 2 `re` semantics: greedy and lazy quantifiers, leftmost search.
- The file-name patterns of `getSensor` and the product-code pattern are passed in as search
  functions. Only what Python's `re` guarantees about them is assumed: the group dictionary
  has exactly the declared groups.

Two other conventions:

- Python 2 integer division is floor division, and `int()` truncates toward zero; both are
  written out where they matter.
- An exception the source raises is an `Err` carrying the exception's class.

## Model

| member | source | states |
|---|---|---|
| Base.Strip | lib/ortho_utils.py:1367 | `strip()` gives no more characters than the line, and none of white space at either end |
| Base.StripSlice | lib/ortho_utils.py:1367 | `strip()` keeps exactly the contiguous part of the line that has only white space around it and starts and ends with a character that is not white space |
| Base.StripKeeps | lib/ortho_utils.py:1367 | stripping removes only white space: every other character of the line survives |
| Base.StripFirst | lib/ortho_utils.py:1388 | the first character kept by `strip()` is the first non-space character |
| Base.Lower | lib/ortho_utils.py:1680 | `lower()` keeps the length and changes only ASCII capitals |
| Base.Slice | lib/ortho_utils.py:1264 | a slice `s[5:33]` has clamped bounds and is a piece of `s` |
| Base.Basename | lib/ortho_utils.py:755 | `os.path.basename` is a suffix of the path without a `/` |
| Base.ParseShowInt | lib/ortho_utils.py:38 | `int(str(n)) == n` for every integer |
| Base.ParseSpacedSign | lib/ortho_utils.py:1500 | a sign, any white space and the digits of `n` parse as `-n` or `n`: `int("- 5") == -5` |
| XmlTree.SubElementShape | lib/ortho_utils.py:1561 | `SubElement` appends one fresh element as the last child of its parent and changes nothing else |
| XmlTree.AddTextChildShape | lib/ortho_utils.py:1575-1576 | a child with text is appended and nothing else changes |
| XmlTree.AddAttribChildShape | lib/ortho_utils.py:1403-1404 | a child carrying one attribute is appended and nothing else changes |
| XmlTree.SetAttribShape | lib/ortho_utils.py:1573 | `set` changes one attribute of one element and nothing else |
| XmlTree.GraftShape | lib/ortho_utils.py:787 | `append` of a separate tree puts a copy of all of it after the document, its root becoming the last child of the parent |
| XmlTree.Iter | lib/ortho_utils.py:1300 | `getiterator()` lists the element first, then only elements that come after it in the document |
| XmlTree.Tagged | lib/ortho_utils.py:1265 | the elements kept by a tag filter are exactly those of the list that carry the tag |
| XmlTree.FindAll | lib/ortho_utils.py:1265 | `findall(".//tag")` returns only elements after the given one that carry the tag |
| XmlTree.IterDescendants | lib/ortho_utils.py:1300 | besides the element itself, `getiterator()` lists exactly the elements below it |
| XmlTree.FindAllComplete | lib/ortho_utils.py:1265 | `findall(".//tag")` lists exactly the elements below the given one that carry the tag |
| XmlTree.Find | lib/ortho_utils.py:1489 | `find(".//tag")` returns the first element `findall` would return, or None when there is none |
| XmlTree.ChildrenTagged | lib/ortho_utils.py:1279 | `findall("tag")` returns exactly the direct children with the tag |
| GroupedBlockParser.WordEndMaximal | lib/ortho_utils.py:1526 | the `\w+` run is maximal, which is why greedy `\w+` never backtracks |
| GroupedBlockParser.AssignAt | lib/ortho_utils.py:1527 | a `tag = ` match starts with a word character and leaves room for ` = ` |
| GroupedBlockParser.NoWordNoMatch | lib/ortho_utils.py:1526-1527 | a line with no word character matches neither pattern |
| GroupedBlockParser.Classify | lib/ortho_utils.py:1554-1582 | a line is a group opening only with the tag `BEGIN_GROUP`, a closing only with `END_GROUP`, and a plain tag/value pair carries neither tag |
| GroupedBlockParser.ClassifyQuoted | lib/ortho_utils.py:1526-1527 | a line `tag = "value";` (after leading non-word characters, with a value free of `;` and newlines) is a group opening for `BEGIN_GROUP`, a closing for `END_GROUP`, and otherwise a pair of that tag and the stripped value, the quotes removed |
| GroupedBlockParser.ClassifyUnquoted | lib/ortho_utils.py:1526-1527 | a line `tag = value;` whose value neither starts nor ends with a quote classifies the same way, with the value kept whole |
| GroupedBlockParser.ClassifyOpen | lib/ortho_utils.py:1527 | a line `tag = ` with no `;` after it opens a multi-line value for that tag |
| GroupedBlockParser.CloserIsPlain | lib/ortho_utils.py:1545-1551 | the `);` line that closes a multi-line value matches neither pattern |
| GroupedBlockParser.Step | lib/ortho_utils.py:1542-1582 | one line keeps the parser state valid: a well-formed tree, with the open groups inside it |
| GroupedBlockParser.FeedLine | lib/ortho_utils.py:1542-1582 | the loop body computes exactly the step function for one line |
| GroupedBlockParser.FeedPending | lib/ortho_utils.py:1544-1551 | the `if mlstr:` block appends the stripped line to the pending value, or at `);` adds the value as a child of `current` and clears the flag, as the step function specifies |
| GroupedBlockParser.FeedKind | lib/ortho_utils.py:1554-1582 | the pattern part of the loop body has exactly the specified effect of each line kind on the tree and the open groups |
| GroupedBlockParser.FeedNext | lib/ortho_utils.py:1542-1582 | feeding the next line after the first `i` lines gives the loop state after the first `i + 1` lines |
| GroupedBlockParser.ParseGroupedBlocks | lib/ortho_utils.py:1514-1586 | the loop over the lines returns exactly the specified tree |
| GroupedBlockParser.RunKeepsLinked | lib/ortho_utils.py:1559-1570 | after any lines, each group on `node_stack + [parent, current]` is a child of the one before |
| GroupedBlockParser.ParentHasCurrentChild | lib/ortho_utils.py:1564 | whenever there is a `parent`, `current` is one of its children, so `if parent:` is a test for None |
| GroupedBlockParser.PathDetermines | lib/ortho_utils.py:1536-1539 | the path of open groups fixes `current`, `parent` and `node_stack` |
| GroupedBlockParser.StepPath | lib/ortho_utils.py:1559-1570 | `BEGIN_GROUP` pushes the new group, `END_GROUP` pops or stays at the root, and any other line keeps the path |
| GroupedBlockParser.NestedPath | lib/ortho_utils.py:1559-1570 | lines that never close more groups than they opened extend the path by their net count |
| GroupedBlockParser.GroupRestores | lib/ortho_utils.py:1559-1570 | a balanced `BEGIN_GROUP` … `END_GROUP` restores `current`, `parent` and `node_stack` |
| GroupedBlockParser.UnmatchedEndStaysAtRoot | lib/ortho_utils.py:1568-1570 | an `END_GROUP` with no open group leaves `current` at the root and does not raise |
| GroupedBlockParser.TagValueEffect | lib/ortho_utils.py:1571-1576 | an index tag (`bandNumber`, `coordinateNumber`) in its group sets an attribute and adds no child; any other pair adds exactly one child whose text is the value |
| GroupedBlockParser.MultiLineValue | lib/ortho_utils.py:1544-1582 | `TAG = ` opens a multi-line value; the stripped lines up to and including `);` become the text of one new child named `TAG` |
| GroupedBlockParser.OpenValueStep | lib/ortho_utils.py:1577-1582 | outside a multi-line value, a `TAG = ` line starts one with empty data and changes nothing else |
| GroupedBlockParser.CloseValueStep | lib/ortho_utils.py:1545-1551 | the `);` line adds the accumulated value, closer included, as a new child of `current` and clears the flag |
| IndentedTagParser.Underscored | lib/ortho_utils.py:1372 | the tag has the same length and no space or slash |
| IndentedTagParser.PairAtFirstSep | lib/ortho_utils.py:1342 | `ikpat1` splits at the first `": "` after the first character |
| IndentedTagParser.NoPair | lib/ortho_utils.py:1342 | without a `": "` after the first character, `ikpat1` finds nothing |
| IndentedTagParser.SpacesOpenEmptyGroup | lib/ortho_utils.py:1343 | a line of spaces matches `ikpat2` with an empty name and opens an unnamed group |
| IndentedTagParser.Classify | lib/ortho_utils.py:1366-1437 | each branch a line can take carries a tag of that branch's own list |
| IndentedTagParser.MatchLine | lib/ortho_utils.py:1383-1437 | the two patterns never yield an ignored line or a top-level name, and a pair carries a tag of its own branch |
| IndentedTagParser.Unwind | lib/ortho_utils.py:1398-1400 | a successful unwind ends, inside the tree, at a node that stops it |
| IndentedTagParser.UnwindTo | lib/ortho_utils.py:1441-1443 | from an anchored cursor the unwind loop succeeds with the specified climb and stays anchored |
| IndentedTagParser.FeedLine | lib/ortho_utils.py:1366-1449 | the loop body computes exactly the step function for one line |
| IndentedTagParser.FeedPair | lib/ortho_utils.py:1387-1433 | the tag/value branch, on an anchored state, succeeds with the specified effect of the pair |
| IndentedTagParser.FeedIdPair | lib/ortho_utils.py:1395-1407 | an ID pair climbs with the unwind loop and descends into its new node, as specified, without raising |
| IndentedTagParser.FeedCoordPair | lib/ortho_utils.py:1410-1421 | a `Coordinate` pair adds a sibling of the current coordinate or a new child, as specified, without raising |
| IndentedTagParser.FeedValuePair | lib/ortho_utils.py:1424-1433 | any other pair leaves a finished coordinate block and adds its value, as specified, without raising |
| IndentedTagParser.ParseIndentedTags | lib/ortho_utils.py:1342-1451 | the loop over the lines returns the specified tree and never raises |
| IndentedTagParser.UnwindSafe | lib/ortho_utils.py:1427-1429 | from an anchored cursor, an unwind loop neither pops an empty stack nor climbs to None; it only drops inner entries |
| IndentedTagParser.UnwindNearest | lib/ortho_utils.py:1441-1443 | an unwind loop stops at the nearest stopping node |
| IndentedTagParser.ApplySafe | lib/ortho_utils.py:1366-1449 | every kind of line, applied to an anchored state, succeeds and leaves the state anchored |
| IndentedTagParser.NeverRaises | lib/ortho_utils.py:1366-1449 | no input makes the parser raise |
| IndentedTagParser.AncestorsRecorded | lib/ortho_utils.py:1398-1449 | `node_stack` plus `parent` always records the real ancestors of `current` |
| IndentedTagParser.ParsedIdsCarried | lib/ortho_utils.py:1395-1407 | every `Source_Image_ID` and `Component_ID` element built carries an `id` attribute |
| IndentedTagParser.TopLine | lib/ortho_utils.py:1375-1379 | a top-level name becomes a child of root, with root as `parent` and an empty stack |
| IndentedTagParser.IdLine | lib/ortho_utils.py:1395-1407 | an ID pair becomes a child of the nearest top-level node (or root), carrying its value only as `id` |
| IndentedTagParser.CoordinateLine | lib/ortho_utils.py:1410-1421 | a `Coordinate` after a `Coordinate` becomes its sibling; otherwise a child of `current` |
| IndentedTagParser.ValueLine | lib/ortho_utils.py:1424-1433 | any other pair adds exactly one child with the value as text, after leaving a finished Coordinate block |
| IndentedTagParser.GroupLine | lib/ortho_utils.py:1436-1449 | a bare group name goes under the nearest second-level node, top-level node or root |
| IndentedTagParser.NoNodeLines | lib/ortho_utils.py:1366-1369 | ignore-list lines, and lines matching neither pattern, add no node and leave the cursor |
| IKMetadata.FindSiid | lib/ortho_utils.py:1270-1277 | the source-image search returns a node whose `id` is the identifier, or KeyError for a node without `id` |
| IKMetadata.FindSiidFirst | lib/ortho_utils.py:1271-1274 | the search stops at the first node it cannot pass over |
| IKMetadata.FindCid | lib/ortho_utils.py:1289-1297 | the component search returns a node whose first `Product_Image_ID` text matches, or IndexError |
| IKMetadata.FindCidFirst | lib/ortho_utils.py:1290-1294 | the component search stops at the first node it cannot pass over |
| IKMetadata.SearchSourceImage | lib/ortho_utils.py:1270-1277 | the search loop computes exactly the specified search |
| IKMetadata.SearchComponent | lib/ortho_utils.py:1279-1297 | the `spiid_node` lookup and the component loop compute the specified search |
| IKMetadata.FillFromComponent | lib/ortho_utils.py:1300-1302 | the loop over the component's nodes computes the specified dictionary |
| IKMetadata.FillFromSource | lib/ortho_utils.py:1304-1309 | the loop over the source image's nodes computes the specified dictionary |
| IKMetadata.FillFirstTexts | lib/ortho_utils.py:1311-1318 | the final loop computes the specified dictionary |
| IKMetadata.GetIKMetadata | lib/ortho_utils.py:1224-1320 | the whole function computes the specified result |
| IKMetadata.SetFirstTextsValues | lib/ortho_utils.py:1311-1318 | each key is set to the text of its first node, or None when there is none |
| IKMetadata.CollectSiidError | lib/ortho_utils.py:1304-1309 | the source-image loop raises exactly at a `Source_Image_ID` without an `id` |
| IKMetadata.CollectSiidLast | lib/ortho_utils.py:1304-1309 | `Source_Image_ID` ends as the `id` of the last such node |
| IKMetadata.IKMetadataErrors | lib/ortho_utils.py:1259-1300 | outside renamed mode the function raises NameError; in it, only KeyError or IndexError |
| IKMetadata.LookupFound | lib/ortho_utils.py:1271-1309 | a dictionary is returned only from a matching source image node and component node |
| IKMetadata.IKMetadataContents | lib/ortho_utils.py:1299-1320 | a returned dictionary has exactly the keys of `ik2fp`; each other than `Source_Image_ID` holds its first node's text |
| IKMetadata.IKMetadataSourceId | lib/ortho_utils.py:1264-1309 | when source image nodes do not nest, `Source_Image_ID` is the identifier looked for |
| IKMetadata.LookupErrorsWithIds | lib/ortho_utils.py:1271-1297 | when every second-level node has an `id`, the only exception is the IndexError |
| IKMetadata.ParsedLookupErrors | lib/ortho_utils.py:1271-1297 | on a tree the IKONOS parser built, the lookup never raises KeyError |
| GEMetadata.CollectBandTexts | lib/ortho_utils.py:1498-1506 | the loop over band groups computes the specified per-band dictionary |
| GEMetadata.LookupSearchKeys | lib/ortho_utils.py:1487-1491 | the search-key loop computes the specified dictionary |
| GEMetadata.LookupBandKeys | lib/ortho_utils.py:1493-1507 | the band-key loop computes the specified dictionary |
| GEMetadata.GetGEMetadata | lib/ortho_utils.py:1482-1511 | the whole function computes the specified dictionary (empty without a file) |
| GEMetadata.BandTextsDomain | lib/ortho_utils.py:1498-1506 | a band is recorded exactly when some group numbered with it has the key |
| GEMetadata.BandTextsLast | lib/ortho_utils.py:1498-1506 | of several groups with the same band number, the last wins |
| GEMetadata.PutSearchKeysValues | lib/ortho_utils.py:1487-1491 | a search key is recorded exactly when a node has that tag, and holds its first node's text |
| GEMetadata.GEMetadataContents | lib/ortho_utils.py:1482-1511 | the dictionary holds `gain` and `offset`, and the search keys that occur, and nothing else |
| GEMetadata.BandMeaning | lib/ortho_utils.py:1493-1507 | for each band key, band `b` is present exactly when a group numbered `b` has it, and holds the last such text |
| OutputMetadata.OutputTree | lib/ortho_utils.py:700-790 | the tree is written exactly for DigitalGlobe and GeoEye, and otherwise NameError; it is well formed and holds 10 elements plus the vendor `IMD` |
| OutputMetadata.AddEntriesShape | lib/ortho_utils.py:769-772 | the `dMD` entries become the next children of `PGC_IMD`, in order, each with its text |
| OutputMetadata.OutputShape | lib/ortho_utils.py:769-787 | `IMD` holds `PGC_IMD` with five entries, then `SOURCE_IMD` with `SOURCE_IMAGE`, `VENDOR` and the vendor `IMD` copy |
| OutputMetadata.OutputOrder | lib/ortho_utils.py:776-787 | in document order the written entries come before the copied vendor elements |
| OutputMetadata.ReadBack | lib/ortho_utils.py:751-787 | a reader finds, by tag, each entry with its written value, the source image's file name and the vendor |
| Sensor.GetSensor | lib/ortho_utils.py:1654-1701 | the three loops compute exactly the specified identity |
| Sensor.FixedLoop | lib/ortho_utils.py:1687-1699 | a GeoEye or IKONOS loop computes exactly the specified identity |
| Sensor.ScanFixedHit | lib/ortho_utils.py:1687-1699 | a fixed family gives its values when any of its patterns matches, and otherwise leaves the identity |
| Sensor.ScanDGVendor | lib/ortho_utils.py:1678-1682 | the DigitalGlobe loop sets the vendor exactly when one of its searches succeeds |
| Sensor.ScanDGSatLast | lib/ortho_utils.py:1678-1686 | `sat` is the `snsr` of the last hit that has one |
| Sensor.SensorPrecedence | lib/ortho_utils.py:1671-1701 | IKONOS beats GeoEye beats DigitalGlobe; the vendor is None exactly when nothing matched, and then so is `sat` |
| Sensor.SensorDigitalGlobeSat | lib/ortho_utils.py:1678-1686 | for DigitalGlobe, `sat` comes from the last renamed pattern that matched, or is None after `RAW_DG` alone |
| SpatialReference.MakeSpatialRef | lib/ortho_utils.py:35-61 | the constructor fails only with RuntimeError |
| SpatialReference.NewSpatialRef | lib/ortho_utils.py:35-61 | the constructor and its rewrite loop compute exactly the specified reference |
| SpatialReference.ReplaceAllAbsent | lib/ortho_utils.py:56-57 | `replace` leaves text without the pattern unchanged, so the `find` guard changes nothing |
| SpatialReference.ReplaceAllFirst | lib/ortho_utils.py:57 | `replace` copies the text up to the first occurrence, replaces it and resumes after it |
| SpatialReference.CopyFrom | lib/ortho_utils.py:57 | from any position, the characters before the next occurrence of the pattern are copied unchanged |
| SpatialReference.NormaliseAbsent | lib/ortho_utils.py:50-57 | proj4 text holding neither raw datum spelling is kept as exported |
| SpatialReference.NoneAfterReplace | lib/ortho_utils.py:57 | when every occurrence of a string is an occurrence of the pattern, and the replacement can neither start inside it nor run into it, `replace` leaves no occurrence of that string |
| SpatialReference.ReplacementPresent | lib/ortho_utils.py:57 | when the pattern occurs, the replacement appears in the result |
| SpatialReference.KeptThroughReplace | lib/ortho_utils.py:57 | a string the pattern can neither start inside nor run into survives the `replace` |
| SpatialReference.DatumShorthand | lib/ortho_utils.py:50-57 | after the rewrite loop neither raw `+ellps=… +towgs84=0,0,0,0,0,0,0` spelling is left, and `+datum=NAD83` / `+datum=WGS84` appear whenever their raw spelling was exported |
| SpatialReference.SpatialRefDatum | lib/ortho_utils.py:35-61 | a constructed reference's `proj4` holds no raw spelling, and holds the shorthand for each raw spelling GDAL exported |
| SpatialReference.SpatialRefOutcome | lib/ortho_utils.py:37-61 | success exactly for an integer GDAL accepts (import code not 7); the code is kept |
| SpatialReference.SpatialRefOfCode | lib/ortho_utils.py:37-46 | a code written in decimal is read back as that code |
| JulianDay.Trunc | lib/ortho_utils.py:1064-1066 | `int()` truncates toward zero: the result brackets the quotient from the side of zero |
| JulianDay.TimeIndependent | lib/ortho_utils.py:1057-1066 | the Julian Day depends on the date only: the time terms are integer divisions that come to zero |
| JulianDay.HalfDayOffset | lib/ortho_utils.py:1066 | the Julian Day always ends in .5 |
| JulianDay.JanuaryFebruary | lib/ortho_utils.py:1060-1062 | January and February count as months 13 and 14 of the previous year |
| JulianDay.Epoch2000 | lib/ortho_utils.py:1057-1066 | 2000-01-01 gives 2451544.5 at any time of day |
| JulianDay.NextDay | lib/ortho_utils.py:1066 | the next day of a month is one Julian Day later |
| Calibration.Range | lib/ortho_utils.py:934 | `range(lo, hi, 1)` lists lo to hi - 1 in order |
| Calibration.Factors | lib/ortho_utils.py:951-955 | the factor list is no longer than the band list |
| Calibration.CalibrationFactors | lib/ortho_utils.py:902-958 | an exception of the vendor's metadata reader passes through unchanged; besides those, the only exceptions are AttributeError, NameError and TypeError, and an unknown vendor or sensor always raises TypeError |
| Calibration.CollectFactors | lib/ortho_utils.py:951-955 | the loop computes exactly the factor list of the band list |
| Calibration.GetCalibrationFactors | lib/ortho_utils.py:902-958 | the function computes exactly the specified result |
| Calibration.FactorsEmpty | lib/ortho_utils.py:951 | an empty dictionary gives no factors |
| Calibration.FactorsAppend | lib/ortho_utils.py:953-955 | the factors keep band-list order |
| Calibration.FactorsMembers | lib/ortho_utils.py:953-955 | every factor is the dictionary's value for a band of the list, and every such band contributes |
| Calibration.FactorsAllPresent | lib/ortho_utils.py:953-955 | with every band present, the factors are the dictionary's values in list order |
| Calibration.BandLists | lib/ortho_utils.py:931-945 | the band lists are `[5]` or 1..4 for GE01 and `[4]` or 0..3 for IK01, unbound otherwise |
| Calibration.CalibrationFactorsMeaning | lib/ortho_utils.py:902-958 | the list is empty when the dictionary is, and otherwise the dictionary's values for the band list in order |
| Calibration.IKBandFactors | lib/ortho_utils.py:937-955 | from an IKONOS dictionary holding bands 0 to 4, one band gives the panchromatic factor, four bands give bands 0 to 3 in order, and any other count raises NameError |
| Calibration.IKCalibrationFactors | lib/ortho_utils.py:937-955 | with the IKONOS metadata file present, an exception of `GetIKcalibDict` passes through `GetCalibrationFactors`, and otherwise the factors are those of band 4, or of bands 0 to 3 |
| Calibration.DGFactor | lib/ortho_utils.py:1170-1179 | the factor is the radiance or the reflectance factor, scaled by ten at most |
| Calibration.GE01Scaled | lib/ortho_utils.py:1170-1172 | a GE01 factor is ten times what another satellite gets from the same values |
| Calibration.IKCoef | lib/ortho_utils.py:1192-1207 | every coefficient is positive |
| Calibration.StripChars | lib/ortho_utils.py:1198 | `strip(chars)` removes only characters of the set, from both ends, and keeps every other character |
| Calibration.StripTrailing | lib/ortho_utils.py:1198 | stripping a value followed by strippable characters gives the value back |
| Calibration.SunElevationText | lib/ortho_utils.py:1198 | `"45.2 degrees".strip(" degrees")` gives `"45.2"` for any value that starts and ends with a digit |
| Calibration.ReadAcquisition | lib/ortho_utils.py:1186-1200 | a failed metadata read raises its own error; no metadata at all raises TypeError |
| Calibration.IKCalibDict | lib/ortho_utils.py:1184-1221 | the function raises exactly when reading the sun elevation or the acquisition date raises, or for the `rd` stretch (then NameError); a read error is passed on unchanged |
| Calibration.IKCalibOutcome | lib/ortho_utils.py:1184-1221 | a dictionary comes back exactly when both metadata values are present and parse and the stretch is not `rd`; it then holds bands 0 to 4 with the reflectance factor of each band's coefficients at the read sun angle and date |
| Calibration.IKFactorsBelow | lib/ortho_utils.py:1196-1219 | the entries are exactly bands 0 to n - 1, each the reflectance factor of that band's coefficient, bandwidth and solar irradiance |
| Calibration.GetIKcalibDict | lib/ortho_utils.py:1196-1221 | the loop over the five bands, reading the metadata again on every pass, computes exactly the specified dictionary or raises the specified error |
| Calibration.IKEra | lib/ortho_utils.py:1203-1207 | the old coefficients hold strictly before 2001-02-22 00:00 and the new ones from then on; the panchromatic band is the same in both |
| Tables.Bitdepth | lib/ortho_utils.py:1643-1651 | a tag is returned exactly for Byte, UInt16 and Float32; otherwise NameError |
| Tables.BitdepthDistinct | lib/ortho_utils.py:1643-1651 | the three types get different three-letter tags |
| Tables.Omax | lib/ortho_utils.py:381-394 | `omax` is bound exactly for the three output types |
| Tables.OmaxBounds | lib/ortho_utils.py:381-394 | `omax` is positive, at most 2047, fits a byte for Byte, and is lower for a calibrated stretch than for `ns` |
| Tables.BandArgs | lib/ortho_utils.py:681-691 | the argument string is empty exactly when no band is selected |
| Tables.RgbBandsFour | lib/ortho_utils.py:683-685 | `--rgb` on 4 bands gives `-b 3 -b 2 -b 1 ` |
| Tables.RgbBandsEight | lib/ortho_utils.py:686-687 | `--rgb` on 8 bands gives `-b 5 -b 3 -b 2 ` |
| Tables.BgrnBandsEight | lib/ortho_utils.py:689-691 | `--bgrn` on 8 bands gives `-b 2 -b 3 -b 5 -b 7 `, with or without `--rgb` |
| Tables.RgbBandListMeaning | lib/ortho_utils.py:681-691 | only existing bands are selected, each once; a selection is made exactly for `--rgb` on 4 or 8 bands or `--bgrn` on 8; `--bgrn` wins |
| Tables.CornerNumber | lib/ortho_utils.py:552-559 | both naming schemes map to corner numbers 1 to 4 |
| Tables.BuildGcpTable | lib/ortho_utils.py:561-562 | the loop computes exactly the specified `gcp_dict` |
| Tables.GcpTableMeaning | lib/ortho_utils.py:561-562 | KeyError exactly when some id is unknown; otherwise the corners named are exactly the keys |
| Tables.GcpTableLast | lib/ortho_utils.py:561-562 | a corner holds the last point named for it |
| Tables.CornersOf | lib/ortho_utils.py:564-574 | the corners are read exactly when all four are present, and otherwise KeyError |
| Tables.CornersPresent | lib/ortho_utils.py:561-574 | the corners can be read exactly when the points name all four |
| Pipeline.ProductRejected | lib/ortho_utils.py:147-159 | no match accepts; a match without `prod` raises TypeError |
| Pipeline.ProductReasons | lib/ortho_utils.py:151-159 | a mosaic, a 3* product or a tiled 2A GeoTIFF is refused; a product with none of these marks is accepted |
| Pipeline.Present | lib/ortho_utils.py:166-167 | `sum(status)` counts all the members exactly when every one exists |
| Pipeline.Checks | lib/ortho_utils.py:139-159 | the flag is down exactly when the EPSG code is accepted and the product is not refused |
| Pipeline.StageIn | lib/ortho_utils.py:162-183 | IKONOS bands are stacked when all four exist and no stacked image exists, whatever the flag; other sources are copied only when they exist and the flag is down |
| Pipeline.ImageFactors | lib/ortho_utils.py:398 | unless the vendor's metadata reader raised, the factor lookup raises only AttributeError, TypeError or NameError |
| Pipeline.CalcStats | lib/ortho_utils.py:369-402 | for a stretch other than `ns`, an exception of the factor lookup propagates and an empty factor list returns 1; otherwise the calculation decides; with `ns` no factors are read |
| Pipeline.CalcStatsIKRadiance | lib/ortho_utils.py:397-402 | an IKONOS image with the `rd` stretch whose metadata reads succeed makes `calcStats` raise NameError |
| Pipeline.CalcStatsUnboundBandList | lib/ortho_utils.py:397-402 | a GeoEye or IKONOS image with factors and a band count other than 1 or 4 makes `calcStats` raise NameError |
| Pipeline.Analyse | lib/ortho_utils.py:185-204 | an exception of `GetImageStats` or `WriteOutputMetadata` ends the phase exactly when that stage runs and raises, and is the one returned; on success, statistics, the DEM overlap test and metadata run only while the flag is down, in that order |
| Pipeline.Produce | lib/ortho_utils.py:206-226 | an exception of `calcStats` ends the phase exactly when the calculation runs and raises; on success, warping runs only when no warp file exists, and the calculation runs only when a warp file exists afterwards, or directly with `skip_warp` |
| Pipeline.Stages | lib/ortho_utils.py:185-250 | a raised exception is one of a stage's; with no stage raising the phases finish; on success `err` is 0 only after statistics and metadata with the destination present, and the calculation ran only with usable factors or `ns` |
| Pipeline.LastIndexOf | lib/ortho_utils.py:1612 | the index of the last occurrence of the character, or -1 when there is none |
| Pipeline.SplitRoot | lib/ortho_utils.py:1612 | `os.path.splitext(p)[0]` is a prefix of the path |
| Pipeline.ExtensionStem | lib/ortho_utils.py:1612 | `splitext(p)[0] + '.*'` matches the path itself exactly when the path has an extension |
| Pipeline.DeleteNameItself | lib/ortho_utils.py:1608-1617 | a name is gone after `deleteTempFiles` unless it was absent, has no extension (the glob then misses it) or could not be removed |
| Pipeline.DeleteSiblings | lib/ortho_utils.py:1608-1617 | every file sharing the name's stem with any extension is deleted when it can be removed |
| Pipeline.DeleteUnremovable | lib/ortho_utils.py:1614-1617 | a file `os.remove` fails on is kept, and the error is swallowed |
| Pipeline.Finish | lib/ortho_utils.py:228-250 | the run fails when the destination is missing at the check; a failed run removes the destination when the glob reaches it and removal succeeds, and keeps it when removal fails, or when it has no extension and no other temporary name's stem reaches it |
| Pipeline.ProcessImage | lib/ortho_utils.py:106-257 | a refused product code without `prod` raises TypeError; any other exception is one of `GetImageStats`, `WriteOutputMetadata` or `calcStats`, and when none of those raises, the product TypeError is the only one; otherwise `err` is 0 or 1; 0 only when every check passed and the destination existed; 1 leaves no destination that `deleteTempFiles` can reach and remove |

## Left out

- GDAL, OGR and OSR are not part of this model. This covers `ImportFromEPSG`/`ExportToProj4`, raster reads, coordinate transformations, geometry tests and VRT creation. Their results are parameters: `SpatialReference.Importer`/`Exporter`, and the stage outcomes in `Pipeline.World`.
- External commands (`gdalwarp`, `gdal_translate`, `gdaladdo`, `gdalbuildvrt`) in `WarpImage`, `calcStats` and `stackIkBands` are opaque stage outcomes: a return code and the files left.
- File-system work beyond path existence is not modelled. Paths (`localsrc`, `warpfile`, the IKONOS members) are inputs, not derived with `os.path` from the source and working directory.
- Pipeline.Finish: `glob` is modelled for stems without glob metacharacters (`*`, `?`, `[`); for a stem that holds one, the matched files are a parameter (`World.magicGlob`). Whether `os.remove` succeeds on a file is a parameter (`World.removable`), so `Pipeline.ProcessImage` promises that a failed run leaves no destination only where removal succeeds.
- `glob`-based copying is a stage effect.
- Pipeline.ProcessImage: stacking, copying in, warping, the DEM overlap test and copying out are taken never to raise; exceptions from `shutil`, GDAL or `os` in those stages are not modelled. `GetImageStats`, `WriteOutputMetadata` and `calcStats` may raise. Their exceptions are `World.stats`, `World.metadata` and, after the factor lookup that `Pipeline.CalcStats` models, `World.calculate`. Examples are a KeyError for an unknown GCP id, a NameError for an unknown vendor, and the TypeError of `elem.remove(None)`.
- `ExtractRPB`, `.prj` writing, `XmlToJ2w` and `FindImages` are not modelled.
- OutputMetadata.OutputTree: the `return 1` paths for a missing or unparsable metadata file are not modelled.
  - The DigitalGlobe `IMD` and the GeoEye `IMD` assembled from `productInfo` (without `rationalFunctions`) and the included groups are taken as a given tree.
  - Writing the file is not modelled.
- OutputMetadata.OutputTree: `dMD` is iterated in Python 2 dictionary (hash) order, which the model does not fix. The entries are written in insertion order, and `OutputMetadata.ReadBack` states what holds in any order: each entry is found by its tag.
- SpatialReference.NewSpatialRef: `proj4_patterns` is iterated in dictionary order; the model uses the order listed. `SpatialReference.DatumShorthand` states what holds in either order (no raw spelling left, each shorthand present); that the two orders give the very same text is not proved.
- SpatialReference.MakeSpatialRef: the pipeline passes `opt.epsg`, which `argparse` has already read with `type=int` (lib/ortho_utils.py:80), so the RuntimeError for a non-integer code is never raised there; the model keeps the string argument of the constructor itself.
- Calibration.CalibrationFactors: `GetGEcalibDict` (lib/ortho_utils.py:1454-1479) is not modelled. Its dictionary, or the exception it raises (such as KeyError for a missing key, ValueError from `float` or `strptime`, IndexError for a band above 5), is the `found` input. The IKONOS reader is modelled and connected through `Calibration.IKCalibrationFactors`.
- IndentedTagParser.ParseIndentedTags: the dispatch between a file name and a list of lines (lib/ortho_utils.py:1328-1340) is not modelled, and neither is reading the file. In Python 2, `os.path.isfile` on a list raises TypeError, and a failed `open` re-raises IOError. The model takes the lines as already read; what is proved is that the line loop never raises.
- Parsing of DigitalGlobe XML (`getDGXmlData`, `getXmlHeight`) is not modelled. Calibration dictionaries come in as values; only the GE01 scaling and the `rd` choice are modelled (`Calibration.DGFactor`).
- Calibration.IKCalibDict: the Earth-Sun distance cosine terms and the reflectance formula are not modelled; the reflectance is a parameter. `float()` and `strptime` are parameters that either give a value or fail with ValueError; the date is a record of its fields.
- JulianDay.MonthDays: `int(30.6001 * k)` is read with 30.6001 as an exact decimal. Floating-point rounding of that product is not modelled.
- `datetime.today`, `platform`, logging (`LogMsg`, `logger`) and the `argparse` setup are not modelled; log calls have no effect in the model.
- `GetImageStats` beyond the GCP corner numbering is not modelled: corner geometry, resolution and the LUT strings.
- The `getSensor` regular expressions and the product-code expression are search functions passed in; only the group names of each expression are fixed (`Sensor.GroupNames`, `Pipeline.WellShaped`).
- Sensor.GetSensor: the DigitalGlobe loop uses `search` and the other two `match`; the model keeps the two as separate parameters and does not relate them.
- The source's defects are reproduced, not fixed:
  - `redfact`/`radfact` for the `rd` stretch (NameError in `Calibration.IKCalibDict`);
  - an unbound `bandList` (`Calibration.CalibrationFactors`);
  - IKONOS stacking that ignores an earlier `err` (`Pipeline.StageIn`);
  - the misspelt `os.path.basenanme` (AttributeError);
  - the `print` with a missing `%` for an unknown vendor (TypeError).
