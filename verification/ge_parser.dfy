/** The Grouped-Block metadata dialect (GeoEye `.txt` metadata) and its parser,
    `getGEMetadataAsXml` in lib/ortho_utils.py.

    Lines are `TAG = "value";` pairs, `BEGIN_GROUP = name;` / `END_GROUP = name;` brackets,
    and `TAG = ` openers of multi-line values that end at a line reading `);`. */
module GroupedBlockParser {
  import opened Base
  import opened XmlTree

  // ---------------------------------------------------------------------------
  // The two line patterns
  //   gepat1 = (?P<tag>\w+) = "?(?P<data>.*?)"?;
  //   gepat2 = (?P<tag>\w+) =
  // both applied with `search`.
  // ---------------------------------------------------------------------------

  /** End of the run of `\w` characters that starts at `i`. */
  function WordEnd(s: string, i: nat): (e: nat)
    requires i <= |s|
    ensures i <= e <= |s|
    ensures i < e ==> IsWordChar(s[i])
    decreases |s| - i
  {
    if i == |s| || !IsWordChar(s[i]) then i else WordEnd(s, i + 1)
  }

  /** The run is maximal: all of `s[i..WordEnd(s, i)]` are word characters and the one after
      it is not. */
  lemma {:induction false} WordEndMaximal(s: string, i: nat)
    requires i <= |s|
    ensures forall k :: i <= k < WordEnd(s, i) ==> IsWordChar(s[k])
    ensures WordEnd(s, i) == |s| || !IsWordChar(s[WordEnd(s, i)])
    decreases |s| - i
  {
    if i < |s| && IsWordChar(s[i]) {
      WordEndMaximal(s, i + 1);
    }
  }

  /** `(?P<tag>\w+) = ` anchored at `i`: the end of the tag when it matches. Greedy `\w+`
      cannot backtrack into a shorter tag, since a word character never equals the space. */
  function AssignAt(s: string, i: nat): (e: Option<nat>)
    requires i <= |s|
    ensures e.Some? ==> i < e.value && e.value + 3 <= |s| && IsWordChar(s[i])
  {
    var e := WordEnd(s, i);
    if i < e && e + 3 <= |s| && s[e] == ' ' && s[e + 1] == '=' && s[e + 2] == ' ' then Some(e)
    else None
  }

  /** Where the lazy `(?P<data>.*?)` stops: the first `k` at which `"?;` matches, as long
      as no newline (which `.` refuses) comes first. */
  function ValueEnd(s: string, k: nat): (r: Option<nat>)
    requires k <= |s|
    ensures r.Some? ==> k <= r.value < |s|
    decreases |s| - k
  {
    if k == |s| then None
    else if s[k] == ';' || (s[k] == '"' && k + 1 < |s| && s[k + 1] == ';') then Some(k)
    else if s[k] == '\n' then None
    else ValueEnd(s, k + 1)
  }

  datatype Pair = Pair(tag: string, data: string)

  /** `gepat1` anchored at `i`. The optional opening quote is taken when present; giving it
      back to `data` cannot produce a match that the quoted attempt missed. */
  function Pat1At(s: string, i: nat): (r: Option<Pair>)
    requires i <= |s|
    ensures r.Some? ==> i < |s| && IsWordChar(s[i])
  {
    match AssignAt(s, i)
    case None => None
    case Some(e) =>
      var p := e + 3;
      var q := if p < |s| && s[p] == '"' then p + 1 else p;
      match ValueEnd(s, q)
      case None => None
      case Some(k) => Some(Pair(s[i..e], s[q..k]))
  }

  /** `gepat1.search(s[i..])`, leftmost match first. */
  function Pat1From(s: string, i: nat): (r: Option<Pair>)
    requires i <= |s|
    decreases |s| - i
  {
    match Pat1At(s, i)
    case Some(m) => Some(m)
    case None => if i == |s| then None else Pat1From(s, i + 1)
  }

  /** `gepat2.search(s[i..])`: the tag of the leftmost `\w+ = `. */
  function Pat2From(s: string, i: nat): (r: Option<string>)
    requires i <= |s|
    decreases |s| - i
  {
    match AssignAt(s, i)
    case Some(e) => Some(s[i..e])
    case None => if i == |s| then None else Pat2From(s, i + 1)
  }

  /** Both patterns begin with `\w+`: with no word character left, neither can match. */
  lemma {:induction false} NoWordNoMatch(s: string, i: nat)
    requires i <= |s|
    requires forall j :: i <= j < |s| ==> !IsWordChar(s[j])
    ensures Pat1From(s, i).None? && Pat2From(s, i).None?
    decreases |s| - i
  {
    if i < |s| {
      NoWordNoMatch(s, i + 1);
    }
  }

  /** What the loop body sees in one line. */
  datatype LineKind =
    | Begin(tag: string, data: string)      // gepat1 matched, tag `BEGIN_GROUP`
    | End(tag: string, data: string)        // gepat1 matched, tag `END_GROUP`
    | TagValue(tag: string, data: string)   // gepat1 matched, any other tag
    | TagOpen(tag: string)                  // only gepat2 matched
    | Plain                                 // neither matched

  function Classify(line: string): (k: LineKind)
    ensures k.Begin? ==> k.tag == "BEGIN_GROUP"
    ensures k.End? ==> k.tag == "END_GROUP"
    ensures k.TagValue? ==> k.tag != "BEGIN_GROUP" && k.tag != "END_GROUP"
  {
    match Pat1From(line, 0)
    case Some(m) =>
      var tag := Strip(m.tag);
      if tag == "BEGIN_GROUP" then Begin(tag, Strip(m.data))
      else if tag == "END_GROUP" then End(tag, Strip(m.data))
      else TagValue(tag, Strip(m.data))
    case None =>
      match Pat2From(line, 0)
      case Some(t) => TagOpen(Strip(t))
      case None => Plain
  }

  predicate IsBegin(line: string) { Classify(line).Begin? }
  predicate IsEnd(line: string) { Classify(line).End? }

  /** A line whose stripped text is `);` carries no word character, so neither pattern matches it. */
  lemma CloserIsPlain(line: string)
    requires Strip(line) == ");"
    ensures Classify(line) == Plain
  {
    forall j | 0 <= j < |line|
      ensures !IsWordChar(line[j])
    {
      if !IsSpace(line[j]) {
        StripKeeps(line, j);
      }
    }
    NoWordNoMatch(line, 0);
  }


  // ---------------------------------------------------------------------------
  // What the patterns make of the lines the dialect is written in
  // ---------------------------------------------------------------------------

  /** Indentation and other leading text before a tag: no `\w` character. */
  predicate NoWordChars(s: string)
  {
    forall j :: 0 <= j < |s| ==> !IsWordChar(s[j])
  }

  /** A tag: a non-empty run of `\w` characters. */
  predicate IsTagText(t: string)
  {
    t != [] && forall j :: 0 <= j < |t| ==> IsWordChar(t[j])
  }

  /** A value on one line: no `;` and no newline. */
  predicate IsValueText(v: string)
  {
    forall j :: 0 <= j < |v| ==> v[j] != ';' && v[j] != '\n'
  }

  /** The `\w` run starting at `i` ends at `n` when `s[i..n]` are word characters and `s[n]`
      is not. */
  lemma {:induction false} WordEndAt(s: string, i: nat, n: nat)
    requires i <= n < |s| && !IsWordChar(s[n])
    requires forall j :: i <= j < n ==> IsWordChar(s[j])
    ensures WordEnd(s, i) == n
    decreases n - i
  {
    if i < n {
      WordEndAt(s, i + 1, n);
    }
  }

  /** The lazy data group stops at the first `"?;`, provided no newline comes before it. */
  lemma {:induction false} ValueEndAt(s: string, k: nat, n: nat)
    requires k <= n < |s|
    requires forall j :: k <= j < n ==> s[j] != ';' && s[j] != '\n' && !(s[j] == '"' && s[j + 1] == ';')
    requires s[n] == ';' || (s[n] == '"' && n + 1 < |s| && s[n + 1] == ';')
    ensures ValueEnd(s, k) == Some(n)
    decreases n - k
  {
    if k < n {
      ValueEndAt(s, k + 1, n);
    }
  }

  /** Without a `;` ahead, the data group never finds its end. */
  lemma {:induction false} ValueEndNeedsSemicolon(s: string, k: nat)
    requires k <= |s|
    requires forall j :: k <= j < |s| ==> s[j] != ';'
    ensures ValueEnd(s, k).None?
    decreases |s| - k
  {
    if k < |s| {
      ValueEndNeedsSemicolon(s, k + 1);
    }
  }

  /** Without a `;` ahead, `gepat1` cannot match. */
  lemma {:induction false} NoSemicolonNoPat1(s: string, i: nat)
    requires i <= |s|
    requires forall j :: i <= j < |s| ==> s[j] != ';'
    ensures Pat1From(s, i).None?
    decreases |s| - i
  {
    if i < |s| {
      NoSemicolonNoPat1(s, i + 1);
    }
    match AssignAt(s, i)
    case None =>
    case Some(e) =>
      var p := e + 3;
      ValueEndNeedsSemicolon(s, if p < |s| && s[p] == '"' then p + 1 else p);
  }

  /** Both searches pass over text without word characters. */
  lemma {:induction false} SkipNonWord(s: string, i: nat, n: nat)
    requires i <= n <= |s|
    requires forall j :: i <= j < n ==> !IsWordChar(s[j])
    ensures Pat1From(s, i) == Pat1From(s, n) && Pat2From(s, i) == Pat2From(s, n)
    decreases n - i
  {
    if i < n {
      SkipNonWord(s, i + 1, n);
    }
  }

  /** `\w+ = ` matches a tag followed by ` = ` at `i`, ending the tag where it ends. */
  lemma AssignAtTag(s: string, i: nat, t: string)
    requires IsTagText(t) && i + |t| + 3 <= |s|
    requires s[i..i + |t|] == t && s[i + |t|] == ' ' && s[i + |t| + 1] == '=' && s[i + |t| + 2] == ' '
    ensures AssignAt(s, i) == Some(i + |t|)
  {
    forall j | i <= j < i + |t| ensures IsWordChar(s[j]) {
      assert s[j] == t[j - i];
    }
    WordEndAt(s, i, i + |t|);
  }

  /** A tag strips to itself. */
  lemma TagStrips(t: string)
    requires IsTagText(t)
    ensures Strip(t) == t
  {
    assert IsWordChar(t[0]) && IsWordChar(t[|t| - 1]);
    StripUnchanged(t);
  }

  /** The kind a `gepat1` match with tag `t` and data `v` gives. */
  lemma PairKind(line: string, t: string, v: string)
    requires IsTagText(t) && Pat1From(line, 0) == Some(Pair(t, v))
    ensures t == "BEGIN_GROUP" ==> Classify(line) == Begin(t, Strip(v))
    ensures t == "END_GROUP" ==> Classify(line) == End(t, Strip(v))
    ensures t != "BEGIN_GROUP" && t != "END_GROUP" ==> Classify(line) == TagValue(t, Strip(v))
  {
    TagStrips(t);
  }

  /** `gepat1.search` on a line whose first word character is at `i`, where a tag `t`,
      ` = `, an optional quote, the data `s[q..n]` and `"?;` follow. */
  lemma Pat1Pair(s: string, i: nat, t: string, q: nat, n: nat)
    requires IsTagText(t) && i + |t| + 3 <= q <= n < |s|
    requires forall j :: 0 <= j < i ==> !IsWordChar(s[j])
    requires s[i..i + |t|] == t && s[i + |t|] == ' ' && s[i + |t| + 1] == '=' && s[i + |t| + 2] == ' '
    requires q == (if s[i + |t| + 3] == '"' then i + |t| + 4 else i + |t| + 3)
    requires forall j :: q <= j < n ==> s[j] != ';' && s[j] != '\n' && !(s[j] == '"' && s[j + 1] == ';')
    requires s[n] == ';' || (s[n] == '"' && n + 1 < |s| && s[n + 1] == ';')
    ensures Pat1From(s, 0) == Some(Pair(t, s[q..n]))
  {
    SkipNonWord(s, 0, i);
    Pat1AtPair(s, i, t, q, n);
  }

  /** `gepat1` anchored at the tag. */
  lemma Pat1AtPair(s: string, i: nat, t: string, q: nat, n: nat)
    requires IsTagText(t) && i + |t| + 3 <= q <= n < |s|
    requires s[i..i + |t|] == t && s[i + |t|] == ' ' && s[i + |t| + 1] == '=' && s[i + |t| + 2] == ' '
    requires q == (if s[i + |t| + 3] == '"' then i + |t| + 4 else i + |t| + 3)
    requires forall j :: q <= j < n ==> s[j] != ';' && s[j] != '\n' && !(s[j] == '"' && s[j + 1] == ';')
    requires s[n] == ';' || (s[n] == '"' && n + 1 < |s| && s[n + 1] == ';')
    ensures Pat1At(s, i) == Some(Pair(t, s[q..n]))
  {
    AssignAtTag(s, i, t);
    ValueEndAt(s, q, n);
  }

  /** Inside a one-line value the data group cannot stop early: no `;`, no newline, and no
      `";` (which needs a `;` in the value, or a closing quote right before a final `;`). */
  lemma ValueStops(s: string, q: nat, v: string, c: char)
    requires q + |v| < |s| && s[q..q + |v|] == v && IsValueText(v) && s[q + |v|] == c
    requires c == ';' ==> v == [] || v[|v| - 1] != '"'
    ensures forall j :: q <= j < q + |v| ==> s[j] != ';' && s[j] != '\n' && !(s[j] == '"' && s[j + 1] == ';')
  {
    forall j | q <= j < q + |v| ensures s[j] != ';' && s[j] != '\n' && !(s[j] == '"' && s[j + 1] == ';') {
      assert s[j] == v[j - q];
      assert j + 1 < q + |v| ==> s[j + 1] == v[j + 1 - q];
    }
  }

  /** A quoted pair `TAG = "value";`, indented by text without word characters and followed
      by anything (the line's newline, say): `BEGIN_GROUP` and `END_GROUP` open and close a
      group, and any other tag is a tag/value pair; the value is the stripped quoted text. */
  lemma ClassifyQuoted(ws: string, t: string, v: string, rest: string)
    requires NoWordChars(ws) && IsTagText(t) && IsValueText(v)
    ensures var line := ws + t + " = \"" + v + "\";" + rest;
      (t == "BEGIN_GROUP" ==> Classify(line) == Begin(t, Strip(v))) &&
      (t == "END_GROUP" ==> Classify(line) == End(t, Strip(v))) &&
      (t != "BEGIN_GROUP" && t != "END_GROUP" ==> Classify(line) == TagValue(t, Strip(v)))
  {
    var head := ws + t + " = \"";
    var line := head + v + "\";" + rest;
    var i, e := |ws|, |ws| + |t|;
    var q, n := e + 4, e + 4 + |v|;
    assert head[..i] == ws && head[i..e] == t && head[e..] == " = \"";
    assert line[..q] == head && line[q..n] == v && line[n..n + 2] == "\";";
    ValueStops(line, q, v, '"');
    Pat1Pair(line, i, t, q, n);
    PairKind(line, t, v);
  }

  /** An unquoted pair `TAG = value;` (`BEGIN_GROUP = name;` among them), whose value neither
      starts nor ends with a quote, is classified like the quoted form. */
  lemma ClassifyUnquoted(ws: string, t: string, v: string, rest: string)
    requires NoWordChars(ws) && IsTagText(t) && IsValueText(v)
    requires v == [] || (v[0] != '"' && v[|v| - 1] != '"')
    ensures var line := ws + t + " = " + v + ";" + rest;
      (t == "BEGIN_GROUP" ==> Classify(line) == Begin(t, Strip(v))) &&
      (t == "END_GROUP" ==> Classify(line) == End(t, Strip(v))) &&
      (t != "BEGIN_GROUP" && t != "END_GROUP" ==> Classify(line) == TagValue(t, Strip(v)))
  {
    var head := ws + t + " = ";
    var line := head + v + ";" + rest;
    var i, e := |ws|, |ws| + |t|;
    var q, n := e + 3, e + 3 + |v|;
    assert head[..i] == ws && head[i..e] == t && head[e..] == " = ";
    assert line[..q] == head && line[q..n] == v && line[n] == ';';
    assert line[q] != '"' by {
      if v != [] { assert line[q] == v[0]; }
    }
    ValueStops(line, q, v, ';');
    Pat1Pair(line, i, t, q, n);
    PairKind(line, t, v);
  }

  /** `TAG = ` with no `;` after it opens a multi-line value named `TAG`. */
  lemma ClassifyOpen(ws: string, t: string, rest: string)
    requires NoWordChars(ws) && IsTagText(t)
    requires forall j :: 0 <= j < |rest| ==> rest[j] != ';'
    ensures Classify(ws + t + " = " + rest) == TagOpen(t)
  {
    var tail := t + " = " + rest;
    var line := ws + tail;
    var i := |ws|;
    OpenTail(t, rest);
    assert line == ws + t + " = " + rest;
    assert line[..i] == ws && line[i..] == tail;
    assert line[i..i + |t|] == tail[..|t|];
    SkipNonWord(line, 0, i);
    AssignAtTag(line, i, t);
    SemicolonFreeFrom(line, i, tail);
    NoSemicolonNoPat1(line, i);
    TagStrips(t);
  }

  /** The text from the tag on: the tag, ` = `, and no `;` anywhere. */
  lemma OpenTail(t: string, rest: string)
    requires IsTagText(t) && forall j :: 0 <= j < |rest| ==> rest[j] != ';'
    ensures var tail := t + " = " + rest;
      tail[..|t|] == t && tail[|t|] == ' ' && tail[|t| + 1] == '=' && tail[|t| + 2] == ' ' &&
      forall j :: 0 <= j < |tail| ==> tail[j] != ';'
  {
    var tail := t + " = " + rest;
    forall j | 0 <= j < |tail| ensures tail[j] != ';' {
      if j < |t| {
        assert tail[j] == t[j];
      } else if j >= |t| + 3 {
        assert tail[j] == rest[j - |t| - 3];
      }
    }
  }

  lemma SemicolonFreeFrom(s: string, i: nat, tail: string)
    requires i <= |s| && s[i..] == tail && forall j :: 0 <= j < |tail| ==> tail[j] != ';'
    ensures forall j :: i <= j < |s| ==> s[j] != ';'
  {
    forall j | i <= j < |s| ensures s[j] != ';' {
      assert s[j] == tail[j - i];
    }
  }

  // ---------------------------------------------------------------------------
  // Parser state and one step of the loop
  // ---------------------------------------------------------------------------

  /** Groups whose index tag becomes an attribute of the group rather than a child. */
  const GroupTags: map<string, string> :=
    map["aoiGeoCoordinate" := "coordinateNumber",
        "aoiMapCoordinate" := "coordinateNumber",
        "bandSpecificInformation" := "bandNumber"]

  /** The group the parser is in: `current`, `parent` and `node_stack`. */
  datatype Cursor = Cursor(current: nat, parent: Option<nat>, nodeStack: seq<nat>)

  /** The open groups, outermost first: `node_stack`, then `parent` when set, then `current`. */
  function Path(c: Cursor): (p: seq<nat>)
    ensures |p| > 0 && p[|p| - 1] == c.current
  {
    c.nodeStack + (if c.parent.Some? then [c.parent.value] else []) + [c.current]
  }

  /** The outermost open group: the first element of the path. */
  function Bottom(c: Cursor): (b: nat)
    ensures b == Path(c)[0]
  {
    if c.nodeStack != [] then c.nodeStack[0] else if c.parent.Some? then c.parent.value else c.current
  }

  /** The parser's invariant: the tree is well formed, and the path starts at the root and
      stays inside the tree. */
  ghost predicate Valid(d: Doc, c: Cursor)
  {
    WellFormed(d) && d[Root].tag == "root" && Bottom(c) == Root &&
    c.current < |d| && (c.parent.Some? ==> c.parent.value < |d|) &&
    (c.parent.None? ==> c.nodeStack == []) &&
    (forall j :: 0 <= j < |c.nodeStack| ==> c.nodeStack[j] < |d|)
  }

  /** Element `j + 1` of the path is a child of element `j`. */
  ghost predicate LinkAt(d: Doc, p: seq<nat>, j: nat)
    requires j + 1 < |p|
  {
    p[j] < |d| && p[j + 1] in d[p[j]].children
  }

  /** Each element on the path is a child of the one before it. */
  ghost predicate Linked(d: Doc, c: Cursor)
  {
    var p := Path(c);
    forall j: nat :: j + 1 < |p| ==> LinkAt(d, p, j)
  }

  /** `d2` is `d` after elements were added and children appended; nothing was taken away. */
  lemma ExtendsKeepsValid(d: Doc, c: Cursor, d2: Doc)
    requires Valid(d, c) && WellFormed(d2) && Extends(d, d2)
    ensures Valid(d2, c)
  {
  }

  lemma ExtendsKeepsLinked(d: Doc, c: Cursor, d2: Doc)
    requires Linked(d, c) && Extends(d, d2)
    ensures Linked(d2, c)
  {
    var p := Path(c);
    forall j: nat | j + 1 < |p|
      ensures LinkAt(d2, p, j)
    {
      assert LinkAt(d, p, j);
      var ch := d[p[j]].children;
      var ch2 := d2[p[j]].children;
      assert ch2 == ch + ch2[|ch|..];
    }
  }

  lemma AddTextChildKeepsValid(d: Doc, c: Cursor, tag: string, text: string)
    requires Valid(d, c)
    ensures Valid(AddTextChild(d, c.current, tag, text), c)
  {
    var d2 := AddTextChild(d, c.current, tag, text);
    AddTextChildExtends(d, c.current, tag, text);
    ExtendsKeepsValid(d, c, d2);
  }

  lemma SetAttribKeepsValid(d: Doc, c: Cursor, key: string, value: string)
    requires Valid(d, c)
    ensures Valid(SetAttrib(d, c.current, key, value), c)
  {
    SetAttribExtends(d, c.current, key, value);
    ExtendsKeepsValid(d, c, SetAttrib(d, c.current, key, value));
  }

  /** `BEGIN_GROUP`: the new child of `current` (element `|d|`) becomes `current`. */
  function OpenGroup(d: Doc, c: Cursor, name: string): (r: Cursor)
    requires Valid(d, c)
    ensures Valid(SubElement(d, c.current, name), r)
  {
    var d2 := SubElement(d, c.current, name);
    SubElementExtends(d, c.current, name);
    ExtendsKeepsValid(d, c, d2);
    Cursor(|d|, Some(c.current),
           if c.parent.Some? then c.nodeStack + [c.parent.value] else c.nodeStack)
  }

  lemma OpenPath(d: Doc, c: Cursor, name: string)
    requires Valid(d, c)
    ensures Path(OpenGroup(d, c, name)) == Path(c) + [|d|]
  {
  }

  /** `END_GROUP`: back to `parent`, or to the root when there is none. */
  function CloseGroup(d: Doc, c: Cursor): (r: Cursor)
    requires Valid(d, c)
    ensures Valid(d, r)
  {
    Cursor(if c.parent.Some? then c.parent.value else Root,
           if c.nodeStack != [] then Some(c.nodeStack[|c.nodeStack| - 1]) else None,
           if c.nodeStack != [] then c.nodeStack[..|c.nodeStack| - 1] else [])
  }

  lemma ClosePath(d: Doc, c: Cursor)
    requires Valid(d, c)
    ensures Path(CloseGroup(d, c)) == if |Path(c)| > 1 then Path(c)[..|Path(c)| - 1] else [Root]
  {
    var p := Path(c);
    var r := CloseGroup(d, c);
    if |p| > 1 {
      assert Path(r) == p[..|p| - 1];
    }
  }

  /** The tag is the index tag of the group `i`. */
  predicate IsIndexTag(d: Doc, i: nat, tag: string)
    requires i < |d|
  {
    d[i].tag in GroupTags && tag == GroupTags[d[i].tag]
  }

  /** The loop's variables: the tree, the cursor, the multi-line flag `mlstr` and the last
      `tag` and `data` bound. */
  datatype State = State(doc: Doc, cursor: Cursor, mlstr: bool, tag: string, data: string)

  ghost predicate StateValid(st: State)
  {
    Valid(st.doc, st.cursor)
  }

  function Init(): (st: State)
    ensures StateValid(st)
  {
    State(NewDoc("root"), Cursor(Root, None, []), false, "", "")
  }

  /** The `if mlstr:` block: accumulate the stripped line, or close the value at `);`. */
  function ContinueValue(st: State, line: string): (r: State)
    requires StateValid(st)
    ensures StateValid(r) && r.cursor == st.cursor
  {
    if !st.mlstr then st
    else if Strip(line) != ");" then st.(data := st.data + Strip(line))
    else
      AddTextChildKeepsValid(st.doc, st.cursor, st.tag, st.data + Strip(line));
      State(AddTextChild(st.doc, st.cursor.current, st.tag, st.data + Strip(line)),
            st.cursor, false, st.tag, st.data + Strip(line))
  }

  /** What the classified line does to the state once a pending multi-line value is handled. */
  function Apply(s: State, k: LineKind): (r: State)
    requires StateValid(s)
    ensures StateValid(r)
  {
    match k
    case Begin(tag, data) =>
      var name := if data == "" then "group" else data;
      State(SubElement(s.doc, s.cursor.current, name), OpenGroup(s.doc, s.cursor, name),
            s.mlstr, tag, data)
    case End(tag, data) =>
      State(s.doc, CloseGroup(s.doc, s.cursor), s.mlstr, tag, data)
    case TagValue(tag, data) =>
      if IsIndexTag(s.doc, s.cursor.current, tag) then
        SetAttribKeepsValid(s.doc, s.cursor, tag, data);
        State(SetAttrib(s.doc, s.cursor.current, tag, data), s.cursor, s.mlstr, tag, data)
      else
        AddTextChildKeepsValid(s.doc, s.cursor, tag, data);
        State(AddTextChild(s.doc, s.cursor.current, tag, data), s.cursor, s.mlstr, tag, data)
    case TagOpen(tag) => s.(tag := tag, data := "", mlstr := true)
    case Plain => s
  }

  /** One iteration of the `for line in metaf` loop. */
  function Step(st: State, line: string): (r: State)
    requires StateValid(st)
    ensures StateValid(r)
  {
    Apply(ContinueValue(st, line), Classify(line))
  }

  /** The loop run over `lines` from state `st`. */
  function Run(st: State, lines: seq<string>): (r: State)
    requires StateValid(st)
    ensures StateValid(r)
    decreases |lines|
  {
    if lines == [] then st else Step(Run(st, lines[..|lines| - 1]), lines[|lines| - 1])
  }

  /** The tree `getGEMetadataAsXml` returns for the lines of a metadata file. */
  function Parse(lines: seq<string>): (d: Doc)
    ensures WellFormed(d) && d[Root].tag == "root"
  {
    Run(Init(), lines).doc
  }

  // ---------------------------------------------------------------------------
  // The parser as the source writes it: a loop over the lines
  // ---------------------------------------------------------------------------

  /** The body of the loop for one line, on the loop's variables. */
  method FeedLine(st: State, line: string) returns (r: State)
    requires StateValid(st)
    ensures r == Step(st, line)
  {
    var s := FeedPending(st, line);
    r := FeedKind(s, Classify(line));
  }

  /** The `if mlstr:` block of the loop body. */
  method FeedPending(st: State, line: string) returns (r: State)
    requires StateValid(st)
    ensures r == ContinueValue(st, line)
  {
    var doc, mlstr, data := st.doc, st.mlstr, st.data;
    if mlstr {
      if Strip(line) != ");" {
        data := data + Strip(line);
      } else {
        data := data + Strip(line);
        doc := AddTextChild(doc, st.cursor.current, st.tag, data);
        mlstr := false;
      }
    }
    r := State(doc, st.cursor, mlstr, st.tag, data);
  }

  /** The rest of the loop body: what the line matched, on the loop's variables. */
  method FeedKind(st: State, k: LineKind) returns (r: State)
    requires StateValid(st)
    ensures r == Apply(st, k)
  {
    var doc, current, parent, nodeStack := st.doc, st.cursor.current, st.cursor.parent, st.cursor.nodeStack;
    var mlstr, tag, data := st.mlstr, st.tag, st.data;
    match k {
      case Begin(t, v) =>
        tag, data := t, v;
        var child := |doc|;
        doc := SubElement(doc, current, if data == "" then "group" else data);
        if parent.Some? {
          nodeStack := nodeStack + [parent.value];
        }
        parent := Some(current);
        current := child;
      case End(t, v) =>
        tag, data := t, v;
        current := if parent.Some? then parent.value else Root;
        if nodeStack != [] {
          parent := Some(nodeStack[|nodeStack| - 1]);
          nodeStack := nodeStack[..|nodeStack| - 1];
        } else {
          parent := None;
        }
      case TagValue(t, v) =>
        tag, data := t, v;
        if doc[current].tag in GroupTags && tag == GroupTags[doc[current].tag] {
          doc := SetAttrib(doc, current, tag, data);
        } else {
          doc := AddTextChild(doc, current, tag, data);
        }
      case TagOpen(t) =>
        tag := t;
        data := "";
        mlstr := true;
      case Plain =>
    }
    r := State(doc, Cursor(current, parent, nodeStack), mlstr, tag, data);
  }

  /** `getGEMetadataAsXml`: feed every line of the file to the loop body. */
  method ParseGroupedBlocks(lines: seq<string>) returns (doc: Doc)
    ensures doc == Parse(lines)
  {
    var st := Init();
    var i := 0;
    while i < |lines|
      invariant 0 <= i <= |lines|
      invariant st == Run(Init(), lines[..i])
    {
      st := FeedNext(st, lines, i);
      i := i + 1;
    }
    assert lines[..|lines|] == lines;
    doc := st.doc;
  }

  /** The loop body for line `i`, after the first `i` lines were fed. */
  method FeedNext(st: State, lines: seq<string>, i: nat) returns (r: State)
    requires i < |lines| && st == Run(Init(), lines[..i])
    ensures r == Run(Init(), lines[..i + 1])
  {
    RunPrefix(Init(), lines, i);
    r := FeedLine(st, lines[i]);
  }

  // ---------------------------------------------------------------------------
  // Properties
  // ---------------------------------------------------------------------------

  /** Opening a group keeps the chain linked: the new element is a child of `current`. */
  lemma OpenKeepsLinked(d: Doc, c: Cursor, name: string)
    requires Valid(d, c) && Linked(d, c)
    ensures Linked(SubElement(d, c.current, name), OpenGroup(d, c, name))
  {
    var d2 := SubElement(d, c.current, name);
    SubElementExtends(d, c.current, name);
    ExtendsKeepsLinked(d, c, d2);
    OpenPath(d, c, name);
    var p := Path(c);
    var q := p + [|d|];
    SubElementShape(d, c.current, name);
    forall j: nat | j + 1 < |q|
      ensures LinkAt(d2, q, j)
    {
      if j + 1 < |p| {
        assert LinkAt(d2, p, j);
        assert q[j + 1] == p[j + 1] && q[j] == p[j];
      } else {
        assert q[j] == c.current;
        assert d2[q[j]].children == d[q[j]].children + [|d|];
      }
    }
  }

  /** Closing a group keeps the chain linked: the path only loses its last element. */
  lemma CloseKeepsLinked(d: Doc, c: Cursor)
    requires Valid(d, c) && Linked(d, c)
    ensures Linked(d, CloseGroup(d, c))
  {
    var p := Path(c);
    ClosePath(d, c);
    var q := Path(CloseGroup(d, c));
    if |p| > 1 {
      forall j: nat | j + 1 < |q|
        ensures LinkAt(d, q, j)
      {
        assert LinkAt(d, p, j);
        assert q[j + 1] == p[j + 1] && q[j] == p[j];
      }
    }
  }

  lemma ApplyKeepsLinked(s: State, k: LineKind)
    requires StateValid(s) && Linked(s.doc, s.cursor)
    ensures Linked(Apply(s, k).doc, Apply(s, k).cursor)
  {
    match k
    case Begin(_, data) =>
      OpenKeepsLinked(s.doc, s.cursor, if data == "" then "group" else data);
    case End(_, _) =>
      CloseKeepsLinked(s.doc, s.cursor);
    case TagValue(tag, data) =>
      if IsIndexTag(s.doc, s.cursor.current, tag) {
        SetAttribExtends(s.doc, s.cursor.current, tag, data);
        ExtendsKeepsLinked(s.doc, s.cursor, SetAttrib(s.doc, s.cursor.current, tag, data));
      } else {
        AddTextChildExtends(s.doc, s.cursor.current, tag, data);
        ExtendsKeepsLinked(s.doc, s.cursor, AddTextChild(s.doc, s.cursor.current, tag, data));
      }
    case TagOpen(_) =>
    case Plain =>
  }

  lemma StepKeepsLinked(st: State, line: string)
    requires StateValid(st) && Linked(st.doc, st.cursor)
    ensures Linked(Step(st, line).doc, Step(st, line).cursor)
  {
    var s := ContinueValue(st, line);
    if st.mlstr && Strip(line) == ");" {
      AddTextChildExtends(st.doc, st.cursor.current, st.tag, st.data + Strip(line));
    }
    ExtendsKeepsLinked(st.doc, st.cursor, s.doc);
    ApplyKeepsLinked(s, Classify(line));
  }

  lemma {:induction false} RunKeepsLinked(st: State, lines: seq<string>)
    requires StateValid(st) && Linked(st.doc, st.cursor)
    ensures Linked(Run(st, lines).doc, Run(st, lines).cursor)
    decreases |lines|
  {
    if lines != [] {
      RunKeepsLinked(st, lines[..|lines| - 1]);
      StepKeepsLinked(Run(st, lines[..|lines| - 1]), lines[|lines| - 1]);
    }
  }

  /** `if parent:` in the source tests truthiness, which for an element means "has children".
      Whenever the parser has a `parent`, `current` is one of its children, so the test is a
      test for None. */
  lemma ParentHasCurrentChild(lines: seq<string>)
    ensures var r := Run(Init(), lines);
      r.cursor.parent.Some? ==>
        r.cursor.parent.value < |r.doc| && r.cursor.current in r.doc[r.cursor.parent.value].children
  {
    assert Path(Init().cursor) == [Root];
    RunKeepsLinked(Init(), lines);
    var r := Run(Init(), lines);
    if r.cursor.parent.Some? {
      var p := Path(r.cursor);
      assert p[|p| - 2] == r.cursor.parent.value;
      assert LinkAt(r.doc, p, |p| - 2);
    }
  }

  /** The path fixes `current`, `parent` and `node_stack`. */
  lemma PathDetermines(a: Cursor, b: Cursor)
    requires a.parent.None? ==> a.nodeStack == []
    requires b.parent.None? ==> b.nodeStack == []
    requires Path(a) == Path(b)
    ensures a == b
  {
    var p := Path(a);
    if a.parent.Some? && b.parent.Some? {
      assert a.nodeStack == p[..|p| - 2] == b.nodeStack;
      assert a.parent.value == p[|p| - 2] == b.parent.value;
    }
  }

  /** How one line moves the path: `BEGIN_GROUP` pushes the new group, `END_GROUP` pops
      (or stays at the root), every other line leaves it alone. */
  lemma StepPath(st: State, line: string)
    requires StateValid(st)
    ensures IsBegin(line) ==> Path(Step(st, line).cursor) == Path(st.cursor) + [|ContinueValue(st, line).doc|]
    ensures IsEnd(line) ==>
      Path(Step(st, line).cursor) ==
        if |Path(st.cursor)| > 1 then Path(st.cursor)[..|Path(st.cursor)| - 1] else [Root]
    ensures !IsBegin(line) && !IsEnd(line) ==> Step(st, line).cursor == st.cursor
  {
    ApplyPath(ContinueValue(st, line), Classify(line));
  }

  /** How a classified line moves the path, once a pending value is handled. */
  lemma ApplyPath(s: State, k: LineKind)
    requires StateValid(s)
    ensures k.Begin? ==> Path(Apply(s, k).cursor) == Path(s.cursor) + [|s.doc|]
    ensures k.End? ==>
      Path(Apply(s, k).cursor) ==
        if |Path(s.cursor)| > 1 then Path(s.cursor)[..|Path(s.cursor)| - 1] else [Root]
    ensures !k.Begin? && !k.End? ==> Apply(s, k).cursor == s.cursor
  {
    match k
    case Begin(_, data) => OpenPath(s.doc, s.cursor, if data == "" then "group" else data);
    case End(_, _) => ClosePath(s.doc, s.cursor);
    case TagValue(_, _) =>
    case TagOpen(_) =>
    case Plain =>
  }

  lemma RunConcat(st: State, a: seq<string>, b: seq<string>)
    requires StateValid(st)
    ensures Run(st, a + b) == Run(Run(st, a), b)
    decreases |b|
  {
    if b == [] {
      assert a + b == a;
    } else {
      assert (a + b)[..|a + b| - 1] == a + b[..|b| - 1];
      RunConcat(st, a, b[..|b| - 1]);
    }
  }

  /** Net number of groups opened by `lines`. */
  function Net(lines: seq<string>): int
  {
    if lines == [] then 0
    else Net(lines[..|lines| - 1]) + (if IsBegin(lines[|lines| - 1]) then 1
                                      else if IsEnd(lines[|lines| - 1]) then -1 else 0)
  }

  /** No prefix closes more groups than it opened. */
  predicate NeverBelow(lines: seq<string>)
  {
    Net(lines) >= 0 && (lines != [] ==> NeverBelow(lines[..|lines| - 1]))
  }

  predicate Balanced(lines: seq<string>)
  {
    NeverBelow(lines) && Net(lines) == 0
  }

  /** Lines that never close more than they opened keep the path as a prefix and lengthen
      it by their net count. */
  lemma {:induction false} NestedPath(st: State, lines: seq<string>)
    requires StateValid(st) && NeverBelow(lines)
    ensures Path(st.cursor) <= Path(Run(st, lines).cursor)
    ensures |Path(Run(st, lines).cursor)| == |Path(st.cursor)| + Net(lines)
    decreases |lines|
  {
    if lines != [] {
      var init := lines[..|lines| - 1];
      var last := lines[|lines| - 1];
      NestedPath(st, init);
      var r0 := Run(st, init);
      RunLast(st, lines);
      StepPath(r0, last);
      var p0, p1 := Path(st.cursor), Path(r0.cursor);
      if IsEnd(last) {
        assert !IsBegin(last);
        assert Net(lines) == Net(init) - 1;
        assert |p1| > |p0| >= 1;
        assert p0 <= p1[..|p1| - 1];
      }
    }
  }

  /** The loop over an opening line, a body and a closing line. */
  lemma RunBracketed(st: State, lines: seq<string>)
    requires StateValid(st) && |lines| >= 2
    ensures Run(st, lines) ==
      Step(Run(Step(st, lines[0]), lines[1..|lines| - 1]), lines[|lines| - 1])
  {
    var n := |lines|;
    RunLast(st, lines);
    assert lines[..n - 1] == lines[..1] + lines[1..n - 1];
    RunConcat(st, lines[..1], lines[1..n - 1]);
    RunLast(st, lines[..1]);
    assert lines[..1][..0] == [];
  }

  /** A balanced `BEGIN_GROUP` ... `END_GROUP` leaves `current`, `parent` and `node_stack`
      as they were before the group. */
  lemma GroupRestores(st: State, lines: seq<string>)
    requires StateValid(st) && |lines| >= 2
    requires IsBegin(lines[0]) && Balanced(lines[1..|lines| - 1]) && IsEnd(lines[|lines| - 1])
    ensures Run(st, lines).cursor == st.cursor
  {
    RunBracketed(st, lines);
    var s0 := Step(st, lines[0]);
    StepPath(st, lines[0]);
    NestedPath(s0, lines[1..|lines| - 1]);
    var s1 := Run(s0, lines[1..|lines| - 1]);
    StepPath(s1, lines[|lines| - 1]);
    var r := Step(s1, lines[|lines| - 1]);
    PushPop(Path(st.cursor), Path(s0.cursor), Path(s1.cursor), Path(r.cursor));
    PathDetermines(r.cursor, st.cursor);
  }

  /** A path that gains one group, keeps its length over a nested stretch and then loses
      its last group is the path it started from. */
  lemma PushPop(p0: seq<nat>, p1: seq<nat>, p2: seq<nat>, p3: seq<nat>)
    requires |p0| > 0 && |p1| == |p0| + 1 && p0 <= p1
    requires p1 <= p2 && |p2| == |p1|
    requires p3 == if |p2| > 1 then p2[..|p2| - 1] else [Root]
    ensures p3 == p0
  {
    assert p2 == p1;
    assert p1[..|p1| - 1] == p0;
  }

  /** An `END_GROUP` with no open group leaves `current` at the root, without raising. */
  lemma UnmatchedEndStaysAtRoot(st: State, line: string)
    requires StateValid(st) && st.cursor.parent.None? && IsEnd(line)
    ensures Step(st, line).cursor == Cursor(Root, None, [])
  {
  }

  /** Outside `BEGIN_GROUP`/`END_GROUP`, a tag/value line inside a group whose index tag it
      carries sets that attribute and adds no element; any other tag/value line adds exactly
      one child of `current` whose text is the value. */
  lemma TagValueEffect(st: State, line: string, tag: string, data: string)
    requires StateValid(st) && Classify(line) == TagValue(tag, data)
    ensures var r := Step(st, line); var cur := st.cursor.current;
      r.cursor == st.cursor &&
      (IsIndexTag(st.doc, cur, tag) ==>
         |r.doc| == |st.doc| &&
         r.doc[cur].attrib == st.doc[cur].attrib[tag := data] &&
         r.doc[cur].children == st.doc[cur].children) &&
      (!IsIndexTag(st.doc, cur, tag) ==>
         |r.doc| == |st.doc| + 1 &&
         r.doc[|st.doc|] == Element(tag, map[], Some(data), []) &&
         r.doc[cur].children == st.doc[cur].children + [|st.doc|])
  {
    if st.mlstr && Strip(line) == ");" {
      CloserIsPlain(line);
    }
    assert ContinueValue(st, line).doc == st.doc;
  }

  /** The stripped lines of a multi-line value, concatenated. */
  function Joined(body: seq<string>): string
  {
    if body == [] then "" else Joined(body[..|body| - 1]) + Strip(body[|body| - 1])
  }

  /** Lines inside a multi-line value that match neither pattern. */
  predicate ValueLines(body: seq<string>)
  {
    forall k :: 0 <= k < |body| ==> Classify(body[k]) == Plain && Strip(body[k]) != ");"
  }

  /** A line that matches neither pattern does nothing but continue a multi-line value. */
  lemma PlainStep(st: State, line: string)
    requires StateValid(st) && Classify(line) == Plain
    ensures Step(st, line) == ContinueValue(st, line)
  {
  }

  lemma RunPrefix(st: State, lines: seq<string>, i: nat)
    requires StateValid(st) && i < |lines|
    ensures Run(st, lines[..i + 1]) == Step(Run(st, lines[..i]), lines[i])
  {
    assert lines[..i + 1][..i] == lines[..i];
    RunLast(st, lines[..i + 1]);
  }

  lemma RunLast(st: State, lines: seq<string>)
    requires StateValid(st) && lines != []
    ensures Run(st, lines) == Step(Run(st, lines[..|lines| - 1]), lines[|lines| - 1])
  {
  }

  lemma ValueLinesSplit(body: seq<string>)
    requires ValueLines(body) && body != []
    ensures ValueLines(body[..|body| - 1])
    ensures Classify(body[|body| - 1]) == Plain && Strip(body[|body| - 1]) != ");"
  {
    var init := body[..|body| - 1];
    forall k | 0 <= k < |init| ensures Classify(init[k]) == Plain && Strip(init[k]) != ");" {
      assert init[k] == body[k];
    }
  }

  lemma {:induction false} ValueBody(st: State, body: seq<string>)
    requires StateValid(st) && st.mlstr && ValueLines(body)
    ensures Run(st, body) == st.(data := st.data + Joined(body))
    decreases |body|
  {
    if body != [] {
      var init := body[..|body| - 1];
      var last := body[|body| - 1];
      ValueLinesSplit(body);
      ValueBody(st, init);
      RunLast(st, body);
      PlainStep(Run(st, init), last);
      var x := st.(data := st.data + Joined(init));
      assert Run(st, body) == ContinueValue(x, last);
      assert x.mlstr && Strip(last) != ");";
      assert ContinueValue(x, last) == x.(data := x.data + Strip(last));
      assert Joined(body) == Joined(init) + Strip(last);
      assert x.data + Strip(last) == st.data + Joined(body);
    }
  }

  /** `TAG = ` without `;` opens a multi-line value: the following lines, stripped and
      concatenated up to and including the `);` line, become the text of one new child of
      `current` named `TAG`. */
  lemma MultiLineValue(st: State, lines: seq<string>, tag: string)
    requires StateValid(st) && !st.mlstr && |lines| >= 2
    requires Classify(lines[0]) == TagOpen(tag) && ValueLines(lines[1..|lines| - 1])
    requires Strip(lines[|lines| - 1]) == ");"
    ensures var r := Run(st, lines);
      !r.mlstr && r.cursor == st.cursor &&
      r.doc == AddTextChild(st.doc, st.cursor.current, tag, Joined(lines[1..|lines| - 1]) + ");")
  {
    var body, close := lines[1..|lines| - 1], lines[|lines| - 1];
    RunBracketed(st, lines);
    OpenValueStep(st, lines[0], tag);
    var s0 := st.(tag := tag, data := "", mlstr := true);
    ValueBody(s0, body);
    assert "" + Joined(body) == Joined(body);
    var s1 := s0.(data := Joined(body));
    CloseValueStep(s1, close);
  }

  /** The line `TAG = ` outside a multi-line value starts one, with empty data. */
  lemma OpenValueStep(st: State, line: string, tag: string)
    requires StateValid(st) && !st.mlstr && Classify(line) == TagOpen(tag)
    ensures Step(st, line) == st.(tag := tag, data := "", mlstr := true)
  {
    assert ContinueValue(st, line) == st;
  }

  /** The `);` line ends a multi-line value: the accumulated text, with the closer, becomes
      a new child of `current`. */
  lemma CloseValueStep(st: State, line: string)
    requires StateValid(st) && st.mlstr && Strip(line) == ");"
    ensures Step(st, line) ==
      State(AddTextChild(st.doc, st.cursor.current, st.tag, st.data + Strip(line)),
            st.cursor, false, st.tag, st.data + Strip(line))
  {
    CloserIsPlain(line);
    PlainStep(st, line);
  }
}
