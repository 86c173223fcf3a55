/** `getIKMetadataAsXml`: the IKONOS metadata text, one `Tag: value` pair or bare group name
    per line, turned into an element tree. Nesting is not written in the file; it is inferred
    from a few known tag names, with `current`, `parent` and `node_stack` remembering the way
    back up. */
module IndentedTagParser {
  import opened Base
  import opened XmlTree

  // ---------------------------------------------------------------------------
  // Fixed tag lists
  // ---------------------------------------------------------------------------

  /** Boilerplate lines of the vendor's header, compared after stripping. */
  const Ignores: seq<string> := [
    "Company Information", "Address", "GeoEye", "12076 Grant Street",
    "Thornton, Colorado 80241", "U.S.A.", "Contact Information",
    "On the Web: http://www.geoeye.com", "Customer Service Phone (U.S.A.): 1.800.232.9037",
    "Customer Service Phone (World Wide): 1.703.480.5670",
    "Customer Service Fax (World Wide): 1.703.450.9570", "Customer Service Email: info@geoeye.com",
    "Customer Service Center hours of operation:", "Monday - Friday, 8:00 - 20:00 Eastern Standard Time"
  ]

  /** `tags_1L`: top-level blocks, always children of the root. */
  const TopTags: seq<string> := ["Product_Order_Metadata", "Source_Image_Metadata",
                                 "Product_Space_Metadata", "Product_Component_Metadata"]

  /** `tags_2L`: second-level blocks, identified by an `id` attribute. */
  const IdTags: seq<string> := ["Source_Image_ID", "Component_ID"]

  /** `tags_coords`: the values that belong inside a `Coordinate` block. */
  const CoordTags: seq<string> := ["Latitude", "Longitude", "Map_X_(Easting)", "Map_Y_(Northing)",
                                   "UL_Map_X_(Easting)", "UL_Map_Y_(Northing)"]

  /** `.replace(" ", "_").replace("/", "_")`: tags may hold neither spaces nor slashes. */
  function Underscored(s: string): (r: string)
    ensures |r| == |s|
    ensures forall i :: 0 <= i < |s| ==> r[i] == (if s[i] == ' ' || s[i] == '/' then '_' else s[i])
  {
    ReplaceChar(ReplaceChar(s, ' ', '_'), '/', '_')
  }

  // ---------------------------------------------------------------------------
  // The two line patterns
  // ---------------------------------------------------------------------------

  /** A match of `(?P<tag>.+?): (?P<data>.+)?`; `data` is None when the group did not take part. */
  datatype PairMatch = PairMatch(tag: string, data: Option<string>)

  /** The lazy `.+?` extended from `k`: the first `": "` at or after `k`, unless a newline
      (which `.` does not match) comes first. */
  function SepFrom(line: string, k: nat): (r: Option<nat>)
    requires k <= |line|
    ensures r.Some? ==> k <= r.value && r.value + 2 <= |line|
    decreases |line| - k
  {
    if k + 2 > |line| then None
    else if line[k] == ':' && line[k + 1] == ' ' then Some(k)
    else if line[k] == '\n' then None
    else SepFrom(line, k + 1)
  }

  /** The greedy `.+` from `k`: up to the first newline or the end of the line. */
  function LineEnd(line: string, k: nat): (e: nat)
    requires k <= |line|
    ensures k <= e <= |line|
    ensures e == |line| || line[e] == '\n'
    decreases |line| - k
  {
    if k == |line| || line[k] == '\n' then k else LineEnd(line, k + 1)
  }

  /** `ikpat1.search(line[s..])`: the leftmost start at or after `s` from which the pattern
      matches. */
  function PairFrom(line: string, s: nat): (r: Option<PairMatch>)
    decreases |line| - s
  {
    if s >= |line| then None
    else if line[s] == '\n' then PairFrom(line, s + 1)
    else match SepFrom(line, s + 1)
      case Some(k) =>
        var e := LineEnd(line, k + 2);
        Some(PairMatch(line[s..k], if e > k + 2 then Some(line[k + 2..e]) else None))
      case None => PairFrom(line, s + 1)
  }

  /** The character class `[a-zA-Z ()]` of `ikpat2`. */
  predicate IsNameChar(c: char)
  {
    ('a' <= c <= 'z') || ('A' <= c <= 'Z') || c == ' ' || c == '(' || c == ')'
  }

  /** End of the run of name characters that starts at `i`. */
  function NameEnd(line: string, i: nat): (e: nat)
    requires i <= |line|
    ensures i <= e <= |line|
    ensures e == |line| || !IsNameChar(line[e])
    ensures forall j :: i <= j < e ==> IsNameChar(line[j])
    decreases |line| - i
  {
    if i == |line| || !IsNameChar(line[i]) then i else NameEnd(line, i + 1)
  }

  /** `ikpat2.search(line[s..])`: the first maximal run of name characters. */
  function NameFrom(line: string, s: nat): (r: Option<string>)
    decreases |line| - s
  {
    if s >= |line| then None
    else if IsNameChar(line[s]) then Some(line[s..NameEnd(line, s)])
    else NameFrom(line, s + 1)
  }

  // ---------------------------------------------------------------------------
  // What a line is
  // ---------------------------------------------------------------------------

  datatype LineKind =
    | Skip                               // on the ignore list
    | TopGroup(name: string)             // a `tags_1L` name
    | IdPair(tag: string, data: string)  // `Source_Image_ID: ...` or `Component_ID: ...`
    | CoordPair(data: string)            // `Coordinate: ...`
    | ValuePair(tag: string, data: string)
    | Group(name: string)                // a bare group name
    | Blank                              // neither pattern matches

  /** What `Classify` can return: each kind carries a tag of its own list. */
  predicate Classified(k: LineKind)
  {
    match k
    case TopGroup(name) => name in TopTags
    case IdPair(tag, _) => tag in IdTags
    case ValuePair(tag, _) => tag !in IdTags && tag != "Coordinate"
    case _ => true
  }

  /** Which of the three tag/value branches a pair takes. */
  function PairKind(tag: string, data: string): (k: LineKind)
    ensures Classified(k)
  {
    if tag in IdTags then IdPair(tag, data)
    else if tag == "Coordinate" then CoordPair(data)
    else ValuePair(tag, data)
  }

  /** The tests at the head of the loop body, in the order the source makes them. */
  function Classify(line: string): (k: LineKind)
    ensures Classified(k)
  {
    var item := Strip(line);
    if item in Ignores then Skip
    else if Underscored(item) in TopTags then TopGroup(Underscored(item))
    else MatchLine(line)
  }

  /** The two patterns, `ikpat1` first: a tag/value pair, a group name, or neither. */
  function MatchLine(line: string): (k: LineKind)
    ensures Classified(k) && !k.Skip? && !k.TopGroup?
  {
    match PairFrom(line, 0)
    case Some(m) =>
      PairKind(Underscored(Strip(m.tag)), if m.data.Some? then Strip(m.data.value) else "")
    case None =>
      match NameFrom(line, 0)
      case Some(t) => Group(Strip(t))
      case None => Blank
  }

  // ---------------------------------------------------------------------------
  // Parser state
  // ---------------------------------------------------------------------------

  /** How far an unwind loop climbs: to a top-level node or the root, or (for plain values
      and group names) also to a second-level node. */
  datatype Level = TopOrRoot | SecondOrAbove

  /** The condition that ends an unwind loop. */
  predicate Stops(lv: Level, tag: string)
  {
    tag in TopTags || tag == "root" || (lv == SecondOrAbove && tag in IdTags)
  }

  /** `current`, `parent` (None before the first top-level name) and `node_stack`, which
      may hold the None pushed by the first descent from the root. */
  datatype Cursor = Cursor(current: nat, parent: Option<nat>, nodeStack: seq<Option<nat>>)

  /** The way back up, outermost first: `node_stack`, then `parent`, then `current`. */
  function Chain(c: Cursor): (ch: seq<Option<nat>>)
    ensures |ch| == |c.nodeStack| + 2 && ch[|ch| - 1] == Some(c.current) && ch[|ch| - 2] == c.parent
  {
    c.nodeStack + [c.parent, Some(c.current)]
  }

  /** One step of an unwind loop: `current = parent; parent = node_stack.pop()`. */
  function Pop(c: Cursor): (r: Cursor)
    requires c.parent.Some? && c.nodeStack != []
    ensures Chain(r) == Chain(c)[..|Chain(c)| - 1]
  {
    Cursor(c.parent.value, c.nodeStack[|c.nodeStack| - 1], c.nodeStack[..|c.nodeStack| - 1])
  }

  /** `node_stack.append(parent); parent = current; current = child`. */
  function Descend(c: Cursor, child: nat): (r: Cursor)
    ensures Chain(r) == Chain(c) + [Some(child)]
  {
    Cursor(child, Some(c.current), c.nodeStack + [c.parent])
  }

  /** Every node the cursor names is an element of the tree, whose root is `root`. */
  ghost predicate InDoc(d: Doc, c: Cursor)
  {
    WellFormed(d) && d[Root].tag == "root" && c.current < |d| &&
    (c.parent.Some? ==> c.parent.value < |d|) &&
    forall j :: 0 <= j < |c.nodeStack| && c.nodeStack[j].Some? ==> c.nodeStack[j].value < |d|
  }

  /** Only the outermost entry of the chain may be None, and the next one is the root or a
      top-level node: the chain is either `[None, root, ...]` or `[root, top-level, ...]`. */
  ghost predicate Anchored(d: Doc, c: Cursor)
  {
    var ch := Chain(c);
    (forall j :: 1 <= j < |ch| ==> ch[j].Some? && ch[j].value < |d|) &&
    Stops(TopOrRoot, d[ch[1].value].tag)
  }

  datatype State = State(doc: Doc, cursor: Cursor)

  ghost predicate Sound(st: State)
  {
    InDoc(st.doc, st.cursor) && Anchored(st.doc, st.cursor)
  }

  function Init(): (st: State)
    ensures Sound(st)
  {
    State(NewDoc("root"), Cursor(Root, None, []))
  }

  lemma GrowKeepsInDoc(d: Doc, d2: Doc, c: Cursor)
    requires InDoc(d, c) && WellFormed(d2) && Extends(d, d2)
    ensures InDoc(d2, c)
    ensures |d2| == |d| + 1 ==> InDoc(d2, Descend(c, |d|))
  {
  }

  // ---------------------------------------------------------------------------
  // The loop body as a function of the state
  // ---------------------------------------------------------------------------

  /** An unwind loop: climb while `current` is not a stopping node. Climbing past the last
      entry raises IndexError from `pop`; climbing to a None parent raises AttributeError at
      the next `current.tag`. */
  function Unwind(d: Doc, c: Cursor, lv: Level): (r: Result<Cursor>)
    requires InDoc(d, c)
    ensures r.Ok? ==> InDoc(d, r.value) && Stops(lv, d[r.value.current].tag)
    decreases |c.nodeStack|
  {
    if Stops(lv, d[c.current].tag) then Ok(c)
    else if c.nodeStack == [] then Err(IndexError)
    else if c.parent.None? then Err(AttributeError)
    else Unwind(d, Pop(c), lv)
  }

  /** What a classified line does. */
  function Apply(s: State, k: LineKind): (r: Result<State>)
    requires InDoc(s.doc, s.cursor)
    ensures r.Ok? ==> InDoc(r.value.doc, r.value.cursor)
  {
    var d, c := s.doc, s.cursor;
    match k
    case Skip => Ok(s)
    case Blank => Ok(s)
    case TopGroup(name) =>
      SubElementExtends(d, Root, name);
      Ok(State(SubElement(d, Root, name), Cursor(|d|, Some(Root), [])))
    case IdPair(tag, data) =>
      (match Unwind(d, c, TopOrRoot)
       case Err(e) => Err(e)
       case Ok(u) =>
         AddAttribChildExtends(d, u.current, tag, "id", data);
         GrowKeepsInDoc(d, AddAttribChild(d, u.current, tag, "id", data), u);
         Ok(State(AddAttribChild(d, u.current, tag, "id", data), Descend(u, |d|))))
    case CoordPair(data) =>
      if d[c.current].tag == "Coordinate" then
        if c.parent.None? then Err(TypeError)
        else
          AddAttribChildExtends(d, c.parent.value, "Coordinate", "id", data);
          Ok(State(AddAttribChild(d, c.parent.value, "Coordinate", "id", data), c.(current := |d|)))
      else
        AddAttribChildExtends(d, c.current, "Coordinate", "id", data);
        GrowKeepsInDoc(d, AddAttribChild(d, c.current, "Coordinate", "id", data), c);
        Ok(State(AddAttribChild(d, c.current, "Coordinate", "id", data), Descend(c, |d|)))
    case ValuePair(tag, data) =>
      if tag !in CoordTags && d[c.current].tag == "Coordinate" then
        (match Unwind(d, c, SecondOrAbove)
         case Err(e) => Err(e)
         case Ok(u) =>
           AddTextChildExtends(d, u.current, tag, data);
           GrowKeepsInDoc(d, AddTextChild(d, u.current, tag, data), u);
           Ok(State(AddTextChild(d, u.current, tag, data), u)))
      else
        AddTextChildExtends(d, c.current, tag, data);
        GrowKeepsInDoc(d, AddTextChild(d, c.current, tag, data), c);
        Ok(State(AddTextChild(d, c.current, tag, data), c))
    case Group(name) =>
      match Unwind(d, c, SecondOrAbove)
      case Err(e) => Err(e)
      case Ok(u) =>
        SubElementExtends(d, u.current, name);
        GrowKeepsInDoc(d, SubElement(d, u.current, name), u);
        Ok(State(SubElement(d, u.current, name), Descend(u, |d|)))
  }

  /** One iteration of the `for line in metaf` loop. */
  function Step(st: State, line: string): (r: Result<State>)
    requires InDoc(st.doc, st.cursor)
    ensures r.Ok? ==> InDoc(r.value.doc, r.value.cursor)
  {
    Apply(st, Classify(line))
  }

  /** The loop over `lines`; an exception ends it. */
  function Run(st: State, lines: seq<string>): (r: Result<State>)
    requires InDoc(st.doc, st.cursor)
    ensures r.Ok? ==> InDoc(r.value.doc, r.value.cursor)
    decreases |lines|
  {
    if lines == [] then Ok(st)
    else match Run(st, lines[..|lines| - 1])
      case Err(e) => Err(e)
      case Ok(s) => Step(s, lines[|lines| - 1])
  }

  /** The tree `getIKMetadataAsXml` returns for a list of lines (an empty list gives the bare
      root, as the loop does). */
  function Parse(lines: seq<string>): (r: Result<Doc>)
    ensures r.Ok? ==> WellFormed(r.value) && r.value[Root].tag == "root"
  {
    match Run(Init(), lines)
    case Ok(s) => Ok(s.doc)
    case Err(e) => Err(e)
  }

  // ---------------------------------------------------------------------------
  // The parser as the source writes it
  // ---------------------------------------------------------------------------

  /** The `while current.tag not in ...` loops. */
  method UnwindTo(d: Doc, c: Cursor, lv: Level) returns (u: Cursor)
    requires InDoc(d, c) && Anchored(d, c)
    ensures Unwind(d, c, lv) == Ok(u) && Anchored(d, u)
  {
    var current, parent, nodeStack := c.current, c.parent, c.nodeStack;
    while !Stops(lv, d[current].tag)
      invariant InDoc(d, Cursor(current, parent, nodeStack)) && Anchored(d, Cursor(current, parent, nodeStack))
      invariant Unwind(d, Cursor(current, parent, nodeStack), lv) == Unwind(d, c, lv)
      decreases |nodeStack|
    {
      ghost var before := Cursor(current, parent, nodeStack);
      PopSafe(d, before, lv);
      current := parent.value;
      parent := nodeStack[|nodeStack| - 1];
      nodeStack := nodeStack[..|nodeStack| - 1];
      assert Cursor(current, parent, nodeStack) == Pop(before);
    }
    u := Cursor(current, parent, nodeStack);
  }

  /** The tag/value branch of the loop body. */
  method FeedPair(st: State, tag: string, data: string) returns (r: State)
    requires Sound(st)
    ensures Apply(st, PairKind(tag, data)) == Ok(r)
  {
    if tag in IdTags {
      r := FeedIdPair(st, tag, data);
    } else if tag == "Coordinate" {
      r := FeedCoordPair(st, data);
    } else {
      r := FeedValuePair(st, tag, data);
    }
  }

  /** An id pair: climb to a top-level node or the root, then descend into the new node. */
  method FeedIdPair(st: State, tag: string, data: string) returns (r: State)
    requires Sound(st) && tag in IdTags
    ensures Apply(st, IdPair(tag, data)) == Ok(r)
  {
    var doc := st.doc;
    var u := UnwindTo(doc, st.cursor, TopOrRoot);
    var current, parent, nodeStack := u.current, u.parent, u.nodeStack;
    var child := |doc|;
    doc := AddAttribChild(doc, current, tag, "id", data);
    nodeStack := nodeStack + [parent];
    parent := Some(current);
    current := child;
    r := State(doc, Cursor(current, parent, nodeStack));
  }

  /** A `Coordinate` pair: a sibling of the current coordinate, or a new child. */
  method FeedCoordPair(st: State, data: string) returns (r: State)
    requires Sound(st)
    ensures Apply(st, CoordPair(data)) == Ok(r)
  {
    var doc, current, parent, nodeStack := st.doc, st.cursor.current, st.cursor.parent, st.cursor.nodeStack;
    if doc[current].tag == "Coordinate" {
      CoordinateHasParent(doc, st.cursor);
      var child := |doc|;
      doc := AddAttribChild(doc, parent.value, "Coordinate", "id", data);
      current := child;
    } else {
      var child := |doc|;
      doc := AddAttribChild(doc, current, "Coordinate", "id", data);
      nodeStack := nodeStack + [parent];
      parent := Some(current);
      current := child;
    }
    r := State(doc, Cursor(current, parent, nodeStack));
  }

  /** Any other pair: leave a coordinate first unless the tag is a coordinate field, then
      add the value as a child. */
  method FeedValuePair(st: State, tag: string, data: string) returns (r: State)
    requires Sound(st) && tag !in IdTags && tag != "Coordinate"
    ensures Apply(st, ValuePair(tag, data)) == Ok(r)
  {
    var doc, c := st.doc, st.cursor;
    if tag !in CoordTags && doc[c.current].tag == "Coordinate" {
      c := UnwindTo(doc, c, SecondOrAbove);
    }
    doc := AddTextChild(doc, c.current, tag, data);
    r := State(doc, c);
  }

  /** The body of the loop for one line. */
  method FeedLine(st: State, line: string) returns (r: State)
    requires Sound(st)
    ensures Step(st, line) == Ok(r)
  {
    var doc, current, parent, nodeStack := st.doc, st.cursor.current, st.cursor.parent, st.cursor.nodeStack;
    var item := Strip(line);
    if item in Ignores {
      return st;
    }
    item := Underscored(item);
    if item in TopTags {
      var child := |doc|;
      doc := SubElement(doc, Root, item);
      nodeStack := [];
      parent := Some(Root);
      current := child;
    } else {
      var mat1 := PairFrom(line, 0);
      var mat2 := if mat1.None? then NameFrom(line, 0) else None;
      if mat1.Some? {
        var tag := Underscored(Strip(mat1.value.tag));
        var data := if mat1.value.data.Some? then Strip(mat1.value.data.value) else "";
        assert Classify(line) == PairKind(tag, data);
        var next := FeedPair(State(doc, Cursor(current, parent, nodeStack)), tag, data);
        doc, current, parent, nodeStack := next.doc, next.cursor.current, next.cursor.parent, next.cursor.nodeStack;
      } else if mat2.Some? {
        var tag := Strip(mat2.value);
        assert Classify(line) == Group(tag);
        var u := UnwindTo(doc, Cursor(current, parent, nodeStack), SecondOrAbove);
        current, parent, nodeStack := u.current, u.parent, u.nodeStack;
        var child := |doc|;
        doc := SubElement(doc, current, tag);
        nodeStack := nodeStack + [parent];
        parent := Some(current);
        current := child;
      } else {
        assert Classify(line) == Blank;
      }
    }
    r := State(doc, Cursor(current, parent, nodeStack));
  }

  /** The line loop of `getIKMetadataAsXml`, on the lines already read. The loop never raises. */
  method ParseIndentedTags(lines: seq<string>) returns (doc: Doc)
    ensures Parse(lines) == Ok(doc)
  {
    var st := Init();
    var i := 0;
    while i < |lines|
      invariant 0 <= i <= |lines|
      invariant Run(Init(), lines[..i]) == Ok(st) && Sound(st)
    {
      RunPrefix(Init(), lines, i);
      StepSafe(st, lines[i]);
      st := FeedLine(st, lines[i]);
      i := i + 1;
    }
    assert lines[..|lines|] == lines;
    doc := st.doc;
  }

  // ---------------------------------------------------------------------------
  // The unwind loops never fail
  // ---------------------------------------------------------------------------

  /** While `current` is not a stopping node, there is somewhere to climb to. */
  lemma PopSafe(d: Doc, c: Cursor, lv: Level)
    requires InDoc(d, c) && Anchored(d, c) && !Stops(lv, d[c.current].tag)
    ensures c.parent.Some? && c.nodeStack != []
    ensures InDoc(d, Pop(c)) && Anchored(d, Pop(c))
  {
    var ch := Chain(c);
    var ch2 := Chain(Pop(c));
    assert forall j :: 0 <= j < |ch2| ==> ch2[j] == ch[j];
  }

  /** A `Coordinate` is never the outermost named node, so it always has a parent. */
  lemma CoordinateHasParent(d: Doc, c: Cursor)
    requires InDoc(d, c) && Anchored(d, c) && d[c.current].tag == "Coordinate"
    ensures c.parent.Some? && c.nodeStack != []
  {
  }

  /** An unwind loop from an anchored cursor neither raises nor leaves the chain: it only
      drops entries from its inner end. */
  lemma {:induction false} UnwindSafe(d: Doc, c: Cursor, lv: Level)
    requires InDoc(d, c) && Anchored(d, c)
    ensures Unwind(d, c, lv).Ok?
    ensures Anchored(d, Unwind(d, c, lv).value) && Chain(Unwind(d, c, lv).value) <= Chain(c)
    decreases |c.nodeStack|
  {
    if !Stops(lv, d[c.current].tag) {
      PopSafe(d, c, lv);
      UnwindSafe(d, Pop(c), lv);
    }
  }

  /** ... and it stops at the nearest stopping node: every entry it drops is a node that
      does not stop it. */
  lemma {:induction false} UnwindNearest(d: Doc, c: Cursor, lv: Level)
    requires InDoc(d, c) && Anchored(d, c)
    ensures Unwind(d, c, lv).Ok?
    ensures var ch, chu := Chain(c), Chain(Unwind(d, c, lv).value);
      forall j :: |chu| <= j < |ch| ==> ch[j].Some? && ch[j].value < |d| && !Stops(lv, d[ch[j].value].tag)
    decreases |c.nodeStack|
  {
    UnwindSafe(d, c, lv);
    if !Stops(lv, d[c.current].tag) {
      PopSafe(d, c, lv);
      UnwindNearest(d, Pop(c), lv);
      var ch, chp, chu := Chain(c), Chain(Pop(c)), Chain(Unwind(d, c, lv).value);
      forall j | |chu| <= j < |ch|
        ensures ch[j].Some? && ch[j].value < |d| && !Stops(lv, d[ch[j].value].tag)
      {
        if j < |chp| {
          assert ch[j] == chp[j];
        }
      }
    }
  }

  /** Each classified line, applied to an anchored state, succeeds and keeps it anchored. */
  lemma ApplySafe(s: State, k: LineKind)
    requires Sound(s) && Classified(k)
    ensures Apply(s, k).Ok? && Sound(Apply(s, k).value)
  {
    match k
    case Skip =>
    case Blank =>
    case TopGroup(name) =>
      SubElementShape(s.doc, Root, name);
    case IdPair(tag, data) =>
      IdPairSafe(s, tag, data);
    case CoordPair(data) =>
      CoordPairSafe(s, data);
    case ValuePair(tag, data) =>
      ValuePairSafe(s, tag, data);
    case Group(name) =>
      GroupSafe(s, name);
  }

  lemma IdPairSafe(s: State, tag: string, data: string)
    requires Sound(s) && tag in IdTags
    ensures Apply(s, IdPair(tag, data)).Ok? && Sound(Apply(s, IdPair(tag, data)).value)
  {
    var d, c := s.doc, s.cursor;
    UnwindSafe(d, c, TopOrRoot);
    var u := Unwind(d, c, TopOrRoot).value;
    AddAttribChildExtends(d, u.current, tag, "id", data);
    DescendKeepsAnchored(d, AddAttribChild(d, u.current, tag, "id", data), u);
  }

  lemma CoordPairSafe(s: State, data: string)
    requires Sound(s)
    ensures Apply(s, CoordPair(data)).Ok? && Sound(Apply(s, CoordPair(data)).value)
  {
    var d, c := s.doc, s.cursor;
    if d[c.current].tag == "Coordinate" {
      CoordinateHasParent(d, c);
      AddAttribChildExtends(d, c.parent.value, "Coordinate", "id", data);
      SiblingKeepsAnchored(d, AddAttribChild(d, c.parent.value, "Coordinate", "id", data), c);
    } else {
      AddAttribChildExtends(d, c.current, "Coordinate", "id", data);
      DescendKeepsAnchored(d, AddAttribChild(d, c.current, "Coordinate", "id", data), c);
    }
  }

  lemma ValuePairSafe(s: State, tag: string, data: string)
    requires Sound(s)
    ensures Apply(s, ValuePair(tag, data)).Ok? && Sound(Apply(s, ValuePair(tag, data)).value)
  {
    var d, c := s.doc, s.cursor;
    if tag !in CoordTags && d[c.current].tag == "Coordinate" {
      UnwindSafe(d, c, SecondOrAbove);
      var u := Unwind(d, c, SecondOrAbove).value;
      AddTextChildExtends(d, u.current, tag, data);
      AnchoredGrows(d, AddTextChild(d, u.current, tag, data), u);
    } else {
      AddTextChildExtends(d, c.current, tag, data);
      AnchoredGrows(d, AddTextChild(d, c.current, tag, data), c);
    }
  }

  lemma GroupSafe(s: State, name: string)
    requires Sound(s)
    ensures Apply(s, Group(name)).Ok? && Sound(Apply(s, Group(name)).value)
  {
    var d, c := s.doc, s.cursor;
    UnwindSafe(d, c, SecondOrAbove);
    var u := Unwind(d, c, SecondOrAbove).value;
    SubElementExtends(d, u.current, name);
    DescendKeepsAnchored(d, SubElement(d, u.current, name), u);
  }


  lemma SiblingKeepsAnchored(d: Doc, d2: Doc, c: Cursor)
    requires Anchored(d, c) && Extends(d, d2) && |d2| == |d| + 1 && c.nodeStack != []
    ensures Anchored(d2, c.(current := |d|))
  {
    var ch, ch2 := Chain(c), Chain(c.(current := |d|));
    assert forall j :: 0 <= j < |ch2| - 1 ==> ch2[j] == ch[j];
  }

  lemma AnchoredGrows(d: Doc, d2: Doc, c: Cursor)
    requires Anchored(d, c) && Extends(d, d2)
    ensures Anchored(d2, c)
  {
  }

  lemma DescendKeepsAnchored(d: Doc, d2: Doc, c: Cursor)
    requires Anchored(d, c) && Extends(d, d2) && |d2| == |d| + 1
    ensures Anchored(d2, Descend(c, |d|))
  {
    var ch, ch2 := Chain(c), Chain(Descend(c, |d|));
    assert forall j :: 0 <= j < |ch| ==> ch2[j] == ch[j];
  }

  lemma StepSafe(st: State, line: string)
    requires Sound(st)
    ensures Step(st, line).Ok? && Sound(Step(st, line).value)
  {
    ApplySafe(st, Classify(line));
  }

  lemma {:induction false} RunSafe(st: State, lines: seq<string>)
    requires Sound(st)
    ensures Run(st, lines).Ok? && Sound(Run(st, lines).value)
    decreases |lines|
  {
    if lines != [] {
      RunSafe(st, lines[..|lines| - 1]);
      StepSafe(Run(st, lines[..|lines| - 1]).value, lines[|lines| - 1]);
    }
  }

  /** No input makes the parser raise: no unwind loop pops an empty `node_stack` or climbs
      to a None `parent`, and no `Coordinate` sibling is hung on a None `parent`. */
  lemma NeverRaises(lines: seq<string>)
    ensures Parse(lines).Ok?
  {
    RunSafe(Init(), lines);
  }

  // ---------------------------------------------------------------------------
  // node_stack and parent record the ancestors of current
  // ---------------------------------------------------------------------------

  /** Entry `j + 1` of the chain is a child of entry `j` (unless entry `j` is the None
      pushed below the root). */
  ghost predicate LinkAt(d: Doc, ch: seq<Option<nat>>, j: nat)
    requires j + 1 < |ch|
  {
    ch[j].Some? ==> ch[j].value < |d| && ch[j + 1].Some? && ch[j + 1].value in d[ch[j].value].children
  }

  ghost predicate Linked(d: Doc, c: Cursor)
  {
    var ch := Chain(c);
    forall j: nat :: j + 1 < |ch| ==> LinkAt(d, ch, j)
  }

  lemma ExtendsKeepsLinked(d: Doc, d2: Doc, c: Cursor)
    requires Linked(d, c) && Extends(d, d2)
    ensures Linked(d2, c)
  {
    var ch := Chain(c);
    forall j: nat | j + 1 < |ch|
      ensures LinkAt(d2, ch, j)
    {
      assert LinkAt(d, ch, j);
      if ch[j].Some? {
        var xs, ys := d[ch[j].value].children, d2[ch[j].value].children;
        assert ys == xs + ys[|xs|..];
      }
    }
  }

  lemma PrefixKeepsLinked(d: Doc, c: Cursor, u: Cursor)
    requires Linked(d, c) && Chain(u) <= Chain(c)
    ensures Linked(d, u)
  {
    var ch, chu := Chain(c), Chain(u);
    forall j: nat | j + 1 < |chu|
      ensures LinkAt(d, chu, j)
    {
      assert LinkAt(d, ch, j);
      assert chu[j] == ch[j] && chu[j + 1] == ch[j + 1];
    }
  }

  /** Descending into a new child of `current` keeps the chain linked. */
  lemma ChildKeepsLinked(d: Doc, d2: Doc, c: Cursor)
    requires Linked(d, c) && Extends(d, d2) && c.current < |d| && |d| in d2[c.current].children
    ensures Linked(d2, Descend(c, |d|))
  {
    ExtendsKeepsLinked(d, d2, c);
    var ch, ch2 := Chain(c), Chain(Descend(c, |d|));
    forall j: nat | j + 1 < |ch2|
      ensures LinkAt(d2, ch2, j)
    {
      if j + 1 < |ch| {
        assert LinkAt(d2, ch, j);
        assert ch2[j] == ch[j] && ch2[j + 1] == ch[j + 1];
      }
    }
  }

  /** Replacing `current` by a new child of `parent` keeps the chain linked. */
  lemma SiblingKeepsLinked(d: Doc, d2: Doc, c: Cursor)
    requires Linked(d, c) && Extends(d, d2) && c.parent.Some? && c.parent.value < |d|
    requires |d| in d2[c.parent.value].children
    ensures Linked(d2, c.(current := |d|))
  {
    ExtendsKeepsLinked(d, d2, c);
    var ch, ch2 := Chain(c), Chain(c.(current := |d|));
    forall j: nat | j + 1 < |ch2|
      ensures LinkAt(d2, ch2, j)
    {
      if j + 2 < |ch2| {
        assert LinkAt(d2, ch, j);
        assert ch2[j] == ch[j] && ch2[j + 1] == ch[j + 1];
      }
    }
  }

  /** Climbing and then descending into a new child of the node reached keeps the chain
      linked. */
  lemma UnwindDescendLinked(d: Doc, c: Cursor, lv: Level, d2: Doc)
    requires Sound(State(d, c)) && Linked(d, c)
    requires Unwind(d, c, lv).Ok? && Extends(d, d2) && |d| in d2[Unwind(d, c, lv).value.current].children
    ensures Linked(d2, Descend(Unwind(d, c, lv).value, |d|))
  {
    UnwindSafe(d, c, lv);
    var u := Unwind(d, c, lv).value;
    PrefixKeepsLinked(d, c, u);
    ChildKeepsLinked(d, d2, u);
  }

  lemma CoordKeepsLinked(s: State, data: string)
    requires Sound(s) && Linked(s.doc, s.cursor)
    ensures Apply(s, CoordPair(data)).Ok? &&
      Linked(Apply(s, CoordPair(data)).value.doc, Apply(s, CoordPair(data)).value.cursor)
  {
    ApplySafe(s, CoordPair(data));
    var d, c := s.doc, s.cursor;
    if d[c.current].tag == "Coordinate" {
      CoordinateHasParent(d, c);
      var p := c.parent.value;
      var d2 := AddAttribChild(d, p, "Coordinate", "id", data);
      AddAttribChildShape(d, p, "Coordinate", "id", data);
      AddAttribChildExtends(d, p, "Coordinate", "id", data);
      assert |d| in d2[p].children;
      SiblingKeepsLinked(d, d2, c);
    } else {
      var d2 := AddAttribChild(d, c.current, "Coordinate", "id", data);
      AddAttribChildShape(d, c.current, "Coordinate", "id", data);
      AddAttribChildExtends(d, c.current, "Coordinate", "id", data);
      assert |d| in d2[c.current].children;
      ChildKeepsLinked(d, d2, c);
    }
  }

  lemma ApplyKeepsLinked(s: State, k: LineKind)
    requires Sound(s) && Classified(k) && Linked(s.doc, s.cursor)
    ensures Apply(s, k).Ok? && Linked(Apply(s, k).value.doc, Apply(s, k).value.cursor)
  {
    ApplySafe(s, k);
    var d, c := s.doc, s.cursor;
    match k
    case Skip =>
    case Blank =>
    case TopGroup(name) =>
      SubElementShape(d, Root, name);
      var d2 := SubElement(d, Root, name);
      assert |d| in d2[Root].children;
      assert LinkAt(d2, Chain(Cursor(|d|, Some(Root), [])), 0);
    case IdPair(tag, data) =>
      UnwindSafe(d, c, TopOrRoot);
      var u := Unwind(d, c, TopOrRoot).value;
      AddAttribChildShape(d, u.current, tag, "id", data);
      AddAttribChildExtends(d, u.current, tag, "id", data);
      assert |d| in AddAttribChild(d, u.current, tag, "id", data)[u.current].children;
      UnwindDescendLinked(d, c, TopOrRoot, AddAttribChild(d, u.current, tag, "id", data));
    case CoordPair(data) =>
      CoordKeepsLinked(s, data);
    case ValuePair(tag, data) =>
      if tag !in CoordTags && d[c.current].tag == "Coordinate" {
        UnwindSafe(d, c, SecondOrAbove);
        var u := Unwind(d, c, SecondOrAbove).value;
        PrefixKeepsLinked(d, c, u);
        AddTextChildExtends(d, u.current, tag, data);
        ExtendsKeepsLinked(d, AddTextChild(d, u.current, tag, data), u);
      } else {
        AddTextChildExtends(d, c.current, tag, data);
        ExtendsKeepsLinked(d, AddTextChild(d, c.current, tag, data), c);
      }
    case Group(name) =>
      UnwindSafe(d, c, SecondOrAbove);
      var u := Unwind(d, c, SecondOrAbove).value;
      SubElementShape(d, u.current, name);
      SubElementExtends(d, u.current, name);
      assert |d| in SubElement(d, u.current, name)[u.current].children;
      UnwindDescendLinked(d, c, SecondOrAbove, SubElement(d, u.current, name));
  }

  lemma {:induction false} RunKeepsLinked(st: State, lines: seq<string>)
    requires Sound(st) && Linked(st.doc, st.cursor)
    ensures Run(st, lines).Ok? && Linked(Run(st, lines).value.doc, Run(st, lines).value.cursor)
    decreases |lines|
  {
    if lines != [] {
      var init, last := lines[..|lines| - 1], lines[|lines| - 1];
      RunKeepsLinked(st, init);
      var s := Run(st, init).value;
      assert Run(st, lines) == Step(s, last);
      RunSafe(st, init);
      ApplyKeepsLinked(s, Classify(last));
    }
  }

  /** After any prefix of the input, each entry of `node_stack + [parent, current]` below
      the optional None is the parent element of the next: the unwind loops climb real
      ancestors. */
  lemma AncestorsRecorded(lines: seq<string>)
    ensures Run(Init(), lines).Ok?
    ensures var r := Run(Init(), lines).value; Linked(r.doc, r.cursor)
  {
    var ch := Chain(Init().cursor);
    assert LinkAt(Init().doc, ch, 0);
    RunKeepsLinked(Init(), lines);
  }

  // ---------------------------------------------------------------------------
  // Second-level nodes always carry their id
  // ---------------------------------------------------------------------------

  /** Every `Source_Image_ID` and `Component_ID` element carries an `id` attribute. */
  ghost predicate IdsCarried(d: Doc)
  {
    forall i :: 0 <= i < |d| && d[i].tag in IdTags ==> "id" in d[i].attrib
  }

  /** What `ikpat2` captures is made of name characters only. */
  lemma {:induction false} NameFromChars(line: string, s: nat)
    requires NameFrom(line, s).Some?
    ensures forall i :: 0 <= i < |NameFrom(line, s).value| ==> IsNameChar(NameFrom(line, s).value[i])
    decreases |line| - s
  {
    if !IsNameChar(line[s]) {
      NameFromChars(line, s + 1);
    } else {
      var t := NameFrom(line, s).value;
      assert forall i :: 0 <= i < |t| ==> t[i] == line[s + i];
    }
  }

  /** A group name holds no underscore, so it never names a second-level block. */
  lemma GroupNameNotId(line: string)
    requires Classify(line).Group?
    ensures Classify(line).name !in IdTags
  {
    GroupName(line);
    var t := NameFrom(line, 0).value;
    var name := Strip(t);
    NameFromChars(line, 0);
    forall i | 0 <= i < |name|
      ensures name[i] != '_'
    {
      StripWithin(t, i);
    }
    NoUnderscoreNotId(name);
  }

  /** Both second-level tags contain an underscore. */
  lemma NoUnderscoreNotId(name: string)
    requires forall i :: 0 <= i < |name| ==> name[i] != '_'
    ensures name !in IdTags
  {
    assert "Source_Image_ID"[6] == '_' && "Component_ID"[9] == '_';
  }

  /** A group name is the stripped capture of `ikpat2`. */
  lemma GroupName(line: string)
    requires Classify(line).Group?
    ensures NameFrom(line, 0).Some? && Classify(line).name == Strip(NameFrom(line, 0).value)
  {
    assert Classify(line) == MatchLine(line);
  }

  /** Adding one element keeps every second-level element's `id`, provided the new element
      has one when it is second-level. */
  lemma AddKeepsIds(d: Doc, d2: Doc)
    requires IdsCarried(d) && |d2| == |d| + 1
    requires forall i :: 0 <= i < |d| ==> d2[i].tag == d[i].tag && d2[i].attrib == d[i].attrib
    requires d2[|d|].tag in IdTags ==> "id" in d2[|d|].attrib
    ensures IdsCarried(d2)
  {
  }

  lemma SubElementKeepsIds(d: Doc, p: nat, name: string)
    requires WellFormed(d) && p < |d| && IdsCarried(d) && name !in IdTags
    ensures IdsCarried(SubElement(d, p, name))
  {
    SubElementShape(d, p, name);
    AddKeepsIds(d, SubElement(d, p, name));
  }

  lemma AddIdChildKeepsIds(d: Doc, p: nat, tag: string, data: string)
    requires WellFormed(d) && p < |d| && IdsCarried(d)
    ensures IdsCarried(AddAttribChild(d, p, tag, "id", data))
  {
    AddAttribChildShape(d, p, tag, "id", data);
    AddKeepsIds(d, AddAttribChild(d, p, tag, "id", data));
  }

  lemma AddTextChildKeepsIds(d: Doc, p: nat, tag: string, data: string)
    requires WellFormed(d) && p < |d| && IdsCarried(d) && tag !in IdTags
    ensures IdsCarried(AddTextChild(d, p, tag, data))
  {
    AddTextChildShape(d, p, tag, data);
    AddKeepsIds(d, AddTextChild(d, p, tag, data));
  }

  lemma ApplyKeepsIds(s: State, k: LineKind)
    requires InDoc(s.doc, s.cursor) && IdsCarried(s.doc) && Classified(k)
    requires k.Group? ==> k.name !in IdTags
    requires Apply(s, k).Ok?
    ensures IdsCarried(Apply(s, k).value.doc)
  {
    var d, c := s.doc, s.cursor;
    match k
    case Skip =>
    case Blank =>
    case TopGroup(name) =>
      SubElementKeepsIds(d, Root, name);
    case IdPair(tag, data) =>
      AddIdChildKeepsIds(d, Unwind(d, c, TopOrRoot).value.current, tag, data);
    case CoordPair(data) =>
      var p := if d[c.current].tag == "Coordinate" then c.parent.value else c.current;
      AddIdChildKeepsIds(d, p, "Coordinate", data);
    case ValuePair(tag, data) =>
      if tag !in CoordTags && d[c.current].tag == "Coordinate" {
        AddTextChildKeepsIds(d, Unwind(d, c, SecondOrAbove).value.current, tag, data);
      } else {
        AddTextChildKeepsIds(d, c.current, tag, data);
      }
    case Group(name) =>
      SubElementKeepsIds(d, Unwind(d, c, SecondOrAbove).value.current, name);
  }

  lemma {:induction false} RunKeepsIds(st: State, lines: seq<string>)
    requires InDoc(st.doc, st.cursor) && IdsCarried(st.doc) && Run(st, lines).Ok?
    ensures IdsCarried(Run(st, lines).value.doc)
    decreases |lines|
  {
    if lines != [] {
      var init, last := lines[..|lines| - 1], lines[|lines| - 1];
      RunKeepsIds(st, init);
      var s := Run(st, init).value;
      assert Run(st, lines) == Step(s, last);
      if Classify(last).Group? {
        GroupNameNotId(last);
      }
      ApplyKeepsIds(s, Classify(last));
    }
  }

  /** In every tree the parser builds, each `Source_Image_ID` and `Component_ID` element has
      an `id` attribute: only an `ID: value` pair creates such an element. */
  lemma ParsedIdsCarried(lines: seq<string>)
    ensures Parse(lines).Ok? && IdsCarried(Parse(lines).value)
  {
    NeverRaises(lines);
    RunKeepsIds(Init(), lines);
  }

  // ---------------------------------------------------------------------------
  // What each kind of line does
  // ---------------------------------------------------------------------------

  /** A top-level name becomes a new child of the root, and the cursor is reset to it with
      the root as `parent` and an empty `node_stack`, wherever it was before. */
  lemma TopLine(st: State, line: string)
    requires InDoc(st.doc, st.cursor)
    requires Strip(line) !in Ignores && Underscored(Strip(line)) in TopTags
    ensures var r := Step(st, line); var d := st.doc;
      r.Ok? && r.value.cursor == Cursor(|d|, Some(Root), []) &&
      |r.value.doc| == |d| + 1 &&
      r.value.doc[|d|] == Element(Underscored(Strip(line)), map[], None, []) &&
      r.value.doc[Root].children == d[Root].children + [|d|]
  {
    SubElementShape(st.doc, Root, Underscored(Strip(line)));
  }

  /** A `Source_Image_ID` or `Component_ID` pair becomes a new element carrying the value
      only as its `id` attribute, hung under the nearest top-level node or root on the
      chain; the cursor descends into it. */
  lemma IdLine(st: State, line: string, tag: string, data: string)
    requires Sound(st) && Classify(line) == IdPair(tag, data)
    ensures var r := Step(st, line); var d := st.doc;
      r.Ok? && |r.value.doc| == |d| + 1 && r.value.doc[|d|] == Element(tag, map["id" := data], None, []) &&
      var ch, ch2 := Chain(st.cursor), Chain(r.value.cursor);
      r.value.cursor.current == |d| && r.value.cursor.parent.Some? &&
      var p := r.value.cursor.parent.value;
      p < |d| && r.value.doc[p].children == d[p].children + [|d|] && Stops(TopOrRoot, d[p].tag) &&
      ch2[..|ch2| - 1] <= ch &&
      forall j :: |ch2| - 1 <= j < |ch| ==> ch[j].Some? && ch[j].value < |d| && !Stops(TopOrRoot, d[ch[j].value].tag)
  {
    var d, c := st.doc, st.cursor;
    UnwindSafe(d, c, TopOrRoot);
    UnwindNearest(d, c, TopOrRoot);
    var u := Unwind(d, c, TopOrRoot).value;
    AddAttribChildShape(d, u.current, tag, "id", data);
  }

  /** A `Coordinate` pair right after another Coordinate becomes its sibling and replaces it
      as `current`; otherwise it becomes a child of `current` and the cursor descends. The
      value is only the `id` attribute. */
  lemma CoordinateLine(st: State, line: string, data: string)
    requires Sound(st) && Classify(line) == CoordPair(data)
    ensures var r := Step(st, line); var d, c := st.doc, st.cursor;
      r.Ok? && |r.value.doc| == |d| + 1 && r.value.doc[|d|] == Element("Coordinate", map["id" := data], None, []) &&
      if d[c.current].tag == "Coordinate" then
        c.parent.Some? && r.value.cursor == c.(current := |d|) &&
        r.value.doc[c.parent.value].children == d[c.parent.value].children + [|d|]
      else
        r.value.cursor == Descend(c, |d|) && r.value.doc[c.current].children == d[c.current].children + [|d|]
  {
    var d, c := st.doc, st.cursor;
    if d[c.current].tag == "Coordinate" {
      CoordinateHasParent(d, c);
      AddAttribChildShape(d, c.parent.value, "Coordinate", "id", data);
    } else {
      AddAttribChildShape(d, c.current, "Coordinate", "id", data);
    }
  }

  /** Any other pair adds exactly one element, whose text is the value, as the last child
      of `current`. Only a non-coordinate tag inside a Coordinate block moves the cursor
      first, up to the nearest second-level node, top-level node or root. */
  lemma ValueLine(st: State, line: string, tag: string, data: string)
    requires Sound(st) && Classify(line) == ValuePair(tag, data)
    ensures var r := Step(st, line); var d, c := st.doc, st.cursor;
      r.Ok? && |r.value.doc| == |d| + 1 && r.value.doc[|d|] == Element(tag, map[], Some(data), []) &&
      var u := r.value.cursor;
      u.current < |d| && r.value.doc[u.current].children == d[u.current].children + [|d|] &&
      (tag in CoordTags || d[c.current].tag != "Coordinate" ==> u == c) &&
      (tag !in CoordTags && d[c.current].tag == "Coordinate" ==>
        Chain(u) <= Chain(c) && Stops(SecondOrAbove, d[u.current].tag) &&
        forall j :: |Chain(u)| <= j < |Chain(c)| ==>
          Chain(c)[j].Some? && Chain(c)[j].value < |d| && !Stops(SecondOrAbove, d[Chain(c)[j].value].tag))
  {
    var d, c := st.doc, st.cursor;
    if tag !in CoordTags && d[c.current].tag == "Coordinate" {
      UnwindSafe(d, c, SecondOrAbove);
      UnwindNearest(d, c, SecondOrAbove);
      AddTextChildShape(d, Unwind(d, c, SecondOrAbove).value.current, tag, data);
    } else {
      AddTextChildShape(d, c.current, tag, data);
    }
  }

  /** A bare group name becomes a new element under the nearest second-level node,
      top-level node or root on the chain, and the cursor descends into it. */
  lemma GroupLine(st: State, line: string, name: string)
    requires Sound(st) && Classify(line) == Group(name)
    ensures var r := Step(st, line); var d := st.doc;
      r.Ok? && |r.value.doc| == |d| + 1 && r.value.doc[|d|] == Element(name, map[], None, []) &&
      var ch, ch2 := Chain(st.cursor), Chain(r.value.cursor);
      r.value.cursor.current == |d| && r.value.cursor.parent.Some? &&
      var p := r.value.cursor.parent.value;
      p < |d| && r.value.doc[p].children == d[p].children + [|d|] && Stops(SecondOrAbove, d[p].tag) &&
      ch2[..|ch2| - 1] <= ch &&
      forall j :: |ch2| - 1 <= j < |ch| ==> ch[j].Some? && ch[j].value < |d| && !Stops(SecondOrAbove, d[ch[j].value].tag)
  {
    var d, c := st.doc, st.cursor;
    UnwindSafe(d, c, SecondOrAbove);
    UnwindNearest(d, c, SecondOrAbove);
    SubElementShape(d, Unwind(d, c, SecondOrAbove).value.current, name);
  }

  // ---------------------------------------------------------------------------
  // The patterns
  // ---------------------------------------------------------------------------

  lemma {:induction false} SepFinds(line: string, i: nat, k: nat)
    requires i <= k && k + 1 < |line| && line[k] == ':' && line[k + 1] == ' '
    requires forall m :: i <= m < k ==> line[m] != '\n' && !(line[m] == ':' && line[m + 1] == ' ')
    ensures SepFrom(line, i) == Some(k)
    decreases k - i
  {
    if i < k {
      SepFinds(line, i + 1, k);
    }
  }

  lemma {:induction false} LineEndAtEnd(line: string, k: nat)
    requires k <= |line| && forall m :: k <= m < |line| ==> line[m] != '\n'
    ensures LineEnd(line, k) == |line|
    decreases |line| - k
  {
    if k < |line| {
      LineEndAtEnd(line, k + 1);
    }
  }

  /** On a line without newline, `ikpat1` splits at the first `": "` after the first
      character: the tag is everything before it and the data everything after. */
  lemma PairAtFirstSep(line: string, k: nat)
    requires forall m :: 0 <= m < |line| ==> line[m] != '\n'
    requires 1 <= k && k + 1 < |line| && line[k] == ':' && line[k + 1] == ' '
    requires forall m :: 1 <= m < k ==> !(line[m] == ':' && line[m + 1] == ' ')
    ensures PairFrom(line, 0) == Some(PairMatch(line[..k], if k + 2 < |line| then Some(line[k + 2..]) else None))
  {
    SepFinds(line, 1, k);
    LineEndAtEnd(line, k + 2);
    assert line[0] != '\n';
    assert line[0..k] == line[..k];
    assert line[k + 2..|line|] == line[k + 2..];
  }

  lemma {:induction false} NoSepFrom(line: string, k: nat)
    requires k <= |line|
    requires forall m :: k <= m && m + 1 < |line| ==> !(line[m] == ':' && line[m + 1] == ' ')
    ensures SepFrom(line, k) == None
    decreases |line| - k
  {
    if k + 2 <= |line| {
      NoSepFrom(line, k + 1);
    }
  }

  /** Without a `": "` after the first character, `ikpat1` finds nothing. */
  lemma {:induction false} NoPair(line: string, s: nat)
    requires forall m :: 1 <= m && m + 1 < |line| ==> !(line[m] == ':' && line[m + 1] == ' ')
    ensures PairFrom(line, s) == None
    decreases |line| - s
  {
    if s < |line| {
      NoSepFrom(line, s + 1);
      NoPair(line, s + 1);
    }
  }

  lemma {:induction false} NoNameFrom(line: string, s: nat)
    requires forall m :: 0 <= m < |line| ==> !IsNameChar(line[m])
    ensures NameFrom(line, s) == None
    decreases |line| - s
  {
    if s < |line| {
      NoNameFrom(line, s + 1);
    }
  }

  /** A line of spaces matches `ikpat2` with an empty name, so it opens an unnamed group. */
  lemma SpacesOpenEmptyGroup(line: string)
    requires |line| > 0 && forall m :: 0 <= m < |line| ==> line[m] == ' '
    ensures Classify(line) == Group("")
  {
    StripAllSpace(line);
    assert "" !in Ignores;
    NoPair(line, 0);
    var run := line[0..NameEnd(line, 0)];
    StripAllSpace(run);
  }

  /** A line with no letter, space or parenthesis matches neither pattern. */
  lemma NoNameCharsBlank(line: string)
    requires Strip(line) !in Ignores && forall m :: 0 <= m < |line| ==> !IsNameChar(line[m])
    ensures Classify(line) == Blank
  {
    NoTopName(line);
    NoPair(line, 0);
    NoNameFrom(line, 0);
  }

  lemma NoTopName(line: string)
    requires forall m :: 0 <= m < |line| ==> !IsNameChar(line[m])
    ensures Underscored(Strip(line)) !in TopTags
  {
    var item := Strip(line);
    if item != [] {
      StripFirst(line);
      assert !IsNameChar(Underscored(item)[0]);
    }
  }

  /** Lines on the ignore list, and lines with no letter, space or parenthesis, add no node
      and leave the cursor where it was. */
  lemma NoNodeLines(st: State, line: string)
    requires InDoc(st.doc, st.cursor)
    requires Strip(line) in Ignores || forall m :: 0 <= m < |line| ==> !IsNameChar(line[m])
    ensures Step(st, line) == Ok(st)
  {
    if Strip(line) !in Ignores {
      NoNameCharsBlank(line);
    }
  }

  lemma RunPrefix(st: State, lines: seq<string>, i: nat)
    requires InDoc(st.doc, st.cursor) && i < |lines|
    ensures Run(st, lines[..i + 1]) ==
      match Run(st, lines[..i])
      case Err(e) => Err(e)
      case Ok(s) => Step(s, lines[i])
  {
    assert lines[..i + 1][..i] == lines[..i];
  }
}
