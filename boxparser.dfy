/**
 * The box parser: the text of `panoptic_txt_weights/<stripped>_gtFine_instanceIds.txt`
 * (whitespace-separated int32 values, seven per box:
 * instance id, class, four raw coordinates, weight) turned into the example's
 * boxes, classes and weights.
 */
module BoxParser {
  import opened Outcomes
  import opened Text
  import opened Resolver

  /** A box after the box utilities' format conversion and normalisation: four coordinates in their order. */
  datatype Box = Box(c0: real, c1: real, c2: real, c3: real)

  /**
   * The routines of the box utilities module that the pipeline calls:
   * `convert_input_box_format` on one raw 4-value box, `normalize_boxes` given
   * the original image height and width, and `flip_normalized_boxes_left_right`.
   */
  datatype BoxUtils = BoxUtils(
    convert: seq<int> -> seq<int>,
    normalize: (seq<int>, nat, nat) -> Box,
    flip: Box -> Box)

  /** The parsed annotations of one example, one entry per box in file order. */
  datatype Annotations = Annotations(boxes: seq<Box>, classes: seq<int>, weights: seq<int>)

  /** The columns of the 7-wide table that the pipeline keeps. */
  datatype Table = Table(classes: seq<int>, boxesOrig: seq<seq<int>>, weights: seq<int>)

  const Width: nat := 7
  const Newline: set<char> := {'\n'}
  const Space: set<char> := {' '}

  /** Lines 91-92: the text split at newlines, then every line split at spaces. */
  function Tokenize(text: string): (tokens: seq<string>)
    ensures forall i :: 0 <= i < |tokens| ==> tokens[i] != [] && Free(tokens[i], Newline + Space)
    ensures Flatten(tokens) == Without(text, Newline + Space)
  {
    SplitTwice(text, Newline, Space);
    SplitKeepsContent(text, Newline + Space);
    SplitAll(Split(text, Newline), Space)
  }

  /**
   * Line 93's `string_to_number`: every token read as int32, in order; the
   * first token that is not an int32 literal fails the file.
   */
  function ParseInts(tokens: seq<string>): (r: Result<seq<int>>)
    ensures r.Ok? <==> forall i :: 0 <= i < |tokens| ==> ParseInt32(tokens[i]).Some?
    ensures r.Ok? ==> |r.value| == |tokens|
    ensures r.Ok? ==> forall i :: 0 <= i < |tokens| ==> ParseInt32(tokens[i]) == Some(r.value[i])
    ensures r.Err? ==> r.error.BadToken? && r.error.token in tokens && ParseInt32(r.error.token).None?
  {
    if tokens == [] then Ok([])
    else match ParseInt32(tokens[0])
      case None => Err(BadToken(tokens[0]))
      case Some(v) =>
        var rest :- ParseInts(tokens[1..]);
        assert forall i :: 1 <= i < |tokens| ==> tokens[i] == tokens[1..][i - 1];
        Ok([v] + rest)
  }

  /** Consecutive runs of seven values (the reshape needs the length to be a multiple of seven). */
  function Chunk(ints: seq<int>): (rows: seq<seq<int>>)
    requires |ints| % Width == 0
    ensures |rows| == |ints| / Width
    ensures forall i :: 0 <= i < |rows| ==> |rows[i]| == Width
    ensures Flatten(rows) == ints
    decreases |ints|
  {
    if ints == [] then [] else [ints[..Width]] + Chunk(ints[Width..])
  }

  /** Line 93's `reshape(..., [-1, 7])`, failing unless the value count is a multiple of seven. */
  function Rows(ints: seq<int>): (r: Result<seq<seq<int>>>)
    ensures r.Ok? <==> |ints| % Width == 0
    ensures r.Ok? ==> |r.value| == |ints| / Width && Flatten(r.value) == ints
    ensures r.Ok? ==> forall i :: 0 <= i < |r.value| ==> |r.value[i]| == Width
    ensures r.Err? ==> r.error == RaggedBoxTable(|ints|)
  {
    if |ints| % Width != 0 then Err(RaggedBoxTable(|ints|)) else Ok(Chunk(ints))
  }

  predicate IsTable(rows: seq<seq<int>>) {
    forall i :: 0 <= i < |rows| ==> |rows[i]| == Width
  }

  /** Lines 95-101: class is column 1, the raw box columns 2 to 5, the weight column 6; column 0 is dropped. */
  function Columns(rows: seq<seq<int>>): (t: Table)
    requires IsTable(rows)
    ensures |t.classes| == |t.boxesOrig| == |t.weights| == |rows|
    ensures forall i :: 0 <= i < |rows| ==>
      t.classes[i] == rows[i][1] && t.boxesOrig[i] == rows[i][2..6] && t.weights[i] == rows[i][6]
  {
    Table(seq(|rows|, i requires 0 <= i < |rows| => rows[i][1]),
          seq(|rows|, i requires 0 <= i < |rows| => rows[i][2..6]),
          seq(|rows|, i requires 0 <= i < |rows| => rows[i][6]))
  }

  /** Lines 91-101 on the contents of a box file. */
  function ParseBoxText(text: string): (r: Result<Table>)
    ensures r.Ok? <==>
      (forall i :: 0 <= i < |Tokenize(text)| ==> ParseInt32(Tokenize(text)[i]).Some?) &&
      |Tokenize(text)| % Width == 0
    ensures r.Ok? ==> |r.value.classes| == |Tokenize(text)| / Width
    ensures r.Ok? ==> |r.value.boxesOrig| == |r.value.classes| && |r.value.weights| == |r.value.classes|
  {
    var ints :- ParseInts(Tokenize(text));
    var rows :- Rows(ints);
    Ok(Columns(rows))
  }

  /**
   * `_parse_and_store_boxes` (lines 83-103): the box file of the stripped
   * identifier read from `texts`, parsed, and every raw box converted and
   * normalised by the ORIGINAL image height and width.
   */
  function ParseAndStoreBoxes(filename: string, dir: string, origHeight: nat, origWidth: nat,
                              texts: map<string, string>, utils: BoxUtils): (r: Result<Annotations>)
    ensures StripIdentifier(filename).Err? ==> r == Err(StripIdentifier(filename).error)
    ensures StripIdentifier(filename).Ok? && BoxFilePath(dir, StripIdentifier(filename).value) !in texts ==>
      r == Err(FileNotFound(BoxFilePath(dir, StripIdentifier(filename).value)))
    ensures (StripIdentifier(filename).Ok? && BoxFilePath(dir, StripIdentifier(filename).value) in texts &&
             ParseBoxText(texts[BoxFilePath(dir, StripIdentifier(filename).value)]).Err?) ==>
      r == Err(ParseBoxText(texts[BoxFilePath(dir, StripIdentifier(filename).value)]).error)
    ensures r.Ok? <==>
      && StripIdentifier(filename).Ok?
      && BoxFilePath(dir, StripIdentifier(filename).value) in texts
      && ParseBoxText(texts[BoxFilePath(dir, StripIdentifier(filename).value)]).Ok?
    ensures r.Ok? ==>
      var t := ParseBoxText(texts[BoxFilePath(dir, StripIdentifier(filename).value)]).value;
      && r.value.classes == t.classes && r.value.weights == t.weights
      && |r.value.boxes| == |t.boxesOrig|
      && forall i :: 0 <= i < |t.boxesOrig| ==>
           r.value.boxes[i] == utils.normalize(utils.convert(t.boxesOrig[i]), origHeight, origWidth)
  {
    var stripped :- StripIdentifier(filename);
    var path := BoxFilePath(dir, stripped);
    if path !in texts then Err(FileNotFound(path))
    else
      var t :- ParseBoxText(texts[path]);
      var boxes := seq(|t.boxesOrig|, i requires 0 <= i < |t.boxesOrig| =>
                       utils.normalize(utils.convert(t.boxesOrig[i]), origHeight, origWidth));
      Ok(Annotations(boxes, t.classes, t.weights))
  }

  // ---------------------------------------------------------------------------
  // Tokenisation

  /** The two passes of lines 91-92 are one split at newline and space. */
  lemma TokenizeIsOneSplit(text: string)
    ensures Tokenize(text) == Split(text, {'\n', ' '})
  {
    SplitTwice(text, Newline, Space);
    assert Newline + Space == {'\n', ' '};
  }

  /** Empty tokens are skipped: a run of blanks separates tokens exactly as one blank does. */
  lemma BlankRunsCollapse(a: string, b: string, d: char, e: char)
    requires d in {'\n', ' '} && e in {'\n', ' '}
    ensures Tokenize(a + [d, e] + b) == Tokenize(a + [d] + b)
  {
    var both: set<char> := {'\n', ' '};
    TokenizeIsOneSplit(a + [d, e] + b);
    TokenizeIsOneSplit(a + [d] + b);
    assert a + [d, e] + b == a + ([d, e] + b);
    assert a + [d] + b == a + ([d] + b);
    SplitAppend(a, [d, e] + b, both);
    SplitAppend(a, [d] + b, both);
    assert ([d, e] + b)[1..] == [e] + b && ([e] + b)[1..] == b && ([d] + b)[1..] == b;
  }

  /** A trailing newline (or any trailing blank) adds no token. */
  lemma TrailingBlankIgnored(text: string, d: char)
    requires d in {'\n', ' '}
    ensures Tokenize(text + [d]) == Tokenize(text)
  {
    var both: set<char> := {'\n', ' '};
    TokenizeIsOneSplit(text + [d]);
    TokenizeIsOneSplit(text);
    SplitAppend(text, [d], both);
    assert [d][1..] == [];
  }

  // ---------------------------------------------------------------------------
  // The table as written by a producer of box files, and the round trip

  function IntStrings(row: seq<int>): (ts: seq<string>)
    ensures |ts| == |row|
  {
    seq(|row|, i requires 0 <= i < |row| => IntToString(row[i]))
  }

  /** One table row: its values in decimal, separated by single spaces. */
  function FormatRow(row: seq<int>): string {
    Join(IntStrings(row), " ")
  }

  function FormatLines(rows: seq<seq<int>>): (lines: seq<string>)
    ensures |lines| == |rows|
  {
    seq(|rows|, i requires 0 <= i < |rows| => FormatRow(rows[i]))
  }

  /** A whole table: its rows separated by newlines. */
  function FormatTable(rows: seq<seq<int>>): string {
    Join(FormatLines(rows), "\n")
  }

  predicate AllInt32(rows: seq<seq<int>>) {
    forall i, j :: 0 <= i < |rows| && 0 <= j < |rows[i]| ==> IsInt32(rows[i][j])
  }

  lemma {:induction false} JoinFree(parts: seq<string>, sep: string, delims: set<char>)
    requires forall i :: 0 <= i < |parts| ==> Free(parts[i], delims)
    requires Free(sep, delims)
    ensures Free(Join(parts, sep), delims)
    decreases |parts|
  {
    if |parts| > 1 {
      JoinFree(parts[1..], sep, delims);
      var tail := Join(parts[1..], sep);
      assert Join(parts, sep) == parts[0] + sep + tail;
      forall i | 0 <= i < |parts[0] + sep + tail| ensures (parts[0] + sep + tail)[i] !in delims {
        if i < |parts[0]| {
        } else if i < |parts[0]| + |sep| {
          assert (parts[0] + sep + tail)[i] == sep[i - |parts[0]|];
        } else {
          assert (parts[0] + sep + tail)[i] == tail[i - |parts[0]| - |sep|];
        }
      }
    }
  }

  lemma JoinNonEmpty(parts: seq<string>, sep: string)
    requires parts != [] && parts[0] != []
    ensures Join(parts, sep) != []
  {
  }

  lemma IntStringsFree(row: seq<int>, delims: set<char>)
    requires forall c :: c in delims ==> !IsDigit(c) && c != '-'
    ensures forall i :: 0 <= i < |row| ==> IntStrings(row)[i] != [] && Free(IntStrings(row)[i], delims)
  {
    forall i | 0 <= i < |row| ensures Free(IntStrings(row)[i], delims) {
      var s := IntStrings(row)[i];
      assert s == IntToString(row[i]);
      forall k | 0 <= k < |s| ensures s[k] !in delims {
        assert IsDigit(s[k]) || s[k] == '-';
      }
    }
  }

  /** Every line of a formatted table is one non-empty, newline-free string. */
  lemma FormatLinesFree(rows: seq<seq<int>>)
    requires IsTable(rows)
    ensures forall i :: 0 <= i < |rows| ==> FormatLines(rows)[i] != [] && Free(FormatLines(rows)[i], Newline)
  {
    forall i | 0 <= i < |rows| ensures FormatLines(rows)[i] != [] && Free(FormatLines(rows)[i], Newline) {
      IntStringsFree(rows[i], Newline);
      JoinFree(IntStrings(rows[i]), " ", Newline);
      JoinNonEmpty(IntStrings(rows[i]), " ");
    }
  }

  /** The strings of the table's values, row after row. */
  function TableStrings(rows: seq<seq<int>>): seq<seq<string>>
  {
    seq(|rows|, i requires 0 <= i < |rows| => IntStrings(rows[i]))
  }

  lemma {:induction false} SplitFormattedLines(rows: seq<seq<int>>)
    ensures SplitAll(FormatLines(rows), Space) == Flatten(TableStrings(rows))
    decreases |rows|
  {
    if rows != [] {
      assert FormatLines(rows)[1..] == FormatLines(rows[1..]);
      assert TableStrings(rows)[1..] == TableStrings(rows[1..]);
      IntStringsFree(rows[0], Space);
      SplitJoin(IntStrings(rows[0]), ' ', Space);
      SplitFormattedLines(rows[1..]);
    }
  }

  lemma ParseIntsAppend(a: seq<string>, b: seq<string>)
    requires ParseInts(a).Ok? && ParseInts(b).Ok?
    ensures ParseInts(a + b) == Ok(ParseInts(a).value + ParseInts(b).value)
  {
    var va, vb := ParseInts(a).value, ParseInts(b).value;
    assert forall i :: 0 <= i < |a + b| ==> ParseInt32((a + b)[i]) == Some((va + vb)[i]) by {
      forall i | 0 <= i < |a + b| ensures ParseInt32((a + b)[i]) == Some((va + vb)[i]) {
        if i >= |a| {
          assert (a + b)[i] == b[i - |a|];
        }
      }
    }
    var r := ParseInts(a + b);
    assert r.Ok?;
    assert r.value == va + vb;
  }

  lemma ParseIntStrings(row: seq<int>)
    requires forall j :: 0 <= j < |row| ==> IsInt32(row[j])
    ensures ParseInts(IntStrings(row)) == Ok(row)
  {
    forall j | 0 <= j < |row| ensures ParseInt32(IntStrings(row)[j]) == Some(row[j]) {
      ParseInt32RoundTrip(row[j]);
    }
    var r := ParseInts(IntStrings(row));
    assert r.Ok?;
    assert r.value == row;
  }

  lemma {:induction false} ParseTableStrings(rows: seq<seq<int>>)
    requires AllInt32(rows)
    ensures ParseInts(Flatten(TableStrings(rows))) == Ok(Flatten(rows))
    decreases |rows|
  {
    if rows == [] {
    } else {
      assert TableStrings(rows)[1..] == TableStrings(rows[1..]);
      ParseTableStrings(rows[1..]);
      ParseIntStrings(rows[0]);
      ParseIntsAppend(IntStrings(rows[0]), Flatten(TableStrings(rows[1..])));
    }
  }

  lemma {:induction false} ChunkFlatten(rows: seq<seq<int>>)
    requires IsTable(rows)
    ensures |Flatten(rows)| == Width * |rows|
    ensures Chunk(Flatten(rows)) == rows
    decreases |rows|
  {
    if rows != [] {
      ChunkFlatten(rows[1..]);
      var f := Flatten(rows);
      assert f == rows[0] + Flatten(rows[1..]);
      assert f[..Width] == rows[0];
      assert f[Width..] == Flatten(rows[1..]);
    }
  }

  /**
   * A table of seven int32 values per row, written out as lines of
   * space-separated decimals, parses back to exactly its class, box and
   * weight columns.
   */
  lemma BoxTextRoundTrip(rows: seq<seq<int>>)
    requires IsTable(rows) && AllInt32(rows)
    ensures ParseBoxText(FormatTable(rows)) == Ok(Columns(rows))
  {
    FormatLinesFree(rows);
    SplitJoin(FormatLines(rows), '\n', Newline);
    SplitFormattedLines(rows);
    ParseTableStrings(rows);
    ChunkFlatten(rows);
    assert Tokenize(FormatTable(rows)) == Flatten(TableStrings(rows));
    assert |Flatten(rows)| % Width == 0;
  }

  /** Column 0 (the instance id) never reaches the output: tables that differ only there parse alike. */
  lemma InstanceIdIgnored(rows: seq<seq<int>>, other: seq<seq<int>>)
    requires IsTable(rows) && AllInt32(rows) && IsTable(other) && AllInt32(other)
    requires |rows| == |other|
    requires forall i :: 0 <= i < |rows| ==> rows[i][1..] == other[i][1..]
    ensures ParseBoxText(FormatTable(rows)) == ParseBoxText(FormatTable(other))
  {
    BoxTextRoundTrip(rows);
    BoxTextRoundTrip(other);
    ColumnsIgnoreFirst(rows, other);
  }

  lemma ColumnsIgnoreFirst(rows: seq<seq<int>>, other: seq<seq<int>>)
    requires IsTable(rows) && IsTable(other) && |rows| == |other|
    requires forall i :: 0 <= i < |rows| ==> rows[i][1..] == other[i][1..]
    ensures Columns(rows) == Columns(other)
  {
    var a, b := Columns(rows), Columns(other);
    forall i | 0 <= i < |rows|
      ensures a.classes[i] == b.classes[i] && a.boxesOrig[i] == b.boxesOrig[i] && a.weights[i] == b.weights[i]
    {
      var x, y := rows[i], other[i];
      assert x[1] == x[1..][0] && y[1] == y[1..][0];
      assert x[6] == x[1..][5] && y[6] == y[1..][5];
      assert x[2..6] == x[1..][1..5] && y[2..6] == y[1..][1..5];
    }
    assert a.classes == b.classes && a.boxesOrig == b.boxesOrig && a.weights == b.weights;
  }

  /** A box file whose token count is not a multiple of seven is rejected, whatever its tokens. */
  lemma RaggedFileRejected(text: string)
    requires |Tokenize(text)| % Width != 0
    ensures ParseBoxText(text).Err?
  {
  }
}
