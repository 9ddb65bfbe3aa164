/** The Shopify bulk-operation downloader's data handling: reading a JSON
    Lines export into records, flattening each record one level for the
    columnar file, and refusing an empty export. Downloading, decompressing,
    writing Parquet and uploading are not part of this model. */
module BulkDownload {
  import opened Wrappers
  import opened Json
  import Text

  // ---------------------------------------------------------------------
  // str.splitlines
  // ---------------------------------------------------------------------

  /** The characters `str.splitlines` breaks at. */
  predicate IsLineBreak(c: char)
  {
    c == '\n' || c == '\r' || c == '\U{000B}' || c == '\U{000C}'
    || c == '\U{001C}' || c == '\U{001D}' || c == '\U{001E}'
    || c == '\U{0085}' || c == '\U{2028}' || c == '\U{2029}'
  }

  /** `s` holds no line break. */
  predicate NoBreaks(s: string)
  {
    forall j | 0 <= j < |s| :: !IsLineBreak(s[j])
  }

  /** The index of the first line break in `s`, or `|s|` when there is none. */
  function BreakAt(s: string): (i: nat)
    ensures i <= |s|
    ensures NoBreaks(s[..i])
    ensures i < |s| ==> IsLineBreak(s[i])
  {
    if s == [] || IsLineBreak(s[0]) then 0
    else
      var i := 1 + BreakAt(s[1..]);
      assert forall j | 1 <= j < i :: s[..i][j] == s[1..][..i - 1][j - 1];
      i
  }

  /** `s.splitlines()`: the lines of `s` without their line breaks, a
      carriage return followed by a line feed counting as one break, and no
      empty line after a final break. */
  function SplitLines(s: string): (lines: seq<string>)
    ensures |lines| <= |s|
    decreases |s|
  {
    if s == [] then []
    else
      var i := BreakAt(s);
      if i == |s| then [s]
      else
        var next := if s[i] == '\r' && i + 1 < |s| && s[i + 1] == '\n' then i + 2 else i + 1;
        [s[..i]] + SplitLines(s[next..])
  }

  /** No line contains a line break. */
  lemma {:induction false} SplitLinesNoBreaks(s: string)
    ensures forall k | 0 <= k < |SplitLines(s)| :: NoBreaks(SplitLines(s)[k])
    decreases |s|
  {
    if s != [] {
      var i := BreakAt(s);
      if i < |s| {
        var next := if s[i] == '\r' && i + 1 < |s| && s[i + 1] == '\n' then i + 2 else i + 1;
        var rest := SplitLines(s[next..]);
        SplitLinesNoBreaks(s[next..]);
        var lines := SplitLines(s);
        assert lines == [s[..i]] + rest;
        forall k | 0 <= k < |lines| ensures NoBreaks(lines[k]) {
          if k > 0 { assert lines[k] == rest[k - 1]; }
        }
      }
    }
  }

  /** Lines written one after another, each ended by a line feed, as a JSON
      Lines file is. */
  function Unlines(lines: seq<string>): string
  {
    if lines == [] then "" else lines[0] + "\n" + Unlines(lines[1..])
  }

  /** Splitting the text of lines without line breaks gives those lines
      back. */
  lemma {:induction false} SplitLinesOfUnlines(lines: seq<string>)
    requires forall k | 0 <= k < |lines| :: NoBreaks(lines[k])
    ensures SplitLines(Unlines(lines)) == lines
  {
    if lines != [] {
      var rest := lines[1..];
      assert forall k | 0 <= k < |rest| :: NoBreaks(rest[k]) by {
        forall k | 0 <= k < |rest| ensures NoBreaks(rest[k]) {
          assert rest[k] == lines[k + 1];
        }
      }
      SplitLinesOfUnlines(rest);
      assert NoBreaks(lines[0]);
      SplitLinesStep(lines[0], Unlines(rest));
      assert lines == [lines[0]] + rest;
    }
  }

  /** A line without breaks followed by a line feed is split off as the
      first line. */
  lemma SplitLinesStep(line: string, t: string)
    requires NoBreaks(line)
    ensures SplitLines(line + "\n" + t) == [line] + SplitLines(t)
  {
    var s := line + "\n" + t;
    assert s == line + ("\n" + t);
    BreakAtPrefix(line, "\n" + t);
    assert BreakAt("\n" + t) == 0;
    var i := BreakAt(s);
    assert i == |line| && s[i] == '\n';
    assert s[i + 1..] == t;
    assert s[..i] == line;
    assert SplitLines(s) == [s[..i]] + SplitLines(s[i + 1..]);
  }

  /** The first break of `a + b` is the first break of `b` when `a` has none. */
  lemma {:induction false} BreakAtPrefix(a: string, b: string)
    requires NoBreaks(a)
    ensures BreakAt(a + b) == |a| + BreakAt(b)
  {
    if a != [] {
      assert (a + b)[1..] == a[1..] + b;
      BreakAtPrefix(a[1..], b);
    } else {
      assert a + b == b;
    }
  }

  // ---------------------------------------------------------------------
  // parse_jsonl
  // ---------------------------------------------------------------------

  /** `not line.strip()`: the line is empty or all whitespace. */
  predicate Blank(line: string)
  {
    forall j | 0 <= j < |line| :: Text.IsSpace(line[j])
  }

  /** A line that yields a record: not blank, and valid JSON. */
  predicate Kept(codec: Codec, line: string)
  {
    !Blank(line) && codec.loads(line).Some?
  }

  /** The records read from `lines`, in order. */
  function Parsed(codec: Codec, lines: seq<string>): (records: seq<Value>)
    ensures |records| <= |lines|
  {
    if lines == [] then []
    else
      var last := lines[|lines| - 1];
      Parsed(codec, lines[..|lines| - 1]) + if Kept(codec, last) then [codec.loads(last).value] else []
  }

  /** The positions of the lines that yield records, in order. */
  function KeptIndices(codec: Codec, lines: seq<string>): seq<nat>
  {
    if lines == [] then []
    else
      var n := |lines| - 1;
      KeptIndices(codec, lines[..n]) + if Kept(codec, lines[n]) then [n] else []
  }

  /** The records are exactly the decoded kept lines, in line order: the
      k-th record comes from the k-th kept line, the positions strictly
      increase, and every kept line contributes. */
  lemma {:induction false} ParsedMeaning(codec: Codec, lines: seq<string>)
    ensures var idx := KeptIndices(codec, lines);
      && |idx| == |Parsed(codec, lines)|
      && (forall k | 0 <= k < |idx| ::
            idx[k] < |lines| && Kept(codec, lines[idx[k]])
            && Parsed(codec, lines)[k] == codec.loads(lines[idx[k]]).value)
      && (forall k, m | 0 <= k < m < |idx| :: idx[k] < idx[m])
      && (forall i | 0 <= i < |lines| && Kept(codec, lines[i]) :: i in idx)
  {
    if lines != [] {
      var n := |lines| - 1;
      var front := lines[..n];
      ParsedMeaning(codec, front);
      forall i | 0 <= i < n ensures front[i] == lines[i] { }
    }
  }

  /** `parse_jsonl` on the decoded text: each line that is not blank is
      decoded and appended; a line that is not valid JSON is skipped. */
  method ParseJsonl(codec: Codec, text: string) returns (records: seq<Value>)
    ensures records == Parsed(codec, SplitLines(text))
  {
    var lines := SplitLines(text);
    records := [];
    var i := 0;
    while i < |lines|
      invariant 0 <= i <= |lines|
      invariant records == Parsed(codec, lines[..i])
    {
      assert lines[..i + 1][..i] == lines[..i];
      var line := lines[i];
      if !Blank(line) {
        match codec.loads(line) {
          case Some(v) => records := records + [v];
          case None =>
        }
      }
      i := i + 1;
    }
    assert lines[..i] == lines;
  }

  // ---------------------------------------------------------------------
  // flatten_record
  // ---------------------------------------------------------------------

  /** `f"{key}_{sub_key}"`. */
  function FlatKey(key: string, subKey: string): string
  {
    key + "_" + subKey
  }

  /** The assignments one top-level pair makes: a dict value spreads into
      one `key_subkey` entry per sub-key holding the sub-value as it is, a
      list becomes its JSON text, anything else is copied. */
  function EntryAssignments(codec: Codec, entry: (string, Value)): Fields
  {
    match entry.1
    case Dict(sub) => Spread(entry.0, sub)
    case List(_) => [(entry.0, Str(codec.dumps(entry.1)))]
    case _ => [entry]
  }

  /** The `key_subkey` entries a dict value spreads into, in its order. */
  function Spread(key: string, sub: Fields): (e: Fields)
    ensures |e| == |sub|
    ensures forall j | 0 <= j < |e| :: e[j] == (FlatKey(key, sub[j].0), sub[j].1)
  {
    seq(|sub|, j requires 0 <= j < |sub| => (FlatKey(key, sub[j].0), sub[j].1))
  }

  /** Every assignment `flatten_record` makes, in order. */
  function Assignments(codec: Codec, record: Fields): Fields
  {
    if record == [] then []
    else
      var n := |record| - 1;
      Assignments(codec, record[..n]) + EntryAssignments(codec, record[n])
  }

  /** The flattened record: the assignments applied to an empty dict. */
  function Flatten(codec: Codec, record: Fields): Fields
  {
    Update([], Assignments(codec, record))
  }

  /** The assignments of a record split in two are those of each part. */
  lemma {:induction false} AssignmentsAppend(codec: Codec, a: Fields, b: Fields)
    ensures Assignments(codec, a + b) == Assignments(codec, a) + Assignments(codec, b)
  {
    if b == [] {
      assert a + b == a;
    } else {
      var n := |b| - 1;
      var x, y, z := Assignments(codec, a), Assignments(codec, b[..n]), EntryAssignments(codec, b[n]);
      calc {
        Assignments(codec, a + b);
        { assert a + b == (a + b[..n]) + [b[n]]; AssignmentsSnoc(codec, a + b[..n], b[n]); }
        Assignments(codec, a + b[..n]) + z;
        { AssignmentsAppend(codec, a, b[..n]); }
        (x + y) + z;
        x + (y + z);
        { assert b == b[..n] + [b[n]]; AssignmentsSnoc(codec, b[..n], b[n]); }
        x + Assignments(codec, b);
      }
    }
  }

  /** One more pair adds its own assignments at the end. */
  lemma AssignmentsSnoc(codec: Codec, record: Fields, entry: (string, Value))
    ensures Assignments(codec, record + [entry]) == Assignments(codec, record) + EntryAssignments(codec, entry)
  {
    assert (record + [entry])[..|record|] == record;
  }

  /** The assignments of the pair at position `i` sit between those of the
      pairs before it and those of the pairs after it. */
  lemma AssignmentsAt(codec: Codec, record: Fields, i: nat)
    requires i < |record|
    ensures Assignments(codec, record)
      == Assignments(codec, record[..i]) + EntryAssignments(codec, record[i]) + Assignments(codec, record[i + 1..])
  {
    assert record == record[..i + 1] + record[i + 1..];
    AssignmentsAppend(codec, record[..i + 1], record[i + 1..]);
    assert record[..i + 1][..i] == record[..i];
  }

  /** Applying assignments in two batches is applying them all. */
  lemma {:induction false} UpdateAppend(d: Fields, a: Fields, b: Fields)
    ensures Update(d, a + b) == Update(Update(d, a), b)
    decreases |b|
  {
    if b == [] {
      assert a + b == a;
    } else {
      var n := |b| - 1;
      assert (a + b)[..|a + b| - 1] == a + b[..n];
      UpdateAppend(d, a, b[..n]);
    }
  }

  /** Every key of the flattened record holds the value of its last
      assignment, and only assigned keys are present. */
  lemma FlattenGet(codec: Codec, record: Fields, key: string)
    ensures Get(Flatten(codec, record), key) == LastGet(Assignments(codec, record), key)
  {
    GetOfUpdate([], Assignments(codec, record), key);
  }

  /** A record with distinct keys and no dict or list values flattens to
      itself. */
  lemma {:induction false} FlattenScalars(codec: Codec, record: Fields)
    requires DistinctKeys(record)
    requires forall i | 0 <= i < |record| :: !record[i].1.Dict? && !record[i].1.List?
    ensures Flatten(codec, record) == record
  {
    if record != [] {
      var n := |record| - 1;
      var front := record[..n];
      DistinctFront(record);
      var last := record[n];
      assert record == front + [last];
      var a := Assignments(codec, front);
      calc {
        Flatten(codec, record);
        { assert EntryAssignments(codec, last) == [last]; AssignmentsSnoc(codec, front, last); }
        Update([], a + [last]);
        { assert (a + [last])[..|a|] == a; }
        Put(Update([], a), last.0, last.1);
        { FlattenScalars(codec, front); }
        Put(front, last.0, last.1);
        front + [last];
      }
    }
  }

  /** Without its last pair a dict still has distinct keys, none of them
      the last pair's key. */
  lemma DistinctFront(record: Fields)
    requires record != [] && DistinctKeys(record)
    ensures DistinctKeys(record[..|record| - 1])
    ensures !HasKey(record[..|record| - 1], record[|record| - 1].0)
  {
    var n := |record| - 1;
    var front := record[..n];
    forall i, j | 0 <= i < j < |front| ensures KeyAt(front, i) != KeyAt(front, j) {
      assert KeyAt(record, i) != KeyAt(record, j);
    }
    forall i | 0 <= i < |front| ensures KeyAt(front, i) != record[n].0 {
      assert KeyAt(record, i) != KeyAt(record, n);
    }
  }

  /** An order with a nested customer and a list of tags flattens to the
      order id, `customer_id` and the tags' JSON text. */
  lemma FlattenExample(codec: Codec)
    ensures Flatten(codec, [("id", Int(1)), ("customer", Dict([("id", Int(2))])), ("tags", List([]))])
      == [("id", Int(1)), ("customer_id", Int(2)), ("tags", Str(codec.dumps(List([]))))]
  {
    ExampleAssignments(codec);
    ExampleUpdate(("tags", Str(codec.dumps(List([])))));
  }

  lemma ExampleAssignments(codec: Codec)
    ensures Assignments(codec, [("id", Int(1)), ("customer", Dict([("id", Int(2))])), ("tags", List([]))])
      == [("id", Int(1)), ("customer_id", Int(2)), ("tags", Str(codec.dumps(List([]))))]
  {
    var record := [("id", Int(1)), ("customer", Dict([("id", Int(2))])), ("tags", List([]))];
    assert FlatKey("customer", "id") == "customer_id";
    assert record[..2][..1] == [("id", Int(1))];
    assert Assignments(codec, record[..2][..1]) == [("id", Int(1))];
    assert Assignments(codec, record[..2]) == [("id", Int(1)), ("customer_id", Int(2))];
  }

  lemma ExampleUpdate(tags: (string, Value))
    requires tags.0 == "tags"
    ensures Update([], [("id", Int(1)), ("customer_id", Int(2)), tags]) == [("id", Int(1)), ("customer_id", Int(2)), tags]
  {
    var a := [("id", Int(1)), ("customer_id", Int(2)), tags];
    assert a[..2][..1] == [a[0]] && a[..2] == [a[0], a[1]];
    assert Update([], [a[0]]) == [a[0]];
    assert !HasKey([a[0]], "customer_id") by { assert KeyAt([a[0]], 0) != "customer_id"; }
    assert Update([], a[..2]) == a[..2];
    assert !HasKey(a[..2], "tags") by { assert KeyAt(a[..2], 0) != "tags" && KeyAt(a[..2], 1) != "tags"; }
    assert a[..2] + [tags] == a;
  }

  /** The body of the outer loop of `flatten_record` for one pair: the
      inner loop over the sub-pairs of a dict value, or one assignment. */
  method FlattenEntry(codec: Codec, flat: Fields, key: string, value: Value) returns (r: Fields)
    ensures r == Update(flat, EntryAssignments(codec, (key, value)))
  {
    match value {
      case Dict(sub) =>
        r := SpreadInto(flat, key, sub);
      case List(_) =>
        r := Put(flat, key, Str(codec.dumps(value)));
      case _ =>
        r := Put(flat, key, value);
    }
  }

  /** The inner loop of `flatten_record`: each sub-key of a dict value set
      as `key_subkey`, in order. */
  method SpreadInto(flat: Fields, key: string, sub: Fields) returns (r: Fields)
    ensures r == Update(flat, Spread(key, sub))
  {
    var e := Spread(key, sub);
    r := flat;
    var j := 0;
    while j < |sub|
      invariant 0 <= j <= |sub|
      invariant r == Update(flat, e[..j])
    {
      assert e[..j + 1][..j] == e[..j];
      r := Put(r, FlatKey(key, sub[j].0), sub[j].1);
      j := j + 1;
    }
    assert e[..j] == e;
  }

  /** `flatten_record`: the loop over the pairs of the record. */
  method FlattenRecord(codec: Codec, record: Fields) returns (flat: Fields)
    ensures flat == Flatten(codec, record)
  {
    flat := [];
    var i := 0;
    while i < |record|
      invariant 0 <= i <= |record|
      invariant flat == Update([], Assignments(codec, record[..i]))
    {
      assert record[..i + 1][..i] == record[..i];
      UpdateAppend([], Assignments(codec, record[..i]), EntryAssignments(codec, record[i]));
      flat := FlattenEntry(codec, flat, record[i].0, record[i].1);
      i := i + 1;
    }
    assert record[..i] == record;
  }

  // ---------------------------------------------------------------------
  // convert_to_parquet
  // ---------------------------------------------------------------------

  /** The rows `convert_to_parquet` hands to the table writer: an empty
      export raises `ValueError`, a record that is not a dict has no
      `items`, and every other record is flattened. */
  function FlattenedRows(codec: Codec, records: seq<Value>): (r: Result<seq<Fields>>)
    ensures r == Failure(ValueError("No records to convert")) <==> records == []
    ensures r.Success? <==> records != [] && forall k | 0 <= k < |records| :: records[k].Dict?
    ensures r.Success? ==> (|r.value| == |records|
      && forall k | 0 <= k < |records| :: r.value[k] == Flatten(codec, records[k].fields))
  {
    if records == [] then Failure(ValueError("No records to convert"))
    else if forall k | 0 <= k < |records| :: records[k].Dict? then
      Success(seq(|records|, k requires 0 <= k < |records| => Flatten(codec, records[k].fields)))
    else Failure(NoItems)
  }
}
