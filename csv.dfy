/**
 * The text nvidia-smi prints with --format=csv,noheader,nounits and the row-by-row
 * loop every parser of the monitors runs over it.
 */
module Csv {
  import opened Common
  import opened PyStr
  import opened PyDict

  /** `out.strip().split('\n')`: never empty; empty output is the one line "". */
  function Lines(out: string): seq<string> {
    Split(Strip(out), '\n')
  }

  /** `[s.strip() for s in line.split(',')]`: one field more than the line has commas. */
  function Fields(line: string): seq<string> {
    var parts := Split(line, ',');
    seq(|parts|, i requires 0 <= i < |parts| => Strip(parts[i]))
  }

  /** Field c of a line, or "" past the last field. */
  function Column(line: string, c: nat): string {
    var f := Fields(line);
    if c < |f| then f[c] else ""
  }

  /**
   * `for line in lines:` where `row` decides, line by line, to raise (Err), to skip
   * the line (Ok(None)) or to append a value (Ok(Some(x))). The first line that raises
   * ends the loop with its exception.
   */
  function ParseLines<T>(lines: seq<string>, row: string -> Result<Option<T>>): Result<seq<T>> {
    if |lines| == 0 then Ok([])
    else
      var init := lines[..|lines| - 1];
      var last := lines[|lines| - 1];
      match ParseLines(init, row)
      case Err(e) => Err(e)
      case Ok(acc) =>
        match row(last)
        case Err(e) => Err(e)
        case Ok(x) => Ok(if x.Some? then acc + [x.value] else acc)
  }

  /**
   * The loop finishes exactly when no line raises, with at most one value per line;
   * otherwise it fails with the exception of the first line that raises.
   */
  lemma {:induction false} ParseLinesOutcome<T>(lines: seq<string>, row: string -> Result<Option<T>>)
    ensures ParseLines(lines, row).Ok? <==> forall i :: 0 <= i < |lines| ==> row(lines[i]).Ok?
    ensures ParseLines(lines, row).Ok? ==> |ParseLines(lines, row).value| <= |lines|
    ensures ParseLines(lines, row).Err? ==>
              exists i :: FirstRaise(lines, row, i) && ParseLines(lines, row).error == row(lines[i]).error
  {
    if |lines| > 0 {
      var init := lines[..|lines| - 1];
      assert forall i :: 0 <= i < |init| ==> init[i] == lines[i];
      ParseLinesOutcome(init, row);
      match ParseLines(init, row)
      case Err(e) =>
        var i :| FirstRaise(init, row, i) && e == row(init[i]).error;
        assert FirstRaise(lines, row, i);
      case Ok(acc) =>
        if row(lines[|lines| - 1]).Err? {
          assert FirstRaise(lines, row, |lines| - 1);
        }
    }
  }

  /** Line i is the first of `lines` whose row raises. */
  ghost predicate FirstRaise<T>(lines: seq<string>, row: string -> Result<Option<T>>, i: int) {
    0 <= i < |lines| && row(lines[i]).Err? && forall j :: 0 <= j < i ==> row(lines[j]).Ok?
  }

  /** Rows of a concatenation: the rows of the first part, then those of the second. */
  lemma {:induction false} ParseLinesAppend<T>(a: seq<string>, b: seq<string>, row: string -> Result<Option<T>>)
    ensures ParseLines(a + b, row) ==
      match ParseLines(a, row)
      case Err(e) => Err(e)
      case Ok(x) =>
        match ParseLines(b, row)
        case Err(e) => Err(e)
        case Ok(y) => Ok(x + y)
    decreases |b|
  {
    if |b| == 0 {
      assert a + b == a;
      assert ParseLines(b, row) == Ok([]);
      match ParseLines(a, row)
      case Err(e) =>
      case Ok(x) => assert x + [] == x;
    } else {
      var b' := b[..|b| - 1];
      assert (a + b)[..|a + b| - 1] == a + b';
      assert (a + b)[|a + b| - 1] == b[|b| - 1];
      ParseLinesAppend(a, b', row);
      match ParseLines(a, row)
      case Err(e) =>
      case Ok(x) =>
        match ParseLines(b', row)
        case Err(e) =>
        case Ok(y) =>
          match row(b[|b| - 1])
          case Err(e) =>
          case Ok(v) =>
            if v.Some? {
              assert (x + y) + [v.value] == x + (y + [v.value]);
            }
    }
  }

  /** A line whose row is skipped contributes nothing; one that yields x contributes exactly [x]. */
  lemma OneLine<T>(line: string, row: string -> Result<Option<T>>)
    ensures row(line) == Ok(None) ==> ParseLines([line], row) == Ok([])
    ensures row(line).Ok? && row(line).value.Some? ==> ParseLines([line], row) == Ok([row(line).value.value])
  {
    assert [line][..0] == [];
    if row(line).Ok? && row(line).value.Some? {
      var v := row(line).value.value;
      assert [] + [v] == [v];
    }
  }

  /** `row` appends a value for this line. */
  predicate Keeps<T>(row: string -> Result<Option<T>>, line: string) {
    row(line).Ok? && row(line).value.Some?
  }

  /** The lines `row` appends a value for, in input order. */
  function Kept<T>(lines: seq<string>, row: string -> Result<Option<T>>): (r: seq<string>)
    ensures forall l :: l in r <==> l in lines && Keeps(row, l)
  {
    if |lines| == 0 then []
    else
      var init := lines[..|lines| - 1];
      var last := lines[|lines| - 1];
      assert lines == init + [last];
      Kept(init, row) + if Keeps(row, last) then [last] else []
  }

  /**
   * When no line raises, the result holds one value per kept line, in the kept
   * lines' order, and nothing for the skipped ones.
   */
  lemma {:induction false} ParseLinesKept<T>(lines: seq<string>, row: string -> Result<Option<T>>)
    requires ParseLines(lines, row).Ok?
    ensures |ParseLines(lines, row).value| == |Kept(lines, row)|
    ensures forall k :: 0 <= k < |Kept(lines, row)| ==>
              Keeps(row, Kept(lines, row)[k]) &&
              ParseLines(lines, row).value[k] == row(Kept(lines, row)[k]).value.value
  {
    if |lines| > 0 {
      var init := lines[..|lines| - 1];
      assert forall i :: 0 <= i < |init| ==> init[i] == lines[i];
      ParseLinesKept(init, row);
    }
  }

  /** When every line is kept, the result has one value per line, in order. */
  lemma ParseLinesTotal<T>(lines: seq<string>, row: string -> Result<Option<T>>)
    requires forall i :: 0 <= i < |lines| ==> Keeps(row, lines[i])
    ensures ParseLines(lines, row).Ok? && |ParseLines(lines, row).value| == |lines|
    ensures forall i :: 0 <= i < |lines| ==>
              Keeps(row, lines[i]) && ParseLines(lines, row).value[i] == row(lines[i]).value.value
  {
    KeptAll(lines, row);
    ParseLinesKept(lines, row);
  }

  lemma {:induction false} KeptAll<T>(lines: seq<string>, row: string -> Result<Option<T>>)
    requires forall i :: 0 <= i < |lines| ==> Keeps(row, lines[i])
    ensures Kept(lines, row) == lines
  {
    if |lines| > 0 {
      var init := lines[..|lines| - 1];
      assert forall i :: 0 <= i < |init| ==> init[i] == lines[i];
      KeptAll(init, row);
      assert lines == init + [lines[|lines| - 1]];
    }
  }

  /** Filtering respects concatenation, so the kept lines stay in input order. */
  lemma {:induction false} KeptAppend<T>(a: seq<string>, b: seq<string>, row: string -> Result<Option<T>>)
    ensures Kept(a + b, row) == Kept(a, row) + Kept(b, row)
    decreases |b|
  {
    if |b| == 0 {
      assert a + b == a;
    } else {
      var b' := b[..|b| - 1];
      assert (a + b)[..|a + b| - 1] == a + b';
      assert (a + b)[|a + b| - 1] == b[|b| - 1];
      KeptAppend(a, b', row);
    }
  }

  /** The first line that raises decides the result, whatever follows it. */
  lemma {:induction false} ParseLinesRaises<T>(lines: seq<string>, row: string -> Result<Option<T>>, i: nat)
    requires i < |lines| && ParseLines(lines[..i], row).Ok? && row(lines[i]).Err?
    ensures ParseLines(lines, row) == Err(row(lines[i]).error)
    decreases |lines|
  {
    var init := lines[..|lines| - 1];
    if i < |lines| - 1 {
      assert init[..i] == lines[..i] && init[i] == lines[i];
      ParseLinesRaises(init, row, i);
    } else {
      assert init == lines[..i];
    }
  }

  /** One more line: its value, if any, goes after the values of the lines before it. */
  lemma ParseLinesSnoc<T>(lines: seq<string>, row: string -> Result<Option<T>>, i: nat)
    requires i < |lines| && ParseLines(lines[..i], row).Ok? && row(lines[i]).Ok?
    ensures ParseLines(lines[..i + 1], row) ==
      Ok(ParseLines(lines[..i], row).value + if row(lines[i]).value.Some? then [row(lines[i]).value.value] else [])
  {
    var a := lines[..i + 1];
    assert a[..|a| - 1] == lines[..i] && a[|a| - 1] == lines[i];
    var acc := ParseLines(lines[..i], row).value;
    match row(lines[i])
    case Ok(x) =>
      assert ParseLines(a, row) == Ok(if x.Some? then acc + [x.value] else acc);
      if x.None? {
        assert acc + [] == acc;
      }
  }

  /** The value `row` appends for a kept line. */
  function ValueOf<T>(row: string -> Result<Option<T>>, line: string): T
    requires Keeps(row, line)
  {
    row(line).value.value
  }

  /** A dict filled from lines that are all kept has one key per line's key. */
  lemma CollectLinesKeys<T, K, V>(lines: seq<string>, row: string -> Result<Option<T>>, key: T -> K, val: T -> V)
    requires forall i :: 0 <= i < |lines| ==> Keeps(row, lines[i])
    ensures ParseLines(lines, row).Ok?
    ensures Collect(ParseLines(lines, row).value, key, val).entries.Keys
            == set i | 0 <= i < |lines| :: key(ValueOf(row, lines[i]))
  {
    ParseLinesTotal(lines, row);
    var rows := ParseLines(lines, row).value;
    CollectKeys(rows, key, val);
    var byRow := set t | t in rows :: key(t);
    var byLine := set i | 0 <= i < |lines| :: key(ValueOf(row, lines[i]));
    forall i | 0 <= i < |lines|
      ensures key(ValueOf(row, lines[i])) in byRow
    {
      assert rows[i] == ValueOf(row, lines[i]);
    }
    forall k | k in byRow
      ensures k in byLine
    {
      var t :| t in rows && k == key(t);
      var i :| 0 <= i < |rows| && rows[i] == t;
      assert key(ValueOf(row, lines[i])) == k;
    }
    assert byRow == byLine;
  }

  /** In a dict filled from lines that are all kept, the last line with a key sets its value. */
  lemma CollectLinesLast<T, K, V>(lines: seq<string>, row: string -> Result<Option<T>>, key: T -> K, val: T -> V, i: nat)
    requires forall j :: 0 <= j < |lines| ==> Keeps(row, lines[j])
    requires i < |lines|
    requires forall j :: i < j < |lines| ==> key(ValueOf(row, lines[j])) != key(ValueOf(row, lines[i]))
    ensures ParseLines(lines, row).Ok?
    ensures key(ValueOf(row, lines[i])) in Collect(ParseLines(lines, row).value, key, val).entries
    ensures Collect(ParseLines(lines, row).value, key, val).entries[key(ValueOf(row, lines[i]))]
            == val(ValueOf(row, lines[i]))
  {
    ParseLinesTotal(lines, row);
    CollectLastWins(ParseLines(lines, row).value, key, val, i);
  }

  /** When every line's key is its field c, the set of keys is the set of those fields. */
  lemma SameColumn<T>(lines: seq<string>, row: string -> Result<Option<T>>, key: T -> string, c: nat)
    requires forall i :: 0 <= i < |lines| ==> Keeps(row, lines[i]) && key(ValueOf(row, lines[i])) == Column(lines[i], c)
    ensures (set i | 0 <= i < |lines| :: key(ValueOf(row, lines[i]))) == (set i | 0 <= i < |lines| :: Column(lines[i], c))
  {
    var a := set i | 0 <= i < |lines| :: key(ValueOf(row, lines[i]));
    var b := set i | 0 <= i < |lines| :: Column(lines[i], c);
    forall x | x in a ensures x in b {
      var i :| 0 <= i < |lines| && x == key(ValueOf(row, lines[i]));
      assert x == Column(lines[i], c);
    }
    forall x | x in b ensures x in a {
      var i :| 0 <= i < |lines| && x == Column(lines[i], c);
      assert x == key(ValueOf(row, lines[i]));
    }
  }
}
