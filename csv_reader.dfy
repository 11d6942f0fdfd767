/**
 * The CSV reader (DataPreprocessing/CSVReader/CSVReader.cpp): a file is
 * read line by line, each line split on the separator with std::getline,
 * every token converted with std::stod, and the values of each line
 * partitioned into a data row and a one-value label row.
 *
 * Opening the file is I/O: the file arrives as its text, or as None when it
 * cannot be opened. std::stod is a parameter that maps a token to a number
 * or to one of the two exceptions it throws.
 */
module Csv {
  import opened Wrappers
  import opened Utils

  // ----- split: std::getline on a separator -----

  /** The length of the first field: the position of the first separator, or the whole line. */
  function FieldEnd(line: string, sep: char): (k: nat)
    ensures k <= |line| && sep !in line[..k]
    ensures k < |line| ==> line[k] == sep
  {
    if line == [] || line[0] == sep then 0
    else
      var k := FieldEnd(line[1..], sep);
      assert line[..k + 1] == [line[0]] + line[1..][..k];
      k + 1
  }

  /**
   * The tokens std::getline(stream, token, sep) extracts from line, one per
   * call until a call extracts nothing: every separator ends a token, and
   * what follows the last separator is a token only when it is not empty.
   */
  function Split(line: string, sep: char): seq<string>
    decreases |line|
  {
    if line == [] then []
    else
      var k := FieldEnd(line, sep);
      if k == |line| then [line] else [line[..k]] + Split(line[k + 1..], sep)
  }

  /** The tokens put back together with the separator between them. */
  function Join(tokens: seq<string>, sep: char): string {
    if |tokens| == 0 then []
    else if |tokens| == 1 then tokens[0]
    else tokens[0] + [sep] + Join(tokens[1..], sep)
  }

  /** A field without separators followed by a separator is one token. */
  lemma SplitAtSeparator(field: string, rest: string, sep: char)
    requires sep !in field
    ensures Split(field + [sep] + rest, sep) == [field] + Split(rest, sep)
  {
    var line := field + [sep] + rest;
    var k := FieldEnd(line, sep);
    assert line[|field|] == sep;
    assert forall j :: 0 <= j < |field| ==> line[j] == field[j];
    assert line[..k] == field && line[k + 1..] == rest;
  }

  /** A field without separators at the end of the line is a token when it is not empty. */
  lemma SplitLastField(field: string, sep: char)
    requires sep !in field
    ensures Split(field, sep) == if field == [] then [] else [field]
  {
    if field != [] {
      assert FieldEnd(field, sep) == |field|;
    }
  }

  /** No token holds the separator. */
  lemma {:induction false} SplitNoSeparator(line: string, sep: char)
    ensures forall k :: 0 <= k < |Split(line, sep)| ==> sep !in Split(line, sep)[k]
    decreases |line|
  {
    if line != [] {
      var k := FieldEnd(line, sep);
      if k < |line| {
        SplitNoSeparator(line[k + 1..], sep);
      } else {
        assert line[..k] == line;
      }
    }
  }

  /** Joining a token in front of at least one more puts a separator after it. */
  lemma JoinCons(t: string, ts: seq<string>, sep: char)
    requires ts != []
    ensures Join([t] + ts, sep) == t + [sep] + Join(ts, sep)
  {
    assert ([t] + ts)[1..] == ts;
  }

  /**
   * Splitting loses only a trailing separator: joining the tokens gives the
   * line back, less its last character when that is the separator.
   */
  lemma {:induction false} JoinSplit(line: string, sep: char)
    ensures Join(Split(line, sep), sep) + (if line != [] && line[|line| - 1] == sep then [sep] else []) == line
    decreases |line|
  {
    hide Split;
    SplitEmptyIff(line, sep);
    if line != [] {
      var k := FieldEnd(line, sep);
      if k == |line| {
        assert line[..k] == line;
        SplitLastField(line, sep);
        assert line[|line| - 1] in line[..k];
      } else {
        var field, rest := line[..k], line[k + 1..];
        assert line == field + [sep] + rest;
        SplitAtSeparator(field, rest, sep);
        JoinSplit(rest, sep);
        SplitEmptyIff(rest, sep);
        if rest != [] {
          JoinCons(field, Split(rest, sep), sep);
          assert line[|line| - 1] == rest[|rest| - 1];
        } else {
          assert Join([field], sep) == field;
        }
      }
    }
  }

  /** An empty line is the only line with no tokens. */
  lemma SplitEmptyIff(line: string, sep: char)
    ensures Split(line, sep) == [] <==> line == []
  {
  }

  /** A line of the library's test files splits into its three fields. */
  lemma SplitTestLine()
    ensures Split("1.0,2.0,0", ',') == ["1.0", "2.0", "0"]
  {
    assert "1.0,2.0,0" == "1.0" + [','] + "2.0,0";
    assert "2.0,0" == "2.0" + [','] + "0";
    SplitAtSeparator("1.0", "2.0,0", ',');
    SplitAtSeparator("2.0", "0", ',');
    SplitLastField("0", ',');
  }

  /** getline's edge cases: a trailing separator adds no token, a leading one adds an empty token. */
  lemma SplitEdgeCases()
    ensures Split("a,", ',') == ["a"]
    ensures Split(",a", ',') == ["", "a"]
  {
    assert "a," == "a" + [','] + "";
    assert ",a" == "" + [','] + "a";
    SplitAtSeparator("a", "", ',');
    SplitAtSeparator("", "a", ',');
    SplitLastField("a", ',');
  }

  /** A leading separator ends an empty field, which getline extracts as an empty token. */
  lemma SplitLeadingSeparator(s: string, sep: char)
    ensures Split([sep] + s, sep) == [""] + Split(s, sep)
  {
    assert [sep] + s == "" + [sep] + s;
    SplitAtSeparator("", s, sep);
  }

  // ----- toDouble: std::stod on every token -----

  /**
   * What std::stod makes of a token: a number, an invalid_argument (no
   * conversion) or an out_of_range (a value beyond double).
   */
  datatype Conversion = Number(value: real) | NoConversion | BeyondRange

  /**
   * toDouble(tokens): the tokens' numbers in order. The first token stod
   * rejects ends it: invalid_argument is caught and rethrown as
   * runtime_error, out_of_range is not caught and escapes as it is.
   */
  function Values(tokens: seq<string>, stod: string -> Conversion): Result<seq<real>>
  {
    if tokens == [] then Ok([])
    else
      var n := |tokens| - 1;
      match Values(tokens[..n], stod)
      case Err(e) => Err(e)
      case Ok(vs) =>
        match stod(tokens[n])
        case Number(x) => Ok(vs + [x])
        case NoConversion => Err(RuntimeError)
        case BeyondRange => Err(OutOfRange)
  }

  /** The exception a rejected token raises. */
  function Raised(c: Conversion): Error {
    if c.NoConversion? then RuntimeError else OutOfRange
  }

  /**
   * Values converts every token exactly when stod accepts them all, giving
   * the numbers in token order; otherwise it raises what the first rejected
   * token raises.
   */
  lemma {:induction false} ValuesAt(tokens: seq<string>, stod: string -> Conversion)
    ensures Values(tokens, stod).Ok? <==> forall k :: 0 <= k < |tokens| ==> stod(tokens[k]).Number?
    ensures Values(tokens, stod).Ok? ==>
      |Values(tokens, stod).value| == |tokens| &&
      forall k :: 0 <= k < |tokens| ==> Values(tokens, stod).value[k] == stod(tokens[k]).value
    ensures Values(tokens, stod).Err? ==>
      exists k :: 0 <= k < |tokens| && !stod(tokens[k]).Number? && Values(tokens, stod).error == Raised(stod(tokens[k])) &&
        forall j :: 0 <= j < k ==> stod(tokens[j]).Number?
  {
    if tokens != [] {
      var n := |tokens| - 1;
      var prefix := tokens[..n];
      ValuesAt(prefix, stod);
      assert forall k :: 0 <= k < n ==> prefix[k] == tokens[k];
      if Values(prefix, stod).Err? {
        var k :| 0 <= k < n && !stod(prefix[k]).Number? && Values(prefix, stod).error == Raised(stod(prefix[k])) &&
          forall j :: 0 <= j < k ==> stod(prefix[j]).Number?;
        assert !stod(tokens[k]).Number?;
      } else if !stod(tokens[n]).Number? {
        assert Values(tokens, stod).error == Raised(stod(tokens[n]));
      }
    }
  }

  /** A prefix that raises makes the whole line raise the same. */
  lemma {:induction false} ValuesErrSticks(tokens: seq<string>, i: nat, stod: string -> Conversion)
    requires i <= |tokens| && Values(tokens[..i], stod).Err?
    ensures Values(tokens, stod) == Values(tokens[..i], stod)
    decreases |tokens| - i
  {
    if i < |tokens| {
      assert tokens[..i + 1][..i] == tokens[..i];
      ValuesErrSticks(tokens, i + 1, stod);
    } else {
      assert tokens[..i] == tokens;
    }
  }

  // ----- read: the feature/label partition of each line -----

  /**
   * The data row and the label row of a line's values: with labelsAtEnd
   * the label is the last value, otherwise the first, and the data row is
   * the rest in order.
   */
  function Partition(values: Row, labelsAtEnd: bool): (r: (Row, Row))
    requires |values| > 0
    ensures |r.1| == 1
    ensures labelsAtEnd ==> r.0 + r.1 == values
    ensures !labelsAtEnd ==> r.1 + r.0 == values
  {
    if labelsAtEnd then (values[..|values| - 1], values[|values| - 1..])
    else (values[1..], values[..1])
  }

  /** The lines std::getline(file, line) reads: the header, when there is one, is skipped. */
  function Lines(text: string, hasHeader: bool): seq<string> {
    var all := Split(text, '\n');
    if hasHeader && all != [] then all[1..] else all
  }

  /** The data and labels read so far and how read ends. */
  datatype Loaded = Loaded(data: Rows, labels: Rows, result: Outcome)

  /**
   * read's line loop on values from data and labels: a line without tokens
   * is skipped, a line whose tokens convert appends one data row and one
   * label row, and the first line with a rejected token throws, keeping the
   * rows appended before it.
   */
  function LinesRead(data: Rows, labels: Rows, lines: seq<string>, sep: char, labelsAtEnd: bool,
                     stod: string -> Conversion): Loaded
    decreases |lines|
  {
    if lines == [] then Loaded(data, labels, Pass)
    else
      var tokens := Split(lines[0], sep);
      if tokens == [] then LinesRead(data, labels, lines[1..], sep, labelsAtEnd, stod)
      else
        match Values(tokens, stod)
        case Err(e) => Loaded(data, labels, Fail(e))
        case Ok(vs) =>
          ValuesAt(tokens, stod);
          var parts := Partition(vs, labelsAtEnd);
          LinesRead(data + [parts.0], labels + [parts.1], lines[1..], sep, labelsAtEnd, stod)
  }

  /** The number of lines with tokens. */
  function Records(lines: seq<string>, sep: char): nat {
    if lines == [] then 0 else (if Split(lines[0], sep) == [] then 0 else 1) + Records(lines[1..], sep)
  }

  /** Every line's tokens convert. */
  predicate Convertible(lines: seq<string>, sep: char, stod: string -> Conversion) {
    forall k :: 0 <= k < |lines| ==> Values(Split(lines[k], sep), stod).Ok?
  }

  /**
   * read only appends: the rows there before stay, data and labels grow
   * together, and each new label row holds one value. It passes exactly
   * when every line's tokens convert, and then it adds one row per line
   * with tokens.
   */
  lemma {:induction false} LinesReadAppends(data: Rows, labels: Rows, lines: seq<string>, sep: char, labelsAtEnd: bool,
                                            stod: string -> Conversion)
    ensures var l := LinesRead(data, labels, lines, sep, labelsAtEnd, stod);
      |l.data| - |data| == |l.labels| - |labels| >= 0 && l.data[..|data|] == data && l.labels[..|labels|] == labels
    ensures var l := LinesRead(data, labels, lines, sep, labelsAtEnd, stod);
      forall k :: |labels| <= k < |l.labels| ==> |l.labels[k]| == 1
    ensures LinesRead(data, labels, lines, sep, labelsAtEnd, stod).result.Pass? <==> Convertible(lines, sep, stod)
    ensures var l := LinesRead(data, labels, lines, sep, labelsAtEnd, stod);
      l.result.Pass? ==> |l.data| == |data| + Records(lines, sep)
    decreases |lines|
  {
    if lines != [] {
      var tokens := Split(lines[0], sep);
      assert forall k :: 0 <= k < |lines| - 1 ==> lines[1..][k] == lines[k + 1];
      SplitEmptyIff(lines[0], sep);
      if tokens == [] {
        LinesReadAppends(data, labels, lines[1..], sep, labelsAtEnd, stod);
      } else if Values(tokens, stod).Ok? {
        ValuesAt(tokens, stod);
        var parts := Partition(Values(tokens, stod).value, labelsAtEnd);
        LinesReadAppends(data + [parts.0], labels + [parts.1], lines[1..], sep, labelsAtEnd, stod);
        var l := LinesRead(data, labels, lines, sep, labelsAtEnd, stod);
        assert l.data[..|data| + 1][..|data|] == l.data[..|data|];
        assert l.labels[..|labels| + 1][..|labels|] == l.labels[..|labels|];
      }
    }
  }

  /** Reading from rows already there is reading from nothing, with those rows in front. */
  lemma {:induction false} LinesReadFrom(data: Rows, labels: Rows, lines: seq<string>, sep: char, labelsAtEnd: bool,
                                         stod: string -> Conversion)
    ensures var clean := LinesRead([], [], lines, sep, labelsAtEnd, stod);
      LinesRead(data, labels, lines, sep, labelsAtEnd, stod) == Loaded(data + clean.data, labels + clean.labels, clean.result)
    decreases |lines|
  {
    if lines != [] {
      var tokens := Split(lines[0], sep);
      if tokens == [] {
        LinesReadFrom(data, labels, lines[1..], sep, labelsAtEnd, stod);
      } else if Values(tokens, stod).Ok? {
        ValuesAt(tokens, stod);
        var parts := Partition(Values(tokens, stod).value, labelsAtEnd);
        LinesReadFrom(data + [parts.0], labels + [parts.1], lines[1..], sep, labelsAtEnd, stod);
        LinesReadFrom([parts.0], [parts.1], lines[1..], sep, labelsAtEnd, stod);
        assert [] + [parts.0] == [parts.0] && [] + [parts.1] == [parts.1];
        var rest := LinesRead([], [], lines[1..], sep, labelsAtEnd, stod);
        assert data + [parts.0] + rest.data == data + ([parts.0] + rest.data);
        assert labels + [parts.1] + rest.labels == labels + ([parts.1] + rest.labels);
      } else {
        assert data + [] == data && labels + [] == labels;
      }
    }
  }

  /** read never clears: a second read of a file that reads cleanly holds every row twice. */
  lemma ReadTwiceDuplicates(lines: seq<string>, sep: char, labelsAtEnd: bool, stod: string -> Conversion)
    requires LinesRead([], [], lines, sep, labelsAtEnd, stod).result.Pass?
    ensures var once := LinesRead([], [], lines, sep, labelsAtEnd, stod);
      LinesRead(once.data, once.labels, lines, sep, labelsAtEnd, stod) == Loaded(once.data + once.data, once.labels + once.labels, Pass)
  {
    var once := LinesRead([], [], lines, sep, labelsAtEnd, stod);
    LinesReadFrom(once.data, once.labels, lines, sep, labelsAtEnd, stod);
  }

  /** CSVReader: the separator, where the label sits, whether a header comes first, and the rows read. */
  class Reader {
    const separator: char
    const labelsAtEnd: bool
    const hasHeader: bool
    var data: Rows
    var labels: Rows

    /** CSVReader(filename, separator, labelsAtEnd, hasHeader): nothing read yet. */
    constructor(separator: char, labelsAtEnd: bool, hasHeader: bool)
      ensures this.separator == separator && this.labelsAtEnd == labelsAtEnd && this.hasHeader == hasHeader
      ensures data == [] && labels == []
    {
      this.separator := separator;
      this.labelsAtEnd := labelsAtEnd;
      this.hasHeader := hasHeader;
      data := [];
      labels := [];
    }

    /** split(line): the getline tokens of line. */
    method SplitLine(line: string) returns (tokens: seq<string>)
      ensures tokens == Split(line, separator)
    {
      hide Split;
      tokens := [];
      var token: string := [];
      var i := 0;
      assert token + line[i..] == line;
      while i < |line|
        invariant 0 <= i <= |line|
        invariant separator !in token
        invariant Split(line, separator) == tokens + Split(token + line[i..], separator)
      {
        if line[i] == separator {
          assert token + line[i..] == token + [separator] + line[i + 1..];
          SplitAtSeparator(token, line[i + 1..], separator);
          tokens := tokens + [token];
          token := [];
          assert token + line[i + 1..] == line[i + 1..];
        } else {
          assert token + line[i..] == (token + [line[i]]) + line[i + 1..];
          token := token + [line[i]];
        }
        i := i + 1;
      }
      assert token + line[i..] == token;
      SplitLastField(token, separator);
      if token != [] {
        tokens := tokens + [token];
      }
    }

    /** toDouble(tokens): every token through stod, in order. */
    method ToDouble(tokens: seq<string>, stod: string -> Conversion) returns (r: Result<seq<real>>)
      ensures r == Values(tokens, stod)
    {
      var values: seq<real> := [];
      r := Ok(values);
      var i := 0;
      while i < |tokens| && r.Ok?
        invariant 0 <= i <= |tokens|
        invariant r == Values(tokens[..i], stod)
        invariant r.Ok? ==> r.value == values
        decreases |tokens| - i
      {
        assert tokens[..i + 1][..i] == tokens[..i];
        var c := stod(tokens[i]);
        if c.Number? {
          values := values + [c.value];
          r := Ok(values);
        } else {
          r := Err(Raised(c));
        }
        i := i + 1;
      }
      if r.Err? {
        ValuesErrSticks(tokens, i, stod);
      } else {
        assert tokens[..i] == tokens;
      }
    }

    /**
     * read(): the file's lines from after the header, each appended as a
     * data row and a label row; a file that does not open throws
     * runtime_error and a rejected token throws with the rows before it
     * kept.
     */
    method Read(file: Option<string>, stod: string -> Conversion) returns (r: Outcome)
      modifies this
      ensures file.None? ==> r == Fail(RuntimeError) && data == old(data) && labels == old(labels)
      ensures file.Some? ==>
        var l := LinesRead(old(data), old(labels), Lines(file.value, hasHeader), separator, labelsAtEnd, stod);
        data == l.data && labels == l.labels && r == l.result
    {
      if file.None? {
        return Fail(RuntimeError);
      }
      var lines := Lines(file.value, hasHeader);
      ghost var whole := LinesRead(data, labels, lines, separator, labelsAtEnd, stod);
      r := Pass;
      var i := 0;
      while i < |lines| && r.Pass?
        invariant 0 <= i <= |lines|
        invariant r.Pass? ==> whole == LinesRead(data, labels, lines[i..], separator, labelsAtEnd, stod)
        invariant r.Fail? ==> whole == Loaded(data, labels, r)
      {
        assert lines[i..][0] == lines[i] && lines[i..][1..] == lines[i + 1..];
        var tokens := SplitLine(lines[i]);
        if tokens != [] {
          var values := ToDouble(tokens, stod);
          match values
          case Err(e) =>
            r := Fail(e);
          case Ok(vs) =>
            ValuesAt(tokens, stod);
            var parts := Partition(vs, labelsAtEnd);
            data := data + [parts.0];
            labels := labels + [parts.1];
        }
        i := i + 1;
      }
      if r.Pass? {
        assert lines[i..] == [];
      }
    }
  }
}
