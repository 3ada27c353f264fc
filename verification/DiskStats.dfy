/** `IoData::parse`: the loop `while (!iss.eof())` over the text of /proc/diskstats, one row
    of two numbers, a name and 17 columns per pass, summing column 10 of the rows whose name
    does not end in a digit. */
module DiskStats {
  import opened TextStream

  const COLUMNS := 17
  const BUSY := 10

  predicate EndsInDigit(name: string)
    requires name != ""
  {
    IsDigit(name[|name| - 1])
  }

  /** The loop's variables; `tmp` starts uninitialised, `name` empty. */
  datatype Vars = Vars(name: string, tmp: int, io: int)

  /** The inner loop from column i on. */
  function Columns(st: Stream, v: Vars, i: nat): (r: (Stream, Vars))
    requires v.name != ""
    ensures r.1.name == v.name
    ensures |r.0.rest| <= |st.rest| && (i <= COLUMNS && !r.0.fail ==> |r.0.rest| < |st.rest|)
    ensures st.fail ==> r.0.fail
    decreases COLUMNS + 1 - i, |st.rest|, v
  {
    if i > COLUMNS then (st, v)
    else
      var (st', tmp) := ExtractInt(st, v.tmp);
      var io := if i == BUSY && !EndsInDigit(v.name) then v.io + tmp else v.io;
      Columns(st', v.(tmp := tmp, io := io), i + 1)
  }

  /** The first three extractions of a pass. */
  function Heading(st: Stream, name: string): (r: (Stream, string))
    ensures |r.0.rest| <= |st.rest|
  {
    ExtractWord(ExtractInt(ExtractInt(st, 0).0, 0).0, name)
  }

  /** How the parse ends. `Undefined`: `back()` of an empty name. `Diverges`: the failure bit
      is set without end of file, so no later pass ever changes the stream. */
  datatype Result = Parsed(io: int) | Undefined | Diverges

  function Passes(st: Stream, v: Vars): Result
    decreases if st.eof then 0 else |st.rest| + 1
  {
    if st.eof then Parsed(v.io)
    else
      var (st1, name) := Heading(st, v.name);
      if name == "" then Undefined
      else
        var (st2, v2) := Columns(st1, v.(name := name), 1);
        if st2.fail && !st2.eof then Diverges else Passes(st2, v2)
  }

  /** A failed stream that is not at its end stays as it is for ever. */
  lemma {:induction false} StuckForever(st: Stream, v: Vars, i: nat)
    requires st.fail && !st.eof && v.name != ""
    ensures Heading(st, v.name) == (st, v.name)
    ensures Columns(st, v, i).0 == st && Columns(st, v, i).1.tmp == v.tmp
    decreases COLUMNS + 1 - i
  {
    if i <= COLUMNS {
      var io := if i == BUSY && !EndsInDigit(v.name) then v.io + v.tmp else v.io;
      StuckForever(st, v.(io := io), i + 1);
    }
  }

  /** The parser as an object: its field is what the caller reads afterwards. */
  class IoData {
    var ioRun: int

    constructor ()
      ensures ioRun == 0
    {
      ioRun := 0;
    }

    /** The inner loop. */
    method ReadColumns(iss: IStringStream, name: string, was: int) returns (tmp: int)
      requires name != ""
      modifies this, iss
      ensures (iss.st, Vars(name, tmp, ioRun)) == Columns(old(iss.st), Vars(name, was, old(ioRun)), 1)
    {
      tmp := was;
      ghost var all := Columns(iss.st, Vars(name, was, ioRun), 1);
      for i := 1 to COLUMNS + 1
        invariant Columns(iss.st, Vars(name, tmp, ioRun), i) == all
      {
        tmp := iss.GetInt(tmp);
        if i == BUSY && (name[|name| - 1] < '0' || name[|name| - 1] > '9') {
          ioRun := ioRun + tmp;
        }
      }
    }

    /** The three extractions before it. */
    method ReadHeading(iss: IStringStream, was: string) returns (name: string)
      modifies iss
      ensures (iss.st, name) == Heading(old(iss.st), was)
    {
      var _ := iss.GetInt(0);
      var _ := iss.GetInt(0);
      name := iss.GetWord(was);
    }

    /** `junk` is whatever the uninitialised `tmp` holds. */
    method Parse(text: string, junk: int) returns (result: Result)
      modifies this
      ensures result == Passes(Stream(text, false, false), Vars("", junk, old(ioRun)))
      ensures result.Parsed? ==> ioRun == result.io
    {
      var iss := new IStringStream(text);
      var name, tmp := "", junk;
      ghost var all := Passes(iss.st, Vars(name, tmp, ioRun));
      while !iss.st.eof
        invariant fresh(iss)
        invariant Passes(iss.st, Vars(name, tmp, ioRun)) == all
        decreases if iss.st.eof then 0 else |iss.st.rest| + 1
      {
        name := ReadHeading(iss, name);
        if name == "" {
          return Undefined;
        }
        tmp := ReadColumns(iss, name, tmp);
        if iss.st.fail && !iss.st.eof {
          return Diverges;
        }
      }
      return Parsed(ioRun);
    }
  }

  // ----- what it computes -----

  datatype RawRow = Row(major: nat, minor: nat, name: string, cols: seq<nat>)

  /** 17 columns, of which the tenth and the seventeenth (cols[9] and cols[16]) matter. */
  type Row = r: RawRow | |r.cols| == 17 && r.name != "" && forall i :: 0 <= i < |r.name| ==> !IsSpace(r.name[i])
    witness Row(8, 0, "sda", seq(17, i => 0))

  ghost function Numerals(cols: seq<nat>): (t: seq<string>)
    ensures |t| == |cols|
  {
    if cols == [] then [] else [Decimal(cols[0])] + Numerals(cols[1..])
  }

  ghost function RowTokens(r: Row): seq<string> {
    [Decimal(r.major), Decimal(r.minor), r.name] + Numerals(r.cols)
  }

  ghost function Tokens(rows: seq<Row>): seq<string> {
    if rows == [] then [] else RowTokens(rows[0]) + Tokens(rows[1..])
  }

  /** The tokens with a gap in front of each. */
  ghost function Text(tokens: seq<string>, gaps: seq<string>): string
    requires |tokens| == |gaps|
  {
    if tokens == [] then "" else gaps[0] + tokens[0] + Text(tokens[1..], gaps[1..])
  }

  ghost predicate Gaps(gaps: seq<string>) {
    && (forall i :: 0 <= i < |gaps| ==> Blank(gaps[i]))
    && (forall i :: 1 <= i < |gaps| ==> gaps[i] != "")
  }

  /** The stream is about to read these tokens and then the trailing white space. */
  ghost predicate At(st: Stream, tokens: seq<string>, gaps: seq<string>, trail: string) {
    && |tokens| == |gaps| && Gaps(gaps) && Blank(trail)
    && st.rest == Text(tokens, gaps) + trail
    && !st.fail && (st.eof <==> tokens == [] && trail == "")
  }

  /** The name of a whole disk: its last character is not a digit. */
  ghost predicate WholeDisk(name: string)
    requires name != ""
  {
    name[|name| - 1] < '0' || '9' < name[|name| - 1]
  }

  /** Column 10 summed over the rows that name whole disks. */
  ghost function Busy(rows: seq<Row>): int {
    if rows == [] then 0 else (if WholeDisk(rows[0].name) then rows[0].cols[9] else 0) + Busy(rows[1..])
  }

  lemma TextEnds(tokens: seq<string>, gaps: seq<string>, trail: string)
    requires |tokens| == |gaps| && Blank(trail)
    requires forall i :: 0 <= i < |gaps| ==> Blank(gaps[i]) && gaps[i] != ""
    ensures Ends(Text(tokens, gaps) + trail)
    ensures Text(tokens, gaps) + trail == "" ==> tokens == []
  {
    if tokens != [] {
      assert (Text(tokens, gaps) + trail)[0] == gaps[0][0];
    }
  }

  lemma NextInt(st: Stream, n: nat, tokens: seq<string>, gaps: seq<string>, trail: string, was: int)
    requires At(st, [Decimal(n)] + tokens, gaps, trail)
    ensures ExtractInt(st, was).1 == n && At(ExtractInt(st, was).0, tokens, gaps[1..], trail)
  {
    var tail := Text(tokens, gaps[1..]) + trail;
    assert ([Decimal(n)] + tokens)[1..] == tokens;
    assert st.rest == gaps[0] + Decimal(n) + tail;
    TextEnds(tokens, gaps[1..], trail);
    IntToken(gaps[0], n, tail, was);
  }

  lemma NextWord(st: Stream, w: string, tokens: seq<string>, gaps: seq<string>, trail: string, was: string)
    requires At(st, [w] + tokens, gaps, trail)
    requires w != "" && forall i :: 0 <= i < |w| ==> !IsSpace(w[i])
    ensures ExtractWord(st, was).1 == w && At(ExtractWord(st, was).0, tokens, gaps[1..], trail)
  {
    var tail := Text(tokens, gaps[1..]) + trail;
    assert ([w] + tokens)[1..] == tokens;
    assert st.rest == gaps[0] + w + tail;
    TextEnds(tokens, gaps[1..], trail);
    WordToken(gaps[0], w, tail, was);
  }

  lemma HeadingRow(st: Stream, r: Row, more: seq<string>, gaps: seq<string>, trail: string, was: string)
    requires At(st, RowTokens(r) + more, gaps, trail)
    ensures |gaps| >= 3
    ensures Heading(st, was).1 == r.name && At(Heading(st, was).0, Numerals(r.cols) + more, gaps[3..], trail)
  {
    var t := Numerals(r.cols) + more;
    assert RowTokens(r) + more == [Decimal(r.major)] + ([Decimal(r.minor)] + ([r.name] + t));
    NextInt(st, r.major, [Decimal(r.minor)] + ([r.name] + t), gaps, trail, 0);
    var st1 := ExtractInt(st, 0).0;
    NextInt(st1, r.minor, [r.name] + t, gaps[1..], trail, 0);
    var st2 := ExtractInt(st1, 0).0;
    NextWord(st2, r.name, t, gaps[1..][1..], trail, was);
    assert gaps[1..][1..][1..] == gaps[3..];
  }

  lemma {:induction false} ColumnsRow(st: Stream, v: Vars, i: nat, cols: seq<nat>, more: seq<string>,
                                      gaps: seq<string>, trail: string)
    requires v.name != "" && 1 <= i <= COLUMNS && |cols| == COLUMNS + 1 - i
    requires At(st, Numerals(cols) + more, gaps, trail)
    ensures |gaps| >= |cols|
    ensures At(Columns(st, v, i).0, more, gaps[|cols|..], trail)
    ensures Columns(st, v, i).1 ==
      v.(tmp := cols[|cols| - 1], io := if i <= BUSY && !EndsInDigit(v.name) then v.io + cols[BUSY - i] else v.io)
    decreases |cols|
  {
    assert Numerals(cols) + more == [Decimal(cols[0])] + (Numerals(cols[1..]) + more);
    NextInt(st, cols[0], Numerals(cols[1..]) + more, gaps, trail, v.tmp);
    var (st', tmp) := ExtractInt(st, v.tmp);
    var v' := v.(tmp := tmp, io := if i == BUSY && !EndsInDigit(v.name) then v.io + tmp else v.io);
    if i == COLUMNS {
      assert Numerals(cols[1..]) + more == more;
      assert Columns(st, v, i) == (st', v');
    } else {
      ColumnsRow(st', v', i + 1, cols[1..], more, gaps[1..], trail);
      assert gaps[1..][|cols[1..]|..] == gaps[|cols|..];
    }
  }

  /** A pass over trailing white space alone: nothing is extracted, every variable keeps
      its value, and `tmp` is added once more. */
  lemma {:induction false} ExtraColumns(st: Stream, v: Vars, i: nat)
    requires st.eof && st.fail && v.name != ""
    ensures Columns(st, v, i) == (st, v.(io := if i <= BUSY && !EndsInDigit(v.name) then v.io + v.tmp else v.io))
    decreases COLUMNS + 1 - i
  {
    if i <= COLUMNS {
      ExtraColumns(st, v.(io := if i == BUSY && !EndsInDigit(v.name) then v.io + v.tmp else v.io), i + 1);
    }
  }

  lemma ExtraPass(st: Stream, v: Vars)
    requires Blank(st.rest) && st.Good() && v.name != ""
    ensures Passes(st, v) == Parsed(if EndsInDigit(v.name) then v.io else v.io + v.tmp)
  {
    SkipBlank(st.rest, "");
    assert st.rest + "" == st.rest;
    var end := Stream("", true, true);
    assert Heading(st, v.name) == (end, v.name);
    ExtraColumns(end, v, 1);
  }

  /** The variables after a row. */
  ghost function AfterRow(v: Vars, r: Row): Vars {
    Vars(r.name, r.cols[16], if WholeDisk(r.name) then v.io + r.cols[9] else v.io)
  }

  /** The extractions of one pass over a row. */
  lemma RowRead(st: Stream, v: Vars, r: Row, more: seq<string>, gaps: seq<string>, trail: string)
    requires At(st, RowTokens(r) + more, gaps, trail)
    ensures |gaps| >= 3 + COLUMNS && Heading(st, v.name).1 == r.name
    ensures var (st2, v2) := Columns(Heading(st, v.name).0, v.(name := r.name), 1);
      At(st2, more, gaps[3 + COLUMNS..], trail) && v2 == AfterRow(v, r)
  {
    HeadingRow(st, r, more, gaps, trail, v.name);
    ColumnsRow(Heading(st, v.name).0, v.(name := r.name), 1, r.cols, more, gaps[3..], trail);
    assert gaps[3..][COLUMNS..] == gaps[3 + COLUMNS..];
  }

  lemma PassStep(st: Stream, v: Vars, st2: Stream, v2: Vars)
    requires !st.eof && Heading(st, v.name).1 != "" && !st2.fail
    requires Columns(Heading(st, v.name).0, v.(name := Heading(st, v.name).1), 1) == (st2, v2)
    ensures Passes(st, v) == Passes(st2, v2)
  {
  }

  /** One pass of the outer loop reads one row. */
  lemma RowPass(st: Stream, v: Vars, r: Row, more: seq<string>, gaps: seq<string>, trail: string)
    returns (st2: Stream)
    requires At(st, RowTokens(r) + more, gaps, trail)
    ensures |gaps| >= 3 + COLUMNS && At(st2, more, gaps[3 + COLUMNS..], trail)
    ensures Passes(st, v) == Passes(st2, AfterRow(v, r))
  {
    RowRead(st, v, r, more, gaps, trail);
    st2 := Columns(Heading(st, v.name).0, v.(name := r.name), 1).0;
    PassStep(st, v, st2, AfterRow(v, r));
  }

  /** What trailing white space adds after the last row. */
  ghost function Extra(last: Row, trail: string): int {
    if trail != "" && WholeDisk(last.name) then last.cols[16] else 0
  }

  lemma AfterLastRow(st: Stream, v: Vars, r: Row, gaps: seq<string>, trail: string)
    requires At(st, [], gaps, trail)
    ensures Passes(st, AfterRow(v, r)) == Parsed(AfterRow(v, r).io + Extra(r, trail))
  {
    assert st.rest == trail;
    if trail != "" {
      ExtraPass(st, AfterRow(v, r));
    }
  }

  /** The sum as it builds up row by row. */
  ghost function RunningSum(v: Vars, rows: seq<Row>, trail: string): int
    requires rows != []
    decreases |rows|
  {
    var v2 := AfterRow(v, rows[0]);
    if |rows| == 1 then v2.io + Extra(rows[0], trail) else RunningSum(v2, rows[1..], trail)
  }

  lemma {:induction false} RunningSumExact(v: Vars, rows: seq<Row>, trail: string)
    requires rows != []
    ensures RunningSum(v, rows, trail) == v.io + Busy(rows) + Extra(rows[|rows| - 1], trail)
    decreases |rows|
  {
    if |rows| == 1 {
      assert rows[1..] == [];
    } else {
      RunningSumExact(AfterRow(v, rows[0]), rows[1..], trail);
      assert rows[1..][|rows| - 2] == rows[|rows| - 1];
    }
  }

  lemma {:induction false} ParseRows(st: Stream, v: Vars, rows: seq<Row>, gaps: seq<string>, trail: string)
    requires rows != []
    requires At(st, Tokens(rows), gaps, trail)
    ensures Passes(st, v) == Parsed(RunningSum(v, rows, trail))
    decreases |rows|
  {
    var st2 := RowPass(st, v, rows[0], Tokens(rows[1..]), gaps, trail);
    if |rows| == 1 {
      AfterLastRow(st2, v, rows[0], gaps[3 + COLUMNS..], trail);
    } else {
      ParseRows(st2, AfterRow(v, rows[0]), rows[1..], gaps[3 + COLUMNS..], trail);
    }
  }

  /** For the text of any non-empty list of rows, however it is spaced: the parser returns
      column 10 summed over the names that do not end in a digit, plus the last row's column
      17 once more exactly when white space follows it and its name does not end in a digit. */
  lemma ParseExact(rows: seq<Row>, gaps: seq<string>, trail: string, junk: int)
    requires rows != []
    requires |gaps| == |Tokens(rows)| && Gaps(gaps) && Blank(trail)
    ensures Passes(Stream(Text(Tokens(rows), gaps) + trail, false, false), Vars("", junk, 0))
         == Parsed(Busy(rows) + Extra(rows[|rows| - 1], trail))
  {
    ParseRows(Stream(Text(Tokens(rows), gaps) + trail, false, false), Vars("", junk, 0), rows, gaps, trail);
    RunningSumExact(Vars("", junk, 0), rows, trail);
  }

  /** The rows name the same disks with the same column 10, and the last ones the same column
      17; everything else in them may differ. */
  ghost predicate Agree(rows: seq<Row>, others: seq<Row>) {
    && |rows| == |others|
    && (forall i :: 0 <= i < |rows| ==> rows[i].name == others[i].name && rows[i].cols[9] == others[i].cols[9])
    && (rows != [] ==> rows[|rows| - 1].cols[16] == others[|rows| - 1].cols[16])
  }

  lemma {:induction false} SameBusy(rows: seq<Row>, others: seq<Row>)
    requires |rows| == |others|
    requires forall i :: 0 <= i < |rows| ==> rows[i].name == others[i].name && rows[i].cols[9] == others[i].cols[9]
    ensures Busy(rows) == Busy(others)
    decreases |rows|
  {
    if rows != [] {
      SameBusy(rows[1..], others[1..]);
    }
  }

  /** Rows, white space in front of each of their tokens, and white space behind the last. */
  datatype Table = Table(rows: seq<Row>, gaps: seq<string>, trail: string) {
    ghost predicate WellFormed() {
      rows != [] && |gaps| == |Tokens(rows)| && Gaps(gaps) && Blank(trail)
    }

    ghost function Content(): string
      requires WellFormed()
    {
      Text(Tokens(rows), gaps) + trail
    }

    ghost function Value(): int
      requires rows != []
    {
      Busy(rows) + Extra(rows[|rows| - 1], trail)
    }
  }

  lemma TableExact(t: Table, junk: int)
    requires t.WellFormed()
    ensures Passes(Stream(t.Content(), false, false), Vars("", junk, 0)) == Parsed(t.Value())
  {
    ParseExact(t.rows, t.gaps, t.trail, junk);
  }

  lemma SameValue(t: Table, u: Table)
    requires t.rows != [] && Agree(t.rows, u.rows) && t.trail == u.trail
    ensures t.Value() == u.Value()
  {
    SameBusy(t.rows, u.rows);
  }

  /** No other column of any row, and no device number, has any influence on the result,
      however the two texts are spaced. */
  lemma OnlyTwoColumnsCount(t: Table, u: Table, junk: int, junk': int)
    requires t.WellFormed() && u.WellFormed() && Agree(t.rows, u.rows) && t.trail == u.trail
    ensures Passes(Stream(t.Content(), false, false), Vars("", junk, 0))
         == Passes(Stream(u.Content(), false, false), Vars("", junk', 0))
  {
    TableExact(t, junk);
    TableExact(u, junk');
    SameValue(t, u);
  }
}
