/** `std::istringstream` as far as the monitor uses it: extraction of integers and words,
    with the end-of-file and failure bits that decide when the parsing loop ends. */
module TextStream {

  /** What is left to read, and the two state bits. */
  datatype Stream = Stream(rest: string, eof: bool, fail: bool) {
    predicate Good() {
      !eof && !fail
    }
  }

  predicate IsSpace(c: char) {
    c == ' ' || c == '\n' || c == '\t' || c == '\r' || c == '\U{B}' || c == '\U{C}'
  }

  predicate IsDigit(c: char) {
    '0' <= c <= '9'
  }

  function DigitValue(c: char): nat
    requires IsDigit(c)
  {
    (c - '0') as nat
  }

  function SkipSpaces(s: string): (r: string)
    ensures |r| <= |s| && (r == "" || !IsSpace(r[0]))
  {
    if s != "" && IsSpace(s[0]) then SkipSpaces(s[1..]) else s
  }

  function ScanDigits(acc: nat, s: string): (r: (nat, string))
    ensures |r.1| <= |s| && (s != "" && IsDigit(s[0]) ==> |r.1| < |s|)
    decreases |s|
  {
    if s != "" && IsDigit(s[0]) then ScanDigits(10 * acc + DigitValue(s[0]), s[1..]) else (acc, s)
  }

  function ScanWord(acc: string, s: string): (r: (string, string))
    ensures |r.1| <= |s| && (s != "" && !IsSpace(s[0]) ==> |r.1| < |s|)
    decreases |s|
  {
    if s != "" && !IsSpace(s[0]) then ScanWord(acc + [s[0]], s[1..]) else (acc, s)
  }

  /** The sentry of a formatted extraction: it needs a good stream and something other than
      white space ahead. */
  function Sentry(st: Stream): (r: (Stream, bool))
    ensures |r.0.rest| <= |st.rest| && (r.1 ==> st.Good() && r.0.Good() && r.0.rest != "" && !IsSpace(r.0.rest[0]))
    ensures !r.1 ==> r.0.fail
  {
    if !st.Good() then (st.(fail := true), false)
    else
      var rest := SkipSpaces(st.rest);
      if rest == "" then (Stream("", true, true), false) else (Stream(rest, false, false), true)
  }

  /** `iss >> v` for an integer: the old value stays if the sentry says no; a token that is
      not a number sets the failure bit and yields 0. */
  function ExtractInt(st: Stream, was: int): (r: (Stream, int))
    ensures |r.0.rest| <= |st.rest| && (!r.0.fail ==> |r.0.rest| < |st.rest|)
  {
    var (st', ok) := Sentry(st);
    if !ok then (st', was)
    else
      var signed := st'.rest[0] == '-' || st'.rest[0] == '+';
      var digits := if signed then st'.rest[1..] else st'.rest;
      var (v, rest) := ScanDigits(0, digits);
      if digits == "" || !IsDigit(digits[0]) then (Stream(digits, digits == "", true), 0)
      else (Stream(rest, rest == "", false), if st'.rest[0] == '-' then 0 - v else v)
  }

  /** `iss >> word`: the old word stays if the sentry says no. */
  function ExtractWord(st: Stream, was: string): (r: (Stream, string))
    ensures |r.0.rest| <= |st.rest| && (!r.0.fail ==> |r.0.rest| < |st.rest|)
  {
    var (st', ok) := Sentry(st);
    if !ok then (st', was)
    else
      var (word, rest) := ScanWord("", st'.rest);
      (Stream(rest, rest == "", false), word)
  }

  // ----- decimal numerals -----

  function Decimal(n: nat): (s: string)
    ensures s != "" && forall i :: 0 <= i < |s| ==> IsDigit(s[i])
  {
    var last := ['0' + (n % 10) as char];
    if n < 10 then last else Decimal(n / 10) + last
  }

  function Fold(acc: nat, d: string): nat
    requires forall i :: 0 <= i < |d| ==> IsDigit(d[i])
    decreases |d|
  {
    if d == "" then acc else Fold(10 * acc + DigitValue(d[0]), d[1..])
  }

  lemma {:induction false} FoldSnoc(acc: nat, d: string, c: char)
    requires IsDigit(c) && forall i :: 0 <= i < |d| ==> IsDigit(d[i])
    ensures Fold(acc, d + [c]) == 10 * Fold(acc, d) + DigitValue(c)
    decreases |d|
  {
    if d == "" {
      assert [c][1..] == "";
    } else {
      FoldSnoc(10 * acc + DigitValue(d[0]), d[1..], c);
      assert (d + [c])[1..] == d[1..] + [c];
    }
  }

  lemma {:induction false} FoldDecimal(n: nat)
    ensures Fold(0, Decimal(n)) == n
  {
    if n < 10 {
      assert Decimal(n)[1..] == "";
    } else {
      FoldDecimal(n / 10);
      FoldSnoc(0, Decimal(n / 10), '0' + (n % 10) as char);
    }
  }

  predicate Ends(tail: string) {
    tail == "" || IsSpace(tail[0])
  }

  predicate Blank(s: string) {
    forall i :: 0 <= i < |s| ==> IsSpace(s[i])
  }

  lemma {:induction false} ScanDigitsAll(acc: nat, d: string, tail: string)
    requires (forall i :: 0 <= i < |d| ==> IsDigit(d[i])) && Ends(tail)
    ensures ScanDigits(acc, d + tail) == (Fold(acc, d), tail)
    decreases |d|
  {
    if d == "" {
      assert d + tail == tail;
    } else {
      ScanDigitsAll(10 * acc + DigitValue(d[0]), d[1..], tail);
      assert (d + tail)[1..] == d[1..] + tail;
    }
  }

  lemma {:induction false} ScanWordAll(acc: string, w: string, tail: string)
    requires (forall i :: 0 <= i < |w| ==> !IsSpace(w[i])) && Ends(tail)
    ensures ScanWord(acc, w + tail) == (acc + w, tail)
    decreases |w|
  {
    if w == "" {
      assert w + tail == tail && acc + w == acc;
    } else {
      ScanWordAll(acc + [w[0]], w[1..], tail);
      assert (w + tail)[1..] == w[1..] + tail;
      assert acc + [w[0]] + w[1..] == acc + w;
    }
  }

  lemma {:induction false} SkipBlank(gap: string, s: string)
    requires Blank(gap) && (s == "" || !IsSpace(s[0]))
    ensures SkipSpaces(gap + s) == s
  {
    if gap == "" {
      assert gap + s == s;
    } else {
      SkipBlank(gap[1..], s);
      assert (gap + s)[1..] == gap[1..] + s;
    }
  }

  /** Extracting a numeral after a gap gives its value and stops right behind it. */
  lemma IntToken(gap: string, n: nat, tail: string, was: int)
    requires Blank(gap) && Ends(tail)
    ensures ExtractInt(Stream(gap + Decimal(n) + tail, false, false), was)
         == (Stream(tail, tail == "", false), n)
  {
    var d := Decimal(n);
    assert gap + d + tail == gap + (d + tail) && (d + tail)[0] == d[0];
    SkipBlank(gap, d + tail);
    ScanDigitsAll(0, d, tail);
    FoldDecimal(n);
  }

  /** A sign in front of a numeral: a minus negates the value, a plus does not. */
  lemma SignedToken(gap: string, minus: bool, n: nat, tail: string, was: int)
    requires Blank(gap) && Ends(tail)
    ensures ExtractInt(Stream(gap + ((if minus then "-" else "+") + Decimal(n)) + tail, false, false), was)
         == (Stream(tail, tail == "", false), if minus then 0 - n as int else n as int)
  {
    var sign, d := if minus then "-" else "+", Decimal(n);
    assert gap + (sign + d) + tail == gap + (sign + (d + tail));
    SkipBlank(gap, sign + (d + tail));
    assert (sign + (d + tail))[1..] == d + tail && (d + tail)[0] == d[0];
    ScanDigitsAll(0, d, tail);
    FoldDecimal(n);
  }

  /** Something else than a number sets the failure bit, yields 0 and stays unread. */
  lemma NotANumber(gap: string, rest: string, was: int)
    requires Blank(gap) && rest != "" && !IsSpace(rest[0])
    requires rest[0] != '-' && rest[0] != '+' && !('0' <= rest[0] <= '9')
    ensures ExtractInt(Stream(gap + rest, false, false), was) == (Stream(rest, false, true), 0)
  {
    SkipBlank(gap, rest);
  }

  /** Extracting a word after a gap gives the word and stops right behind it. */
  lemma WordToken(gap: string, w: string, tail: string, was: string)
    requires Blank(gap) && Ends(tail) && w != "" && forall i :: 0 <= i < |w| ==> !IsSpace(w[i])
    ensures ExtractWord(Stream(gap + w + tail, false, false), was) == (Stream(tail, tail == "", false), w)
  {
    assert gap + w + tail == gap + (w + tail) && (w + tail)[0] == w[0];
    SkipBlank(gap, w + tail);
    ScanWordAll("", w, tail);
    assert "" + w == w;
  }

  // ----- the stream as an object -----

  class IStringStream {
    var st: Stream

    constructor (text: string)
      ensures st == Stream(text, false, false)
    {
      st := Stream(text, false, false);
    }

    /** The sentry, eating white space character by character. */
    method Prepare() returns (ok: bool)
      modifies this
      ensures (st, ok) == Sentry(old(st))
    {
      if !st.Good() {
        st := st.(fail := true);
        return false;
      }
      var rest := st.rest;
      while rest != "" && IsSpace(rest[0])
        invariant SkipSpaces(rest) == SkipSpaces(st.rest)
        decreases |rest|
      {
        rest := rest[1..];
      }
      ok := rest != "";
      st := Stream(rest, !ok, !ok);
    }

    /** `>>` into an integer. */
    method GetInt(was: int) returns (v: int)
      modifies this
      ensures (st, v) == ExtractInt(old(st), was)
    {
      var ok := Prepare();
      if !ok {
        return was;
      }
      var negative := st.rest[0] == '-';
      var rest := if negative || st.rest[0] == '+' then st.rest[1..] else st.rest;
      if rest == "" || !IsDigit(rest[0]) {
        st := Stream(rest, rest == "", true);
        return 0;
      }
      ghost var start := rest;
      var acc: nat := 0;
      while rest != "" && IsDigit(rest[0])
        invariant ScanDigits(acc, rest) == ScanDigits(0, start)
        decreases |rest|
      {
        acc, rest := 10 * acc + DigitValue(rest[0]), rest[1..];
      }
      st := Stream(rest, rest == "", false);
      v := if negative then 0 - acc else acc;
    }

    /** `>>` into a string. */
    method GetWord(was: string) returns (word: string)
      modifies this
      ensures (st, word) == ExtractWord(old(st), was)
    {
      var ok := Prepare();
      if !ok {
        return was;
      }
      var rest := st.rest;
      word := "";
      while rest != "" && !IsSpace(rest[0])
        invariant ScanWord(word, rest) == ScanWord("", st.rest)
        decreases |rest|
      {
        word, rest := word + [rest[0]], rest[1..];
      }
      st := Stream(rest, rest == "", false);
    }
  }
}
