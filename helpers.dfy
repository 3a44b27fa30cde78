/** usefull/helpers.py: the results table (create once, append rows), the
    `TimeMeasure` stopwatch and its duration formatting. */
module Helpers {
  import opened Values
  import Decimal

  /** A reading of the wall clock (`datetime.now().timestamp()`), in whole
      hundredths of a second since the epoch. Every reading after 1970 is
      positive, which is what keeps `end_time == 0` a sound "not stopped" mark. */
  type Instant = t: int | t > 0 witness 1

  /** One day, in hundredths of a second. */
  const DayCentis: int := 86400 * 100

  /** `int(x)` of a duration x given in hundredths of a second: Python
      truncates toward zero, so the fraction of a second is dropped on
      either side of zero. */
  function WholeSeconds(d: int): (r: int)
    ensures r % 100 == 0
    ensures 0 <= d ==> 0 <= r <= d && d - r < 100
    ensures d < 0 ==> d <= r <= 0 && r - d < 100
    ensures r == d <==> d % 100 == 0
  {
    if d >= 0 then d / 100 * 100 else -((-d) / 100 * 100)
  }

  // ---------------------------------------------------------------------
  // Duration text

  lemma {:induction false} DigitsHaveNoDot(s: string)
    requires Decimal.AllDigits(s)
    ensures '.' !in s && ':' !in s
  {
    if s != [] {
      assert s == [s[0]] + s[1..];
      DigitsHaveNoDot(s[1..]);
    }
  }

  /** The `H:MM:SS` part of `str(timedelta(...))` for a whole number of
      seconds below one day. */
  function ClockText(secs: int): (r: string)
    requires 0 <= secs < 86400
    ensures '.' !in r
    ensures |r| == 7 || |r| == 8
    ensures r[|r| - 6] == ':' && r[|r| - 3] == ':'
    ensures r[..|r| - 6] == Decimal.Text(secs / 3600)
  {
    ClockFieldsFit(secs);
    var h := Decimal.Text(secs / 3600);
    var m := Decimal.ZeroPadded(secs / 60 % 60, 2);
    var s := Decimal.ZeroPadded(secs % 60, 2);
    ClockLayout(h, m, s);
    h + ":" + m + ":" + s
  }

  /** Below one day the hours take one or two digits and the minutes and
      seconds exactly two. */
  lemma ClockFieldsFit(secs: int)
    requires 0 <= secs < 86400
    ensures |Decimal.Text(secs / 3600)| <= 2
    ensures |Decimal.ZeroPadded(secs / 60 % 60, 2)| == 2 && |Decimal.ZeroPadded(secs % 60, 2)| == 2
  {
    assert Decimal.Pow10(2) == 100;
    Decimal.TextLength(secs / 3600, 2);
    Decimal.PaddedFits(secs / 60 % 60, 2);
    Decimal.PaddedFits(secs % 60, 2);
  }

  /** Where the colons of `H:MM:SS` sit, and that there is no dot. */
  lemma ClockLayout(h: string, m: string, s: string)
    requires 1 <= |h| <= 2 && |m| == 2 && |s| == 2
    requires Decimal.AllDigits(h) && Decimal.AllDigits(m) && Decimal.AllDigits(s)
    ensures var r := h + ":" + m + ":" + s;
      '.' !in r && (|r| == 7 || |r| == 8) &&
      r[|r| - 6] == ':' && r[|r| - 3] == ':' && r[..|r| - 6] == h
  {
    DigitsHaveNoDot(h);
    DigitsHaveNoDot(m);
    DigitsHaveNoDot(s);
    var r := h + ":" + m + ":" + s;
    assert r[..|r| - 6] == h;
  }

  /** Reads `H:MM:SS` back into seconds; the inverse of ClockText. */
  function ParseClock(s: string): Option<int>
  {
    if |s| < 7 || s[|s| - 6] != ':' || s[|s| - 3] != ':' then None
    else ClockFields(s[..|s| - 6], s[|s| - 5..|s| - 3], s[|s| - 2..])
  }

  function ClockFields(h: string, m: string, sec: string): Option<int>
  {
    if Decimal.AllDigits(h) && Decimal.AllDigits(m) && Decimal.AllDigits(sec)
       && Decimal.NumberOf(m) < 60 && Decimal.NumberOf(sec) < 60
    then Some(Decimal.NumberOf(h) * 3600 + Decimal.NumberOf(m) * 60 + Decimal.NumberOf(sec))
    else None
  }

  lemma SplitsAtColons(h: string, m: string, sec: string)
    requires 1 <= |h| && |m| == 2 && |sec| == 2
    ensures ParseClock(h + ":" + m + ":" + sec) == ClockFields(h, m, sec)
  {
    var r := h + ":" + m + ":" + sec;
    var n := |r|;
    assert r[n - 6] == ':' by { assert r[n - 6] == r[|h|]; }
    assert r[n - 3] == ':' by { assert r[n - 3] == r[|h| + 3]; }
    assert r[..n - 6] == h;
    assert r[n - 5..n - 3] == m;
    assert r[n - 2..] == sec;
  }

  lemma SplitSeconds(secs: int)
    requires 0 <= secs
    ensures secs == secs / 3600 * 3600 + secs / 60 % 60 * 60 + secs % 60
  {
    var mins := secs / 60;
    assert secs == mins * 60 + secs % 60;
    assert mins == mins / 60 * 60 + mins % 60;
    assert secs / 3600 == mins / 60;
  }

  /** The three fields of `H:MM:SS` read back to the seconds they came from. */
  lemma ReadsClockFields(secs: int)
    requires 0 <= secs < 86400
    ensures ClockFields(Decimal.Text(secs / 3600), Decimal.ZeroPadded(secs / 60 % 60, 2),
                        Decimal.ZeroPadded(secs % 60, 2)) == Some(secs)
  {
    SplitSeconds(secs);
  }

  lemma ClockRoundTrip(secs: int)
    requires 0 <= secs < 86400
    ensures ParseClock(ClockText(secs)) == Some(secs)
  {
    ClockFieldsFit(secs);
    var h := Decimal.Text(secs / 3600);
    var m := Decimal.ZeroPadded(secs / 60 % 60, 2);
    var sec := Decimal.ZeroPadded(secs % 60, 2);
    assert ClockText(secs) == h + ":" + m + ":" + sec;
    SplitsAtColons(h, m, sec);
    ReadsClockFields(secs);
  }

  /** `str(timedelta(seconds=c / 100))` for 0 <= c < one day: `H:MM:SS`,
      followed by `.` and six digits of microseconds when c is not a whole
      number of seconds. */
  function TimedeltaText(c: int): (r: string)
    requires 0 <= c < DayCentis
    ensures '.' in r <==> c % 100 != 0
    ensures |r| == |ClockText(c / 100)| + (if c % 100 == 0 then 0 else 7)
    ensures c % 100 != 0 ==> r[|r| - 7] == '.'
  {
    var clock, fraction := ClockText(c / 100), Fraction(c);
    assert fraction != [] ==> (clock + fraction)[|clock|] == '.';
    clock + fraction
  }

  function Fraction(c: int): (f: string)
    requires 0 <= c
    ensures f == [] <==> c % 100 == 0
    ensures f != [] ==> |f| == 7 && f[0] == '.'
    ensures f != [] ==> Decimal.AllDigits(f[1..]) && Decimal.NumberOf(f[1..]) == c % 100 * 10000
  {
    if c % 100 == 0 then ""
    else
      var micro := Decimal.ZeroPadded(c % 100 * 10000, 6);
      Decimal.PaddedFits(c % 100 * 10000, 6);
      assert ("." + micro)[1..] == micro;
      "." + micro
  }

  /** `s.split(".")[0]`: the text before the first `.`, or all of s. */
  function BeforeFirstDot(s: string): (r: string)
    ensures '.' !in r
    ensures |r| <= |s| && r == s[..|r|]
    ensures |r| < |s| ==> s[|r|] == '.'
  {
    if s == [] || s[0] == '.' then []
    else
      var rest := BeforeFirstDot(s[1..]);
      assert s[1..][..|rest|] == s[1..|rest| + 1];
      [s[0]] + rest
  }

  /** Cutting at the first `.` removes exactly a tail that starts with `.`. */
  lemma {:induction false} CutsAtDot(a: string, b: string)
    requires '.' !in a
    requires b == [] || b[0] == '.'
    ensures BeforeFirstDot(a + b) == a
  {
    if a == [] {
      assert a + b == b;
    } else {
      assert a[0] in a;
      assert (a + b)[1..] == a[1..] + b;
      CutsAtDot(a[1..], b);
    }
  }

  // ---------------------------------------------------------------------
  // The stopwatch

  /** `TimeMeasure`. All three fields hold hundredths of a second; the
      getter's `round(..., 2)` is exact on them. The logging callback is not
      part of this model. */
  class TimeMeasure {
    var startTime: int
    var endTime: int
    /** `_elapsed_seconds` */
    var elapsed: int

    constructor()
      ensures startTime == 0 && endTime == 0 && elapsed == 0
    {
      startTime, endTime, elapsed := 0, 0, 0;
    }

    /** The `elapsed_seconds` getter. It overwrites the stored elapsed time
        with end - start once stopped, and with now - start (`now` being the
        clock reading it takes) while `endTime` is still 0. */
    method ElapsedSeconds(now: Instant) returns (r: int)
      modifies this
      ensures startTime == old(startTime) && endTime == old(endTime)
      ensures endTime == 0 ==> r == now - startTime
      ensures endTime != 0 ==> r == endTime - startTime
      ensures elapsed == r
    {
      if endTime == 0 {
        elapsed := now - startTime;
      } else {
        elapsed := endTime - startTime;
      }
      r := elapsed;
    }

    /** The `elapsed_seconds` setter. */
    method SetElapsedSeconds(value: int)
      modifies this
      ensures startTime == old(startTime) && endTime == old(endTime)
      ensures elapsed == value
    {
      elapsed := value;
    }

    method Start(now: Instant) returns (r: int)
      modifies this
      ensures startTime == now && r == now
      ensures endTime == old(endTime) && elapsed == old(elapsed)
    {
      startTime := now;
      r := startTime;
    }

    /** Stores the truncated whole seconds first, but both later getter
        reads overwrite them: what stays, and what is returned, is the
        unrounded end - start. */
    method Stop(now: Instant) returns (r: int)
      modifies this
      ensures startTime == old(startTime) && endTime == now
      ensures r == now - startTime && elapsed == r
    {
      endTime := now;
      SetElapsedSeconds(WholeSeconds(endTime - startTime));
      // The log message reads the getter once; endTime is set, so the
      // clock is not consulted.
      var logged := ElapsedSeconds(now);
      r := ElapsedSeconds(now);
    }

    /** `seconds_to_time_string` of c hundredths of a second: the timedelta
        text with everything from the first `.` removed, which leaves the
        whole seconds of c as `H:MM:SS`. */
    static function SecondsToTimeString(c: int): (r: string)
      requires 0 <= c < DayCentis
      ensures '.' !in r
      ensures r == ClockText(c / 100)
    {
      CutsAtDot(ClockText(c / 100), Fraction(c));
      BeforeFirstDot(TimedeltaText(c))
    }
  }

  /** The duration text reads back as the whole seconds of its input. */
  lemma TimeStringRoundTrip(c: int)
    requires 0 <= c < DayCentis
    ensures ParseClock(TimeMeasure.SecondsToTimeString(c)) == Some(c / 100)
  {
    ClockRoundTrip(c / 100);
  }

  /** For whole seconds the text is timedelta's own; otherwise exactly the
      `.ffffff` microseconds part of it is dropped. */
  lemma ChopsOnlyFraction(c: int)
    requires 0 <= c < DayCentis
    ensures c % 100 == 0 ==> TimeMeasure.SecondsToTimeString(c) == TimedeltaText(c)
    ensures c % 100 != 0 ==> exists micro: string ::
      |micro| == 6 && Decimal.AllDigits(micro) &&
      TimedeltaText(c) == TimeMeasure.SecondsToTimeString(c) + "." + micro
  {
    if c % 100 != 0 {
      var micro := Decimal.ZeroPadded(c % 100 * 10000, 6);
      Decimal.PaddedFits(c % 100 * 10000, 6);
      assert TimedeltaText(c) == TimeMeasure.SecondsToTimeString(c) + "." + micro;
    }
  }

  // ---------------------------------------------------------------------
  // The results table

  /** The file system as far as the harness uses it: each existing csv file
      by path, as the table of rows it holds. */
  class FileStore {
    var files: map<string, seq<Row>>

    constructor(files: map<string, seq<Row>>)
      ensures this.files == files
    {
      this.files := files;
    }
  }

  /** The rows of a file, where an absent file reads as empty. */
  function Contents(files: map<string, seq<Row>>, path: string): seq<Row>
  {
    if path in files then files[path] else []
  }

  /** The files after `create_csv_file(path, header)`. */
  function WithHeader(files: map<string, seq<Row>>, path: string, header: Row): (r: map<string, seq<Row>>)
    ensures path in r
    ensures path in files ==> r == files
    ensures path !in files ==> r[path] == [header] && r - {path} == files - {path}
  {
    if path in files then files else files[path := [header]]
  }

  /** Creating the file a second time, with whatever header, changes nothing. */
  lemma HeaderIdempotent(files: map<string, seq<Row>>, path: string, header: Row, again: Row)
    ensures WithHeader(WithHeader(files, path, header), path, again) == WithHeader(files, path, header)
  {
  }

  method CreateCsvFile(store: FileStore, path: string, header: Row)
    modifies store
    ensures store.files == WithHeader(old(store.files), path, header)
  {
    if path !in store.files {
      store.files := store.files[path := [header]];
    }
  }

  /** The rows `csv.writer` makes and how the call ends. */
  datatype Write = Write(rows: seq<Row>, status: Status)

  /** A value iterated as a csv row: a list gives its items, a str its
      characters; anything else is not iterable. */
  function AsRow(v: Value): (r: Option<Row>)
    ensures r.Some? <==> v.List? || v.Text?
    ensures v.List? ==> r == Some(v.items)
    ensures v.Text? ==> |r.value| == |v.s|
  {
    match v
    case List(items) => Some(items)
    case Text(s) => Some(Chars(s))
    case _ => None
  }

  /** The one-character strings of s, in order. */
  function Chars(s: string): (row: Row)
    ensures |row| == |s|
    ensures forall i :: 0 <= i < |s| ==> row[i] == Text([s[i]])
  {
    if s == [] then [] else [Text([s[0]])] + Chars(s[1..])
  }

  /** `writer.writerows(data)`: one row per element, in order, until an
      element that is not iterable raises csv's `Error`; the rows before it
      are already written. */
  function WriterRows(data: seq<Value>): (w: Write)
    ensures |w.rows| <= |data|
    ensures forall k :: 0 <= k < |w.rows| ==> AsRow(data[k]) == Some(w.rows[k])
    ensures w.status.Done? <==> |w.rows| == |data|
    ensures w.status.Raised? ==> w.status == Raised("Error") && AsRow(data[|w.rows|]).None?
  {
    if data == [] then Write([], Done)
    else match AsRow(data[0])
      case None => Write([], Raised("Error"))
      case Some(row) =>
        var rest := WriterRows(data[1..]);
        Write([row] + rest.rows, rest.status)
  }

  /** What `append_to_csv_file(path, data)` adds to the file: all rows of
      data when `data[0]` is a list, data itself as one row otherwise, and
      an `IndexError` before anything is written when data is empty. */
  function AppendedRows(data: seq<Value>): (w: Write)
    ensures data == [] ==> w == Write([], Raised("IndexError"))
    ensures data != [] && !data[0].List? ==> w == Write([data], Done)
    ensures data != [] && data[0].List? ==> w == WriterRows(data) && |w.rows| >= 1
  {
    if data == [] then Write([], Raised("IndexError"))
    else if data[0].List? then WriterRows(data)
    else Write([data], Done)
  }

  /** The file is opened for appending first, so an absent file exists
      afterwards even when writing then fails. */
  method AppendToCsvFile(store: FileStore, path: string, data: seq<Value>) returns (status: Status)
    modifies store
    ensures var w := AppendedRows(data);
      store.files == old(store.files)[path := Contents(old(store.files), path) + w.rows] &&
      status == w.status
  {
    var w := AppendedRows(data);
    store.files := store.files[path := Contents(store.files, path) + w.rows];
    status := w.status;
  }

  /** Rows given as a list of lists. */
  function Lists(rows: seq<Row>): (data: seq<Value>)
    ensures |data| == |rows|
    ensures forall k :: 0 <= k < |rows| ==> data[k] == List(rows[k])
  {
    if rows == [] then [] else [List(rows[0])] + Lists(rows[1..])
  }

  /** writerows over a list of lists writes every row, in order. */
  lemma {:induction false} WritesAllLists(rows: seq<Row>)
    ensures WriterRows(Lists(rows)) == Write(rows, Done)
  {
    if rows != [] {
      WritesAllLists(rows[1..]);
      assert [rows[0]] + rows[1..] == rows;
    }
  }

  /** A batch of rows is appended whole and in order. */
  lemma AppendBatch(rows: seq<Row>)
    requires rows != []
    ensures AppendedRows(Lists(rows)) == Write(rows, Done)
  {
    WritesAllLists(rows);
  }
}
