/**
 * The analysis of the gripper-write log: each non-blank line is one write record, the
 * records are grouped by the program that wrote them, and when more than one program
 * wrote, the records in time order are scanned for writes by different programs less
 * than 0.1 s apart. The verdict names who writes the gripper.
 */
module GripperWriteLog {
  import opened Wrappers
  import opened Text

  /** One record of the log: when, by which program, from which process, and the value. */
  datatype Entry = Entry(timestamp: real, source: string, pid: int, value: int)

  /** Two writes by different programs in quick succession, and the time between them. */
  datatype Conflict = Conflict(first: Entry, second: Entry, gap: real)

  datatype Verdict =
    | OnlyLeRobot
    | OnlyExternal
    | OnlySource(name: string)
    | BothWrite
    | NoWrites

  datatype Analysis =
    | NoLogFile
    | EmptyLog
    | Malformed(line: nat)
    | Report(
        total: nat,
        sources: seq<string>,
        groups: map<string, seq<Entry>>,
        timeline: Option<seq<Conflict>>,
        shown: seq<Conflict>,
        verdict: Verdict)

  /** Two writes closer than this are a conflict. */
  const ConflictWindow: real := 0.1

  /** At most this many conflicts are listed. */
  const ShownConflicts: nat := 5

  // ---------------------------------------------------------------- reading

  /** `not line.strip()`: every character is white space (`StripEmptyIffBlank`). */
  predicate Blank(line: string) {
    forall i :: 0 <= i < |line| ==> IsSpace(line[i])
  }

  /**
   * The records of the log file: blank lines are skipped and every other line is decoded
   * once; the first line that does not decode stops the analysis.
   */
  function Parsed(lines: seq<string>, decode: string -> Option<Entry>): (r: Result<seq<Entry>, nat>)
    ensures r.Ok? <==> forall i :: 0 <= i < |lines| && !Blank(lines[i]) ==> decode(lines[i]).Some?
    ensures r.Err? ==> r.error < |lines| && !Blank(lines[r.error]) && decode(lines[r.error]).None?
    ensures r.Err? ==> forall i :: 0 <= i < r.error ==> Blank(lines[i]) || decode(lines[i]).Some?
    ensures r.Ok? ==> |r.value| <= |lines|
    ensures r.Ok? ==> forall x :: x in r.value ==>
      exists i :: 0 <= i < |lines| && !Blank(lines[i]) && decode(lines[i]) == Some(x)
  {
    if lines == [] then Ok([])
    else
      var n := |lines| - 1;
      match Parsed(lines[..n], decode)
      case Err(i) => Err(i)
      case Ok(init) =>
        if Blank(lines[n]) then Ok(init)
        else match decode(lines[n])
          case None => Err(n)
          case Some(e) => Ok(init + [e])
  }

  /** The reading loop, as `Parsed` says. */
  method ReadLogs(lines: seq<string>, decode: string -> Option<Entry>) returns (r: Result<seq<Entry>, nat>)
    ensures r == Parsed(lines, decode)
  {
    var logs := [];
    for i := 0 to |lines|
      invariant Parsed(lines[..i], decode) == Ok(logs)
    {
      assert lines[..i + 1][..i] == lines[..i];
      var line := lines[i];
      StripEmptyIffBlank(line);
      if Strip(line) != [] {
        var entry := decode(line);
        if entry.None? {
          assert Parsed(lines[..i + 1], decode) == Err(i);
          ErrorPersists(lines, decode, i + 1);
          return Err(i);
        }
        logs := logs + [entry.value];
      }
    }
    assert lines[..|lines|] == lines;
    r := Ok(logs);
  }

  /** Once a prefix fails, every longer prefix fails at the same line. */
  lemma {:induction false} ErrorPersists(lines: seq<string>, decode: string -> Option<Entry>, k: nat)
    requires k <= |lines| && Parsed(lines[..k], decode).Err?
    ensures Parsed(lines, decode) == Parsed(lines[..k], decode)
    decreases |lines| - k
  {
    if k < |lines| {
      var longer := lines[..k + 1];
      assert longer[..|longer| - 1] == lines[..k];
      assert Parsed(longer, decode) == Parsed(lines[..k], decode);
      ErrorPersists(lines, decode, k + 1);
    } else {
      assert lines[..k] == lines;
    }
  }

  // ---------------------------------------------------------------- grouping

  /** Some record was written by program `s`. */
  predicate Wrote(logs: seq<Entry>, s: string) {
    exists x :: x in logs && x.source == s
  }

  /** The programs that wrote, each once, in order of first appearance. */
  function Sources(logs: seq<Entry>): (r: seq<string>)
    ensures forall s :: s in r <==> Wrote(logs, s)
    ensures forall i, j :: 0 <= i < j < |r| ==> r[i] != r[j]
  {
    if logs == [] then []
    else
      var n := |logs| - 1;
      var init := Sources(logs[..n]);
      assert forall x :: x in logs ==> x == logs[n] || x in logs[..n];
      assert forall s :: Wrote(logs, s) <==> Wrote(logs[..n], s) || s == logs[n].source;
      if logs[n].source in init then init else init + [logs[n].source]
  }

  /** The programs that wrote one more record: its program is appended if new. */
  lemma SourcesStep(logs: seq<Entry>, i: nat)
    requires i < |logs|
    ensures Sources(logs[..i + 1]) ==
      if logs[i].source in Sources(logs[..i]) then Sources(logs[..i]) else Sources(logs[..i]) + [logs[i].source]
  {
    assert logs[..i + 1][..i] == logs[..i];
  }

  /** The group of program `s` after one more record: it grows when the record is its own. */
  lemma GroupStep(logs: seq<Entry>, i: nat, s: string)
    requires i < |logs|
    ensures Group(logs[..i + 1], s) == Group(logs[..i], s) + (if logs[i].source == s then [logs[i]] else [])
  {
    assert logs[..i + 1][..i] == logs[..i];
  }

  /** A program that wrote nothing has an empty group. */
  lemma {:induction false} GroupOfSilent(logs: seq<Entry>, s: string)
    requires !Wrote(logs, s)
    ensures Group(logs, s) == []
  {
    if logs != [] {
      var n := |logs| - 1;
      assert logs[n] in logs;
      assert forall x :: x in logs[..n] ==> x in logs;
      GroupOfSilent(logs[..n], s);
    }
  }

  /** The records of program `s`, in file order. */
  function Group(logs: seq<Entry>, s: string): (r: seq<Entry>)
    ensures |r| <= |logs|
    ensures forall x :: x in r <==> x in logs && x.source == s
  {
    if logs == [] then []
    else
      var n := |logs| - 1;
      assert forall x :: x in logs ==> x == logs[n] || x in logs[..n];
      Group(logs[..n], s) + (if logs[n].source == s then [logs[n]] else [])
  }

  /** Every record lands in the group of its own program and in no other. */
  lemma InExactlyOneGroup(logs: seq<Entry>, x: Entry)
    requires x in logs
    ensures x.source in Sources(logs)
    ensures forall s :: s in Sources(logs) ==> (x in Group(logs, s) <==> s == x.source)
  {
  }

  /** A group keeps the file order: it is the subsequence of the records of its program. */
  lemma {:induction false} GroupOfAppend(a: seq<Entry>, b: seq<Entry>, s: string)
    ensures Group(a + b, s) == Group(a, s) + Group(b, s)
    decreases |b|
  {
    if b == [] {
      assert a + b == a;
    } else {
      var n := |b| - 1;
      assert (a + b)[..|a + b| - 1] == a + b[..n];
      GroupOfAppend(a, b[..n], s);
    }
  }

  /** The grouping loop: the programs in first-appearance order, and each one's records. */
  method GroupBySource(logs: seq<Entry>) returns (order: seq<string>, groups: map<string, seq<Entry>>)
    ensures order == Sources(logs)
    ensures forall s :: s in groups <==> s in order
    ensures forall s :: s in groups ==> groups[s] == Group(logs, s)
  {
    order := [];
    groups := map[];
    for i := 0 to |logs|
      invariant order == Sources(logs[..i])
      invariant forall s :: s in groups <==> s in order
      invariant forall s :: s in groups ==> groups[s] == Group(logs[..i], s)
    {
      SourcesStep(logs, i);
      var source := logs[i].source;
      ghost var before := groups;
      if source !in groups {
        GroupOfSilent(logs[..i], source);
        groups := groups[source := []];
        order := order + [source];
      }
      groups := groups[source := groups[source] + [logs[i]]];
      forall s | s in groups
        ensures groups[s] == Group(logs[..i + 1], s)
      {
        GroupStep(logs, i, s);
        if s != source {
          assert groups[s] == before[s];
        }
      }
    }
    assert logs[..|logs|] == logs;
  }

  // ---------------------------------------------------------------- time order

  /** Ascending timestamps. */
  predicate Sorted(s: seq<Entry>) {
    forall i, j :: 0 <= i < j < |s| ==> s[i].timestamp <= s[j].timestamp
  }

  /** `x` placed after every record of a time-ordered list that is not later than it. */
  function InsertByTime(s: seq<Entry>, x: Entry): (r: seq<Entry>)
    ensures |r| == |s| + 1
    ensures multiset(r) == multiset(s) + multiset{x}
  {
    if s == [] then [x]
    else
      var n := |s| - 1;
      if s[n].timestamp <= x.timestamp then s + [x]
      else
        assert s == s[..n] + [s[n]];
        InsertByTime(s[..n], x) + [s[n]]
  }

  /** `sorted(logs, key=timestamp)`: a stable insertion sort. */
  function SortByTime(xs: seq<Entry>): (r: seq<Entry>)
    ensures |r| == |xs|
    ensures multiset(r) == multiset(xs)
  {
    if xs == [] then []
    else
      var n := |xs| - 1;
      assert xs == xs[..n] + [xs[n]];
      InsertByTime(SortByTime(xs[..n]), xs[n])
  }

  /** Every record of `s` is stamped no later than `b`. */
  predicate NotLaterThan(s: seq<Entry>, b: real) {
    forall y :: y in s ==> y.timestamp <= b
  }

  /** Inserting a record no later than `b` keeps every record no later than `b`. */
  lemma InsertNotLater(s: seq<Entry>, x: Entry, b: real)
    requires NotLaterThan(s, b) && x.timestamp <= b
    ensures NotLaterThan(InsertByTime(s, x), b)
  {
    var r := InsertByTime(s, x);
    forall y | y in r
      ensures y.timestamp <= b
    {
      assert y in multiset(r);
      if y != x {
        assert y in multiset(s);
      }
    }
  }

  /** A record no earlier than all of a time-ordered list may follow it. */
  lemma SortedSnoc(s: seq<Entry>, y: Entry)
    requires Sorted(s) && NotLaterThan(s, y.timestamp)
    ensures Sorted(s + [y])
  {
    var out := s + [y];
    forall i, j | 0 <= i < j < |out|
      ensures out[i].timestamp <= out[j].timestamp
    {
      assert out[i] == s[i];
      if j < |s| {
        assert out[j] == s[j];
      } else {
        assert s[i] in s;
      }
    }
  }

  /** Insertion into a time-ordered list keeps it time-ordered. */
  lemma {:induction false} InsertKeepsSorted(s: seq<Entry>, x: Entry)
    requires Sorted(s)
    ensures Sorted(InsertByTime(s, x))
  {
    if s != [] {
      var n := |s| - 1;
      assert forall y :: y in s ==> y.timestamp <= s[n].timestamp;
      if x.timestamp < s[n].timestamp {
        var init := s[..n];
        InsertKeepsSorted(init, x);
        assert forall y :: y in init ==> y in s;
        InsertNotLater(init, x, s[n].timestamp);
        SortedSnoc(InsertByTime(init, x), s[n]);
      } else {
        SortedSnoc(s, x);
      }
    }
  }

  /** The result of the sort is in time order. */
  lemma {:induction false} SortedByTime(xs: seq<Entry>)
    ensures Sorted(SortByTime(xs))
  {
    if xs != [] {
      SortedByTime(xs[..|xs| - 1]);
      InsertKeepsSorted(SortByTime(xs[..|xs| - 1]), xs[|xs| - 1]);
    }
  }

  /** The records stamped `t`, in order. */
  function AtTime(s: seq<Entry>, t: real): seq<Entry> {
    if s == [] then []
    else AtTime(s[..|s| - 1], t) + (if s[|s| - 1].timestamp == t then [s[|s| - 1]] else [])
  }

  lemma {:induction false} AtTimeInsert(s: seq<Entry>, x: Entry, t: real)
    requires Sorted(s)
    ensures AtTime(InsertByTime(s, x), t) == AtTime(s, t) + (if x.timestamp == t then [x] else [])
  {
    if s != [] {
      var n := |s| - 1;
      if s[n].timestamp <= x.timestamp {
        assert (s + [x])[..|s|] == s;
      } else {
        AtTimeInsert(s[..n], x, t);
        var r := InsertByTime(s[..n], x) + [s[n]];
        assert r[..|r| - 1] == InsertByTime(s[..n], x);
      }
    }
  }

  /** The sort is stable: records with the same timestamp keep their file order. */
  lemma {:induction false} SortIsStable(xs: seq<Entry>, t: real)
    ensures AtTime(SortByTime(xs), t) == AtTime(xs, t)
  {
    if xs != [] {
      var n := |xs| - 1;
      SortIsStable(xs[..n], t);
      SortedByTime(xs[..n]);
      AtTimeInsert(SortByTime(xs[..n]), xs[n], t);
    }
  }

  // ---------------------------------------------------------------- conflicts

  /** Records `i` and `i + 1` are by different programs and closer than the window. */
  predicate ConflictAt(s: seq<Entry>, i: int)
    requires 0 <= i < |s| - 1
  {
    s[i + 1].timestamp - s[i].timestamp < ConflictWindow && s[i].source != s[i + 1].source
  }

  function ConflictOf(s: seq<Entry>, i: int): Conflict
    requires 0 <= i < |s| - 1
  {
    Conflict(s[i], s[i + 1], s[i + 1].timestamp - s[i].timestamp)
  }

  /** The conflicts between neighbours, in order. */
  function Conflicts(s: seq<Entry>): (r: seq<Conflict>)
    ensures |r| <= if |s| < 2 then 0 else |s| - 1
  {
    if |s| < 2 then []
    else
      var n := |s| - 1;
      Conflicts(s[..n]) + (if ConflictAt(s, n - 1) then [ConflictOf(s, n - 1)] else [])
  }

  /** The conflicts are exactly the close neighbouring pairs by different programs. */
  lemma {:induction false} ConflictsExactly(s: seq<Entry>, c: Conflict)
    ensures c in Conflicts(s) <==> exists i :: 0 <= i < |s| - 1 && ConflictAt(s, i) && c == ConflictOf(s, i)
  {
    if |s| >= 2 {
      var n := |s| - 1;
      ConflictsExactly(s[..n], c);
      assert forall i :: 0 <= i < n - 1 ==> ConflictAt(s[..n], i) == ConflictAt(s, i) && ConflictOf(s[..n], i) == ConflictOf(s, i);
    }
  }

  /** The scan over neighbouring records, as `Conflicts` says. */
  method FindConflicts(s: seq<Entry>) returns (conflicts: seq<Conflict>)
    ensures conflicts == Conflicts(s)
  {
    conflicts := [];
    if |s| < 2 {
      return;
    }
    for i := 0 to |s| - 1
      invariant conflicts == Conflicts(s[..i + 1])
    {
      assert s[..i + 2][..i + 1] == s[..i + 1];
      assert ConflictAt(s[..i + 2], i) == ConflictAt(s, i) && ConflictOf(s[..i + 2], i) == ConflictOf(s, i);
      var gap := s[i + 1].timestamp - s[i].timestamp;
      if gap < ConflictWindow && s[i].source != s[i + 1].source {
        conflicts := conflicts + [Conflict(s[i], s[i + 1], gap)];
      }
    }
    assert s[..|s|] == s;
  }

  // ---------------------------------------------------------------- verdict

  /** Who writes the gripper, from the programs that wrote. */
  function VerdictOf(sources: seq<string>): (v: Verdict)
    ensures |sources| == 0 <==> v == NoWrites
    ensures |sources| > 1 <==> v == BothWrite
    ensures v == OnlyLeRobot <==> |sources| == 1 && (Contains(sources[0], "LeRobot") || Contains(sources[0], "rm65_follower"))
    ensures v == OnlyExternal <==>
      |sources| == 1 && !Contains(sources[0], "LeRobot") && !Contains(sources[0], "rm65_follower") && Contains(sources[0], "External")
    ensures v.OnlySource? ==> |sources| == 1 && v.name == sources[0]
  {
    if |sources| == 1 then
      var name := sources[0];
      if Contains(name, "LeRobot") || Contains(name, "rm65_follower") then OnlyLeRobot
      else if Contains(name, "External") then OnlyExternal
      else OnlySource(name)
    else if |sources| > 1 then BothWrite
    else NoWrites
  }

  /** The first `ShownConflicts` conflicts, or all of them when there are fewer. */
  function Shown(conflicts: seq<Conflict>): (r: seq<Conflict>)
    ensures |r| <= ShownConflicts && r <= conflicts
    ensures |conflicts| <= ShownConflicts ==> r == conflicts
  {
    if |conflicts| <= ShownConflicts then conflicts else conflicts[..ShownConflicts]
  }

  // ---------------------------------------------------------------- the analysis

  /** The whole analysis of a log file, given whether it exists and its lines. */
  method AnalyzeLogs(fileExists: bool, lines: seq<string>, decode: string -> Option<Entry>) returns (a: Analysis)
    ensures !fileExists <==> a == NoLogFile
    ensures fileExists ==> (a.Malformed? <==> Parsed(lines, decode).Err?)
    ensures a.Malformed? ==> a.line == Parsed(lines, decode).error
    ensures a == EmptyLog <==> fileExists && Parsed(lines, decode) == Ok([])
    ensures a.Report? ==>
      && fileExists && Parsed(lines, decode).Ok?
      && var logs := Parsed(lines, decode).value;
         && logs != [] && a.total == |logs|
         && a.sources == Sources(logs)
         && (forall s :: s in a.groups <==> s in a.sources)
         && (forall s :: s in a.groups ==> a.groups[s] == Group(logs, s))
         && (a.timeline.Some? <==> |a.sources| >= 2)
         && (a.timeline.Some? ==> a.timeline.value == Conflicts(SortByTime(logs)) && a.shown == Shown(a.timeline.value))
         && (a.timeline.None? ==> a.shown == [])
         && a.verdict == VerdictOf(a.sources)
  {
    if !fileExists {
      return NoLogFile;
    }
    var parsed := ReadLogs(lines, decode);
    if parsed.Err? {
      return Malformed(parsed.error);
    }
    var logs := parsed.value;
    if logs == [] {
      return EmptyLog;
    }
    var order, groups := GroupBySource(logs);
    var timeline := None;
    var shown := [];
    if |order| >= 2 {
      var sorted := SortByTime(logs);
      var conflicts := FindConflicts(sorted);
      timeline := Some(conflicts);
      shown := Shown(conflicts);
    }
    a := Report(|logs|, order, groups, timeline, shown, VerdictOf(order));
  }

  /** A log with at least one record always names a writer. */
  lemma ReportNamesWriter(logs: seq<Entry>)
    requires logs != []
    ensures VerdictOf(Sources(logs)) != NoWrites
  {
    assert logs[0] in logs;
  }
}
