/** The leveled logger of core/Logger.ts: a configured level and an
    append-only buffer of formatted lines. Console output is not modelled;
    only the buffer is. */
module Logging {
  import opened Util

  /** The four severities, declared in the order ERROR, WARN, INFO, DEBUG. */
  datatype Level = Error | Warn | Info | Debug

  /** The numeric value TypeScript gives each enum member. */
  function Ordinal(l: Level): nat {
    match l
    case Error => 0
    case Warn => 1
    case Info => 2
    case Debug => 3
  }

  /** The level a logger has unless its constructor is given one. */
  const DefaultLevel: Level := Info

  datatype Logger = Logger(level: Level, logs: seq<string>)

  /** `new Logger(level?)`: the argument, when present, overrides the default. */
  function NewLogger(level: Option<Level>): (lg: Logger)
    ensures lg.logs == []
    ensures level.None? ==> lg.level == DefaultLevel
    ensures level.Some? ==> lg.level == level.value
  {
    Logger(if level.Some? then level.value else DefaultLevel, [])
  }

  /** `setLevel` replaces the level and leaves the buffer alone. */
  function SetLevel(lg: Logger, level: Level): (r: Logger)
    ensures r.logs == lg.logs
    ensures r.level == level
  {
    lg.(level := level)
  }

  /** The gate each logging method applies, as written: the configured level's
      ordinal must not exceed the call's severity ordinal. */
  predicate Records(level: Level, severity: Level) {
    Ordinal(level) <= Ordinal(severity)
  }

  /** The tag put in front of every recorded message. */
  function Prefix(severity: Level): string {
    match severity
    case Error => "[ERROR] "
    case Warn => "[WARN] "
    case Info => "[INFO] "
    case Debug => "[DEBUG] "
  }

  /** The line a call of the given severity records. */
  function Entry(severity: Level, message: string): string {
    Prefix(severity) + message
  }

  /** One logging call of the given severity: when the gate lets it through,
      exactly one formatted line is appended; otherwise nothing changes. */
  function Log(lg: Logger, severity: Level, message: string): (r: Logger)
    ensures r.level == lg.level
    ensures lg.logs <= r.logs
    ensures |r.logs| == |lg.logs| + 1 <==> Records(lg.level, severity)
    ensures |r.logs| == |lg.logs| + 1 ==> r.logs[|lg.logs|] == Entry(severity, message)
    ensures !Records(lg.level, severity) ==> r == lg
  {
    if Ordinal(lg.level) <= Ordinal(severity) then
      lg.(logs := lg.logs + [Entry(severity, message)])
    else
      lg
  }

  function LogError(lg: Logger, message: string): Logger { Log(lg, Error, message) }
  function LogWarn(lg: Logger, message: string): Logger { Log(lg, Warn, message) }
  function LogInfo(lg: Logger, message: string): Logger { Log(lg, Info, message) }
  function LogDebug(lg: Logger, message: string): Logger { Log(lg, Debug, message) }

  /** `getLogs`: every recorded line. */
  function GetLogs(lg: Logger): seq<string> {
    lg.logs
  }

  /** With the default level, info and debug calls are recorded and error and
      warn calls are dropped. */
  lemma DefaultLevelGate(severity: Level)
    ensures Records(DefaultLevel, severity) <==> severity == Info || severity == Debug
    ensures LogError(NewLogger(None), "m").logs == []
    ensures LogInfo(NewLogger(None), "m").logs == ["[INFO] m"]
  {
    assert Prefix(Info) + "m" == "[INFO] m";
  }

  /** Reads a recorded line back into its severity and message. */
  function ParseEntry(line: string): Option<(Level, string)> {
    if Prefix(Error) <= line then Some((Error, line[|Prefix(Error)|..]))
    else if Prefix(Warn) <= line then Some((Warn, line[|Prefix(Warn)|..]))
    else if Prefix(Info) <= line then Some((Info, line[|Prefix(Info)|..]))
    else if Prefix(Debug) <= line then Some((Debug, line[|Prefix(Debug)|..]))
    else None
  }

  /** A prefix does not occur at the head of a line carrying another prefix:
      the second characters differ. */
  lemma PrefixesDiffer(a: Level, b: Level, message: string)
    requires a != b
    ensures !(Prefix(a) <= Entry(b, message))
  {
    var line := Entry(b, message);
    assert line[1] == Prefix(b)[1];
    assert Prefix(a)[1] != Prefix(b)[1];
  }

  /** A recorded line is exactly the severity tag followed by the message, so
      both can be recovered from it. */
  lemma {:induction false} EntryRoundTrip(severity: Level, message: string)
    ensures ParseEntry(Entry(severity, message)) == Some((severity, message))
  {
    var line := Entry(severity, message);
    assert Prefix(severity) <= line;
    assert line[|Prefix(severity)|..] == message;
    match severity
    case Error =>
    case Warn => PrefixesDiffer(Error, Warn, message);
    case Info => PrefixesDiffer(Error, Info, message); PrefixesDiffer(Warn, Info, message);
    case Debug =>
      PrefixesDiffer(Error, Debug, message);
      PrefixesDiffer(Warn, Debug, message);
      PrefixesDiffer(Info, Debug, message);
  }

  /** A call to one of the four logging methods. */
  datatype Call = Call(severity: Level, message: string)

  /** Applies calls one after another. */
  function Replay(lg: Logger, calls: seq<Call>): Logger
    decreases |calls|
  {
    if |calls| == 0 then lg
    else Replay(Log(lg, calls[0].severity, calls[0].message), calls[1..])
  }

  /** The lines a run of calls should leave behind at a fixed level: one
      formatted line per call that passes the gate, in call order. */
  function Emitted(level: Level, calls: seq<Call>): seq<string>
    decreases |calls|
  {
    if |calls| == 0 then []
    else
      (if Records(level, calls[0].severity) then [Entry(calls[0].severity, calls[0].message)] else [])
      + Emitted(level, calls[1..])
  }

  /** `getLogs` after a run of calls returns the earlier lines followed by the
      newly recorded ones in emission order; the level is untouched. */
  lemma {:induction false} GetLogsInEmissionOrder(lg: Logger, calls: seq<Call>)
    ensures Replay(lg, calls).level == lg.level
    ensures GetLogs(Replay(lg, calls)) == GetLogs(lg) + Emitted(lg.level, calls)
    decreases |calls|
  {
    if |calls| > 0 {
      var next := Log(lg, calls[0].severity, calls[0].message);
      GetLogsInEmissionOrder(next, calls[1..]);
    }
  }

  /** `q` occurs in `s` starting at position `i`. */
  predicate OccursAt(q: string, s: string, i: nat) {
    i + |q| <= |s| && s[i..i + |q|] == q
  }

  /** `String.prototype.includes`, scanning start positions left to right. */
  function Includes(s: string, q: string): (b: bool)
    ensures b <==> exists i: nat :: OccursAt(q, s, i)
    decreases |s|
  {
    if q <= s then
      assert OccursAt(q, s, 0);
      true
    else if |s| == 0 then
      false
    else
      var rest := Includes(s[1..], q);
      assert forall i: nat :: OccursAt(q, s[1..], i) <==> OccursAt(q, s, i + 1) by {
        forall i: nat ensures OccursAt(q, s[1..], i) <==> OccursAt(q, s, i + 1) {
          if i + |q| <= |s[1..]| {
            assert s[1..][i..i + |q|] == s[i + 1..i + 1 + |q|];
          }
        }
      }
      assert !OccursAt(q, s, 0);
      assert forall i: nat :: OccursAt(q, s, i) && i > 0 ==> OccursAt(q, s[1..], i - 1);
      rest
  }

  /** The lines containing `q`, in their original order. */
  function Filter(lines: seq<string>, q: string): (r: seq<string>)
    ensures forall e :: e in r <==> e in lines && Includes(e, q)
    ensures forall e :: multiset(r)[e] == if Includes(e, q) then multiset(lines)[e] else 0
    ensures IsSubsequence(r, lines)
    decreases |lines|
  {
    if |lines| == 0 then []
    else
      var rest := Filter(lines[1..], q);
      assert lines == [lines[0]] + lines[1..];
      assert multiset(lines) == multiset([lines[0]]) + multiset(lines[1..]);
      if Includes(lines[0], q) then
        assert forall e :: e in lines <==> e == lines[0] || e in lines[1..];
        assert multiset([lines[0]] + rest) == multiset([lines[0]]) + multiset(rest);
        [lines[0]] + rest
      else
        assert forall e :: e in lines <==> e == lines[0] || e in lines[1..];
        assert IsSubsequence(rest, lines) by {
          assert IsSubsequence(rest, lines[1..]);
        }
        rest
  }

  /** `search(q)`: the recorded lines that contain `q`. */
  function Search(lg: Logger, q: string): (r: seq<string>)
    ensures forall e :: e in r <==> e in lg.logs && exists i: nat :: OccursAt(q, e, i)
    ensures forall e :: multiset(r)[e] == if Includes(e, q) then multiset(lg.logs)[e] else 0
    ensures IsSubsequence(r, lg.logs)
  {
    Filter(lg.logs, q)
  }

  /** Filtering commutes with concatenation, which pins down its order. */
  lemma {:induction false} FilterAppend(a: seq<string>, b: seq<string>, q: string)
    ensures Filter(a + b, q) == Filter(a, q) + Filter(b, q)
    decreases |a|
  {
    if |a| > 0 {
      assert (a + b)[1..] == a[1..] + b;
      FilterAppend(a[1..], b, q);
    } else {
      assert a + b == b;
    }
  }

  /** The empty query matches every line, so `search("")` returns everything. */
  lemma {:induction false} SearchEmptyQuery(lg: Logger)
    ensures Search(lg, "") == lg.logs
  {
    FilterEmptyQuery(lg.logs);
  }

  lemma {:induction false} FilterEmptyQuery(lines: seq<string>)
    ensures Filter(lines, "") == lines
    decreases |lines|
  {
    if |lines| > 0 {
      FilterEmptyQuery(lines[1..]);
      assert [lines[0]] + lines[1..] == lines;
    }
  }

  /** A logging call followed by `search(q)` finds what the search found
      before, plus the new line when it was recorded and contains `q`. */
  lemma SearchAfterLog(lg: Logger, severity: Level, message: string, q: string)
    ensures Search(Log(lg, severity, message), q)
         == Search(lg, q)
            + (if Records(lg.level, severity) && Includes(Entry(severity, message), q)
               then [Entry(severity, message)] else [])
  {
    if Records(lg.level, severity) {
      var e := Entry(severity, message);
      FilterAppend(lg.logs, [e], q);
      assert Filter([e], q) == (if Includes(e, q) then [e] else []) by {
        assert [e][1..] == [];
      }
    }
  }

  /** The gate as it was evidently intended: a call is recorded when its
      severity is at least as severe as the configured level. */
  predicate RecordsIntended(level: Level, severity: Level) {
    Ordinal(severity) <= Ordinal(level)
  }

  /** A logging call with the intended gate. */
  function LogIntended(lg: Logger, severity: Level, message: string): (r: Logger)
    ensures r.level == lg.level
    ensures lg.logs <= r.logs
    ensures |r.logs| == |lg.logs| + 1 <==> RecordsIntended(lg.level, severity)
    ensures |r.logs| == |lg.logs| + 1 ==> r.logs[|lg.logs|] == Entry(severity, message)
    ensures !RecordsIntended(lg.level, severity) ==> r == lg
  {
    if Ordinal(severity) <= Ordinal(lg.level) then
      lg.(logs := lg.logs + [Entry(severity, message)])
    else
      lg
  }

  /** As written, a logger with the default level drops error messages. */
  lemma DefaultLevelDropsErrors(message: string)
    ensures Log(NewLogger(None), Error, message) == NewLogger(None)
  {
  }

  /** With the intended gate, errors are recorded at every level, and
      raising the level towards DEBUG only ever records more. */
  lemma IntendedGateIsMonotone(lower: Level, higher: Level, severity: Level, message: string)
    requires Ordinal(lower) <= Ordinal(higher)
    ensures RecordsIntended(lower, Error)
    ensures RecordsIntended(lower, severity) ==> RecordsIntended(higher, severity)
    ensures LogIntended(NewLogger(None), Error, message).logs == [Entry(Error, message)]
    ensures LogIntended(NewLogger(None), Debug, message).logs == []
  {
  }
}
