/** The bounded activity log: a file trimmed now and then that answers like the whole history,
    as far back as it promises to.
  */
module ActivityLog {
  import opened Prelude

  datatype Entry = Entry(ts: int, owner: string, connection: string, account: string, tool: string, status: string, duration: nat)

  /** A line of the file; None is one that cannot be read back. */
  type Line = Option<Entry>

  /** What a reader asks for; "" asks for nothing in particular. */
  datatype Query = Query(owner: Option<string>, connection: string, account: string, tool: string, status: string) {
    predicate Matches(e: Entry) {
      && (owner.Some? ==> e.owner == owner.value)
      && (connection == "" || e.connection == connection)
      && (account == "" || e.account == account)
      && (tool == "" || e.tool == tool)
      && (status == "" || e.status == status)
    }
  }

  const EVERYTHING := Query(None, "", "", "", "")

  function Max(a: int, b: int): int {
    if a > b then a else b
  }

  function Min(a: int, b: int): int {
    if a < b then a else b
  }

  /** The last `n` lines. */
  function Tail(lines: seq<Line>, n: nat): seq<Line> {
    if |lines| <= n then lines else lines[|lines| - n..]
  }

  /** Every matching entry, newest first. */
  function Newest(lines: seq<Line>, q: Query): seq<Entry> {
    if lines == [] then []
    else
      var last, before := lines[|lines| - 1], Newest(lines[..|lines| - 1], q);
      if last.Some? && q.Matches(last.value) then [last.value] + before else before
  }

  /** A read: at least one entry, at most `limit`. */
  function Read(lines: seq<Line>, q: Query, limit: int): seq<Entry> {
    var all := Newest(lines, q);
    all[..Min(Max(1, limit), |all|)]
  }

  /** How many appends come between two looks at the length. */
  function Period(max: nat): nat {
    Max(50, max / 10)
  }

  /** The log as a value: its file, the appends since the last look, its bound. */
  datatype Log = Log(file: seq<Line>, sinceTrim: nat, max: nat) {
    function Append(e: Entry): Log {
      if max == 0 then this
      else if sinceTrim + 1 >= Period(max) then Log(Tail(file + [Some(e)], max), 0, max)
      else Log(file + [Some(e)], sinceTrim + 1, max)
    }
  }

  function AppendAll(log: Log, es: seq<Entry>): Log {
    if es == [] then log else AppendAll(log, es[..|es| - 1]).Append(es[|es| - 1])
  }

  /** Everything ever written, from the file `start` on. */
  function History(start: seq<Line>, es: seq<Entry>): seq<Line> {
    if es == [] then start else History(start, es[..|es| - 1]) + [Some(es[|es| - 1])]
  }

  class ActivityLog {
    var file: seq<Line>
    var sinceTrim: nat
    const max: nat

    /** A process that finds `file` on disk. */
    constructor (file: seq<Line>, maxEntries: int)
      ensures View() == Log(file, 0, Max(0, maxEntries))
    {
      this.file, sinceTrim, max := file, 0, Max(0, maxEntries);
    }

    function View(): Log
      reads this
    {
      Log(file, sinceTrim, max)
    }

    method Trim()
      modifies this`file
      ensures file == Tail(old(file), max)
    {
      if |file| <= max {
        return;
      }
      file := file[|file| - max..];
    }

    method Append(e: Entry)
      modifies this
      ensures View() == old(View()).Append(e)
    {
      if max == 0 {
        return;
      }
      file := file + [Some(e)];
      sinceTrim := sinceTrim + 1;
      if sinceTrim >= Period(max) {
        sinceTrim := 0;
        Trim();
      }
    }

    method ReadEntries(q: Query, limit: int) returns (out: seq<Entry>)
      ensures out == Read(file, q, limit)
    {
      hide Newest;
      hide Query.Matches;
      out := [];
      var i := |file|;
      assert file[..i] == file;
      while i > 0
        invariant 0 <= i <= |file| && |out| < Max(1, limit)
        invariant Newest(file, q) == out + Newest(file[..i], q)
      {
        NewestStep(file, i, q);
        i := i - 1;
        var line := file[i];
        if line.Some? && q.Matches(line.value) {
          OneMore(out, line.value, Newest(file[..i], q));
          out := out + [line.value];
          if |out| >= Max(1, limit) {
            return;
          }
        }
      }
      NothingNewest(q);
    }
  }

  lemma OneMore(out: seq<Entry>, e: Entry, rest: seq<Entry>)
    ensures out + ([e] + rest) == (out + [e]) + rest
    ensures ((out + [e]) + rest)[..|out| + 1] == out + [e]
  {
  }

  lemma NothingNewest(q: Query)
    ensures Newest([], q) == []
  {
  }

  lemma NewestStep(lines: seq<Line>, i: nat, q: Query)
    requires 0 < i <= |lines|
    ensures var line, before := lines[i - 1], Newest(lines[..i - 1], q);
            Newest(lines[..i], q) == if line.Some? && q.Matches(line.value) then [line.value] + before else before
  {
    assert lines[..i][..i - 1] == lines[..i - 1];
  }

  // --- the file is the end of the history ----------------------------------------------------

  /** `file` is the last part of `history`. */
  predicate EndsWith(history: seq<Line>, file: seq<Line>) {
    |file| <= |history| && history[|history| - |file|..] == file
  }

  /** The end of the history, at least as much as is promised and not much more. */
  predicate Bounded(log: Log, start: nat, history: seq<Line>) {
    && EndsWith(history, log.file)
    && Min(|history|, log.max) <= |log.file| <= Max(start, log.max) + log.sinceTrim
    && log.sinceTrim < Period(log.max)
  }

  lemma AppendKeeps(log: Log, start: nat, history: seq<Line>, e: Entry)
    requires Bounded(log, start, history) && log.max > 0
    ensures Bounded(log.Append(e), start, history + [Some(e)])
  {
    var file, next := log.file + [Some(e)], history + [Some(e)];
    assert next[|next| - |file|..] == file;
    if log.sinceTrim + 1 >= Period(log.max) && |file| > log.max {
      assert next[|next| - log.max..] == file[|file| - log.max..];
    }
  }

  /** After any appends, the file is a suffix of the full history, holds at least its last
      `max` entries, and at most `max + max(50, max / 10) - 1` unless it was found longer. */
  lemma {:induction false} FileIsRecentHistory(start: seq<Line>, max: nat, es: seq<Entry>)
    requires max > 0
    ensures var log := AppendAll(Log(start, 0, max), es);
            && Bounded(log, |start|, History(start, es)) && log.max == max
            && |log.file| <= Max(|start|, max) + Max(50, max / 10) - 1
  {
    if es == [] {
      assert start[0..] == start;
    } else {
      FileIsRecentHistory(start, max, es[..|es| - 1]);
      AppendKeeps(AppendAll(Log(start, 0, max), es[..|es| - 1]), |start|, History(start, es[..|es| - 1]), es[|es| - 1]);
    }
  }

  /** A log with no room is off. */
  lemma {:induction false} OffKeepsNothing(start: seq<Line>, es: seq<Entry>)
    ensures AppendAll(Log(start, 0, 0), es).file == start
  {
    if es != [] {
      OffKeepsNothing(start, es[..|es| - 1]);
      OffStaysOff(start, es[..|es| - 1]);
    }
  }

  lemma {:induction false} OffStaysOff(start: seq<Line>, es: seq<Entry>)
    ensures AppendAll(Log(start, 0, 0), es).max == 0
  {
    if es != [] {
      OffStaysOff(start, es[..|es| - 1]);
    }
  }

  // --- reading it is reading the history -----------------------------------------------------

  lemma {:induction false} NewestOfBoth(before: seq<Line>, lines: seq<Line>, q: Query)
    ensures Newest(before + lines, q) == Newest(lines, q) + Newest(before, q)
  {
    if lines == [] {
      assert before + lines == before;
    } else {
      assert (before + lines)[..|before + lines| - 1] == before + lines[..|lines| - 1];
      NewestOfBoth(before, lines[..|lines| - 1], q);
    }
  }

  /** Whatever is asked for, the file gives the newest part of what the history gives. */
  lemma ReadIsPrefix(log: Log, start: nat, history: seq<Line>, q: Query, limit: int)
    requires Bounded(log, start, history)
    ensures Newest(log.file, q) <= Newest(history, q)
    ensures Read(log.file, q, limit) <= Read(history, q, limit)
  {
    var before := history[..|history| - |log.file|];
    assert history == before + log.file;
    NewestOfBoth(before, log.file, q);
  }

  predicate AllReadable(lines: seq<Line>) {
    forall i :: 0 <= i < |lines| ==> lines[i].Some?
  }

  lemma {:induction false} EverythingIsRead(lines: seq<Line>)
    requires AllReadable(lines)
    ensures |Newest(lines, EVERYTHING)| == |lines|
    ensures forall i :: 0 <= i < |lines| ==> Some(Newest(lines, EVERYTHING)[i]) == lines[|lines| - 1 - i]
  {
    if lines != [] {
      EverythingIsRead(lines[..|lines| - 1]);
    }
  }

  lemma {:induction false} HistoryReadable(start: seq<Line>, es: seq<Entry>)
    requires AllReadable(start)
    ensures AllReadable(History(start, es)) && |History(start, es)| == |start| + |es|
  {
    if es != [] {
      HistoryReadable(start, es[..|es| - 1]);
    }
  }

  /** Asked for no more entries than it is to keep, and for all kinds, the log answers from
      its file as it would from the full history. */
  lemma ReadRefinesHistory(start: seq<Line>, max: nat, es: seq<Entry>, limit: int)
    requires max > 0 && Max(1, limit) <= max && AllReadable(start)
    ensures Read(AppendAll(Log(start, 0, max), es).file, EVERYTHING, limit) == Read(History(start, es), EVERYTHING, limit)
  {
    hide Newest;
    hide AppendAll;
    hide History;
    var log, history := AppendAll(Log(start, 0, max), es), History(start, es);
    FileIsRecentHistory(start, max, es);
    HistoryReadable(start, es);
    EverythingIsRead(history);
    EndReadable(history, log.file);
    EverythingIsRead(log.file);
    ReadIsPrefix(log, |start|, history, EVERYTHING, limit);
    hide AllReadable;
    hide EndsWith;
  }

  lemma EndReadable(history: seq<Line>, file: seq<Line>)
    requires AllReadable(history) && EndsWith(history, file)
    ensures AllReadable(file)
  {
    forall i | 0 <= i < |file|
      ensures file[i].Some?
    {
      assert file[i] == history[|history| - |file| + i];
    }
  }

  // --- what a filtered read holds ------------------------------------------------------------

  /** The entry has every field that is asked for. */
  predicate Wanted(q: Query, e: Entry) {
    && (q.owner == None || q.owner == Some(e.owner))
    && q.connection in {"", e.connection}
    && q.account in {"", e.account}
    && q.tool in {"", e.tool}
    && q.status in {"", e.status}
  }

  /** The places of the wanted lines, last first. */
  ghost predicate NewestFirst(lines: seq<Line>, q: Query, at: seq<nat>, es: seq<Entry>) {
    && |at| == |es|
    && (forall k :: 0 <= k < |at| ==> at[k] < |lines| && lines[at[k]] == Some(es[k]) && Wanted(q, es[k]))
    && forall k, l :: 0 <= k < l < |at| ==> at[k] > at[l]
  }

  lemma WantedMatches(q: Query, e: Entry)
    ensures Wanted(q, e) <==> q.Matches(e)
  {
  }

  lemma OneFirst(lines: seq<Line>, q: Query, at: seq<nat>, es: seq<Entry>, e: Entry)
    requires NewestFirst(lines, q, at, es) && Wanted(q, e)
    ensures NewestFirst(lines + [Some(e)], q, [|lines|] + at, [e] + es)
  {
    hide Wanted;
  }

  lemma NoneFirst(lines: seq<Line>, q: Query, at: seq<nat>, es: seq<Entry>, line: Line)
    requires NewestFirst(lines, q, at, es)
    ensures NewestFirst(lines + [line], q, at, es)
  {
    hide Wanted;
  }

  lemma {:induction false} NewestAre(lines: seq<Line>, q: Query) returns (at: seq<nat>)
    ensures NewestFirst(lines, q, at, Newest(lines, q))
    ensures forall i :: 0 <= i < |lines| && lines[i].Some? && Wanted(q, lines[i].value) ==> i in at
  {
    hide Wanted, Query.Matches, NewestFirst;
    if lines == [] {
      at := [];
      NoLines(q);
    } else {
      var n := |lines| - 1;
      var before := NewestAre(lines[..n], q);
      var last := lines[n];
      assert lines == lines[..n] + [last];
      if last.Some? {
        WantedMatches(q, last.value);
      }
      if last.Some? && Wanted(q, last.value) {
        at := [n] + before;
        OneFirst(lines[..n], q, before, Newest(lines[..n], q), last.value);
      } else {
        at := before;
        NoneFirst(lines[..n], q, before, Newest(lines[..n], q), last);
      }
    }
  }

  lemma NoLines(q: Query)
    ensures NewestFirst([], q, [], Newest([], q))
  {
  }

  /** A read gives wanted lines of the file, the latest first, as many as asked for; one that
      gives fewer gives them all, and none it leaves out is later than one it gives. */
  lemma ReadIs(lines: seq<Line>, q: Query, limit: int) returns (at: seq<nat>)
    ensures NewestFirst(lines, q, at, Read(lines, q, limit))
    ensures |at| <= Max(1, limit)
    ensures forall i :: 0 <= i < |lines| && lines[i].Some? && Wanted(q, lines[i].value) && i !in at ==>
              |at| == Max(1, limit) && forall k :: 0 <= k < |at| ==> i < at[k]
  {
    var all := NewestAre(lines, q);
    hide Wanted, Newest;
    var n := Min(Max(1, limit), |all|);
    at := all[..n];
    FirstAre(all, n);
    forall i | 0 <= i < |lines| && lines[i].Some? && Wanted(q, lines[i].value) && i !in at
      ensures |at| == Max(1, limit) && forall k :: 0 <= k < |at| ==> i < at[k]
    {
      var j :| 0 <= j < |all| && all[j] == i;
      assert j >= n;
    }
  }

  lemma FirstAre(all: seq<nat>, n: nat)
    requires n <= |all|
    ensures forall j :: 0 <= j < n ==> all[j] in all[..n]
  {
    forall j | 0 <= j < n ensures all[j] in all[..n] {
      assert all[..n][j] == all[j];
    }
  }

  predicate NoMatch(lines: seq<Line>, q: Query) {
    forall i :: 0 <= i < |lines| && lines[i].Some? ==> !q.Matches(lines[i].value)
  }

  lemma {:induction false} NoMatchIff(lines: seq<Line>, q: Query)
    ensures NoMatch(lines, q) <==> Newest(lines, q) == []
  {
    hide Query.Matches;
    if lines != [] {
      var n := |lines| - 1;
      NoMatchIff(lines[..n], q);
      assert lines == lines[..n] + [lines[n]];
    }
  }

  /** What was trimmed off the front of the history. */
  function TrimmedOff(history: seq<Line>, file: seq<Line>): seq<Line>
    requires |file| <= |history|
  {
    history[..|history| - |file|]
  }

  /** A filtered read is the read of the full history exactly when it comes back full, or
      nothing that was trimmed off matches. */
  lemma FilteredReadIff(log: Log, start: nat, history: seq<Line>, q: Query, limit: int)
    requires Bounded(log, start, history)
    ensures Read(log.file, q, limit) == Read(history, q, limit)
       <==> |Read(log.file, q, limit)| == Max(1, limit) || NoMatch(TrimmedOff(history, log.file), q)
  {
    hide Newest;
    hide NoMatch;
    var before := TrimmedOff(history, log.file);
    assert history == before + log.file;
    NewestOfBoth(before, log.file, q);
    NoMatchIff(before, q);
    var shown, older := Newest(log.file, q), Newest(before, q);
    var wanted := Max(1, limit);
    if |shown| >= wanted {
      assert (shown + older)[..wanted] == shown[..wanted];
    } else {
      assert |(shown + older)[..Min(wanted, |shown + older|)]| == Min(wanted, |shown| + |older|);
    }
  }
}
