/** The figures of the dashboard, gathered in one pass, and what they add up to. */
module Overview {
  import opened Prelude
  import opened ActivityLog

  const DAY := 86400

  /** The window: `days` days ending today, on a local clock that shows `zone(ts)` seconds more
      than the stamp `ts`. */
  datatype Window = Window(now: int, days: nat, zone: int -> int) {

    function Day(ts: int): int {
      (ts + zone(ts)) / DAY
    }

    /** The place of a moment among the days, oldest first. */
    function Position(ts: int): Option<nat> {
      var p := Day(ts) - (Day(now) - days + 1);
      if 0 <= p < days then Some(p) else None
    }

    predicate InWeek(ts: int) {
      ts >= now - 7 * DAY
    }
  }

  predicate Succeeded(e: Entry) {
    e.status == "ok"
  }

  datatype Bucket = Bucket(ok: nat, failed: nat)

  datatype Usage = Usage(lastTs: int, calls: nat, errors: nat, series: seq<nat>)

  datatype Figures = Figures(
    days: seq<Bucket>,
    tools: map<string, nat>,
    connections: map<string, Usage>,
    accountCalls: map<string, nat>,
    total: nat,
    failed: nat,
    last24h: nat,
    previous24h: nat,
    failed24h: nat,
    windowCalls: nat,
    windowFailed: nat,
    recent: seq<Entry>,
    recentFailures: seq<Entry>)

  function Zeros(n: nat): seq<nat> {
    seq(n, _ => 0)
  }

  function Nothing(w: Window): Figures {
    Figures(seq(w.days, _ => Bucket(0, 0)), map[], map[], map[], 0, 0, 0, 0, 0, 0, 0, [], [])
  }

  function Counted(m: map<string, nat>, key: string): map<string, nat> {
    m[key := (if key in m then m[key] else 0) + 1]
  }

  function Bump(s: seq<nat>, i: nat): seq<nat> {
    if i < |s| then s[i := s[i] + 1] else s
  }

  function BumpDay(days: seq<Bucket>, i: nat, ok: bool): seq<Bucket> {
    if i >= |days| then days
    else days[i := if ok then Bucket(days[i].ok + 1, days[i].failed) else Bucket(days[i].ok, days[i].failed + 1)]
  }

  /** A connection's figures with one more call; `seen` says whether the window shows it. */
  function Used(u: Usage, w: Window, e: Entry): Usage {
    var last := if e.ts > u.lastTs then e.ts else u.lastTs;
    match w.Position(e.ts)
    case None => u.(lastTs := last)
    case Some(p) =>
      var week := w.InWeek(e.ts);
      Usage(last,
            u.calls + (if week then 1 else 0),
            u.errors + (if week && !Succeeded(e) then 1 else 0),
            Bump(u.series, p))
  }

  function UsageOf(connections: map<string, Usage>, w: Window, c: string): Usage {
    if c in connections then connections[c] else Usage(0, 0, 0, Zeros(w.days))
  }

  /** The figures with one more entry. */
  function Add(f: Figures, w: Window, e: Entry): Figures {
    var fail := if Succeeded(e) then 0 else 1;
    var p := w.Position(e.ts);
    var recently := e.ts >= w.now - DAY;
    Figures(
      if p.Some? then BumpDay(f.days, p.value, Succeeded(e)) else f.days,
      Counted(f.tools, e.tool),
      f.connections[e.connection := Used(UsageOf(f.connections, w, e.connection), w, e)],
      if p.Some? && e.account != "" then Counted(f.accountCalls, e.account) else f.accountCalls,
      f.total + 1,
      f.failed + fail,
      f.last24h + (if recently then 1 else 0),
      f.previous24h + (if !recently && e.ts >= w.now - 2 * DAY then 1 else 0),
      f.failed24h + (if recently then fail else 0),
      f.windowCalls + (if p.Some? then 1 else 0),
      f.windowFailed + (if p.Some? then fail else 0),
      if |f.recent| < 8 then f.recent + [e] else f.recent,
      if fail == 1 && w.InWeek(e.ts) && |f.recentFailures| < 5 then f.recentFailures + [e] else f.recentFailures)
  }

  function FiguresOf(w: Window, es: seq<Entry>): Figures {
    if es == [] then Nothing(w) else Add(FiguresOf(w, es[..|es| - 1]), w, es[|es| - 1])
  }

  /** `summarise_by_connection`, which has no window. */
  function Summarised(u: Usage, w: Window, e: Entry): Usage {
    var week := w.InWeek(e.ts);
    u.(lastTs := if e.ts > u.lastTs then e.ts else u.lastTs,
       calls := u.calls + (if week then 1 else 0),
       errors := u.errors + (if week && !Succeeded(e) then 1 else 0))
  }

  function SummaryOf(w: Window, es: seq<Entry>): map<string, Usage> {
    if es == [] then map[]
    else
      var n := |es| - 1;
      var before := SummaryOf(w, es[..n]);
      var u := if es[n].connection in before then before[es[n].connection] else Usage(0, 0, 0, []);
      before[es[n].connection := Summarised(u, w, es[n])]
  }

  method Overview(w: Window, es: seq<Entry>) returns (f: Figures)
    ensures f == FiguresOf(w, es)
  {
    hide FiguresOf;
    hide Window.Position;
    hide Window.InWeek;
    hide Succeeded;
    hide Bump;
    hide BumpDay;
    hide UsageOf;
    hide Counted;
    FiguresOfNone(w);
    var days := seq(w.days, _ => Bucket(0, 0));
    var tools, accountCalls: map<string, nat> := map[], map[];
    var connections: map<string, Usage> := map[];
    var total, failed, last24h, previous24h, failed24h, windowCalls, windowFailed := 0, 0, 0, 0, 0, 0, 0;
    var recent, recentFailures := [], [];
    var i := 0;
    while i < |es|
      invariant 0 <= i <= |es|
      invariant Figures(days, tools, connections, accountCalls, total, failed, last24h, previous24h, failed24h,
                        windowCalls, windowFailed, recent, recentFailures) == FiguresOf(w, es[..i])
    {
      var entry := es[i];
      FiguresStep(w, es, i);
      total := total + 1;
      var succeeded := Succeeded(entry);
      if !succeeded {
        failed := failed + 1;
      }
      if entry.ts >= w.now - DAY {
        last24h := last24h + 1;
        if !succeeded {
          failed24h := failed24h + 1;
        }
      } else if entry.ts >= w.now - 2 * DAY {
        previous24h := previous24h + 1;
      }
      tools := Counted(tools, entry.tool);
      if |recent| < 8 {
        recent := recent + [entry];
      }
      if !succeeded && w.InWeek(entry.ts) && |recentFailures| < 5 {
        recentFailures := recentFailures + [entry];
      }
      var usage := UsageOf(connections, w, entry.connection);
      if entry.ts > usage.lastTs {
        usage := usage.(lastTs := entry.ts);
      }
      var position := w.Position(entry.ts);
      if position.Some? {
        windowCalls := windowCalls + 1;
        if !succeeded {
          windowFailed := windowFailed + 1;
        }
        if entry.account != "" {
          accountCalls := Counted(accountCalls, entry.account);
        }
        days := BumpDay(days, position.value, succeeded);
        usage := usage.(series := Bump(usage.series, position.value));
        if w.InWeek(entry.ts) {
          usage := usage.(calls := usage.calls + 1);
          if !succeeded {
            usage := usage.(errors := usage.errors + 1);
          }
        }
      }
      connections := connections[entry.connection := usage];
      i := i + 1;
    }
    assert es[..i] == es;
    f := Figures(days, tools, connections, accountCalls, total, failed, last24h, previous24h, failed24h,
                 windowCalls, windowFailed, recent, recentFailures);
  }

  lemma FiguresOfNone(w: Window)
    ensures FiguresOf(w, []) == Nothing(w)
  {
  }

  lemma FiguresStep(w: Window, es: seq<Entry>, i: nat)
    requires i < |es|
    ensures FiguresOf(w, es[..i + 1]) == Add(FiguresOf(w, es[..i]), w, es[i])
  {
    assert es[..i + 1][..i] == es[..i];
  }

  method Summarise(w: Window, es: seq<Entry>) returns (out: map<string, Usage>)
    ensures out == SummaryOf(w, es)
  {
    hide SummaryOf;
    hide Window.InWeek;
    hide Succeeded;
    SummaryOfNone(w);
    out := map[];
    var i := 0;
    while i < |es|
      invariant 0 <= i <= |es|
      invariant out == SummaryOf(w, es[..i])
    {
      SummaryStep(w, es, i);
      var entry := es[i];
      var usage := if entry.connection in out then out[entry.connection] else Usage(0, 0, 0, []);
      if entry.ts > usage.lastTs {
        usage := usage.(lastTs := entry.ts);
      }
      if w.InWeek(entry.ts) {
        usage := usage.(calls := usage.calls + 1);
        if !Succeeded(entry) {
          usage := usage.(errors := usage.errors + 1);
        }
      }
      out := out[entry.connection := usage];
      i := i + 1;
    }
    assert es[..i] == es;
  }

  lemma SummaryOfNone(w: Window)
    ensures SummaryOf(w, []) == map[]
  {
  }

  lemma SummaryStep(w: Window, es: seq<Entry>, i: nat)
    requires i < |es|
    ensures var before := SummaryOf(w, es[..i]);
            var u := if es[i].connection in before then before[es[i].connection] else Usage(0, 0, 0, []);
            SummaryOf(w, es[..i + 1]) == before[es[i].connection := Summarised(u, w, es[i])]
  {
    assert es[..i + 1][..i] == es[..i];
  }

  // --- sums ------------------------------------------------------------------------------------

  ghost function SumMap(m: map<string, nat>): nat {
    if m == map[] then 0
    else
      var k :| k in m;
      m[k] + SumMap(m - {k})
  }

  /** It does not matter which entry is taken out first. */
  lemma {:induction false} SumTaking(m: map<string, nat>, k: string)
    requires k in m
    ensures SumMap(m) == m[k] + SumMap(m - {k})
    decreases |m|
  {
    assert m != map[];
    var j :| j in m && SumMap(m) == m[j] + SumMap(m - {j});
    if j != k {
      SumTaking(m - {j}, k);
      SumTaking(m - {k}, j);
      assert m - {j} - {k} == m - {k} - {j};
    }
  }

  lemma SumPut(m: map<string, nat>, k: string, n: nat)
    ensures SumMap(m[k := n]) + (if k in m then m[k] else 0) == SumMap(m) + n
  {
    SumTaking(m[k := n], k);
    assert m[k := n] - {k} == m - {k};
    if k in m {
      SumTaking(m, k);
    } else {
      assert m - {k} == m;
    }
  }

  function SumOk(days: seq<Bucket>): nat {
    if days == [] then 0 else SumOk(days[..|days| - 1]) + days[|days| - 1].ok
  }

  function SumFailed(days: seq<Bucket>): nat {
    if days == [] then 0 else SumFailed(days[..|days| - 1]) + days[|days| - 1].failed
  }

  lemma {:induction false} SumBumped(days: seq<Bucket>, i: nat, ok: bool)
    requires i < |days|
    ensures SumOk(BumpDay(days, i, ok)) == SumOk(days) + (if ok then 1 else 0)
    ensures SumFailed(BumpDay(days, i, ok)) == SumFailed(days) + (if ok then 0 else 1)
  {
    var n := |days| - 1;
    if i < n {
      SumBumped(days[..n], i, ok);
      assert BumpDay(days, i, ok)[..n] == BumpDay(days[..n], i, ok);
    } else {
      assert BumpDay(days, i, ok)[..n] == days[..n];
    }
  }

  lemma {:induction false} SumOfNone(days: seq<Bucket>)
    requires forall i :: 0 <= i < |days| ==> days[i] == Bucket(0, 0)
    ensures SumOk(days) == 0 && SumFailed(days) == 0
  {
    if days != [] {
      SumOfNone(days[..|days| - 1]);
    }
  }

  // --- conservation ------------------------------------------------------------------------------

  /** Every series covers the window, day for day. */
  ghost predicate Shaped(f: Figures, w: Window) {
    && |f.days| == w.days
    && forall c :: c in f.connections ==> |f.connections[c].series| == w.days
  }

  lemma {:induction false} FiguresShaped(w: Window, es: seq<Entry>)
    ensures Shaped(FiguresOf(w, es), w)
  {
    if es != [] {
      FiguresShaped(w, es[..|es| - 1]);
    }
  }

  /** One day of every connection's series. */
  function SeriesAt(connections: map<string, Usage>, d: nat): map<string, nat> {
    map c | c in connections :: if d < |connections[c].series| then connections[c].series[d] else 0
  }

  /** Each day's calls are those of all connections together. */
  lemma {:induction false} DaysAddUp(w: Window, es: seq<Entry>, d: nat)
    requires d < w.days
    ensures |FiguresOf(w, es).days| == w.days
    ensures var day := FiguresOf(w, es).days[d];
            day.ok + day.failed == SumMap(SeriesAt(FiguresOf(w, es).connections, d))
  {
    FiguresShaped(w, es);
    if es == [] {
      assert SeriesAt(map[], d) == map[];
    } else {
      var n := |es| - 1;
      DaysAddUp(w, es[..n], d);
      FiguresShaped(w, es[..n]);
      DayStep(FiguresOf(w, es[..n]), w, es[n], d);
      hide FiguresOf;
      FiguresStep(w, es, n);
      assert es[..n + 1] == es;
    }
  }

  lemma DayStep(f: Figures, w: Window, e: Entry, d: nat)
    requires Shaped(f, w) && d < w.days
    requires f.days[d].ok + f.days[d].failed == SumMap(SeriesAt(f.connections, d))
    ensures var g := Add(f, w, e);
            |g.days| == w.days && g.days[d].ok + g.days[d].failed == SumMap(SeriesAt(g.connections, d))
  {
    hide Window.Position;
    hide SumMap;
    var u := UsageOf(f.connections, w, e.connection);
    var v := Used(u, w, e);
    var m := SeriesAt(f.connections, d);
    assert SeriesAt(f.connections[e.connection := v], d) == m[e.connection := v.series[d]];
    SumPut(m, e.connection, v.series[d]);
    assert u.series[d] == if e.connection in m then m[e.connection] else 0;
    hide SeriesAt;
  }

  /** The days hold every call of the window, the failed ones apart. */
  lemma {:induction false} WindowAddsUp(w: Window, es: seq<Entry>)
    ensures var f := FiguresOf(w, es);
            SumOk(f.days) + SumFailed(f.days) == f.windowCalls && SumFailed(f.days) == f.windowFailed
  {
    if es == [] {
      SumOfNone(Nothing(w).days);
    } else {
      var n := |es| - 1;
      WindowAddsUp(w, es[..n]);
      FiguresShaped(w, es[..n]);
      var f := FiguresOf(w, es[..n]);
      var p := w.Position(es[n].ts);
      if p.Some? {
        SumBumped(f.days, p.value, Succeeded(es[n]));
      }
      hide SumOk;
      hide SumFailed;
      hide BumpDay;
    }
  }

  /** The count of one more call. */
  lemma CountedSum(m: map<string, nat>, key: string)
    ensures SumMap(Counted(m, key)) == SumMap(m) + 1
  {
    SumPut(m, key, Counted(m, key)[key]);
    hide SumMap;
  }

  /** Every call is a call of one tool. */
  lemma {:induction false} ToolsAddUp(w: Window, es: seq<Entry>)
    ensures SumMap(FiguresOf(w, es).tools) == FiguresOf(w, es).total == |es|
  {
    if es != [] {
      var n := |es| - 1;
      ToolsAddUp(w, es[..n]);
      CountedSum(FiguresOf(w, es[..n]).tools, es[n].tool);
      hide SumMap;
      hide Counted;
      hide Window.Position;
    }
  }

  /** The calls counted by account are calls of the window. */
  lemma {:induction false} AccountsWithin(w: Window, es: seq<Entry>)
    ensures SumMap(FiguresOf(w, es).accountCalls) <= FiguresOf(w, es).windowCalls
  {
    if es != [] {
      var n := |es| - 1;
      AccountsWithin(w, es[..n]);
      CountedSum(FiguresOf(w, es[..n]).accountCalls, es[n].account);
      hide SumMap;
      hide Counted;
      hide Window.Position;
    }
  }

  // --- what each figure counts ---------------------------------------------------------------

  /** The calls a figure is about. */
  datatype Kind =
    | OnDay(day: nat, ok: bool)
    | OfTool(tool: string)
    | OfAccount(account: string)
    | OfConnection(connection: string, day: nat)
    | ThisWeek(connection: string, onlyErrors: bool)
    | WeekOf(connection: string, onlyErrors: bool)
    | Failing
    | LastDay(onlyErrors: bool)
    | DayBefore
    | Shown(onlyErrors: bool)

  /** How many days before today a moment was, by the local clock. */
  function DaysAgo(w: Window, ts: int): int {
    (w.now + w.zone(w.now)) / DAY - (ts + w.zone(ts)) / DAY
  }

  predicate Is(w: Window, e: Entry, k: Kind) {
    var ago, fails, week := DaysAgo(w, e.ts), e.status != "ok", w.now - e.ts <= 7 * DAY;
    match k
    case OnDay(day, ok) => ago == w.days - 1 - day && ok != fails
    case OfTool(tool) => e.tool == tool
    case OfAccount(account) => 0 <= ago < w.days && e.account == account
    case OfConnection(connection, day) => e.connection == connection && ago == w.days - 1 - day
    case ThisWeek(connection, onlyErrors) =>
      e.connection == connection && 0 <= ago < w.days && week && (onlyErrors ==> fails)
    case WeekOf(connection, onlyErrors) => e.connection == connection && week && (onlyErrors ==> fails)
    case Failing => fails
    case LastDay(onlyErrors) => w.now - e.ts <= DAY && (onlyErrors ==> fails)
    case DayBefore => DAY < w.now - e.ts <= 2 * DAY
    case Shown(onlyErrors) => 0 <= ago < w.days && (onlyErrors ==> fails)
  }

  lemma PlaceOf(w: Window, ts: int)
    ensures w.Position(ts) == if 0 <= DaysAgo(w, ts) < w.days then Some(w.days - 1 - DaysAgo(w, ts)) else None
  {
  }

  function Count(w: Window, es: seq<Entry>, k: Kind): nat {
    if es == [] then 0
    else Count(w, es[..|es| - 1], k) + (if Is(w, es[|es| - 1], k) then 1 else 0)
  }

  function At(m: map<string, nat>, key: string): nat {
    if key in m then m[key] else 0
  }

  /** The totals of the window. */
  lemma {:induction false} WindowCounts(w: Window, es: seq<Entry>)
    ensures var f := FiguresOf(w, es);
            && f.failed == Count(w, es, Failing)
            && f.windowCalls == Count(w, es, Shown(false)) && f.windowFailed == Count(w, es, Shown(true))
  {
    hide Window.Position;
    hide Counted;
    hide BumpDay;
    if es != [] {
      WindowCounts(w, es[..|es| - 1]);
      PlaceOf(w, es[|es| - 1].ts);
      hide DaysAgo;
    }
  }

  /** The totals of the last two days. */
  lemma {:induction false} LastDaysCount(w: Window, es: seq<Entry>)
    ensures var f := FiguresOf(w, es);
            && f.last24h == Count(w, es, LastDay(false)) && f.failed24h == Count(w, es, LastDay(true))
            && f.previous24h == Count(w, es, DayBefore)
  {
    hide Window.Position;
    hide Counted;
    hide BumpDay;
    if es != [] {
      LastDaysCount(w, es[..|es| - 1]);
    }
  }

  /** A day's successes and failures. */
  lemma {:induction false} DayCounts(w: Window, es: seq<Entry>, d: nat)
    requires d < w.days
    ensures var f := FiguresOf(w, es);
            && |f.days| == w.days
            && f.days[d] == Bucket(Count(w, es, OnDay(d, true)), Count(w, es, OnDay(d, false)))
  {
    hide Window.Position;
    hide Used;
    hide Counted;
    if es != [] {
      DayCounts(w, es[..|es| - 1], d);
      PlaceOf(w, es[|es| - 1].ts);
      hide DaysAgo;
    }
  }

  /** A tool's calls, and an account's calls in the window. */
  lemma {:induction false} NameCounts(w: Window, es: seq<Entry>, tool: string, account: string)
    requires account != ""
    ensures var f := FiguresOf(w, es);
            && At(f.tools, tool) == Count(w, es, OfTool(tool))
            && At(f.accountCalls, account) == Count(w, es, OfAccount(account))
  {
    hide Window.Position;
    hide Used;
    hide BumpDay;
    if es != [] {
      NameCounts(w, es[..|es| - 1], tool, account);
      PlaceOf(w, es[|es| - 1].ts);
      hide DaysAgo;
    }
  }

  /** The latest of a connection's calls, or 0. */
  function Latest(es: seq<Entry>, c: string): int {
    if es == [] then 0
    else
      var e, before := es[|es| - 1], Latest(es[..|es| - 1], c);
      if e.connection == c && e.ts > before then e.ts else before
  }

  /** A connection's series, its last seven days and its last call. */
  lemma {:induction false} ConnectionCounts(w: Window, es: seq<Entry>, c: string, d: nat)
    requires d < w.days
    ensures var u := UsageOf(FiguresOf(w, es).connections, w, c);
            && |u.series| == w.days && u.series[d] == Count(w, es, OfConnection(c, d))
            && u.calls == Count(w, es, ThisWeek(c, false)) && u.errors == Count(w, es, ThisWeek(c, true))
            && u.lastTs == Latest(es, c)
  {
    hide Window.Position;
    hide Counted;
    hide BumpDay;
    if es != [] {
      var n := |es| - 1;
      ConnectionCounts(w, es[..n], c, d);
      UsageStep(w, es, c);
      UsedCounts(UsageOf(FiguresOf(w, es[..n]).connections, w, c), w, es[n], d);
      hide FiguresOf;
      hide UsageOf;
      hide Used;
      hide Is;
      if es[n].connection != c {
        OtherConnection(w, es[n], c, d);
      }
    }
  }

  lemma UsedCounts(u: Usage, w: Window, e: Entry, d: nat)
    requires |u.series| == w.days && d < w.days
    ensures var v := Used(u, w, e);
            && |v.series| == w.days
            && v.series[d] == u.series[d] + (if Is(w, e, OfConnection(e.connection, d)) then 1 else 0)
            && v.calls == u.calls + (if Is(w, e, ThisWeek(e.connection, false)) then 1 else 0)
            && v.errors == u.errors + (if Is(w, e, ThisWeek(e.connection, true)) then 1 else 0)
            && v.lastTs == if e.ts > u.lastTs then e.ts else u.lastTs
  {
    PlaceOf(w, e.ts);
    hide DaysAgo;
    hide Window.Position;
  }

  lemma OtherConnection(w: Window, e: Entry, c: string, d: nat)
    requires e.connection != c
    ensures !Is(w, e, OfConnection(c, d)) && !Is(w, e, ThisWeek(c, false)) && !Is(w, e, ThisWeek(c, true))
  {
  }

  lemma UsageStep(w: Window, es: seq<Entry>, c: string)
    requires es != []
    ensures var n := |es| - 1;
            var before := UsageOf(FiguresOf(w, es[..n]).connections, w, c);
            UsageOf(FiguresOf(w, es).connections, w, c) == if es[n].connection == c then Used(before, w, es[n]) else before
  {
    hide Used;
    hide Counted;
    hide BumpDay;
  }

  /** A connection's week and last call as the summary tells them; it tells of those called. */
  lemma {:induction false} SummaryCounts(w: Window, es: seq<Entry>, c: string)
    ensures var s := SummaryOf(w, es);
            && (c in s <==> exists e :: e in es && e.connection == c)
            && (c in s ==> s[c].calls == Count(w, es, WeekOf(c, false)) && s[c].errors == Count(w, es, WeekOf(c, true)))
            && (c in s ==> s[c].lastTs == Latest(es, c))
            && (c !in s ==> Count(w, es, WeekOf(c, false)) == 0 && Count(w, es, WeekOf(c, true)) == 0 && Latest(es, c) == 0)
  {
    hide DaysAgo;
    if es != [] {
      var n := |es| - 1;
      SummaryCounts(w, es[..n], c);
      assert es == es[..n] + [es[n]];
    }
  }

  /** The failures of the last seven days, in the order given. */
  function WeekFailures(w: Window, es: seq<Entry>): seq<Entry> {
    if es == [] then []
    else
      var e, before := es[|es| - 1], WeekFailures(w, es[..|es| - 1]);
      if e.status != "ok" && w.now - e.ts <= 7 * DAY then before + [e] else before
  }

  /** The entries kept for display are the first eight. */
  lemma {:induction false} RecentAreFirst(w: Window, es: seq<Entry>)
    ensures FiguresOf(w, es).recent == es[..Min(8, |es|)]
  {
    hide FiguresOf;
    hide BumpDay;
    hide Used;
    hide Window.Position;
    if es == [] {
      FiguresOfNone(w);
    } else {
      var n := |es| - 1;
      RecentAreFirst(w, es[..n]);
      FiguresStep(w, es, n);
      assert es[..n + 1] == es;
      assert n < 8 ==> es[..n] + [es[n]] == es;
    }
  }

  /** The failures kept for display are the first five of the last seven days. */
  lemma {:induction false} FailuresAreFirst(w: Window, es: seq<Entry>)
    ensures FiguresOf(w, es).recentFailures == WeekFailures(w, es)[..Min(5, |WeekFailures(w, es)|)]
  {
    hide FiguresOf;
    hide BumpDay;
    hide Used;
    hide Window.Position;
    if es == [] {
      FiguresOfNone(w);
    } else {
      var n := |es| - 1;
      FailuresAreFirst(w, es[..n]);
      FiguresStep(w, es, n);
      assert es[..n + 1] == es;
    }
  }

  // --- the two seven-day figures -----------------------------------------------------------

  ghost predicate NoFuture(w: Window, es: seq<Entry>) {
    forall i :: 0 <= i < |es| ==> es[i].ts <= w.now
  }

  /** Both passes tell the same of a connection's week and of its last call. */
  predicate SameWeek(w: Window, es: seq<Entry>, c: string) {
    var shown, summary := FiguresOf(w, es).connections, SummaryOf(w, es);
    && (c in shown <==> c in summary)
    && (c in shown ==>
          shown[c].lastTs == summary[c].lastTs && shown[c].calls == summary[c].calls && shown[c].errors == summary[c].errors)
  }

  /** Every moment of the last seven days falls on a day of the window. */
  predicate WeekShown(w: Window) {
    forall ts :: w.now - 7 * DAY <= ts <= w.now ==> w.Position(ts).Some?
  }

  lemma {:induction false} SameWeekIfShown(w: Window, es: seq<Entry>, c: string)
    requires WeekShown(w) && NoFuture(w, es)
    ensures SameWeek(w, es, c)
  {
    hide Window.Position;
    hide Counted;
    hide BumpDay;
    if es != [] {
      var n := |es| - 1;
      SameWeekIfShown(w, es[..n], c);
      assert w.InWeek(es[n].ts) ==> w.Position(es[n].ts).Some?;
      hide Window.InWeek;
      hide WeekShown;
    }
  }

  function CallAt(ts: int): Entry {
    Entry(ts, "", "c", "", "", "ok", 0)
  }

  /** A call of the week on a day the window does not have is summarised and not shown. */
  lemma UnshownDiffers(w: Window, ts: int)
    requires w.now - 7 * DAY <= ts <= w.now && w.Position(ts).None?
    ensures NoFuture(w, [CallAt(ts)]) && !SameWeek(w, [CallAt(ts)], "c")
  {
    var e := CallAt(ts);
    assert [e][..0] == [] && [e][..1] == [e];
    FiguresStep(w, [e], 0);
    SummaryStep(w, [e], 0);
    hide Window.Position;
    assert FiguresOf(w, [e]).connections["c"].calls == 0;
    assert SummaryOf(w, [e])["c"].calls == 1;
  }

  /** Whatever the log holds and whatever the local clock does, the two passes agree exactly
      when every moment of the last seven days falls on a day of the window. */
  lemma SameWeekIff(w: Window)
    ensures (forall es, c :: NoFuture(w, es) ==> SameWeek(w, es, c)) <==> WeekShown(w)
  {
    hide SameWeek;
    hide Window.Position;
    if WeekShown(w) {
      forall es, c | NoFuture(w, es)
        ensures SameWeek(w, es, c)
      {
        SameWeekIfShown(w, es, c);
      }
    } else {
      var ts :| w.now - 7 * DAY <= ts <= w.now && w.Position(ts).None?;
      UnshownDiffers(w, ts);
    }
  }

  /** A clock that is always as far ahead: days have 24 hours. */
  ghost predicate FixedClock(w: Window) {
    forall s, t :: w.zone(s) == w.zone(t)
  }

  /** A clock that is put forward or back by less than a day, and never back to yesterday. */
  ghost predicate CivilClock(w: Window) {
    && (forall s, t :: s <= t ==> w.Day(s) <= w.Day(t))
    && forall s, t :: w.zone(s) - w.zone(t) < DAY
  }

  /** Eight days are enough, and needed, where days have 24 hours; nine are enough on any
      civil clock, and so are the fourteen of the dashboard. */
  lemma EnoughDays(w: Window)
    ensures FixedClock(w) ==> (WeekShown(w) <==> w.days >= 8)
    ensures CivilClock(w) && w.days >= 9 ==> WeekShown(w)
  {
    if FixedClock(w) && w.days >= 8 {
      forall ts | w.now - 7 * DAY <= ts <= w.now
        ensures w.Position(ts).Some?
      {
        assert w.zone(ts) == w.zone(w.now);
      }
    }
    if FixedClock(w) && w.days < 8 {
      var ts := w.now - 7 * DAY;
      assert w.zone(ts) == w.zone(w.now);
      assert w.Position(ts).None?;
    }
    if CivilClock(w) && w.days >= 9 {
      forall ts | w.now - 7 * DAY <= ts <= w.now
        ensures w.Position(ts).Some?
      {
        NotFarBack(w, ts);
      }
    }
  }

  lemma NotFarBack(w: Window, ts: int)
    requires CivilClock(w) && w.now - 7 * DAY <= ts <= w.now
    ensures w.Day(w.now) - 8 <= w.Day(ts) <= w.Day(w.now)
  {
    assert w.zone(w.now) - w.zone(ts) < DAY;
  }

  /** In a week that skips an hour, at half past midnight, eight days are not enough. */
  lemma SkippedHour()
    ensures var w := Window(DAY - 1800, 8, t => if t >= 0 then 3600 else 0);
            w.Position(w.now - 7 * DAY).None? && !WeekShown(w)
  {
    var w := Window(DAY - 1800, 8, t => if t >= 0 then 3600 else 0);
    assert w.Position(w.now - 7 * DAY).None?;
  }
}
