/**
 * What the finished tables say about each other. Everything here is about tables that are right
 * for some logs, which is what a pass of the aggregator leaves behind.
 */
module Conservation {
  import opened Base
  import opened Sched
  import opened Requests
  import opened Aggregate
  import opened Aggregator

  // ---- Sums over the rows of a table ----

  ghost function Sum(rows: set<Row>, f: Row -> int): int {
    if rows == {} then 0
    else
      var r :| r in rows;
      f(r) + Sum(rows - {r}, f)
  }

  lemma {:induction false} SumTakesOut(rows: set<Row>, f: Row -> int, r: Row)
    requires r in rows
    ensures Sum(rows, f) == f(r) + Sum(rows - {r}, f)
  {
    var x :| x in rows && Sum(rows, f) == f(x) + Sum(rows - {x}, f);
    if x != r {
      SumTakesOut(rows - {x}, f, r);
      SumTakesOut(rows - {r}, f, x);
      assert rows - {x} - {r} == rows - {r} - {x};
    }
  }

  lemma {:induction false} SumIsPointwise(rows: set<Row>, f: Row -> int, g: Row -> int)
    requires forall r :: r in rows ==> f(r) == g(r)
    ensures Sum(rows, f) == Sum(rows, g)
  {
    if rows != {} {
      var r :| r in rows;
      SumTakesOut(rows, f, r);
      SumTakesOut(rows, g, r);
      SumIsPointwise(rows - {r}, f, g);
    }
  }

  lemma {:induction false} SumOfNothing(rows: set<Row>, f: Row -> int)
    requires forall r :: r in rows ==> f(r) == 0
    ensures Sum(rows, f) == 0
  {
    if rows != {} {
      var r :| r in rows;
      SumTakesOut(rows, f, r);
      SumOfNothing(rows - {r}, f);
    }
  }

  // ---- One table splits a selection of the logs into its rows ----

  predicate IsIn(env: Env, l: Log, rows: set<Row>, t: Table, w: Option<Period>) {
    var r := RowFor(env, l, t, w);
    r.Some? && r.value in rows
  }

  /** The logs that belong to some row of the set. */
  function Within(env: Env, logs: seq<Log>, rows: set<Row>, t: Table, w: Option<Period>): seq<Log> {
    if logs == [] then []
    else
      var l := logs[|logs| - 1];
      Within(env, logs[..|logs| - 1], rows, t, w) + if IsIn(env, l, rows, t, w) then [l] else []
  }

  /** What a row adds up to. */
  ghost function RowTotal(env: Env, logs: seq<Log>, m: Measure): Row -> int {
    r => Total(Select(env, logs, r), m)
  }

  /** Whatever is added up, the rows of one table and window add up to the logs they share out. */
  lemma {:induction false} RowsPartitionTheirLogs(env: Env, logs: seq<Log>, rows: set<Row>, t: Table,
        w: Option<Period>, m: Measure)
    requires forall r :: r in rows ==> r.Table() == t && r.Window() == w
    ensures Sum(rows, RowTotal(env, logs, m)) == Total(Within(env, logs, rows, t, w), m)
  {
    if logs == [] {
      SumOfNothing(rows, RowTotal(env, logs, m));
    } else {
      var before, l := logs[..|logs| - 1], logs[|logs| - 1];
      assert logs == before + [l];
      RowsPartitionTheirLogs(env, before, rows, t, w, m);
      RowsShareOneMore(env, before, l, rows, t, w, m);
      WithinGrows(env, before, l, rows, t, w, m);
    }
  }

  lemma RowsShareOneMore(env: Env, before: seq<Log>, l: Log, rows: set<Row>, t: Table, w: Option<Period>, m: Measure)
    requires forall r :: r in rows ==> r.Table() == t && r.Window() == w
    ensures Sum(rows, RowTotal(env, before + [l], m))
      == Sum(rows, RowTotal(env, before, m)) + if IsIn(env, l, rows, t, w) then m.Weight(l) else 0
  {
    forall r | r in rows
      ensures Total(Select(env, before + [l], r), m)
        == Total(Select(env, before, r), m) + if RowFor(env, l, t, w) == Some(r) then m.Weight(l) else 0
    {
      HitsIsRowFor(env, l, r);
      SelectGrows(env, before, l, r, m);
    }
    SumGrows(rows, RowTotal(env, before, m), RowTotal(env, before + [l], m), RowFor(env, l, t, w), m.Weight(l));
  }

  lemma SelectGrows(env: Env, before: seq<Log>, l: Log, r: Row, m: Measure)
    ensures Total(Select(env, before + [l], r), m)
      == Total(Select(env, before, r), m) + if Hits(env, l, r) then m.Weight(l) else 0
  {
    SelectOneMore(env, before, l, r);
    TotalOneMore(Select(env, before, r), l, m);
    assert Select(env, before, r) + [] == Select(env, before, r);
  }

  lemma SumGrows(rows: set<Row>, f: Row -> int, g: Row -> int, r: Option<Row>, more: int)
    requires forall x :: x in rows ==> g(x) == f(x) + if r == Some(x) then more else 0
    ensures Sum(rows, g) == Sum(rows, f) + if r.Some? && r.value in rows then more else 0
  {
    if r.Some? && r.value in rows {
      SumTakesOut(rows, f, r.value);
      SumTakesOut(rows, g, r.value);
      SumIsPointwise(rows - {r.value}, f, g);
    } else {
      SumIsPointwise(rows, f, g);
    }
  }

  lemma WithinGrows(env: Env, before: seq<Log>, l: Log, rows: set<Row>, t: Table, w: Option<Period>, m: Measure)
    ensures Total(Within(env, before + [l], rows, t, w), m)
      == Total(Within(env, before, rows, t, w), m) + if IsIn(env, l, rows, t, w) then m.Weight(l) else 0
  {
    var was := Within(env, before, rows, t, w);
    assert (before + [l])[..|before|] == before && was + [] == was;
    TotalOneMore(was, l, m);
  }

  // ---- The daily table against the 30-day snapshot ----

  /** The additive columns of a counter row. */
  datatype Column = Requests | ErrorCount | GetCount | PutCount | DeleteCount | UploadBytes | DownloadBytes {
    function Of(t: Tally): int {
      match this
      case Requests => t.requests
      case ErrorCount => t.errors
      case GetCount => t.gets
      case PutCount => t.puts
      case DeleteCount => t.deletes
      case UploadBytes => t.uploadBytes
      case DownloadBytes => t.downloadBytes
    }

    function Measure(): Measure {
      match this
      case Requests => Logs
      case ErrorCount => Errors
      case GetCount => CountOf(Get)
      case PutCount => CountOf(Put)
      case DeleteCount => CountOf(Delete)
      case UploadBytes => BytesOf(Put)
      case DownloadBytes => BytesOf(Get)
    }
  }

  lemma ColumnsAreTotals(sel: seq<Log>, c: Column)
    ensures c.Of(TallyOf(sel)) == Total(sel, c.Measure())
  {
  }

  /** What was loaded: nothing older than 30 days. */
  predicate Loaded(env: Env, logs: seq<Log>) {
    forall l :: l in logs ==> l.at >= env.now - 720 * HOUR
  }

  /** A column of the counter rows. */
  ghost function Cells(v: Tables, c: Column): Row -> int {
    r => if r in v.counters then c.Of(v.counters[r]) else 0
  }

  ghost function DayRows(v: Tables): set<Row> {
    set r | r in v.counters && r.DayRow?
  }

  /** Midnights are monotone, so no loaded log is too old for the daily table. */
  lemma MidnightIsInRange(env: Env, at: int)
    requires at >= env.now - 720 * HOUR
    ensures DayOf(at) >= DayCut(env.now)
  {
    var cut := env.now - 720 * HOUR;
    assert DAY == 24 * HOUR && 30 * DAY == 720 * HOUR;
    assert DayOf(at) == DAY * (at / DAY) && DayOf(cut) == DAY * (cut / DAY);
    assert at / DAY >= cut / DAY;
  }

  /** Every column of the daily table adds up to the platform's 30-day figure. */
  lemma DailyConservesThePlatform(v: Tables, env: Env, logs: seq<Log>, c: Column)
    requires v.AllRight(env, logs) && Loaded(env, logs)
    ensures PlatformRow(Last30d) in v.counters
    ensures Sum(DayRows(v), Cells(v, c)) == c.Of(v.counters[PlatformRow(Last30d)])
  {
    var rows := DayRows(v);
    forall r | r in rows ensures c.Of(v.counters[r]) == Total(Select(env, logs, r), c.Measure()) {
      ColumnsAreTotals(Select(env, logs, r), c);
    }
    SumIsPointwise(rows, Cells(v, c), RowTotal(env, logs, c.Measure()));
    RowsPartitionTheirLogs(env, logs, rows, Daily, None, c.Measure());
    DaysCoverTheWindow(v, env, logs, |logs|, c.Measure());
    assert logs[..|logs|] == logs;
    ColumnsAreTotals(Select(env, logs, PlatformRow(Last30d)), c);
  }

  lemma {:induction false} DaysCoverTheWindow(v: Tables, env: Env, logs: seq<Log>, n: nat, m: Measure)
    requires IsTable(v.counters, TallyOf, Daily, env, logs) && Loaded(env, logs) && n <= |logs|
    ensures Total(Within(env, logs[..n], DayRows(v), Daily, None), m) == Total(Select(env, logs[..n], PlatformRow(Last30d)), m)
  {
    if n > 0 {
      var before, l := logs[..n - 1], logs[n - 1];
      DaysCoverTheWindow(v, env, logs, n - 1, m);
      assert logs[..n] == before + [l];
      WithinGrows(env, before, l, DayRows(v), Daily, None, m);
      SelectGrows(env, before, l, PlatformRow(Last30d), m);
      LoadedLogHasADay(v, env, logs, n - 1);
    }
  }

  lemma LoadedLogHasADay(v: Tables, env: Env, logs: seq<Log>, i: nat)
    requires IsTable(v.counters, TallyOf, Daily, env, logs) && Loaded(env, logs) && i < |logs|
    ensures IsIn(env, logs[i], DayRows(v), Daily, None) <==> Hits(env, logs[i], PlatformRow(Last30d))
  {
    var l := logs[i];
    MidnightIsInRange(env, l.at);
    if IsObjectRequest(l.action) {
      SelectedWhenHit(env, logs, i, DayRow(DayOf(l.at)));
    }
  }

  lemma {:induction false} SelectedWhenHit(env: Env, logs: seq<Log>, i: nat, r: Row)
    requires i < |logs| && Hits(env, logs[i], r)
    ensures logs[i] in Select(env, logs, r)
  {
    if i < |logs| - 1 {
      SelectedWhenHit(env, logs[..|logs| - 1], i, r);
    }
  }

  lemma {:induction false} SelectedIff(env: Env, logs: seq<Log>, r: Row, l: Log)
    ensures l in Select(env, logs, r) <==> l in logs && Hits(env, l, r)
  {
    if logs != [] {
      var n := |logs| - 1;
      SelectedIff(env, logs[..n], r, l);
      assert logs == logs[..n] + [logs[n]];
    }
  }

  // ---- Parts of a selection ----

  /** The logs of a selection that pass a test. */
  function Only(sel: seq<Log>, test: Log -> bool): seq<Log> {
    if sel == [] then []
    else
      var l := sel[|sel| - 1];
      Only(sel[..|sel| - 1], test) + if test(l) then [l] else []
  }

  lemma OnlyOneMore(sel: seq<Log>, l: Log, test: Log -> bool)
    ensures Only(sel + [l], test) == Only(sel, test) + if test(l) then [l] else []
  {
    assert (sel + [l])[..|sel|] == sel;
  }

  /** A part adds up to at most the whole, and to the whole just when nothing that counts was left out. */
  lemma {:induction false} PartsAreSmaller(sel: seq<Log>, test: Log -> bool, m: Measure)
    requires forall l: Log :: l in sel ==> m.Weight(l) >= 0
    ensures 0 <= Total(Only(sel, test), m) <= Total(sel, m)
    ensures Total(Only(sel, test), m) == Total(sel, m) <==> forall l: Log :: l in sel && m.Weight(l) != 0 ==> test(l)
  {
    if sel != [] {
      var before, l := sel[..|sel| - 1], sel[|sel| - 1];
      PartsAreSmaller(before, test, m);
      TotalOneMore(Only(before, test), l, m);
      assert Only(before, test) + [] == Only(before, test);
      LastIsIn(sel);
    }
  }

  lemma LastIsIn<T>(s: seq<T>)
    requires s != []
    ensures forall x :: x in s <==> x in s[..|s| - 1] || x == s[|s| - 1]
  {
    assert s == s[..|s| - 1] + [s[|s| - 1]];
  }

  lemma {:induction false} TransfersAreGetsAndPuts(sel: seq<Log>)
    ensures Total(sel, Transfers) == Total(sel, CountOf(Get)) + Total(sel, CountOf(Put))
  {
    if sel != [] {
      TransfersAreGetsAndPuts(sel[..|sel| - 1]);
    }
  }

  // ---- Prefix rows against their bucket ----

  ghost function PrefixRows(v: Tables, b: int, p: Period): set<Row> {
    set r | r in v.prefixes && r.PrefixRow? && r.bucket == b && r.period == p
  }

  ghost function PrefixCells(v: Tables): Row -> int {
    r => if r in v.prefixes then v.prefixes[r] else 0
  }

  ghost function HasKey(): Log -> bool {
    (l: Log) => l.key.Some?
  }

  /**
   * A bucket's prefixes add up to its keyed puts and gets, hence to at most its
   * puts and gets, and to exactly those when every one of them names a key.
   */
  lemma PrefixesConserveTheirBucket(v: Tables, env: Env, logs: seq<Log>, b: int, p: Period)
    requires v.AllRight(env, logs)
    ensures BucketRow(b, p) !in v.counters ==> PrefixRows(v, b, p) == {}
    ensures BucketRow(b, p) in v.counters ==>
      var sel, t := Select(env, logs, BucketRow(b, p)), v.counters[BucketRow(b, p)];
      var sum := Sum(PrefixRows(v, b, p), PrefixCells(v));
      && sum == Total(Only(sel, HasKey()), Transfers)
      && sum <= t.gets + t.puts
      && (sum == t.gets + t.puts
          <==> forall l :: l in sel && (OpOf(l.action) == Get || OpOf(l.action) == Put) ==> l.key.Some?)
  {
    var sel := Select(env, logs, BucketRow(b, p));
    PrefixSum(v, env, logs, b, p);
    PartsAreSmaller(sel, HasKey(), Transfers);
    TransfersAreGetsAndPuts(sel);
    if BucketRow(b, p) !in v.counters {
      assert sel == [];
      NoBucketNoPrefixes(v, env, logs, b, p);
    }
  }

  lemma PrefixSum(v: Tables, env: Env, logs: seq<Log>, b: int, p: Period)
    requires IsTable(v.prefixes, SizeOf, Prefixes, env, logs)
    ensures Sum(PrefixRows(v, b, p), PrefixCells(v)) == Total(Only(Select(env, logs, BucketRow(b, p)), HasKey()), Transfers)
  {
    var rows := PrefixRows(v, b, p);
    forall r | r in rows ensures v.prefixes[r] == Total(Select(env, logs, r), Transfers) {
      PrefixLogsAreTransfers(env, logs, r);
    }
    SumIsPointwise(rows, PrefixCells(v), RowTotal(env, logs, Transfers));
    RowsPartitionTheirLogs(env, logs, rows, Prefixes, Some(p), Transfers);
    PrefixesCoverKeyedTransfers(v, env, logs, b, p, |logs|);
    assert logs[..|logs|] == logs;
  }

  lemma NoBucketNoPrefixes(v: Tables, env: Env, logs: seq<Log>, b: int, p: Period)
    requires IsTable(v.prefixes, SizeOf, Prefixes, env, logs) && Select(env, logs, BucketRow(b, p)) == []
    ensures PrefixRows(v, b, p) == {}
  {
    if r :| r in PrefixRows(v, b, p) {
      var l := Select(env, logs, r)[0];
      SelectedIff(env, logs, r, l);
      SelectedIff(env, logs, BucketRow(b, p), l);
    }
  }

  lemma {:induction false} PrefixLogsAreTransfers(env: Env, logs: seq<Log>, r: Row)
    requires r.PrefixRow?
    ensures |Select(env, logs, r)| == Total(Select(env, logs, r), Transfers)
  {
    if logs != [] {
      var before, l := logs[..|logs| - 1], logs[|logs| - 1];
      PrefixLogsAreTransfers(env, before, r);
      SelectGrows(env, before, l, r, Transfers);
      assert logs == before + [l];
    }
  }

  lemma {:induction false} PrefixesCoverKeyedTransfers(v: Tables, env: Env, logs: seq<Log>, b: int, p: Period, n: nat)
    requires IsTable(v.prefixes, SizeOf, Prefixes, env, logs) && n <= |logs|
    ensures Total(Within(env, logs[..n], PrefixRows(v, b, p), Prefixes, Some(p)), Transfers)
      == Total(Only(Select(env, logs[..n], BucketRow(b, p)), HasKey()), Transfers)
  {
    if n > 0 {
      var rows, before, l := PrefixRows(v, b, p), logs[..n - 1], logs[n - 1];
      PrefixesCoverKeyedTransfers(v, env, logs, b, p, n - 1);
      assert logs[..n] == before + [l];
      PartGrows(env, before, l, BucketRow(b, p), HasKey(), Transfers);
      WithinGrows(env, before, l, rows, Prefixes, Some(p), Transfers);
      KeyedTransferHasARow(v, env, logs, n - 1, b, p);
    }
  }

  lemma KeyedTransferHasARow(v: Tables, env: Env, logs: seq<Log>, i: nat, b: int, p: Period)
    requires IsTable(v.prefixes, SizeOf, Prefixes, env, logs) && i < |logs|
    ensures var l := logs[i];
      IsIn(env, l, PrefixRows(v, b, p), Prefixes, Some(p)) <==>
        (Hits(env, l, BucketRow(b, p)) && l.key.Some? && Transfers.Weight(l) == 1)
  {
    var r := RowFor(env, logs[i], Prefixes, Some(p));
    if r.Some? {
      HitsIsRowFor(env, logs[i], r.value);
      SelectedWhenHit(env, logs, i, r.value);
    }
  }

  lemma PartGrows(env: Env, before: seq<Log>, l: Log, r: Row, test: Log -> bool, m: Measure)
    ensures Total(Only(Select(env, before + [l], r), test), m)
      == Total(Only(Select(env, before, r), test), m) + if Hits(env, l, r) && test(l) then m.Weight(l) else 0
  {
    var sel := Select(env, before, r);
    SelectOneMore(env, before, l, r);
    OnlyOneMore(sel, l, test);
    TotalOneMore(Only(sel, test), l, m);
    assert sel + [] == sel && Only(sel, test) + [] == Only(sel, test);
  }

  // ---- User rows against their account ----

  ghost function UserRows(v: Tables, a: int, p: Period): set<Row> {
    set r | r in v.users && r.UserRow? && r.account == a && r.period == p
  }

  ghost function HasActor(): Log -> bool {
    (l: Log) => l.userId.Some?
  }

  /** The columns that user rows share with account rows. */
  datatype UserColumn = Uploads | Downloads | Deletes | BytesUp | BytesDown {
    function Of(t: UserTally): int {
      match this
      case Uploads => t.uploads
      case Downloads => t.downloads
      case Deletes => t.deletes
      case BytesUp => t.uploadBytes
      case BytesDown => t.downloadBytes
    }

    function Account(): Column {
      match this
      case Uploads => PutCount
      case Downloads => GetCount
      case Deletes => DeleteCount
      case BytesUp => UploadBytes
      case BytesDown => DownloadBytes
    }
  }

  ghost function UserCells(v: Tables, c: UserColumn): Row -> int {
    r => if r in v.users then c.Of(v.users[r]) else 0
  }

  /**
   * An account's users add up to what the account's logs with an actor add up to, hence to at most
   * the account's figure, and to exactly it when every log that counts there has an actor.
   */
  lemma UsersConserveTheirAccount(v: Tables, env: Env, logs: seq<Log>, a: int, p: Period, c: UserColumn)
    requires v.AllRight(env, logs) && forall l: Log :: l in logs ==> l.size >= 0
    ensures AccountRow(a, p) !in v.counters ==> UserRows(v, a, p) == {}
    ensures AccountRow(a, p) in v.counters ==>
      var sel, m, sum := Select(env, logs, AccountRow(a, p)), c.Account().Measure(), Sum(UserRows(v, a, p), UserCells(v, c));
      var whole := c.Account().Of(v.counters[AccountRow(a, p)]);
      && sum == Total(Only(sel, HasActor()), m)
      && sum <= whole
      && (sum == whole <==> forall l: Log :: l in sel && m.Weight(l) != 0 ==> l.userId.Some?)
  {
    var sel, m := Select(env, logs, AccountRow(a, p)), c.Account().Measure();
    UserSum(v, env, logs, a, p, c);
    NothingNegative(env, logs, AccountRow(a, p), m);
    PartsAreSmaller(sel, HasActor(), m);
    ColumnsAreTotals(sel, c.Account());
    assert AccountRow(a, p) in v.counters ==> v.counters[AccountRow(a, p)] == TallyOf(sel);
    if AccountRow(a, p) !in v.counters {
      assert sel == [];
      UserRowIffActor(v, env, logs, a, p);
    }
  }

  lemma NothingNegative(env: Env, logs: seq<Log>, r: Row, m: Measure)
    requires forall l: Log :: l in logs ==> l.size >= 0
    ensures forall l: Log :: l in Select(env, logs, r) ==> m.Weight(l) >= 0
  {
    forall l: Log | l in Select(env, logs, r) ensures m.Weight(l) >= 0 {
      SelectedIff(env, logs, r, l);
    }
  }

  lemma UserSum(v: Tables, env: Env, logs: seq<Log>, a: int, p: Period, c: UserColumn)
    requires IsTable(v.users, UserTallyOf, Users, env, logs)
    ensures Sum(UserRows(v, a, p), UserCells(v, c))
      == Total(Only(Select(env, logs, AccountRow(a, p)), HasActor()), c.Account().Measure())
  {
    var rows, m := UserRows(v, a, p), c.Account().Measure();
    forall r | r in rows ensures c.Of(v.users[r]) == Total(Select(env, logs, r), m) {
      assert v.users[r] == UserTallyOf(Select(env, logs, r));
    }
    SumIsPointwise(rows, UserCells(v, c), RowTotal(env, logs, m));
    RowsPartitionTheirLogs(env, logs, rows, Users, Some(p), m);
    forall i: nat | i < |logs|
      ensures IsIn(env, logs[i], rows, Users, Some(p)) <==> Hits(env, logs[i], AccountRow(a, p)) && logs[i].userId.Some?
    {
      ActorHasARow(v, env, logs, i, a, p);
    }
    RowsCoverActors(rows, env, logs, a, p, |logs|, m);
    assert logs[..|logs|] == logs;
  }

  lemma {:induction false} RowsCoverActors(rows: set<Row>, env: Env, logs: seq<Log>, a: int, p: Period, n: nat, m: Measure)
    requires n <= |logs| && forall i :: 0 <= i < |logs| ==>
      (IsIn(env, logs[i], rows, Users, Some(p)) <==> Hits(env, logs[i], AccountRow(a, p)) && logs[i].userId.Some?)
    ensures Total(Within(env, logs[..n], rows, Users, Some(p)), m)
      == Total(Only(Select(env, logs[..n], AccountRow(a, p)), HasActor()), m)
  {
    if n > 0 {
      var before, l := logs[..n - 1], logs[n - 1];
      RowsCoverActors(rows, env, logs, a, p, n - 1, m);
      assert logs[..n] == before + [l];
      PartGrows(env, before, l, AccountRow(a, p), HasActor(), m);
      WithinGrows(env, before, l, rows, Users, Some(p), m);
    }
  }

  lemma ActorHasARow(v: Tables, env: Env, logs: seq<Log>, i: nat, a: int, p: Period)
    requires IsTable(v.users, UserTallyOf, Users, env, logs) && i < |logs|
    ensures var l := logs[i];
      IsIn(env, l, UserRows(v, a, p), Users, Some(p)) <==> Hits(env, l, AccountRow(a, p)) && l.userId.Some?
  {
    var r := RowFor(env, logs[i], Users, Some(p));
    if r.Some? {
      HitsIsRowFor(env, logs[i], r.value);
      SelectedWhenHit(env, logs, i, r.value);
    }
  }

  /** There is a user row for exactly the actors of the account's logs. */
  lemma UserRowIffActor(v: Tables, env: Env, logs: seq<Log>, a: int, p: Period)
    requires IsTable(v.users, UserTallyOf, Users, env, logs)
    ensures forall u :: UserRow(u, a, p) in UserRows(v, a, p) <==> u in Actors(Select(env, logs, AccountRow(a, p)))
    ensures Select(env, logs, AccountRow(a, p)) == [] ==> UserRows(v, a, p) == {}
  {
    var sel := Select(env, logs, AccountRow(a, p));
    forall u ensures UserRow(u, a, p) in UserRows(v, a, p) <==> u in Actors(sel) {
      var r := UserRow(u, a, p);
      if r in v.users {
        var l := Select(env, logs, r)[0];
        SelectedIff(env, logs, r, l);
        SelectedIff(env, logs, AccountRow(a, p), l);
      }
      if u in Actors(sel) {
        var l :| l in sel && l.userId == Some(u);
        SelectedIff(env, logs, AccountRow(a, p), l);
        SelectedIff(env, logs, r, l);
      }
    }
    forall r | r in UserRows(v, a, p) ensures r.user in Actors(sel) {
      assert r == UserRow(r.user, a, p);
    }
  }

  /** The active-user count of an account is its number of user rows. */
  lemma ActiveUsersAreTheUserRows(v: Tables, env: Env, logs: seq<Log>, a: int, p: Period)
    requires v.AllRight(env, logs)
    ensures AccountRow(a, p) in v.counters ==>
      var active := v.counters[AccountRow(a, p)].active;
      && (forall u :: u in active <==> UserRow(u, a, p) in v.users)
      && |active| == |UserRows(v, a, p)|
  {
    UserRowIffActor(v, env, logs, a, p);
    if AccountRow(a, p) in v.counters {
      var active := v.counters[AccountRow(a, p)].active;
      assert active == Actors(Select(env, logs, AccountRow(a, p)));
      var rowOf := u => UserRow(u, a, p);
      forall r | r in UserRows(v, a, p) ensures exists u :: u in active && rowOf(u) == r {
        assert r == rowOf(r.user) && r.user in active;
      }
      SameNumber(active, UserRows(v, a, p), rowOf);
    }
  }

  /** A one-to-one image has as many elements. */
  lemma {:induction false} SameNumber<T>(users: set<T>, rows: set<Row>, rowOf: T -> Row)
    requires forall u :: u in users ==> rowOf(u) in rows
    requires forall r :: r in rows ==> exists u :: u in users && rowOf(u) == r
    requires forall u, u' :: u in users && u' in users && rowOf(u) == rowOf(u') ==> u == u'
    ensures |users| == |rows|
  {
    if users != {} {
      var u :| u in users;
      SameNumber(users - {u}, rows - {rowOf(u)}, rowOf);
    } else {
      assert rows == {};
    }
  }
}
