/**
 * The inventory scan of a bucket: list page by page, stamp a record for each object listed, then
 * sweep the records that did not get a stamp. Others may write objects and records in between.
 */
module Inventory {
  import opened Base
  import opened Text
  import opened Objects

  /**
   * A scan and what is known of its surroundings: the stamp it writes, the oldest stamp
   * other writers carry, and whether the storage may send a truncated page without a token.
   */
  datatype Config = Config(bucket: int, started: int, oldest: int, tokenless: bool)

  /** What the scan still has to do: the rest of the page, and where to go on, if anywhere. */
  datatype Scan = Scan(rest: seq<Listed>, more: Option<string>)

  const BEGIN := Scan([], Some(""))

  datatype World = World(d: Disk, scan: Scan)

  /** What others do to objects and records. */
  datatype Deed = Put(at: Loc, object: Object) | Drop(at: Loc) | Record(at: Loc, row: Row) | Unrecord(at: Loc)

  datatype Event = Page(page: ListPage) | Stamp | Sweep | Other(deed: Deed)

  /** Others record with stamps that are not too old, and unrecord only what is gone. */
  predicate Polite(d: Disk, deed: Deed, cfg: Config) {
    match deed
    case Record(_, row) => row.seen.Some? && row.seen.value >= cfg.oldest
    case Unrecord(at) => at !in d.objects
    case _ => true
  }

  function Done(d: Disk, deed: Deed): Disk {
    match deed
    case Put(at, o) => d.(objects := d.objects[at := o])
    case Drop(at) => d.(objects := d.objects - {at})
    case Record(at, row) => d.(rows := d.rows[at := row])
    case Unrecord(at) => d.(rows := d.rows - {at})
  }

  ghost predicate Answers(objects: map<Loc, Object>, after: string, page: ListPage, cfg: Config) {
    || IsPage(objects, cfg.bucket, "", after, page)
    || (cfg.tokenless && page.token == "" && exists token :: IsPage(objects, cfg.bucket, "", after, page.(token := token)))
  }

  ghost predicate Enabled(w: World, e: Event, cfg: Config) {
    match e
    case Page(page) => w.scan.rest == [] && w.scan.more.Some? && Answers(w.d.objects, w.scan.more.value, page, cfg)
    case Stamp => w.scan.rest != []
    case Sweep => w.scan == Scan([], None)
    case Other(deed) => Polite(w.d, deed, cfg)
  }

  function Stamped(rows: Rows, o: Listed, cfg: Config): Rows {
    if o.key == "" then rows else SeenAt(rows, Loc(cfg.bucket, o.key), o.size, o.etag, cfg.started)
  }

  function Next(w: World, e: Event, cfg: Config): World {
    match e
    case Page(page) => w.(scan := Scan(page.objects, if !page.truncated || page.token == "" then None else Some(page.token)))
    case Stamp =>
      if w.scan.rest == [] then w
      else World(w.d.(rows := Stamped(w.d.rows, w.scan.rest[0], cfg)), w.scan.(rest := w.scan.rest[1..]))
    case Sweep => w.(d := w.d.(rows := Purged(w.d.rows, cfg.bucket, cfg.started)))
    case Other(deed) => w.(d := Done(w.d, deed))
  }

  /** ws are the worlds before, between and after the events; the scan has not swept yet. */
  ghost predicate IsScan(ws: seq<World>, es: seq<Event>, cfg: Config) {
    && |ws| == |es| + 1 && ws[0].scan == BEGIN
    && forall i :: 0 <= i < |es| ==> Enabled(ws[i], es[i], cfg) && !es[i].Sweep? && ws[i + 1] == Next(ws[i], es[i], cfg)
  }

  ghost predicate PresentThroughout(ws: seq<World>, at: Loc) {
    forall i :: 0 <= i < |ws| ==> at in ws[i].d.objects
  }

  // ---- Nothing that stays is overlooked ----

  predicate IsFresh(d: Disk, at: Loc, cfg: Config) {
    at in d.rows && !IsStale(d.rows[at], cfg.started)
  }

  /** The scan has not come to the key yet. */
  ghost predicate IsAhead(scan: Scan, key: string) {
    (exists i :: 0 <= i < |scan.rest| && scan.rest[i].key == key) || (scan.more.Some? && Less(scan.more.value, key))
  }

  lemma StepLeavesNothingBehind(w: World, e: Event, cfg: Config, at: Loc)
    requires Enabled(w, e, cfg) && !e.Sweep? && cfg.oldest >= cfg.started && !cfg.tokenless
    requires at.bucket == cfg.bucket && at.key != "" && at in w.d.objects
    requires IsFresh(w.d, at, cfg) || IsAhead(w.scan, at.key)
    ensures var w' := Next(w, e, cfg); IsFresh(w'.d, at, cfg) || IsAhead(w'.scan, at.key)
  {
    var w' := Next(w, e, cfg);
    if !IsFresh(w.d, at, cfg) {
      match e
      case Page(page) =>
        assert at.key in KeysUnder(w.d.objects, cfg.bucket, "", w.scan.more.value);
        if ListedAs(w.d.objects, cfg.bucket, at.key) in page.objects {
          var i :| 0 <= i < |page.objects| && page.objects[i] == ListedAs(w.d.objects, cfg.bucket, at.key);
          assert w'.scan.rest[i].key == at.key;
        }
      case Stamp =>
        if exists i :: 0 <= i < |w.scan.rest| && w.scan.rest[i].key == at.key {
          var i :| 0 <= i < |w.scan.rest| && w.scan.rest[i].key == at.key;
          assert i > 0 ==> w'.scan.rest[i - 1].key == at.key;
        }
      case _ =>
    }
  }

  lemma {:induction false} NothingIsLeftBehind(ws: seq<World>, es: seq<Event>, cfg: Config, n: nat, at: Loc)
    requires IsScan(ws, es, cfg) && n <= |es| && cfg.oldest >= cfg.started && !cfg.tokenless
    requires at.bucket == cfg.bucket && at.key != "" && PresentThroughout(ws, at)
    ensures IsFresh(ws[n].d, at, cfg) || IsAhead(ws[n].scan, at.key)
  {
    if n == 0 {
      EmptyIsLeast(at.key);
    } else {
      NothingIsLeftBehind(ws, es, cfg, n - 1, at);
      StepLeavesNothingBehind(ws[n - 1], es[n - 1], cfg, at);
    }
  }

  /** The scan is at its end: nothing is left but to sweep. */
  ghost predicate IsThrough(ws: seq<World>, es: seq<Event>, cfg: Config) {
    IsScan(ws, es, cfg) && Enabled(ws[|es|], Sweep, cfg)
  }

  function Swept(ws: seq<World>, cfg: Config): Disk
    requires ws != []
  {
    Next(ws[|ws| - 1], Sweep, cfg).d
  }

  /** Whatever else went on, an object that was there all along has a record after the sweep. */
  ghost predicate KeepsWhatStays(cfg: Config) {
    forall ws: seq<World>, es: seq<Event>, at: Loc ::
      IsThrough(ws, es, cfg) && at.bucket == cfg.bucket && at.key != "" && PresentThroughout(ws, at) ==> at in Swept(ws, cfg).rows
  }

  lemma SweepKeeps(ws: seq<World>, es: seq<Event>, cfg: Config, at: Loc)
    requires IsThrough(ws, es, cfg) && cfg.oldest >= cfg.started && !cfg.tokenless
    requires at.bucket == cfg.bucket && at.key != "" && PresentThroughout(ws, at)
    ensures at in Swept(ws, cfg).rows && IsFresh(Swept(ws, cfg), at, cfg)
  {
    NothingIsLeftBehind(ws, es, cfg, |es|, at);
  }

  /**
   * The sweep spares every object that stays exactly when no other writer carries a stamp from before
   * the scan (a batch or another scan that began earlier does) and every truncated page has a token.
   */
  lemma SweepIsSafeIff(cfg: Config)
    ensures KeepsWhatStays(cfg) <==> cfg.oldest >= cfg.started && !cfg.tokenless
  {
    if cfg.oldest >= cfg.started && !cfg.tokenless {
      forall ws: seq<World>, es: seq<Event>, at: Loc
        | IsThrough(ws, es, cfg) && at.bucket == cfg.bucket && at.key != "" && PresentThroughout(ws, at)
        ensures at in Swept(ws, cfg).rows
      {
        SweepKeeps(ws, es, cfg, at);
      }
    } else if cfg.oldest < cfg.started {
      var ws, es := OldStampRun(cfg);
    } else {
      var ws, es := LostTokenRun(cfg);
    }
  }

  /** The object is listed and stamped, then recorded again with an older stamp. */
  lemma OldStampRun(cfg: Config) returns (ws: seq<World>, es: seq<Event>)
    requires cfg.oldest < cfg.started
    ensures var at := Loc(cfg.bucket, "a");
      IsThrough(ws, es, cfg) && PresentThroughout(ws, at) && at !in Swept(ws, cfg).rows
  {
    var at, o := Loc(cfg.bucket, "a"), Object([], None);
    var d := Disk(map[at := o], map[]);
    var page := ListPage([Listed("a", 0, None)], false, "");
    var stale := Row(0, None, Some(cfg.oldest), cfg.oldest, None);
    assert IsPage(d.objects, cfg.bucket, "", "", page) by {
      assert page.objects[0] == ListedAs(d.objects, cfg.bucket, "a");
      assert "a" in KeysUnder(d.objects, cfg.bucket, "", "");
    }
    es := [Page(page), Stamp, Other(Record(at, stale))];
    var w1 := Next(World(d, BEGIN), es[0], cfg);
    var w2 := Next(w1, es[1], cfg);
    ws := [World(d, BEGIN), w1, w2, Next(w2, es[2], cfg)];
  }

  /** A page is cut after the first object and has no token. */
  lemma LostTokenRun(cfg: Config) returns (ws: seq<World>, es: seq<Event>)
    requires cfg.tokenless
    ensures var at := Loc(cfg.bucket, "b");
      IsThrough(ws, es, cfg) && PresentThroughout(ws, at) && at !in Swept(ws, cfg).rows
  {
    var a, b := Loc(cfg.bucket, "a"), Loc(cfg.bucket, "b");
    var d := Disk(map[a := Object([], None), b := Object([], None)], map[]);
    var page := ListPage([Listed("a", 0, None)], true, "");
    assert IsPage(d.objects, cfg.bucket, "", "", page.(token := "a")) by {
      assert page.objects[0] == ListedAs(d.objects, cfg.bucket, "a");
      assert "a" in KeysUnder(d.objects, cfg.bucket, "", "");
      assert Less("a", "b");
    }
    es := [Page(page), Stamp];
    var w1 := Next(World(d, BEGIN), es[0], cfg);
    var w2 := Next(w1, es[1], cfg);
    assert w2.d.rows.Keys == {a} && a != b by { assert "a"[0] != "b"[0]; }
    ws := [World(d, BEGIN), w1, w2];
  }

  // ---- What survives ----

  /** The scan listed the key. */
  ghost predicate WasListed(ws: seq<World>, es: seq<Event>, n: nat, key: string)
    requires |ws| == |es| + 1 && n <= |es|
  {
    exists i :: 0 <= i < n && es[i].Stamp? && ws[i].scan.rest != [] && ws[i].scan.rest[0].key == key
  }

  ghost predicate WasRecorded(es: seq<Event>, n: nat, at: Loc)
    requires n <= |es|
  {
    exists i :: 0 <= i < n && es[i].Other? && es[i].deed.Record? && es[i].deed.at == at
  }

  lemma {:induction false} RowsComeFromSomewhere(ws: seq<World>, es: seq<Event>, cfg: Config, n: nat, at: Loc)
    requires IsScan(ws, es, cfg) && n <= |es| && at in ws[n].d.rows
    ensures (at in ws[0].d.rows && ws[n].d.rows[at] == ws[0].d.rows[at])
      || (at.bucket == cfg.bucket && WasListed(ws, es, n, at.key)) || WasRecorded(es, n, at)
  {
    if n > 0 {
      var w, e := ws[n - 1], es[n - 1];
      assert ws[n] == Next(w, e, cfg);
      if at in w.d.rows && w.d.rows[at] == ws[n].d.rows[at] {
        RowsComeFromSomewhere(ws, es, cfg, n - 1, at);
      } else if e.Stamp? {
        assert w.scan.rest != [] && w.scan.rest[0].key == at.key;
      } else {
        assert e.Other? && e.deed.Record? && e.deed.at == at;
      }
    }
  }

  /** A record of the bucket survives iff its stamp is no older than the scan; then it was listed, recorded by another,
   *  or had that stamp before. */
  lemma SurvivorsAreListedOrRecorded(ws: seq<World>, es: seq<Event>, cfg: Config, at: Loc)
    requires IsThrough(ws, es, cfg)
    ensures var d, rows, d' := ws[0].d, ws[|es|].d.rows, Swept(ws, cfg);
      && (at in d'.rows <==>
            at in rows && (at.bucket == cfg.bucket ==> rows[at].seen.Some? && rows[at].seen.value >= cfg.started))
      && (at in d'.rows ==> d'.rows[at] == rows[at])
      && (at in d'.rows && at.bucket == cfg.bucket ==>
            || WasListed(ws, es, |es|, at.key) || WasRecorded(es, |es|, at)
            || (at in d.rows && d'.rows[at] == d.rows[at] && d.rows[at].seen.Some? && d.rows[at].seen.value >= cfg.started))
  {
    if at in ws[|es|].d.rows {
      RowsComeFromSomewhere(ws, es, cfg, |es|, at);
    }
  }

  /** No other writer has recorded or unrecorded the place. */
  ghost predicate IsLeftAlone(es: seq<Event>, n: nat, at: Loc)
    requires n <= |es|
  {
    forall i :: 0 <= i < n ==> !(es[i].Other? && (es[i].deed.Record? || es[i].deed.Unrecord?) && es[i].deed.at == at)
  }

  /** The scan's own writing: it keeps the creator of a record there was, and nobody has created a record it adds. */
  predicate IsOwnWork(rows: Rows, rows': Rows, at: Loc, cfg: Config) {
    at in rows' ==>
      && rows'[at].createdBy == (if at in rows then rows[at].createdBy else None)
      && ((at in rows && rows'[at] == rows[at])
          || (at.bucket == cfg.bucket && rows'[at].seen == Some(cfg.started) && rows'[at].updated == cfg.started))
  }

  /** Before the sweep, what no other writer touched is as it was or stamped, and either way whose it was. */
  lemma {:induction false} ScansKeepCreators(ws: seq<World>, es: seq<Event>, cfg: Config, n: nat, at: Loc)
    requires IsScan(ws, es, cfg) && n <= |es| && IsLeftAlone(es, n, at)
    ensures IsOwnWork(ws[0].d.rows, ws[n].d.rows, at, cfg)
    ensures at in ws[0].d.rows ==> at in ws[n].d.rows
  {
    if n > 0 {
      ScansKeepCreators(ws, es, cfg, n - 1, at);
      assert ws[n] == Next(ws[n - 1], es[n - 1], cfg);
    }
  }

  /** Before the sweep no record goes, except where others take one away: a scan that fails removes nothing. */
  lemma {:induction false} UnsweptScansRemoveNothing(ws: seq<World>, es: seq<Event>, cfg: Config, n: nat, at: Loc)
    requires IsScan(ws, es, cfg) && n <= |es| && at in ws[0].d.rows
    requires forall i :: 0 <= i < n ==> es[i] != Other(Unrecord(at))
    ensures at in ws[n].d.rows
  {
    if n > 0 {
      UnsweptScansRemoveNothing(ws, es, cfg, n - 1, at);
      assert ws[n] == Next(ws[n - 1], es[n - 1], cfg);
    }
  }

  // ---- An undisturbed scan ----

  ghost predicate Undisturbed(es: seq<Event>) {
    forall i :: 0 <= i < |es| ==> !es[i].Other?
  }

  /** The record the scan writes for an object. */
  predicate IsExact(d: Disk, at: Loc, cfg: Config) {
    at in d.objects && at in d.rows && d.rows[at].size == |d.objects[at].content|
    && d.rows[at].etag == d.objects[at].etag && d.rows[at].seen == Some(cfg.started) && d.rows[at].updated == cfg.started
  }

  /** Each object of the bucket is recorded exactly or still ahead; no other record has changed. */
  ghost predicate InProgress(d0: Disk, w: World, cfg: Config) {
    && w.d.objects == d0.objects
    && (forall i :: 0 <= i < |w.scan.rest| ==>
          var k := w.scan.rest[i].key;
          Loc(cfg.bucket, k) in d0.objects && w.scan.rest[i] == ListedAs(d0.objects, cfg.bucket, k))
    && (forall at: Loc :: at in d0.objects && at.bucket == cfg.bucket && at.key != "" ==>
          IsExact(w.d, at, cfg) || IsAhead(w.scan, at.key))
    && (forall at: Loc :: at.bucket != cfg.bucket || at !in d0.objects || at.key == "" ==> SameRow(d0.rows, w.d.rows, at))
  }

  predicate SameRow(rows: Rows, rows': Rows, at: Loc) {
    (at in rows' <==> at in rows) && (at in rows ==> rows'[at] == rows[at])
  }

  lemma PageProgress(d0: Disk, w: World, page: ListPage, cfg: Config)
    requires InProgress(d0, w, cfg) && Enabled(w, Page(page), cfg) && !cfg.tokenless
    ensures InProgress(d0, Next(w, Page(page), cfg), cfg)
  {
    var w' := Next(w, Page(page), cfg);
    forall at: Loc | at in d0.objects && at.bucket == cfg.bucket && at.key != ""
      ensures IsExact(w'.d, at, cfg) || IsAhead(w'.scan, at.key)
    {
      if !IsExact(w.d, at, cfg) {
        assert at.key in KeysUnder(d0.objects, cfg.bucket, "", w.scan.more.value);
        if ListedAs(d0.objects, cfg.bucket, at.key) in page.objects {
          var i :| 0 <= i < |page.objects| && page.objects[i] == ListedAs(d0.objects, cfg.bucket, at.key);
          assert w'.scan.rest[i].key == at.key;
        }
      }
    }
  }

  lemma StampProgress(d0: Disk, w: World, cfg: Config)
    requires InProgress(d0, w, cfg) && Enabled(w, Stamp, cfg)
    ensures InProgress(d0, Next(w, Stamp, cfg), cfg)
  {
    var w', o := Next(w, Stamp, cfg), w.scan.rest[0];
    forall i | 0 <= i < |w'.scan.rest|
      ensures var k := w'.scan.rest[i].key;
        Loc(cfg.bucket, k) in d0.objects && w'.scan.rest[i] == ListedAs(d0.objects, cfg.bucket, k)
    {
      assert w'.scan.rest[i] == w.scan.rest[i + 1];
    }
    forall at: Loc | at in d0.objects && at.bucket == cfg.bucket && at.key != ""
      ensures IsExact(w'.d, at, cfg) || IsAhead(w'.scan, at.key)
    {
      if at.key != o.key && !IsExact(w.d, at, cfg) && exists i :: 0 <= i < |w.scan.rest| && w.scan.rest[i].key == at.key {
        var i :| 0 <= i < |w.scan.rest| && w.scan.rest[i].key == at.key;
        assert w'.scan.rest[i - 1].key == at.key;
      }
    }
  }

  lemma {:induction false} ScanProgress(ws: seq<World>, es: seq<Event>, cfg: Config, n: nat)
    requires IsScan(ws, es, cfg) && n <= |es| && Undisturbed(es) && !cfg.tokenless
    ensures InProgress(ws[0].d, ws[n], cfg)
  {
    if n == 0 {
      forall at: Loc | at in ws[0].d.objects && at.bucket == cfg.bucket && at.key != "" ensures IsAhead(ws[0].scan, at.key) {
        EmptyIsLeast(at.key);
      }
    } else {
      ScanProgress(ws, es, cfg, n - 1);
      match es[n - 1]
      case Page(page) => PageProgress(ws[0].d, ws[n - 1], page, cfg);
      case Stamp => StampProgress(ws[0].d, ws[n - 1], cfg);
    }
  }

  /** Before the scan: all records of the bucket are older, and objects have names. */
  ghost predicate BeginsAfresh(d: Disk, cfg: Config) {
    && (forall x :: x in d.rows && x.bucket == cfg.bucket ==> d.rows[x].seen.None? || d.rows[x].seen.value < cfg.started)
    && (forall x :: x in d.objects ==> x.key != "")
  }

  /** In the bucket there is a record just for each object, with its size and tag; elsewhere nothing has changed. */
  ghost predicate IsExactAt(d: Disk, d': Disk, at: Loc, cfg: Config) {
    && IsOwnWork(d.rows, d'.rows, at, cfg)
    && (at.bucket == cfg.bucket ==> (at in d'.rows <==> at in d.objects) && (at in d.objects ==> IsExact(d', at, cfg)))
    && (at.bucket != cfg.bucket ==> SameRow(d.rows, d'.rows, at))
  }

  ghost predicate IsExactly(d: Disk, d': Disk, cfg: Config) {
    d'.objects == d.objects && forall at: Loc :: IsExactAt(d, d', at, cfg)
  }

  /**
   * If nobody interferes and all records were older, the scan leaves exactly a record for each object
   * of the bucket, with its size and tag and the creator it had, and the other buckets' records as they were.
   */
  lemma UndisturbedScansConverge(ws: seq<World>, es: seq<Event>, cfg: Config)
    requires IsThrough(ws, es, cfg) && Undisturbed(es) && !cfg.tokenless && BeginsAfresh(ws[0].d, cfg)
    ensures IsExactly(ws[0].d, Swept(ws, cfg), cfg)
  {
    ScanProgress(ws, es, cfg, |es|);
    var d, w := ws[0].d, ws[|es|];
    forall at: Loc ensures IsExactAt(d, Swept(ws, cfg), at, cfg) {
      assert !IsAhead(w.scan, at.key);
      ScansKeepCreators(ws, es, cfg, |es|, at);
    }
  }
}
