/** The inventory job's scan, with others at work between any two of its calls. */
module Scanner {
  import opened Base
  import opened Objects
  import opened Inventory
  import Expansion

  const PAGE := 1000

  /** A run of the scan so far, and where it stands. */
  ghost predicate StandsAt(ws: seq<World>, es: seq<Event>, cfg: Config, d: Disk, scan: Scan) {
    IsScan(ws, es, cfg) && ws[|es|] == World(d, scan)
  }

  lemma ScanGrows(ws: seq<World>, es: seq<Event>, cfg: Config, e: Event)
    requires IsScan(ws, es, cfg) && Enabled(ws[|es|], e, cfg) && !e.Sweep?
    ensures IsScan(ws + [Next(ws[|es|], e, cfg)], es + [e], cfg)
  {
  }

  /** How many pages the scan has been sent. */
  function PagesIn(es: seq<Event>): nat {
    if es == [] then 0 else PagesIn(es[..|es| - 1]) + if es[|es| - 1].Page? then 1 else 0
  }

  lemma PagesInOneMore(es: seq<Event>, e: Event)
    ensures PagesIn(es + [e]) == PagesIn(es) + if e.Page? then 1 else 0
  {
    assert (es + [e])[..|es|] == es;
  }

  lemma UndisturbedGrows(es: seq<Event>, e: Event)
    ensures Undisturbed(es + [e]) <==> Undisturbed(es) && !e.Other?
  {
    assert (es + [e])[|es|] == e && forall i :: 0 <= i < |es| ==> (es + [e])[i] == es[i];
  }

  /** Without disturbance the objects have stayed, and each page but the last has left less to list. */
  ghost predicate OnTime(es: seq<Event>, bucket: int, at0: map<Loc, Object>, at: map<Loc, Object>, token: string) {
    Undisturbed(es) ==> at == at0 && PagesIn(es) + |KeysUnder(at, bucket, "", token)| <= |KeysUnder(at0, bucket, "", "")|
  }

  /** Any number of deeds of others. */
  method Others(b: Backend, cfg: Config, ghost ws: seq<World>, ghost es: seq<Event>, ghost scan: Scan)
    returns (ghost ws': seq<World>, ghost es': seq<Event>)
    requires StandsAt(ws, es, cfg, b.Snapshot(), scan)
    modifies b
    ensures StandsAt(ws', es', cfg, b.Snapshot(), scan) && ws'[0] == ws[0] && PagesIn(es') == PagesIn(es)
    ensures Undisturbed(es') ==> Undisturbed(es) && b.Snapshot() == old(b.Snapshot())
  {
    ws', es' := ws, es;
    var n: int := *;
    for i := 0 to if n < 0 then 0 else n
      invariant StandsAt(ws', es', cfg, b.Snapshot(), scan) && ws'[0] == ws[0] && PagesIn(es') == PagesIn(es)
      invariant Undisturbed(es') ==> Undisturbed(es) && b.Snapshot() == old(b.Snapshot())
    {
      var deed: Deed := *;
      if Polite(b.Snapshot(), deed, cfg) {
        var d := Done(b.Snapshot(), deed);
        ScanGrows(ws', es', cfg, Other(deed));
        PagesInOneMore(es', Other(deed));
        UndisturbedGrows(es', Other(deed));
        ws', es' := ws' + [World(d, scan)], es' + [Other(deed)];
        b.objects, b.rows := d.objects, d.rows;
      }
    }
  }

  /** One page's objects are stamped. */
  method StampPage(b: Backend, cfg: Config, objects: seq<Listed>, ghost more: Option<string>, ghost ws: seq<World>,
        ghost es: seq<Event>)
    returns (err: Option<Error>, ghost scan: Scan, ghost ws': seq<World>, ghost es': seq<Event>)
    requires StandsAt(ws, es, cfg, b.Snapshot(), Scan(objects, more))
    modifies b
    ensures StandsAt(ws', es', cfg, b.Snapshot(), scan) && ws'[0] == ws[0] && PagesIn(es') == PagesIn(es)
    ensures err.None? ==> scan == Scan([], more)
    ensures b.reliable ==> err.None?
    ensures Undisturbed(es') ==> Undisturbed(es) && b.objects == old(b.objects)
  {
    ws', es', scan, err := ws, es, Scan(objects, more), None;
    for i := 0 to |objects|
      invariant StandsAt(ws', es', cfg, b.Snapshot(), scan) && ws'[0] == ws[0] && PagesIn(es') == PagesIn(es)
      invariant scan == Scan(objects[i..], more) && err.None?
      invariant Undisturbed(es') ==> Undisturbed(es) && b.objects == old(b.objects)
    {
      ws', es' := Others(b, cfg, ws', es', scan);
      var obj := objects[i];
      ghost var before := b.rows;
      if obj.key != "" {
        err := b.UpsertSeen(Loc(cfg.bucket, obj.key), obj.size, obj.etag, cfg.started);
      }
      assert objects[i..][0] == obj && objects[i..][1..] == objects[i + 1..];
      if err.None? || b.rows == SeenAt(before, Loc(cfg.bucket, obj.key), obj.size, obj.etag, cfg.started) {
        ScanGrows(ws', es', cfg, Stamp);
        PagesInOneMore(es', Stamp);
        UndisturbedGrows(es', Stamp);
        scan := Scan(objects[i + 1..], more);
        ws', es' := ws' + [World(b.Snapshot(), scan)], es' + [Stamp];
      }
      if err.Some? {
        return;
      }
    }
  }

  /** Page after page. A task that runs out of patience fails, as its deadline fails the next call. */
  method StampAll(b: Backend, cfg: Config, patience: nat)
    returns (err: Option<Error>, ghost scan: Scan, ghost ws: seq<World>, ghost es: seq<Event>)
    requires !cfg.tokenless
    modifies b
    ensures StandsAt(ws, es, cfg, b.Snapshot(), scan) && ws[0].d == old(b.Snapshot())
    ensures err.None? ==> scan == Scan([], None)
    ensures b.reliable && err.Some? ==> PagesIn(es) == patience
    ensures b.reliable && Undisturbed(es) && patience > |KeysUnder(old(b.objects), cfg.bucket, "", "")| ==> err.None?
  {
    var token, left: nat := "", patience;
    scan, ws, es := BEGIN, [World(b.Snapshot(), BEGIN)], [];
    while left > 0
      invariant StandsAt(ws, es, cfg, b.Snapshot(), scan) && ws[0].d == old(b.Snapshot())
      invariant scan == Scan([], Some(token)) && left + PagesIn(es) == patience
      invariant OnTime(es, cfg.bucket, old(b.objects), b.objects, token)
    {
      left := left - 1;
      ws, es := Others(b, cfg, ws, es, scan);
      var listing := b.List(cfg.bucket, "", token, PAGE);
      if listing.Err? {
        return Some(listing.error), scan, ws, es;
      }
      var page := listing.value;
      ghost var more := if !page.truncated || page.token == "" then None else Some(page.token);
      ScanGrows(ws, es, cfg, Page(page));
      PagesInOneMore(es, Page(page));
      UndisturbedGrows(es, Page(page));
      if page.truncated {
        Expansion.TokenAdvances(b.objects, cfg.bucket, "", token, page);
      }
      scan := Scan(page.objects, more);
      ws, es := ws + [World(b.Snapshot(), scan)], es + [Page(page)];
      err, scan, ws, es := StampPage(b, cfg, page.objects, more, ws, es);
      if err.Some? {
        return;
      }
      if !page.truncated || page.token == "" {
        return;
      }
      token := page.token;
    }
    err := Some(Failed);
  }

  ghost predicate NobodyUnrecords(es: seq<Event>) {
    forall i :: 0 <= i < |es| ==> !(es[i].Other? && es[i].deed.Unrecord?)
  }

  /**
   * The whole scan; `marked` is how noting the time of the inventory goes. Unless it reports an error it has
   * swept, and without failures it sweeps unless its patience for pages runs out, which undisturbed it does not if
   * it has patience for more pages than there are keys. Until the sweep it has removed nothing. If no other writer
   * used a stamp from before it, every object that was there all along has a record after the sweep; undisturbed,
   * the bucket's records are exactly its objects. Whatever no other writer touched keeps its creator.
   */
  method ScanBucket(b: Backend, cfg: Config, patience: nat, marked: Option<Error>)
    returns (err: Option<Error>, ghost swept: bool, ghost ws: seq<World>, ghost es: seq<Event>)
    requires !cfg.tokenless
    modifies b
    ensures IsScan(ws, es, cfg) && ws[0].d == old(b.Snapshot())
    ensures err.None? ==> swept
    ensures b.reliable ==> if swept then err == marked else PagesIn(es) == patience
    ensures b.reliable && Undisturbed(es) && patience > |KeysUnder(old(b.objects), cfg.bucket, "", "")| ==> swept
    ensures !swept ==> b.Snapshot() == ws[|es|].d
    ensures swept ==> IsThrough(ws, es, cfg) && b.Snapshot() == Swept(ws, cfg)
    ensures !swept && NobodyUnrecords(es) ==> old(b.rows).Keys <= b.rows.Keys
    ensures forall at :: IsLeftAlone(es, |es|, at) ==> IsOwnWork(old(b.rows), b.rows, at, cfg)
    ensures swept ==> forall at :: at in b.rows && at.bucket == cfg.bucket ==>
      b.rows[at].seen.Some? && b.rows[at].seen.value >= cfg.started
    ensures swept && cfg.oldest >= cfg.started ==>
      forall at: Loc :: at.bucket == cfg.bucket && at.key != "" && PresentThroughout(ws, at) ==> at in b.rows
    ensures swept && Undisturbed(es) && BeginsAfresh(old(b.Snapshot()), cfg) ==>
      IsExactly(old(b.Snapshot()), b.Snapshot(), cfg)
  {
    ghost var scan: Scan;
    err, scan, ws, es := StampAll(b, cfg, patience);
    swept := false;
    if err.None? {
      ws, es := Others(b, cfg, ws, es, scan);
      ghost var before := b.rows;
      err := b.PurgeUnseen(cfg.bucket, cfg.started);
      swept := b.rows == Purged(before, cfg.bucket, cfg.started);
      if swept && cfg.oldest >= cfg.started {
        forall at: Loc | at.bucket == cfg.bucket && at.key != "" && PresentThroughout(ws, at) ensures at in b.rows {
          SweepKeeps(ws, es, cfg, at);
        }
      }
      if swept && Undisturbed(es) && BeginsAfresh(old(b.Snapshot()), cfg) {
        UndisturbedScansConverge(ws, es, cfg);
      }
      if err.None? {
        err := marked;
      }
    }
    NothingRemoved(ws, es, cfg);
    forall at | IsLeftAlone(es, |es|, at) ensures IsOwnWork(old(b.rows), b.rows, at, cfg) {
      ScansKeepCreators(ws, es, cfg, |es|, at);
    }
  }

  lemma NothingRemoved(ws: seq<World>, es: seq<Event>, cfg: Config)
    requires IsScan(ws, es, cfg)
    ensures NobodyUnrecords(es) ==> ws[0].d.rows.Keys <= ws[|es|].d.rows.Keys
  {
    if NobodyUnrecords(es) {
      forall at: Loc | at in ws[0].d.rows ensures at in ws[|es|].d.rows {
        UnsweptScansRemoveNothing(ws, es, cfg, |es|, at);
      }
    }
  }
}
