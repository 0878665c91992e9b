/**
 * The inventory against the trash job. The scan lists the trash with everything else and stamps its records as
 * seen, while trash expires by that stamp: an object that scans keep seeing never expires.
 */
module TrashExpiry {
  import opened Base
  import opened Objects
  import opened Inventory
  import opened Worker

  /**
   * After a scan nothing in the bucket is expired for any cut-off up to the scan's start, whoever wrote what meanwhile;
   * and what was there throughout is not out of the trash job's sight but on record, with a stamp no older than the scan.
   */
  lemma ScannedTrashDoesNotExpire(ws: seq<World>, es: seq<Event>, cfg: Config, at: Loc, bucket: Option<int>, cutoff: int)
    requires IsThrough(ws, es, cfg) && at.bucket == cfg.bucket && cutoff <= cfg.started
    ensures !IsDue(Swept(ws, cfg).rows, at, bucket, cutoff)
    ensures cfg.oldest >= cfg.started && !cfg.tokenless && at.key != "" && PresentThroughout(ws, at) ==>
      at in Swept(ws, cfg).rows && !IsStale(Swept(ws, cfg).rows[at], cfg.started)
  {
    if cfg.oldest >= cfg.started && !cfg.tokenless && at.key != "" && PresentThroughout(ws, at) {
      SweepKeeps(ws, es, cfg, at);
    }
  }

  /** Some scan leaves some object that stayed as expired trash. */
  ghost predicate CanExpire(cfg: Config, cutoff: int) {
    exists ws: seq<World>, es: seq<Event>, at: Loc ::
      IsThrough(ws, es, cfg) && at.bucket == cfg.bucket && PresentThroughout(ws, at)
      && IsDue(Swept(ws, cfg).rows, at, Some(cfg.bucket), cutoff)
  }

  /**
   * After a scan the trash job finds a stored object of the bucket to delete only if its cut-off lies after the
   * start of the scan. With days of retention and a scan every quarter of an hour it never does.
   */
  lemma TrashExpiresIff(cfg: Config, cutoff: int)
    ensures CanExpire(cfg, cutoff) <==> cfg.started < cutoff
  {
    if cfg.started < cutoff {
      var ws, es := QuietScan(cfg);
      assert IsDue(Swept(ws, cfg).rows, Loc(cfg.bucket, ".trash/a"), Some(cfg.bucket), cutoff);
    } else {
      forall ws: seq<World>, es: seq<Event>, at: Loc
        | IsThrough(ws, es, cfg) && at.bucket == cfg.bucket && PresentThroughout(ws, at)
        ensures !IsDue(Swept(ws, cfg).rows, at, Some(cfg.bucket), cutoff)
      {
        ScannedTrashDoesNotExpire(ws, es, cfg, at, Some(cfg.bucket), cutoff);
      }
    }
  }

  /** A scan of a bucket with one object in its trash. */
  lemma QuietScan(cfg: Config) returns (ws: seq<World>, es: seq<Event>)
    ensures var at := Loc(cfg.bucket, ".trash/a");
      && IsThrough(ws, es, cfg) && PresentThroughout(ws, at)
      && at in Swept(ws, cfg).rows && Swept(ws, cfg).rows[at].seen == Some(cfg.started)
  {
    var key := ".trash/a";
    var at := Loc(cfg.bucket, key);
    var d := Disk(map[at := Object([], None)], map[]);
    var page := ListPage([Listed(key, 0, None)], false, "");
    assert IsPage(d.objects, cfg.bucket, "", "", page) by {
      assert page.objects[0] == ListedAs(d.objects, cfg.bucket, key);
      assert key in KeysUnder(d.objects, cfg.bucket, "", "");
    }
    es := [Page(page), Stamp];
    var w1 := Next(World(d, BEGIN), es[0], cfg);
    ws := [World(d, BEGIN), w1, Next(w1, es[1], cfg)];
  }
}
