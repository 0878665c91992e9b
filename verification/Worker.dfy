/** The batch jobs and the trash job, loop by loop. */
module Worker {
  import opened Base
  import opened Text
  import opened Keys
  import opened Objects
  import opened Operations
  import opened Batch
  import opened Expansion

  datatype JobError = BadPayload | LookupFailed | NoBucket | RecordFailed

  /** What the bucket table answers: an error, no such bucket, or its id. */
  type Lookup = Result<Option<int>, JobError>

  datatype Item = Item(src: string, dest: string)

  /** Why a batch is turned down: nothing is asked for, the bucket cannot be looked up, or there is none. */
  ghost function Refusal(empty: bool, found: Lookup): JobError {
    if empty then BadPayload else if found.Err? then found.error else NoBucket
  }

  // ---- Deletes ----

  function DeleteOps(bucket: int, keys: seq<string>, permanent: bool): seq<Op> {
    seq(|keys|, i requires 0 <= i < |keys| => if permanent then Remove(Loc(bucket, keys[i])) else Discard(Loc(bucket, keys[i])))
  }

  /** Each of the keys is deleted; the failures are counted and passed over. */
  method DeleteAll(b: Backend, bucket: int, keys: seq<string>, permanent: bool, s: Setting)
    returns (ok: nat, ghost ds: seq<Disk>, ghost cs: seq<Course>)
    requires Fits(b, s)
    modifies b
    ensures Takes(ds, DeleteOps(bucket, keys, permanent), s, cs, old(b.Snapshot()), b.Snapshot())
    ensures ok == Successes(cs)
  {
    ok, ds, cs := 0, [b.Snapshot()], [];
    for i := 0 to |keys|
      invariant Takes(ds, DeleteOps(bucket, keys[..i], permanent), s, cs, old(b.Snapshot()), b.Snapshot())
      invariant ok == Successes(cs)
    {
      var at := Loc(bucket, keys[i]);
      var err, c := ApplyDelete(b, at, permanent, s);
      ghost var op := if permanent then Remove(at) else Discard(at);
      assert DeleteOps(bucket, keys[..i + 1], permanent) == DeleteOps(bucket, keys[..i], permanent) + [op];
      RunGrows(ds, DeleteOps(bucket, keys[..i], permanent), s, cs, op, c, b.Snapshot());
      OneMoreCourse(cs, c);
      ds, cs := ds + [b.Snapshot()], cs + [c];
      if err.Some? {
        continue;
      }
      ok := ok + 1;
    }
    assert keys[..|keys|] == keys;
  }

  /** The objects of the bucket among some keys. */
  function Stored(objects: map<Loc, Object>, bucket: int, keys: seq<string>): set<string> {
    set k | k in keys && Loc(bucket, k) in objects
  }

  /** Without failures each key's object is gone from its place, no other live object is, and the successes count them. */
  lemma {:induction false} ReliableDeletesDelete(ds: seq<Disk>, bucket: int, keys: seq<string>, permanent: bool, s: Setting,
        cs: seq<Course>, n: nat)
    requires IsRun(ds, DeleteOps(bucket, keys, permanent), s, cs) && s.reliable
    requires NoDuplicates(keys) && (forall k :: k in keys ==> ValidUserKey(k)) && n <= |keys|
    ensures forall at: Loc :: ValidUserKey(at.key) ==>
      (at in ds[n].objects <==> at in ds[0].objects && !(at.bucket == bucket && at.key in keys[..n]))
    ensures Successes(cs[..n]) == |Stored(ds[0].objects, bucket, keys[..n])|
  {
    if n == 0 {
      assert Stored(ds[0].objects, bucket, keys[..0]) == {};
    } else {
      ReliableDeletesDelete(ds, bucket, keys, permanent, s, cs, n - 1);
      var at := Loc(bucket, keys[n - 1]);
      assert keys[n - 1] in keys;
      assert ds[n] == After(ds[n - 1], DeleteOps(bucket, keys, permanent)[n - 1], s, cs[n - 1]);
      ReliableDelete(ds[n - 1], at, permanent, s, cs[n - 1]);
      OneMoreStored(ds[0].objects, bucket, keys, n);
      OneMoreCourse(cs[..n - 1], cs[n - 1]);
      assert cs[..n] == cs[..n - 1] + [cs[n - 1]];
    }
  }

  lemma OneMoreStored(objects: map<Loc, Object>, bucket: int, keys: seq<string>, n: nat)
    requires 0 < n <= |keys| && NoDuplicates(keys)
    ensures keys[n - 1] !in keys[..n - 1]
    ensures forall k :: k in keys[..n] <==> k in keys[..n - 1] || k == keys[n - 1]
    ensures |Stored(objects, bucket, keys[..n])|
      == |Stored(objects, bucket, keys[..n - 1])| + if Loc(bucket, keys[n - 1]) in objects then 1 else 0
  {
    assert keys[..n] == keys[..n - 1] + [keys[n - 1]];
    var key := keys[n - 1];
    assert Stored(objects, bucket, keys[..n])
      == Stored(objects, bucket, keys[..n - 1]) + if Loc(bucket, key) in objects then {key} else {};
  }

  lemma ReliableDelete(d: Disk, at: Loc, permanent: bool, s: Setting, c: Course)
    requires var op := if permanent then Remove(at) else Discard(at); Possible(d, op, s, c) && s.reliable
    requires ValidUserKey(at.key)
    ensures c.error.None? <==> at in d.objects
    ensures var d' := After(d, if permanent then Remove(at) else Discard(at), s, c);
      forall x: Loc :: ValidUserKey(x.key) ==> (x in d'.objects <==> x in d.objects && x != at)
  {
    TrashRoundTrip(at.key, at.key);
  }

  /**
   * A soft batch delete never loses a live object: it is where it was, or at its trash key
   * if the request stood for it. On a reliable backend just the live objects the request stands for go, and are counted.
   */
  method BatchDelete(b: Backend, found: Lookup, keys: seq<string>, permanent: bool, s: Setting)
    returns (r: Result<nat, JobError>, ghost resolved: seq<string>, ghost ds: seq<Disk>, ghost cs: seq<Course>)
    requires Fits(b, s)
    modifies b
    ensures r.Err? <==> keys == [] || found.Err? || found.value.None?
    ensures r.Err? ==> b.Snapshot() == old(b.Snapshot()) && r.error == Refusal(keys == [], found)
    ensures r.Ok? ==>
      && Takes(ds, DeleteOps(found.value.value, resolved, permanent), s, cs, old(b.Snapshot()), b.Snapshot())
      && r.value == Successes(cs)
    ensures r.Ok? ==> IsExpansion(old(b.objects), found.value.value, keys, b.reliable, resolved)
    ensures r.Ok? && !permanent ==> forall at :: at in old(b.objects) && ValidUserKey(at.key) ==>
      || Holds(b.Snapshot(), at, old(b.objects)[at].content)
      || (at.bucket == found.value.value && at.key in resolved && Holds(b.Snapshot(), Trashed(at), old(b.objects)[at].content))
    ensures r.Ok? && b.reliable ==>
      && (forall at: Loc :: ValidUserKey(at.key) ==>
            (at in b.objects <==> at in old(b.objects) && !(at.bucket == found.value.value && at.key in resolved)))
      && (forall k :: k in resolved <==> IsAskedFor(old(b.objects), found.value.value, keys, k))
      && r.value == |Stored(old(b.objects), found.value.value, resolved)|
  {
    resolved, ds, cs := [], [], [];
    if keys == [] {
      return Err(BadPayload), resolved, ds, cs;
    }
    if found.Err? {
      return Err(found.error), resolved, ds, cs;
    }
    if found.value.None? {
      return Err(NoBucket), resolved, ds, cs;
    }
    var bucket := found.value.value;
    var todo, failed, listed := ExpandDeleteKeys(b, bucket, keys);
    resolved := todo;
    var ok: nat;
    ok, ds, cs := DeleteAll(b, bucket, todo, permanent, s);
    r := Ok(ok);
    if !permanent {
      LiveContentSurvives(ds, bucket, todo, s, cs);
    }
    if b.reliable {
      forall k ensures k in todo <==> IsAskedFor(old(b.objects), bucket, keys, k) {
        ExpansionsAreWhatWasAskedFor(old(b.objects), bucket, keys, todo, k);
      }
      ReliableDeletesDelete(ds, bucket, todo, permanent, s, cs, |todo|);
      assert todo[..|todo|] == todo && cs[..|todo|] == cs;
    }
  }

  lemma LiveContentSurvives(ds: seq<Disk>, bucket: int, keys: seq<string>, s: Setting, cs: seq<Course>)
    requires IsRun(ds, DeleteOps(bucket, keys, false), s, cs) && forall k :: k in keys ==> ValidUserKey(k)
    ensures forall at :: at in ds[0].objects && ValidUserKey(at.key) ==>
      || Holds(ds[|keys|], at, ds[0].objects[at].content)
      || (at.bucket == bucket && at.key in keys && Holds(ds[|keys|], Trashed(at), ds[0].objects[at].content))
  {
    var ops := DeleteOps(bucket, keys, false);
    forall i | 0 <= i < |ops| ensures ops[i].Discard? && ValidUserKey(ops[i].at.key) {
      assert ops[i].at.key == keys[i] && keys[i] in keys;
    }
    forall at | at in ds[0].objects && ValidUserKey(at.key)
      ensures Holds(ds[|keys|], at, ds[0].objects[at].content)
        || (at.bucket == bucket && at.key in keys && Holds(ds[|keys|], Trashed(at), ds[0].objects[at].content))
    {
      DiscardsKeepLiveContent(ds, ops, s, cs, |ops|, at);
      if Discard(at) in ops {
        var i :| 0 <= i < |ops| && ops[i] == Discard(at);
        assert at.key == keys[i];
      }
    }
  }

  // ---- Moves ----

  function MoveOps(bucket: int, items: seq<Item>): seq<Op> {
    seq(|items|, i requires 0 <= i < |items| => Move(Loc(bucket, items[i].src), Loc(bucket, items[i].dest)))
  }

  method MoveAll(b: Backend, bucket: int, items: seq<Item>, s: Setting)
    returns (ok: nat, ghost ds: seq<Disk>, ghost cs: seq<Course>)
    requires Fits(b, s)
    modifies b
    ensures Takes(ds, MoveOps(bucket, items), s, cs, old(b.Snapshot()), b.Snapshot())
    ensures ok == Successes(cs)
  {
    ok, ds, cs := 0, [b.Snapshot()], [];
    for i := 0 to |items|
      invariant Takes(ds, MoveOps(bucket, items[..i]), s, cs, old(b.Snapshot()), b.Snapshot())
      invariant ok == Successes(cs)
    {
      var src, dest := Loc(bucket, items[i].src), Loc(bucket, items[i].dest);
      var err, c := ApplyMove(b, src, dest, s);
      assert MoveOps(bucket, items[..i + 1]) == MoveOps(bucket, items[..i]) + [Move(src, dest)];
      RunGrows(ds, MoveOps(bucket, items[..i]), s, cs, Move(src, dest), c, b.Snapshot());
      OneMoreCourse(cs, c);
      ds, cs := ds + [b.Snapshot()], cs + [c];
      if err.Some? {
        continue;
      }
      ok := ok + 1;
    }
    assert items[..|items|] == items;
  }

  /** A batch move in which no item has its source for destination loses no object. */
  method BatchMove(b: Backend, found: Lookup, items: seq<Item>, s: Setting)
    returns (r: Result<nat, JobError>, ghost ds: seq<Disk>, ghost cs: seq<Course>)
    requires Fits(b, s)
    modifies b
    ensures r.Err? <==> items == [] || found.Err? || found.value.None?
    ensures r.Err? ==> b.Snapshot() == old(b.Snapshot()) && r.error == Refusal(items == [], found)
    ensures r.Ok? ==>
      && Takes(ds, MoveOps(found.value.value, items), s, cs, old(b.Snapshot()), b.Snapshot())
      && r.value == Successes(cs)
    ensures r.Ok? && (s.acceptsSelfCopy ==> forall i :: 0 <= i < |items| ==> items[i].src != items[i].dest) ==>
      forall at :: at in old(b.objects) ==>
        IsKept(MoveOps(found.value.value, items), |items|, at, old(b.objects)[at].content, b.Snapshot())
  {
    ds, cs := [], [];
    if items == [] {
      return Err(BadPayload), ds, cs;
    }
    if found.Err? {
      return Err(found.error), ds, cs;
    }
    if found.value.None? {
      return Err(NoBucket), ds, cs;
    }
    var bucket := found.value.value;
    var ok: nat;
    ok, ds, cs := MoveAll(b, bucket, items, s);
    r := Ok(ok);
    ghost var ops := MoveOps(bucket, items);
    if s.acceptsSelfCopy ==> forall i :: 0 <= i < |items| ==> items[i].src != items[i].dest {
      forall at | at in old(b.objects) ensures IsKept(ops, |ops|, at, old(b.objects)[at].content, b.Snapshot()) {
        MovesKeepContent(ds, ops, s, cs, |ops|, at);
      }
    }
  }

  // ---- Copies ----

  /** The copies of the first n items whose destination bucket there is. */
  function CopyOps(bucket: int, items: seq<Item>, lookups: seq<Lookup>, n: nat): seq<Op>
    requires n <= |items| && n <= |lookups|
  {
    if n == 0 then []
    else
      var l, it := lookups[n - 1], items[n - 1];
      CopyOps(bucket, items, lookups, n - 1)
      + if l.Ok? && l.value.Some? then [Copy(Loc(bucket, it.src), Loc(l.value.value, it.dest))] else []
  }

  lemma {:induction false} CopyOpsAreCopies(bucket: int, items: seq<Item>, lookups: seq<Lookup>, n: nat)
    requires n <= |items| && n <= |lookups|
    ensures AllCopies(CopyOps(bucket, items, lookups, n))
  {
    if n > 0 {
      CopyOpsAreCopies(bucket, items, lookups, n - 1);
    }
  }

  /** The items in turn. A missing bucket fails its item, a failed look-up ends the job. */
  method CopyAll(b: Backend, bucket: int, items: seq<Item>, lookups: seq<Lookup>, s: Setting)
    returns (r: Result<nat, JobError>, ghost n: nat, ghost ds: seq<Disk>, ghost cs: seq<Course>)
    requires Fits(b, s) && |lookups| == |items|
    modifies b
    ensures n <= |items| && (r.Ok? ==> n == |items|) && (r.Err? ==> n < |items| && lookups[n] == Err(r.error))
    ensures Takes(ds, CopyOps(bucket, items, lookups, n), s, cs, old(b.Snapshot()), b.Snapshot())
    ensures r.Ok? ==> r.value == Successes(cs)
  {
    var ok := 0;
    n, ds, cs := 0, [b.Snapshot()], [];
    for i := 0 to |items|
      invariant n == i
      invariant Takes(ds, CopyOps(bucket, items, lookups, i), s, cs, old(b.Snapshot()), b.Snapshot())
      invariant ok == Successes(cs)
    {
      ghost var ops := CopyOps(bucket, items, lookups, i);
      if lookups[i].Err? {
        return Err(lookups[i].error), i, ds, cs;
      }
      n := i + 1;
      if lookups[i].value.None? {
        assert ops + [] == ops;
        continue;
      }
      var src, dest := Loc(bucket, items[i].src), Loc(lookups[i].value.value, items[i].dest);
      var err, c := ApplyCopy(b, src, dest, s);
      RunGrows(ds, ops, s, cs, Copy(src, dest), c, b.Snapshot());
      OneMoreCourse(cs, c);
      ds, cs := ds + [b.Snapshot()], cs + [c];
      if err.Some? {
        continue;
      }
      ok := ok + 1;
    }
    r := Ok(ok);
  }

  /** A batch copy changes no object there was. */
  method BatchCopy(b: Backend, found: Lookup, items: seq<Item>, lookups: seq<Lookup>, s: Setting)
    returns (r: Result<nat, JobError>, ghost n: nat, ghost ds: seq<Disk>, ghost cs: seq<Course>)
    requires Fits(b, s) && |lookups| == |items|
    modifies b
    ensures items == [] || found.Err? || found.value.None? ==>
      r == Err(Refusal(items == [], found)) && b.Snapshot() == old(b.Snapshot())
    ensures items != [] && found.Ok? && found.value.Some? ==>
      && n <= |items| && (r.Ok? ==> n == |items|) && (r.Err? ==> n < |items| && lookups[n] == Err(r.error))
      && var ops := CopyOps(found.value.value, items, lookups, n);
         Takes(ds, ops, s, cs, old(b.Snapshot()), b.Snapshot()) && (r.Ok? ==> r.value == Successes(cs))
         && AllCopies(ops) && Adds(old(b.Snapshot()), b.Snapshot(), ops, |ops|)
  {
    n, ds, cs := 0, [], [];
    if items == [] {
      return Err(BadPayload), n, ds, cs;
    }
    if found.Err? {
      return Err(found.error), n, ds, cs;
    }
    if found.value.None? {
      return Err(NoBucket), n, ds, cs;
    }
    r, n, ds, cs := CopyAll(b, found.value.value, items, lookups, s);
    ghost var ops := CopyOps(found.value.value, items, lookups, n);
    CopyOpsAreCopies(found.value.value, items, lookups, n);
    CopiesOnlyAdd(ds, ops, s, cs, |ops|);
  }

  // ---- The trash ----

  /** Records in the trash last seen (or, for old rows, updated) before the cut-off, in one bucket or in all. */
  function ExpiredTrash(rows: Rows, bucket: Option<int>, cutoff: int): set<Loc> {
    set at | at in rows && TRASH <= at.key && at.key != TRASH && rows[at].seen.GetOr(rows[at].updated) < cutoff
          && (bucket.None? || at.bucket == bucket.value)
  }

  /** The record lies strictly under ".trash/", in the bucket asked for, last seen or else updated before the cut-off. */
  predicate IsDue(rows: Rows, at: Loc, bucket: Option<int>, cutoff: int) {
    && at in rows
    && |at.key| > 7 && at.key[..7] == ".trash/"
    && (if rows[at].seen.Some? then rows[at].seen.value < cutoff else rows[at].updated < cutoff)
    && (bucket == None || bucket == Some(at.bucket))
  }

  lemma ExpiredTrashIsDue(rows: Rows, at: Loc, bucket: Option<int>, cutoff: int)
    ensures at in ExpiredTrash(rows, bucket, cutoff) <==> IsDue(rows, at, bucket, cutoff)
  {
    assert TRASH <= at.key <==> |at.key| >= 7 && at.key[..7] == TRASH;
    assert TRASH <= at.key && |at.key| == 7 ==> at.key == TRASH;
  }

  /** So far: the due places outside todo have been seen to, object first. */
  ghost predicate Cleaning(was: Disk, d: Disk, items: set<Loc>, todo: set<Loc>, reliable: bool) {
    && todo <= items <= was.rows.Keys
    && (forall at :: at !in items || at in todo ==>
          (at in d.objects <==> at in was.objects) && (at in d.rows <==> at in was.rows))
    && (forall at :: at in d.objects ==> at in was.objects && d.objects[at] == was.objects[at])
    && (forall at :: at in d.rows ==> at in was.rows && d.rows[at] == was.rows[at])
    && (forall at :: at in was.rows && at !in d.rows ==> at !in d.objects)
    && (reliable ==> forall at :: at in items - todo ==> at !in d.objects && at !in d.rows)
  }

  lemma CleaningGoesOn(was: Disk, d: Disk, d': Disk, items: set<Loc>, todo: set<Loc>, reliable: bool, at: Loc)
    requires Cleaning(was, d, items, todo, reliable) && at in todo
    requires d'.objects == d.objects - {at} || d'.objects == d.objects
    requires d'.rows == d.rows || (d'.rows == d.rows - {at} && d'.objects == d.objects - {at})
    requires reliable ==> d'.rows == d.rows - {at}
    ensures Cleaning(was, d', items, todo - {at}, reliable)
    ensures at !in d'.rows ==> |was.rows.Keys - d'.rows.Keys| == |was.rows.Keys - d.rows.Keys| + 1
    ensures at in d'.rows ==> d'.rows.Keys == d.rows.Keys
  {
    OneMoreGone(was.rows.Keys, d.rows.Keys, at);
    assert at !in d'.rows ==> d'.rows.Keys == d.rows.Keys - {at};
  }

  /** Objects and records that are not due stay as they were, none are added, and no record goes before its object. */
  ghost predicate OnlyTrashGoes(was: Disk, d: Disk, bucket: Option<int>, cutoff: int) {
    && (forall at :: !IsDue(was.rows, at, bucket, cutoff) ==>
          (at in d.objects <==> at in was.objects) && (at in d.rows <==> at in was.rows))
    && (forall at :: at in d.objects ==> at in was.objects && d.objects[at] == was.objects[at])
    && (forall at :: at in d.rows ==> at in was.rows && d.rows[at] == was.rows[at])
    && (forall at :: at in was.rows && at !in d.rows ==> at !in d.objects)
  }

  ghost predicate AllTrashGoes(was: Disk, d: Disk, bucket: Option<int>, cutoff: int) {
    forall at :: IsDue(was.rows, at, bucket, cutoff) ==> at !in d.objects && at !in d.rows
  }

  lemma CleaningDone(was: Disk, d: Disk, bucket: Option<int>, cutoff: int, todo: set<Loc>, reliable: bool)
    requires Cleaning(was, d, ExpiredTrash(was.rows, bucket, cutoff), todo, reliable)
    ensures OnlyTrashGoes(was, d, bucket, cutoff)
    ensures reliable && todo == {} ==> AllTrashGoes(was, d, bucket, cutoff)
  {
    forall at ensures at in ExpiredTrash(was.rows, bucket, cutoff) <==> IsDue(was.rows, at, bucket, cutoff) {
      ExpiredTrashIsDue(was.rows, at, bucket, cutoff);
    }
  }

  lemma OneMoreGone(before: set<Loc>, now: set<Loc>, at: Loc)
    requires at in before && at in now
    ensures |before - (now - {at})| == |before - now| + 1
  {
    assert before - (now - {at}) == (before - now) + {at};
  }

  /** One piece of trash: the object, and when that is gone the record. */
  method TrashOne(b: Backend, at: Loc) returns (stayed: bool, failed: bool)
    modifies b
    ensures b.objects == old(b.objects) - {at} || (stayed && b.objects == old(b.objects))
    ensures b.rows == old(b.rows) - {at} || ((stayed || failed) && b.rows == old(b.rows))
    ensures stayed ==> b.rows == old(b.rows)
    ensures b.reliable ==> !stayed && !failed
  {
    var err := b.Delete(at);
    if err.Some? {
      return true, false;
    }
    err := b.Unrecord(at);
    return false, err.Some?;
  }

  /**
   * Expired trash goes, object first, record second, and nothing else changes. A record never goes before
   * its object; what an error leaves behind is still recorded, so a later pass finds it. The count is that of the
   * records that went.
   */
  method Trash(b: Backend, bucket: Option<int>, cutoff: int) returns (r: Result<nat, JobError>)
    modifies b
    ensures OnlyTrashGoes(old(b.Snapshot()), b.Snapshot(), bucket, cutoff)
    ensures b.reliable ==> r.Ok? && AllTrashGoes(old(b.Snapshot()), b.Snapshot(), bucket, cutoff)
    ensures r.Ok? ==> r.value == |old(b.rows).Keys - b.rows.Keys|
    ensures r.Err? ==> r.error == RecordFailed
  {
    var items := ExpiredTrash(b.rows, bucket, cutoff);
    var todo, deleted := items, 0;
    assert b.rows.Keys - b.rows.Keys == {};
    while todo != {}
      invariant Cleaning(old(b.Snapshot()), b.Snapshot(), items, todo, b.reliable)
      invariant deleted == |old(b.rows).Keys - b.rows.Keys|
      decreases |todo|
    {
      var at := Pick(todo);
      todo := todo - {at};
      ghost var d := b.Snapshot();
      var stayed, failed := TrashOne(b, at);
      CleaningGoesOn(old(b.Snapshot()), d, b.Snapshot(), items, todo + {at}, b.reliable, at);
      assert todo + {at} - {at} == todo;
      if stayed {
        continue;
      }
      if failed {
        CleaningDone(old(b.Snapshot()), b.Snapshot(), bucket, cutoff, todo, b.reliable);
        return Err(RecordFailed);
      }
      deleted := deleted + 1;
    }
    CleaningDone(old(b.Snapshot()), b.Snapshot(), bucket, cutoff, todo, b.reliable);
    r := Ok(deleted);
  }
}
