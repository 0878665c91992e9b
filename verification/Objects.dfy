/**
 * The object storage and the table of object records, as two maps, with the calls that change them.
 * Any call may fail, before or after it has taken effect.
 */
module Objects {
  import opened Base
  import opened Text

  datatype Loc = Loc(bucket: int, key: string)

  datatype Object = Object(content: seq<bv8>, etag: Option<string>)

  /** A record. `seen` is `last_seen_at`, which old rows lack, and `updated` is `updated_at`. */
  datatype Row = Row(size: int, etag: Option<string>, seen: Option<int>, updated: int, createdBy: Option<int>)

  type Rows = map<Loc, Row>

  datatype Disk = Disk(objects: map<Loc, Object>, rows: Rows)

  datatype Error = NotFound | DestExists | Failed

  datatype Meta = Meta(size: int, etag: Option<string>)

  function MetaOf(o: Object): Meta {
    Meta(|o.content|, o.etag)
  }

  // ---- What the table's statements do ----

  function Upserted(rows: Rows, at: Loc, size: int, etag: Option<string>, user: int, now: int): Rows {
    rows[at := Row(size, etag, Some(now), now, if at in rows then rows[at].createdBy else Some(user))]
  }

  function SeenAt(rows: Rows, at: Loc, size: int, etag: Option<string>, now: int): Rows {
    rows[at := Row(size, etag, Some(now), now, if at in rows then rows[at].createdBy else None)]
  }

  predicate IsStale(r: Row, since: int) {
    r.seen.None? || r.seen.value < since
  }

  function Purged(rows: Rows, bucket: int, since: int): Rows {
    map at | at in rows && !(at.bucket == bucket && IsStale(rows[at], since)) :: rows[at]
  }

  /** The rows without `from` and `to`, plus one for `to` that keeps the creator of `from`. */
  function KeyMoved(rows: Rows, from: Loc, to: Loc, size: int, etag: Option<string>, user: int, now: int): Rows {
    var creator := if from in rows && from != to then rows[from].createdBy else Some(user);
    map at | at in rows.Keys - {from} + {to} :: if at == to then Row(size, etag, Some(now), now, creator) else rows[at]
  }

  // ---- Listing pages ----

  datatype Listed = Listed(key: string, size: int, etag: Option<string>)

  datatype ListPage = ListPage(objects: seq<Listed>, truncated: bool, token: string)

  function KeysUnder(objects: map<Loc, Object>, bucket: int, prefix: string, after: string): set<string> {
    set at | at in objects && at.bucket == bucket && prefix <= at.key && Less(after, at.key) :: at.key
  }

  /**
   * The page lists keys under the prefix past the token, in order, as they are, and none is skipped:
   * what is left lies past the last one, and is announced with a token that is that last key.
   */
  ghost predicate IsPage(objects: map<Loc, Object>, bucket: int, prefix: string, after: string, page: ListPage) {
    && (forall i :: 0 <= i < |page.objects| ==>
          var k := page.objects[i].key;
          k in KeysUnder(objects, bucket, prefix, after) && page.objects[i] == ListedAs(objects, bucket, k))
    && (forall i, j :: 0 <= i < j < |page.objects| ==> Less(page.objects[i].key, page.objects[j].key))
    && (page.truncated ==> page.objects != [] && page.token == page.objects[|page.objects| - 1].key)
    && (forall k :: k in KeysUnder(objects, bucket, prefix, after) ==>
          ListedAs(objects, bucket, k) in page.objects || (page.truncated && Less(page.token, k)))
  }

  function ListedAs(objects: map<Loc, Object>, bucket: int, key: string): Listed
    requires Loc(bucket, key) in objects
  {
    var o := objects[Loc(bucket, key)];
    Listed(key, |o.content|, o.etag)
  }

  /** The first keys of a set, and whether there are more. */
  method LeastKeys(all: set<string>, limit: nat) returns (keys: seq<string>, more: bool)
    requires limit > 0
    ensures Ascending(keys) && forall i :: 0 <= i < |keys| ==> keys[i] in all
    ensures more ==> keys != []
    ensures forall k :: k in all ==> k in keys || (more && Less(keys[|keys| - 1], k))
  {
    keys := [];
    var left := all;
    while left != {} && |keys| < limit
      invariant left <= all && (forall k :: k in keys ==> k in all) && (forall k :: k in all ==> k in keys || k in left)
      invariant Ascending(keys)
      invariant forall i, k :: 0 <= i < |keys| && k in left ==> Less(keys[i], k)
      decreases |left|
    {
      var k := Least(left);
      left := left - {k};
      keys := keys + [k];
    }
    more := left != {};
  }

  lemma PageOfLeastKeys(objects: map<Loc, Object>, bucket: int, prefix: string, after: string, keys: seq<string>,
        more: bool, page: ListPage)
    requires Ascending(keys) && forall i :: 0 <= i < |keys| ==> keys[i] in KeysUnder(objects, bucket, prefix, after)
    requires more ==> keys != []
    requires forall k :: k in KeysUnder(objects, bucket, prefix, after) ==> k in keys || (more && Less(keys[|keys| - 1], k))
    requires |page.objects| == |keys| && forall i :: 0 <= i < |keys| ==> page.objects[i] == ListedAs(objects, bucket, keys[i])
    requires page.truncated == more && (more ==> page.token == keys[|keys| - 1])
    ensures IsPage(objects, bucket, prefix, after, page)
  {
  }

  method Least(keys: set<string>) returns (k: string)
    requires keys != {}
    ensures k in keys && forall x :: x in keys ==> AtMost(k, x)
  {
    k := Pick(keys);
    var todo := keys - {k};
    while todo != {}
      invariant k in keys && todo <= keys
      invariant forall x :: x in keys - todo ==> AtMost(k, x)
      decreases |todo|
    {
      var x := Pick(todo);
      LessIsTotal(x, k);
      if Less(x, k) {
        forall y | y in keys - todo ensures AtMost(x, y) {
          AtMostIsTransitive(x, k, y);
        }
        k := x;
      }
      todo := todo - {x};
    }
  }

  /** The storage service and the table, seen through the calls the worker makes. */
  class Backend {
    var objects: map<Loc, Object>
    var rows: Rows
    const reliable: bool        // no call fails for reasons of its own
    const acceptsSelfCopy: bool // an object may be copied onto itself
    const keepsTags: bool       // a copy has its source's tag

    function Snapshot(): Disk
      reads this
    {
      Disk(objects, rows)
    }

    constructor (objects: map<Loc, Object>, rows: Rows, reliable: bool, acceptsSelfCopy: bool, keepsTags: bool)
      ensures this.objects == objects && this.rows == rows
      ensures this.reliable == reliable && this.acceptsSelfCopy == acceptsSelfCopy && this.keepsTags == keepsTags
    {
      this.objects, this.rows := objects, rows;
      this.reliable, this.acceptsSelfCopy, this.keepsTags := reliable, acceptsSelfCopy, keepsTags;
    }

    /** Whether a call goes wrong. */
    method Fails() returns (f: bool)
      ensures reliable ==> !f
    {
      f := *;
      f := f && !reliable;
    }

    method Head(at: Loc) returns (r: Result<Meta, Error>)
      ensures r.Ok? ==> at in objects && r.value == MetaOf(objects[at])
      ensures r == Err(NotFound) ==> at !in objects
      ensures r.Err? ==> r.error == NotFound || (r.error == Failed && !reliable)
    {
      var f := Fails();
      r := if f then Err(Failed) else if at in objects then Ok(MetaOf(objects[at])) else Err(NotFound);
    }

    /** The copy has the same content; its tag is the storage's choice, unless it keeps tags. */
    method Copy(dest: Loc, src: Loc) returns (r: Result<Option<string>, Error>, ghost tag: Option<string>)
      modifies `objects
      ensures r.Ok? ==> r.value == tag
      ensures keepsTags && src in old(objects) ==> tag == old(objects)[src].etag
      ensures (r.Err? && objects == old(objects))
        || (src in old(objects) && (src == dest ==> acceptsSelfCopy)
            && objects == old(objects)[dest := Object(old(objects)[src].content, tag)])
      ensures r.Err? ==> r.error == Failed
      ensures reliable && src in old(objects) && (src == dest ==> acceptsSelfCopy) ==> r.Ok?
    {
      var etag: Option<string> := *;
      if keepsTags && src in objects {
        etag := objects[src].etag;
      }
      tag := etag;
      var early := Fails();
      if early || src !in objects || (src == dest && !acceptsSelfCopy) {
        return Err(Failed), etag;
      }
      objects := objects[dest := Object(objects[src].content, etag)];
      var late := Fails();
      r := if late then Err(Failed) else Ok(etag);
    }

    /** Deleting what is not there succeeds. */
    method Delete(at: Loc) returns (err: Option<Error>)
      modifies `objects
      ensures objects == old(objects) - {at} || (err.Some? && objects == old(objects))
      ensures err.Some? ==> err.value == Failed && !reliable
    {
      var early := Fails();
      if early { return Some(Failed); }
      objects := objects - {at};
      var late := Fails();
      err := if late then Some(Failed) else None;
    }

    method List(bucket: int, prefix: string, token: string, limit: nat) returns (r: Result<ListPage, Error>)
      requires limit > 0
      ensures r.Ok? ==> IsPage(objects, bucket, prefix, token, r.value)
      ensures r.Err? ==> r.error == Failed && !reliable
    {
      var f := Fails();
      if f { return Err(Failed); }
      var keys, more := LeastKeys(KeysUnder(objects, bucket, prefix, token), limit);
      assert forall i :: 0 <= i < |keys| ==> keys[i] in keys;
      assert forall i :: 0 <= i < |keys| ==> Loc(bucket, keys[i]) in objects;
      var now := objects;
      var found := seq(|keys|, i requires 0 <= i < |keys| && Loc(bucket, keys[i]) in now => ListedAs(now, bucket, keys[i]));
      r := Ok(ListPage(found, more, if more then keys[|keys| - 1] else ""));
      PageOfLeastKeys(objects, bucket, prefix, token, keys, more, r.value);
    }

    // ---- The table ----

    method Upsert(at: Loc, size: int, etag: Option<string>, user: int, now: int) returns (err: Option<Error>)
      modifies `rows
      ensures rows == Upserted(old(rows), at, size, etag, user, now) || (err.Some? && rows == old(rows))
      ensures err.Some? ==> err.value == Failed && !reliable
    {
      var early := Fails();
      if early { return Some(Failed); }
      rows := Upserted(rows, at, size, etag, user, now);
      var late := Fails();
      err := if late then Some(Failed) else None;
    }

    method UpsertSeen(at: Loc, size: int, etag: Option<string>, now: int) returns (err: Option<Error>)
      modifies `rows
      ensures rows == SeenAt(old(rows), at, size, etag, now) || (err.Some? && rows == old(rows))
      ensures err.Some? ==> err.value == Failed && !reliable
    {
      var early := Fails();
      if early { return Some(Failed); }
      rows := SeenAt(rows, at, size, etag, now);
      var late := Fails();
      err := if late then Some(Failed) else None;
    }

    method PurgeUnseen(bucket: int, since: int) returns (err: Option<Error>)
      modifies `rows
      ensures rows == Purged(old(rows), bucket, since) || (err.Some? && rows == old(rows))
      ensures err.Some? ==> err.value == Failed && !reliable
    {
      var early := Fails();
      if early { return Some(Failed); }
      rows := Purged(rows, bucket, since);
      var late := Fails();
      err := if late then Some(Failed) else None;
    }

    method Unrecord(at: Loc) returns (err: Option<Error>)
      modifies `rows
      ensures rows == old(rows) - {at} || (err.Some? && rows == old(rows))
      ensures err.Some? ==> err.value == Failed && !reliable
    {
      var early := Fails();
      if early { return Some(Failed); }
      rows := rows - {at};
      var late := Fails();
      err := if late then Some(Failed) else None;
    }

    /** One transaction: all of its statements take effect, or none. */
    method MoveKey(from: Loc, to: Loc, size: int, etag: Option<string>, user: int, now: int)
      returns (err: Option<Error>)
      modifies `rows
      ensures rows == KeyMoved(old(rows), from, to, size, etag, user, now) || (err.Some? && rows == old(rows))
      ensures err.Some? ==> err.value == Failed && !reliable
    {
      var begin := Fails();
      if begin { return Some(Failed); }
      var tx := rows - {to};
      var dropped := Fails();
      if dropped { return Some(Failed); }
      if from in tx {
        var r := tx[from];
        tx := (tx - {from})[to := Row(size, etag, Some(now), now, r.createdBy)];
      } else {
        tx := tx[to := Row(size, etag, Some(now), now, Some(user))];
      }
      var moved := Fails();
      if moved { return Some(Failed); }
      assert tx == KeyMoved(rows, from, to, size, etag, user, now);
      rows := tx;
      var commit := Fails();
      err := if commit then Some(Failed) else None;
    }
  }
}
