/**
 * Deleting, copying and moving one object: a few calls in a row, any of which may fail, so
 * that an operation stops with only its first effects done.
 */
module Operations {
  import opened Base
  import opened Keys
  import opened Objects

  datatype Op =
    | Remove(at: Loc)            // permanent delete
    | Discard(at: Loc)           // delete to the trash
    | Copy(src: Loc, dest: Loc)
    | Move(src: Loc, dest: Loc)
  {
    function Source(): Loc {
      match this
      case Remove(at) => at
      case Discard(at) => at
      case Copy(src, _) => src
      case Move(src, _) => src
    }

    function Target(): Option<Loc> {
      match this
      case Remove(_) => None
      case Discard(at) => Some(Trashed(at))
      case Copy(_, dest) => Some(dest)
      case Move(_, dest) => Some(dest)
    }

    /** How many effects it has when all goes well. */
    function Length(): nat {
      match this
      case Remove(_) => 2
      case Copy(_, _) => 2
      case Discard(_) => 3
      case Move(_, _) => 3
    }

    predicate OntoItself() {
      Target() == Some(Source())
    }
  }

  function Trashed(at: Loc): Loc {
    Loc(at.bucket, ToTrashKey(at.key))
  }

  /** What holds for a whole batch: who asks, the stamp taken before the first item, and the backend's nature. */
  datatype Setting = Setting(user: int, now: int, acceptsSelfCopy: bool, keepsTags: bool, reliable: bool)

  /** How an operation went: the tag the copy got, how many effects took place, and the error it ended with. */
  datatype Course = Course(tag: Option<string>, reached: nat, error: Option<Error>)

  /** A copy, then the source's deletion, then the record's move. */
  function Relocated(d: Disk, src: Loc, dest: Loc, tag: Option<string>, recorded: Option<string>, s: Setting,
        k: nat): Disk
    requires src in d.objects
  {
    var o := d.objects[src];
    Disk(if k == 0 then d.objects
         else if k == 1 then d.objects[dest := Object(o.content, tag)]
         else d.objects[dest := Object(o.content, tag)] - {src},
         if k < 3 then d.rows else KeyMoved(d.rows, src, dest, |o.content|, recorded, s.user, s.now))
  }

  /** The first k effects of an operation. */
  function Stage(d: Disk, op: Op, s: Setting, tag: Option<string>, k: nat): Disk
    requires op.Source() in d.objects
  {
    var o := d.objects[op.Source()];
    match op
    case Remove(at) =>
      Disk(if k < 1 then d.objects else d.objects - {at}, if k < 2 then d.rows else d.rows - {at})
    case Copy(src, dest) =>
      Disk(if k < 1 then d.objects else d.objects[dest := Object(o.content, tag)],
           if k < 2 then d.rows else Upserted(d.rows, dest, |o.content|, tag, s.user, s.now))
    case Discard(at) => Relocated(d, at, Trashed(at), tag, o.etag, s, k)
    case Move(src, dest) => Relocated(d, src, dest, tag, tag, s, k)
  }

  /** The destination is free. */
  predicate Allowed(d: Disk, op: Op) {
    match op
    case Copy(_, dest) => dest !in d.objects
    case Move(src, dest) => src == dest || dest !in d.objects
    case _ => true
  }

  predicate CanGoAhead(d: Disk, op: Op, s: Setting) {
    op.Source() in d.objects && Allowed(d, op) && (op.OntoItself() ==> s.acceptsSelfCopy)
  }

  /** The ways an operation can go. */
  predicate Possible(d: Disk, op: Op, s: Setting, c: Course) {
    && c.reached <= op.Length()
    && (c.reached > 0 ==> CanGoAhead(d, op, s))
    && (c.reached > 0 && s.keepsTags && op.Target().Some? ==> c.tag == d.objects[op.Source()].etag)
    && (c.error.None? ==> c.reached == op.Length())
    && (c.error == Some(DestExists) ==> c.reached == 0 && !Allowed(d, op))
    && (c.error == Some(NotFound) ==> c.reached == 0 && Allowed(d, op) && op.Source() !in d.objects)
    && (s.reliable ==> (c.error.None? <==> CanGoAhead(d, op, s)))
  }

  function After(d: Disk, op: Op, s: Setting, c: Course): Disk
    requires Possible(d, op, s, c)
  {
    if c.reached == 0 then d else Stage(d, op, s, c.tag, c.reached)
  }

  predicate Fits(b: Backend, s: Setting) {
    s.acceptsSelfCopy == b.acceptsSelfCopy && s.keepsTags == b.keepsTags && s.reliable == b.reliable
  }

  // ---- The operations ----

  method ApplyDelete(b: Backend, at: Loc, permanent: bool, s: Setting) returns (err: Option<Error>, ghost c: Course)
    requires Fits(b, s)
    modifies b
    ensures var op := if permanent then Remove(at) else Discard(at);
      Possible(old(b.Snapshot()), op, s, c) && b.Snapshot() == After(old(b.Snapshot()), op, s, c) && err == c.error
  {
    var head := b.Head(at);
    if head.Err? {
      return Some(head.error), Course(None, 0, Some(head.error));
    }
    if permanent {
      err := b.Delete(at);
      if err.Some? {
        return err, Course(None, if b.objects == old(b.objects) then 0 else 1, err);
      }
      ghost var rows := b.rows;
      err := b.Unrecord(at);
      return err, Course(None, if err.Some? && b.rows == rows then 1 else 2, err);
    }
    err, c := Relocate(b, at, Trashed(at), head.value, false, s);
  }

  /** What a soft delete and a move have in common. The record gets the copy's tag, or the one seen before. */
  method Relocate(b: Backend, src: Loc, dest: Loc, meta: Meta, useCopyTag: bool, s: Setting)
    returns (err: Option<Error>, ghost c: Course)
    requires Fits(b, s) && src in b.objects && meta == MetaOf(b.objects[src])
    modifies b
    ensures c.reached <= 3 && c.error == err && (err.None? ==> c.reached == 3) && (err.Some? ==> err.value == Failed)
    ensures c.reached > 0 ==> (src == dest ==> s.acceptsSelfCopy)
    ensures s.keepsTags ==> c.tag == meta.etag
    ensures s.reliable && (src == dest ==> s.acceptsSelfCopy) ==> err.None?
    ensures b.Snapshot() == Relocated(old(b.Snapshot()), src, dest, c.tag, if useCopyTag then c.tag else meta.etag, s, c.reached)
  {
    var copied, tag := b.Copy(dest, src);
    if copied.Err? {
      return Some(copied.error), Course(tag, if b.objects == old(b.objects) then 0 else 1, Some(copied.error));
    }
    ghost var there := b.objects;
    err := b.Delete(src);
    if err.Some? {
      return err, Course(tag, if b.objects == there then 1 else 2, err);
    }
    ghost var rows := b.rows;
    err := b.MoveKey(src, dest, meta.size, if useCopyTag then copied.value else meta.etag, s.user, s.now);
    c := Course(tag, if err.Some? && b.rows == rows then 2 else 3, err);
  }

  /** The check before a copy or a move. */
  method RejectIfExists(b: Backend, dest: Loc) returns (err: Option<Error>)
    ensures err.None? ==> dest !in b.objects
    ensures err == Some(DestExists) ==> dest in b.objects
    ensures err.Some? ==> err.value == DestExists || (err.value == Failed && !b.reliable)
  {
    var head := b.Head(dest);
    err := match head
      case Ok(_) => Some(DestExists)
      case Err(e) => if e == NotFound then None else Some(e);
  }

  method ApplyCopy(b: Backend, src: Loc, dest: Loc, s: Setting) returns (err: Option<Error>, ghost c: Course)
    requires Fits(b, s)
    modifies b
    ensures var op := Copy(src, dest);
      Possible(old(b.Snapshot()), op, s, c) && b.Snapshot() == After(old(b.Snapshot()), op, s, c) && err == c.error
  {
    err := RejectIfExists(b, dest);
    if err.Some? {
      return err, Course(None, 0, err);
    }
    var head := b.Head(src);
    if head.Err? {
      return Some(head.error), Course(None, 0, Some(head.error));
    }
    var copied, tag := b.Copy(dest, src);
    if copied.Err? {
      return Some(copied.error), Course(tag, if b.objects == old(b.objects) then 0 else 1, Some(copied.error));
    }
    ghost var rows := b.rows;
    err := b.Upsert(dest, head.value.size, copied.value, s.user, s.now);
    c := Course(tag, if err.Some? && b.rows == rows then 1 else 2, err);
  }

  method ApplyMove(b: Backend, src: Loc, dest: Loc, s: Setting) returns (err: Option<Error>, ghost c: Course)
    requires Fits(b, s)
    modifies b
    ensures var op := Move(src, dest);
      Possible(old(b.Snapshot()), op, s, c) && b.Snapshot() == After(old(b.Snapshot()), op, s, c) && err == c.error
  {
    if src != dest {
      err := RejectIfExists(b, dest);
      if err.Some? {
        return err, Course(None, 0, err);
      }
    }
    var head := b.Head(src);
    if head.Err? {
      return Some(head.error), Course(None, 0, Some(head.error));
    }
    err, c := Relocate(b, src, dest, head.value, true, s);
  }
}
