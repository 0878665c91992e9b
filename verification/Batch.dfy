/**
 * Batches of deletes, copies and moves: what a batch keeps, however its calls fail. A crash
 * leaves what some shorter batch leaves whose last operation stopped early, so statements
 * about all batches and all courses are statements about every moment of every batch.
 */
module Batch {
  import opened Base
  import opened Keys
  import opened Objects
  import opened Operations

  // ---- Runs ----

  /** ds are the states before, between and after the operations. */
  ghost predicate IsRun(ds: seq<Disk>, ops: seq<Op>, s: Setting, cs: seq<Course>) {
    && |cs| == |ops| && |ds| == |ops| + 1
    && forall i :: 0 <= i < |ops| ==> Possible(ds[i], ops[i], s, cs[i]) && ds[i + 1] == After(ds[i], ops[i], s, cs[i])
  }

  /** The run leads from one state to another. */
  ghost predicate Takes(ds: seq<Disk>, ops: seq<Op>, s: Setting, cs: seq<Course>, d: Disk, d': Disk) {
    IsRun(ds, ops, s, cs) && ds[0] == d && ds[|ops|] == d'
  }

  lemma RunGrows(ds: seq<Disk>, ops: seq<Op>, s: Setting, cs: seq<Course>, op: Op, c: Course, d: Disk)
    requires IsRun(ds, ops, s, cs) && Possible(ds[|ops|], op, s, c) && d == After(ds[|ops|], op, s, c)
    ensures IsRun(ds + [d], ops + [op], s, cs + [c])
  {
  }

  function Successes(cs: seq<Course>): nat {
    if cs == [] then 0 else Successes(cs[..|cs| - 1]) + if cs[|cs| - 1].error.None? then 1 else 0
  }

  lemma OneMoreCourse(cs: seq<Course>, c: Course)
    ensures Successes(cs + [c]) == Successes(cs) + if c.error.None? then 1 else 0
  {
    assert (cs + [c])[..|cs|] == cs;
  }

  ghost predicate Holds(d: Disk, at: Loc, content: seq<bv8>) {
    at in d.objects && d.objects[at].content == content
  }

  // ---- One operation ----

  /** The object at the place is lost to the operation, or replaced by it. */
  predicate Endangers(d: Disk, op: Op, at: Loc) {
    match op
    case Remove(x) => x == at
    case Discard(x) => at == Trashed(x) && x in d.objects
    case Copy(_, _) => false
    case Move(src, dest) => src == dest == at
  }

  /** Content stays where it is, or has moved from the source to the target. */
  lemma StepKeepsContent(d: Disk, op: Op, s: Setting, c: Course, at: Loc)
    requires Possible(d, op, s, c) && at in d.objects && !Endangers(d, op, at)
    ensures var d', content := After(d, op, s, c), d.objects[at].content;
      Holds(d', at, content) || (op.Source() == at && op.Target().Some? && Holds(d', op.Target().value, content))
  {
  }

  /** A copy or a move never puts other content where an object was. */
  lemma NothingIsOverwritten(d: Disk, op: Op, s: Setting, c: Course, at: Loc)
    requires Possible(d, op, s, c) && (op.Copy? || op.Move?) && at in d.objects
    ensures var d' := After(d, op, s, c);
      && (at in d'.objects ==> d'.objects[at].content == d.objects[at].content)
      && (op.Copy? ==> at in d'.objects && d'.objects[at] == d.objects[at])
  {
  }

  // ---- A batch of moves ----

  ghost predicate AllMoves(ops: seq<Op>) {
    forall i :: 0 <= i < |ops| ==> ops[i].Move?
  }

  /** Some of the first n moves, in order, lead from one place to the other. */
  ghost predicate Leads(ops: seq<Op>, n: nat, from: Loc, to: Loc)
    requires n <= |ops| && AllMoves(ops)
  {
    if n == 0 then from == to
    else Leads(ops, n - 1, from, to) || (ops[n - 1].dest == to && Leads(ops, n - 1, from, ops[n - 1].src))
  }

  /** Moves of the batch at these places in it, one after the other, each from where the last one went. */
  ghost predicate IsChain(ops: seq<Op>, n: nat, steps: seq<nat>, from: Loc, to: Loc)
    requires n <= |ops| && AllMoves(ops)
  {
    && (forall j :: 0 <= j < |steps| ==> steps[j] < n)
    && (forall i, j :: 0 <= i < j < |steps| ==> steps[i] < steps[j])
    && (forall i, j :: 0 <= i && j == i + 1 < |steps| ==> ops[steps[i]].dest == ops[steps[j]].src)
    && if steps == [] then from == to else ops[steps[0]].src == from && ops[steps[|steps| - 1]].dest == to
  }

  ghost predicate IsLinked(ops: seq<Op>, n: nat, from: Loc, to: Loc)
    requires n <= |ops| && AllMoves(ops)
  {
    exists steps :: IsChain(ops, n, steps, from, to)
  }

  lemma {:induction false} LeadsIsAChain(ops: seq<Op>, n: nat, from: Loc, to: Loc)
    requires n <= |ops| && AllMoves(ops)
    ensures Leads(ops, n, from, to) <==> IsLinked(ops, n, from, to)
  {
    if n == 0 {
      assert from == to ==> IsChain(ops, 0, [], from, to);
    } else {
      var op := ops[n - 1];
      LeadsIsAChain(ops, n - 1, from, to);
      LeadsIsAChain(ops, n - 1, from, op.src);
      if Leads(ops, n - 1, from, to) {
        var steps :| IsChain(ops, n - 1, steps, from, to);
        assert IsChain(ops, n, steps, from, to);
      } else if Leads(ops, n, from, to) {
        var steps :| IsChain(ops, n - 1, steps, from, op.src);
        var last: nat := n - 1;
        assert IsChain(ops, n, steps + [last], from, to);
      }
      forall steps | IsChain(ops, n, steps, from, to) ensures Leads(ops, n, from, to) {
        ChainsEndOnce(ops, n, steps, from, to);
      }
    }
  }

  /** A chain does without the last move, or ends with it. */
  lemma ChainsEndOnce(ops: seq<Op>, n: nat, steps: seq<nat>, from: Loc, to: Loc)
    requires 0 < n <= |ops| && AllMoves(ops) && IsChain(ops, n, steps, from, to)
    ensures IsChain(ops, n - 1, steps, from, to)
      || (ops[n - 1].dest == to && IsLinked(ops, n - 1, from, ops[n - 1].src))
  {
    if steps != [] {
      var m := |steps| - 1;
      if steps[m] == n - 1 {
        assert IsChain(ops, n - 1, steps[..m], from, ops[n - 1].src);
      }
    }
  }

  /** What was there is still stored: in place, or where moves of the batch took it. */
  ghost predicate IsKept(ops: seq<Op>, n: nat, from: Loc, content: seq<bv8>, d: Disk)
    requires n <= |ops| && AllMoves(ops)
  {
    exists to :: Leads(ops, n, from, to) && Holds(d, to, content)
  }

  ghost predicate NoSelfMoves(ops: seq<Op>)
    requires AllMoves(ops)
  {
    forall i :: 0 <= i < |ops| ==> ops[i].src != ops[i].dest
  }

  lemma {:induction false} MovesKeepContent(ds: seq<Disk>, ops: seq<Op>, s: Setting, cs: seq<Course>, n: nat, from: Loc)
    requires IsRun(ds, ops, s, cs) && AllMoves(ops) && (s.acceptsSelfCopy ==> NoSelfMoves(ops))
    requires n <= |ops| && from in ds[0].objects
    ensures IsKept(ops, n, from, ds[0].objects[from].content, ds[n])
  {
    var content := ds[0].objects[from].content;
    if n == 0 {
      assert Leads(ops, 0, from, from) && Holds(ds[0], from, content);
    } else {
      MovesKeepContent(ds, ops, s, cs, n - 1, from);
      var at :| Leads(ops, n - 1, from, at) && Holds(ds[n - 1], at, content);
      var op, c := ops[n - 1], cs[n - 1];
      assert ds[n] == After(ds[n - 1], op, s, c);
      if op.src == op.dest {
        assert ds[n] == ds[n - 1];
        assert Leads(ops, n, from, at);
      } else {
        StepKeepsContent(ds[n - 1], op, s, c, at);
        assert Leads(ops, n, from, at) && (op.src == at ==> Leads(ops, n, from, op.dest));
      }
    }
  }

  /** No run of the batch loses anything that was stored when it began. */
  ghost predicate LosesNothing(ops: seq<Op>, s: Setting)
    requires AllMoves(ops)
  {
    forall ds: seq<Disk>, cs: seq<Course>, from: Loc :: IsRun(ds, ops, s, cs) && from in ds[0].objects ==>
      IsKept(ops, |ops|, from, ds[0].objects[from].content, ds[|ops|])
  }

  /**
   * A batch of moves loses nothing, whatever fails or does not, exactly when no item moves an object
   * onto itself, unless the storage refuses to copy an object onto itself.
   */
  lemma MovesLoseNothingIff(ops: seq<Op>, s: Setting)
    requires AllMoves(ops)
    ensures LosesNothing(ops, s) <==> !s.acceptsSelfCopy || NoSelfMoves(ops)
  {
    if !s.acceptsSelfCopy || NoSelfMoves(ops) {
      forall ds: seq<Disk>, cs: seq<Course>, from: Loc | IsRun(ds, ops, s, cs) && from in ds[0].objects
        ensures IsKept(ops, |ops|, from, ds[0].objects[from].content, ds[|ops|])
      {
        MovesKeepContent(ds, ops, s, cs, |ops|, from);
      }
    } else {
      SelfMovesLose(ops, s);
    }
  }

  // ---- Batches in which no call fails ----

  /** How an operation goes when no call fails: all the way, or refused. */
  function Smooth(d: Disk, op: Op, s: Setting): (c: Course)
    ensures Possible(d, op, s, c)
  {
    if CanGoAhead(d, op, s) then Course(d.objects[op.Source()].etag, op.Length(), None)
    else if !Allowed(d, op) then Course(None, 0, Some(DestExists))
    else if op.Source() !in d.objects then Course(None, 0, Some(NotFound))
    else Course(None, 0, Some(Failed))
  }

  /** The state after the first n operations. */
  function Smoothly(d: Disk, ops: seq<Op>, s: Setting, n: nat): Disk
    requires n <= |ops|
  {
    if n == 0 then d
    else
      var before := Smoothly(d, ops, s, n - 1);
      After(before, ops[n - 1], s, Smooth(before, ops[n - 1], s))
  }

  lemma {:induction false} SmoothRun(d: Disk, ops: seq<Op>, s: Setting, n: nat) returns (ds: seq<Disk>, cs: seq<Course>)
    requires n <= |ops|
    ensures IsRun(ds, ops[..n], s, cs) && ds[0] == d && ds[n] == Smoothly(d, ops, s, n)
  {
    if n == 0 {
      ds, cs := [d], [];
    } else {
      ds, cs := SmoothRun(d, ops, s, n - 1);
      var op := ops[n - 1];
      var c := Smooth(ds[n - 1], op, s);
      RunGrows(ds, ops[..n - 1], s, cs, op, c, After(ds[n - 1], op, s, c));
      assert ops[..n] == ops[..n - 1] + [op];
      ds, cs := ds + [After(ds[n - 1], op, s, c)], cs + [c];
    }
  }

  // ---- How a move onto itself loses an object ----

  lemma {:induction false} SelfMovesLose(ops: seq<Op>, s: Setting)
    requires AllMoves(ops) && !NoSelfMoves(ops) && s.acceptsSelfCopy
    ensures !LosesNothing(ops, s)
  {
    var i := FirstSelfMove(ops);
    SelfMoveLoses(ops, s, i);
    var d, at := Marked(ops, ops[i].src), ops[i].src;
    var ds, cs := SmoothRun(d, ops, s, |ops|);
    assert ops[..|ops|] == ops;
    assert !IsKept(ops, |ops|, at, ds[0].objects[at].content, ds[|ops|]);
  }

  lemma {:induction false} FirstSelfMove(ops: seq<Op>) returns (i: nat)
    requires AllMoves(ops) && !NoSelfMoves(ops)
    ensures i < |ops| && ops[i].src == ops[i].dest && NoSelfMoves(ops[..i])
  {
    if NoSelfMoves(ops[..|ops| - 1]) {
      i := |ops| - 1;
      assert forall j :: 0 <= j < i ==> ops[..i][j] == ops[j];
    } else {
      i := FirstSelfMove(ops[..|ops| - 1]);
      assert ops[..|ops| - 1][..i] == ops[..i];
    }
  }

  /** An object at every place the batch names, and only one of them with this content. */
  function Marked(ops: seq<Op>, at: Loc): Disk
    requires AllMoves(ops)
  {
    var places := (set i | 0 <= i < |ops| :: ops[i].src) + (set i | 0 <= i < |ops| :: ops[i].dest);
    Disk(map x | x in places :: Object(if x == at then [1] else [], None), map[])
  }

  ghost predicate Nowhere(d: Disk, content: seq<bv8>) {
    forall at :: !Holds(d, at, content)
  }

  lemma {:induction false} SelfMoveLoses(ops: seq<Op>, s: Setting, i: nat)
    requires AllMoves(ops) && s.acceptsSelfCopy
    requires i < |ops| && ops[i].src == ops[i].dest && NoSelfMoves(ops[..i])
    ensures var d, at := Marked(ops, ops[i].src), ops[i].src;
      Holds(d, at, [1]) && Nowhere(Smoothly(d, ops, s, |ops|), [1])
  {
    var d, at := Marked(ops, ops[i].src), ops[i].src;
    assert at in d.objects;
    NothingMovesYet(ops, s, at, i, i);
    MarkIsTaken(ops, s, i);
    StaysNowhere(d, ops, s, i + 1, |ops|);
  }

  lemma MarkIsTaken(ops: seq<Op>, s: Setting, i: nat)
    requires AllMoves(ops) && s.acceptsSelfCopy && i < |ops| && ops[i].src == ops[i].dest
    ensures var d := Marked(ops, ops[i].src); Nowhere(After(d, ops[i], s, Smooth(d, ops[i], s)), [1])
  {
    var d := Marked(ops, ops[i].src);
    assert ops[i].src in d.objects;
    assert After(d, ops[i], s, Smooth(d, ops[i], s)).objects == d.objects - {ops[i].src};
  }

  /** Every destination is taken, so the earlier items are refused. */
  lemma {:induction false} NothingMovesYet(ops: seq<Op>, s: Setting, at: Loc, i: nat, n: nat)
    requires AllMoves(ops) && n <= i < |ops| && NoSelfMoves(ops[..i])
    ensures Smoothly(Marked(ops, at), ops, s, n) == Marked(ops, at)
  {
    if n > 0 {
      NothingMovesYet(ops, s, at, i, n - 1);
      assert ops[..i][n - 1] == ops[n - 1];
      assert ops[n - 1].dest in Marked(ops, at).objects;
    }
  }

  /** Moves make no content up. */
  lemma {:induction false} StaysNowhere(d: Disk, ops: seq<Op>, s: Setting, n: nat, m: nat)
    requires AllMoves(ops) && n <= m <= |ops| && Nowhere(Smoothly(d, ops, s, n), [1])
    ensures Nowhere(Smoothly(d, ops, s, m), [1])
    decreases m
  {
    if n < m {
      StaysNowhere(d, ops, s, n, m - 1);
      MovesInventNothing(Smoothly(d, ops, s, m - 1), ops[m - 1], s, [1]);
    }
  }

  lemma MovesInventNothing(d: Disk, op: Op, s: Setting, content: seq<bv8>)
    requires op.Move? && Nowhere(d, content)
    ensures Nowhere(After(d, op, s, Smooth(d, op, s)), content)
  {
    var d' := After(d, op, s, Smooth(d, op, s));
    forall at ensures !Holds(d', at, content) {
      assert !Holds(d, at, content) && !Holds(d, op.src, content);
    }
  }

  // ---- A batch of soft deletes ----

  ghost predicate AllDiscards(ops: seq<Op>) {
    forall i :: 0 <= i < |ops| ==> ops[i].Discard? && ValidUserKey(ops[i].at.key)
  }

  /** Live objects end up where they were or, if the batch names them, at their trash key. */
  lemma {:induction false} DiscardsKeepLiveContent(ds: seq<Disk>, ops: seq<Op>, s: Setting, cs: seq<Course>, n: nat,
        at: Loc)
    requires IsRun(ds, ops, s, cs) && AllDiscards(ops) && n <= |ops|
    requires at in ds[0].objects && ValidUserKey(at.key)
    ensures var content := ds[0].objects[at].content;
      Holds(ds[n], at, content) || (at !in ds[n].objects && Discard(at) in ops[..n] && Holds(ds[n], Trashed(at), content))
  {
    if n > 0 {
      DiscardsKeepLiveContent(ds, ops, s, cs, n - 1, at);
      var op, c, before, content := ops[n - 1], cs[n - 1], ds[n - 1], ds[0].objects[at].content;
      assert ops[..n] == ops[..n - 1] + [op];
      assert ds[n] == After(before, op, s, c);
      TrashRoundTrip(at.key, op.at.key);
      TrashRoundTrip(op.at.key, at.key);
      DiscardStep(before, op.at, s, c, at, content);
    }
  }

  lemma DiscardStep(d: Disk, x: Loc, s: Setting, c: Course, at: Loc, content: seq<bv8>)
    requires Possible(d, Discard(x), s, c) && at != Trashed(x) && x != Trashed(at) && (Trashed(at) == Trashed(x) ==> at == x)
    requires at != Trashed(at)
    ensures var d' := After(d, Discard(x), s, c);
      && (Holds(d, at, content) ==> Holds(d', at, content) || (at == x && at !in d'.objects && Holds(d', Trashed(at), content)))
      && (at !in d.objects && Holds(d, Trashed(at), content) ==> at !in d'.objects && Holds(d', Trashed(at), content))
  {
  }

  lemma TrashIsElsewhere(x: Loc)
    ensures x != Trashed(x)
  {
    assert |Trashed(x).key| == |TRASH| + |x.key|;
  }

  /**
   * One soft delete can lose content only at the trash key, and does so exactly when the key
   * is being trashed a second time with other content.
   */
  lemma DiscardLosesOldTrashIff(d: Disk, x: Loc, s: Setting)
    ensures (forall c, at :: Possible(d, Discard(x), s, c) && at in d.objects ==>
               var d', content := After(d, Discard(x), s, c), d.objects[at].content;
               Holds(d', at, content) || (at == x && Holds(d', Trashed(x), content)))
      <==> !(x in d.objects && Trashed(x) in d.objects && d.objects[x].content != d.objects[Trashed(x)].content)
  {
    TrashIsElsewhere(x);
    if x in d.objects && Trashed(x) in d.objects && d.objects[x].content != d.objects[Trashed(x)].content {
      var c := Smooth(d, Discard(x), s);
      assert Possible(d, Discard(x), s, c);
      assert !Holds(After(d, Discard(x), s, c), Trashed(x), d.objects[Trashed(x)].content);
    }
  }

  // ---- Copies ----

  ghost predicate AllCopies(ops: seq<Op>) {
    forall i :: 0 <= i < |ops| ==> ops[i].Copy?
  }

  /** All objects of d as they were, and besides only destinations of the first n copies, with content d has. */
  ghost predicate Adds(d: Disk, d': Disk, ops: seq<Op>, n: nat)
    requires n <= |ops| && AllCopies(ops)
  {
    && (forall at :: at in d.objects ==> at in d'.objects && d'.objects[at] == d.objects[at])
    && (forall at :: at in d'.objects && at !in d.objects ==> IsDest(ops, n, at))
    && (forall at :: at in d'.objects ==> WasThere(d, d'.objects[at].content))
  }

  ghost predicate IsDest(ops: seq<Op>, n: nat, at: Loc)
    requires n <= |ops| && AllCopies(ops)
  {
    exists i :: 0 <= i < n && ops[i].dest == at
  }

  ghost predicate WasThere(d: Disk, content: seq<bv8>) {
    exists from :: Holds(d, from, content)
  }

  /** A batch of copies changes no object and adds only destinations, each with content that was there. */
  lemma {:induction false} CopiesOnlyAdd(ds: seq<Disk>, ops: seq<Op>, s: Setting, cs: seq<Course>, n: nat)
    requires IsRun(ds, ops, s, cs) && n <= |ops| && AllCopies(ops)
    ensures Adds(ds[0], ds[n], ops, n)
  {
    if n == 0 {
      forall at | at in ds[0].objects ensures WasThere(ds[0], ds[0].objects[at].content) {
        assert Holds(ds[0], at, ds[0].objects[at].content);
      }
    } else {
      CopiesOnlyAdd(ds, ops, s, cs, n - 1);
      assert ds[n] == After(ds[n - 1], ops[n - 1], s, cs[n - 1]);
      OneMoreCopy(ds[0], ds[n - 1], ops, n, s, cs[n - 1]);
    }
  }

  lemma OneMoreCopy(d0: Disk, d: Disk, ops: seq<Op>, n: nat, s: Setting, c: Course)
    requires 0 < n <= |ops| && AllCopies(ops) && Adds(d0, d, ops, n - 1) && Possible(d, ops[n - 1], s, c)
    ensures Adds(d0, After(d, ops[n - 1], s, c), ops, n)
  {
    var d' := After(d, ops[n - 1], s, c);
    forall at | at in d'.objects && at !in d0.objects ensures IsDest(ops, n, at) {
      assert at in d.objects ==> IsDest(ops, n - 1, at);
      assert at !in d.objects ==> ops[n - 1].dest == at;
    }
  }

  // ---- Records against objects ----

  /** The record says what the storage has. */
  ghost predicate Agrees(d: Disk, at: Loc) {
    && (at in d.objects <==> at in d.rows)
    && (at in d.objects ==> d.rows[at].size == |d.objects[at].content| && d.rows[at].etag == d.objects[at].etag)
  }

  predicate Touches(op: Op, at: Loc) {
    (op.Source() == at && !op.Copy?) || op.Target() == Some(at)
  }

  /** A soft delete records the tag the object had, not the one its copy got. */
  predicate RecordsTheTag(d: Disk, op: Op, c: Course)
    requires op.Source() in d.objects
  {
    op.Discard? ==> c.tag == d.objects[op.at].etag
  }

  /**
   * An operation with all its effects leaves record and object in step wherever it was, but for two cases:
   * a move onto itself, and the trash key of a soft delete whose copy got another tag.
   */
  lemma FinishedAgreesIff(d: Disk, op: Op, s: Setting, c: Course, at: Loc)
    requires Possible(d, op, s, c) && c.reached == op.Length() && Touches(op, at)
    ensures Agrees(After(d, op, s, c), at)
      <==> !op.OntoItself() && (op.Target() == Some(at) ==> RecordsTheTag(d, op, c))
  {
    if op.Discard? {
      TrashIsElsewhere(op.at);
    }
  }

  /**
   * On every disk that has the object, every successful soft delete leaves a true record at the
   * trash key exactly when the storage's copies keep their source's tag.
   */
  lemma DiscardsRecordTheTagIff(d: Disk, x: Loc, s: Setting)
    ensures (forall c :: Possible(d, Discard(x), s, c) && c.error.None? ==> Agrees(After(d, Discard(x), s, c), Trashed(x)))
      <==> s.keepsTags || x !in d.objects
  {
    var op := Discard(x);
    TrashIsElsewhere(x);
    if s.keepsTags || x !in d.objects {
      forall c | Possible(d, op, s, c) && c.error.None? ensures Agrees(After(d, op, s, c), Trashed(x)) {
        FinishedAgreesIff(d, op, s, c, Trashed(x));
      }
    } else {
      var c := OtherTag(d, x, s);
      FinishedAgreesIff(d, op, s, c, Trashed(x));
    }
  }

  /** The run: all calls succeed and the copy comes back with another tag. */
  lemma OtherTag(d: Disk, x: Loc, s: Setting) returns (c: Course)
    requires x in d.objects && !s.keepsTags
    ensures Possible(d, Discard(x), s, c) && c.error.None? && c.tag != d.objects[x].etag
  {
    TrashIsElsewhere(x);
    var etag := d.objects[x].etag;
    c := Course(if etag == None then Some("") else None, 3, None);
  }

  /**
   * The record of a finished operation's target bears the batch's stamp and belongs to whom the source's record did, or a
   * copy's target's did; whoever asks for the batch gets what had no record, and what is moved onto itself.
   * Until an operation has finished it has changed no record.
   */
  lemma FinishedRecordsAreSigned(d: Disk, op: Op, s: Setting, c: Course)
    requires Possible(d, op, s, c)
    ensures c.reached < op.Length() ==> After(d, op, s, c).rows == d.rows
    ensures c.reached == op.Length() && op.Target().Some? ==>
      var (rows, rows', t) := (d.rows, After(d, op, s, c).rows, op.Target().value);
      var heir := if op.Copy? then t else op.Source();
      && t in rows' && rows'[t].seen == Some(s.now) && rows'[t].updated == s.now
      && rows'[t].createdBy == if heir in rows && !op.OntoItself() then rows[heir].createdBy else Some(s.user)
  {
  }

  /** The object is stored and on record as this user's, or nobody's. */
  ghost predicate IsHis(d: Disk, at: Loc, content: seq<bv8>, creator: Option<int>) {
    Holds(d, at, content) && at in d.rows && d.rows[at].createdBy == creator
  }

  /** However a batch shifts objects about, each stays its creator's, if no move stops half-way. */
  lemma {:induction false} MovesKeepCreators(ds: seq<Disk>, ops: seq<Op>, s: Setting, cs: seq<Course>, n: nat, from: Loc)
    requires IsRun(ds, ops, s, cs) && AllMoves(ops) && NoSelfMoves(ops)
    requires forall i :: 0 <= i < |ops| ==> cs[i].reached == 0 || cs[i].reached == ops[i].Length()
    requires n <= |ops| && from in ds[0].objects && from in ds[0].rows
    ensures exists to :: Leads(ops, n, from, to) && IsHis(ds[n], to, ds[0].objects[from].content, ds[0].rows[from].createdBy)
  {
    var content, creator := ds[0].objects[from].content, ds[0].rows[from].createdBy;
    if n == 0 {
      assert Leads(ops, 0, from, from) && IsHis(ds[0], from, content, creator);
    } else {
      MovesKeepCreators(ds, ops, s, cs, n - 1, from);
      var at :| Leads(ops, n - 1, from, at) && IsHis(ds[n - 1], at, content, creator);
      var op, c := ops[n - 1], cs[n - 1];
      assert ds[n] == After(ds[n - 1], op, s, c);
      OneMoveKeepsCreator(ds[n - 1], op, s, c, at, content, creator);
      assert Leads(ops, n, from, at) && (op.src == at ==> Leads(ops, n, from, op.dest));
    }
  }

  lemma OneMoveKeepsCreator(d: Disk, op: Op, s: Setting, c: Course, at: Loc, content: seq<bv8>, creator: Option<int>)
    requires Possible(d, op, s, c) && op.Move? && op.src != op.dest && (c.reached == 0 || c.reached == op.Length())
    requires IsHis(d, at, content, creator)
    ensures IsHis(After(d, op, s, c), if op.src == at && c.reached > 0 then op.dest else at, content, creator)
  {
  }

  lemma UntouchedStays(d: Disk, op: Op, s: Setting, c: Course, at: Loc)
    requires Possible(d, op, s, c) && (!Touches(op, at) || c.reached == 0)
    ensures var d' := After(d, op, s, c);
      && (at in d'.objects <==> at in d.objects) && (at in d.objects ==> d'.objects[at] == d.objects[at])
      && (at in d'.rows <==> at in d.rows) && (at in d.rows ==> d'.rows[at] == d.rows[at])
  {
  }

  /** How many of the first n operations there are up to the last that had an effect on the place. */
  function Last(ops: seq<Op>, cs: seq<Course>, n: nat, at: Loc): (k: nat)
    requires n <= |ops| == |cs|
    ensures k <= n && (k > 0 ==> Touches(ops[k - 1], at) && cs[k - 1].reached > 0)
  {
    if n == 0 then 0
    else if Touches(ops[n - 1], at) && cs[n - 1].reached > 0 then n
    else Last(ops, cs, n - 1, at)
  }

  lemma {:induction false} LastDecides(ds: seq<Disk>, ops: seq<Op>, s: Setting, cs: seq<Course>, n: nat, at: Loc)
    requires IsRun(ds, ops, s, cs) && n <= |ops|
    ensures Agrees(ds[n], at) <==> Agrees(ds[Last(ops, cs, n, at)], at)
  {
    if n > 0 && (!Touches(ops[n - 1], at) || cs[n - 1].reached == 0) {
      LastDecides(ds, ops, s, cs, n - 1, at);
      assert ds[n] == After(ds[n - 1], ops[n - 1], s, cs[n - 1]);
      UntouchedStays(ds[n - 1], ops[n - 1], s, cs[n - 1], at);
    }
  }

  /**
   * After any mixed batch record and object agree at a place just as the last operation with an effect there left
   * them: as at the start if there was none, and if it had all its effects, in step but for the two cases above.
   */
  lemma BatchesKeepRecordsInStep(ds: seq<Disk>, ops: seq<Op>, s: Setting, cs: seq<Course>, n: nat, at: Loc)
    requires IsRun(ds, ops, s, cs) && n <= |ops|
    ensures var k := Last(ops, cs, n, at);
      && (Agrees(ds[n], at) <==> Agrees(ds[k], at))
      && (k > 0 && cs[k - 1].reached == ops[k - 1].Length() ==>
            var op, tagged := ops[k - 1], RecordsTheTag(ds[k - 1], ops[k - 1], cs[k - 1]);
            Agrees(ds[n], at) <==> (!op.OntoItself() && (op.Target() == Some(at) ==> tagged)))
  {
    LastDecides(ds, ops, s, cs, n, at);
    var k := Last(ops, cs, n, at);
    if k > 0 && cs[k - 1].reached == ops[k - 1].Length() {
      assert ds[k] == After(ds[k - 1], ops[k - 1], s, cs[k - 1]);
      FinishedAgreesIff(ds[k - 1], ops[k - 1], s, cs[k - 1], at);
    }
  }

  /** The target already has an object of the same size, with the tag the copy gets. */
  predicate LooksTheSame(d: Disk, op: Op, tag: Option<string>)
    requires op.Source() in d.objects && op.Target().Some?
  {
    var t := op.Target().value;
    t in d.objects && |d.objects[t].content| == |d.objects[op.Source()].content| && d.objects[t].etag == tag
  }

  /**
   * From full agreement an operation, failed or not, leaves full agreement exactly when it had no effect, or all of
   * them with the tag recorded, or just a copy over an object that looks the same to the records.
   */
  lemma AgreementSurvivesIff(d: Disk, op: Op, s: Setting, c: Course)
    requires Possible(d, op, s, c) && forall at :: Agrees(d, at)
    ensures (forall at :: Agrees(After(d, op, s, c), at)) <==>
      || c.reached == 0
      || (c.reached == op.Length() && !op.OntoItself() && RecordsTheTag(d, op, c))
      || (c.reached == 1 && op.Target().Some? && LooksTheSame(d, op, c.tag))
  {
    if c.reached == op.Length() {
      FinishedKeepsAgreementIff(d, op, s, c);
    } else if c.reached > 0 {
      PartWayDisagrees(d, op, s, c);
    }
  }

  lemma FinishedKeepsAgreementIff(d: Disk, op: Op, s: Setting, c: Course)
    requires Possible(d, op, s, c) && c.reached == op.Length() && forall at :: Agrees(d, at)
    ensures (forall at :: Agrees(After(d, op, s, c), at)) <==> !op.OntoItself() && RecordsTheTag(d, op, c)
  {
    var d' := After(d, op, s, c);
    if !op.OntoItself() && RecordsTheTag(d, op, c) {
      forall at ensures Agrees(d', at) {
        assert Agrees(d, at);
        if Touches(op, at) {
          FinishedAgreesIff(d, op, s, c, at);
        } else {
          UntouchedStays(d, op, s, c, at);
        }
      }
    } else {
      FinishedAgreesIff(d, op, s, c, op.Target().value);
    }
  }

  /** Part of the way, the source's record outlives its object, or the copy lacks a record of its own. */
  lemma PartWayDisagrees(d: Disk, op: Op, s: Setting, c: Course)
    requires Possible(d, op, s, c) && 0 < c.reached < op.Length() && forall at :: Agrees(d, at)
    ensures (forall at :: Agrees(After(d, op, s, c), at))
      <==> c.reached == 1 && op.Target().Some? && LooksTheSame(d, op, c.tag)
  {
    var d', src := After(d, op, s, c), op.Source();
    assert Agrees(d, src);
    if op.Remove? {
      assert !Agrees(d', src);
    } else {
      var t := op.Target().value;
      assert Agrees(d, t);
      if c.reached == 2 {
        assert !Agrees(d', src);
      } else if LooksTheSame(d, op, c.tag) {
        forall at ensures Agrees(d', at) {
          assert Agrees(d, at);
        }
      } else {
        assert !Agrees(d', t);
      }
    }
  }
}
