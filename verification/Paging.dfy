/**
 * Paging through a bucket: following tokens from the start visits every live
 * row once, and the pages put together are the one listing an unbounded fold
 * would give.
 */
module Paging {
  import opened Base
  import opened Text
  import opened Keys
  import opened Like
  import opened Listing

  // ---- The bounded query ----

  /** A bucket's rows in `ORDER BY object_key` order; (bucket, key) is unique. */
  ghost predicate Sorted(rows: seq<Record>) {
    forall i, j :: 0 <= i < j < |rows| ==> Less(rows[i].key, rows[j].key)
  }

  /** The WHERE clause of ListPrefix. */
  predicate Where(rec: Record, prefix: string, after: string) {
    && IsLike(rec.key, LikePrefix(prefix))
    && Less(after, rec.key)
    && !IsLike(rec.key, TRASH + "%") && rec.key != TRASH
    && !IsLike(rec.key, VERSIONS + "%") && rec.key != VERSIONS
  }

  function Select(rows: seq<Record>, prefix: string, after: string): seq<Record> {
    if rows == [] then []
    else
      var last := rows[|rows| - 1];
      Select(rows[..|rows| - 1], prefix, after) + if Where(last, prefix, after) then [last] else []
  }

  function ListPrefix(rows: seq<Record>, prefix: string, after: string, limit: nat): (r: seq<Record>)
    ensures |r| <= limit
  {
    var s := Select(rows, prefix, after);
    if |s| <= limit then s else s[..limit]
  }

  predicate IsLive(rec: Record, prefix: string) {
    prefix <= rec.key && !Reserved(rec.key)
  }

  /** The query keeps exactly the rows beyond the token that the fold's own filters accept. */
  lemma WhereIsLiveBeyond(rec: Record, prefix: string, after: string)
    ensures Where(rec, prefix, after) <==> IsLive(rec, prefix) && Less(after, rec.key)
  {
    LikePrefixMatchesPrefix(rec.key, prefix);
    PlainPattern(rec.key, TRASH);
    PlainPattern(rec.key, VERSIONS);
  }

  lemma PlainPattern(key: string, plain: string)
    requires '\\' !in plain && '%' !in plain && '_' !in plain
    ensures IsLike(key, plain + "%") <==> plain <= key
  {
    PlainEscape(plain);
    LikePrefixMatchesPrefix(key, plain);
  }

  lemma {:induction false} PlainEscape(s: string)
    requires '\\' !in s && '%' !in s && '_' !in s
    ensures Escape(s) == s
  {
    if s != "" {
      assert s[0] in s && forall c :: c in s[1..] ==> c in s;
      assert s[0] !in "\\%_";
      PlainEscape(s[1..]);
      assert s == [s[0]] + s[1..];
    }
  }

  function ClampKeys(maxKeys: int): int {
    if maxKeys < 1 then 1 else if maxKeys > MAX_LIST_KEYS then MAX_LIST_KEYS else maxKeys
  }

  /** One page of a bucket. */
  function FoldedPage(rows: seq<Record>, prefix: string, after: string, maxKeys: int): Page {
    var recs := ListPrefix(rows, prefix, after, SCAN_CAP);
    PageOf(prefix, ClampKeys(maxKeys), recs, |recs| == SCAN_CAP)
  }

  method Folded(rows: seq<Record>, prefix: string, after: string, maxKeys: int) returns (page: Page)
    ensures page == FoldedPage(rows, prefix, after, maxKeys)
    ensures |page.items| + |page.prefixes| <= 1000
    ensures |page.items| + |page.prefixes| <= if maxKeys >= 1 then maxKeys else 1
    ensures Sorted(rows) && page.truncated ==>
      && page.token.Some?
      && (IsFull(page, maxKeys) || |Select(rows, prefix, page.token.value)| + 2000 == |Select(rows, prefix, after)|)
  {
    var recs := ListPrefix(rows, prefix, after, SCAN_CAP);
    page := FoldList(prefix, ClampKeys(maxKeys), recs, |recs| == SCAN_CAP);
    PagesAreFull(rows, prefix, after, maxKeys);
  }

  /** The page has as many lines as asked for, at least one and at most a thousand. */
  predicate IsFull(page: Page, maxKeys: int) {
    var n := |page.items| + |page.prefixes|;
    n == 1000 || (n < 1000 && (n == maxKeys || (n == 1 && maxKeys < 1)))
  }

  lemma {:induction false} LinesAreCounted(es: seq<Entry>)
    ensures |Items(es)| + |Prefixes(es)| == |es|
  {
    if es != [] {
      LinesAreCounted(es[..|es| - 1]);
    }
  }

  /** No page is longer than asked for, and one that is cut short is so because the query was cut at 2000 rows. */
  lemma {:induction false} PagesAreFull(rows: seq<Record>, prefix: string, after: string, maxKeys: int)
    ensures var page := FoldedPage(rows, prefix, after, maxKeys);
      && |page.items| + |page.prefixes| <= 1000
      && |page.items| + |page.prefixes| <= (if maxKeys >= 1 then maxKeys else 1)
      && (page.truncated ==> IsFull(page, maxKeys) || Consumed(rows, prefix, after, maxKeys) == 2000)
      && (page.truncated && Sorted(rows) ==>
            && page.token.Some?
            && (IsFull(page, maxKeys) || |Select(rows, prefix, page.token.value)| + 2000 == |Select(rows, prefix, after)|))
  {
    var (s, c) := (Select(rows, prefix, after), Consumed(rows, prefix, after, maxKeys));
    var recs := ListPrefix(rows, prefix, after, SCAN_CAP);
    PageShowsConsumed(rows, prefix, after, maxKeys);
    LinesAreCounted(Listed(prefix, s[..c]));
    CutFills(prefix, Room(ClampKeys(maxKeys)), recs, s, c);
    if Sorted(rows) {
      PageConsumes(rows, prefix, after, maxKeys);
    }
  }

  /** The cut leaves no line free that another row would take. */
  lemma CutFills(prefix: string, room: nat, recs: seq<Record>, s: seq<Record>, c: nat)
    requires |recs| <= |s| && recs == s[..|recs|] && c == Cut(prefix, room, recs, 0)
    ensures |Listed(prefix, s[..c])| <= room && (c < |recs| ==> |Listed(prefix, s[..c])| == room)
  {
    CutStops(prefix, room, recs, 0);
    assert recs[..c] == s[..c];
    if c < |recs| {
      NextRowExtends(prefix, recs, c);
    }
  }

  // ---- Selections ----

  lemma {:induction false} SelectionIsOrdered(rows: seq<Record>, prefix: string, after: string)
    requires Sorted(rows)
    ensures Sorted(Select(rows, prefix, after))
    ensures forall r :: r in Select(rows, prefix, after) <==> r in rows && IsLive(r, prefix) && Less(after, r.key)
  {
    if rows != [] {
      var (front, last) := (rows[..|rows| - 1], rows[|rows| - 1]);
      SelectionIsOrdered(front, prefix, after);
      WhereIsLiveBeyond(last, prefix, after);
      assert rows == front + [last];
      var s := Select(front, prefix, after);
      forall i | 0 <= i < |s| ensures Less(s[i].key, last.key) {
        assert s[i] in front;
      }
    }
  }

  /** Resuming after the c-th selected row selects exactly the rest. */
  lemma ResumeSelectsTheRest(rows: seq<Record>, prefix: string, after: string, c: nat)
    requires Sorted(rows) && 0 < c <= |Select(rows, prefix, after)|
    ensures Select(rows, prefix, Select(rows, prefix, after)[c - 1].key) == Select(rows, prefix, after)[c..]
  {
    var s := Select(rows, prefix, after);
    var rest := Select(rows, prefix, s[c - 1].key);
    SelectionIsOrdered(rows, prefix, after);
    SelectionIsOrdered(rows, prefix, s[c - 1].key);
    forall r ensures r in rest <==> r in s[c..] {
      ResumedRow(rows, s, rest, prefix, after, c, r);
    }
    SameElementsSameOrder(rest, s[c..]);
  }

  lemma ResumedRow(rows: seq<Record>, s: seq<Record>, rest: seq<Record>, prefix: string, after: string, c: nat,
        r: Record)
    requires Sorted(s) && 0 < c <= |s|
    requires forall x :: x in s <==> x in rows && IsLive(x, prefix) && Less(after, x.key)
    requires forall x :: x in rest <==> x in rows && IsLive(x, prefix) && Less(s[c - 1].key, x.key)
    ensures r in rest <==> r in s[c..]
  {
    assert s[c - 1] in s;
    if r in rest {
      LessIsTransitive(after, s[c - 1].key, r.key);
      var i :| 0 <= i < |s| && s[i] == r;
      LessIsTotal(s[c - 1].key, r.key);
      assert i >= c;
      assert s[c..][i - c] == r;
    }
    if r in s[c..] {
      var i :| 0 <= i < |s[c..]| && s[c..][i] == r;
      assert s[c + i] == r;
    }
  }

  /** Ordered sequences with the same rows are the same. */
  lemma {:induction false} SameElementsSameOrder(a: seq<Record>, b: seq<Record>)
    requires Sorted(a) && Sorted(b) && forall r :: r in a <==> r in b
    ensures a == b
  {
    assert a != [] ==> a[0] in b;
    assert b != [] ==> b[0] in a;
    if a != [] {
      SameHead(a, b);
      SameHead(b, a);
      LessIsTotal(a[0].key, b[0].key);
      assert a[0] == b[0];
      forall r ensures r in a[1..] <==> r in b[1..] {
        TailLosesHead(a, r);
        TailLosesHead(b, r);
      }
      SameElementsSameOrder(a[1..], b[1..]);
      assert a == [a[0]] + a[1..] && b == [b[0]] + b[1..];
    }
  }

  lemma SameHead(a: seq<Record>, b: seq<Record>)
    requires Sorted(a) && Sorted(b) && a != [] && b != [] && forall r :: r in a <==> r in b
    ensures a[0] == b[0] || Less(b[0].key, a[0].key)
  {
    assert a[0] in a;
    var i :| 0 <= i < |b| && b[i] == a[0];
  }

  lemma TailLosesHead(a: seq<Record>, r: Record)
    requires Sorted(a) && a != []
    ensures r in a[1..] <==> r in a && r != a[0]
  {
    LessIsTotal(a[0].key, a[0].key);
    if r in a && r != a[0] {
      var i :| 0 <= i < |a| && a[i] == r;
      assert a[1..][i - 1] == r;
    }
    if r in a[1..] {
      var i :| 0 <= i < |a[1..]| && a[1..][i] == r;
      assert a[i + 1] == r && Less(a[0].key, a[i + 1].key);
    }
  }

  // ---- Following tokens ----

  /** How many of the selected rows one page consumes. */
  function Consumed(rows: seq<Record>, prefix: string, after: string, maxKeys: int): nat {
    Cut(prefix, Room(ClampKeys(maxKeys)), ListPrefix(rows, prefix, after, SCAN_CAP), 0)
  }

  /** What one call shows is the listing of the rows it consumes. */
  lemma {:induction false} PageShowsConsumed(rows: seq<Record>, prefix: string, after: string, maxKeys: int)
    ensures var (s, c) := (Select(rows, prefix, after), Consumed(rows, prefix, after, maxKeys));
      var page := FoldedPage(rows, prefix, after, maxKeys);
      && c <= |s|
      && page.items == Items(Listed(prefix, s[..c])) && page.prefixes == Prefixes(Listed(prefix, s[..c]))
      && page.truncated == (c < |ListPrefix(rows, prefix, after, SCAN_CAP)| || |s| >= SCAN_CAP)
      && page.token == if page.truncated && c > 0 && s[c - 1].key != "" then Some(s[c - 1].key) else None
  {
    var (s, c) := (Select(rows, prefix, after), Consumed(rows, prefix, after, maxKeys));
    var recs := ListPrefix(rows, prefix, after, SCAN_CAP);
    assert recs == s[..|recs|] && recs[..c] == s[..c];
  }

  /** It stops at the scan cap or where one more row would start a new line. */
  lemma {:induction false} PageStops(rows: seq<Record>, prefix: string, after: string, maxKeys: int)
    ensures var (s, c) := (Select(rows, prefix, after), Consumed(rows, prefix, after, maxKeys));
      && (s != [] ==> c > 0)
      && (c < |s| ==> c == SCAN_CAP || |Listed(prefix, s[..c + 1])| > |Listed(prefix, s[..c])|)
  {
    var (s, recs) := (Select(rows, prefix, after), ListPrefix(rows, prefix, after, SCAN_CAP));
    assert recs == s[..|recs|];
    CutStopsWithin(prefix, Room(ClampKeys(maxKeys)), recs, s, Cut(prefix, Room(ClampKeys(maxKeys)), recs, 0));
  }

  lemma CutStopsWithin(prefix: string, room: nat, recs: seq<Record>, s: seq<Record>, c: nat)
    requires room >= 1 && |recs| <= |s| && recs == s[..|recs|] && c == Cut(prefix, room, recs, 0)
    ensures recs != [] ==> c > 0
    ensures c < |recs| ==> |Listed(prefix, s[..c + 1])| > |Listed(prefix, s[..c])|
  {
    CutStops(prefix, room, recs, 0);
    assert recs[..c] == s[..c];
    if c < |recs| {
      assert recs[..c + 1] == s[..c + 1];
    }
    if recs != [] {
      OneRowFits(prefix, room, recs);
    }
  }

  /** It hands back a token exactly when rows may remain, and the token selects exactly the rest. */
  lemma {:induction false} PageConsumes(rows: seq<Record>, prefix: string, after: string, maxKeys: int)
    requires Sorted(rows)
    ensures var (s, c) := (Select(rows, prefix, after), Consumed(rows, prefix, after, maxKeys));
      var page := FoldedPage(rows, prefix, after, maxKeys);
      && c <= |s|
      && (page.token.Some? <==> page.truncated)
      && (page.token.None? ==> c == |s|)
      && (page.token.Some? ==> c > 0 && page.token == Some(s[c - 1].key) && Select(rows, prefix, s[c - 1].key) == s[c..])
  {
    var (s, c) := (Select(rows, prefix, after), Consumed(rows, prefix, after, maxKeys));
    PageShowsConsumed(rows, prefix, after, maxKeys);
    PageStops(rows, prefix, after, maxKeys);
    if c > 0 {
      SelectionIsOrdered(rows, prefix, after);
      assert s[c - 1] in s && s[c - 1].key != "";
      ResumeSelectsTheRest(rows, prefix, after, c);
    }
  }

  lemma {:induction false} CutStops(prefix: string, room: nat, recs: seq<Record>, c: nat)
    requires c <= |recs| && |Listed(prefix, recs[..c])| <= room
    ensures var d := Cut(prefix, room, recs, c);
      |Listed(prefix, recs[..d])| <= room && (d < |recs| ==> |Listed(prefix, recs[..d + 1])| > room)
    decreases |recs| - c
  {
    if c < |recs| && |Listed(prefix, recs[..c + 1])| <= room {
      CutStops(prefix, room, recs, c + 1);
    }
  }

  lemma OneRowFits(prefix: string, room: nat, recs: seq<Record>)
    requires recs != [] && room >= 1
    ensures Cut(prefix, room, recs, 0) > 0
  {
    NextRowExtends(prefix, recs, 0);
    assert recs[..0] == [];
  }

  /** Every page, following tokens from `after` until none is returned. */
  function Pages(rows: seq<Record>, prefix: string, after: string, maxKeys: int): (ps: seq<Page>)
    requires Sorted(rows)
    ensures ps != []
    decreases |Select(rows, prefix, after)|
  {
    var page := FoldedPage(rows, prefix, after, maxKeys);
    if page.token.None? then [page]
    else
      PageConsumes(rows, prefix, after, maxKeys);
      [page] + Pages(rows, prefix, page.token.value, maxKeys)
  }

  function AllItems(ps: seq<Page>): seq<Record> {
    if ps == [] then [] else ps[0].items + AllItems(ps[1..])
  }

  function AllPrefixes(ps: seq<Page>): seq<string> {
    if ps == [] then [] else ps[0].prefixes + AllPrefixes(ps[1..])
  }

  // ---- The pages together are one listing ----

  lemma {:induction false} EntriesJoin(prefix: string, a: seq<Record>, b: seq<Record>)
    ensures Entries(prefix, a + b) == Entries(prefix, a) + Entries(prefix, b)
  {
    if b == [] {
      assert a + b == a;
    } else {
      var n := |b| - 1;
      EntriesJoin(prefix, a, b[..n]);
      assert (a + b)[..|a + b| - 1] == a + b[..n] && (a + b)[|a + b| - 1] == b[n];
    }
  }

  lemma {:induction false} LinesJoin(a: seq<Entry>, b: seq<Entry>)
    ensures Items(a + b) == Items(a) + Items(b)
    ensures Prefixes(a + b) == Prefixes(a) + Prefixes(b)
  {
    if b == [] {
      assert a + b == a;
    } else {
      var n := |b| - 1;
      LinesJoin(a, b[..n]);
      assert (a + b)[..|a + b| - 1] == a + b[..n] && (a + b)[|a + b| - 1] == b[n];
    }
  }

  lemma {:induction false} SquashKeepsItems(es: seq<Entry>)
    ensures Items(Squash(es)) == Items(es)
  {
    if es != [] {
      var n := |es| - 1;
      SquashKeepsItems(es[..n]);
      LinesSplit(Squash(es[..n]), es[n]);
    }
  }

  /** Adjacent equal strings shown once. */
  function Dedup(ss: seq<string>): (r: seq<string>)
    ensures ss != [] ==> r != [] && r[|r| - 1] == ss[|ss| - 1]
    ensures ss == [] ==> r == []
  {
    if ss == [] then []
    else
      var (d, s) := (Dedup(ss[..|ss| - 1]), ss[|ss| - 1]);
      if d != [] && d[|d| - 1] == s then d else d + [s]
  }

  lemma {:induction false} DedupJoin(a: seq<string>, b: seq<string>)
    ensures Dedup(Dedup(a) + b) == Dedup(a + b)
  {
    if b == [] {
      assert a + b == a && Dedup(a) + b == Dedup(a);
      DedupTwice(a);
    } else {
      var (front, x) := (b[..|b| - 1], b[|b| - 1]);
      DedupJoin(a, front);
      OneMoreOnTheLeft(a, b, front, x);
    }
  }

  lemma {:induction false} OneMoreOnTheLeft(a: seq<string>, b: seq<string>, front: seq<string>, x: string)
    requires b == front + [x] && Dedup(Dedup(a) + front) == Dedup(a + front)
    ensures Dedup(Dedup(a) + b) == Dedup(a + b)
  {
    assert a + b == a + front + [x] && Dedup(a) + b == Dedup(a) + front + [x];
    DedupLast(a + front, x);
    DedupLast(Dedup(a) + front, x);
  }

  lemma {:induction false} DedupTwice(a: seq<string>)
    ensures Dedup(Dedup(a)) == Dedup(a)
  {
    if a != [] {
      var d := Dedup(a[..|a| - 1]);
      DedupTwice(a[..|a| - 1]);
      if Dedup(a) != d {
        assert Dedup(a)[..|d|] == d;
      }
    }
  }

  lemma {:induction false} DedupJoinRight(a: seq<string>, b: seq<string>)
    ensures Dedup(a + Dedup(b)) == Dedup(a + b)
  {
    if b != [] {
      var (front, x) := (b[..|b| - 1], b[|b| - 1]);
      DedupJoinRight(a, front);
      OneMoreOnTheRight(a, b, front, x);
    }
  }

  lemma {:induction false} OneMoreOnTheRight(a: seq<string>, b: seq<string>, front: seq<string>, x: string)
    requires b == front + [x] && Dedup(a + Dedup(front)) == Dedup(a + front)
    ensures Dedup(a + Dedup(b)) == Dedup(a + b)
  {
    assert a + b == a + front + [x];
    DedupLast(front, x);
    DedupLast(a + front, x);
    DedupMeets(a, Dedup(front), x);
  }

  /** One more string after a deduplicated sequence. */
  function Follow(d: seq<string>, x: string): seq<string> {
    if d != [] && d[|d| - 1] == x then d else d + [x]
  }

  lemma {:induction false} DedupMeets(a: seq<string>, d: seq<string>, x: string)
    ensures Dedup(a + Follow(d, x)) == Follow(Dedup(a + d), x)
  {
    if d != [] && d[|d| - 1] == x {
      assert (a + d)[|a + d| - 1] == x;
    } else {
      DedupLast(a + d, x);
      assert a + (d + [x]) == a + d + [x];
    }
  }

  lemma {:induction false} DedupLast(a: seq<string>, x: string)
    ensures Dedup(a + [x]) == Follow(Dedup(a), x)
  {
    assert (a + [x])[..|a|] == a;
  }

  lemma {:induction false} DedupKeepsElements(a: seq<string>)
    ensures forall s :: s in Dedup(a) <==> s in a
  {
    if a != [] {
      DedupKeepsElements(a[..|a| - 1]);
      assert a == a[..|a| - 1] + [a[|a| - 1]];
    }
  }

  // ---- Order and contiguity of common prefixes ----

  /** The first level below prefix that key falls under. */
  predicate Under(prefix: string, p: string, key: string) {
    EntryOf(prefix, Record(key, 0, None)) == Some(Prefix(p))
  }

  lemma UnderIgnoresMeta(prefix: string, p: string, rec: Record)
    ensures EntryOf(prefix, rec) == Some(Prefix(p)) <==> Under(prefix, p, rec.key)
  {
  }

  /** Being under p is having p as a prefix, for live keys. */
  lemma UnderIsPrefix(prefix: string, p: string, key: string, other: string)
    requires Under(prefix, p, key) && prefix <= other && !Reserved(other)
    ensures p <= key
    ensures Under(prefix, p, other) <==> p <= other
  {
    LevelOf(prefix, p, key);
    if p <= other {
      var i := |p| - |prefix| - 1;
      assert other[|prefix|..][..i] == key[|prefix|..][..i];
      FirstSlash(other[|prefix|..], i);
      assert prefix + other[|prefix|..][..i + 1] == other[..|p|] == p;
    }
    if Under(prefix, p, other) {
      LevelOf(prefix, p, other);
    }
  }

  lemma LevelOf(prefix: string, p: string, key: string)
    requires Under(prefix, p, key)
    ensures prefix <= key && p <= key && |p| > |prefix| && p[|p| - 1] == '/'
    ensures '/' !in key[|prefix|..][..|p| - |prefix| - 1]
  {
    var (rest, i) := (key[|prefix|..], IndexOf(key[|prefix|..], '/'));
    assert key == prefix + rest && p == prefix + rest[..i + 1];
    assert rest == rest[..i + 1] + rest[i + 1..];
    assert |p| - |prefix| - 1 == i;
  }

  lemma FirstSlash(s: string, i: nat)
    requires i < |s| && s[i] == '/' && '/' !in s[..i]
    ensures IndexOf(s, '/') == i
  {
    var j := IndexOf(s, '/');
    assert forall k :: 0 <= k < i ==> s[k] == s[..i][k];
    assert forall k :: 0 <= k < j ==> s[k] == s[..j][k];
    assert s[i] in s;
  }

  /** Live keys between two keys under p are under p. */
  lemma UnderIsContiguous(prefix: string, p: string, a: string, b: string, c: string)
    requires Under(prefix, p, a) && Under(prefix, p, c) && AtMost(a, b) && AtMost(b, c)
    requires prefix <= b && !Reserved(b)
    ensures Under(prefix, p, b)
  {
    UnderIsPrefix(prefix, p, a, b);
    UnderIsPrefix(prefix, p, c, b);
    PrefixIsContiguous(p, a, b, c);
  }

  /** Keys in order fall under common prefixes in order. */
  lemma PrefixesAscend(prefix: string, p: string, q: string, a: string, b: string)
    requires Under(prefix, p, a) && Under(prefix, q, b) && Less(a, b)
    ensures p == q || Less(p, q)
  {
    LevelOf(prefix, p, a);
    LevelOf(prefix, q, b);
    UnderIsPrefix(prefix, p, a, b);
    UnderIsPrefix(prefix, q, b, a);
    if p != q {
      assert p <= q ==> p <= b;
      assert q <= p ==> q <= a;
      PrefixFreeKeepsOrder(p, q, a, b);
    }
  }

  lemma {:induction false} PrefixFreeKeepsOrder(p: string, q: string, a: string, b: string)
    requires p <= a && q <= b && Less(a, b) && !(p <= q) && !(q <= p)
    ensures Less(p, q)
  {
    assert p[0] == a[0] && q[0] == b[0];
    if p[0] == q[0] {
      assert p[1..] <= a[1..] && q[1..] <= b[1..];
      assert p[1..] <= q[1..] ==> p <= q;
      assert q[1..] <= p[1..] ==> q <= p;
      PrefixFreeKeepsOrder(p[1..], q[1..], a[1..], b[1..]);
    }
  }

  // ---- The listing of ordered live rows ----

  ghost predicate AllLive(rows: seq<Record>, prefix: string) {
    forall i :: 0 <= i < |rows| ==> IsLive(rows[i], prefix)
  }

  lemma EntriesLast(prefix: string, front: seq<Record>, last: Record)
    ensures Entries(prefix, front + [last]) ==
      Entries(prefix, front) + if EntryOf(prefix, last).Some? then [EntryOf(prefix, last).value] else []
  {
    assert (front + [last])[..|front|] == front;
  }

  lemma {:induction false} PrefixesAreGroups(prefix: string, rows: seq<Record>, p: string)
    ensures p in Prefixes(Entries(prefix, rows)) <==> exists r :: r in rows && Under(prefix, p, r.key)
  {
    if rows != [] {
      var (front, last) := (rows[..|rows| - 1], rows[|rows| - 1]);
      assert rows == front + [last];
      PrefixesAreGroups(prefix, front, p);
      LastPrefixGroup(prefix, front, last, p);
    }
  }

  lemma LastPrefixGroup(prefix: string, front: seq<Record>, last: Record, p: string)
    ensures p in Prefixes(Entries(prefix, front + [last])) <==>
      p in Prefixes(Entries(prefix, front)) || Under(prefix, p, last.key)
  {
    var (es, e) := (Entries(prefix, front), EntryOf(prefix, last));
    EntriesLast(prefix, front, last);
    UnderIgnoresMeta(prefix, p, last);
    if e.Some? {
      LinesSplit(es, e.value);
    } else {
      assert es + [] == es;
    }
  }

  /** In order, once a common prefix is left it does not come back. */
  lemma GroupIsStillOpen(prefix: string, front: seq<Record>, last: Record, p: string)
    requires Sorted(front) && AllLive(front, prefix) && (forall r :: r in front ==> Less(r.key, last.key))
    requires p in Prefixes(Entries(prefix, front)) && Under(prefix, p, last.key)
    ensures LastLine(Listed(prefix, front)) == Some(Prefix(p))
  {
    PrefixesAreGroups(prefix, front, p);
    var r :| r in front && Under(prefix, p, r.key);
    LastRowIsUnder(prefix, front, r, last.key, p);
    LastRowIsLastLine(prefix, front);
    UnderIgnoresMeta(prefix, p, front[|front| - 1]);
  }

  function LastLine(es: seq<Entry>): Option<Entry> {
    if es == [] then None else Some(es[|es| - 1])
  }

  lemma LastRowIsUnder(prefix: string, front: seq<Record>, r: Record, last: string, p: string)
    requires Sorted(front) && AllLive(front, prefix) && r in front && (forall r :: r in front ==> Less(r.key, last))
    requires Under(prefix, p, r.key) && Under(prefix, p, last)
    ensures Under(prefix, p, front[|front| - 1].key)
  {
    var n := |front| - 1;
    var i :| 0 <= i < |front| && front[i] == r;
    assert AtMost(front[i].key, front[n].key) && front[n] in front;
    UnderIsContiguous(prefix, p, front[i].key, front[n].key, last);
  }

  lemma LastRowIsLastLine(prefix: string, rows: seq<Record>)
    requires rows != [] && EntryOf(prefix, rows[|rows| - 1]).Some?
    ensures LastLine(Listed(prefix, rows)) == EntryOf(prefix, rows[|rows| - 1])
  {
  }

  /** So the prefixes of a listing are all prefixes deduplicated, in strict order. */
  lemma {:induction false} ListingOfLiveRows(prefix: string, rows: seq<Record>)
    requires Sorted(rows) && AllLive(rows, prefix)
    ensures InStep(Entries(prefix, rows), Listed(prefix, rows))
  {
    if rows != [] {
      var (front, last) := (rows[..|rows| - 1], rows[|rows| - 1]);
      ListingOfLiveRows(prefix, front);
      assert rows == front + [last];
      ListingOfOneMore(prefix, front, last);
    }
  }

  lemma ListingOfOneMore(prefix: string, front: seq<Record>, last: Record)
    requires Sorted(front + [last]) && AllLive(front, prefix)
    requires InStep(Entries(prefix, front), Listed(prefix, front))
    ensures InStep(Entries(prefix, front + [last]), Listed(prefix, front + [last]))
  {
    var (e, es, shown) := (EntryOf(prefix, last), Entries(prefix, front), Listed(prefix, front));
    BeforeLast(front, last);
    EntriesLast(prefix, front, last);
    ListedLast(prefix, front, last);
    if e.None? {
      assert es + [] == es;
    } else {
      if e.value.Prefix? {
        NextPrefix(prefix, front, last, e.value.p);
      }
      OneMoreLine(es, shown, e.value);
    }
  }

  lemma BeforeLast(front: seq<Record>, last: Record)
    requires Sorted(front + [last])
    ensures Sorted(front) && forall r :: r in front ==> Less(r.key, last.key)
  {
    var rows := front + [last];
    assert forall i :: 0 <= i < |front| ==> rows[i] == front[i];
    forall r | r in front ensures Less(r.key, last.key) {
      var i :| 0 <= i < |front| && front[i] == r;
      assert Less(rows[i].key, rows[|front|].key);
    }
  }

  lemma ListedLast(prefix: string, front: seq<Record>, last: Record)
    ensures Listed(prefix, front + [last]) == Extend(Listed(prefix, front), EntryOf(prefix, last))
  {
    var rows := front + [last];
    NextRowExtends(prefix, rows, |front|);
    assert rows[..|front| + 1] == rows && rows[..|front|] == front;
  }

  /** The lines shown list the prefixes of the entries once each, in order. */
  ghost predicate InStep(es: seq<Entry>, shown: seq<Entry>) {
    Prefixes(shown) == Dedup(Prefixes(es)) && Ascending(Prefixes(shown))
  }

  lemma {:induction false} OneMoreLine(es: seq<Entry>, shown: seq<Entry>, e: Entry)
    requires InStep(es, shown)
    requires e.Prefix? ==> var d := Dedup(Prefixes(es));
      if LastLine(shown) == Some(e) then d != [] && d[|d| - 1] == e.p else forall q :: q in d ==> Less(q, e.p)
    ensures InStep(es + [e], Extend(shown, Some(e)))
  {
    if e.Prefix? {
      OneMorePrefix(es, shown, e.p);
    } else {
      LinesSplit(es, e);
      LinesSplit(shown, e);
      assert Prefixes(es) + [] == Prefixes(es) && Prefixes(shown) + [] == Prefixes(shown);
    }
  }

  lemma {:induction false} OneMorePrefix(es: seq<Entry>, shown: seq<Entry>, p: string)
    requires InStep(es, shown)
    requires var d := Dedup(Prefixes(es));
      if LastLine(shown) == Some(Prefix(p)) then d != [] && d[|d| - 1] == p else forall q :: q in d ==> Less(q, p)
    ensures InStep(es + [Prefix(p)], Extend(shown, Some(Prefix(p))))
  {
    LinesSplit(es, Prefix(p));
    LinesSplit(shown, Prefix(p));
    DedupLast(Prefixes(es), p);
    LessIsTotal(p, p);
  }

  /** A new common prefix is beyond all earlier ones; an open one is the last line shown. */
  lemma NextPrefix(prefix: string, front: seq<Record>, last: Record, p: string)
    requires Sorted(front) && AllLive(front, prefix) && EntryOf(prefix, last) == Some(Prefix(p))
    requires forall r :: r in front ==> Less(r.key, last.key)
    ensures var (d, shown) := (Dedup(Prefixes(Entries(prefix, front))), Listed(prefix, front));
      if LastLine(shown) == Some(Prefix(p)) then d != [] && d[|d| - 1] == p else forall q :: q in d ==> Less(q, p)
  {
    var (es, shown) := (Entries(prefix, front), Listed(prefix, front));
    UnderIgnoresMeta(prefix, p, last);
    DedupKeepsElements(Prefixes(es));
    if LastLine(shown) == Some(Prefix(p)) {
      assert es[|es| - 1] == Prefix(p);
    } else {
      if p in Prefixes(es) {
        GroupIsStillOpen(prefix, front, last, p);
        assert false;
      }
      forall q | q in Prefixes(es) ensures Less(q, p) {
        PrefixesAreGroups(prefix, front, q);
        var r :| r in front && Under(prefix, q, r.key);
        PrefixesAscend(prefix, q, p, r.key, last.key);
      }
    }
  }

  // ---- The main results ----

  lemma {:induction false} EntriesSplit(prefix: string, s: seq<Record>, c: nat)
    requires c <= |s|
    ensures Entries(prefix, s) == Entries(prefix, s[..c]) + Entries(prefix, s[c..])
  {
    assert s == s[..c] + s[c..];
    EntriesJoin(prefix, s[..c], s[c..]);
  }

  lemma {:induction false} PagesAreOneListing(rows: seq<Record>, prefix: string, after: string, maxKeys: int)
    requires Sorted(rows)
    ensures var (ps, es) := (Pages(rows, prefix, after, maxKeys), Entries(prefix, Select(rows, prefix, after)));
      AllItems(ps) == Items(es) && Dedup(AllPrefixes(ps)) == Dedup(Prefixes(es))
    decreases |Select(rows, prefix, after)|
  {
    var (s, c) := (Select(rows, prefix, after), Consumed(rows, prefix, after, maxKeys));
    var page := FoldedPage(rows, prefix, after, maxKeys);
    PageConsumes(rows, prefix, after, maxKeys);
    PageIsTrue(rows, prefix, after, maxKeys);
    if page.token.None? {
      assert s[..c] == s;
      OnePage(page);
      DedupTwice(Prefixes(Entries(prefix, s)));
    } else {
      var rest := Pages(rows, prefix, page.token.value, maxKeys);
      PagesAreOneListing(rows, prefix, page.token.value, maxKeys);
      EntriesSplit(prefix, s, c);
      FirstPage(page, rest, Entries(prefix, s[..c]), Entries(prefix, s[c..]));
    }
  }

  /** A page shows the items of the rows it consumes, and their prefixes once each. */
  lemma {:induction false} PageIsTrue(rows: seq<Record>, prefix: string, after: string, maxKeys: int)
    requires Sorted(rows)
    ensures var (s, c) := (Select(rows, prefix, after), Consumed(rows, prefix, after, maxKeys));
      var page := FoldedPage(rows, prefix, after, maxKeys);
      && c <= |s| && page.items == Items(Entries(prefix, s[..c]))
      && page.prefixes == Dedup(Prefixes(Entries(prefix, s[..c])))
  {
    var (s, c) := (Select(rows, prefix, after), Consumed(rows, prefix, after, maxKeys));
    PageShowsConsumed(rows, prefix, after, maxKeys);
    SelectionIsOrdered(rows, prefix, after);
    forall i | 0 <= i < c ensures IsLive(s[..c][i], prefix) {
      assert s[i] in s;
    }
    ListingOfLiveRows(prefix, s[..c]);
    SquashKeepsItems(Entries(prefix, s[..c]));
  }

  lemma OnePage(page: Page)
    ensures AllItems([page]) == page.items && AllPrefixes([page]) == page.prefixes
  {
    assert [page][1..] == [];
  }

  lemma FirstPage(page: Page, rest: seq<Page>, es: seq<Entry>, es': seq<Entry>)
    requires page.items == Items(es) && page.prefixes == Dedup(Prefixes(es))
    requires AllItems(rest) == Items(es') && Dedup(AllPrefixes(rest)) == Dedup(Prefixes(es'))
    ensures AllItems([page] + rest) == Items(es + es')
    ensures Dedup(AllPrefixes([page] + rest)) == Dedup(Prefixes(es + es'))
  {
    assert ([page] + rest)[1..] == rest;
    LinesJoin(es, es');
    var (a, b) := (Prefixes(es), Prefixes(es'));
    DedupJoin(a, AllPrefixes(rest));
    DedupJoinRight(a, AllPrefixes(rest));
    DedupJoinRight(a, b);
  }

  /** Rows the query filters out show nothing in the fold either. */
  lemma {:induction false} SelectKeepsEntries(rows: seq<Record>, prefix: string)
    ensures Entries(prefix, Select(rows, prefix, "")) == Entries(prefix, rows)
  {
    if rows != [] {
      var (front, last) := (rows[..|rows| - 1], rows[|rows| - 1]);
      SelectKeepsEntries(front, prefix);
      WhereIsLiveBeyond(last, prefix, "");
      if Where(last, prefix, "") {
        EntriesLast(prefix, Select(front, prefix, ""), last);
      } else {
        assert EntryOf(prefix, last) == None;
        assert Select(front, prefix, "") + [] == Select(front, prefix, "");
        assert Entries(prefix, front) + [] == Entries(prefix, front);
      }
    }
  }

  /** Folding n rows shows at most n lines, so a page with room for all of them takes them all. */
  lemma {:induction false} ListedIsShort(prefix: string, rows: seq<Record>, c: nat)
    requires c <= |rows|
    ensures |Listed(prefix, rows[..c])| <= c
  {
    if c > 0 {
      ListedIsShort(prefix, rows, c - 1);
      NextRowExtends(prefix, rows, c - 1);
    }
  }

  /** The single, unbounded fold over every row of the bucket. */
  function Whole(rows: seq<Record>, prefix: string): Page {
    PageOf(prefix, |rows| + 1, rows, false)
  }

  lemma WholeIsEverything(rows: seq<Record>, prefix: string)
    ensures var es := Entries(prefix, rows);
      Whole(rows, prefix) == Page(Items(es), Prefixes(Squash(es)), None, false)
  {
    assert rows[..|rows|] == rows;
    ListedIsShort(prefix, rows, |rows|);
    CutIsLargest(prefix, |rows| + 1, rows, 0, |rows|);
    SquashKeepsItems(Entries(prefix, rows));
  }

  /**
   * Following tokens from the start gives exactly the unbounded fold: the items
   * concatenated are its items, in order and once each, and the prefixes
   * concatenated are its prefixes up to immediate repetition.
   */
  lemma PagingRefinesOneFold(rows: seq<Record>, prefix: string, maxKeys: int)
    requires Sorted(rows)
    ensures var (ps, whole) := (Pages(rows, prefix, "", maxKeys), Whole(rows, prefix));
      && AllItems(ps) == whole.items
      && Dedup(AllPrefixes(ps)) == whole.prefixes
      && (forall p :: p in AllPrefixes(ps) <==> p in whole.prefixes)
  {
    var (ps, s) := (Pages(rows, prefix, "", maxKeys), Select(rows, prefix, ""));
    PagesAreOneListing(rows, prefix, "", maxKeys);
    SelectKeepsEntries(rows, prefix);
    WholeIsEverything(rows, prefix);
    SelectionIsLive(rows, prefix, "");
    ListingOfLiveRows(prefix, s);
    DedupKeepsElements(AllPrefixes(ps));
  }

  lemma SelectionIsLive(rows: seq<Record>, prefix: string, after: string)
    requires Sorted(rows)
    ensures Sorted(Select(rows, prefix, after)) && AllLive(Select(rows, prefix, after), prefix)
  {
    SelectionIsOrdered(rows, prefix, after);
    var s := Select(rows, prefix, after);
    assert forall i :: 0 <= i < |s| ==> s[i] in s;
  }

  /** What the unbounded fold shows: the live rows directly under the prefix, and one prefix per group, all in order. */
  lemma WholeListing(rows: seq<Record>, prefix: string)
    requires Sorted(rows)
    ensures var whole := Whole(rows, prefix);
      && Sorted(whole.items)
      && (forall r :: r in whole.items <==>
           r in rows && IsLive(r, prefix) && r.key != prefix && '/' !in r.key[|prefix|..])
      && Ascending(whole.prefixes)
      && (forall p :: p in whole.prefixes <==> exists r :: r in rows && Under(prefix, p, r.key))
  {
    var s := Select(rows, prefix, "");
    WholeIsEverything(rows, prefix);
    SelectKeepsEntries(rows, prefix);
    SelectionIsLive(rows, prefix, "");
    ListingOfLiveRows(prefix, s);
    DedupKeepsElements(Prefixes(Entries(prefix, rows)));
    ItemsAreDirect(prefix, rows);
    forall p ensures p in Prefixes(Entries(prefix, rows)) <==> exists r :: r in rows && Under(prefix, p, r.key) {
      PrefixesAreGroups(prefix, rows, p);
    }
  }

  lemma {:induction false} ItemsAreDirect(prefix: string, rows: seq<Record>)
    requires Sorted(rows)
    ensures var items := Items(Entries(prefix, rows));
      && Sorted(items)
      && (forall r :: r in items <==> r in rows && IsLive(r, prefix) && r.key != prefix && '/' !in r.key[|prefix|..])
  {
    if rows != [] {
      var (front, last) := (rows[..|rows| - 1], rows[|rows| - 1]);
      assert rows == front + [last];
      BeforeLast(front, last);
      ItemsAreDirect(prefix, front);
      EntriesLast(prefix, front, last);
      var e := EntryOf(prefix, last);
      if e.Some? {
        LinesSplit(Entries(prefix, front), e.value);
      } else {
        assert Entries(prefix, front) + [] == Entries(prefix, front);
      }
      ItemOrNot(prefix, last);
      assert forall i :: 0 <= i < |Items(Entries(prefix, front))| ==> Items(Entries(prefix, front))[i] in front;
    }
  }

  lemma ItemOrNot(prefix: string, rec: Record)
    ensures EntryOf(prefix, rec) == Some(Item(rec)) <==>
      IsLive(rec, prefix) && rec.key != prefix && '/' !in rec.key[|prefix|..]
    ensures EntryOf(prefix, rec).Some? && EntryOf(prefix, rec).value.Item? ==> EntryOf(prefix, rec) == Some(Item(rec))
  {
    if prefix <= rec.key {
      var i := IndexOf(rec.key[|prefix|..], '/');
      assert i >= 0 ==> rec.key[|prefix|..][i] in rec.key[|prefix|..];
    }
  }
}
