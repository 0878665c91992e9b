/**
 * Where a common prefix shows on two pages: only where the scan cap cut the earlier page in the
 * middle of the prefix's group, and always there.
 */
module Repeats {
  import opened Base
  import opened Text
  import opened Listing
  import opened Paging

  /** The token page i starts from. */
  function Start(ps: seq<Page>, after: string, i: nat): string
    requires i < |ps|
  {
    if i == 0 then after else ps[i - 1].token.GetOr("")
  }

  lemma {:induction false} TailPages(rows: seq<Record>, prefix: string, after: string, maxKeys: int)
    requires Sorted(rows)
    ensures var ps := Pages(rows, prefix, after, maxKeys);
      && ps[0] == FoldedPage(rows, prefix, after, maxKeys)
      && (|ps| > 1 ==> ps[0].token.Some? && ps[1..] == Pages(rows, prefix, ps[0].token.value, maxKeys))
  {
  }

  /** From any page on, the pages are those of a listing that starts there. */
  lemma {:induction false} PagesFrom(rows: seq<Record>, prefix: string, after: string, maxKeys: int, ps: seq<Page>,
        i: nat)
    requires Sorted(rows) && ps == Pages(rows, prefix, after, maxKeys) && i < |ps|
    ensures ps[i..] == Pages(rows, prefix, Start(ps, after, i), maxKeys)
  {
    if i > 0 {
      PagesFrom(rows, prefix, after, maxKeys, ps, i - 1);
      TailPages(rows, prefix, Start(ps, after, i - 1), maxKeys);
      assert ps[i - 1..][1..] == ps[i..] && ps[i - 1..][0] == ps[i - 1];
    } else {
      assert ps[0..] == ps;
    }
  }

  /**
   * A prefix shows on two pages only when the earlier page was cut by the scan
   * cap in the middle of that prefix's group.
   */
  lemma {:induction false} PrefixRepeatsOnlyAtScanCap(rows: seq<Record>, prefix: string, after: string, maxKeys: int,
        ps: seq<Page>, i: nat, j: nat, p: string)
    requires Sorted(rows) && ps == Pages(rows, prefix, after, maxKeys) && i < j < |ps|
    requires p in ps[i].prefixes && p in ps[j].prefixes
    ensures Consumed(rows, prefix, Start(ps, after, i), maxKeys) == SCAN_CAP
    ensures ps[i].token.Some? && Under(prefix, p, ps[i].token.value)
  {
    PagesFrom(rows, prefix, after, maxKeys, ps, i);
    RepeatOnFirstOf(rows, prefix, Start(ps, after, i), maxKeys, ps, i, j, p);
  }

  lemma {:induction false} RepeatOnFirstOf(rows: seq<Record>, prefix: string, from: string, maxKeys: int,
        ps: seq<Page>, i: nat, j: nat, p: string)
    requires i < j < |ps| && Sorted(rows) && ps[i..] == Pages(rows, prefix, from, maxKeys)
    requires p in ps[i].prefixes && p in ps[j].prefixes
    ensures Consumed(rows, prefix, from, maxKeys) == SCAN_CAP
    ensures ps[i].token.Some? && Under(prefix, p, ps[i].token.value)
  {
    TailPages(rows, prefix, from, maxKeys);
    assert ps[i..][0] == ps[i] && ps[i..][1..][j - i - 1] == ps[j];
    RepeatOfFirstPage(rows, prefix, from, maxKeys, j - i - 1, p);
  }

  lemma {:induction false} RepeatOfFirstPage(rows: seq<Record>, prefix: string, after: string, maxKeys: int, j: nat,
        p: string)
    requires Sorted(rows) && FoldedPage(rows, prefix, after, maxKeys).token.Some?
    requires p in FoldedPage(rows, prefix, after, maxKeys).prefixes
    requires var rest := Pages(rows, prefix, FoldedPage(rows, prefix, after, maxKeys).token.value, maxKeys);
      j < |rest| && p in rest[j].prefixes
    ensures Consumed(rows, prefix, after, maxKeys) == SCAN_CAP
    ensures Under(prefix, p, FoldedPage(rows, prefix, after, maxKeys).token.value)
  {
    var (s, c) := (Select(rows, prefix, after), Consumed(rows, prefix, after, maxKeys));
    var t := FoldedPage(rows, prefix, after, maxKeys).token.value;
    PageConsumes(rows, prefix, after, maxKeys);
    PageIsTrue(rows, prefix, after, maxKeys);
    PageStops(rows, prefix, after, maxKeys);
    SelectionIsLive(rows, prefix, after);
    // One row under p was consumed, another is still to come.
    DedupKeepsElements(Prefixes(Entries(prefix, s[..c])));
    PrefixesAreGroups(prefix, s[..c], p);
    PageHoldsItsPrefixes(Pages(rows, prefix, t, maxKeys), j, p);
    PagesAreOneListing(rows, prefix, t, maxKeys);
    DedupKeepsElements(AllPrefixes(Pages(rows, prefix, t, maxKeys)));
    DedupKeepsElements(Prefixes(Entries(prefix, s[c..])));
    PrefixesAreGroups(prefix, s[c..], p);
    SplitGroup(prefix, s, c, p);
    // So the next row would not have started a new line.
    SameLine(prefix, s, c, p);
  }

  lemma {:induction false} PageHoldsItsPrefixes(ps: seq<Page>, j: nat, p: string)
    requires j < |ps| && p in ps[j].prefixes
    ensures p in AllPrefixes(ps)
  {
    if j > 0 {
      PageHoldsItsPrefixes(ps[1..], j - 1, p);
    }
  }

  lemma SplitGroup(prefix: string, s: seq<Record>, c: nat, p: string)
    requires Sorted(s) && AllLive(s, prefix) && 0 < c <= |s|
    requires exists r :: r in s[..c] && Under(prefix, p, r.key)
    requires exists r :: r in s[c..] && Under(prefix, p, r.key)
    ensures c < |s| && Under(prefix, p, s[c - 1].key) && Under(prefix, p, s[c].key)
  {
    var r :| r in s[..c] && Under(prefix, p, r.key);
    var r' :| r' in s[c..] && Under(prefix, p, r'.key);
    var i := InFront(s, c, r);
    var k := InBack(s, c, r');
    UnderBetween(prefix, s, i, c - 1, k, p);
    UnderBetween(prefix, s, i, c, k, p);
  }

  lemma InFront(s: seq<Record>, c: nat, r: Record) returns (i: nat)
    requires c <= |s| && r in s[..c]
    ensures i < c && s[i] == r
  {
    i :| 0 <= i < |s[..c]| && s[..c][i] == r;
  }

  lemma InBack(s: seq<Record>, c: nat, r: Record) returns (k: nat)
    requires c <= |s| && r in s[c..]
    ensures c <= k < |s| && s[k] == r
  {
    var j :| 0 <= j < |s[c..]| && s[c..][j] == r;
    k := c + j;
  }

  lemma UnderBetween(prefix: string, s: seq<Record>, i: nat, m: nat, k: nat, p: string)
    requires Sorted(s) && AllLive(s, prefix) && i <= m <= k < |s|
    requires Under(prefix, p, s[i].key) && Under(prefix, p, s[k].key)
    ensures Under(prefix, p, s[m].key)
  {
    assert AtMost(s[i].key, s[m].key) && AtMost(s[m].key, s[k].key) && IsLive(s[m], prefix);
    UnderIsContiguous(prefix, p, s[i].key, s[m].key, s[k].key);
  }

  lemma SameLine(prefix: string, s: seq<Record>, c: nat, p: string)
    requires 0 < c < |s| && Under(prefix, p, s[c - 1].key) && Under(prefix, p, s[c].key)
    ensures Listed(prefix, s[..c + 1]) == Listed(prefix, s[..c])
  {
    UnderIgnoresMeta(prefix, p, s[c - 1]);
    UnderIgnoresMeta(prefix, p, s[c]);
    LastRowIsLastLine(prefix, s[..c]);
    NextRowExtends(prefix, s, c);
  }

  // ---- The next page ----

  lemma {:induction false} PageHas(rows: seq<Record>, prefix: string, after: string, maxKeys: int, p: string)
    requires Sorted(rows)
    ensures var (s, c) := (Select(rows, prefix, after), Consumed(rows, prefix, after, maxKeys));
      && c <= |s| && (s != [] ==> c > 0)
      && (p in FoldedPage(rows, prefix, after, maxKeys).prefixes <==> exists r :: r in s[..c] && Under(prefix, p, r.key))
  {
    var (s, c) := (Select(rows, prefix, after), Consumed(rows, prefix, after, maxKeys));
    PageIsTrue(rows, prefix, after, maxKeys);
    PageStops(rows, prefix, after, maxKeys);
    DedupKeepsElements(Prefixes(Entries(prefix, s[..c])));
    PrefixesAreGroups(prefix, s[..c], p);
  }

  /** A row of the group is beyond the token. */
  ghost predicate IsToCome(rows: seq<Record>, prefix: string, token: string, p: string) {
    exists r :: r in rows && Less(token, r.key) && Under(prefix, p, r.key)
  }

  /**
   * Two pages in a row show the same prefix exactly when the scan cap cut the first in
   * the middle of the prefix's group.
   */
  lemma {:induction false} NextPageRepeatsIff(rows: seq<Record>, prefix: string, after: string, maxKeys: int, p: string)
    requires Sorted(rows) && FoldedPage(rows, prefix, after, maxKeys).token.Some?
    ensures var page := FoldedPage(rows, prefix, after, maxKeys);
      var next := FoldedPage(rows, prefix, page.token.value, maxKeys);
      p in page.prefixes && p in next.prefixes <==>
        (Consumed(rows, prefix, after, maxKeys) == SCAN_CAP
         && Under(prefix, p, page.token.value) && IsToCome(rows, prefix, page.token.value, p))
  {
    var (s, c) := (Select(rows, prefix, after), Consumed(rows, prefix, after, maxKeys));
    var t := FoldedPage(rows, prefix, after, maxKeys).token.value;
    PageConsumes(rows, prefix, after, maxKeys);
    PageStops(rows, prefix, after, maxKeys);
    PageHas(rows, prefix, after, maxKeys, p);
    PageHas(rows, prefix, t, maxKeys, p);
    SelectionIsLive(rows, prefix, after);
    SelectionIsOrdered(rows, prefix, t);
    if IsToCome(rows, prefix, t, p) && Under(prefix, p, t) {
      GroupGoesOn(rows, prefix, s, c, t, p);
    }
    if p in FoldedPage(rows, prefix, after, maxKeys).prefixes && p in FoldedPage(rows, prefix, t, maxKeys).prefixes {
      var r :| r in s[c..][..Consumed(rows, prefix, t, maxKeys)] && Under(prefix, p, r.key);
      assert r in s[c..];
      SplitGroup(prefix, s, c, p);
      SameLine(prefix, s, c, p);
    }
  }

  lemma GroupGoesOn(rows: seq<Record>, prefix: string, s: seq<Record>, c: nat, t: string, p: string)
    requires Sorted(s) && AllLive(s, prefix) && 0 < c <= |s| && t == s[c - 1].key && Under(prefix, p, t)
    requires forall r :: r in s[c..] <==> r in rows && IsLive(r, prefix) && Less(t, r.key)
    requires IsToCome(rows, prefix, t, p)
    ensures s[c - 1] in s[..c] && c < |s| && s[c..][0] == s[c] && Under(prefix, p, s[c].key)
  {
    var r :| r in rows && Less(t, r.key) && Under(prefix, p, r.key);
    LevelOf(prefix, p, r.key);
    assert s[..c][c - 1] == s[c - 1];
    SplitGroup(prefix, s, c, p);
  }

  // ---- A prefix that does repeat ----

  /** More rows in one group than one scan takes. */
  function BigGroup(): seq<Record> {
    seq(SCAN_CAP + 1, i requires 0 <= i => Record("a/" + seq(i, _ => 'x'), 0, None))
  }

  lemma {:induction false} LongerIsLater(a: string, b: string)
    requires a < b
    ensures Less(a, b)
  {
    if a != "" {
      LongerIsLater(a[1..], b[1..]);
    }
  }

  lemma BigGroupIsSorted()
    ensures Sorted(BigGroup())
    ensures forall r :: r in BigGroup() ==> IsLive(r, "") && Less("", r.key) && Under("", "a/", r.key)
  {
    var rows := BigGroup();
    forall i, j | 0 <= i < j < |rows| ensures Less(rows[i].key, rows[j].key) {
      LongerIsLater(rows[i].key, rows[j].key);
    }
    forall r | r in rows ensures IsLive(r, "") && Less("", r.key) && Under("", "a/", r.key) {
      IsInBigGroup(r.key);
    }
  }

  lemma IsInBigGroup(key: string)
    requires "a/" <= key
    ensures IsLive(Record(key, 0, None), "") && Less("", key) && Under("", "a/", key)
  {
    var rest := key[|""|..];
    assert rest == key && key[0] == 'a' && key[1] == '/';
    FirstSlash(rest, 1);
    assert "" + rest[..2] == "a/";
  }

  lemma {:induction false} AllSelected(rows: seq<Record>, prefix: string, after: string)
    requires forall r :: r in rows ==> IsLive(r, prefix) && Less(after, r.key)
    ensures Select(rows, prefix, after) == rows
  {
    if rows != [] {
      var (front, last) := (rows[..|rows| - 1], rows[|rows| - 1]);
      assert rows == front + [last];
      AllSelected(front, prefix, after);
      WhereIsLiveBeyond(last, prefix, after);
    }
  }

  lemma {:induction false} OneGroupIsOneLine(prefix: string, recs: seq<Record>, c: nat, p: string)
    requires c <= |recs| && forall r :: r in recs ==> Under(prefix, p, r.key)
    ensures Listed(prefix, recs[..c]) == if c == 0 then [] else [Prefix(p)]
  {
    if c == 0 {
      assert recs[..0] == [];
    } else {
      OneGroupIsOneLine(prefix, recs, c - 1, p);
      NextRowExtends(prefix, recs, c - 1);
      assert recs[c - 1] in recs;
      UnderIgnoresMeta(prefix, p, recs[c - 1]);
    }
  }

  /** The first page over such a group is cut by the scan cap, and the second shows its prefix again. */
  lemma {:induction false} BigGroupRepeats(maxKeys: int)
    ensures var rows := BigGroup();
      && Sorted(rows) && FoldedPage(rows, "", "", maxKeys).token.Some?
      && "a/" in FoldedPage(rows, "", "", maxKeys).prefixes
      && "a/" in FoldedPage(rows, "", FoldedPage(rows, "", "", maxKeys).token.value, maxKeys).prefixes
  {
    var rows, recs := BigGroup(), BigGroup()[..SCAN_CAP];
    BigGroupIsSorted();
    AllSelected(rows, "", "");
    assert ListPrefix(rows, "", "", SCAN_CAP) == recs;
    BigGroupIsCut(recs, maxKeys);
    PageShowsConsumed(rows, "", "", maxKeys);
    var last, next := rows[SCAN_CAP - 1], rows[SCAN_CAP];
    assert last in rows && next in rows && Less(last.key, next.key);
    assert IsToCome(rows, "", last.key, "a/");
    NextPageRepeatsIff(rows, "", "", maxKeys, "a/");
  }

  lemma BigGroupIsCut(recs: seq<Record>, maxKeys: int)
    requires |recs| == SCAN_CAP && forall r :: r in recs ==> Under("", "a/", r.key)
    ensures Cut("", Room(ClampKeys(maxKeys)), recs, 0) == SCAN_CAP
  {
    OneGroupIsOneLine("", recs, SCAN_CAP, "a/");
    CutIsLargest("", Room(ClampKeys(maxKeys)), recs, 0, SCAN_CAP);
  }
}
