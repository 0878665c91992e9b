/**
 * Folded listings: one page folds a bounded, ordered scan of a bucket's rows
 * into items directly under a prefix and common prefixes one level down, and
 * resumes from a token.
 */
module Listing {
  import opened Base
  import opened Text
  import opened Keys

  const MAX_LIST_KEYS := 1000
  const SCAN_CAP := 2000

  datatype Record = Record(key: string, size: int, etag: Option<string>)

  datatype Page = Page(items: seq<Record>, prefixes: seq<string>, token: Option<string>, truncated: bool)

  // ---- What a listing shows ----

  /** One line of a listing. */
  datatype Entry = Item(rec: Record) | Prefix(p: string)

  /** What one row contributes: nothing, itself, or the common prefix it falls under. */
  function EntryOf(prefix: string, rec: Record): Option<Entry> {
    if Reserved(rec.key) || !(prefix <= rec.key) || rec.key == prefix then None
    else
      var rest := rec.key[|prefix|..];
      var i := IndexOf(rest, '/');
      if i < 0 then Some(Item(rec)) else Some(Prefix(prefix + rest[..i + 1]))
  }

  function Entries(prefix: string, recs: seq<Record>): seq<Entry> {
    if recs == [] then []
    else
      var e := EntryOf(prefix, recs[|recs| - 1]);
      Entries(prefix, recs[..|recs| - 1]) + if e.Some? then [e.value] else []
  }

  /** Runs of one common prefix shown once. */
  function Squash(es: seq<Entry>): (r: seq<Entry>)
    ensures es != [] ==> r != [] && r[|r| - 1] == es[|es| - 1]
  {
    if es == [] then []
    else
      var (s, e) := (Squash(es[..|es| - 1]), es[|es| - 1]);
      if e.Prefix? && s != [] && s[|s| - 1] == e then s else s + [e]
  }

  function Listed(prefix: string, recs: seq<Record>): seq<Entry> {
    Squash(Entries(prefix, recs))
  }

  function Items(es: seq<Entry>): seq<Record> {
    if es == [] then []
    else
      var e := es[|es| - 1];
      Items(es[..|es| - 1]) + if e.Item? then [e.rec] else []
  }

  function Prefixes(es: seq<Entry>): seq<string> {
    if es == [] then []
    else
      var e := es[|es| - 1];
      Prefixes(es[..|es| - 1]) + if e.Prefix? then [e.p] else []
  }

  // ---- One page ----

  /** How many rows from c on still fit into a page of `room` lines. */
  function Cut(prefix: string, room: nat, recs: seq<Record>, c: nat): (r: nat)
    requires c <= |recs|
    ensures c <= r <= |recs|
    decreases |recs| - c
  {
    if c < |recs| && |Listed(prefix, recs[..c + 1])| <= room then Cut(prefix, room, recs, c + 1) else c
  }

  function Room(maxKeys: int): nat {
    if maxKeys < 1 then 1 else maxKeys
  }

  /** The page shows as many whole rows as fit, and resumes after the last row it consumed. */
  function PageOf(prefix: string, maxKeys: int, recs: seq<Record>, moreInDB: bool): Page {
    var c := Cut(prefix, Room(maxKeys), recs, 0);
    var shown := Listed(prefix, recs[..c]);
    var truncated := c < |recs| || moreInDB;
    Page(Items(shown), Prefixes(shown),
         if truncated && c > 0 && recs[c - 1].key != "" then Some(recs[c - 1].key) else None, truncated)
  }

  /** A listing extended by what one more row contributes. */
  function Extend(shown: seq<Entry>, e: Option<Entry>): seq<Entry> {
    if e.None? || (e.value.Prefix? && shown != [] && shown[|shown| - 1] == e.value) then shown else shown + [e.value]
  }

  lemma {:induction false} NextRowExtends(prefix: string, recs: seq<Record>, c: nat)
    requires c < |recs|
    ensures Listed(prefix, recs[..c + 1]) == Extend(Listed(prefix, recs[..c]), EntryOf(prefix, recs[c]))
  {
    var (e, es) := (EntryOf(prefix, recs[c]), Entries(prefix, recs[..c]));
    assert recs[..c + 1][..c] == recs[..c];
    assert Entries(prefix, recs[..c + 1]) == es + if e.Some? then [e.value] else [];
    if e.Some? {
      assert (es + [e.value])[..|es|] == es;
    } else {
      assert es + [] == es;
    }
  }

  lemma ListedGrows(prefix: string, recs: seq<Record>, c: nat, d: nat)
    requires c <= d <= |recs|
    ensures |Listed(prefix, recs[..c])| <= |Listed(prefix, recs[..d])|
    decreases d - c
  {
    if c < d {
      NextRowExtends(prefix, recs, d - 1);
      ListedGrows(prefix, recs, c, d - 1);
    }
  }

  /** The cut is the largest number of rows whose listing fits. */
  lemma CutIsLargest(prefix: string, room: nat, recs: seq<Record>, c: nat, d: nat)
    requires c <= d <= |recs| && |Listed(prefix, recs[..d])| <= room
    requires d == |recs| || |Listed(prefix, recs[..d + 1])| > room
    ensures Cut(prefix, room, recs, c) == d
    decreases d - c
  {
    if c < d {
      ListedGrows(prefix, recs, c + 1, d);
      CutIsLargest(prefix, room, recs, c + 1, d);
    }
  }

  lemma {:induction false} LinesSplit(es: seq<Entry>, e: Entry)
    ensures Items(es + [e]) == Items(es) + if e.Item? then [e.rec] else []
    ensures Prefixes(es + [e]) == Prefixes(es) + if e.Prefix? then [e.p] else []
  {
    assert (es + [e])[..|es|] == es;
  }

  /** The listing of the first c rows, built row by row as the loop does. */
  function ListedTo(prefix: string, recs: seq<Record>, c: nat): seq<Entry>
    requires c <= |recs|
  {
    if c == 0 then [] else Extend(ListedTo(prefix, recs, c - 1), EntryOf(prefix, recs[c - 1]))
  }

  lemma {:induction false} ListedToIsListed(prefix: string, recs: seq<Record>, c: nat)
    requires c <= |recs|
    ensures ListedTo(prefix, recs, c) == Listed(prefix, recs[..c])
  {
    if c > 0 {
      ListedToIsListed(prefix, recs, c - 1);
      NextRowExtends(prefix, recs, c - 1);
    }
  }

  lemma {:induction false} PageOfCut(prefix: string, maxKeys: int, recs: seq<Record>, moreInDB: bool, c: nat)
    requires c <= |recs| && |ListedTo(prefix, recs, c)| <= Room(maxKeys)
    requires c == |recs| || |ListedTo(prefix, recs, c + 1)| > Room(maxKeys)
    ensures var (shown, truncated) := (ListedTo(prefix, recs, c), c < |recs| || moreInDB);
      PageOf(prefix, maxKeys, recs, moreInDB) ==
        Page(Items(shown), Prefixes(shown),
             if truncated && c > 0 && recs[c - 1].key != "" then Some(recs[c - 1].key) else None, truncated)
  {
    ListedToIsListed(prefix, recs, c);
    if c < |recs| {
      ListedToIsListed(prefix, recs, c + 1);
    }
    CutIsLargest(prefix, Room(maxKeys), recs, 0, c);
  }

  function LastPrefix(shown: seq<Entry>): string {
    if shown != [] && shown[|shown| - 1].Prefix? then shown[|shown| - 1].p else ""
  }

  /** What the loop has built after some rows: the lines shown, split in two, and its bookkeeping. */
  ghost predicate Built(shown: seq<Entry>, items: seq<Record>, prefixes: seq<string>, lastPrefix: string, n: int) {
    items == Items(shown) && prefixes == Prefixes(shown) && lastPrefix == LastPrefix(shown) && n == |shown|
  }

  lemma {:induction false} BuiltGrows(shown: seq<Entry>, items: seq<Record>, prefixes: seq<string>,
        lastPrefix: string, n: int, e: Entry)
    requires Built(shown, items, prefixes, lastPrefix, n)
    ensures e.Item? ==> Built(shown + [e], items + [e.rec], prefixes, "", n + 1)
    ensures e.Prefix? ==> Built(shown + [e], items, prefixes + [e.p], e.p, n + 1)
    ensures e.Item? ==> Extend(shown, Some(e)) == shown + [e]
    ensures e.Prefix? && e.p != "" ==> Extend(shown, Some(e)) == if e.p == lastPrefix then shown else shown + [e]
  {
    LinesSplit(shown, e);
  }

  /** The line a row asks for, if any. */
  method LineOf(prefix: string, rec: Record) returns (e: Option<Entry>)
    ensures e == EntryOf(prefix, rec) && (e.Some? && e.value.Prefix? ==> e.value.p != "")
  {
    if TRASH <= rec.key || VERSIONS <= rec.key {
      return None;
    }
    if prefix != "" && !(prefix <= rec.key) {
      return None;
    }
    var rest := rec.key[|prefix|..];
    if rest == "" {
      assert rec.key == prefix;
      return None;
    }
    var i := IndexOf(rest, '/');
    if i >= 0 {
      return Some(Prefix(prefix + rest[..i + 1]));
    }
    e := Some(Item(rec));
  }

  /** What the loop knows after the first c rows. */
  ghost predicate Folding(prefix: string, recs: seq<Record>, c: nat, items: seq<Record>,
      prefixes: seq<string>, lastPrefix: string, n: int) {
    c <= |recs| && Built(ListedTo(prefix, recs, c), items, prefixes, lastPrefix, n)
  }

  /** What one more row does to it. */
  lemma {:induction false} NextLine(prefix: string, recs: seq<Record>, c: nat, items: seq<Record>,
        prefixes: seq<string>, lastPrefix: string, n: int, line: Option<Entry>)
    requires c < |recs| && line == EntryOf(prefix, recs[c]) && Folding(prefix, recs, c, items, prefixes, lastPrefix, n)
    requires line.Some? && line.value.Prefix? ==> line.value.p != ""
    ensures
      if line.None? || line == Some(Prefix(lastPrefix)) then Folding(prefix, recs, c + 1, items, prefixes, lastPrefix, n)
      else if line.value.Prefix? then Folding(prefix, recs, c + 1, items, prefixes + [line.value.p], line.value.p, n + 1)
      else Folding(prefix, recs, c + 1, items + [line.value.rec], prefixes, "", n + 1)
  {
    if line.Some? {
      BuiltGrows(ListedTo(prefix, recs, c), items, prefixes, lastPrefix, n, line.value);
    }
  }

  /** The last key of the first c rows. */
  function KeyBefore(recs: seq<Record>, c: nat): string
    requires c <= |recs|
  {
    if c == 0 then "" else recs[c - 1].key
  }

  /** The loop: rows are folded until one would start a line beyond maxKeys. */
  method FoldRows(prefix: string, maxKeys: nat, recs: seq<Record>)
    returns (items: seq<Record>, prefixes: seq<string>, tokenKey: string, truncated: bool, ghost c: nat)
    ensures c <= |recs| && (truncated <==> c < |recs|)
    ensures |ListedTo(prefix, recs, c)| <= maxKeys && (truncated ==> |ListedTo(prefix, recs, c + 1)| > maxKeys)
    ensures items == Items(ListedTo(prefix, recs, c)) && prefixes == Prefixes(ListedTo(prefix, recs, c))
    ensures tokenKey == KeyBefore(recs, c)
  {
    items, prefixes := [], [];
    var lastPrefix, n := "", 0;
    tokenKey, truncated := "", false;
    c := 0;
    for r := 0 to |recs|
      invariant c == r && !truncated && n <= maxKeys
      invariant Folding(prefix, recs, c, items, prefixes, lastPrefix, n)
      invariant tokenKey == KeyBefore(recs, c)
    {
      var rec := recs[r];
      var line := LineOf(prefix, rec);
      NextLine(prefix, recs, c, items, prefixes, lastPrefix, n, line);
      if line.None? || line == Some(Prefix(lastPrefix)) {
        tokenKey, c := rec.key, c + 1;
        continue;
      }
      if n >= maxKeys {
        truncated := true;
        break;
      }
      if line.value.Prefix? {
        prefixes, lastPrefix := prefixes + [line.value.p], line.value.p;
      } else {
        items, lastPrefix := items + [line.value.rec], "";
      }
      n, tokenKey, c := n + 1, rec.key, c + 1;
    }
  }

  method FoldList(prefix: string, maxKeys: int, recs: seq<Record>, moreInDB: bool) returns (page: Page)
    ensures page == PageOf(prefix, maxKeys, recs, moreInDB)
  {
    var items, prefixes, tokenKey, truncated, c := FoldRows(prefix, if maxKeys < 1 then 1 else maxKeys, recs);
    PageOfCut(prefix, maxKeys, recs, moreInDB, c);
    if !truncated && moreInDB {
      truncated := true;
    }
    page := Page(items, prefixes, if truncated && tokenKey != "" then Some(tokenKey) else None, truncated);
  }
}
