/** What a batch delete is about: the keys asked for, with directories replaced by what is in them. */
module Expansion {
  import opened Base
  import opened Text
  import opened Keys
  import opened Objects

  const PAGE := 1000

  // ---- Listing everything under a prefix ----

  function AllUnder(objects: map<Loc, Object>, bucket: int, prefix: string): set<string> {
    KeysUnder(objects, bucket, prefix, "")
  }

  /** The keys so far: all up to the token, in order. */
  ghost predicate ListedUpTo(objects: map<Loc, Object>, bucket: int, prefix: string, keys: seq<string>, token: string) {
    && Ascending(keys)
    && (forall k :: k in keys <==> k in AllUnder(objects, bucket, prefix) && AtMost(k, token))
  }

  /** Page after page until the storage has no more. */
  method ListPrefixKeys(b: Backend, bucket: int, prefix: string) returns (r: Result<seq<string>, Error>)
    ensures r.Ok? ==> Ascending(r.value) && forall k :: k in r.value <==> k in AllUnder(b.objects, bucket, prefix)
    ensures r.Err? ==> !b.reliable
  {
    var keys: seq<string> := [];
    var token := "";
    while true
      invariant ListedUpTo(b.objects, bucket, prefix, keys, token)
      decreases |KeysUnder(b.objects, bucket, prefix, token)|
    {
      var listing := b.List(bucket, prefix, token, PAGE);
      if listing.Err? {
        return Err(listing.error);
      }
      var page := listing.value;
      ghost var before := keys;
      var i := 0;
      while i < |page.objects|
        invariant 0 <= i <= |page.objects|
        invariant |keys| == |before| + i && before == keys[..|before|]
        invariant forall j :: 0 <= j < i ==> keys[|before| + j] == page.objects[j].key
      {
        if page.objects[i].key != "" {
          keys := keys + [page.objects[i].key];
        }
        i := i + 1;
      }
      PageExtends(b.objects, bucket, prefix, before, token, page, keys);
      if !page.truncated || page.token == "" {
        return Ok(keys);
      }
      TokenAdvances(b.objects, bucket, prefix, token, page);
      token := page.token;
    }
  }

  lemma PageExtends(objects: map<Loc, Object>, bucket: int, prefix: string, before: seq<string>, token: string,
        page: ListPage, keys: seq<string>)
    requires ListedUpTo(objects, bucket, prefix, before, token) && IsPage(objects, bucket, prefix, token, page)
    requires |keys| == |before| + |page.objects| && before == keys[..|before|]
    requires forall j :: 0 <= j < |page.objects| ==> keys[|before| + j] == page.objects[j].key
    ensures page.truncated ==> page.token != "" && ListedUpTo(objects, bucket, prefix, keys, page.token)
    ensures !page.truncated ==> Ascending(keys) && forall k :: k in keys <==> k in AllUnder(objects, bucket, prefix)
  {
    var all := AllUnder(objects, bucket, prefix);
    forall i, j | 0 <= i < j < |keys| ensures Less(keys[i], keys[j]) {
      assert i < |before| ==> keys[i] == before[i] && before[i] in before;
      assert j < |before| ==> keys[j] == before[j];
      assert i >= |before| ==> keys[i] == page.objects[i - |before|].key;
      assert j >= |before| ==> keys[j] == page.objects[j - |before|].key;
      if i < |before| <= j {
        AtMostIsTransitive(keys[i], token, keys[j]);
      }
    }
    PageMembers(objects, bucket, prefix, before, token, page, keys);
  }

  lemma PageMembers(objects: map<Loc, Object>, bucket: int, prefix: string, before: seq<string>, token: string,
        page: ListPage, keys: seq<string>)
    requires ListedUpTo(objects, bucket, prefix, before, token) && IsPage(objects, bucket, prefix, token, page)
    requires |keys| == |before| + |page.objects| && before == keys[..|before|]
    requires forall j :: 0 <= j < |page.objects| ==> keys[|before| + j] == page.objects[j].key
    ensures page.truncated ==> page.token != "" && forall k :: k in keys <==> k in AllUnder(objects, bucket, prefix) && AtMost(k, page.token)
    ensures !page.truncated ==> forall k :: k in keys <==> k in AllUnder(objects, bucket, prefix)
  {
    var all, n := AllUnder(objects, bucket, prefix), |page.objects|;
    forall k | k in keys ensures k in all && (page.truncated ==> AtMost(k, page.token)) {
      var i :| 0 <= i < |keys| && keys[i] == k;
      if i < |before| {
        assert k == before[i] && k in before;
        if page.truncated {
          AtMostIsTransitive(k, token, page.token);
        }
      } else {
        assert k == page.objects[i - |before|].key;
        EmptyIsLeast(token);
        AtMostIsTransitive("", token, k);
      }
    }
    forall k | k in all && (page.truncated ==> AtMost(k, page.token)) ensures k in keys {
      LessIsTotal(token, k);
      if Less(token, k) {
        assert k in KeysUnder(objects, bucket, prefix, token);
        if page.truncated { LessIsTotal(page.token, k); }
        assert ListedAs(objects, bucket, k) in page.objects;
        var j :| 0 <= j < n && page.objects[j] == ListedAs(objects, bucket, k);
        assert keys[|before| + j] == k;
      } else {
        assert k in before;
        var i :| 0 <= i < |before| && before[i] == k;
        assert keys[i] == k;
      }
    }
  }

  /** A token leaves less to list. */
  lemma TokenAdvances(objects: map<Loc, Object>, bucket: int, prefix: string, token: string, page: ListPage)
    requires IsPage(objects, bucket, prefix, token, page) && page.truncated
    ensures |KeysUnder(objects, bucket, prefix, page.token)| < |KeysUnder(objects, bucket, prefix, token)|
  {
    var more, less := KeysUnder(objects, bucket, prefix, token), KeysUnder(objects, bucket, prefix, page.token);
    assert page.token in more;
    LessIsTotal(page.token, page.token);
    forall k | k in less ensures k in more {
      LessIsTransitive(token, page.token, k);
    }
    assert less <= more - {page.token};
    Smaller(less, more - {page.token});
  }

  lemma {:induction false} Smaller(a: set<string>, b: set<string>)
    requires a <= b
    ensures |a| <= |b|
  {
    if a != {} {
      var x :| x in a;
      Smaller(a - {x}, b - {x});
    }
  }

  // ---- What a request stands for ----

  datatype Reason = InvalidKey | StorageError | NothingThere

  datatype Failure = Failure(key: string, reason: Reason)

  function Meant(objects: map<Loc, Object>, bucket: int, key: string): set<string> {
    if !ValidUserKey(key) then {}
    else if !IsDirectoryKey(key) then {key}
    else AllUnder(objects, bucket, key)
  }

  /** What is wrong with a key, given whether a listing would come back. */
  function Trouble(objects: map<Loc, Object>, bucket: int, key: string, listed: bool): Option<Reason> {
    if !ValidUserKey(key) then Some(InvalidKey)
    else if !IsDirectoryKey(key) then None
    else if !listed then Some(StorageError)
    else if AllUnder(objects, bucket, key) == {} then Some(NothingThere)
    else None
  }

  /** Everything a usable key stands for may be deleted by a user. */
  lemma MeantKeysAreValid(objects: map<Loc, Object>, bucket: int, key: string)
    ensures forall k :: k in Meant(objects, bucket, key) ==> ValidUserKey(k)
  {
    forall k | k in Meant(objects, bucket, key) ensures ValidUserKey(k) {
      if IsDirectoryKey(key) {
        ChildrenOfValidDirectoriesAreValid(key, k);
      }
    }
  }

  /** The first n keys of the request are accounted for: their troubles reported, and what the others stand for resolved once. */
  ghost predicate Accounted(objects: map<Loc, Object>, bucket: int, keys: seq<string>, listed: seq<bool>, n: nat,
        resolved: seq<string>, failed: seq<Failure>)
    requires n <= |keys| && n <= |listed|
  {
    && NoDuplicates(resolved)
    && (forall k :: k in resolved <==> IsMeant(objects, bucket, keys, listed, n, k))
    && failed == Troubles(objects, bucket, keys, listed, n)
  }

  /** The keys are what the request stands for, up to directories whose listing failed. */
  ghost predicate IsExpansion(objects: map<Loc, Object>, bucket: int, keys: seq<string>, reliable: bool, resolved: seq<string>) {
    exists listed: seq<bool>, failed: seq<Failure> ::
      && |listed| == |keys| && (reliable ==> forall i :: 0 <= i < |keys| ==> listed[i])
      && Accounted(objects, bucket, keys, listed, |keys|, resolved, failed)
  }

  /** Some usable key of the request is the key, or is a directory with it inside. */
  ghost predicate IsAskedFor(objects: map<Loc, Object>, bucket: int, keys: seq<string>, k: string) {
    exists i :: 0 <= i < |keys| && ValidUserKey(keys[i]) &&
      if IsDirectoryKey(keys[i]) then keys[i] <= k && Loc(bucket, k) in objects else k == keys[i]
  }

  /** On a reliable storage the expansion is exactly what was asked for. */
  lemma ExpansionsAreWhatWasAskedFor(objects: map<Loc, Object>, bucket: int, keys: seq<string>, resolved: seq<string>, k: string)
    requires IsExpansion(objects, bucket, keys, true, resolved)
    ensures k in resolved <==> IsAskedFor(objects, bucket, keys, k)
    ensures k in resolved ==> ValidUserKey(k)
  {
    var listed: seq<bool>, failed: seq<Failure> :| && |listed| == |keys| && (forall i :: 0 <= i < |keys| ==> listed[i])
      && Accounted(objects, bucket, keys, listed, |keys|, resolved, failed);
    if IsAskedFor(objects, bucket, keys, k) {
      var i :| 0 <= i < |keys| && ValidUserKey(keys[i]) &&
        if IsDirectoryKey(keys[i]) then keys[i] <= k && Loc(bucket, k) in objects else k == keys[i];
      EmptyIsLeast(k);
      assert Trouble(objects, bucket, keys[i], listed[i]).None? && k in Meant(objects, bucket, keys[i]);
    }
    if k in resolved {
      var i :| 0 <= i < |keys| && Trouble(objects, bucket, keys[i], listed[i]).None? && k in Meant(objects, bucket, keys[i]);
      MeantKeysAreValid(objects, bucket, keys[i]);
    }
  }

  ghost predicate IsMeant(objects: map<Loc, Object>, bucket: int, keys: seq<string>, listed: seq<bool>, n: nat,
        k: string)
    requires n <= |keys| && n <= |listed|
  {
    exists i :: 0 <= i < n && Trouble(objects, bucket, keys[i], listed[i]).None? && k in Meant(objects, bucket, keys[i])
  }

  /** The failures to report, in the order of the request. */
  function Troubles(objects: map<Loc, Object>, bucket: int, keys: seq<string>, listed: seq<bool>, n: nat): seq<Failure>
    requires n <= |keys| && n <= |listed|
  {
    if n == 0 then []
    else
      var t := Trouble(objects, bucket, keys[n - 1], listed[n - 1]);
      Troubles(objects, bucket, keys, listed, n - 1) + if t.Some? then [Failure(keys[n - 1], t.value)] else []
  }

  /** Keys not seen before are resolved, others dropped. */
  method AddNew(resolved: seq<string>, seen: set<string>, more: seq<string>)
    returns (resolved': seq<string>, seen': set<string>)
    requires NoDuplicates(resolved) && forall k :: k in resolved <==> k in seen
    ensures NoDuplicates(resolved') && forall k :: k in resolved' <==> k in seen'
    ensures forall k :: k in resolved' <==> k in resolved || k in more
  {
    resolved', seen' := resolved, seen;
    for i := 0 to |more|
      invariant NoDuplicates(resolved') && forall k :: k in resolved' <==> k in seen'
      invariant forall k :: k in resolved' <==> k in resolved || k in more[..i]
    {
      assert more[..i + 1] == more[..i] + [more[i]];
      if more[i] in seen' {
        continue;
      }
      seen', resolved' := seen' + {more[i]}, resolved' + [more[i]];
    }
    assert more[..|more|] == more;
  }

  method ExpandDeleteKeys(b: Backend, bucket: int, keys: seq<string>)
    returns (resolved: seq<string>, failed: seq<Failure>, ghost listed: seq<bool>)
    ensures |listed| == |keys| && (b.reliable ==> forall i :: 0 <= i < |keys| ==> listed[i])
    ensures Accounted(b.objects, bucket, keys, listed, |keys|, resolved, failed)
    ensures forall k :: k in resolved ==> ValidUserKey(k)
  {
    resolved, failed, listed := [], [], [];
    var seen: set<string> := {};
    for n := 0 to |keys|
      invariant |listed| == n && (b.reliable ==> forall i :: 0 <= i < n ==> listed[i])
      invariant Accounted(b.objects, bucket, keys, listed, n, resolved, failed)
      invariant forall k :: k in resolved <==> k in seen
    {
      var key := keys[n];
      ghost var was, before := listed, resolved;
      var trouble, more, ok := ExpandOne(b, bucket, key);
      listed := listed + [ok];
      if trouble.Some? {
        failed := failed + [Failure(key, trouble.value)];
      } else {
        resolved, seen := AddNew(resolved, seen, more);
      }
      OneMoreKey(b.objects, bucket, keys, was, ok, n, before, resolved, failed);
    }
    forall k | k in resolved ensures ValidUserKey(k) {
      var i :| 0 <= i < |keys| && Trouble(b.objects, bucket, keys[i], listed[i]).None? && k in Meant(b.objects, bucket, keys[i]);
      MeantKeysAreValid(b.objects, bucket, keys[i]);
    }
  }

  /** One key of the request. */
  method ExpandOne(b: Backend, bucket: int, key: string)
    returns (trouble: Option<Reason>, more: seq<string>, ghost listed: bool)
    ensures trouble == Trouble(b.objects, bucket, key, listed) && (b.reliable ==> listed)
    ensures trouble.None? ==> forall k :: k in more <==> k in Meant(b.objects, bucket, key)
  {
    listed := true;
    if !ValidUserKey(key) {
      return Some(InvalidKey), [], true;
    }
    if !IsDirectoryKey(key) {
      return None, [key], true;
    }
    var children := ListPrefixKeys(b, bucket, key);
    if children.Err? {
      return Some(StorageError), [], false;
    }
    more := children.value;
    if |more| == 0 {
      trouble := Some(NothingThere);
    } else {
      assert more[0] in more;
      trouble := None;
    }
  }

  lemma OneMoreKey(objects: map<Loc, Object>, bucket: int, keys: seq<string>, listed: seq<bool>, ok: bool, n: nat,
                   before: seq<string>, resolved: seq<string>, failed: seq<Failure>)
    requires n < |keys| && |listed| == n && NoDuplicates(resolved)
    requires forall k :: k in before <==> IsMeant(objects, bucket, keys, listed, n, k)
    requires var t := Trouble(objects, bucket, keys[n], ok);
      && (forall k :: k in resolved <==> k in before || (t.None? && k in Meant(objects, bucket, keys[n])))
      && failed == Troubles(objects, bucket, keys, listed, n) + if t.Some? then [Failure(keys[n], t.value)] else []
    ensures Accounted(objects, bucket, keys, listed + [ok], n + 1, resolved, failed)
  {
    var listed' := listed + [ok];
    SameTroubles(objects, bucket, keys, listed, ok, n);
    forall k ensures k in resolved <==> IsMeant(objects, bucket, keys, listed', n + 1, k) {
      assert forall i :: 0 <= i < n ==> listed'[i] == listed[i];
      if IsMeant(objects, bucket, keys, listed', n + 1, k) {
        var i :| 0 <= i < n + 1 && Trouble(objects, bucket, keys[i], listed'[i]).None? && k in Meant(objects, bucket, keys[i]);
        assert i < n ==> IsMeant(objects, bucket, keys, listed, n, k);
      }
      if IsMeant(objects, bucket, keys, listed, n, k) {
        var i :| 0 <= i < n && Trouble(objects, bucket, keys[i], listed[i]).None? && k in Meant(objects, bucket, keys[i]);
        assert Trouble(objects, bucket, keys[i], listed'[i]).None?;
      }
      assert listed'[n] == ok;
    }
  }

  lemma {:induction false} SameTroubles(objects: map<Loc, Object>, bucket: int, keys: seq<string>, listed: seq<bool>,
        ok: bool, n: nat)
    requires n <= |keys| && n <= |listed|
    ensures Troubles(objects, bucket, keys, listed + [ok], n) == Troubles(objects, bucket, keys, listed, n)
  {
    if n > 0 {
      SameTroubles(objects, bucket, keys, listed, ok, n - 1);
    }
  }
}
