/**
 * The scheduler group's pure rules: who is a member, who owns a bucket, which
 * slot a moment falls in, and how a claim is named. Times are nanoseconds.
 */
module Sched {
  import opened Base
  import opened Text

  const SECOND := 1_000_000_000
  const MINUTE := 60 * SECOND
  const HOUR := 60 * MINUTE
  const BEAT_TTL := 15 * SECOND
  const TWO_TO_THE_64 := 0x1_0000_0000_0000_0000

  // ---- Membership ----

  function BeatPrefix(role: string): string {
    "osspilot:sched:" + role + ":"
  }

  /** The name m is announced by one of the scanned keys. */
  ghost predicate Announced(m: string, keys: seq<string>, role: string) {
    m != "" && exists k :: k in keys && TrimPrefix(k, BeatPrefix(role)) == m
  }

  function Flatten(batches: seq<seq<string>>): seq<string> {
    if batches == [] then [] else Flatten(batches[..|batches| - 1]) + batches[|batches| - 1]
  }

  /** A key that some SCAN call returned. */
  ghost predicate Scanned(key: string, replies: seq<Option<seq<string>>>) {
    exists c :: 0 <= c < |replies| && replies[c].Some? && key in replies[c].value
  }

  lemma {:induction false} FlattenedAreScanned(replies: seq<Option<seq<string>>>, batches: seq<seq<string>>, key: string)
    requires None !in replies && |batches| == |replies|
    requires forall c :: 0 <= c < |replies| ==> replies[c] == Some(batches[c])
    ensures key in Flatten(batches) <==> Scanned(key, replies)
  {
    if batches != [] {
      var n := |batches| - 1;
      FlattenedAreScanned(replies[..n], batches[..n], key);
      assert Scanned(key, replies[..n]) ==> Scanned(key, replies);
    }
  }

  /** A name's heartbeat key gives the name back; a key of another kind would be taken for a name as it is. */
  lemma AnnouncedNames(m: string, keys: seq<string>, role: string)
    ensures Announced(m, keys, role) <==>
      m != "" && ("osspilot:sched:" + role + ":" + m in keys || (m in keys && !("osspilot:sched:" + role + ":" <= m)))
  {
    var p := "osspilot:sched:" + role + ":";
    assert (p + m)[|p|..] == m;
    forall k | k in keys && p <= k && k[|p|..] == m ensures k == p + m {
      assert k[..|p|] == p;
    }
  }

  /** What a process can be shown of its group: sorted, without empty names, and with itself. */
  predicate IsView(view: seq<string>, me: string) {
    Ascending(view) && "" !in view && (me != "" ==> me in view)
  }

  /**
   * Reads the group: one reply per SCAN call (None when the call fails), the
   * names deduplicated, this process added, and the result sorted.
   */
  method Members(replies: seq<Option<seq<string>>>, role: string, me: string) returns (r: Option<seq<string>>)
    ensures r.None? <==> None in replies
    ensures r.Some? ==> IsView(r.value, me) && Ascending(r.value)
    ensures r.Some? ==> forall m :: m in r.value <==>
      && m != ""
      && var beats := "osspilot:sched:" + role + ":";
         m == me || Scanned(beats + m, replies) || (Scanned(m, replies) && !(beats <= m))
  {
    var keys := [];
    var batches := [];
    for c := 0 to |replies|
      invariant None !in replies[..c]
      invariant |batches| == c && keys == Flatten(batches)
      invariant forall i :: 0 <= i < c ==> replies[i] == Some(batches[i])
    {
      if replies[c].None? {
        return None;
      }
      batches := batches + [replies[c].value];
      assert batches[..c] == batches[..|batches| - 1];
      keys := keys + replies[c].value;
    }
    assert replies[..|replies|] == replies;

    var out := [];
    var seen: set<string> := {};
    for c := 0 to |keys|
      invariant NoDuplicates(out)
      invariant forall m :: m in out <==> m in seen
      invariant forall m :: m in seen <==> Announced(m, keys[..c], role)
    {
      var name := TrimPrefix(keys[c], BeatPrefix(role));
      assert keys[..c + 1] == keys[..c] + [keys[c]];
      if name != "" && name !in seen {
        seen := seen + {name};
        out := out + [name];
      }
    }
    assert keys[..|keys|] == keys;
    if me !in seen && me != "" {
      out := out + [me];
    }
    SortStringsSorts(out);
    forall m ensures Announced(m, keys, role) <==>
      m != "" && (Scanned(BeatPrefix(role) + m, replies) || (Scanned(m, replies) && !(BeatPrefix(role) <= m)))
    {
      AnnouncedNames(m, keys, role);
      FlattenedAreScanned(replies, batches, m);
      FlattenedAreScanned(replies, batches, BeatPrefix(role) + m);
    }
    return Some(SortStrings(out));
  }

  // ---- Sharding ----

  /** `sort.SearchStrings` over a[i..j]: binary search for the first entry not below x. */
  function Search(a: seq<string>, x: string, i: nat, j: nat): (r: nat)
    requires i <= j <= |a|
    ensures i <= r <= j
    decreases j - i
  {
    if i == j then i
    else
      var h := (i + j) / 2;
      if Less(a[h], x) then Search(a, x, h + 1, j) else Search(a, x, i, h)
  }

  lemma {:induction false} SearchFinds(a: seq<string>, m: nat, i: nat, j: nat)
    requires Ascending(a) && i <= m <= j <= |a| && m < |a|
    ensures Search(a, a[m], i, j) == m
    decreases j - i
  {
    if i < j {
      var h := (i + j) / 2;
      if h < m {
        assert Less(a[h], a[m]);
        SearchFinds(a, m, h + 1, j);
      } else {
        LessIsTotal(a[h], a[m]);
        SearchFinds(a, m, i, h);
      }
    }
  }

  /** id is an int64; `uint64(id)` is its residue modulo 2^64. */
  predicate Mine(id: int, members: seq<string>, me: string) {
    var n := |members|;
    if n == 0 then true
    else
      var i := Search(members, me, 0, n);
      i < n && members[i] == me && (id % TWO_TO_THE_64) % n == i
  }

  /** Every id, negative ones included, belongs to exactly one member of a sorted group. */
  lemma ShardingIsAPartition(id: int, members: seq<string>)
    requires Ascending(members) && members != []
    ensures exists m :: m in members && Mine(id, members, m)
    ensures forall a, b :: Mine(id, members, a) && Mine(id, members, b) ==> a == b
    ensures forall a :: Mine(id, members, a) ==> a in members
  {
    var w := (id % TWO_TO_THE_64) % |members|;
    SearchFinds(members, w, 0, |members|);
    assert Mine(id, members, members[w]);
  }

  /**
   * Which member owns which ids: the i-th of n owns i, i + n, i + 2n and so on, a negative id counts as the one 2^64
   * further on, nobody else owns anything, and before there are members everybody owns everything.
   */
  lemma MembersOwnTheirShares(id: int, members: seq<string>, i: nat, q: nat)
    requires Ascending(members) && i < |members|
    ensures q * |members| + i < TWO_TO_THE_64 ==> Mine(q * |members| + i, members, members[i])
    ensures Mine(id, members, members[i]) <==> Mine(id + TWO_TO_THE_64, members, members[i])
    ensures forall m :: m !in members ==> !Mine(id, members, m)
    ensures forall m :: Mine(id, [], m)
  {
    var n := |members|;
    if q * n + i < TWO_TO_THE_64 {
      OwnersAreResidues(q * n + i, members, i);
      DivisionIsUnique(q * n + i, n, q, i);
    }
    WrapsAround(id);
  }

  lemma WrapsAround(id: int)
    ensures (id + TWO_TO_THE_64) % TWO_TO_THE_64 == id % TWO_TO_THE_64
  {
  }

  lemma DivisionIsUnique(t: int, d: int, q: int, r: int)
    requires t == q * d + r && 0 <= r < d
    ensures t / d == q && t % d == r
  {
    EuclideanQuotientIsUnique(t, d, q);
  }

  /** Of n consecutive ids each of the n members owns exactly one: the load is as even as it can be. */
  lemma ConsecutiveIdsAreSpreadEvenly(first: nat, members: seq<string>, i: nat)
    requires Ascending(members) && i < |members| && first + |members| <= TWO_TO_THE_64
    ensures exists id :: first <= id < first + |members| && Mine(id, members, members[i])
    ensures forall id, id' :: first <= id < id' < first + |members| ==>
      !(Mine(id, members, members[i]) && Mine(id', members, members[i]))
  {
    var n := |members|;
    var id := OneResidueInARow(first, n, i);
    OwnersAreResidues(id, members, i);
    forall id, id' | first <= id < id' < first + n ensures !(Mine(id, members, members[i]) && Mine(id', members, members[i])) {
      OwnersAreResidues(id, members, i);
      OwnersAreResidues(id', members, i);
      ResiduesDiffer(id, id', n);
    }
  }

  lemma OneResidueInARow(first: nat, n: nat, r: nat) returns (t: nat)
    requires r < n
    ensures first <= t < first + n && t % n == r
  {
    t := first - first % n + r + if first % n <= r then 0 else n;
    DivisionIsUnique(t, n, first / n + if first % n <= r then 0 else 1, r);
  }

  lemma ResiduesDiffer(t: nat, t': nat, n: nat)
    requires t < t' < t + n
    ensures t % n != t' % n
  {
    if t % n == t' % n {
      DivisionIsUnique(t' - t, n, t' / n - t / n, 0);
      DivisionIsUnique(t' - t, n, 0, t' - t);
    }
  }

  lemma OwnersAreResidues(id: nat, members: seq<string>, i: nat)
    requires Ascending(members) && i < |members| && id < TWO_TO_THE_64
    ensures Mine(id, members, members[i]) <==> id % |members| == i
  {
    SearchFinds(members, i, 0, |members|);
  }

  // ---- Slots ----

  /** `Time.Truncate`. */
  function Truncate(t: int, d: int): int {
    if d <= 0 then t else t - t % d
  }

  function SlotStart(now: int, interval: int): int {
    Truncate(now, interval)
  }

  function SlotTtl(now: int, interval: int): int {
    var ttl := SlotStart(now, interval) + interval - now;
    if ttl < SECOND then SECOND else ttl
  }

  /**
   * Slots tile time on a grid of multiples of the interval, and a claim made at any moment of a slot lives
   * exactly to its end, or a second if less than a second is left.
   */
  lemma SlotsTileTime(now: int, later: int, interval: int)
    requires interval > 0
    ensures SlotStart(now, interval) <= now < SlotStart(now, interval) + interval
    ensures SlotStart(now, interval) % interval == 0
    ensures var end := SlotStart(now, interval) + interval;
      now + SlotTtl(now, interval) == if end - now < 1_000_000_000 then now + 1_000_000_000 else end
    ensures SlotStart(later, interval) == SlotStart(now, interval)
        <==> SlotStart(now, interval) <= later < SlotStart(now, interval) + interval
  {
    var s := SlotStart(now, interval);
    assert s == interval * (now / interval);
    DivisionIsUnique(s, interval, now / interval, 0);
    if s <= later < s + interval {
      EuclideanQuotientIsUnique(later, interval, now / interval);
    }
  }

  lemma EuclideanQuotientIsUnique(t: int, d: int, q: int)
    requires d > 0 && d * q <= t < d * q + d
    ensures t / d == q
  {
    var k := t / d - q;
    assert d * k == t - t % d - d * q;
    assert k >= 1 ==> d * k >= d;
    assert k <= -1 ==> d * k <= -d;
  }

  // ---- Names ----

  function ClaimKey(slot: string, typ: string, id: string): string {
    "osspilot:claim:" + slot + ":" + typ + ":" + id
  }

  function Digits(n: nat): (s: string)
    ensures s != [] && forall c :: c in s ==> '0' <= c <= '9'
    ensures s[0] == '0' ==> n == 0 && |s| == 1
  {
    var d := [('0' as int + n % 10) as char];
    if n < 10 then d else Digits(n / 10) + d
  }

  /** `strconv.FormatInt(id, 10)`. */
  function IDString(id: int): string {
    if id < 0 then "-" + Digits(-id) else Digits(id)
  }

  /** The number a string of decimal digits stands for. */
  function Value(s: string): int {
    if s == [] then 0 else Value(s[..|s| - 1]) * 10 + (s[|s| - 1] as int - '0' as int)
  }

  /** The number an id's name stands for, with the sign of negative ones. */
  function ReadID(s: string): int {
    if s != "" && s[0] == '-' then -Value(s[1..]) else Value(s)
  }

  /** An id's name reads back as the id, and is as short as can be. */
  lemma IDStringRoundTrip(id: int)
    ensures ReadID(IDString(id)) == id
    ensures '0' in IDString(id)[..1] ==> id == 0 && IDString(id) == "0"
    ensures id < 0 ==> |IDString(id)| > 1 && IDString(id)[1] != '0'
  {
    DigitsRoundTrip(if id < 0 then -id else id);
    if id < 0 {
      assert IDString(id)[1..] == Digits(-id);
    } else {
      assert IDString(id)[0] in IDString(id);
    }
  }

  lemma {:induction false} DigitsRoundTrip(n: nat)
    ensures Value(Digits(n)) == n
  {
    var d := [('0' as int + n % 10) as char];
    if n < 10 {
      assert d[..0] == [];
    } else {
      DigitsRoundTrip(n / 10);
      assert (Digits(n / 10) + d)[..|Digits(n / 10) + d| - 1] == Digits(n / 10);
    }
  }

  /** Decimal ids are told apart, never look like the shared "all", and hold no colon. */
  lemma IDStringIsInjective(a: int, b: int)
    ensures IDString(a) == IDString(b) ==> a == b
    ensures IDString(a) != "all"
    ensures ':' !in IDString(a)
  {
    DigitsRoundTrip(if a < 0 then -a else a);
    DigitsRoundTrip(if b < 0 then -b else b);
    assert a >= 0 ==> IDString(a)[0] in IDString(a);
    assert b >= 0 ==> IDString(b)[0] in IDString(b);
    assert IDString(a)[0] != "all"[0];
    if a < 0 && b < 0 {
      assert IDString(a)[1..] == Digits(-a) && IDString(b)[1..] == Digits(-b);
    }
  }

  /** Splitting at the last colon is unambiguous whatever colons come before it. */
  lemma LastColonSplits(a: string, b: string, c: string, d: string)
    requires ':' !in b && ':' !in d
    requires a + ":" + b == c + ":" + d
    ensures a == c && b == d
  {
    var s := a + ":" + b;
    assert s[|a|] == ':' && s[|c|] == ':';
    assert forall i :: |a| < i < |s| ==> s[i] == b[i - |a| - 1];
    assert forall i :: |c| < i < |s| ==> s[i] == d[i - |c| - 1];
    assert |a| == |c|;
    assert a == s[..|a|] && c == s[..|c|];
    assert b == s[|a| + 1..] && d == s[|c| + 1..];
  }

  /** What the claims and the tenant schedulers' heartbeats are called in Redis: a claim is never taken for a heartbeat. */
  lemma RedisNames(slot: string, typ: string, id: string, role: string, host: string)
    ensures BeatPrefix("tenant") + host == "osspilot:sched:tenant:" + host
    ensures var claim := ClaimKey(slot, typ, id);
      && claim[..15] == "osspilot:claim:" && claim[15..] == slot + ":" + typ + ":" + id
      && !(BeatPrefix(role) <= claim)
  {
    assert BeatPrefix("tenant") == "osspilot:sched:tenant:";
    var (p, rest) := ("osspilot:claim:", slot + ":" + typ + ":" + id);
    assert ClaimKey(slot, typ, id) == p + rest;
    assert BeatPrefix(role)[9] == 's' && (p + rest)[9] == 'c';
  }

  /** Claim names separate claims although slot strings hold colons of their own. */
  lemma ClaimKeyIsInjective(s: string, t: string, i: string, s': string, t': string, i': string)
    requires ':' !in t && ':' !in t' && ':' !in i && ':' !in i'
    requires ClaimKey(s, t, i) == ClaimKey(s', t', i')
    ensures s == s' && t == t' && i == i'
  {
    var p := "osspilot:claim:";
    LastColonSplits(p + s + ":" + t, i, p + s' + ":" + t', i');
    LastColonSplits(p + s, t, p + s', t');
    assert s == (p + s)[|p|..] && s' == (p + s')[|p|..];
  }
}
