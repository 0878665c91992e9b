/**
 * One audit log at a time: which logs count, what a log adds to a counter, and
 * what a counter's numbers mean for the logs it has seen. Times are nanoseconds.
 */
module Requests {
  import opened Base
  import opened Text
  import opened Keys
  import opened Sched

  datatype Log = Log(userId: Option<int>, accountId: Option<int>, bucket: Option<string>, key: Option<string>,
                     action: string, status: string, at: int, size: int)

  const PUT_ACTIONS := {"upload"}
  const GET_ACTIONS := {"download", "preview", "version_download", "share_access"}
  const DELETE_ACTIONS := {"delete", "purge", "version_delete"}
  const EXCLUDED_ACTIONS := {"login_failed", "password_change"}
  const ADMIN_ACTIONS := {
    "user_create", "user_delete", "user_update", "modify_user_role",
    "create_tenant", "delete_tenant", "disable_tenant", "enable_tenant", "update_tenant",
    "modify_quota", "bucket_create", "bucket_import", "bucket_delete", "modify_bucket",
    "modify_bucket_quota", "modify_access_logging", "modify_bucket_policy", "modify_bucket_cors",
    "modify_permission", "modify_lifecycle", "force_unlock_file",
    "restart_rgw", "rolling_restart_rgw", "update_system_settings",
    "request_tenant_api_access", "approve_tenant_api_access", "reject_tenant_api_access",
    "disable_tenant_api_access", "create_application", "update_application", "delete_application",
    "create_access_key", "disable_access_key", "issue_sts_credentials"}

  predicate IsObjectRequest(action: string) {
    action !in ADMIN_ACTIONS && action !in EXCLUDED_ACTIONS
  }

  function FirstLevelPrefix(key: string): string {
    if key == "" || TRASH <= key then ""
    else
      var i := IndexOf(key, '/');
      if i < 0 then "" else key[..i + 1]
  }

  /** The first level of a key is its part up to the first slash; files at the top and the trash have none. */
  predicate IsFirstLevel(level: string, key: string) {
    if ".trash/" <= key || '/' !in key then level == ""
    else level != "" && level <= key && level[|level| - 1] == '/' && '/' !in level[..|level| - 1]
  }

  lemma FirstLevelEndsAtTheFirstSlash(key: string, level: string)
    ensures FirstLevelPrefix(key) == level <==> IsFirstLevel(level, key)
  {
    var i := IndexOf(key, '/');
    if i >= 0 {
      LevelIsUnique(key, i, level);
    }
  }

  lemma LevelIsUnique(key: string, i: nat, level: string)
    requires i < |key| && key[i] == '/' && '/' !in key[..i]
    ensures level == key[..i + 1] <==>
      level != "" && level <= key && level[|level| - 1] == '/' && '/' !in level[..|level| - 1]
  {
    if level != "" && level <= key && level[|level| - 1] == '/' && '/' !in level[..|level| - 1] {
      var n := |level| - 1;
      OnlyOneEnd(key, i, n);
    }
  }

  lemma OnlyOneEnd(key: string, i: nat, n: nat)
    requires i < |key| && key[i] == '/' && '/' !in key[..i]
    requires n < |key| && key[n] == '/' && '/' !in key[..n]
    ensures i == n
  {
    assert forall k :: 0 <= k < i ==> key[..i][k] == key[k];
    assert forall k :: 0 <= k < n ==> key[..n][k] == key[k];
  }

  datatype Period = Last24h | Last7d | Last30d {
    function Hours(): int {
      match this
      case Last24h => 24
      case Last7d => 168
      case Last30d => 720
    }
  }

  const PERIODS := {Last24h, Last7d, Last30d}

  predicate InWindow(at: int, now: int, p: Period) {
    at >= now - p.Hours() * HOUR
  }

  // ---- Operations ----

  datatype Op = Get | Put | Delete | Other

  function OpOf(action: string): Op {
    if action in GET_ACTIONS then Get
    else if action in PUT_ACTIONS then Put
    else if action in DELETE_ACTIONS then Delete
    else Other
  }

  /** The three groups do not overlap, so the order in which the code tests them is immaterial. */
  lemma ActionGroupsAreDisjoint()
    ensures GET_ACTIONS !! PUT_ACTIONS && GET_ACTIONS !! DELETE_ACTIONS && PUT_ACTIONS !! DELETE_ACTIONS
  {
    assert |"upload"| == 6 && |"delete"| == 6 && "upload"[0] != "delete"[0];
    assert |"download"| == 8 && |"preview"| == 7 && |"version_download"| == 16 && |"share_access"| == 12;
    assert |"purge"| == 5 && |"version_delete"| == 14;
  }

  predicate LooksAdministrative(x: string) {
    |x| > 10 && x[0] != 's' && x[0] != 'v'
  }

  lemma IgnoredActionsLookAdministrative(x: string)
    requires !IsObjectRequest(x)
    ensures LooksAdministrative(x)
  {
  }

  lemma OpsDoNotLookAdministrative(x: string)
    requires OpOf(x) != Other
    ensures !LooksAdministrative(x)
  {
  }

  /** No put, get or delete is taken for something to leave out. */
  lemma TransfersAndDeletesAreRequests(action: string)
    ensures OpOf(action) != Other ==> IsObjectRequest(action)
    ensures !IsObjectRequest("bucket_create") && !IsObjectRequest("login_failed")
  {
    if OpOf(action) != Other {
      OpsDoNotLookAdministrative(action);
      if !IsObjectRequest(action) {
        IgnoredActionsLookAdministrative(action);
        assert false;
      }
    }
  }

  lemma OpsAreGroups(action: string)
    ensures action in GET_ACTIONS <==> OpOf(action) == Get
    ensures action in PUT_ACTIONS <==> OpOf(action) == Put
    ensures action in DELETE_ACTIONS <==> OpOf(action) == Delete
  {
    ActionGroupsAreDisjoint();
  }

  // ---- What the numbers mean ----

  predicate IsAccess(l: Log) {
    l.key.Some? && l.key.value != "" && (OpOf(l.action) == Put || OpOf(l.action) == Get)
  }

  /** What can be added up over logs. */
  datatype Measure = Logs | Transfers | CountOf(op: Op) | BytesOf(op: Op) | Errors | Accesses {
    function Weight(l: Log): int {
      match this
      case Logs => 1
      case Transfers => if OpOf(l.action) == Put || OpOf(l.action) == Get then 1 else 0
      case CountOf(op) => if OpOf(l.action) == op then 1 else 0
      case BytesOf(op) => if OpOf(l.action) == op then l.size else 0
      case Errors => if l.status != "success" then 1 else 0
      case Accesses => if IsAccess(l) then 1 else 0
    }
  }

  function Total(sel: seq<Log>, m: Measure): int {
    if sel == [] then 0 else Total(sel[..|sel| - 1], m) + m.Weight(sel[|sel| - 1])
  }

  ghost function Actors(sel: seq<Log>): set<int> {
    set l | l in sel && l.userId.Some? :: l.userId.value
  }

  datatype Tally = Tally(uploadBytes: int, downloadBytes: int, requests: int, gets: int, puts: int, deletes: int,
                         errors: int, active: set<int>)

  const ZERO := Tally(0, 0, 0, 0, 0, 0, 0, {})

  /** A counter's value for the logs it should have seen. */
  ghost function TallyOf(sel: seq<Log>): Tally {
    Tally(Total(sel, BytesOf(Put)), Total(sel, BytesOf(Get)), Total(sel, Logs),
          Total(sel, CountOf(Get)), Total(sel, CountOf(Put)), Total(sel, CountOf(Delete)), Total(sel, Errors), Actors(sel))
  }

  datatype UserTally = UserTally(uploads: int, downloads: int, deletes: int, accesses: int, uploadBytes: int, downloadBytes: int)

  const USER_ZERO := UserTally(0, 0, 0, 0, 0, 0)

  ghost function UserTallyOf(sel: seq<Log>): UserTally {
    UserTally(Total(sel, CountOf(Put)), Total(sel, CountOf(Get)), Total(sel, CountOf(Delete)), Total(sel, Accesses),
              Total(sel, BytesOf(Put)), Total(sel, BytesOf(Get)))
  }

  /** What one more log adds. */
  function Plus(t: Tally, l: Log): Tally {
    var op := OpOf(l.action);
    Tally(t.uploadBytes + if op == Put then l.size else 0,
          t.downloadBytes + if op == Get then l.size else 0,
          t.requests + 1,
          t.gets + if op == Get then 1 else 0,
          t.puts + if op == Put then 1 else 0,
          t.deletes + if op == Delete then 1 else 0,
          t.errors + if l.status != "success" then 1 else 0,
          t.active + if l.userId.Some? then {l.userId.value} else {})
  }

  function UserPlus(t: UserTally, l: Log): UserTally {
    var op := OpOf(l.action);
    UserTally(t.uploads + if op == Put then 1 else 0,
              t.downloads + if op == Get then 1 else 0,
              t.deletes + if op == Delete then 1 else 0,
              t.accesses + if IsAccess(l) then 1 else 0,
              t.uploadBytes + if op == Put then l.size else 0,
              t.downloadBytes + if op == Get then l.size else 0)
  }

  lemma TotalOneMore(sel: seq<Log>, l: Log, m: Measure)
    ensures Total(sel + [l], m) == Total(sel, m) + m.Weight(l)
  {
    assert (sel + [l])[..|sel|] == sel;
  }

  lemma PlusCountsOneMore(sel: seq<Log>, l: Log)
    ensures TallyOf(sel + [l]) == Plus(TallyOf(sel), l)
    ensures UserTallyOf(sel + [l]) == UserPlus(UserTallyOf(sel), l)
  {
    assert (sel + [l])[..|sel|] == sel;
    assert Actors(sel + [l]) == Actors(sel) + if l.userId.Some? then {l.userId.value} else {};
  }

  // ---- The counters ----

  class Counter {
    var uploadBytes: int
    var downloadBytes: int
    var requestCount: int
    var getCount: int
    var putCount: int
    var deleteCount: int
    var errorCount: int
    var active: set<int>

    function Value(): Tally
      reads this
    {
      Tally(uploadBytes, downloadBytes, requestCount, getCount, putCount, deleteCount, errorCount, active)
    }

    constructor ()
      ensures Value() == ZERO
    {
      uploadBytes, downloadBytes, requestCount, getCount := 0, 0, 0, 0;
      putCount, deleteCount, errorCount, active := 0, 0, 0, {};
    }

    method Add(l: Log)
      modifies this
      ensures Value() == Plus(old(Value()), l)
    {
      requestCount := requestCount + 1;
      if l.status != "success" {
        errorCount := errorCount + 1;
      }
      if l.action in GET_ACTIONS {
        getCount := getCount + 1;
        downloadBytes := downloadBytes + l.size;
      } else if l.action in PUT_ACTIONS {
        putCount := putCount + 1;
        uploadBytes := uploadBytes + l.size;
      } else if l.action in DELETE_ACTIONS {
        deleteCount := deleteCount + 1;
      }
      if l.userId.Some? {
        active := active + {l.userId.value};
      }
    }
  }

  class UserCounter {
    const username: Option<string>
    var uploadCount: int
    var downloadCount: int
    var deleteCount: int
    var accessCount: int
    var uploadBytes: int
    var downloadBytes: int

    function Value(): UserTally
      reads this
    {
      UserTally(uploadCount, downloadCount, deleteCount, accessCount, uploadBytes, downloadBytes)
    }

    constructor (username: Option<string>)
      ensures Value() == USER_ZERO && this.username == username
    {
      this.username := username;
      uploadCount, downloadCount, deleteCount, accessCount, uploadBytes, downloadBytes := 0, 0, 0, 0, 0, 0;
    }

    method Add(l: Log)
      modifies this
      ensures Value() == UserPlus(old(Value()), l)
    {
      OpsAreGroups(l.action);
      var key := l.key.GetOr("");
      if l.action in PUT_ACTIONS {
        uploadCount := uploadCount + 1;
        uploadBytes := uploadBytes + l.size;
      } else if l.action in GET_ACTIONS {
        downloadCount := downloadCount + 1;
        downloadBytes := downloadBytes + l.size;
      } else if l.action in DELETE_ACTIONS {
        deleteCount := deleteCount + 1;
      }
      if key != "" {
        if l.action in PUT_ACTIONS {
          accessCount := accessCount + 1;
        } else if l.action in GET_ACTIONS {
          accessCount := accessCount + 1;
        }
      }
    }
  }
}
