/**
 * The scheduler group as a transition system: any number of processes beat,
 * read a member view, plan their share of the work, and for each job claim,
 * enqueue and, when the enqueue fails, drop the claim. Views may disagree,
 * replies may be lost, messages may arrive late, and a process may crash
 * between any two steps.
 */
module Protocol {
  import opened Base
  import opened Sched

  // ---- What is claimed ----

  datatype Kind = Inventory | Trash | Versions | Multipart | Stats {
    function Interval(): int {
      match this
      case Inventory => 15 * MINUTE
      case Trash => HOUR
      case Versions => 6 * HOUR
      case Multipart => 6 * HOUR
      case Stats => HOUR
    }

    function Name(): string {
      match this
      case Inventory => "inventory"
      case Trash => "trash"
      case Versions => "versions"
      case Multipart => "multipart"
      case Stats => "stats"
    }
  }

  datatype Target = BucketId(id: int) | All {
    function Name(): string {
      match this
      case BucketId(id) => IDString(id)
      case All => "all"
    }
  }

  /** One claim: the start of the slot, the type of work and what it is about. */
  datatype Key = Key(slot: int, kind: Kind, target: Target) {
    function End(): int {
      slot + kind.Interval()
    }

    /** The Redis key and asynq task id; `format` formats the whole seconds of the slot start. */
    function RedisName(format: int -> string): string {
      ClaimKey(format(slot / SECOND), kind.Name(), target.Name())
    }

    predicate OnGrid() {
      slot % kind.Interval() == 0
    }
  }

  /** The string keys of two slots' claims coincide only when the claims do. */
  lemma RedisNamesSeparateClaims(format: int -> string, k: Key, k': Key)
    requires forall s, s' :: format(s) == format(s') ==> s == s'
    requires k.OnGrid() && k'.OnGrid()
    requires k.RedisName(format) == k'.RedisName(format)
    ensures k == k'
  {
    TargetNamesDiffer(k.target, k'.target);
    ClaimKeyIsInjective(format(k.slot / SECOND), k.kind.Name(), k.target.Name(),
                        format(k'.slot / SECOND), k'.kind.Name(), k'.target.Name());
    KindNamesDiffer(k.kind, k'.kind);
    GridIsWholeSeconds(k);
    GridIsWholeSeconds(k');
  }

  lemma KindNamesDiffer(a: Kind, b: Kind)
    ensures a.Name() == b.Name() ==> a == b
  {
    var (x, y) := (a.Name(), b.Name());
    assert |x| == |y| ==> (x[0] == y[0] && x[1] == y[1] ==> a == b);
  }

  lemma TargetNamesDiffer(a: Target, b: Target)
    ensures a.Name() == b.Name() ==> a == b
    ensures ':' !in a.Name() && ':' !in b.Name()
  {
    var i, j := if a.BucketId? then a.id else 0, if b.BucketId? then b.id else 0;
    IDStringIsInjective(i, j);
    IDStringIsInjective(j, i);
  }

  lemma GridIsWholeSeconds(k: Key)
    requires k.OnGrid()
    ensures k.slot == SECOND * (k.slot / SECOND)
  {
  }

  /** A claim to try and the time to live it is tried with. */
  datatype Job = Job(key: Key, ttl: int)

  function JobFor(kind: Kind, now: int, target: Target): Job {
    Job(Key(SlotStart(now, kind.Interval()), kind, target), SlotTtl(now, kind.Interval()))
  }

  /** The claims enqueueBuckets tries for one kind of work, in loop order. */
  function BucketJobs(kind: Kind, now: int, view: seq<string>, me: string, items: seq<int>): seq<Job> {
    if items == [] then []
    else
      (if Mine(items[0], view, me) then [JobFor(kind, now, BucketId(items[0]))] else [])
      + BucketJobs(kind, now, view, me, items[1..])
  }

  /** One tick's claims: the four bucket loops when the bucket list was read, then stats. */
  function Plan(now: int, view: seq<string>, me: string, items: Option<seq<int>>): seq<Job> {
    (if items.None? then [] else
      BucketJobs(Inventory, now, view, me, items.value) + BucketJobs(Trash, now, view, me, items.value)
      + BucketJobs(Versions, now, view, me, items.value) + BucketJobs(Multipart, now, view, me, items.value))
    + [JobFor(Stats, now, All)]
  }

  // ---- State ----

  type Proc = nat

  /** A tick under way. History: when the view was `seen`, and whether no claim or enqueue has failed so far. */
  datatype Tick = Tick(now: int, view: seq<string>, seen: int, items: Option<seq<int>>, jobs: seq<Job>, clean: bool)

  datatype PC =
    | Idle
    | Beaten
    | Viewed(view: seq<string>, seen: int)
    | Timed(now: int, view: seq<string>, seen: int)
    | Working(tick: Tick, i: nat)    // about to claim job i, or past the last job
    | Holding(tick: Tick, i: nat)    // job i claimed, about to enqueue
    | Dropping(tick: Tick, i: nat)   // the enqueue failed, about to drop the claim
    | Down

  datatype Process = Process(me: string, pc: PC, last: Option<Tick>)

  /** A claim in Redis. `holder` is history: Redis stores only "1". */
  datatype Lease = Lease(expiry: int, holder: Option<Proc>)

  /** A SET NX whose caller stopped waiting, and a DEL on its way. */
  datatype SetMsg = SetMsg(key: Key, ttl: int)
  datatype DelMsg = DelMsg(key: Key, issuer: Proc)

  datatype State = State(
    clock: int,
    procs: map<Proc, Process>,
    beats: map<string, int>,
    claims: map<Key, Lease>,
    sets: multiset<SetMsg>,
    dels: multiset<DelMsg>,
    queue: set<Key>,            // task ids asynq still knows
    // History, read by no step:
    enqueued: multiset<Key>,    // every task ever stored
    orphaned: set<Key>)         // keys whose claimant was lost before it could enqueue or drop

  predicate Live(s: State, k: Key) {
    k in s.claims && s.clock < s.claims[k].expiry
  }

  ghost predicate Init(s: State) {
    && s.claims == map[] && s.beats == map[]
    && s.sets == multiset{} && s.dels == multiset{} && s.enqueued == multiset{}
    && s.queue == {} && s.orphaned == {}
    && forall p :: p in s.procs ==> s.procs[p].pc == Idle && s.procs[p].last == None
  }

  /** The claim a process holds between its SET NX and its enqueue or DEL. */
  function Busy(pc: PC): Option<Key> {
    match pc
    case Holding(t, i) => if i < |t.jobs| then Some(t.jobs[i].key) else None
    case Dropping(t, i) => if i < |t.jobs| then Some(t.jobs[i].key) else None
    case _ => None
  }

  // ---- Steps ----

  /** What a process does to open and close a tick, and crashes. */
  datatype Move =
    | Beat | BeatFails(landed: bool)
    | ReadMembers(view: seq<string>) | MembersFail
    | ReadClock
    | ListBuckets(items: Option<seq<int>>)
    | Finish
    | Crash | Restart

  /**
   * What a process does about the job it is at, and how Redis and the queue answer. A request whose reply is lost may
   * have been sent, and the client may send it again before it gives the process an answer.
   */
  datatype Work =
    | ClaimWon | ClaimLost | ClaimError(sent: bool) | ClaimResent
    | EnqueueOk | EnqueueConflict | EnqueueError(stored: bool) | EnqueueResent
    | SendDrop

  /** What happens to the shared stores on its own. */
  datatype Drift =
    | Passes(d: nat)
    | SetLands(request: SetMsg) | SetLost(request: SetMsg)
    | DelLands(del: DelMsg, again: bool) | DelLost(del: DelMsg)
    | TaskLeaves(k: Key)

  datatype Event = Moves(p: Proc, move: Move) | Works(p: Proc, work: Work) | Drifts(drift: Drift)

  /** How long the queue knows a task id: as it likes, to the end of the slot, or as long as somebody may still enqueue it. */
  datatype Retention = Anytime | UntilSlotEnds | UntilNobodyHolds

  /** What the code and the stores do not ensure by themselves. */
  datatype Assumptions = Assumptions(
    timelySets: bool,       // a SET NX executes before its slot ends
    singleDels: bool,       // a DEL takes effect at most once
    honestFailures: bool,   // an enqueue whose reply is lost, or that fails without a conflict, stored nothing
    retention: Retention)

  const ASSUMED := Assumptions(true, true, true, Anytime)

  predicate InTick(s: State, p: Proc) {
    p in s.procs && s.procs[p].pc.Working?
  }

  predicate MoveEnabled(s: State, p: Proc, m: Move) {
    p in s.procs &&
    match m
    case Beat => s.procs[p].pc == Idle
    case BeatFails(_) => s.procs[p].pc == Idle
    case ReadMembers(view) => s.procs[p].pc == Beaten && IsView(view, s.procs[p].me)
    case MembersFail => s.procs[p].pc == Beaten
    case ReadClock => s.procs[p].pc.Viewed?
    case ListBuckets(_) => s.procs[p].pc.Timed?
    case Finish => s.procs[p].pc.Working? && s.procs[p].pc.i == |s.procs[p].pc.tick.jobs|
    case Crash => true
    case Restart => s.procs[p].pc == Down
  }

  predicate WorkEnabled(a: Assumptions, s: State, p: Proc, w: Work) {
    match w
    case ClaimWon => AtJob(s, p) && !Live(s, Now(s, p).key) && (a.timelySets ==> s.clock < Now(s, p).key.End())
    case ClaimLost => AtJob(s, p) && Live(s, Now(s, p).key)
    case ClaimError(_) => AtJob(s, p)
    case ClaimResent => AtJob(s, p)
    case EnqueueOk => AtHeld(s, p) && Now(s, p).key !in s.queue
    case EnqueueConflict => AtHeld(s, p) && Now(s, p).key in s.queue
    case EnqueueError(stored) => AtHeld(s, p) && (stored ==> !a.honestFailures && Now(s, p).key !in s.queue)
    case EnqueueResent => AtHeld(s, p) && !a.honestFailures && Now(s, p).key !in s.queue
    case SendDrop => AtDrop(s, p)
  }

  predicate IsHolderOf(pc: PC, k: Key) {
    pc.Holding? && pc.i < |pc.tick.jobs| && pc.tick.jobs[pc.i].key == k
  }

  /** The queue may forget the task. */
  predicate MayLeave(s: State, k: Key, r: Retention) {
    match r
    case Anytime => true
    case UntilSlotEnds => s.clock >= k.End()
    case UntilNobodyHolds => s.clock >= k.End() && forall p :: p in s.procs ==> !IsHolderOf(s.procs[p].pc, k)
  }

  predicate DriftEnabled(a: Assumptions, s: State, d: Drift) {
    match d
    case Passes(_) => true
    case SetLands(m) => m in s.sets && (a.timelySets ==> s.clock < m.key.End())
    case SetLost(m) => m in s.sets
    case DelLands(m, again) => m in s.dels && (again ==> !a.singleDels)
    case DelLost(m) => m in s.dels
    case TaskLeaves(k) => k in s.queue && MayLeave(s, k, a.retention)
  }

  predicate Enabled(a: Assumptions, s: State, e: Event) {
    match e
    case Moves(p, m) => MoveEnabled(s, p, m)
    case Works(p, w) => WorkEnabled(a, s, p, w)
    case Drifts(d) => DriftEnabled(a, s, d)
  }

  predicate AtJob(s: State, p: Proc) {
    InTick(s, p) && s.procs[p].pc.i < |s.procs[p].pc.tick.jobs|
  }

  predicate AtHeld(s: State, p: Proc) {
    p in s.procs && s.procs[p].pc.Holding? && s.procs[p].pc.i < |s.procs[p].pc.tick.jobs|
  }

  predicate AtDrop(s: State, p: Proc) {
    p in s.procs && s.procs[p].pc.Dropping? && s.procs[p].pc.i < |s.procs[p].pc.tick.jobs|
  }

  /** The job a process is at. */
  function Now(s: State, p: Proc): Job
    requires p in s.procs
    requires s.procs[p].pc.Working? || s.procs[p].pc.Holding? || s.procs[p].pc.Dropping?
    requires s.procs[p].pc.i < |s.procs[p].pc.tick.jobs|
  {
    s.procs[p].pc.tick.jobs[s.procs[p].pc.i]
  }

  function Goto(s: State, p: Proc, pc: PC): State
    requires p in s.procs
  {
    s.(procs := s.procs[p := s.procs[p].(pc := pc)])
  }

  /** `time.Now` was read, the bucket list arrived (or failed): plan this tick. */
  function PlanTick(s: State, p: Proc, items: Option<seq<int>>): State
    requires p in s.procs && s.procs[p].pc.Timed?
  {
    var pc := s.procs[p].pc;
    Goto(s, p, Working(Tick(pc.now, pc.view, pc.seen, items, Plan(pc.now, pc.view, s.procs[p].me, items), true), 0))
  }

  function NextJob(s: State, p: Proc): State
    requires AtJob(s, p)
  {
    Goto(s, p, Working(s.procs[p].pc.tick, s.procs[p].pc.i + 1))
  }

  function Won(s: State, p: Proc): State
    requires AtJob(s, p)
  {
    var (pc, job) := (s.procs[p].pc, Now(s, p));
    Goto(s, p, Holding(pc.tick, pc.i)).(
      claims := s.claims[job.key := Lease(s.clock + job.ttl, Some(p))])
  }

  function Unanswered(s: State, p: Proc, sent: bool): State
    requires AtJob(s, p)
  {
    var (pc, job) := (s.procs[p].pc, Now(s, p));
    var s' := Goto(s, p, Working(pc.tick.(clean := false), pc.i + 1));
    if sent then s'.(sets := s.sets + multiset{SetMsg(job.key, job.ttl)}) else s'
  }

  /** A request whose reply was lost is on its way, and the process goes on waiting. */
  function Resent(s: State, p: Proc): State
    requires AtJob(s, p)
  {
    s.(sets := s.sets + multiset{SetMsg(Now(s, p).key, Now(s, p).ttl)})
  }

  function Stored(s: State, k: Key): State {
    s.(queue := s.queue + {k}, enqueued := s.enqueued + multiset{k})
  }

  function AfterEnqueue(s: State, p: Proc): State
    requires AtHeld(s, p)
  {
    Goto(s, p, Working(s.procs[p].pc.tick, s.procs[p].pc.i + 1))
  }

  function Failed(s: State, p: Proc): State
    requires AtHeld(s, p)
  {
    var pc := s.procs[p].pc;
    Goto(s, p, Dropping(pc.tick.(clean := false), pc.i))
  }

  function Dropped(s: State, p: Proc): State
    requires AtDrop(s, p)
  {
    var (pc, k) := (s.procs[p].pc, Now(s, p).key);
    Goto(s, p, Working(pc.tick, pc.i + 1)).(dels := s.dels + multiset{DelMsg(k, p)})
  }

  function Finished(s: State, p: Proc): State
    requires InTick(s, p)
  {
    s.(procs := s.procs[p := s.procs[p].(pc := Idle, last := Some(s.procs[p].pc.tick))])
  }

  function SetArrives(s: State, m: SetMsg): State {
    var s' := s.(sets := s.sets - multiset{m});
    if Live(s, m.key) then s'
    else s'.(claims := s.claims[m.key := Lease(s.clock + m.ttl, None)], orphaned := s.orphaned + {m.key})
  }

  function DelArrives(s: State, m: DelMsg, again: bool): State {
    s.(claims := s.claims - {m.key},
       dels := if again then s.dels else s.dels - multiset{m})
  }

  function Crashed(s: State, p: Proc): State
    requires p in s.procs
  {
    var k := Busy(s.procs[p].pc);
    Goto(s, p, Down).(orphaned := s.orphaned + (if k.Some? then {k.value} else {}))
  }

  function MoveStep(s: State, p: Proc, m: Move): State
    requires MoveEnabled(s, p, m)
  {
    match m
    case Beat => Goto(s, p, Beaten).(beats := s.beats[s.procs[p].me := s.clock + BEAT_TTL])
    case BeatFails(landed) => if landed then s.(beats := s.beats[s.procs[p].me := s.clock + BEAT_TTL]) else s
    case ReadMembers(view) => Goto(s, p, Viewed(view, s.clock))
    case MembersFail => Goto(s, p, Idle)
    case ReadClock => Goto(s, p, Timed(s.clock, s.procs[p].pc.view, s.procs[p].pc.seen))
    case ListBuckets(items) => PlanTick(s, p, items)
    case Finish => Finished(s, p)
    case Crash => Crashed(s, p)
    case Restart => Goto(s, p, Idle)
  }

  function WorkStep(a: Assumptions, s: State, p: Proc, w: Work): State
    requires WorkEnabled(a, s, p, w)
  {
    match w
    case ClaimWon => Won(s, p)
    case ClaimLost => NextJob(s, p)
    case ClaimError(sent) => Unanswered(s, p, sent)
    case ClaimResent => Resent(s, p)
    case EnqueueOk => Stored(AfterEnqueue(s, p), Now(s, p).key)
    case EnqueueConflict => AfterEnqueue(s, p)
    case EnqueueError(stored) => if stored then Stored(Failed(s, p), Now(s, p).key) else Failed(s, p)
    case EnqueueResent => Stored(s, Now(s, p).key)
    case SendDrop => Dropped(s, p)
  }

  function DriftStep(a: Assumptions, s: State, d: Drift): State
    requires DriftEnabled(a, s, d)
  {
    match d
    case Passes(t) => s.(clock := s.clock + t)
    case SetLands(m) => SetArrives(s, m)
    case SetLost(m) => s.(sets := s.sets - multiset{m})
    case DelLands(m, again) => DelArrives(s, m, again)
    case DelLost(m) => s.(dels := s.dels - multiset{m}, orphaned := s.orphaned + {m.key})
    case TaskLeaves(k) => s.(queue := s.queue - {k})
  }

  function Step(a: Assumptions, s: State, e: Event): State
    requires Enabled(a, s, e)
  {
    match e
    case Moves(p, m) => MoveStep(s, p, m)
    case Works(p, w) => WorkStep(a, s, p, w)
    case Drifts(d) => DriftStep(a, s, d)
  }

  // ---- Runs ----

  /** es is a run from s0: each event is enabled in the state the earlier ones lead to. */
  ghost predicate Runs(a: Assumptions, s0: State, es: seq<Event>)
    decreases |es|, 0
  {
    es == [] ||
    (var n := |es| - 1;
     Runs(a, s0, es[..n]) && Enabled(a, After(a, s0, es[..n]), es[n]))
  }

  ghost function After(a: Assumptions, s0: State, es: seq<Event>): State
    requires Runs(a, s0, es)
    decreases |es|, 1
  {
    if es == [] then s0
    else var n := |es| - 1; Step(a, After(a, s0, es[..n]), es[n])
  }

  lemma RunsExtend(a: Assumptions, s0: State, es: seq<Event>, e: Event)
    requires Runs(a, s0, es) && Enabled(a, After(a, s0, es), e)
    ensures Runs(a, s0, es + [e])
    ensures After(a, s0, es + [e]) == Step(a, After(a, s0, es), e)
  {
    assert (es + [e])[..|es|] == es;
  }

  // ---- The invariant ----

  /** A claim made for a tick's job, however late, outlives the job's slot. */
  ghost predicate Reaching(clock: int, t: Tick) {
    forall j :: j in t.jobs ==> clock + j.ttl >= j.key.End()
  }

  ghost predicate PcOk(clock: int, pc: PC) {
    match pc
    case Timed(now, _, _) => now <= clock
    case Working(t, _) => Reaching(clock, t)
    case Holding(t, _) => Reaching(clock, t)
    case Dropping(t, _) => Reaching(clock, t)
    case _ => true
  }

  ghost predicate TicksOk(clock: int, procs: Procs) {
    forall p :: p in procs ==> PcOk(clock, procs[p].pc)
  }

  ghost predicate SetsOk(clock: int, sets: multiset<SetMsg>) {
    forall m :: m in sets ==> clock + m.ttl >= m.key.End()
  }

  type Claims = map<Key, Lease>
  type Procs = map<Proc, Process>

  predicate HeldBy(claims: Claims, k: Key, p: Proc) {
    k in claims && claims[k].holder == Some(p)
  }

  ghost predicate ClaimsReach(claims: Claims) {
    forall k :: k in claims ==> claims[k].expiry >= k.End()
  }

  /** A process between SET NX and enqueue holds the claim, and nothing was stored for it. */
  ghost predicate BusyOk(procs: Procs, claims: Claims, enqueued: multiset<Key>, orphaned: set<Key>) {
    forall p :: p in procs && Busy(procs[p].pc).Some? ==>
      var k := Busy(procs[p].pc).value;
      HeldBy(claims, k, p) && k !in enqueued && k !in orphaned
  }

  /** A DEL on its way is the only one, its issuer has moved on and still holds the claim. */
  ghost predicate DelsOk(procs: Procs, claims: Claims, dels: multiset<DelMsg>, enqueued: multiset<Key>,
        orphaned: set<Key>) {
    forall m :: m in dels ==>
      && dels[m] == 1
      && HeldBy(claims, m.key, m.issuer) && m.key !in enqueued && m.key !in orphaned
      && (m.issuer in procs ==> Busy(procs[m.issuer].pc) != Some(m.key))
  }

  ghost predicate TasksOk(claims: Claims, enqueued: multiset<Key>, queue: set<Key>, orphaned: set<Key>) {
    && (forall k :: k in enqueued ==> enqueued[k] == 1 && k in claims && k !in orphaned)
    && (forall k :: k in orphaned ==> k in claims)
    && (forall k :: k in queue ==> k in enqueued)
  }

  ghost predicate Inv(s: State) {
    && TicksOk(s.clock, s.procs)
    && SetsOk(s.clock, s.sets)
    && ClaimsReach(s.claims)
    && BusyOk(s.procs, s.claims, s.enqueued, s.orphaned)
    && DelsOk(s.procs, s.claims, s.dels, s.enqueued, s.orphaned)
    && TasksOk(s.claims, s.enqueued, s.queue, s.orphaned)
  }

  lemma InitHasInv(s: State)
    requires Init(s)
    ensures Inv(s)
  {
  }

  lemma PlanReaches(clock: int, now: int, view: seq<string>, me: string, items: Option<seq<int>>)
    requires now <= clock
    ensures forall j :: j in Plan(now, view, me, items) ==> clock + j.ttl >= j.key.End()
  {
    SlotsTileTime(now, now, Stats.Interval());
    if items.Some? {
      JobsReach(Inventory, clock, now, view, me, items.value);
      JobsReach(Trash, clock, now, view, me, items.value);
      JobsReach(Versions, clock, now, view, me, items.value);
      JobsReach(Multipart, clock, now, view, me, items.value);
    }
  }

  lemma {:induction false} JobsReach(kind: Kind, clock: int, now: int, view: seq<string>, me: string, items: seq<int>)
    requires now <= clock
    ensures forall j :: j in BucketJobs(kind, now, view, me, items) ==> clock + j.ttl >= j.key.End()
  {
    SlotsTileTime(now, now, kind.Interval());
    if items != [] {
      JobsReach(kind, clock, now, view, me, items[1..]);
    }
  }

  /** A move of one process that holds no claim afterwards and touches no shared table. */
  lemma QuietMove(s: State, s': State, p: Proc, x: Process)
    requires Inv(s) && p in s.procs
    requires s'.procs == s.procs[p := x] && Busy(x.pc) == None && PcOk(s.clock, x.pc)
    requires s'.clock == s.clock && s'.claims == s.claims && s'.sets == s.sets && s'.dels == s.dels
    requires s'.queue == s.queue && s'.enqueued == s.enqueued && s'.orphaned == s.orphaned
    ensures Inv(s')
  {
  }

  lemma TimePasses(s: State, s': State)
    requires Inv(s) && s'.clock >= s.clock
    requires s'.procs == s.procs && s'.claims == s.claims && s'.sets == s.sets && s'.dels == s.dels
    requires s'.queue == s.queue && s'.enqueued == s.enqueued && s'.orphaned == s.orphaned
    ensures Inv(s')
  {
  }

  lemma GrantKeepsBusy(procs: Procs, procs': Procs, claims: Claims, enqueued: multiset<Key>, orphaned: set<Key>,
        k: Key, lease: Lease)
    requires BusyOk(procs, claims, enqueued, orphaned) && k !in claims && k !in enqueued && k !in orphaned
    requires forall q :: q in procs' && Busy(procs'[q].pc).Some? ==>
      && q in procs
      && (Busy(procs'[q].pc) == Busy(procs[q].pc) || (Busy(procs'[q].pc) == Some(k) && lease.holder == Some(q)))
    ensures BusyOk(procs', claims[k := lease], enqueued, orphaned)
    ensures procs' == procs ==> BusyOk(procs', claims[k := lease], enqueued, orphaned + {k})
  {
  }

  lemma GrantKeepsDels(procs: Procs, procs': Procs, claims: Claims, dels: multiset<DelMsg>, enqueued: multiset<Key>,
        orphaned: set<Key>, k: Key, lease: Lease)
    requires DelsOk(procs, claims, dels, enqueued, orphaned) && k !in claims && procs.Keys == procs'.Keys
    requires forall q :: q in procs' && Busy(procs'[q].pc).Some? ==>
      Busy(procs'[q].pc) == Busy(procs[q].pc) || Busy(procs'[q].pc) == Some(k)
    ensures DelsOk(procs', claims[k := lease], dels, enqueued, orphaned)
    ensures DelsOk(procs', claims[k := lease], dels, enqueued, orphaned + {k})
  {
  }

  lemma GrantKeepsTasks(claims: Claims, enqueued: multiset<Key>, queue: set<Key>, orphaned: set<Key>, k: Key,
        lease: Lease)
    requires TasksOk(claims, enqueued, queue, orphaned) && k !in claims
    requires ClaimsReach(claims) && lease.expiry >= k.End()
    ensures ClaimsReach(claims[k := lease])
    ensures TasksOk(claims[k := lease], enqueued, queue, orphaned)
    ensures TasksOk(claims[k := lease], enqueued, queue, orphaned + {k})
  {
  }

  lemma MoveKeepsTicks(clock: int, procs: Procs, p: Proc, x: Process)
    requires TicksOk(clock, procs) && PcOk(clock, x.pc)
    ensures TicksOk(clock, procs[p := x])
  {
  }

  lemma WinningIsSafe(s: State, s': State, p: Proc, x: Process, k: Key, lease: Lease)
    requires Inv(s) && p in s.procs && k !in s.claims
    requires Busy(x.pc) == Some(k) && PcOk(s.clock, x.pc) && lease.holder == Some(p) && lease.expiry >= k.End()
    requires s'.procs == s.procs[p := x] && s'.claims == s.claims[k := lease]
    requires s'.clock == s.clock && s'.sets == s.sets && s'.dels == s.dels
    requires s'.queue == s.queue && s'.enqueued == s.enqueued && s'.orphaned == s.orphaned
    ensures Inv(s')
  {
    MoveKeepsTicks(s.clock, s.procs, p, x);
    assert k !in s.enqueued && k !in s.orphaned;
    GrantKeepsBusy(s.procs, s'.procs, s.claims, s.enqueued, s.orphaned, k, lease);
    GrantKeepsDels(s.procs, s'.procs, s.claims, s.dels, s.enqueued, s.orphaned, k, lease);
    GrantKeepsTasks(s.claims, s.enqueued, s.queue, s.orphaned, k, lease);
  }

  lemma LateSetIsSafe(s: State, s': State, k: Key, lease: Lease)
    requires Inv(s) && k !in s.claims && lease.expiry >= k.End()
    requires s'.claims == s.claims[k := lease] && s'.orphaned == s.orphaned + {k} && s'.sets <= s.sets
    requires s'.clock == s.clock && s'.procs == s.procs && s'.dels == s.dels
    requires s'.queue == s.queue && s'.enqueued == s.enqueued
    ensures Inv(s')
  {
    GrantKeepsTasks(s.claims, s.enqueued, s.queue, s.orphaned, k, lease);
    GrantKeepsBusy(s.procs, s.procs, s.claims, s.enqueued, s.orphaned, k, lease);
    GrantKeepsDels(s.procs, s.procs, s.claims, s.dels, s.enqueued, s.orphaned, k, lease);
  }

  lemma EnqueueIsSafe(s: State, s': State, p: Proc, x: Process, k: Key)
    requires Inv(s) && p in s.procs && Busy(s.procs[p].pc) == Some(k)
    requires Busy(x.pc) == None && PcOk(s.clock, x.pc)
    requires s'.procs == s.procs[p := x] && s'.enqueued == s.enqueued + multiset{k} && s'.queue == s.queue + {k}
    requires s'.clock == s.clock && s'.claims == s.claims && s'.sets == s.sets && s'.dels == s.dels
    requires s'.orphaned == s.orphaned
    ensures Inv(s')
  {
    assert HeldBy(s.claims, k, p);
    assert forall m :: m in s.dels ==> m.key != k;
  }

  lemma SendDropIsSafe(s: State, s': State, p: Proc, x: Process, k: Key)
    requires Inv(s) && p in s.procs && Busy(s.procs[p].pc) == Some(k)
    requires Busy(x.pc) == None && PcOk(s.clock, x.pc)
    requires s'.procs == s.procs[p := x] && s'.dels == s.dels + multiset{DelMsg(k, p)}
    requires s'.clock == s.clock && s'.claims == s.claims && s'.sets == s.sets
    requires s'.queue == s.queue && s'.enqueued == s.enqueued && s'.orphaned == s.orphaned
    ensures Inv(s')
  {
    assert HeldBy(s.claims, k, p);
    assert DelMsg(k, p) !in s.dels;
  }

  lemma RevokeKeepsBusy(procs: Procs, claims: Claims, enqueued: multiset<Key>, orphaned: set<Key>, k: Key)
    requires BusyOk(procs, claims, enqueued, orphaned)
    requires forall q :: q in procs ==> Busy(procs[q].pc) != Some(k)
    ensures BusyOk(procs, claims - {k}, enqueued, orphaned)
  {
  }

  lemma RevokeKeepsDels(procs: Procs, claims: Claims, dels: multiset<DelMsg>, enqueued: multiset<Key>,
        orphaned: set<Key>, m: DelMsg)
    requires DelsOk(procs, claims, dels, enqueued, orphaned) && m in dels
    ensures DelsOk(procs, claims - {m.key}, dels - multiset{m}, enqueued, orphaned)
  {
    assert forall m' :: m' in dels - multiset{m} ==> m' in dels && m' != m;
  }

  lemma RevokeKeepsTasks(claims: Claims, enqueued: multiset<Key>, queue: set<Key>, orphaned: set<Key>, k: Key)
    requires TasksOk(claims, enqueued, queue, orphaned) && k !in enqueued && k !in orphaned
    ensures TasksOk(claims - {k}, enqueued, queue, orphaned)
  {
  }

  lemma DelIsSafe(s: State, s': State, m: DelMsg)
    requires Inv(s) && m in s.dels
    requires s'.claims == s.claims - {m.key} && s'.dels == s.dels - multiset{m}
    requires s'.clock == s.clock && s'.procs == s.procs && s'.sets == s.sets
    requires s'.queue == s.queue && s'.enqueued == s.enqueued && s'.orphaned == s.orphaned
    ensures Inv(s')
  {
    RevokeKeepsBusy(s.procs, s.claims, s.enqueued, s.orphaned, m.key);
    RevokeKeepsDels(s.procs, s.claims, s.dels, s.enqueued, s.orphaned, m);
    RevokeKeepsTasks(s.claims, s.enqueued, s.queue, s.orphaned, m.key);
  }

  /** The claim of a lost claimant, or of a lost DEL, stays behind. */
  lemma OrphanIsSafe(s: State, s': State, k: Key)
    requires Inv(s) && k in s.claims && k !in s.enqueued
    requires forall p :: p in s'.procs ==>
      && p in s.procs && PcOk(s.clock, s'.procs[p].pc)
      && (Busy(s'.procs[p].pc) == None || (Busy(s'.procs[p].pc) == Busy(s.procs[p].pc) != Some(k)))
    requires s'.dels <= s.dels && forall m :: m in s'.dels ==> m.key != k
    requires s'.orphaned == s.orphaned + {k}
    requires s'.clock == s.clock && s'.claims == s.claims && s'.sets == s.sets
    requires s'.queue == s.queue && s'.enqueued == s.enqueued
    ensures Inv(s')
  {
  }

  /** A claim somebody is busy with is nobody else's, and no DEL for it is on its way. */
  lemma HolderIsLost(s: State, s': State, p: Proc, x: Process, k: Key)
    requires Inv(s) && p in s.procs && Busy(s.procs[p].pc) == Some(k) && Busy(x.pc) == None && PcOk(s.clock, x.pc)
    requires s'.procs == s.procs[p := x] && s'.orphaned == s.orphaned + {k}
    requires s'.clock == s.clock && s'.claims == s.claims && s'.sets == s.sets && s'.dels == s.dels
    requires s'.queue == s.queue && s'.enqueued == s.enqueued
    ensures Inv(s')
  {
    assert HeldBy(s.claims, k, p);
    OrphanIsSafe(s, s', k);
  }

  lemma FewerMessagesAreSafe(s: State, s': State)
    requires Inv(s)
    requires s'.sets <= s.sets && s'.queue <= s.queue
    requires s'.clock == s.clock && s'.procs == s.procs && s'.claims == s.claims && s'.dels == s.dels
    requires s'.enqueued == s.enqueued && s'.orphaned == s.orphaned
    ensures Inv(s')
  {
  }

  lemma LateRequestIsSafe(s: State, s': State, p: Proc, x: Process, m: SetMsg)
    requires Inv(s) && p in s.procs && Busy(x.pc) == None && PcOk(s.clock, x.pc) && s.clock + m.ttl >= m.key.End()
    requires s'.procs == s.procs[p := x] && s'.sets == s.sets + multiset{m}
    requires s'.clock == s.clock && s'.claims == s.claims && s'.dels == s.dels
    requires s'.queue == s.queue && s'.enqueued == s.enqueued && s'.orphaned == s.orphaned
    ensures Inv(s')
  {
    var mid := s.(procs := s'.procs);
    QuietMove(s, mid, p, x);
    OneMoreRequestIsSafe(mid, s', m);
  }

  lemma OneMoreRequestIsSafe(s: State, s': State, m: SetMsg)
    requires Inv(s) && s.clock + m.ttl >= m.key.End() && s'.sets == s.sets + multiset{m}
    requires s'.clock == s.clock && s'.procs == s.procs && s'.claims == s.claims && s'.dels == s.dels
    requires s'.queue == s.queue && s'.enqueued == s.enqueued && s'.orphaned == s.orphaned
    ensures Inv(s')
  {
  }

  lemma StillHolding(s: State, s': State, p: Proc, x: Process)
    requires Inv(s) && p in s.procs && Busy(x.pc) == Busy(s.procs[p].pc) && PcOk(s.clock, x.pc)
    requires s'.procs == s.procs[p := x]
    requires s'.clock == s.clock && s'.claims == s.claims && s'.sets == s.sets && s'.dels == s.dels
    requires s'.queue == s.queue && s'.enqueued == s.enqueued && s'.orphaned == s.orphaned
    ensures Inv(s')
  {
  }

  lemma NowReaches(s: State, p: Proc)
    requires TicksOk(s.clock, s.procs) && AtJob(s, p)
    ensures s.clock + Now(s, p).ttl >= Now(s, p).key.End()
  {
    assert Reaching(s.clock, s.procs[p].pc.tick) && Now(s, p) in s.procs[p].pc.tick.jobs;
  }

  lemma WonKeepsInv(s: State, p: Proc)
    requires Inv(s) && AtJob(s, p) && !Live(s, Now(s, p).key) && s.clock < Now(s, p).key.End()
    ensures Inv(Won(s, p))
  {
    var (k, s') := (Now(s, p).key, Won(s, p));
    NowReaches(s, p);
    WinningIsSafe(s, s', p, s'.procs[p], k, s'.claims[k]);
  }

  lemma UnansweredKeepsInv(s: State, p: Proc, sent: bool)
    requires Inv(s) && AtJob(s, p)
    ensures Inv(Unanswered(s, p, sent))
  {
    var s' := Unanswered(s, p, sent);
    NowReaches(s, p);
    if sent {
      LateRequestIsSafe(s, s', p, s'.procs[p], SetMsg(Now(s, p).key, Now(s, p).ttl));
    } else {
      QuietMove(s, s', p, s'.procs[p]);
    }
  }

  lemma ResentKeepsInv(s: State, p: Proc)
    requires Inv(s) && AtJob(s, p)
    ensures Inv(Resent(s, p))
  {
    NowReaches(s, p);
    OneMoreRequestIsSafe(s, Resent(s, p), SetMsg(Now(s, p).key, Now(s, p).ttl));
  }

  lemma EnqueueKeepsInv(s: State, p: Proc)
    requires Inv(s) && AtHeld(s, p)
    ensures Inv(Stored(AfterEnqueue(s, p), Now(s, p).key))
    ensures Inv(AfterEnqueue(s, p))
    ensures Inv(Failed(s, p))
  {
    var (k, ok, next, failed) := (Now(s, p).key, Stored(AfterEnqueue(s, p), Now(s, p).key), AfterEnqueue(s, p), Failed(s, p));
    EnqueueIsSafe(s, ok, p, ok.procs[p], k);
    QuietMove(s, next, p, next.procs[p]);
    StillHolding(s, failed, p, failed.procs[p]);
  }

  lemma WorkKeepsInv(s: State, p: Proc, w: Work)
    requires Inv(s) && WorkEnabled(ASSUMED, s, p, w)
    ensures Inv(WorkStep(ASSUMED, s, p, w))
  {
    var s' := WorkStep(ASSUMED, s, p, w);
    if w.ClaimLost? {
      QuietMove(s, s', p, s'.procs[p]);
    } else if w.ClaimWon? {
      WonKeepsInv(s, p);
    } else if w.ClaimError? {
      UnansweredKeepsInv(s, p, w.sent);
    } else if w.ClaimResent? {
      ResentKeepsInv(s, p);
    } else if w.SendDrop? {
      SendDropIsSafe(s, s', p, s'.procs[p], Now(s, p).key);
    } else {
      EnqueueKeepsInv(s, p);
    }
  }

  lemma LostDelKeepsInv(s: State, s': State, m: DelMsg)
    requires Inv(s) && m in s.dels
    requires s' == s.(dels := s.dels - multiset{m}, orphaned := s.orphaned + {m.key})
    ensures Inv(s')
  {
    assert forall m' :: m' in s'.dels ==> m' in s.dels && m' != m;
    OrphanIsSafe(s, s', m.key);
  }

  lemma SetArrivesSafely(s: State, m: SetMsg)
    requires Inv(s) && m in s.sets && s.clock < m.key.End()
    ensures Inv(SetArrives(s, m))
  {
    var s' := SetArrives(s, m);
    if Live(s, m.key) {
      FewerMessagesAreSafe(s, s');
    } else {
      LateSetIsSafe(s, s', m.key, s'.claims[m.key]);
    }
  }

  lemma DriftKeepsInv(s: State, d: Drift)
    requires Inv(s) && DriftEnabled(ASSUMED, s, d)
    ensures Inv(DriftStep(ASSUMED, s, d))
  {
    var s' := DriftStep(ASSUMED, s, d);
    if d.Passes? {
      TimePasses(s, s');
    } else if d.SetLands? {
      SetArrivesSafely(s, d.request);
    } else if d.DelLands? {
      DelIsSafe(s, s', d.del);
    } else if d.DelLost? {
      LostDelKeepsInv(s, s', d.del);
    } else {
      FewerMessagesAreSafe(s, s');
    }
  }

  lemma PlanKeepsInv(s: State, p: Proc, items: Option<seq<int>>)
    requires Inv(s) && p in s.procs && s.procs[p].pc.Timed?
    ensures Inv(PlanTick(s, p, items))
  {
    var (s', x) := (PlanTick(s, p, items), s.procs[p]);
    PlanReaches(s.clock, x.pc.now, x.pc.view, x.me, items);
    QuietMove(s, s', p, s'.procs[p]);
  }

  lemma CrashKeepsInv(s: State, p: Proc)
    requires Inv(s) && p in s.procs
    ensures Inv(Crashed(s, p))
  {
    var (s', k) := (Crashed(s, p), Busy(s.procs[p].pc));
    if k.Some? {
      HolderIsLost(s, s', p, s'.procs[p], k.value);
    } else {
      QuietMove(s, s', p, s'.procs[p]);
    }
  }


  lemma LateBeatKeepsInv(s: State, p: Proc, landed: bool)
    requires Inv(s) && MoveEnabled(s, p, BeatFails(landed))
    ensures Inv(MoveStep(s, p, BeatFails(landed)))
  {
    TimePasses(s, MoveStep(s, p, BeatFails(landed)));
  }

  lemma MoveKeepsInv(s: State, p: Proc, m: Move)
    requires Inv(s) && MoveEnabled(s, p, m)
    ensures Inv(MoveStep(s, p, m))
  {
    if m.ListBuckets? {
      PlanKeepsInv(s, p, m.items);
    } else if m.Crash? {
      CrashKeepsInv(s, p);
    } else if m.BeatFails? {
      LateBeatKeepsInv(s, p, m.landed);
    } else {
      var s' := MoveStep(s, p, m);
      QuietMove(s, s', p, s'.procs[p]);
    }
  }

  lemma StepKeepsInv(s: State, e: Event)
    requires Inv(s) && Enabled(ASSUMED, s, e)
    ensures Inv(Step(ASSUMED, s, e))
  {
    match e
    case Moves(p, m) => MoveKeepsInv(s, p, m);
    case Works(p, w) => WorkKeepsInv(s, p, w);
    case Drifts(d) => DriftKeepsInv(s, d);
  }
}
