/**
 * Coordination plane B: single-owner room actors with lease fencing
 * (video-sync-backend/src/sync/actor-room-state.store.ts and its Lua scripts).
 *
 * One room, any number of instances. An instance that owns the room answers from a cached
 * timeline and commits through a script guarded by its lease; every script execution is atomic,
 * and the instances' local steps interleave with the scripts, with lease expiry, with reclaims
 * and with each other in every possible way. A step that is not enabled changes nothing.
 */
module ActorPlane {
  import opened Common
  import opened Timelines
  import opened Replay
  import opened RoomStore
  import opened RoomRuns
  import opened Clients

  type Instance = string

  datatype Lease = Lease(owner: Instance, epoch: string)

  /** The in-memory authority of an owner. */
  datatype Entry = Entry(fence: string, timeline: Timeline)

  datatype Command = Command(commit: Commit, at: real, author: string, cmdId: Option<string>,
                             forVideoId: Option<Option<string>>)

  datatype Reply = Rejected | Dup(timeline: Timeline) | VideoFenced(timeline: Timeline) | Accepted(timeline: Timeline)

  /** The one operation at the head of an instance's queue for the room. */
  datatype Task =
    | Claiming(cmd: Command)                                       // found the room unowned, a claim is under way
    | Observed(cmd: Command, lease: Lease)                         // somebody else holds the lease
    | Claimed(cmd: Command, fence: string)                         // holds the lease, must look at the state
    | Reading(cmd: Command, fence: string)                         // no local entry, a read is under way
    | Loaded(cmd: Command, fence: string, timeline: Timeline)      // state read, not yet installed
    | Sent(cmd: Command, fence: string, base: Timeline)            // commit computed from `base`, under way
    | Answered(cmd: Command, fence: string, reply: Reply, ahead: nat) // script ran; `ahead` init replies come first

  /** The dedup keys of the room with their expiry, and every identified commit so far, keyed or not. */
  datatype Records = Records(live: map<string, real>, receipts: seq<Receipt>)

  predicate Recorded(r: Records, id: string, now: real) {
    id in Unexpired(r.live, now)
  }

  /** An identified commit; the script sets the key only if it found a stored state. */
  function Record(r: Records, id: string, now: real, keyed: bool): Records {
    Records(if keyed then Unexpired(r.live, now)[id := now + CMD_DEDUP_TTL_MS] else r.live,
            r.receipts + [Receipt(id, now)])
  }

  ghost predicate Truthful(r: Records, now: real) {
    Faithful(r.live, r.receipts, now)
  }

  datatype Plane = Plane(
    lease: Option<Lease>, stored: Option<Timeline>, records: Records, now: real,
    owned: map<Instance, Entry>, tasks: map<Instance, Task>,
    inits: map<Instance, seq<Entry>>, // answers of init scripts not yet cached, oldest first
    newest: real,                     // numeric value of the last minted epoch
    stream: seq<Timeline>)            // every committed state, in order

  datatype Action =
    | Claim(i: Instance, minted: string)    // renewal sweep, or the claim inside init
    | Ask(i: Instance, cmd: Command)        // a control meets a room this instance does not own
    | ClaimFor(i: Instance, minted: string) // its claim script runs
    | Forward(i: Instance)                  // it is left to the owner
    | Persist(i: Instance)                  // the owner did not listen: claim again
    | Reclaim(observed: Lease)              // compare-and-delete of a lease seen earlier
    | Look(i: Instance)                     // `get` under a claimed fence: the local entry, else a read
    | Read(i: Instance)
    | Install(i: Instance)
    | Begin(i: Instance, cmd: Command)      // a control or sweep served from the cache
    | Execute(i: Instance)
    | Handle(i: Instance)
    | Fail(i: Instance)                     // the operation ends in an error, its reply lost
    | InitScript(i: Instance, fence: string, videoId: Option<string>, mediaTime: real)
    | InitCached(i: Instance)               // the answer of an init script arrives and is cached
    | Drop(i: Instance)                     // lease lost, room cleared here, crash, or restart
    | Clear                                 // both keys of the room are deleted
    | LeaseExpires
    | TimelineExpires
    | Tick(now: real)

  /** The scripts encode an absent value as the empty string. */
  function Wire(v: Option<string>): Option<string> {
    if v == Some("") then None else v
  }

  function AfterClaim(p: Plane, number: string -> Reading, i: Instance, minted: string): Plane {
    if p.lease.Some? then p
    else p.(lease := Some(Lease(i, minted)),
            newest := if number(minted).Finite? then number(minted).value else p.newest)
  }

  /** seq restarts when the fence advances. */
  function NextSeq(p: Plane, fence: string): int {
    if p.stored.Some? && p.stored.value.storeEpoch == fence then p.stored.value.seqNo + 1 else 1
  }

  /** What the script writes: the six fields the call sends, stamped by the store. */
  function Stamp(next: Timeline, fence: string, seqNo: int, now: real): Timeline {
    Timeline(seqNo, fence, Wire(next.videoId), next.isPlaying, next.mediaTime, now, next.reason, Wire(next.author))
  }

  predicate Identified(cmd: Command) {
    cmd.cmdId.Some? && cmd.cmdId.value != ""
  }

  function Effect(prev: Timeline, cmd: Command): Timeline {
    Perform(prev, cmd.commit, cmd.at, cmd.author)
  }

  /** actor_commit.lua */
  function CommitScript(p: Plane, i: Instance, cmd: Command, fence: string, base: Timeline): (Plane, Reply) {
    if p.lease != Some(Lease(i, fence)) then (p, Rejected)
    else if Identified(cmd) && p.stored.Some? && Recorded(p.records, cmd.cmdId.value, p.now) then
      (p, Dup(p.stored.value))
    else if cmd.forVideoId.Some? && p.stored.Some? && Wire(p.stored.value.videoId) != Wire(cmd.forVideoId.value) then
      (p, VideoFenced(p.stored.value))
    else
      var tl := Stamp(Effect(base, cmd), fence, NextSeq(p, fence), p.now);
      var p' := p.(stored := Some(tl), stream := p.stream + [tl]);
      if Identified(cmd) then (p'.(records := Record(p.records, cmd.cmdId.value, p.now, p.stored.Some?)), Accepted(tl))
      else (p', Accepted(tl))
  }

  function AfterHandle(p: Plane, i: Instance, reply: Reply): Plane {
    var p' := p.(tasks := p.tasks - {i});
    if reply.Rejected? then p'.(owned := p.owned - {i})
    else if i in p.owned then p'.(owned := p.owned[i := p.owned[i].(timeline := reply.timeline)])
    else p'
  }

  function Pending(p: Plane, i: Instance): seq<Entry> {
    if i in p.inits then p.inits[i] else []
  }

  /** actor_init.lua: create the state if there is none, answer with it; the answer carries no author. */
  function AfterInitScript(p: Plane, i: Instance, fence: string, videoId: Option<string>, mediaTime: real): Plane {
    if p.lease != Some(Lease(i, fence)) then p
    else
      var born := Timeline(0, fence, Wire(videoId), false, mediaTime, p.now, Join, None);
      var p' := if p.stored.Some? then p else p.(stored := Some(born), stream := p.stream + [born]);
      p'.(inits := p.inits[i := Pending(p, i) + [Entry(fence, p'.stored.value.(author := None))]])
  }

  function AfterInitCached(p: Plane, i: Instance): Plane {
    if Pending(p, i) == [] then p
    else
      var p' := p.(owned := p.owned[i := Pending(p, i)[0]], inits := p.inits[i := Pending(p, i)[1..]]);
      if i in p.tasks && p.tasks[i].Answered? && p.tasks[i].ahead > 0
      then p'.(tasks := p.tasks[i := p.tasks[i].(ahead := p.tasks[i].ahead - 1)])
      else p'
  }

  function Next(number: string -> Reading, p: Plane, a: Action): Plane {
    match a
    case Claim(i, minted) => AfterClaim(p, number, i, minted)
    case Ask(i, cmd) => if i in p.owned || i in p.tasks then p else p.(tasks := p.tasks[i := Claiming(cmd)])
    case ClaimFor(i, minted) =>
      if i !in p.tasks || !p.tasks[i].Claiming? then p
      else
        var p', cmd := AfterClaim(p, number, i, minted), p.tasks[i].cmd;
        var lease := p'.lease.value;
        p'.(tasks := p'.tasks[i := if lease.owner == i then Claimed(cmd, lease.epoch) else Observed(cmd, lease)])
    case Forward(i) => if i !in p.tasks || !p.tasks[i].Observed? then p else p.(tasks := p.tasks - {i})
    case Persist(i) =>
      if i !in p.tasks || !p.tasks[i].Observed? then p else p.(tasks := p.tasks[i := Claiming(p.tasks[i].cmd)])
    case Reclaim(observed) => if p.lease == Some(observed) then p.(lease := None) else p
    case Look(i) =>
      if i !in p.tasks || !p.tasks[i].Claimed? then p
      else
        var Claimed(cmd, fence) := p.tasks[i];
        p.(tasks := p.tasks[i := if i in p.owned then Loaded(cmd, fence, p.owned[i].timeline) else Reading(cmd, fence)])
    case Read(i) =>
      if i !in p.tasks || !p.tasks[i].Reading? then p
      else if p.stored.None? then p.(tasks := p.tasks - {i})
      else p.(tasks := p.tasks[i := Loaded(p.tasks[i].cmd, p.tasks[i].fence, p.stored.value)])
    case Install(i) =>
      if i !in p.tasks || !p.tasks[i].Loaded? then p
      else
        var Loaded(cmd, fence, tl) := p.tasks[i];
        p.(owned := p.owned[i := Entry(fence, tl)], tasks := p.tasks[i := Sent(cmd, fence, tl)])
    case Begin(i, cmd) =>
      if i !in p.owned || i in p.tasks || (cmd.commit.Sweep? && !p.owned[i].timeline.isPlaying) then p
      else p.(tasks := p.tasks[i := Sent(cmd, p.owned[i].fence, p.owned[i].timeline)])
    case Execute(i) =>
      if i !in p.tasks || !p.tasks[i].Sent? then p
      else
        var Sent(cmd, fence, base) := p.tasks[i];
        var (p', reply) := CommitScript(p, i, cmd, fence, base);
        p'.(tasks := p'.tasks[i := Answered(cmd, fence, reply, |Pending(p, i)|)])
    case Handle(i) => if i !in p.tasks || !p.tasks[i].Answered? then p else AfterHandle(p, i, p.tasks[i].reply)
    case Fail(i) => p.(tasks := p.tasks - {i})
    case InitScript(i, fence, videoId, mediaTime) => AfterInitScript(p, i, fence, videoId, mediaTime)
    case InitCached(i) => AfterInitCached(p, i)
    case Drop(i) => p.(owned := p.owned - {i})
    case Clear => p.(stored := None, lease := None)
    case LeaseExpires => p.(lease := None)
    case TimelineExpires => p.(stored := None)
    case Tick(now) => p.(now := now)
  }

  /**
   * The assumptions on the shared store: a newly minted epoch reads as a number above every
   * earlier one, its clock does not run backwards, it does not expire the timeline of a room
   * whose lease is live, and it answers the scripts of one instance in the order it ran them.
   */
  ghost predicate Legal(number: string -> Reading, p: Plane, a: Action) {
    match a
    case Claim(_, minted) => number(minted).Finite? && number(minted).value > p.newest
    case ClaimFor(_, minted) => number(minted).Finite? && number(minted).value > p.newest
    case Tick(now) => p.now <= now
    case TimelineExpires => p.lease.None?
    case Handle(i) => i in p.tasks && p.tasks[i].Answered? ==> p.tasks[i].ahead == 0
    case InitCached(i) => i in p.tasks && p.tasks[i].Answered? ==> p.tasks[i].ahead > 0
    case _ => true
  }

  function Run(number: string -> Reading, p: Plane, actions: seq<Action>): Plane
    decreases |actions|
  {
    if actions == [] then p else Run(number, Next(number, p, actions[0]), actions[1..])
  }

  ghost predicate LegalRun(number: string -> Reading, p: Plane, actions: seq<Action>)
    decreases |actions|
  {
    actions == [] || (Legal(number, p, actions[0]) && LegalRun(number, Next(number, p, actions[0]), actions[1..]))
  }

  // ---- the two steps that can go wrong ----

  ghost predicate Holds(p: Plane, i: Instance, fence: string) {
    p.lease == Some(Lease(i, fence))
  }

  /** Equal but for the author, which no commit depends on. */
  ghost predicate SameState(a: Timeline, b: Timeline) {
    a.(author := None) == b.(author := None)
  }

  /** If the fence is live, then `tl` is what the shared store holds. */
  ghost predicate Current(p: Plane, i: Instance, fence: string, tl: Timeline) {
    Holds(p, i, fence) ==> p.stored.Some? && SameState(tl, p.stored.value)
  }

  /**
   * `get` is about to return a local entry cached under another fence than the one just claimed,
   * and the store has moved on. The source compares no fences there.
   */
  ghost predicate StaleLook(p: Plane, i: Instance) {
    && i in p.tasks && p.tasks[i].Claimed? && i in p.owned
    && p.owned[i].fence != p.tasks[i].fence
    && !Current(p, i, p.tasks[i].fence, p.owned[i].timeline)
  }

  /** The reply of an accepted commit is lost while the entry it should have updated is still trusted. */
  ghost predicate LostCommit(p: Plane, i: Instance) {
    && i in p.tasks && p.tasks[i].Answered? && p.tasks[i].reply.Accepted? && Holds(p, i, p.tasks[i].fence)
    && (|| (i in p.owned && p.owned[i].fence == p.tasks[i].fence)
        || exists k :: 0 <= k < p.tasks[i].ahead && k < |Pending(p, i)| && Pending(p, i)[k].fence == p.tasks[i].fence)
  }

  ghost predicate Harmful(p: Plane, a: Action) {
    (a.Look? && StaleLook(p, a.i)) || (a.Fail? && LostCommit(p, a.i))
  }

  /** A legal run without a harmful step. */
  ghost predicate CleanRun(number: string -> Reading, p: Plane, actions: seq<Action>)
    decreases |actions|
  {
    actions == [] ||
    (Legal(number, p, actions[0]) && !Harmful(p, actions[0]) &&
        CleanRun(number, Next(number, p, actions[0]), actions[1..]))
  }

  // ---- the invariant ----

  ghost predicate Known(number: string -> Reading, p: Plane, fence: string) {
    number(fence).Finite? && number(fence).value <= p.newest
  }

  ghost predicate Right(number: string -> Reading, p: Plane, i: Instance, e: Entry) {
    Known(number, p, e.fence) && Current(p, i, e.fence, e.timeline)
  }

  /** A reply under way will overwrite the cached timeline. */
  ghost predicate Overwriting(p: Plane, i: Instance) {
    i in p.tasks && p.tasks[i].Answered? && !p.tasks[i].reply.Rejected?
  }

  /** The reply of an accepted commit is under way. */
  ghost predicate Committing(p: Plane, i: Instance) {
    i in p.tasks && p.tasks[i].Answered? && p.tasks[i].reply.Accepted?
  }

  /**
   * An entry from before the script that the reply under way answers: it is trusted only under
   * the fence of that script, and an accepted commit has left it behind.
   */
  ghost predicate Behind(number: string -> Reading, p: Plane, i: Instance, e: Entry)
    requires Overwriting(p, i)
  {
    var Answered(_, fence, reply, _) := p.tasks[i];
    && Known(number, p, e.fence)
    && (e.fence != fence ==> !Holds(p, i, e.fence))
    && (if reply.Accepted? then e.fence == fence && Holds(p, i, fence) ==> !SameState(e.timeline, reply.timeline)
        else Current(p, i, e.fence, e.timeline))
  }

  ghost predicate EntrySound(number: string -> Reading, p: Plane, i: Instance, e: Entry, early: bool) {
    if early && Overwriting(p, i) then Behind(number, p, i, e) else Right(number, p, i, e)
  }

  /** Did the script of the k-th init answer run before that of the reply under way? */
  ghost predicate Early(p: Plane, i: Instance, k: int) {
    i in p.tasks && p.tasks[i].Answered? && k < p.tasks[i].ahead
  }

  ghost predicate OwnerSound(number: string -> Reading, p: Plane, i: Instance) {
    i in p.owned ==> EntrySound(number, p, i, p.owned[i], true)
  }

  ghost predicate PendingSound(number: string -> Reading, p: Plane, i: Instance) {
    forall k | 0 <= k < |Pending(p, i)| :: EntrySound(number, p, i, Pending(p, i)[k], Early(p, i, k))
  }

  ghost predicate TaskSound(number: string -> Reading, p: Plane, i: Instance) {
    i in p.tasks && !p.tasks[i].Claiming? && !p.tasks[i].Observed? ==>
      && Known(number, p, p.tasks[i].fence)
      && (p.tasks[i].Loaded? ==> Current(p, i, p.tasks[i].fence, p.tasks[i].timeline))
      && (p.tasks[i].Sent? ==> Current(p, i, p.tasks[i].fence, p.tasks[i].base))
      && (p.tasks[i].Answered? ==> p.tasks[i].ahead <= |Pending(p, i)|)
      && (Overwriting(p, i) ==> Current(p, i, p.tasks[i].fence, p.tasks[i].reply.timeline))
  }

  ghost predicate Sound(number: string -> Reading, p: Plane, i: Instance) {
    OwnerSound(number, p, i) && PendingSound(number, p, i) && TaskSound(number, p, i)
  }

  ghost predicate InstancesSound(number: string -> Reading, p: Plane) {
    forall i :: Sound(number, p, i)
  }

  ghost predicate LeaseIsNewest(number: string -> Reading, p: Plane) {
    p.lease.Some? ==> number(p.lease.value.epoch) == Finite(p.newest)
  }

  /** Epochs in the past are numerically below the live lease, which carries the newest one. */
  ghost predicate StreamSound(number: string -> Reading, p: Plane) {
    && Increasing(number, p.stream)
    && LeaseIsNewest(number, p)
    && (forall tl | tl in p.stream :: Known(number, p, tl.storeEpoch))
    && (p.lease.Some? ==>
          forall tl | tl in p.stream ::
            (p.stored.Some? && tl.storeEpoch == p.lease.value.epoch) || number(tl.storeEpoch).value < p.newest)
    && (p.stored.Some? ==> p.stream != [] && p.stream[|p.stream| - 1] == p.stored.value)
  }

  ghost predicate Inv(number: string -> Reading, p: Plane) {
    InstancesSound(number, p) && StreamSound(number, p) && Truthful(p.records, p.now)
  }

  // A fresh epoch is held by nobody yet.
  lemma ClaimKeepsSound(number: string -> Reading, p: Plane, i: Instance, minted: string, j: Instance)
    requires Sound(number, p, j) && number(minted).Finite? && number(minted).value > p.newest
    ensures Sound(number, AfterClaim(p, number, i, minted), j)
  {
    var p' := AfterClaim(p, number, i, minted);
    forall k | 0 <= k < |Pending(p, j)|
      ensures EntrySound(number, p', j, Pending(p', j)[k], Early(p', j, k))
    {
      assert EntrySound(number, p, j, Pending(p, j)[k], Early(p, j, k));
    }
  }

  /** A step that leaves the store and the newest epoch alone may move a task that no reply is under way for. */
  lemma MoveKeepsSound(number: string -> Reading, p: Plane, p': Plane, j: Instance)
    requires Sound(number, p, j) && !Overwriting(p, j) && !Overwriting(p', j)
    requires p'.lease == p.lease && p'.stored == p.stored && p'.newest == p.newest && Pending(p', j) == Pending(p, j)
    requires j in p'.owned ==> (j in p.owned && p'.owned[j] == p.owned[j]) || Right(number, p', j, p'.owned[j])
    requires TaskSound(number, p', j)
    ensures Sound(number, p', j)
  {
    forall k | 0 <= k < |Pending(p, j)|
      ensures EntrySound(number, p', j, Pending(p', j)[k], Early(p', j, k))
    {
      assert EntrySound(number, p, j, Pending(p, j)[k], Early(p, j, k));
    }
  }

  /** Nothing of instance `j` changes, nor does the store while `j` may trust it. */
  ghost predicate Spares(p: Plane, p': Plane, j: Instance) {
    && p'.newest == p.newest && Pending(p', j) == Pending(p, j)
    && (j in p'.owned <==> j in p.owned) && (j in p.owned ==> p'.owned[j] == p.owned[j])
    && (j in p'.tasks <==> j in p.tasks) && (j in p.tasks ==> p'.tasks[j] == p.tasks[j])
    && ((p'.lease == p.lease && p'.stored == p.stored) || p'.lease.None? ||
       (p'.lease == p.lease && p.lease.value.owner != j))
  }

  lemma OthersKeepSound(number: string -> Reading, p: Plane, p': Plane, j: Instance)
    requires Sound(number, p, j) && Spares(p, p', j)
    ensures Sound(number, p', j)
  {
    forall k | 0 <= k < |Pending(p, j)|
      ensures EntrySound(number, p', j, Pending(p', j)[k], Early(p', j, k))
    {
      assert EntrySound(number, p, j, Pending(p, j)[k], Early(p, j, k));
    }
  }

  lemma ClaimForKeepsSound(number: string -> Reading, p: Plane, i: Instance, minted: string, j: Instance)
    requires Sound(number, p, j) && LeaseIsNewest(number, p) && Legal(number, p, ClaimFor(i, minted))
    ensures Sound(number, Next(number, p, ClaimFor(i, minted)), j)
  {
    var p1, p' := AfterClaim(p, number, i, minted), Next(number, p, ClaimFor(i, minted));
    ClaimKeepsSound(number, p, i, minted, j);
    if i in p.tasks && p.tasks[i].Claiming? {
      if i == j {
        MoveKeepsSound(number, p1, p', j);
      } else {
        OthersKeepSound(number, p1, p', j);
      }
    }
  }

  /** The local steps of an operation before its commit runs. */
  lemma LocalKeepsSound(number: string -> Reading, p: Plane, a: Action)
    requires a.Ask? || a.Forward? || a.Persist? || a.Look? || a.Read? || a.Install? || a.Begin?
    requires Sound(number, p, a.i) && !Harmful(p, a)
    ensures Sound(number, Next(number, p, a), a.i)
  {
    var p' := Next(number, p, a);
    if p' != p {
      MoveKeepsSound(number, p, p', a.i);
    }
  }

  /** What an accepted commit leaves behind differs from it in its epoch or its number. */
  lemma EntryFallsBehind(number: string -> Reading, p: Plane, i: Instance, e: Entry)
    requires i in p.tasks && p.tasks[i].Sent? && TaskSound(number, p, i) && Right(number, p, i, e)
    ensures EntrySound(number, Next(number, p, Execute(i)), i, e, true)
  {
  }

  lemma ExecuteKeepsTaskSound(number: string -> Reading, p: Plane, i: Instance)
    requires TaskSound(number, p, i)
    ensures TaskSound(number, Next(number, p, Execute(i)), i)
  {
  }

  lemma ExecuteKeepsSound(number: string -> Reading, p: Plane, i: Instance)
    requires Sound(number, p, i)
    ensures Sound(number, Next(number, p, Execute(i)), i)
  {
    var p' := Next(number, p, Execute(i));
    if i in p.tasks && p.tasks[i].Sent? {
      ExecuteKeepsTaskSound(number, p, i);
      assert Pending(p', i) == Pending(p, i) && (i in p'.owned <==> i in p.owned) &&
             (i in p.owned ==> p'.owned[i] == p.owned[i]);
      if i in p.owned {
        EntryFallsBehind(number, p, i, p.owned[i]);
      }
      forall k | 0 <= k < |Pending(p, i)|
        ensures EntrySound(number, p', i, Pending(p', i)[k], Early(p', i, k))
      {
        assert EntrySound(number, p, i, Pending(p, i)[k], Early(p, i, k));
        EntryFallsBehind(number, p, i, Pending(p, i)[k]);
      }
    }
  }

  lemma HandleKeepsSound(number: string -> Reading, p: Plane, i: Instance)
    requires Sound(number, p, i) && Legal(number, p, Handle(i))
    ensures Sound(number, Next(number, p, Handle(i)), i)
  {
    var p' := Next(number, p, Handle(i));
    forall k | 0 <= k < |Pending(p, i)|
      ensures EntrySound(number, p', i, Pending(p', i)[k], Early(p', i, k))
    {
      assert EntrySound(number, p, i, Pending(p, i)[k], Early(p, i, k));
    }
  }

  lemma FailKeepsSound(number: string -> Reading, p: Plane, i: Instance)
    requires Sound(number, p, i) && !LostCommit(p, i)
    ensures Sound(number, Next(number, p, Fail(i)), i)
  {
    var p' := Next(number, p, Fail(i));
    forall k | 0 <= k < |Pending(p, i)|
      ensures EntrySound(number, p', i, Pending(p', i)[k], Early(p', i, k))
    {
      assert EntrySound(number, p, i, Pending(p, i)[k], Early(p, i, k));
    }
  }

  /** Creating a missing state changes nothing that an entry or task of the lease's holder relies on. */
  lemma BirthKeepsSound(number: string -> Reading, p: Plane, p': Plane, i: Instance)
    requires Sound(number, p, i) && p.lease.Some? && p.lease.value.owner == i &&
             (p.stored == p'.stored || p.stored.None?)
    requires p' == p.(stored := p'.stored, stream := p'.stream)
    ensures Sound(number, p', i)
  {
    forall k | 0 <= k < |Pending(p, i)|
      ensures EntrySound(number, p', i, Pending(p', i)[k], Early(p', i, k))
    {
      assert EntrySound(number, p, i, Pending(p, i)[k], Early(p, i, k));
    }
  }

  lemma AnswerKeepsSound(number: string -> Reading, p: Plane, i: Instance, e: Entry)
    requires Sound(number, p, i) && Right(number, p, i, e)
    ensures Sound(number, p.(inits := p.inits[i := Pending(p, i) + [e]]), i)
  {
    var p' := p.(inits := p.inits[i := Pending(p, i) + [e]]);
    forall k | 0 <= k < |Pending(p', i)|
      ensures EntrySound(number, p', i, Pending(p', i)[k], Early(p', i, k))
    {
      if k < |Pending(p, i)| {
        assert EntrySound(number, p, i, Pending(p, i)[k], Early(p, i, k));
      }
    }
  }

  lemma InitScriptKeepsSound(number: string -> Reading, p: Plane, a: Action)
    requires a.InitScript? && Sound(number, p, a.i) && LeaseIsNewest(number, p)
    ensures Sound(number, Next(number, p, a), a.i)
  {
    var p', i := Next(number, p, a), a.i;
    if Holds(p, i, a.fence) {
      var born := p.(stored := p'.stored, stream := p'.stream);
      BirthKeepsSound(number, p, born, i);
      AnswerKeepsSound(number, born, i, Entry(a.fence, p'.stored.value.(author := None)));
    }
  }

  lemma InitCachedKeepsSound(number: string -> Reading, p: Plane, i: Instance)
    requires Sound(number, p, i) && Legal(number, p, InitCached(i))
    ensures Sound(number, Next(number, p, InitCached(i)), i)
  {
    var p' := Next(number, p, InitCached(i));
    if Pending(p, i) != [] {
      assert EntrySound(number, p, i, Pending(p, i)[0], Early(p, i, 0));
      forall k | 0 <= k < |Pending(p', i)|
        ensures EntrySound(number, p', i, Pending(p', i)[k], Early(p', i, k))
      {
        assert EntrySound(number, p, i, Pending(p, i)[k + 1], Early(p, i, k + 1));
      }
    }
  }

  lemma DropKeepsSound(number: string -> Reading, p: Plane, i: Instance)
    requires Sound(number, p, i)
    ensures Sound(number, Next(number, p, Drop(i)), i)
  {
    var p' := Next(number, p, Drop(i));
    forall k | 0 <= k < |Pending(p, i)|
      ensures EntrySound(number, p', i, Pending(p', i)[k], Early(p', i, k))
    {
      assert EntrySound(number, p, i, Pending(p, i)[k], Early(p, i, k));
    }
  }

  predicate OfInstance(a: Action) {
    !(a.Claim? || a.Reclaim? || a.Clear? || a.LeaseExpires? || a.TimelineExpires? || a.Tick?)
  }

  lemma OwnStepKeepsSound(number: string -> Reading, p: Plane, a: Action)
    requires OfInstance(a) && Sound(number, p, a.i) && LeaseIsNewest(number, p) && Legal(number, p, a) && !Harmful(p, a)
    ensures Sound(number, Next(number, p, a), a.i)
  {
    match a
    case ClaimFor(i, minted) => ClaimForKeepsSound(number, p, i, minted, i);
    case Execute(i) => ExecuteKeepsSound(number, p, i);
    case Handle(i) => HandleKeepsSound(number, p, i);
    case Fail(i) => FailKeepsSound(number, p, i);
    case InitScript(_, _, _, _) => InitScriptKeepsSound(number, p, a);
    case InitCached(i) => InitCachedKeepsSound(number, p, i);
    case Drop(i) => DropKeepsSound(number, p, i);
    case _ => LocalKeepsSound(number, p, a);
  }

  lemma LocalSpares(number: string -> Reading, p: Plane, a: Action, j: Instance)
    requires a.Ask? || a.Forward? || a.Persist? || a.Look? || a.Read? || a.Install? || a.Begin? || a.Handle? ||
             a.Fail? || a.Drop?
    requires a.i != j
    ensures Spares(p, Next(number, p, a), j)
  {
    if a.Ask? || a.Forward? || a.Persist? || a.Look? || a.Read? {
      EarlySpares(number, p, a, j);
    } else {
      LateSpares(number, p, a, j);
    }
  }

  lemma EarlySpares(number: string -> Reading, p: Plane, a: Action, j: Instance)
    requires a.Ask? || a.Forward? || a.Persist? || a.Look? || a.Read?
    requires a.i != j
    ensures Spares(p, Next(number, p, a), j)
  {
  }

  lemma LateSpares(number: string -> Reading, p: Plane, a: Action, j: Instance)
    requires a.Install? || a.Begin? || a.Handle? || a.Fail? || a.Drop?
    requires a.i != j
    ensures Spares(p, Next(number, p, a), j)
  {
  }

  lemma ScriptSpares(number: string -> Reading, p: Plane, a: Action, j: Instance)
    requires a.Execute? || a.InitScript? || a.InitCached?
    requires a.i != j
    ensures Spares(p, Next(number, p, a), j)
  {
  }

  lemma StoreSpares(number: string -> Reading, p: Plane, a: Action, j: Instance)
    requires a.Reclaim? || a.Clear? || a.LeaseExpires? || a.TimelineExpires? || a.Tick?
    requires Legal(number, p, a)
    ensures Spares(p, Next(number, p, a), j)
  {
  }

  lemma OtherStepKeepsSound(number: string -> Reading, p: Plane, a: Action, j: Instance)
    requires Sound(number, p, j) && LeaseIsNewest(number, p) && Legal(number, p, a)
    requires !OfInstance(a) || a.i != j
    ensures Sound(number, Next(number, p, a), j)
  {
    if a.Claim? {
      ClaimKeepsSound(number, p, a.i, a.minted, j);
    } else if a.ClaimFor? {
      ClaimForKeepsSound(number, p, a.i, a.minted, j);
    } else {
      if !OfInstance(a) {
        StoreSpares(number, p, a, j);
      } else if a.Execute? || a.InitScript? || a.InitCached? {
        ScriptSpares(number, p, a, j);
      } else {
        LocalSpares(number, p, a, j);
      }
      OthersKeepSound(number, p, Next(number, p, a), j);
    }
  }

  lemma StepKeepsInstancesSound(number: string -> Reading, p: Plane, a: Action)
    requires InstancesSound(number, p) && LeaseIsNewest(number, p) && Legal(number, p, a) && !Harmful(p, a)
    ensures InstancesSound(number, Next(number, p, a))
  {
    forall j
      ensures Sound(number, Next(number, p, a), j)
    {
      assert Sound(number, p, j);
      if OfInstance(a) && a.i == j {
        OwnStepKeepsSound(number, p, a);
      } else {
        OtherStepKeepsSound(number, p, a, j);
      }
    }
  }

  /** A commit under the live lease supersedes everything before it. */
  lemma CommitSupersedes(number: string -> Reading, p: Plane, tl: Timeline)
    requires StreamSound(number, p) && p.lease.Some? && tl.storeEpoch == p.lease.value.epoch
    requires p.stored.Some? ==> tl.seqNo == NextSeq(p, tl.storeEpoch)
    ensures Increasing(number, p.stream + [tl])
  {
    forall prior | prior in p.stream
      ensures Newer(number, tl, prior)
    {
      if p.stored.Some? && prior.storeEpoch == tl.storeEpoch {
        var last := p.stream[|p.stream| - 1];
        NewerIsStrictPartialOrder(number, tl, last, prior);
        assert prior == last || Newer(number, last, prior);
      }
    }
    IncreasingSnoc(number, p.stream, tl);
  }

  lemma IncreasingSnoc(number: string -> Reading, s: seq<Timeline>, tl: Timeline)
    requires Increasing(number, s) && forall prior | prior in s :: Newer(number, tl, prior)
    ensures Increasing(number, s + [tl])
  {
  }

  lemma CommitKeepsStreamSound(number: string -> Reading, p: Plane, p': Plane, tl: Timeline)
    requires StreamSound(number, p) && p.lease.Some? && tl.storeEpoch == p.lease.value.epoch
    requires p.stored.Some? ==> tl.seqNo == NextSeq(p, tl.storeEpoch)
    requires p'.lease == p.lease && p'.newest == p.newest && p'.stored == Some(tl) && p'.stream == p.stream + [tl]
    ensures StreamSound(number, p')
  {
    CommitSupersedes(number, p, tl);
  }

  /** Releasing the lease, or losing the state of an unleased room, commits nothing. */
  lemma QuietKeepsStreamSound(number: string -> Reading, p: Plane, p': Plane)
    requires StreamSound(number, p) && p'.stream == p.stream && p'.newest == p.newest
    requires if p'.lease.Some? then p'.lease == p.lease && p'.stored == p.stored
             else p'.stored == p.stored || p'.stored.None?
    ensures StreamSound(number, p')
  {
  }

  lemma MintKeepsStreamSound(number: string -> Reading, p: Plane, i: Instance, minted: string)
    requires StreamSound(number, p) && number(minted).Finite? && number(minted).value > p.newest
    ensures StreamSound(number, AfterClaim(p, number, i, minted))
  {
  }

  lemma ScriptKeepsStreamSound(number: string -> Reading, p: Plane, i: Instance, cmd: Command, fence: string,
                               base: Timeline)
    requires StreamSound(number, p)
    ensures StreamSound(number, CommitScript(p, i, cmd, fence, base).0)
  {
    var (p', reply) := CommitScript(p, i, cmd, fence, base);
    if reply.Accepted? {
      CommitKeepsStreamSound(number, p, p', reply.timeline);
    }
  }

  lemma InitKeepsStreamSound(number: string -> Reading, p: Plane, i: Instance, fence: string, videoId: Option<string>,
                             mediaTime: real)
    requires StreamSound(number, p)
    ensures StreamSound(number, AfterInitScript(p, i, fence, videoId, mediaTime))
  {
    var p' := AfterInitScript(p, i, fence, videoId, mediaTime);
    if Holds(p, i, fence) && p.stored.None? {
      CommitKeepsStreamSound(number, p, p', p'.stored.value);
    } else {
      QuietKeepsStreamSound(number, p, p');
    }
  }

  /** What a step that neither mints nor runs a script may do to the shared store. */
  lemma OtherStepsAreQuiet(number: string -> Reading, p: Plane, a: Action)
    requires !a.Claim? && !a.ClaimFor? && !a.Execute? && !a.InitScript? && Legal(number, p, a)
    ensures var p' := Next(number, p, a);
            && p'.stream == p.stream && p'.newest == p.newest
            && if p'.lease.Some? then p'.lease == p.lease && p'.stored == p.stored
               else p'.stored == p.stored || p'.stored.None?
  {
  }

  lemma ClaimForKeepsStreamSound(number: string -> Reading, p: Plane, i: Instance, minted: string)
    requires StreamSound(number, p) && Legal(number, p, ClaimFor(i, minted))
    ensures StreamSound(number, Next(number, p, ClaimFor(i, minted)))
  {
    if i in p.tasks && p.tasks[i].Claiming? {
      MintKeepsStreamSound(number, p, i, minted);
      QuietKeepsStreamSound(number, AfterClaim(p, number, i, minted), Next(number, p, ClaimFor(i, minted)));
    }
  }

  lemma ExecuteKeepsStreamSound(number: string -> Reading, p: Plane, i: Instance)
    requires StreamSound(number, p)
    ensures StreamSound(number, Next(number, p, Execute(i)))
  {
    if i in p.tasks && p.tasks[i].Sent? {
      var Sent(cmd, fence, base) := p.tasks[i];
      ScriptKeepsStreamSound(number, p, i, cmd, fence, base);
      QuietKeepsStreamSound(number, CommitScript(p, i, cmd, fence, base).0, Next(number, p, Execute(i)));
    }
  }

  lemma StepKeepsStreamSound(number: string -> Reading, p: Plane, a: Action)
    requires StreamSound(number, p) && Legal(number, p, a)
    ensures StreamSound(number, Next(number, p, a))
  {
    match a
    case Claim(i, minted) => MintKeepsStreamSound(number, p, i, minted);
    case ClaimFor(i, minted) => ClaimForKeepsStreamSound(number, p, i, minted);
    case Execute(i) => ExecuteKeepsStreamSound(number, p, i);
    case InitScript(i, fence, videoId, mediaTime) => InitKeepsStreamSound(number, p, i, fence, videoId, mediaTime);
    case _ =>
      OtherStepsAreQuiet(number, p, a);
      QuietKeepsStreamSound(number, p, Next(number, p, a));
  }

  lemma OnlyCommitsTouchRecords(number: string -> Reading, p: Plane, a: Action)
    requires !a.Tick? && !a.Execute?
    ensures Next(number, p, a).records == p.records && Next(number, p, a).now == p.now
  {
  }

  lemma RecordKeepsTruthful(r: Records, id: string, now: real)
    requires Truthful(r, now) && !Recorded(r, id, now)
    ensures Truthful(Record(r, id, now, true), now)
  {
    PurgeAndRecordKeepsFaithful(r.live, r.receipts, id, now);
  }

  /** The step executes an identified commit that will be accepted over no stored state. */
  ghost predicate Unkeyed(p: Plane, a: Action) {
    && a.Execute? && a.i in p.tasks && p.tasks[a.i].Sent?
    && Identified(p.tasks[a.i].cmd) && p.stored.None? && Holds(p, a.i, p.tasks[a.i].fence)
  }

  /** Every accepted identified commit of the run finds a stored state. */
  ghost predicate KeyedRun(number: string -> Reading, p: Plane, actions: seq<Action>)
    decreases |actions|
  {
    actions == [] || (!Unkeyed(p, actions[0]) && KeyedRun(number, Next(number, p, actions[0]), actions[1..]))
  }

  lemma ScriptKeepsTruthful(p: Plane, i: Instance, cmd: Command, fence: string, base: Timeline)
    requires Truthful(p.records, p.now) && !(Identified(cmd) && p.stored.None? && Holds(p, i, fence))
    ensures Truthful(CommitScript(p, i, cmd, fence, base).0.records, p.now)
  {
    if Identified(cmd) && !Recorded(p.records, cmd.cmdId.value, p.now) {
      RecordKeepsTruthful(p.records, cmd.cmdId.value, p.now);
    }
  }

  lemma StepKeepsTruthful(number: string -> Reading, p: Plane, a: Action)
    requires Truthful(p.records, p.now) && Legal(number, p, a) && !Unkeyed(p, a)
    ensures Truthful(Next(number, p, a).records, Next(number, p, a).now)
  {
    if a.Tick? {
      PurgeKeepsFaithful(p.records.live, p.records.receipts, p.now, a.now);
    } else if a.Execute? {
      if a.i in p.tasks && p.tasks[a.i].Sent? {
        ScriptKeepsTruthful(p, a.i, p.tasks[a.i].cmd, p.tasks[a.i].fence, p.tasks[a.i].base);
      }
    } else {
      OnlyCommitsTouchRecords(number, p, a);
    }
  }

  /** Every legal interleaving, harmful steps included, keeps the commits of the shared store in order. */
  lemma {:induction false} RunKeepsStreamSound(number: string -> Reading, p: Plane, actions: seq<Action>)
    requires StreamSound(number, p) && LegalRun(number, p, actions)
    ensures StreamSound(number, Run(number, p, actions))
    decreases |actions|
  {
    if actions != [] {
      StepKeepsStreamSound(number, p, actions[0]);
      RunKeepsStreamSound(number, Next(number, p, actions[0]), actions[1..]);
    }
  }

  /** And every one whose identified commits found a stored state keeps the dedup keys exact. */
  lemma {:induction false} RunKeepsTruthful(number: string -> Reading, p: Plane, actions: seq<Action>)
    requires Truthful(p.records, p.now) && LegalRun(number, p, actions) && KeyedRun(number, p, actions)
    ensures var q := Run(number, p, actions); Truthful(q.records, q.now)
    decreases |actions|
  {
    if actions != [] {
      StepKeepsTruthful(number, p, actions[0]);
      RunKeepsTruthful(number, Next(number, p, actions[0]), actions[1..]);
    }
  }

  /** Where the instances are right, a commit under the live lease has a stored state to act on. */
  lemma SoundCommitsAreKeyed(number: string -> Reading, p: Plane, a: Action)
    requires InstancesSound(number, p)
    ensures !Unkeyed(p, a)
  {
    if a.Execute? {
      assert Sound(number, p, a.i);
    }
  }

  lemma CleanStepKeepsInv(number: string -> Reading, p: Plane, a: Action)
    requires Inv(number, p) && Legal(number, p, a) && !Harmful(p, a)
    ensures Inv(number, Next(number, p, a)) && !Unkeyed(p, a)
  {
    StepKeepsInstancesSound(number, p, a);
    SoundCommitsAreKeyed(number, p, a);
    StepKeepsStreamSound(number, p, a);
    StepKeepsTruthful(number, p, a);
  }

  /** Every legal interleaving without a harmful step keeps instances, commits and dedup keys right. */
  lemma {:induction false} RunKeepsInv(number: string -> Reading, p: Plane, actions: seq<Action>)
    requires Inv(number, p) && CleanRun(number, p, actions)
    ensures Inv(number, Run(number, p, actions)) && LegalRun(number, p, actions) && KeyedRun(number, p, actions)
    decreases |actions|
  {
    if actions != [] {
      CleanStepKeepsInv(number, p, actions[0]);
      RunKeepsInv(number, Next(number, p, actions[0]), actions[1..]);
    }
  }

  /** The identified commits of a run, read off its steps: one for every accepted execution of a command with an id. */
  function IdentifiedCommits(number: string -> Reading, p: Plane, actions: seq<Action>): seq<Receipt>
    decreases |actions|
  {
    if actions == [] then []
    else StepCommits(p, actions[0]) + IdentifiedCommits(number, Next(number, p, actions[0]), actions[1..])
  }

  function StepCommits(p: Plane, a: Action): seq<Receipt> {
    if !a.Execute? || a.i !in p.tasks || !p.tasks[a.i].Sent? then []
    else
      var Sent(cmd, fence, base) := p.tasks[a.i];
      if Identified(cmd) && CommitScript(p, a.i, cmd, fence, base).1.Accepted?
      then [Receipt(cmd.cmdId.value, p.now)] else []
  }

  lemma StepReceipts(number: string -> Reading, p: Plane, a: Action)
    ensures Next(number, p, a).records.receipts == p.records.receipts + StepCommits(p, a)
  {
    if !a.Execute? && !a.Tick? {
      OnlyCommitsTouchRecords(number, p, a);
    }
  }

  lemma {:induction false} ReceiptsAreTheIdentifiedCommits(number: string -> Reading, p: Plane, actions: seq<Action>)
    ensures Run(number, p, actions).records.receipts == p.records.receipts + IdentifiedCommits(number, p, actions)
    decreases |actions|
  {
    if actions != [] {
      StepReceipts(number, p, actions[0]);
      ReceiptsAreTheIdentifiedCommits(number, Next(number, p, actions[0]), actions[1..]);
    }
  }

  /** A room nobody has touched. */
  function Untouched(now: real, newest: real): Plane {
    Plane(None, None, Records(map[], []), now, map[], map[], map[], newest, [])
  }

  lemma UntouchedIsSound(number: string -> Reading, now: real, newest: real)
    ensures Inv(number, Untouched(now, newest))
  {
  }

  // ---- what every run guarantees ----

  /**
   * The cache is never wrong while it matters: across any handoff, expiry, reclaim, zombie revival
   * or overlapping init, an instance whose cached fence is the live lease, and which is not just
   * receiving the reply of its own accepted commit, caches exactly the stored state.
   */
  lemma LiveCacheIsTheStoredState(number: string -> Reading, now: real, newest: real, actions: seq<Action>, i: Instance)
    requires CleanRun(number, Untouched(now, newest), actions)
    ensures var p := Run(number, Untouched(now, newest), actions);
            i in p.owned && !Committing(p, i) && p.lease == Some(Lease(i, p.owned[i].fence)) ==>
              p.stored.Some? && SameState(p.owned[i].timeline, p.stored.value)
  {
    UntouchedIsSound(number, now, newest);
    RunKeepsInv(number, Untouched(now, newest), actions);
    assert Sound(number, Run(number, Untouched(now, newest), actions), i);
  }

  /**
   * Refinement of the single store: whichever instance executes a commit, after whatever run, an
   * accepted one is the command performed on the timeline the shared store holds at that moment,
   * with the next number of its fence; and a refused one leaves the shared state alone.
   */
  lemma AcceptedCommitsActOnTheStoredState(number: string -> Reading, now: real, newest: real, actions: seq<Action>,
                                           i: Instance)
    requires CleanRun(number, Untouched(now, newest), actions)
    ensures var p := Run(number, Untouched(now, newest), actions);
            i in p.tasks && p.tasks[i].Sent? ==>
              var Sent(cmd, fence, base) := p.tasks[i];
              var (p', reply) := CommitScript(p, i, cmd, fence, base);
              && (reply.Accepted? ==>
                    && p.lease == Some(Lease(i, fence)) && p.stored.Some?
                    && reply.timeline == Stamp(Effect(p.stored.value, cmd), fence, NextSeq(p, fence), p.now)
                    && p'.stored == Some(reply.timeline))
              && (!reply.Accepted? ==> p' == p)
  {
    UntouchedIsSound(number, now, newest);
    RunKeepsInv(number, Untouched(now, newest), actions);
    var p := Run(number, Untouched(now, newest), actions);
    assert Sound(number, p, i);
    if i in p.tasks && p.tasks[i].Sent? && p.stored.Some? && SameState(p.tasks[i].base, p.stored.value) {
      EffectIgnoresAuthor(p.tasks[i].base, p.stored.value, p.tasks[i].cmd);
    }
  }

  lemma EffectIgnoresAuthor(a: Timeline, b: Timeline, cmd: Command)
    requires SameState(a, b)
    ensures Effect(a, cmd) == Effect(b, cmd)
  {
    assert a == b.(author := a.author);
  }

  /** An accepted control does to its base what its intent promises, stamped by the store and under the fence. */
  lemma AcceptedControlObeys(p: Plane, i: Instance, cmd: Command, fence: string, base: Timeline)
    requires cmd.commit.Control? && CommitScript(p, i, cmd, fence, base).1.Accepted?
    ensures var tl := CommitScript(p, i, cmd, fence, base).1.timeline;
            && tl.storeEpoch == fence && tl.stampedAt == p.now && tl.author == Wire(Some(cmd.author))
            && Obeys(base.(videoId := Wire(base.videoId)), tl, cmd.commit.intent, cmd.commit.mediaTime,
                     Wire(cmd.commit.videoId))
  {
  }

  /** In every clean run, then, it does so to the timeline the shared store holds at that moment. */
  lemma AcceptedControlsObeyTheStoredState(number: string -> Reading, now: real, newest: real, actions: seq<Action>,
                                           i: Instance)
    requires CleanRun(number, Untouched(now, newest), actions)
    ensures var p := Run(number, Untouched(now, newest), actions);
            i in p.tasks && p.tasks[i].Sent? && p.tasks[i].cmd.commit.Control? ==>
              var Sent(cmd, fence, base) := p.tasks[i];
              var reply := CommitScript(p, i, cmd, fence, base).1;
              reply.Accepted? ==>
                && p.stored.Some?
                && var prev := p.stored.value;
                   Obeys(prev.(videoId := Wire(prev.videoId)), reply.timeline, cmd.commit.intent, cmd.commit.mediaTime,
                         Wire(cmd.commit.videoId))
  {
    AcceptedCommitsActOnTheStoredState(number, now, newest, actions, i);
    var p := Run(number, Untouched(now, newest), actions);
    if i in p.tasks && p.tasks[i].Sent? && p.tasks[i].cmd.commit.Control? {
      var Sent(cmd, fence, base) := p.tasks[i];
      if CommitScript(p, i, cmd, fence, base).1.Accepted? {
        AcceptedControlObeys(p, i, cmd, fence, p.stored.value);
        assert CommitScript(p, i, cmd, fence, p.stored.value).1 == CommitScript(p, i, cmd, fence, base).1;
      }
    }
  }

  /** Under the live lease init creates a missing room paused at the given position, and never touches another. */
  lemma InitCreatesOnlyWhatIsMissing(p: Plane, i: Instance, fence: string, videoId: Option<string>, mediaTime: real)
    ensures var p' := AfterInitScript(p, i, fence, videoId, mediaTime);
            if !Holds(p, i, fence) then p' == p
            else
              && p'.stored.Some? && (p.stored.Some? ==> p'.stored == p.stored && p'.stream == p.stream)
              && |Pending(p', i)| == |Pending(p, i)| + 1
              && Pending(p', i)[|Pending(p, i)|].fence == fence
              && SameState(Pending(p', i)[|Pending(p, i)|].timeline, p'.stored.value)
              && (p.stored.None? ==>
                    var tl := p'.stored.value;
                    && tl.seqNo == 0 && tl.storeEpoch == fence && tl.videoId == Wire(videoId) && tl.stampedAt == p.now
                    && !tl.isPlaying && (forall at :: Project(tl, at) == mediaTime) && tl.reason == Join
                    && p'.stream == p.stream + [tl])
  {
  }

  /** Accepted commits strictly increase in (fence, seq), so the zombie fence is the clients' ordering rule. */
  lemma CommitsIncrease(number: string -> Reading, now: real, newest: real, actions: seq<Action>)
    requires LegalRun(number, Untouched(now, newest), actions)
    ensures Increasing(number, Run(number, Untouched(now, newest), actions).stream)
  {
    UntouchedIsSound(number, now, newest);
    RunKeepsStreamSound(number, Untouched(now, newest), actions);
  }

  /**
   * No identified command commits twice within the TTL, whichever instances owned the room in
   * between, and a duplicate is answered exactly when the id committed within the TTL: in every
   * run whose identified commits all found a stored state.
   */
  lemma KeyedRunsDedup(number: string -> Reading, now: real, newest: real, actions: seq<Action>,
                       i: Instance, cmd: Command, fence: string, base: Timeline)
    requires LegalRun(number, Untouched(now, newest), actions) && KeyedRun(number, Untouched(now, newest), actions)
    ensures var p := Run(number, Untouched(now, newest), actions);
            var commits := IdentifiedCommits(number, Untouched(now, newest), actions);
            && CommitsApart(commits)
            && (CommitScript(p, i, cmd, fence, base).1.Dup? <==>
                && p.lease == Some(Lease(i, fence)) && p.stored.Some?
                && Identified(cmd) && Recent(commits, cmd.cmdId.value, p.now))
  {
    var start := Untouched(now, newest);
    UntouchedIsSound(number, now, newest);
    RunKeepsTruthful(number, start, actions);
    ReceiptsAreTheIdentifiedCommits(number, start, actions);
    var commits := IdentifiedCommits(number, start, actions);
    assert start.records.receipts + commits == commits;
    ScriptDedups(Run(number, start, actions), i, cmd, fence, base);
  }

  /** Where the dedup keys are exact, the script recognises exactly the recent commits. */
  lemma ScriptDedups(p: Plane, i: Instance, cmd: Command, fence: string, base: Timeline)
    requires Truthful(p.records, p.now)
    ensures CommitsApart(p.records.receipts)
    ensures CommitScript(p, i, cmd, fence, base).1.Dup? <==>
            && p.lease == Some(Lease(i, fence)) && p.stored.Some?
            && Identified(cmd) && Recent(p.records.receipts, cmd.cmdId.value, p.now)
  {
    if Identified(cmd) {
      RecentExactlyWhenUnexpired(p.records.live, p.records.receipts, cmd.cmdId.value, p.now);
    }
  }

  /** In particular in every legal run without a harmful step, across any number of handoffs. */
  lemma DuplicateAcrossHandoffs(number: string -> Reading, now: real, newest: real, actions: seq<Action>,
                                i: Instance, cmd: Command, fence: string, base: Timeline)
    requires CleanRun(number, Untouched(now, newest), actions)
    ensures var p := Run(number, Untouched(now, newest), actions);
            var commits := IdentifiedCommits(number, Untouched(now, newest), actions);
            && CommitsApart(commits)
            && (CommitScript(p, i, cmd, fence, base).1.Dup? <==>
                && p.lease == Some(Lease(i, fence)) && p.stored.Some?
                && Identified(cmd) && Recent(commits, cmd.cmdId.value, p.now))
  {
    UntouchedIsSound(number, now, newest);
    RunKeepsInv(number, Untouched(now, newest), actions);
    KeyedRunsDedup(number, now, newest, actions, i, cmd, fence, base);
  }

  /** One delivery of the stored state brings any client of the plane to exactly that state. */
  lemma ClientsReachTheStoredState(number: string -> Reading, now: real, newest: real, actions: seq<Action>,
                                   ds: seq<Timeline>)
    requires LegalRun(number, Untouched(now, newest), actions)
    requires var p := Run(number, Untouched(now, newest), actions);
             && p.stored.Some? && p.stored.value in ds
             && forall d | d in ds :: d in p.stream
    ensures Deliver(number, FRESH, ds).timeline == Run(number, Untouched(now, newest), actions).stored
  {
    UntouchedIsSound(number, now, newest);
    RunKeepsStreamSound(number, Untouched(now, newest), actions);
    var p := Run(number, Untouched(now, newest), actions);
    assert p.stream[..|p.stream| - 1 + 1] == p.stream;
    ClientEndsOnLatestDelivered(number, p.stream, ds, |p.stream| - 1);
  }

  /** Absent values are stored as such: no committed state names an empty video or author. */
  ghost predicate NoEmptyNames(tl: Timeline) {
    tl.videoId != Some("") && tl.author != Some("")
  }

  lemma StepCommitsNoEmptyNames(number: string -> Reading, p: Plane, a: Action)
    requires forall tl | tl in p.stream :: NoEmptyNames(tl)
    ensures forall tl | tl in Next(number, p, a).stream :: NoEmptyNames(tl)
  {
  }

  lemma {:induction false} RunsCommitNoEmptyNames(number: string -> Reading, p: Plane, actions: seq<Action>)
    requires forall tl | tl in p.stream :: NoEmptyNames(tl)
    ensures forall tl | tl in Run(number, p, actions).stream :: NoEmptyNames(tl)
    decreases |actions|
  {
    if actions != [] {
      StepCommitsNoEmptyNames(number, p, actions[0]);
      RunsCommitNoEmptyNames(number, Next(number, p, actions[0]), actions[1..]);
    }
  }

  /** A command without an id, or with an empty one, is never a duplicate and leaves no receipt. */
  lemma UnnamedCommandsAreNeverDuplicates(p: Plane, i: Instance, cmd: Command, fence: string, base: Timeline)
    requires cmd.cmdId.None? || cmd.cmdId == Some("")
    ensures var (q, reply) := CommitScript(p, i, cmd, fence, base); !reply.Dup? && q.records == p.records
  {
  }

  // ---- sweeps on this plane ----

  /** What an accepted sweep of a playing room writes over `prev`. */
  function Swept(prev: Timeline, cmd: Command, fence: string, seqNo: int, now: real): Timeline {
    Stamp(Effect(prev, cmd), fence, seqNo, now)
  }

  /**
   * The instance projects the position to its own `at`, the store stamps it with its own `now`:
   * a sweep therefore shifts the room by exactly their difference, at every instant, and is
   * transparent if and only if the two clocks read the same.
   */
  lemma SweepShiftsByTheClockDifference(prev: Timeline, cmd: Command, fence: string, seqNo: int, now: real, at: real)
    requires cmd.commit.Sweep? && prev.isPlaying
    ensures Project(Swept(prev, cmd, fence, seqNo, now), at) == Project(prev, at) + (cmd.at - now) / 1000.0
    ensures Project(Swept(prev, cmd, fence, seqNo, now), at) == Project(prev, at) <==> cmd.at == now
  {
  }

  /** And the logged pair passes the replay contract if and only if they differ by at most a microsecond. */
  lemma SweepPassesTheContractExactlyWhenClocksAgree(prev: Timeline, cmd: Command, now: real)
    requires cmd.commit.Sweep? && prev.isPlaying && prev.stampedAt <= now && Wire(prev.videoId) == prev.videoId
    ensures CheckTransition(RoomStore.Entry(prev, None),
                            RoomStore.Entry(Swept(prev, cmd, prev.storeEpoch, prev.seqNo + 1, now), None)).None? <==>
            Abs(cmd.at - now) <= 0.001
  {
    var next := Swept(prev, cmd, prev.storeEpoch, prev.seqNo + 1, now);
    SweepShiftsByTheClockDifference(prev, cmd, prev.storeEpoch, prev.seqNo + 1, now, now);
    assert next.mediaTime - Project(prev, now) == (cmd.at - now) / 1000.0;
  }
}
