/**
 * One instance of the actor store at work (video-sync-backend/src/sync/actor-room-state.store.ts):
 * the operations that its queue for a room runs one at a time, with anything at all happening
 * elsewhere at every `await`. Whatever happens, the run of the whole plane is one that ActorPlane
 * describes, and one call commits its command at most once.
 */
module ActorStore {
  import opened Common
  import opened Timelines
  import opened Replay
  import opened ActorPlane

  datatype Outcome =
    | Committed(timeline: Timeline)
    | Duplicate(timeline: Timeline)
    | Fenced(timeline: Timeline)
    | Forwarded
    | Missing
    | Failed // the call ends in an error

  /**
   * A step that does not belong to this instance's queue for the room. The instance's own inits,
   * renewals and losses of the room are not queued, so they may come at any time.
   */
  predicate Foreign(a: Action, i: Instance) {
    match a
    case Ask(j, _) => j != i
    case ClaimFor(j, _) => j != i
    case Forward(j) => j != i
    case Persist(j) => j != i
    case Look(j) => j != i
    case Read(j) => j != i
    case Install(j) => j != i
    case Begin(j, _) => j != i
    case Execute(j) => j != i
    case Handle(j) => j != i
    case Fail(j) => j != i
    case _ => true
  }

  ghost predicate AllForeign(actions: seq<Action>, i: Instance) {
    forall k | 0 <= k < |actions| :: Foreign(actions[k], i)
  }

  /** Is `a` the execution of a commit of instance `i` that the script accepts? */
  predicate Accepts(p: Plane, a: Action, i: Instance) {
    a == Execute(i) && i in p.tasks && p.tasks[i].Sent? &&
    CommitScript(p, i, p.tasks[i].cmd, p.tasks[i].fence, p.tasks[i].base).1.Accepted?
  }

  /** How many commits of instance `i` the run accepts. */
  function Commits(number: string -> Reading, p: Plane, actions: seq<Action>, i: Instance): nat
    decreases |actions|
  {
    if actions == [] then 0
    else (if Accepts(p, actions[0], i) then 1 else 0) + Commits(number, Next(number, p, actions[0]), actions[1..], i)
  }

  lemma {:induction false} RunAppends(number: string -> Reading, p: Plane, xs: seq<Action>, ys: seq<Action>,
                                      i: Instance)
    ensures Run(number, p, xs + ys) == Run(number, Run(number, p, xs), ys)
    ensures Commits(number, p, xs + ys, i) == Commits(number, p, xs, i) + Commits(number, Run(number, p, xs), ys, i)
    ensures CleanRun(number, p, xs + ys) ==> CleanRun(number, p, xs)
    decreases |xs|
  {
    if xs == [] {
      assert xs + ys == ys;
    } else {
      assert (xs + ys)[1..] == xs[1..] + ys;
      RunAppends(number, Next(number, p, xs[0]), xs[1..], ys, i);
    }
  }

  /** Tasks apart from the init answers that arrive ahead of a reply. */
  ghost predicate SameTask(a: Task, b: Task) {
    if a.Answered? then b.Answered? && b == a.(ahead := b.ahead) else a == b
  }

  /** Only as many answers can arrive ahead of the reply as are under way. */
  ghost predicate Lined(p: Plane, i: Instance) {
    i in p.tasks && p.tasks[i].Answered? ==> p.tasks[i].ahead <= |Pending(p, i)|
  }

  /** The operation at the head of the queue of `i` has not moved. */
  ghost predicate SameQueue(p: Plane, q: Plane, i: Instance) {
    && (i in p.tasks <==> i in q.tasks)
    && (i in p.tasks ==> SameTask(p.tasks[i], q.tasks[i]))
    && (Lined(p, i) ==> Lined(q, i))
  }

  lemma StreamGrows(number: string -> Reading, p: Plane, a: Action)
    ensures p.stream <= Next(number, p, a).stream
  {
  }

  lemma SparedQueueIsSame(p: Plane, q: Plane, i: Instance)
    requires Spares(p, q, i)
    ensures SameQueue(p, q, i)
  {
  }

  lemma UnqueuedStepKeepsQueue(number: string -> Reading, p: Plane, a: Action, i: Instance)
    requires a.Claim? || (a.ClaimFor? && a.i != i) || ((a.InitScript? || a.InitCached? || a.Drop?) && a.i == i)
    ensures SameQueue(p, Next(number, p, a), i)
  {
  }

  lemma StoreStepKeepsQueue(number: string -> Reading, p: Plane, a: Action, i: Instance)
    requires a.Reclaim? || a.Clear? || a.LeaseExpires? || a.TimelineExpires? || a.Tick?
    ensures SameQueue(p, Next(number, p, a), i)
  {
  }

  lemma ForeignStepKeepsQueue(number: string -> Reading, p: Plane, a: Action, i: Instance)
    requires Foreign(a, i)
    ensures SameQueue(p, Next(number, p, a), i) && p.stream <= Next(number, p, a).stream
  {
    StreamGrows(number, p, a);
    if a.Claim? || a.ClaimFor? || (OfInstance(a) && a.i == i) {
      UnqueuedStepKeepsQueue(number, p, a, i);
    } else if !OfInstance(a) {
      StoreStepKeepsQueue(number, p, a, i);
    } else {
      if a.Execute? || a.InitScript? || a.InitCached? {
        ScriptSpares(number, p, a, i);
      } else {
        LocalSpares(number, p, a, i);
      }
      SparedQueueIsSame(p, Next(number, p, a), i);
    }
  }

  lemma {:induction false} ForeignKeepsQueue(number: string -> Reading, p: Plane, actions: seq<Action>, i: Instance)
    requires AllForeign(actions, i)
    ensures SameQueue(p, Run(number, p, actions), i) && p.stream <= Run(number, p, actions).stream
    ensures Commits(number, p, actions, i) == 0
    decreases |actions|
  {
    if actions != [] {
      ForeignStepKeepsQueue(number, p, actions[0], i);
      ForeignKeepsQueue(number, Next(number, p, actions[0]), actions[1..], i);
    }
  }

  /**
   * Step `k` of the run turned the stored timeline into `tl` by performing `cmd` on it, under the
   * lease then live and with its next number.
   */
  ghost predicate ActsOnStored(number: string -> Reading, origin: Plane, trace: seq<Action>, k: nat, cmd: Command,
                               tl: Timeline) {
    k < |trace| &&
    var p := Run(number, origin, trace[..k]);
    && p.lease.Some? && p.stored.Some?
    && tl == Stamp(Effect(p.stored.value, cmd), p.lease.value.epoch, NextSeq(p, p.lease.value.epoch), p.now)
    && Run(number, origin, trace[..k + 1]).stored == Some(tl)
  }

  /** In a clean run from a sound plane, some step from `from` on performed `cmd` with result `tl`. */
  ghost predicate Refined(number: string -> Reading, origin: Plane, trace: seq<Action>, from: nat, cmd: Command,
                          tl: Timeline) {
    Inv(number, origin) && CleanRun(number, origin, trace) ==>
      exists k :: from <= k && ActsOnStored(number, origin, trace, k, cmd, tl)
  }

  lemma ExecuteAnswers(number: string -> Reading, p: Plane, i: Instance)
    requires i in p.tasks && p.tasks[i].Sent?
    ensures var p' := Next(number, p, Execute(i));
            && i in p'.tasks && p'.tasks[i].Answered? && p'.tasks[i].cmd == p.tasks[i].cmd && Lined(p', i)
            && p'.tasks[i].reply == CommitScript(p, i, p.tasks[i].cmd, p.tasks[i].fence, p.tasks[i].base).1
            && (Accepts(p, Execute(i), i) <==> p'.tasks[i].reply.Accepted?)
            && (p'.tasks[i].reply.Accepted? ==> p'.stream == p.stream + [p'.tasks[i].reply.timeline])
  {
  }

  lemma HandleReleases(number: string -> Reading, p: Plane, i: Instance)
    requires i in p.tasks && p.tasks[i].Answered?
    ensures var p' := Next(number, p, Handle(i));
            i !in p'.tasks && p'.stream == p.stream && (p.tasks[i].reply.Rejected? ==> i !in p'.owned)
  {
  }

  /** An accepted commit acts on the stored timeline, given the plane's invariant. */
  lemma AcceptedActsOnStored(number: string -> Reading, p: Plane, i: Instance)
    requires Inv(number, p) && Accepts(p, Execute(i), i)
    ensures var Sent(cmd, fence, base) := p.tasks[i];
            var tl := CommitScript(p, i, cmd, fence, base).1.timeline;
            && p.lease == Some(Lease(i, fence)) && p.stored.Some?
            && tl == Stamp(Effect(p.stored.value, cmd), fence, NextSeq(p, fence), p.now)
            && Next(number, p, Execute(i)).stored == Some(tl)
  {
    assert Sound(number, p, i);
    EffectIgnoresAuthor(p.tasks[i].base, p.stored.value, p.tasks[i].cmd);
  }

  /** Instance `i` is about to commit `cmd`, and the script will write `tl`. */
  ghost predicate Produces(number: string -> Reading, p: Plane, i: Instance, cmd: Command, tl: Timeline) {
    && Accepts(p, Execute(i), i) && p.tasks[i].cmd == cmd
    && tl == CommitScript(p, i, cmd, p.tasks[i].fence, p.tasks[i].base).1.timeline
  }

  lemma CommitIsRefined(number: string -> Reading, origin: Plane, before: seq<Action>, trace: seq<Action>,
                        i: Instance, cmd: Command, tl: Timeline)
    requires before + [Execute(i)] <= trace && Produces(number, Run(number, origin, before), i, cmd, tl)
    ensures Refined(number, origin, trace, |before|, cmd, tl)
  {
    var upTo := before + [Execute(i)];
    if Inv(number, origin) && CleanRun(number, origin, trace) {
      assert trace == upTo + trace[|upTo|..];
      RunAppends(number, origin, upTo, trace[|upTo|..], i);
      RunAppends(number, origin, before, [Execute(i)], i);
      RunKeepsInv(number, origin, before);
      AcceptedActsOnStored(number, Run(number, origin, before), i);
      RunOfOne(number, Run(number, origin, before), Execute(i));
      assert trace[..|before|] == before && trace[..|before| + 1] == upTo;
      assert ActsOnStored(number, origin, trace, |before|, cmd, tl);
    }
  }

  lemma RunOfOne(number: string -> Reading, p: Plane, a: Action)
    ensures Run(number, p, [a]) == Next(number, p, a)
  {
    assert [a][1..] == [];
    assert Run(number, Next(number, p, a), []) == Next(number, p, a);
  }

  lemma RefinedSince(number: string -> Reading, origin: Plane, trace: seq<Action>, earlier: nat, from: nat,
                     cmd: Command, tl: Timeline)
    requires earlier <= from && Refined(number, origin, trace, from, cmd, tl)
    ensures Refined(number, origin, trace, earlier, cmd, tl)
  {
  }

  // ---- the undisturbed case ----

  ghost predicate SameStore(p: Plane, q: Plane) {
    q.lease == p.lease && q.stored == p.stored && q.records == p.records && q.now == p.now
  }

  /** The instance may claim the lease: it is free, or its own already. */
  ghost predicate MayClaim(p: Plane, i: Instance) {
    p.lease.None? || p.lease.value.owner == i
  }

  /** A commit under the live lease is about to be sent. */
  ghost predicate Ready(p: Plane, i: Instance) {
    && p.stored.Some? && i in p.tasks && p.tasks[i].Sent?
    && p.lease == Some(Lease(i, p.tasks[i].fence))
  }

  predicate IsDuplicate(p: Plane, cmd: Command) {
    Identified(cmd) && Recorded(p.records, cmd.cmdId.value, p.now)
  }

  predicate IsFenced(p: Plane, cmd: Command) {
    p.stored.Some? && cmd.forVideoId.Some? && Wire(p.stored.value.videoId) != Wire(cmd.forVideoId.value)
  }

  /** What remains of a schedule of `n` awaits after `k` of them. */
  function After(n: nat, k: nat): nat {
    if n >= k then n - k else 0
  }

  /** The answer that the state of the shared store calls for. */
  ghost predicate Answers(p: Plane, cmd: Command, outcome: Outcome) {
    if IsDuplicate(p, cmd) then p.stored.Some? && outcome == Duplicate(p.stored.value)
    else if IsFenced(p, cmd) then outcome == Fenced(p.stored.value)
    else outcome.Committed?
  }

  /**
   * What an undisturbed call answers, for a room with a state. The owner under the live lease
   * serves it. An owner whose fence is no longer live tries once more if it may claim, and
   * otherwise leaves it to the owner if that one listens. An instance that does not own the room
   * serves it too if it may claim it or the owner does not listen, and else forwards it.
   */
  ghost predicate Undisturbed(p: Plane, i: Instance, cmd: Command, delivered: (bool, bool, bool), outcome: Outcome) {
    if i !in p.owned then
      if MayClaim(p, i) || !delivered.0 then Answers(p, cmd, outcome) else outcome == Forwarded
    else if Holds(p, i, p.owned[i].fence) || MayClaim(p, i) then Answers(p, cmd, outcome)
    else outcome == if delivered.2 then Forwarded else Missing
  }

  lemma AnswersIgnoresTheLease(p: Plane, q: Plane, cmd: Command, outcome: Outcome)
    requires SameStore(p.(lease := q.lease), q)
    ensures Answers(p, cmd, outcome) <==> Answers(q, cmd, outcome)
  {
  }

  lemma ReadyIsAnswered(number: string -> Reading, p: Plane, i: Instance)
    requires Ready(p, i)
    ensures var Sent(cmd, fence, base) := p.tasks[i];
            Answers(p, cmd, Answer(Some(CommitScript(p, i, cmd, fence, base).1)))
  {
  }

  class ActorRoomStateStore {
    const number: string -> Reading
    const instance: Instance
    var world: Plane                       // the shared store and every instance's memory
    var elsewhere: seq<seq<Action>>        // what happens during each coming await
    ghost const origin: Plane
    ghost var trace: seq<Action>           // everything that has happened since `origin`

    ghost predicate Valid()
      reads this
    {
      && world == Run(number, origin, trace)
      && forall k | 0 <= k < |elsewhere| :: AllForeign(elsewhere[k], instance)
    }

    /** The commits of this instance so far. */
    ghost function Own(): nat
      reads this
    {
      Commits(number, origin, trace, instance)
    }

    /** No operation of this instance is under way. */
    ghost predicate Idle()
      reads this
    {
      instance !in world.tasks
    }

    constructor (number: string -> Reading, instance: Instance, world: Plane, elsewhere: seq<seq<Action>>)
      requires forall k | 0 <= k < |elsewhere| :: AllForeign(elsewhere[k], instance)
      ensures Valid() && this.world == world && origin == world && trace == []
      ensures this.number == number && this.instance == instance
    {
      this.number, this.instance, this.world, this.elsewhere := number, instance, world, elsewhere;
      origin, trace := world, [];
    }

    method Perform(a: Action)
      requires Valid()
      modifies this`world, this`trace
      ensures Valid() && world == Next(number, old(world), a) && trace == old(trace) + [a]
      ensures Own() == old(Own()) + if Accepts(old(world), a, instance) then 1 else 0
    {
      RunAppends(number, origin, trace, [a], instance);
      assert [a][1..] == [];
      assert Run(number, world, [a]) == Run(number, Next(number, world, a), []);
      assert Commits(number, world, [a], instance)
          == (if Accepts(world, a, instance) then 1 else 0) + Commits(number, Next(number, world, a), [], instance);
      world := Next(number, world, a);
      trace := trace + [a];
    }

    method Await()
      requires Valid()
      modifies this`world, this`trace, this`elsewhere
      ensures Valid() && old(trace) <= trace && Own() == old(Own())
      ensures SameQueue(old(world), world, instance) && old(world).stream <= world.stream
      ensures old(elsewhere) == [] ==> elsewhere == [] && world == old(world)
      ensures old(elsewhere) != [] ==>
                && elsewhere == old(elsewhere)[1..] && trace == old(trace) + old(elsewhere)[0]
                && world == Run(number, old(world), old(elsewhere)[0])
    {
      if elsewhere != [] {
        ghost var actions := elsewhere[0];
        RunAppends(number, origin, trace, actions, instance);
        ForeignKeepsQueue(number, world, actions, instance);
        world := Run(number, world, elsewhere[0]);
        trace := trace + actions;
        elsewhere := elsewhere[1..];
      }
    }

    /** A control finds the room unowned here and will claim it. */
    method Enter(cmd: Command)
      requires Valid() && Idle() && instance !in world.owned
      modifies this`world, this`trace
      ensures Valid() && old(trace) <= trace && Own() == old(Own())
      ensures instance in world.tasks && world.tasks[instance] == Claiming(cmd)
      ensures world.owned == old(world).owned && SameStore(old(world), world)
    {
      Perform(Ask(instance, cmd));
    }

    /** A control is left to the observed owner. */
    method Leave()
      requires Valid() && instance in world.tasks && world.tasks[instance].Observed?
      modifies this
      ensures Valid() && Idle() && old(trace) <= trace && Own() == old(Own())
      ensures old(elsewhere) == [] ==> elsewhere == [] && SameStore(old(world), world)
      ensures |elsewhere| == After(|old(elsewhere)|, 1)
    {
      Await(); // publish
      Perform(ActorPlane.Forward(instance));
    }

    /** The observed owner did not listen: revoke its lease, if it is still the one observed. */
    method Revoke(lease: Lease)
      requires Valid() && instance in world.tasks && world.tasks[instance] == Observed(world.tasks[instance].cmd, lease)
      modifies this
      ensures Valid() && old(trace) <= trace && Own() == old(Own())
      ensures instance in world.tasks && world.tasks[instance] == Claiming(old(world).tasks[instance].cmd)
      ensures old(elsewhere) == [] ==>
                && elsewhere == [] && world.owned == old(world).owned
                && SameStore(if old(world).lease == Some(lease) then old(world).(lease := None) else old(world), world)
      ensures |elsewhere| == After(|old(elsewhere)|, 2)
    {
      Await(); // publish
      Perform(Reclaim(lease));
      Await();
      Perform(Persist(instance));
    }

    /** Take the lease of an owner that does not listen: revoke it and claim again. */
    method Steal(lease: Lease, minted: string) returns (retaken: Lease)
      requires Valid() && instance in world.tasks && world.tasks[instance] == Observed(world.tasks[instance].cmd, lease)
      modifies this
      ensures Valid() && old(trace) <= trace && Own() == old(Own()) && instance in world.tasks
      ensures var cmd := old(world).tasks[instance].cmd;
              world.tasks[instance] == if retaken.owner == instance then Claimed(cmd, retaken.epoch)
                  else Observed(cmd, retaken)
      ensures old(elsewhere) == [] && old(world).lease == Some(lease) ==>
                && elsewhere == [] && retaken == Lease(instance, minted) && world.owned == old(world).owned
                && SameStore(old(world).(lease := Some(retaken)), world)
      ensures |elsewhere| == After(|old(elsewhere)|, 4)
    {
      Revoke(lease);
      retaken := Claim(minted);
    }

    /** The claim of the operation at the head of the queue; a foreign owner is returned as observed. */
    method Claim(minted: string) returns (lease: Lease)
      requires Valid() && instance in world.tasks && world.tasks[instance].Claiming?
      modifies this
      ensures Valid() && old(trace) <= trace && Own() == old(Own()) && instance in world.tasks
      ensures var cmd := old(world).tasks[instance].cmd;
              world.tasks[instance] == if lease.owner == instance then Claimed(cmd, lease.epoch)
                  else Observed(cmd, lease)
      ensures old(elsewhere) == [] ==>
                && elsewhere == [] && world.owned == old(world).owned && world.lease == Some(lease)
                && lease == old(world).lease.GetOr(Lease(instance, minted))
                && SameStore(old(world).(lease := Some(lease)), world)
      ensures |elsewhere| == After(|old(elsewhere)|, 2)
    {
      Await();
      Perform(ClaimFor(instance, minted));
      lease := world.lease.value;
      Await();
    }

    /** No local entry: read the stored state. */
    method Fetch() returns (found: bool)
      requires Valid() && instance in world.tasks && world.tasks[instance].Reading?
      modifies this
      ensures Valid() && old(trace) <= trace && Own() == old(Own())
      ensures if found then instance in world.tasks && world.tasks[instance].Loaded? &&
              world.tasks[instance].cmd == old(world).tasks[instance].cmd
              else Idle()
      ensures old(elsewhere) == [] ==>
                && elsewhere == [] && SameStore(old(world), world) && found == old(world).stored.Some?
                && (found ==> world.tasks[instance].fence == old(world).tasks[instance].fence)
      ensures |elsewhere| == After(|old(elsewhere)|, 1)
    {
      Await();
      Perform(Read(instance));
      return instance in world.tasks;
    }

    /** `get` and the caching of what it found: the local entry if there is one by now, else the stored state. */
    method Load() returns (found: bool)
      requires Valid() && instance in world.tasks && world.tasks[instance].Claimed?
      modifies this
      ensures Valid() && old(trace) <= trace && Own() == old(Own())
      ensures if found then instance in world.tasks && world.tasks[instance].Sent? &&
              world.tasks[instance].cmd == old(world).tasks[instance].cmd
              else Idle()
      ensures old(elsewhere) == [] && instance !in old(world).owned ==>
                && elsewhere == [] && SameStore(old(world), world) && found == old(world).stored.Some?
                && (found ==> world.tasks[instance].fence == old(world).tasks[instance].fence)
    {
      Perform(Look(instance));
      if world.tasks[instance].Reading? {
        found := Fetch();
        if !found {
          return;
        }
      }
      Await();
      Perform(Install(instance));
      return true;
    }

    /** The commit script runs, at some later moment than the call. */
    method Submit() returns (reply: Reply, ghost before: seq<Action>)
      requires Valid() && instance in world.tasks && world.tasks[instance].Sent?
      modifies this
      ensures Valid() && old(trace) <= before && trace == before + [Execute(instance)]
      ensures instance in world.tasks && world.tasks[instance].Answered? && world.tasks[instance].reply == reply &&
              Lined(world, instance)
      ensures Own() == old(Own()) + if reply.Accepted? then 1 else 0
      ensures reply.Accepted? ==>
                && reply.timeline in world.stream
                && Produces(number, Run(number, origin, before), instance, old(world).tasks[instance].cmd,
                   reply.timeline)
      ensures old(elsewhere) == [] && Ready(old(world), instance) ==>
              Answers(old(world), old(world).tasks[instance].cmd, Answer(Some(reply)))
      ensures old(elsewhere) == [] ==>
                && elsewhere == []
                && (!Holds(old(world), instance, old(world).tasks[instance].fence) ==>
                      reply.Rejected? && SameStore(old(world), world))
      ensures |elsewhere| == After(|old(elsewhere)|, 1)
    {
      Await();
      before := trace;
      ExecuteAnswers(number, world, instance);
      if Ready(world, instance) {
        ReadyIsAnswered(number, world, instance);
      }
      Perform(Execute(instance));
      reply := world.tasks[instance].reply;
    }

    /** Its reply arrives later still, behind the answers to earlier scripts, and is handled or lost. */
    method Receive(lost: bool)
      requires Valid() && instance in world.tasks && world.tasks[instance].Answered? && Lined(world, instance)
      modifies this
      ensures Valid() && Idle() && old(trace) <= trace && Own() == old(Own())
      ensures old(world).tasks[instance].reply.Rejected? && !lost ==> instance !in world.owned
      ensures forall tl | tl in old(world).stream :: tl in world.stream
      ensures old(elsewhere) == [] ==> elsewhere == [] && SameStore(old(world), world)
      ensures |elsewhere| == After(|old(elsewhere)|, 1)
    {
      Await();
      if lost {
        Perform(Fail(instance));
        return;
      }
      ghost var awaited := world;
      while world.tasks[instance].ahead > 0
        invariant Valid() && old(trace) <= trace && Own() == old(Own())
        invariant SameQueue(awaited, world, instance) && world.stream == awaited.stream
        invariant SameStore(awaited, world) && |elsewhere| == After(|old(elsewhere)|, 1)
        decreases world.tasks[instance].ahead
      {
        ForeignStepKeepsQueue(number, world, InitCached(instance), instance);
        Perform(InitCached(instance));
      }
      HandleReleases(number, world, instance);
      Perform(Handle(instance));
    }

    /** Send the commit, let the script decide, handle its reply; None if the reply was lost. */
    method Commit(lost: bool) returns (reply: Option<Reply>)
      requires Valid() && instance in world.tasks && world.tasks[instance].Sent?
      modifies this
      ensures Valid() && Idle() && old(trace) <= trace && (reply.None? <==> lost)
      ensures reply.Some? ==> Own() == old(Own()) + if reply.value.Accepted? then 1 else 0
      ensures reply.None? ==> Own() <= old(Own()) + 1
      ensures reply == Some(Rejected) ==> instance !in world.owned
      ensures reply.Some? && reply.value.Accepted? ==>
                && reply.value.timeline in world.stream
                && Refined(number, origin, trace, |old(trace)|, old(world).tasks[instance].cmd, reply.value.timeline)
      ensures old(elsewhere) == [] && Ready(old(world), instance) && !lost ==>
                Answers(old(world), old(world).tasks[instance].cmd, Answer(reply))
      ensures old(elsewhere) == [] && !Holds(old(world), instance, old(world).tasks[instance].fence) && !lost ==>
                elsewhere == [] && reply == Some(Rejected) && SameStore(old(world), world)
      ensures |elsewhere| == After(|old(elsewhere)|, 2)
    {
      ghost var cmd, before := world.tasks[instance].cmd, trace;
      var answer;
      answer, before := Submit();
      Receive(lost);
      if answer.Accepted? {
        CommitIsRefined(number, origin, before, trace, instance, cmd, answer.timeline);
        RefinedSince(number, origin, trace, |old(trace)|, |before|, cmd, answer.timeline);
      }
      reply := if lost then None else Some(answer);
    }

    /** A command is served from the cache. */
    method Serve(cmd: Command)
      requires Valid() && Idle() && instance in world.owned
      requires cmd.commit.Control? || world.owned[instance].timeline.isPlaying
      modifies this`world, this`trace
      ensures Valid() && old(trace) <= trace && Own() == old(Own()) && SameStore(old(world), world)
      ensures var entry := old(world).owned[instance];
              instance in world.tasks && world.tasks[instance] == Sent(cmd, entry.fence, entry.timeline)
    {
      Perform(Begin(instance, cmd));
    }

    /**
     * Bring a command that this instance does not own the room for to the point of committing:
     * claim the room, or forward the command to the owner, or take the lease of an owner that
     * answers no more.
     */
    method Acquire(cmd: Command, minted: (string, string), delivered: (bool, bool)) returns (settled: Option<Outcome>)
      requires Valid() && Idle() && instance !in world.owned
      modifies this
      ensures Valid() && old(trace) <= trace && Own() == old(Own())
      ensures if settled.Some? then Idle() && (settled.value.Forwarded? || settled.value.Missing?)
              else instance in world.tasks && world.tasks[instance].Sent? && world.tasks[instance].cmd == cmd
      ensures settled == Some(Forwarded) ==> delivered.0 || delivered.1
      ensures old(elsewhere) == [] && (MayClaim(old(world), instance) || !delivered.0) ==>
                && elsewhere == [] && SameStore(old(world).(lease := world.lease), world)
                && if old(world).stored.Some? then settled.None? && Ready(world, instance) else settled == Some(Missing)
      ensures old(elsewhere) == [] && old(world).lease.Some? && old(world).lease.value.owner != instance &&
              delivered.0 ==>
                settled == Some(Forwarded)
    {
      Enter(cmd);
      var lease := Claim(minted.0);
      if lease.owner != instance {
        if delivered.0 {
          Leave();
          return Some(Forwarded);
        }
        lease := Steal(lease, minted.1);
        if lease.owner != instance {
          Leave();
          return Some(if delivered.1 then Forwarded else Missing);
        }
      }
      var found := Load();
      return if found then None else Some(Missing);
    }

    /** A commit was fenced out: claim anew and commit once more, or forward to the new owner. */
    method Retry(cmd: Command, minted: string, delivered: bool, lost: bool) returns (outcome: Outcome)
      requires Valid() && Idle() && instance !in world.owned
      modifies this
      ensures Valid() && Idle() && old(trace) <= trace
      ensures !outcome.Failed? ==> Own() == old(Own()) + if outcome.Committed? then 1 else 0
      ensures outcome.Failed? ==> lost && Own() <= old(Own()) + 1
      ensures outcome.Committed? ==>
                outcome.timeline in world.stream && Refined(number, origin, trace, |old(trace)|, cmd, outcome.timeline)
      ensures outcome.Forwarded? ==> delivered
      ensures old(elsewhere) == [] && old(world).stored.Some? && !lost ==>
                if MayClaim(old(world), instance) then Answers(old(world), cmd, outcome)
                else outcome == if delivered then Forwarded else Missing
    {
      Enter(cmd);
      var lease := Claim(minted);
      if lease.owner != instance {
        Leave();
        return if delivered then Forwarded else Missing;
      }
      var found := Load();
      if !found {
        return Missing;
      }
      ghost var from, ready := |trace|, world;
      var reply := Commit(lost);
      if reply.Some? && reply.value.Accepted? {
        RefinedSince(number, origin, trace, |old(trace)|, from, cmd, reply.value.timeline);
      }
      if SameStore(old(world).(lease := ready.lease), ready) {
        AnswersIgnoresTheLease(old(world), ready, cmd, Answer(reply));
      }
      return Answer(reply);
    }

    /** Commit a command that is ready to be sent; if it is fenced out, once more. */
    method Conclude(cmd: Command, minted: string, delivered: bool, lost: (bool, bool)) returns (outcome: Outcome)
      requires Valid() && instance in world.tasks && world.tasks[instance].Sent? && world.tasks[instance].cmd == cmd
      modifies this
      ensures Valid() && Idle() && old(trace) <= trace
      ensures !outcome.Failed? ==> Own() == old(Own()) + if outcome.Committed? then 1 else 0
      ensures outcome.Failed? ==> (lost.0 || lost.1) && Own() <= old(Own()) + 1
      ensures outcome.Committed? ==>
                outcome.timeline in world.stream && Refined(number, origin, trace, |old(trace)|, cmd, outcome.timeline)
      ensures outcome.Forwarded? ==> delivered
      ensures old(elsewhere) == [] && old(world).stored.Some? && !lost.0 && !lost.1 ==>
                if Holds(old(world), instance, old(world).tasks[instance].fence) || MayClaim(old(world), instance)
                then Answers(old(world), cmd, outcome)
                else outcome == if delivered then Forwarded else Missing
    {
      ghost var from, fenced := |trace|, world;
      var reply := Commit(lost.0);
      if reply == Some(Rejected) {
        from, fenced := |trace|, world;
        outcome := Retry(cmd, minted, delivered, lost.1);
      } else {
        outcome := Answer(reply);
      }
      if SameStore(old(world), fenced) {
        AnswersIgnoresTheLease(old(world), fenced, cmd, outcome);
      }
      if outcome.Committed? {
        RefinedSince(number, origin, trace, |old(trace)|, from, cmd, outcome.timeline);
      }
    }

    /**
     * One control, start to finish, with a second attempt if the commit is fenced out. `minted`
     * are the epochs that new claims would receive, `delivered` says of each publish whether
     * somebody listened, and `lost` of each commit whether its reply failed to arrive.
     *
     * In every schedule the command is committed once if the answer is `committed`, at most once
     * if the call fails on a lost reply, and not at all otherwise; and in a clean run a committed
     * one acted on the timeline the shared store held at that moment. It is forwarded only to
     * somebody who listens, and undisturbed, the answer is exactly the one that the lease, the
     * state of the shared store and the owner's silence call for.
     */
    method ApplyControlSerial(cmd: Command, minted: (string, string, string), delivered: (bool, bool, bool),
                              lost: (bool, bool))
      returns (outcome: Outcome)
      requires Valid() && Idle() && cmd.commit.Control?
      modifies this
      ensures Valid() && Idle() && old(trace) <= trace
      ensures !outcome.Failed? ==> Own() == old(Own()) + if outcome.Committed? then 1 else 0
      ensures outcome.Failed? ==> (lost.0 || lost.1) && Own() <= old(Own()) + 1
      ensures outcome.Committed? ==>
                outcome.timeline in world.stream && Refined(number, origin, trace, |old(trace)|, cmd, outcome.timeline)
      ensures outcome.Forwarded? ==> delivered.0 || delivered.1 || delivered.2
      ensures old(elsewhere) == [] && old(world).stored.Some? && !lost.0 && !lost.1 ==>
                Undisturbed(old(world), instance, cmd, delivered, outcome)
      ensures old(elsewhere) == [] && old(world).stored.None? && instance !in old(world).owned ==>
                outcome == if MayClaim(old(world), instance) || !delivered.0 then Missing else Forwarded
    {
      if instance in world.owned {
        Serve(cmd);
      } else {
        var settled := Acquire(cmd, (minted.0, minted.1), (delivered.0, delivered.1));
        if settled.Some? {
          return settled.value;
        }
      }
      ghost var from, ready := |trace|, world;
      outcome := Conclude(cmd, minted.2, delivered.2, lost);
      if SameStore(old(world).(lease := ready.lease), ready) {
        AnswersIgnoresTheLease(old(world), ready, cmd, outcome);
      }
      if outcome.Committed? {
        RefinedSince(number, origin, trace, |old(trace)|, from, cmd, outcome.timeline);
      }
    }

    /** Only the owner of a playing room sweeps it. */
    method ApplySnapshot(at: real, lost: bool) returns (committed: Option<Timeline>)
      requires Valid() && Idle()
      modifies this
      ensures Valid() && Idle() && old(trace) <= trace
      ensures instance !in old(world).owned || !old(world).owned[instance].timeline.isPlaying ==>
                committed.None? && world == old(world)
      ensures Own() <= old(Own()) + 1
      ensures instance in old(world).owned && old(elsewhere) == [] && old(world).stored.Some? && !lost ==>
                var entry := old(world).owned[instance];
                entry.timeline.isPlaying && Holds(old(world), instance, entry.fence) ==>
                  committed.Some? && Own() == old(Own()) + 1
      ensures Own() > old(Own()) && !lost ==>
                committed.Some? && Refined(number, origin, trace, |old(trace)|, Sweeping(at), committed.value)
    {
      if instance !in world.owned || !world.owned[instance].timeline.isPlaying {
        return None;
      }
      Serve(Sweeping(at));
      ghost var from := |trace|;
      var reply := Commit(lost);
      if reply.Some? && reply.value.Accepted? {
        RefinedSince(number, origin, trace, |old(trace)|, from, Sweeping(at), reply.value.timeline);
      }
      return if reply.None? || reply.value.Rejected? then None else Some(reply.value.timeline);
    }
  }

  function Sweeping(at: real): Command {
    Command(Sweep, at, "", None, None)
  }

  /** The answer given for a commit's reply; one that is fenced out twice is given up. */
  function Answer(reply: Option<Reply>): Outcome {
    match reply
    case None => Failed
    case Some(Rejected) => Missing
    case Some(Dup(tl)) => Duplicate(tl)
    case Some(VideoFenced(tl)) => Fenced(tl)
    case Some(Accepted(tl)) => Committed(tl)
  }
}
