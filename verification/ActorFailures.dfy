/**
 * Where the promises of the actor plane end: the exact conditions under which a step leaves an
 * instance with a wrong cache, a legal run in which that happens, and what becomes of a room whose
 * timeline key expires under its lease.
 */
module ActorFailures {
  import opened Common
  import opened Timelines
  import Rooms = RoomRuns
  import opened Clients
  import opened ActorPlane

  // ---- where the cache goes wrong ----

  /** The live lease is cached with another state than the stored one. */
  ghost predicate WrongCache(p: Plane, i: Instance) {
    i in p.owned && Holds(p, i, p.owned[i].fence) && !(p.stored.Some? && SameState(p.owned[i].timeline, p.stored.value))
  }

  /**
   * The look under a claimed fence keeps the instances right if and only if it finds no local
   * entry, or one of the claimed fence, or one that still equals the stored state, or the lease
   * is gone again; otherwise the next step caches a wrong state under the live lease.
   */
  lemma LookIsSafeExactlyUnlessStale(number: string -> Reading, p: Plane, i: Instance)
    requires Inv(number, p) && i in p.tasks && p.tasks[i].Claimed?
    ensures InstancesSound(number, Next(number, p, Look(i))) <==>
            || i !in p.owned || p.owned[i].fence == p.tasks[i].fence
            || !Holds(p, i, p.tasks[i].fence)
            || (p.stored.Some? && SameState(p.owned[i].timeline, p.stored.value))
    ensures StaleLook(p, i) ==> WrongCache(Next(number, Next(number, p, Look(i)), Install(i)), i)
  {
    var p' := Next(number, p, Look(i));
    if StaleLook(p, i) {
      assert !Sound(number, p', i);
    } else {
      StepKeepsInstancesSound(number, p, Look(i));
    }
  }

  /**
   * Losing the reply of an operation keeps the instances right if and only if its commit was not
   * accepted, or its lease is gone, or no entry cached or about to be cached carries its fence.
   */
  lemma FailureIsSafeExactlyUnlessCommitted(number: string -> Reading, p: Plane, i: Instance)
    requires Inv(number, p)
    ensures InstancesSound(number, Next(number, p, Fail(i))) <==> !LostCommit(p, i)
    ensures LostCommit(p, i) && i in p.owned && p.owned[i].fence == p.tasks[i].fence ==>
            WrongCache(Next(number, p, Fail(i)), i)
  {
    var p' := Next(number, p, Fail(i));
    assert Sound(number, p, i);
    if LostCommit(p, i) {
      var fence := p.tasks[i].fence;
      if !(i in p.owned && p.owned[i].fence == fence) {
        var k :| 0 <= k < p.tasks[i].ahead && k < |Pending(p, i)| && Pending(p, i)[k].fence == fence;
        assert EntrySound(number, p, i, Pending(p, i)[k], Early(p, i, k));
        assert !EntrySound(number, p', i, Pending(p', i)[k], Early(p', i, k));
      }
      assert !Sound(number, p', i);
    } else {
      StepKeepsInstancesSound(number, p, Fail(i));
    }
  }

  /** Every look finds no entry or one of the fence it claimed, and no accepted commit loses its reply. */
  ghost predicate Careful(number: string -> Reading, p: Plane, actions: seq<Action>)
    decreases |actions|
  {
    actions == [] ||
    (var a := actions[0];
     && (a.Look? && a.i in p.tasks && p.tasks[a.i].Claimed? && a.i in p.owned ==>
        p.owned[a.i].fence == p.tasks[a.i].fence)
     && (a.Fail? ==> !Committing(p, a.i))
     && Careful(number, Next(number, p, a), actions[1..]))
  }

  /** So the fence comparison that `get` lacks, and prompt replies, would be enough. */
  lemma {:induction false} CarefulRunsAreClean(number: string -> Reading, p: Plane, actions: seq<Action>)
    requires LegalRun(number, p, actions) && Careful(number, p, actions)
    ensures CleanRun(number, p, actions)
    decreases |actions|
  {
    if actions != [] {
      CarefulRunsAreClean(number, Next(number, p, actions[0]), actions[1..]);
    }
  }

  // ---- the failing run ----

  lemma RunOfTwo(number: string -> Reading, p: Plane, a: Action, b: Action)
    ensures var q := Next(number, p, a);
            && Run(number, p, [a, b]) == Next(number, q, b)
            && (LegalRun(number, p, [a, b]) <==> Legal(number, p, a) && Legal(number, q, b))
  {
    var q := Next(number, p, a);
    assert [a, b][1..] == [b] && [b][1..] == [];
    assert Run(number, q, [b]) == Run(number, Next(number, q, b), []);
    assert LegalRun(number, q, [b]) <==> Legal(number, q, b) && LegalRun(number, Next(number, q, b), []);
  }

  lemma RunOfThree(number: string -> Reading, p: Plane, a: Action, b: Action, c: Action)
    ensures var q := Next(number, p, a);
            && Run(number, p, [a, b, c]) == Next(number, Next(number, q, b), c)
            && (LegalRun(number, p, [a, b, c]) <==>
                Legal(number, p, a) && Legal(number, q, b) && Legal(number, Next(number, q, b), c))
  {
    assert [a, b, c][1..] == [b, c];
    RunOfTwo(number, Next(number, p, a), b, c);
  }

  lemma {:induction false} RunsJoin(number: string -> Reading, p: Plane, xs: seq<Action>, ys: seq<Action>)
    ensures Run(number, p, xs + ys) == Run(number, Run(number, p, xs), ys)
    ensures LegalRun(number, p, xs + ys) <==> LegalRun(number, p, xs) && LegalRun(number, Run(number, p, xs), ys)
    decreases |xs|
  {
    if xs == [] {
      assert xs + ys == ys;
    } else {
      assert (xs + ys)[1..] == xs[1..] + ys;
      RunsJoin(number, Next(number, p, xs[0]), xs[1..], ys);
    }
  }

  predicate After(number: string -> Reading, newest: real, minted: string) {
    number(minted).Finite? && number(minted).value > newest
  }

  /** A plain control: no id, no fence on the video. */
  predicate Plain(cmd: Command, intent: Intent) {
    cmd.commit.Control? && cmd.commit.intent == intent && cmd.cmdId.None? && cmd.forVideoId.None?
  }

  function Born(now: real, e: string): Timeline {
    Timeline(0, e, None, false, 0.0, now, Join, None)
  }

  /** `i` creates the room and pauses before it sees the answer; its lease expires. */
  lemma Opens(number: string -> Reading, now: real, newest: real, i: Instance, e: string)
    requires After(number, newest, e)
    ensures LegalRun(number, Untouched(now, newest), [Claim(i, e), InitScript(i, e, None, 0.0), LeaseExpires])
    ensures Run(number, Untouched(now, newest), [Claim(i, e), InitScript(i, e, None, 0.0), LeaseExpires])
            == Plane(None, Some(Born(now, e)), Records(map[], []), now, map[], map[],
                     map[i := [Entry(e, Born(now, e))]], number(e).value, [Born(now, e)])
  {
    RunOfThree(number, Untouched(now, newest), Claim(i, e), InitScript(i, e, None, 0.0), LeaseExpires);
    assert [] + [Entry(e, Born(now, e))] == [Entry(e, Born(now, e))];
    assert [] + [Born(now, e)] == [Born(now, e)];
  }

  /** A control finds the room unowned here and claims a free lease. */
  lemma Claims(number: string -> Reading, p: Plane, i: Instance, cmd: Command, e: string)
    requires p.lease.None? && i !in p.owned && i !in p.tasks && After(number, p.newest, e)
    ensures LegalRun(number, p, [Ask(i, cmd), ClaimFor(i, e)])
    ensures Run(number, p, [Ask(i, cmd), ClaimFor(i, e)])
            == p.(lease := Some(Lease(i, e)), newest := number(e).value, tasks := p.tasks[i := Claimed(cmd, e)])
  {
    RunOfTwo(number, p, Ask(i, cmd), ClaimFor(i, e));
    assert p.tasks[i := Claiming(cmd)][i := Claimed(cmd, e)] == p.tasks[i := Claimed(cmd, e)];
  }

  lemma LookThenRead(number: string -> Reading, p: Plane, i: Instance, cmd: Command, e: string)
    requires i in p.tasks && p.tasks[i] == Claimed(cmd, e) && i !in p.owned && p.stored.Some?
    ensures Next(number, Next(number, p, Look(i)), Read(i)) == p.(tasks := p.tasks[i := Loaded(cmd, e, p.stored.value)])
  {
    assert Next(number, p, Look(i)) == p.(tasks := p.tasks[i := Reading(cmd, e)]);
    assert p.tasks[i := Reading(cmd, e)][i := Loaded(cmd, e, p.stored.value)] ==
           p.tasks[i := Loaded(cmd, e, p.stored.value)];
  }

  lemma InstallsLoaded(number: string -> Reading, p: Plane, q: Plane, i: Instance, cmd: Command, e: string,
                       tl: Timeline)
    requires q == p.(tasks := p.tasks[i := Loaded(cmd, e, tl)])
    ensures Next(number, q, Install(i)) ==
            p.(owned := p.owned[i := Entry(e, tl)], tasks := p.tasks[i := Sent(cmd, e, tl)])
  {
    assert p.tasks[i := Loaded(cmd, e, tl)][i := Sent(cmd, e, tl)] == p.tasks[i := Sent(cmd, e, tl)];
  }

  lemma Reads(number: string -> Reading, p: Plane, i: Instance, cmd: Command, e: string)
    requires i in p.tasks && p.tasks[i] == Claimed(cmd, e) && i !in p.owned && p.stored.Some?
    ensures LegalRun(number, p, [Look(i), Read(i), Install(i)])
    ensures Run(number, p, [Look(i), Read(i), Install(i)])
            == p.(owned := p.owned[i := Entry(e, p.stored.value)], tasks := p.tasks[i := Sent(cmd, e, p.stored.value)])
  {
    RunOfThree(number, p, Look(i), Read(i), Install(i));
    LookThenRead(number, p, i, cmd, e);
    InstallsLoaded(number, p, Next(number, Next(number, p, Look(i)), Read(i)), i, cmd, e, p.stored.value);
  }

  /** A plain control is committed, and the lease expires. */
  lemma Commits(number: string -> Reading, p: Plane, i: Instance, cmd: Command, e: string, base: Timeline)
    requires i in p.tasks && p.tasks[i] == Sent(cmd, e, base) && p.lease == Some(Lease(i, e)) && Plain(cmd, IPlay)
    ensures LegalRun(number, p, [Execute(i), LeaseExpires])
    ensures var q := Run(number, p, [Execute(i), LeaseExpires]);
            && q.lease.None? && q.stored.Some? && q.stored.value.isPlaying && q.newest == p.newest
            && q.owned == p.owned && q.inits == p.inits && q.tasks.Keys == p.tasks.Keys
  {
    RunOfTwo(number, p, Execute(i), LeaseExpires);
  }

  lemma Acquires(number: string -> Reading, p: Plane, i: Instance, cmd: Command, e: string)
    requires p.lease.None? && p.stored.Some? && i !in p.owned && i !in p.tasks && After(number, p.newest, e)
    ensures LegalRun(number, p, [Ask(i, cmd), ClaimFor(i, e)] + [Look(i), Read(i), Install(i)])
    ensures Run(number, p, [Ask(i, cmd), ClaimFor(i, e)] + [Look(i), Read(i), Install(i)])
            == p.(lease := Some(Lease(i, e)), newest := number(e).value,
                  owned := p.owned[i := Entry(e, p.stored.value)], tasks := p.tasks[i := Sent(cmd, e, p.stored.value)])
  {
    Claims(number, p, i, cmd, e);
    var claimed := Run(number, p, [Ask(i, cmd), ClaimFor(i, e)]);
    Reads(number, claimed, i, cmd, e);
    RunsJoin(number, p, [Ask(i, cmd), ClaimFor(i, e)], [Look(i), Read(i), Install(i)]);
    assert p.tasks[i := Claimed(cmd, e)][i := Sent(cmd, e, p.stored.value)] ==
           p.tasks[i := Sent(cmd, e, p.stored.value)];
  }

  /** `j` takes a free room over, plays it, and loses it again. */
  function Takeover(j: Instance, play: Command, e: string): seq<Action> {
    [Ask(j, play), ClaimFor(j, e)] + [Look(j), Read(j), Install(j)] + [Execute(j), LeaseExpires]
  }

  lemma TakesOver(number: string -> Reading, p: Plane, j: Instance, play: Command, e: string)
    requires p.lease.None? && p.stored.Some? && j !in p.owned && j !in p.tasks
    requires After(number, p.newest, e) && Plain(play, IPlay)
    ensures LegalRun(number, p, Takeover(j, play, e))
    ensures var q := Run(number, p, Takeover(j, play, e));
            && q.lease.None? && q.stored.Some? && q.stored.value.isPlaying && q.newest == number(e).value
            && q.inits == p.inits && q.owned.Keys == p.owned.Keys + {j} && q.tasks.Keys == p.tasks.Keys + {j}
  {
    var acquisition := [Ask(j, play), ClaimFor(j, e)] + [Look(j), Read(j), Install(j)];
    Acquires(number, p, j, play, e);
    Commits(number, Run(number, p, acquisition), j, play, e, p.stored.value);
    RunsJoin(number, p, acquisition, [Execute(j), LeaseExpires]);
  }

  /** The late answer is cached, found, and installed under the fence just claimed. */
  lemma InstallsLateAnswer(number: string -> Reading, p: Plane, i: Instance, cmd: Command, e: string, late: Entry)
    requires i in p.tasks && p.tasks[i] == Claimed(cmd, e) && Pending(p, i) == [late]
    ensures LegalRun(number, p, [InitCached(i), Look(i), Install(i)])
    ensures var q := Run(number, p, [InitCached(i), Look(i), Install(i)]);
            && q.lease == p.lease && q.stored == p.stored && q.records == p.records && q.now == p.now
            && i in q.owned && q.owned[i] == Entry(e, late.timeline) && Pending(q, i) == []
            && i in q.tasks && q.tasks[i] == Sent(cmd, e, late.timeline)
  {
    RunOfThree(number, p, InitCached(i), Look(i), Install(i));
  }

  /** The commit about to run is a seek that will be accepted and stop the room. */
  ghost predicate SeekWillPause(p: Plane, i: Instance) {
    && i in p.tasks && p.tasks[i].Sent?
    && var Sent(cmd, fence, base) := p.tasks[i];
       var reply := CommitScript(p, i, cmd, fence, base).1;
       reply.Accepted? && reply.timeline.reason == Seek && !reply.timeline.isPlaying
  }

  /** `i` revives with a seek; only now is the answer of its init cached. */
  function Revival(i: Instance, seek: Command, e: string): seq<Action> {
    [Ask(i, seek), ClaimFor(i, e)] + [InitCached(i), Look(i), Install(i)]
  }

  lemma Revives(number: string -> Reading, p: Plane, i: Instance, seek: Command, e: string, late: Entry)
    requires p.lease.None? && p.stored.Some? && p.stored.value.isPlaying && i !in p.owned && i !in p.tasks
    requires After(number, p.newest, e) && Plain(seek, ISeek) && Pending(p, i) == [late] && !late.timeline.isPlaying
    ensures LegalRun(number, p, Revival(i, seek, e))
    ensures var q := Run(number, p, Revival(i, seek, e));
            WrongCache(q, i) && q.stored == p.stored && SeekWillPause(q, i)
  {
    Claims(number, p, i, seek, e);
    var p1 := Run(number, p, [Ask(i, seek), ClaimFor(i, e)]);
    InstallsLateAnswer(number, p1, i, seek, e, late);
    RunsJoin(number, p, [Ask(i, seek), ClaimFor(i, e)], [InitCached(i), Look(i), Install(i)]);
  }

  /**
   * The promise fails in a legal run: after a handoff, a control on a revived instance finds the
   * late answer of the instance's own init, installs it under the lease it has just claimed, and
   * an accepted seek, which may not touch the playing state, pauses the playing room.
   */
  lemma LateInitAnswerPausesTheRoom(number: string -> Reading, now: real, newest: real, i: Instance, j: Instance,
                                    play: Command, seek: Command, e1: string, e2: string, e3: string)
    requires i != j && Plain(play, IPlay) && Plain(seek, ISeek)
    requires After(number, newest, e1) && After(number, number(e1).value, e2) && After(number, number(e2).value, e3)
    ensures var opening := [Claim(i, e1), InitScript(i, e1, None, 0.0), LeaseExpires];
            var actions := opening + Takeover(j, play, e2) + Revival(i, seek, e3);
            && LegalRun(number, Untouched(now, newest), actions)
            && var p := Run(number, Untouched(now, newest), actions);
               WrongCache(p, i) && p.stored.Some? && p.stored.value.isPlaying && SeekWillPause(p, i)
  {
    var p0, opening := Untouched(now, newest), [Claim(i, e1), InitScript(i, e1, None, 0.0), LeaseExpires];
    Opens(number, now, newest, i, e1);
    var p1 := Run(number, p0, opening);
    TakesOver(number, p1, j, play, e2);
    var p2 := Run(number, p1, Takeover(j, play, e2));
    assert i !in p2.owned.Keys && i !in p2.tasks.Keys;
    Revives(number, p2, i, seek, e3, Entry(e1, Born(now, e1)));
    RunsJoin(number, p0, opening, Takeover(j, play, e2));
    RunsJoin(number, p0, opening + Takeover(j, play, e2), Revival(i, seek, e3));
  }

  /** A plain control under the live lease is accepted, and leaves the entry it was served from behind. */
  lemma ServedThenLost(number: string -> Reading, p: Plane, i: Instance, cmd: Command)
    requires i in p.owned && i !in p.tasks && Holds(p, i, p.owned[i].fence)
    requires cmd.commit.Control? && cmd.cmdId.None? && cmd.forVideoId.None?
    ensures var q := Next(number, Next(number, p, Begin(i, cmd)), Execute(i));
            LostCommit(q, i) && i in q.owned && q.owned[i].fence == q.tasks[i].fence
  {
    var p1 := Next(number, p, Begin(i, cmd));
    assert p1.tasks[i] == Sent(cmd, p.owned[i].fence, p.owned[i].timeline);
  }

  /** A lost reply is enough for the other failure: any idle owner whose commit runs but errors is left behind. */
  lemma LostReplyLeavesTheCacheBehind(number: string -> Reading, p: Plane, i: Instance, cmd: Command)
    requires Inv(number, p) && i in p.owned && i !in p.tasks && Holds(p, i, p.owned[i].fence)
    requires cmd.commit.Control? && cmd.cmdId.None? && cmd.forVideoId.None?
    ensures LegalRun(number, p, [Begin(i, cmd), Execute(i), Fail(i)])
    ensures WrongCache(Run(number, p, [Begin(i, cmd), Execute(i), Fail(i)]), i)
  {
    RunOfThree(number, p, Begin(i, cmd), Execute(i), Fail(i));
    var p1 := Next(number, p, Begin(i, cmd));
    CleanStepKeepsInv(number, p, Begin(i, cmd));
    CleanStepKeepsInv(number, p1, Execute(i));
    ServedThenLost(number, p, i, cmd);
    FailureIsSafeExactlyUnlessCommitted(number, Next(number, p1, Execute(i)), i);
  }

  // ---- where deduplication ends ----

  /**
   * An accepted identified commit keeps the dedup keys equal to the commit history if and only if
   * the timeline key is there: without it the script neither looks the id up nor sets its key.
   */
  lemma CommitIsKeyedExactlyWhenStored(p: Plane, i: Instance, cmd: Command, fence: string, base: Timeline)
    requires Truthful(p.records, p.now) && Identified(cmd) && CommitScript(p, i, cmd, fence, base).1.Accepted?
    ensures Truthful(CommitScript(p, i, cmd, fence, base).0.records, p.now) <==> p.stored.Some?
  {
    var records := CommitScript(p, i, cmd, fence, base).0.records;
    if p.stored.Some? {
      ScriptKeepsTruthful(p, i, cmd, fence, base);
    } else {
      Rooms.UnrecordedIsUnfaithful(p.records.live, p.records.receipts, cmd.cmdId.value, p.now);
    }
  }

  /** The promise broken: the command has now committed twice too soon, or would not be known if it came again. */
  lemma UnkeyedCommitBreaksDedup(p: Plane, i: Instance, cmd: Command, fence: string, base: Timeline, again: Timeline)
    requires Truthful(p.records, p.now) && Identified(cmd) && p.stored.None? && Holds(p, i, fence)
    ensures var (q, reply) := CommitScript(p, i, cmd, fence, base);
            && reply.Accepted? && Rooms.Recent(q.records.receipts, cmd.cmdId.value, q.now)
            && (Rooms.CommitsApart(q.records.receipts) ==> !CommitScript(q, i, cmd, fence, again).1.Dup?)
  {
    Rooms.UnrecordedIsUnfaithful(p.records.live, p.records.receipts, cmd.cmdId.value, p.now);
    Rooms.RecentExactlyWhenUnexpired(p.records.live, p.records.receipts, cmd.cmdId.value, p.now);
  }

  /** The same opening as above, but the room is cleared while the answer of its init is late. */
  lemma OpensAndClears(number: string -> Reading, now: real, newest: real, i: Instance, e: string)
    requires After(number, newest, e)
    ensures LegalRun(number, Untouched(now, newest), [Claim(i, e), InitScript(i, e, None, 0.0), Clear])
    ensures Run(number, Untouched(now, newest), [Claim(i, e), InitScript(i, e, None, 0.0), Clear])
            == Plane(None, None, Records(map[], []), now, map[], map[], map[i := [Entry(e, Born(now, e))]],
                     number(e).value, [Born(now, e)])
  {
    RunOfThree(number, Untouched(now, newest), Claim(i, e), InitScript(i, e, None, 0.0), Clear);
    assert [] + [Entry(e, Born(now, e))] == [Entry(e, Born(now, e))];
    assert [] + [Born(now, e)] == [Born(now, e)];
  }

  /** An identified control without a fence on the video. */
  predicate Named(cmd: Command) {
    cmd.commit.Control? && Identified(cmd) && cmd.forVideoId.None?
  }

  /** Over no stored state the commit is accepted and handled, and no key is set. */
  lemma CommitsUnkeyed(number: string -> Reading, p: Plane, i: Instance, cmd: Command, e: string, base: Timeline)
    requires i in p.tasks && p.tasks[i] == Sent(cmd, e, base) && Holds(p, i, e) && p.stored.None? && Named(cmd)
    requires i in p.owned && p.owned[i].fence == e && Pending(p, i) == []
    ensures LegalRun(number, p, [Execute(i), Handle(i)])
    ensures var q := Run(number, p, [Execute(i), Handle(i)]);
            && Holds(q, i, e) && q.stored.Some? && q.now == p.now && i in q.owned && q.owned[i].fence == e &&
               i !in q.tasks
            && q.records == Records(p.records.live, p.records.receipts + [Rooms.Receipt(cmd.cmdId.value, p.now)])
  {
    RunOfTwo(number, p, Execute(i), Handle(i));
  }

  /** The same command again: its id is not known, so it commits again. */
  lemma CommitsAgain(number: string -> Reading, p: Plane, i: Instance, cmd: Command)
    requires i in p.owned && i !in p.tasks && Holds(p, i, p.owned[i].fence) && p.stored.Some? && Named(cmd)
    requires cmd.cmdId.value !in p.records.live
    ensures LegalRun(number, p, [Begin(i, cmd), Execute(i)])
    ensures Run(number, p, [Begin(i, cmd), Execute(i)]).records.receipts ==
            p.records.receipts + [Rooms.Receipt(cmd.cmdId.value, p.now)]
  {
    RunOfTwo(number, p, Begin(i, cmd), Execute(i));
    assert Next(number, p, Begin(i, cmd)).tasks[i] == Sent(cmd, p.owned[i].fence, p.owned[i].timeline);
  }

  lemma CommitsTwice(number: string -> Reading, p: Plane, i: Instance, cmd: Command, e: string, base: Timeline)
    requires i in p.tasks && p.tasks[i] == Sent(cmd, e, base) && Holds(p, i, e) && p.stored.None? && Named(cmd)
    requires i in p.owned && p.owned[i].fence == e && Pending(p, i) == [] && cmd.cmdId.value !in p.records.live
    ensures LegalRun(number, p, [Execute(i), Handle(i)] + [Begin(i, cmd), Execute(i)])
    ensures var r := Rooms.Receipt(cmd.cmdId.value, p.now);
            Run(number, p, [Execute(i), Handle(i)] + [Begin(i, cmd), Execute(i)]).records.receipts
            == p.records.receipts + [r] + [r]
  {
    CommitsUnkeyed(number, p, i, cmd, e, base);
    CommitsAgain(number, Run(number, p, [Execute(i), Handle(i)]), i, cmd);
    RunsJoin(number, p, [Execute(i), Handle(i)], [Begin(i, cmd), Execute(i)]);
  }

  lemma RevivesCleared(number: string -> Reading, p: Plane, i: Instance, cmd: Command, e: string, late: Entry)
    requires p.lease.None? && i !in p.owned && i !in p.tasks && After(number, p.newest, e) && Pending(p, i) == [late]
    ensures LegalRun(number, p, Revival(i, cmd, e))
    ensures var q := Run(number, p, Revival(i, cmd, e));
            && Holds(q, i, e) && q.stored == p.stored && q.records == p.records && q.now == p.now && Pending(q, i) == []
            && i in q.owned && q.owned[i].fence == e && i in q.tasks && q.tasks[i] == Sent(cmd, e, late.timeline)
  {
    Claims(number, p, i, cmd, e);
    var claimed := Run(number, p, [Ask(i, cmd), ClaimFor(i, e)]);
    InstallsLateAnswer(number, claimed, i, cmd, e, late);
    RunsJoin(number, p, [Ask(i, cmd), ClaimFor(i, e)], [InitCached(i), Look(i), Install(i)]);
  }

  function TwiceServed(i: Instance, cmd: Command): seq<Action> {
    [Execute(i), Handle(i)] + [Begin(i, cmd), Execute(i)]
  }

  lemma RevivesAndRepeats(number: string -> Reading, p: Plane, i: Instance, cmd: Command, e: string, late: Entry)
    requires p.lease.None? && i !in p.owned && i !in p.tasks && After(number, p.newest, e) && Pending(p, i) == [late]
    requires p.stored.None? && p.records == Records(map[], []) && Named(cmd)
    ensures LegalRun(number, p, Revival(i, cmd, e) + TwiceServed(i, cmd))
    ensures var r := Rooms.Receipt(cmd.cmdId.value, p.now);
            Run(number, p, Revival(i, cmd, e) + TwiceServed(i, cmd)).records.receipts == [r, r]
  {
    RevivesCleared(number, p, i, cmd, e, late);
    var revived := Run(number, p, Revival(i, cmd, e));
    CommitsTwice(number, revived, i, cmd, e, late.timeline);
    RunsJoin(number, p, Revival(i, cmd, e), TwiceServed(i, cmd));
    var r := Rooms.Receipt(cmd.cmdId.value, p.now);
    assert [] + [r] + [r] == [r, r];
  }

  /** The late answer is installed over a cleared room, and the same command is delivered twice. */
  function Repetition(i: Instance, cmd: Command, e1: string, e2: string): seq<Action> {
    [Claim(i, e1), InitScript(i, e1, None, 0.0), Clear] + (Revival(i, cmd, e2) + TwiceServed(i, cmd))
  }

  /**
   * Exactly once fails in a legal run: a room cleared while the answer of its init is late lets one
   * identified command commit twice at the same instant, the first time over no stored state.
   */
  lemma ClearedRoomCommitsTwice(number: string -> Reading, now: real, newest: real, i: Instance, cmd: Command,
                                e1: string, e2: string)
    requires After(number, newest, e1) && After(number, number(e1).value, e2) && Named(cmd)
    ensures LegalRun(number, Untouched(now, newest), Repetition(i, cmd, e1, e2))
    ensures var r := Rooms.Receipt(cmd.cmdId.value, now);
            IdentifiedCommits(number, Untouched(now, newest), Repetition(i, cmd, e1, e2)) == [r, r]
  {
    var start, opening := Untouched(now, newest), [Claim(i, e1), InitScript(i, e1, None, 0.0), Clear];
    OpensAndClears(number, now, newest, i, e1);
    var cleared := Run(number, start, opening);
    RevivesAndRepeats(number, cleared, i, cmd, e2, Entry(e1, Born(now, e1)));
    RunsJoin(number, start, opening, Revival(i, cmd, e2) + TwiceServed(i, cmd));
    ReceiptsAreTheIdentifiedCommits(number, start, Repetition(i, cmd, e1, e2));
    var commits := IdentifiedCommits(number, start, Repetition(i, cmd, e1, e2));
    assert start.records.receipts + commits == commits;
  }

  // ---- where the assumption on the timeline key is needed ----

  /**
   * The one thing the plane cannot survive is the stored timeline expiring under a live lease
   * (its key lives a day past the last commit, and a paused room commits nothing). A commit by
   * the live owner then advances past the last committed state if and only if the stored state is
   * still there, or that state belongs to an older fence or to the room's birth.
   */
  lemma CommitAdvancesExactlyWhenTheStateSurvives(number: string -> Reading, p: Plane, i: Instance, cmd: Command,
                                                  base: Timeline, last: Timeline)
    requires p.lease.Some? && p.lease.value.owner == i
    requires p.stored.Some? ==> p.stored.value == last
    requires last.storeEpoch == p.lease.value.epoch ||
             (number(last.storeEpoch).Finite? && number(p.lease.value.epoch).Finite? &&
              number(last.storeEpoch).value < number(p.lease.value.epoch).value)
    requires CommitScript(p, i, cmd, p.lease.value.epoch, base).1.Accepted?
    ensures Newer(number, CommitScript(p, i, cmd, p.lease.value.epoch, base).1.timeline, last) <==>
            p.stored.Some? || last.storeEpoch != p.lease.value.epoch || last.seqNo < 1
  {
  }

  /** The lease stays as it is and the timeline key does not expire again. */
  ghost predicate KeepsRoom(number: string -> Reading, p: Plane, actions: seq<Action>)
    decreases |actions|
  {
    actions == [] ||
    (var p' := Next(number, p, actions[0]);
     !actions[0].TimelineExpires? && p'.lease == p.lease && KeepsRoom(number, p', actions[1..]))
  }

  /** What `q` has committed beyond `p`. */
  function Added(p: Plane, q: Plane): seq<Timeline> {
    if |p.stream| <= |q.stream| then q.stream[|p.stream|..] else []
  }

  /** Committed under `fence` and numbered from `first` without holes. */
  ghost predicate NumberedFrom(added: seq<Timeline>, fence: string, first: int) {
    forall k | 0 <= k < |added| :: added[k].storeEpoch == fence && added[k].seqNo == first + k
  }

  /** A step under a standing lease commits nothing, or one state with the next number of the fence. */
  lemma StepNumbers(number: string -> Reading, p: Plane, a: Action)
    requires p.lease.Some? && !a.TimelineExpires? && Next(number, p, a).lease == p.lease
    ensures var p', fence := Next(number, p, a), p.lease.value.epoch;
            || (p'.stream == p.stream && p'.stored == p.stored)
            || (&& p'.stored.Some? && p'.stored.value.storeEpoch == fence && p'.stream == p.stream + [p'.stored.value]
                && (if a.InitScript? then p.stored.None? && p'.stored.value.seqNo == 0
                    else p'.stored.value.seqNo == NextSeq(p, fence)))
  {
  }

  lemma AddedSplits(p: Plane, p': Plane, q: Plane)
    requires p.stream <= p'.stream <= q.stream
    ensures p.stream <= q.stream && Added(p, q) == Added(p, p') + Added(p', q)
  {
  }

  lemma {:induction false} NumbersContinue(number: string -> Reading, p: Plane, actions: seq<Action>)
    requires p.lease.Some? && p.stored.Some? && KeepsRoom(number, p, actions)
    ensures var q := Run(number, p, actions);
            p.stream <= q.stream && NumberedFrom(Added(p, q), p.lease.value.epoch, NextSeq(p, p.lease.value.epoch))
    decreases |actions|
  {
    if actions != [] {
      var p' := Next(number, p, actions[0]);
      StepNumbers(number, p, actions[0]);
      NumbersContinue(number, p', actions[1..]);
      AddedSplits(p, p', Run(number, p, actions));
    }
  }

  /** After the key has expired, numbering starts again: from 0 if the room is created anew, else from 1. */
  lemma {:induction false} NumbersRestart(number: string -> Reading, p: Plane, actions: seq<Action>)
    requires p.lease.Some? && p.stored.None? && KeepsRoom(number, p, actions)
    ensures var q := Run(number, p, actions);
            && p.stream <= q.stream
            && (NumberedFrom(Added(p, q), p.lease.value.epoch, 0) || NumberedFrom(Added(p, q), p.lease.value.epoch, 1))
    decreases |actions|
  {
    if actions != [] {
      var p' := Next(number, p, actions[0]);
      StepNumbers(number, p, actions[0]);
      if p'.stored.None? {
        NumbersRestart(number, p', actions[1..]);
      } else {
        NumbersContinue(number, p', actions[1..]);
      }
      AddedSplits(p, p', Run(number, p, actions));
    }
  }

  /**
   * How much expiry under the lease hides, exactly: of everything committed under that lease
   * afterwards, a client that holds the last commit before it, number n, accepts a commit if and
   * only if it comes after the first n (numbers 1 to n, and 0 if the room was created anew).
   * Until then no delivery in any order moves the client.
   */
  lemma ExpiryHidesExactlyTheNextCommits(number: string -> Reading, p: Plane, actions: seq<Action>, c: ClientState)
    requires p.lease.Some? && p.stored.Some? && p.stored.value.storeEpoch == p.lease.value.epoch
    requires KeepsRoom(number, Next(number, p, TimelineExpires), actions) && c.timeline == p.stored
    ensures var n, added := p.stored.value.seqNo, Added(p, Run(number, p, [TimelineExpires] + actions));
            && (NumberedFrom(added, p.lease.value.epoch, 0) || NumberedFrom(added, p.lease.value.epoch, 1))
            && (forall k | 0 <= k < |added| :: IsNewer(number, added[k], c.timeline) <==> added[k].seqNo > n)
            && (forall ds: seq<Timeline> | (forall d | d in ds :: d in added && d.seqNo <= n) ::
                  Deliver(number, c, ds).timeline == c.timeline)
  {
    var expired := Next(number, p, TimelineExpires);
    assert ([TimelineExpires] + actions)[1..] == actions;
    NumbersRestart(number, expired, actions);
    var q := Run(number, p, [TimelineExpires] + actions);
    assert q == Run(number, expired, actions);
    var n, added := p.stored.value.seqNo, Added(p, q);
    assert added == Added(expired, q);
    assert forall d | d in added :: d.storeEpoch == p.lease.value.epoch;
    forall ds: seq<Timeline> | forall d | d in ds :: d in added && d.seqNo <= n
      ensures Deliver(number, c, ds).timeline == c.timeline
    {
      ClientHoldsAMaximum(number, c, ds);
    }
  }
}
