/** What the room store guarantees over whole runs of calls on one room. */
module RoomRuns {
  import opened Common
  import opened Timelines
  import opened Replay
  import opened RoomStore

  function Run(r: Option<Room>, es: seq<Event>): Option<Room>
    decreases |es|
  {
    if es == [] then r else Run(Step(r, es[0]).0, es[1..])
  }

  /** The server time after `e`; clearing a room consults no clock. */
  function Clock(last: real, e: Event): real {
    if e.ClearEvent? then last else e.now
  }

  /** The server times of a run never decrease and start no earlier than `last`. */
  ghost predicate Ordered(last: real, es: seq<Event>)
    decreases |es|
  {
    es == [] || (last <= Clock(last, es[0]) && Ordered(Clock(last, es[0]), es[1..]))
  }

  function Latest(last: real, es: seq<Event>): real
    decreases |es|
  {
    if es == [] then last else Latest(Clock(last, es[0]), es[1..])
  }

  // ---- what a commit means ----

  /** A committed control does to the live timeline what its intent promises, at the server's time. */
  lemma CommittedControlsObey(r: Option<Room>, e: Event)
    requires e.ControlEvent? && Step(r, e).1.Committed?
    ensures r.Some?
    ensures var prev, tl := r.value.timeline, Step(r, e).1.timeline;
            && tl.seqNo == prev.seqNo + 1 && tl.storeEpoch == prev.storeEpoch
            && tl.stampedAt == e.now && tl.author == Some(e.author)
            && Obeys(prev, tl, e.intent, e.mediaTime, e.opts.videoId)
            && Step(r, e).0.value.timeline == tl
  {
  }

  /** A room is born paused at the given position of the given video, remembers no command, and is born once. */
  lemma RoomsAreBornPaused(r: Option<Room>, e: Event)
    requires e.InitEvent?
    ensures var (r', outcome) := Step(r, e);
            if r.Some? then r' == r && outcome == Existing(r.value.timeline)
            else
              && r'.Some? && outcome == Committed(r'.value.timeline) && r'.value.seen == map[]
              && var tl := r'.value.timeline;
                 && tl.seqNo == 0 && tl.storeEpoch == e.minted && tl.videoId == e.videoId && tl.stampedAt == e.now
                 && !tl.isPlaying && (forall at :: Project(tl, at) == e.mediaTime)
                 && tl.reason == Join && tl.author.None?
  {
  }

  // ---- the log ----

  /** The log is a legal chain of one epoch, bounded, and its newest entry is the live state. */
  ghost predicate LogSound(r: Room) {
    && 0 < |r.log| <= LOG_LIMIT
    && LegalChain(r.log)
    && (forall e | e in r.log :: e.storeEpoch == r.timeline.storeEpoch)
    && r.log[|r.log| - 1] == Entry(r.timeline, r.log[|r.log| - 1].cmdId)
  }

  lemma AppendKeepsLogSound(r: Room, next: Timeline, cmdId: Option<string>)
    requires LogSound(r) && next.storeEpoch == r.timeline.storeEpoch
    requires CheckTransition(Entry(r.timeline, None), Entry(next, cmdId)).None?
    ensures LogSound(Advance(r, next, cmdId))
  {
    var entry := Entry(next, cmdId);
    var pushed := r.log + [entry];
    forall i | 0 < i < |pushed|
      ensures CheckAt(pushed, i).None?
    {
      if i < |r.log| {
        assert CheckAt(pushed, i) == CheckAt(r.log, i);
      }
    }
    var log := AppendTo(r.log, entry);
    if |pushed| > LOG_LIMIT {
      forall i | 0 < i < |log|
        ensures CheckAt(log, i).None?
      {
        assert CheckAt(log, i) == CheckAt(pushed, i + 1);
      }
    }
    assert forall e | e in log :: e in r.log || e == entry;
  }

  lemma StepKeepsLogSound(r: Option<Room>, e: Event, last: real)
    requires last <= Clock(last, e)
    requires r.Some? ==> LogSound(r.value) && r.value.timeline.stampedAt <= last
    ensures var r' := Step(r, e).0;
            r'.Some? ==> LogSound(r'.value) && r'.value.timeline.stampedAt <= Clock(last, e)
  {
    if r.Some? {
      var outcome := Step(r, e).1;
      if outcome.Committed? {
        AppendKeepsLogSound(r.value, outcome.timeline, if e.ControlEvent? then e.opts.cmdId else None);
      }
    } else if e.InitEvent? {
      var room := Step(r, e).0.value;
      assert room.log == [Entry(Created(e), None)];
    }
  }

  /**
   * Every state reached from a fresh room, through any mix of init, controls, sweeps, clears and
   * head trims, has a log without violations whose newest entry matches the live timeline.
   */
  lemma {:induction false} ReachableLogsAreSound(r: Option<Room>, es: seq<Event>, last: real)
    requires Ordered(last, es)
    requires r.Some? ==> LogSound(r.value) && r.value.timeline.stampedAt <= last
    ensures var r' := Run(r, es);
            r'.Some? ==>
              && LogSound(r'.value)
              && LegalChain(r'.value.log)
              && EntryMatchesLive(r'.value.log[|r'.value.log| - 1], r'.value.timeline).None?
    decreases |es|
  {
    if es != [] {
      StepKeepsLogSound(r, es[0], last);
      ReachableLogsAreSound(Step(r, es[0]).0, es[1..], Clock(last, es[0]));
    }
  }

  /** Every commit of the current life of a room, unbounded. */
  datatype Journal = Journal(room: Option<Room>, entries: seq<LogEntry>)

  function Write(j: Journal, e: Event): Journal {
    var (room, outcome) := Step(j.room, e);
    Journal(room,
            if e.ClearEvent? then []
            else if outcome.Committed? then
              j.entries + [Entry(outcome.timeline, if e.ControlEvent? then e.opts.cmdId else None)]
            else j.entries)
  }

  function WriteRun(j: Journal, es: seq<Event>): Journal
    decreases |es|
  {
    if es == [] then j else WriteRun(Write(j, es[0]), es[1..])
  }

  function Newest(entries: seq<LogEntry>): seq<LogEntry> {
    if |entries| > LOG_LIMIT then entries[|entries| - LOG_LIMIT..] else entries
  }

  ghost predicate Retains(j: Journal) {
    if j.room.None? then j.entries == [] else j.room.value.log == Newest(j.entries)
  }

  lemma AppendRetains(entries: seq<LogEntry>, e: LogEntry)
    ensures AppendTo(Newest(entries), e) == Newest(entries + [e])
  {
  }

  lemma WriteRetains(j: Journal, e: Event)
    requires Retains(j)
    ensures Retains(Write(j, e))
  {
    var outcome := Step(j.room, e).1;
    if outcome.Committed? {
      AppendRetains(j.entries, Entry(outcome.timeline, if e.ControlEvent? then e.opts.cmdId else None));
    }
  }

  /** The log is exactly the newest LOG_LIMIT commits of the room's current life, with their command ids. */
  lemma {:induction false} LogIsTheRecentHistory(j: Journal, es: seq<Event>)
    requires Retains(j)
    ensures Retains(WriteRun(j, es)) && WriteRun(j, es).room == Run(j.room, es)
    decreases |es|
  {
    if es != [] {
      WriteRetains(j, es[0]);
      LogIsTheRecentHistory(Write(j, es[0]), es[1..]);
    }
  }

  // ---- exactly once ----

  /** A control delivery that the store refused to commit. */
  predicate Refused(r: Option<Room>, e: Event) {
    e.ControlEvent? && !Step(r, e).1.Committed?
  }

  /** The run that remains when every refused delivery is deleted. */
  function Effective(r: Option<Room>, es: seq<Event>): seq<Event>
    decreases |es|
  {
    if es == [] then []
    else (if Refused(r, es[0]) then [] else [es[0]]) + Effective(Step(r, es[0]).0, es[1..])
  }

  /** Same timeline and log, and the same dedup records as far as they can still matter at `now`. */
  ghost predicate Alike(a: Option<Room>, b: Option<Room>, now: real) {
    && a.Some? == b.Some?
    && (a.Some? ==>
          && a.value.timeline == b.value.timeline
          && a.value.log == b.value.log
          && Unexpired(a.value.seen, now) == Unexpired(b.value.seen, now))
  }

  ghost predicate NoneRefused(r: Option<Room>, es: seq<Event>)
    decreases |es|
  {
    es == [] || (!Refused(r, es[0]) && NoneRefused(Step(r, es[0]).0, es[1..]))
  }

  lemma UnexpiredLater(a: map<string, real>, b: map<string, real>, now: real, later: real)
    requires now <= later && Unexpired(a, now) == Unexpired(b, now)
    ensures Unexpired(a, later) == Unexpired(b, later)
    ensures Unexpired(Unexpired(a, now), later) == Unexpired(a, later)
  {
    forall id
      ensures id in Unexpired(a, later) <==> id in Unexpired(b, later)
      ensures id in Unexpired(a, later) ==> Unexpired(a, later)[id] == Unexpired(b, later)[id]
    {
      assert id in Unexpired(a, later) ==> id in Unexpired(a, now);
      assert id in Unexpired(b, later) ==> id in Unexpired(b, now);
    }
  }

  /** Alike rooms answer alike; a refused delivery leaves the room alike to what it was. */
  lemma StepAlike(a: Option<Room>, b: Option<Room>, e: Event, last: real)
    requires Alike(a, b, last) && last <= Clock(last, e)
    ensures Step(a, e).1 == Step(b, e).1
    ensures Alike(Step(a, e).0, Step(b, e).0, Clock(last, e))
    ensures Refused(a, e) ==> Alike(Step(a, e).0, b, Clock(last, e))
  {
    if a.Some? && !e.ClearEvent? {
      UnexpiredLater(a.value.seen, b.value.seen, last, e.now);
      UnexpiredLater(a.value.seen, a.value.seen, e.now, e.now);
      UnexpiredLater(b.value.seen, b.value.seen, e.now, e.now);
      if e.ControlEvent? {
        var (ra, oa) := StepControl(a.value, e);
        var (rb, ob) := StepControl(b.value, e);
        if HasId(e.opts) {
          assert Unexpired(a.value.seen, e.now) == Unexpired(b.value.seen, e.now);
          assert oa == ob;
        } else if oa.Committed? {
          assert ra.seen == a.value.seen && rb.seen == b.value.seen;
        }
      }
    }
  }

  /**
   * Exactly once, as run equivalence: for any run and any number of redeliveries, deleting every
   * delivery that was not committed leaves a run in which all the others still commit and which
   * ends in the same timeline and the same log.
   */
  lemma {:induction false} DeletingRefusedDeliveriesChangesNothing(a: Option<Room>, b: Option<Room>, es: seq<Event>,
                                                                   last: real)
    requires Alike(a, b, last) && Ordered(last, es)
    ensures NoneRefused(b, Effective(a, es))
    ensures Alike(Run(a, es), Run(b, Effective(a, es)), Latest(last, es))
    decreases |es|
  {
    if es != [] {
      var e, rest := es[0], es[1..];
      StepAlike(a, b, e, last);
      var a' := Step(a, e).0;
      var now := Clock(last, e);
      if Refused(a, e) {
        DeletingRefusedDeliveriesChangesNothing(a', b, rest, now);
        assert Effective(a, es) == Effective(a', rest);
      } else {
        DeletingRefusedDeliveriesChangesNothing(a', Step(b, e).0, rest, now);
        assert Effective(a, es) == [e] + Effective(a', rest);
        assert Effective(a, es)[1..] == Effective(a', rest);
      }
    }
  }

  // ---- the dedup table is the recent commit history ----

  datatype Receipt = Receipt(cmdId: string, at: real)

  /** A room together with every identified commit since it was last cleared. */
  datatype Ledger = Ledger(room: Option<Room>, receipts: seq<Receipt>)

  function Book(l: Ledger, e: Event): Ledger {
    var (room, outcome) := Step(l.room, e);
    Ledger(room,
           if e.ClearEvent? then []
           else if e.ControlEvent? && HasId(e.opts) && outcome.Committed? then
             l.receipts + [Receipt(e.opts.cmdId.value, e.now)]
           else l.receipts)
  }

  function BookRun(l: Ledger, es: seq<Event>): Ledger
    decreases |es|
  {
    if es == [] then l else BookRun(Book(l, es[0]), es[1..])
  }

  ghost predicate Recent(receipts: seq<Receipt>, id: string, now: real) {
    exists k :: 0 <= k < |receipts| && receipts[k].cmdId == id && now - receipts[k].at < CMD_DEDUP_TTL_MS
  }

  /** Two commits of one id are at least the TTL apart. */
  ghost predicate CommitsApart(receipts: seq<Receipt>) {
    forall i, j | 0 <= i < j < |receipts| && receipts[i].cmdId == receipts[j].cmdId ::
      receipts[j].at - receipts[i].at >= CMD_DEDUP_TTL_MS
  }

  /** Every record comes from a receipt, and every receipt that is still recent has its record. */
  ghost predicate Faithful(seen: map<string, real>, receipts: seq<Receipt>, now: real) {
    && (forall k | 0 <= k < |receipts| :: receipts[k].at <= now)
    && CommitsApart(receipts)
    && (forall id | id in seen :: Receipt(id, seen[id] - CMD_DEDUP_TTL_MS) in receipts)
    && (forall k | 0 <= k < |receipts| && now - receipts[k].at < CMD_DEDUP_TTL_MS ::
          receipts[k].cmdId in seen && seen[receipts[k].cmdId] >= receipts[k].at + CMD_DEDUP_TTL_MS)
  }

  ghost predicate TableExact(l: Ledger, now: real) {
    if l.room.None? then l.receipts == [] else Faithful(l.room.value.seen, l.receipts, now)
  }

  lemma PurgeKeepsFaithful(seen: map<string, real>, receipts: seq<Receipt>, last: real, now: real)
    requires Faithful(seen, receipts, last) && last <= now
    ensures Faithful(seen, receipts, now) && Faithful(Unexpired(seen, now), receipts, now)
  {
  }

  lemma RecordKeepsFaithful(seen: map<string, real>, receipts: seq<Receipt>, id: string, now: real)
    requires Faithful(seen, receipts, now) && id !in seen
    ensures Faithful(seen[id := now + CMD_DEDUP_TTL_MS], receipts + [Receipt(id, now)], now)
  {
    var seen', receipts' := seen[id := now + CMD_DEDUP_TTL_MS], receipts + [Receipt(id, now)];
    forall i, j | 0 <= i < j < |receipts'| && receipts'[i].cmdId == receipts'[j].cmdId
      ensures receipts'[j].at - receipts'[i].at >= CMD_DEDUP_TTL_MS
    {
      assert receipts'[i] == receipts[i];
      if j == |receipts| {
        assert receipts[i].cmdId == id;
      } else {
        assert receipts'[j] == receipts[j];
      }
    }
    forall other | other in seen'
      ensures Receipt(other, seen'[other] - CMD_DEDUP_TTL_MS) in receipts'
    {
      if other == id {
        assert receipts'[|receipts|] == Receipt(id, now);
      } else {
        assert Receipt(other, seen[other] - CMD_DEDUP_TTL_MS) in receipts;
      }
    }
  }

  lemma PurgeAndRecordKeepsFaithful(seen: map<string, real>, receipts: seq<Receipt>, id: string, now: real)
    requires Faithful(seen, receipts, now) && id !in Unexpired(seen, now)
    ensures Faithful(Unexpired(seen, now)[id := now + CMD_DEDUP_TTL_MS], receipts + [Receipt(id, now)], now)
  {
    PurgeKeepsFaithful(seen, receipts, now, now);
    RecordKeepsFaithful(Unexpired(seen, now), receipts, id, now);
  }

  lemma RecentExactlyWhenUnexpired(seen: map<string, real>, receipts: seq<Receipt>, id: string, now: real)
    requires Faithful(seen, receipts, now)
    ensures (id in seen && seen[id] > now) <==> Recent(receipts, id, now)
  {
    if id in seen && seen[id] > now {
      var k :| 0 <= k < |receipts| && receipts[k] == Receipt(id, seen[id] - CMD_DEDUP_TTL_MS);
    }
  }

  /** A commit that is not recorded is missing from the table, or repeats too soon one that is in it. */
  lemma UnrecordedIsUnfaithful(seen: map<string, real>, receipts: seq<Receipt>, id: string, now: real)
    requires Faithful(seen, receipts, now)
    ensures !Faithful(seen, receipts + [Receipt(id, now)], now)
    ensures !CommitsApart(receipts + [Receipt(id, now)]) <==> Recent(receipts, id, now)
    ensures Recent(receipts + [Receipt(id, now)], id, now)
  {
    var after := receipts + [Receipt(id, now)];
    var n := |receipts|;
    assert after[n] == Receipt(id, now);
    if Recent(receipts, id, now) {
      var k :| 0 <= k < n && receipts[k].cmdId == id && now - receipts[k].at < CMD_DEDUP_TTL_MS;
      assert after[k] == receipts[k];
      assert !CommitsApart(after);
    } else {
      assert CommitsApart(after) by {
        forall x, y | 0 <= x < y < |after| && after[x].cmdId == after[y].cmdId
          ensures after[y].at - after[x].at >= CMD_DEDUP_TTL_MS
        {
          assert after[x] == receipts[x];
          if y < n {
            assert after[y] == receipts[y];
          }
        }
      }
      RecentExactlyWhenUnexpired(seen, receipts, id, now);
    }
  }

  /** How a control touches the dedup table. */
  lemma ControlSeen(r: Room, e: Event)
    requires e.ControlEvent?
    ensures var (r', outcome) := StepControl(r, e);
            var live := Unexpired(r.seen, e.now);
            && (outcome.Duplicate? <==> HasId(e.opts) && e.opts.cmdId.value in live)
            && r'.seen == if !HasId(e.opts) then r.seen
                          else if outcome.Committed? then live[e.opts.cmdId.value := e.now + CMD_DEDUP_TTL_MS]
                          else live
  {
  }

  /** What one identified delivery finds in the table, and what purging and recording leave of it. */
  lemma DeliveryKeepsFaithful(seen: map<string, real>, receipts: seq<Receipt>, id: string, last: real, now: real)
    requires Faithful(seen, receipts, last) && last <= now
    ensures var live := Unexpired(seen, now);
            && (id in live <==> Recent(receipts, id, now))
            && Faithful(live, receipts, now)
            && (id !in live ==> Faithful(live[id := now + CMD_DEDUP_TTL_MS], receipts + [Receipt(id, now)], now))
  {
    PurgeKeepsFaithful(seen, receipts, last, now);
    RecentExactlyWhenUnexpired(seen, receipts, id, now);
    if id !in Unexpired(seen, now) {
      PurgeAndRecordKeepsFaithful(seen, receipts, id, now);
    }
  }

  lemma ControlKeepsFaithful(r: Room, receipts: seq<Receipt>, e: Event, last: real)
    requires e.ControlEvent? && Faithful(r.seen, receipts, last) && last <= e.now
    ensures var (r', outcome) := StepControl(r, e);
            && (outcome.Duplicate? <==> HasId(e.opts) && Recent(receipts, e.opts.cmdId.value, e.now))
            && Faithful(r'.seen,
                        if HasId(e.opts) && outcome.Committed? then receipts + [Receipt(e.opts.cmdId.value, e.now)]
                        else receipts,
                        e.now)
  {
    ControlSeen(r, e);
    if HasId(e.opts) {
      DeliveryKeepsFaithful(r.seen, receipts, e.opts.cmdId.value, last, e.now);
    } else {
      PurgeKeepsFaithful(r.seen, receipts, last, e.now);
    }
  }

  lemma BookKeepsTableExact(l: Ledger, e: Event, last: real)
    requires TableExact(l, last) && last <= Clock(last, e)
    ensures TableExact(Book(l, e), Clock(last, e))
    ensures e.ControlEvent? ==>
              (Step(l.room, e).1.Duplicate? <==>
                 l.room.Some? && HasId(e.opts) && Recent(l.receipts, e.opts.cmdId.value, e.now))
  {
    if l.room.Some? {
      if e.ControlEvent? {
        ControlKeepsFaithful(l.room.value, l.receipts, e, last);
      } else if !e.ClearEvent? {
        PurgeKeepsFaithful(l.room.value.seen, l.receipts, last, e.now);
      }
    }
  }

  lemma {:induction false} RunsKeepTableExact(l: Ledger, es: seq<Event>, last: real)
    requires TableExact(l, last) && Ordered(last, es)
    ensures TableExact(BookRun(l, es), Latest(last, es))
    ensures BookRun(l, es).room == Run(l.room, es)
    decreases |es|
  {
    if es != [] {
      BookKeepsTableExact(l, es[0], last);
      RunsKeepTableExact(Book(l, es[0]), es[1..], Clock(last, es[0]));
    }
  }

  /**
   * After any run of a fresh room, a command is answered `duplicate` if and only if its id
   * committed less than the TTL ago and the room was not cleared since; otherwise it is fenced if
   * and only if it is a position command aimed at another video than the room shows; otherwise it
   * commits. No two commits of one id are closer than the TTL, and a fenced refusal leaves no
   * receipt, so it never consumes an id.
   */
  lemma DuplicateExactlyWhenRecentlyCommitted(es: seq<Event>, last: real, e: Event)
    requires Ordered(last, es) && e.ControlEvent? && Latest(last, es) <= e.now
    ensures var l := BookRun(Ledger(None, []), es);
            && CommitsApart(l.receipts)
            && (Step(Run(None, es), e).1.Duplicate? <==>
                Run(None, es).Some? && HasId(e.opts) && Recent(l.receipts, e.opts.cmdId.value, e.now))
            && (Step(Run(None, es), e).1.Fenced? <==>
                Run(None, es).Some? && !Step(Run(None, es), e).1.Duplicate? && e.intent != ISetVideo &&
                e.opts.forVideoId.Some? && e.opts.forVideoId.value != Run(None, es).value.timeline.videoId)
            && (Step(Run(None, es), e).1.Missing? <==> Run(None, es).None?)
            && (Step(Run(None, es), e).1.Fenced? ==> Book(l, e).receipts == l.receipts)
  {
    RunsKeepTableExact(Ledger(None, []), es, last);
    BookKeepsTableExact(BookRun(Ledger(None, []), es), e, Latest(last, es));
  }

  /** A command without an id, or with an empty one, is never a duplicate and leaves the table as it is. */
  lemma UnnamedCommandsAreNeverDuplicates(r: Room, e: Event)
    requires e.ControlEvent? && (e.opts.cmdId.None? || e.opts.cmdId == Some(""))
    ensures !StepControl(r, e).1.Duplicate? && StepControl(r, e).0.seen == r.seen
  {
  }

  // ---- sweeps are transparent ----

  function WithoutSweeps(es: seq<Event>): seq<Event> {
    if es == [] then []
    else (if es[0].SweepEvent? then [] else [es[0]]) + WithoutSweeps(es[1..])
  }

  /** The two rooms play the same thing at every instant and dedup the same commands. */
  ghost predicate PlaysLike(a: Option<Room>, b: Option<Room>) {
    && a.Some? == b.Some?
    && (a.Some? ==>
          && a.value.timeline.videoId == b.value.timeline.videoId
          && a.value.timeline.isPlaying == b.value.timeline.isPlaying
          && a.value.seen == b.value.seen
          && forall at :: Project(a.value.timeline, at) == Project(b.value.timeline, at))
  }

  lemma StepPlaysLike(a: Option<Room>, b: Option<Room>, e: Event)
    requires PlaysLike(a, b)
    ensures PlaysLike(Step(a, e).0, Step(b, e).0)
    ensures e.SweepEvent? ==> PlaysLike(Step(a, e).0, b)
    ensures Step(a, e).1.Committed? == Step(b, e).1.Committed?
  {
    if e.SweepEvent? && a.Some? {
      var ta, tb := a.value.timeline, b.value.timeline;
      var na, nb := Step(a, e).0.value.timeline, Step(b, e).0.value.timeline;
      assert Project(ta, e.now) == Project(tb, e.now);
      forall at
        ensures Project(na, at) == Project(tb, at) && Project(na, at) == Project(nb, at)
      {
        assert Project(ta, at) == Project(tb, at);
      }
    }
  }

  /** Removing every sweep from any run leaves the projected position at every instant unchanged. */
  lemma {:induction false} SweepsAreTransparent(a: Option<Room>, b: Option<Room>, es: seq<Event>)
    requires PlaysLike(a, b)
    ensures PlaysLike(Run(a, es), Run(b, WithoutSweeps(es)))
    decreases |es|
  {
    if es != [] {
      var e, rest := es[0], es[1..];
      StepPlaysLike(a, b, e);
      if e.SweepEvent? {
        assert WithoutSweeps(es) == WithoutSweeps(rest);
        SweepsAreTransparent(Step(a, e).0, b, rest);
      } else {
        assert WithoutSweeps(es) == [e] + WithoutSweeps(rest);
        assert WithoutSweeps(es)[1..] == WithoutSweeps(rest);
        SweepsAreTransparent(Step(a, e).0, Step(b, e).0, rest);
      }
    }
  }

  // ---- the stream of commits ----

  /** Every timeline the run commits, in commit order. */
  function Stream(r: Option<Room>, es: seq<Event>): seq<Timeline>
    decreases |es|
  {
    if es == [] then []
    else
      var (r', outcome) := Step(r, es[0]);
      (if outcome.Committed? then [outcome.timeline] else []) + Stream(r', es[1..])
  }

  /**
   * Epochs are minted from the server clock: whenever a room is created, its epoch text reads as
   * that instant, and the instant is later than every epoch minted before it.
   */
  ghost predicate WellMinted(number: string -> Reading, newest: real, r: Option<Room>, es: seq<Event>)
    decreases |es|
  {
    es == [] ||
    (if es[0].InitEvent? && r.None? then
       newest < es[0].now && number(es[0].minted) == Finite(es[0].now) &&
       WellMinted(number, es[0].now, Step(r, es[0]).0, es[1..])
     else WellMinted(number, newest, Step(r, es[0]).0, es[1..]))
  }

  ghost predicate EpochAtLeast(number: string -> Reading, tl: Timeline, floor: real) {
    number(tl.storeEpoch).Finite? && number(tl.storeEpoch).value >= floor
  }

  /** Each commit supersedes all earlier ones for every client. */
  ghost predicate Increasing(number: string -> Reading, s: seq<Timeline>) {
    forall i, j | 0 <= i < j < |s| :: Newer(number, s[j], s[i])
  }

  /** Where a run can still go: past the live timeline, or past every minted epoch. */
  ghost predicate Beyond(number: string -> Reading, tl: Timeline, r: Option<Room>, newest: real) {
    && EpochAtLeast(number, tl, newest)
    && (if r.Some? then Newer(number, tl, r.value.timeline) else number(tl.storeEpoch).value > newest)
  }

  /** What supersedes the outcome of a commit supersedes what the commit superseded. */
  lemma BeyondCommit(number: string -> Reading, tl: Timeline, r: Option<Room>, e: Event, newest: real, newest': real)
    requires if r.Some? then number(r.value.timeline.storeEpoch) == Finite(newest) && newest' == newest
             else e.InitEvent? && newest < e.now == newest' && number(e.minted) == Finite(e.now)
    requires Step(r, e).1.Committed?
    ensures Beyond(number, Step(r, e).1.timeline, r, newest)
    ensures Beyond(number, tl, Step(r, e).0, newest') ==>
              Beyond(number, tl, r, newest) && Newer(number, tl, Step(r, e).1.timeline)
  {
    if r.Some? {
      NewerIsStrictPartialOrder(number, tl, Step(r, e).1.timeline, r.value.timeline);
    }
  }

  lemma IncreasingCons(number: string -> Reading, head: Timeline, rest: seq<Timeline>)
    requires Increasing(number, rest) && forall tl | tl in rest :: Newer(number, tl, head)
    ensures Increasing(number, [head] + rest)
  {
  }

  lemma BeyondAll(number: string -> Reading, rest: seq<Timeline>, r: Option<Room>, e: Event, newest: real,
                  newest': real)
    requires if r.Some? then number(r.value.timeline.storeEpoch) == Finite(newest) && newest' == newest
             else e.InitEvent? && newest < e.now == newest' && number(e.minted) == Finite(e.now)
    requires Step(r, e).1.Committed?
    requires forall tl | tl in rest :: Beyond(number, tl, Step(r, e).0, newest')
    ensures forall tl | tl in rest :: Newer(number, tl, Step(r, e).1.timeline)
    ensures forall tl | tl in [Step(r, e).1.timeline] + rest :: Beyond(number, tl, r, newest)
  {
    forall tl | tl in [Step(r, e).1.timeline] + rest
      ensures Beyond(number, tl, r, newest) && (tl in rest ==> Newer(number, tl, Step(r, e).1.timeline))
    {
      BeyondCommit(number, tl, r, e, newest, newest');
    }
  }

  lemma {:induction false} StreamIncreases(number: string -> Reading, newest: real, r: Option<Room>, es: seq<Event>)
    requires WellMinted(number, newest, r, es)
    requires r.Some? ==> number(r.value.timeline.storeEpoch) == Finite(newest)
    ensures Increasing(number, Stream(r, es))
    ensures forall tl | tl in Stream(r, es) :: Beyond(number, tl, r, newest)
    decreases |es|
  {
    if es != [] {
      var e := es[0];
      var (r', outcome) := Step(r, e);
      var newest' := if e.InitEvent? && r.None? then e.now else newest;
      StreamIncreases(number, newest', r', es[1..]);
      var rest := Stream(r', es[1..]);
      if outcome.Committed? {
        BeyondAll(number, rest, r, e, newest, newest');
        IncreasingCons(number, outcome.timeline, rest);
      } else {
        assert Stream(r, es) == rest;
      }
    }
  }

  lemma IncreasingNamesOnce(number: string -> Reading, s: seq<Timeline>, i: nat, j: nat)
    requires Increasing(number, s) && i < |s| && j < |s|
    requires s[i].storeEpoch == s[j].storeEpoch && s[i].seqNo == s[j].seqNo
    ensures i == j
  {
  }

  /** (epoch, seq) names a commit: two committed timelines that share it are the same timeline. */
  lemma CommitsAreNamedByEpochAndSeq(number: string -> Reading, newest: real, es: seq<Event>, x: Timeline, y: Timeline)
    requires WellMinted(number, newest, None, es)
    requires x in Stream(None, es) && y in Stream(None, es)
    requires x.storeEpoch == y.storeEpoch && x.seqNo == y.seqNo
    ensures x == y
  {
    StreamIncreases(number, newest, None, es);
    var s := Stream(None, es);
    var i :| 0 <= i < |s| && s[i] == x;
    var j :| 0 <= j < |s| && s[j] == y;
    IncreasingNamesOnce(number, s, i, j);
  }

  /** The live timeline is the last one committed, hence the newest of the whole run. */
  lemma {:induction false} LiveTimelineIsNewest(r: Option<Room>, es: seq<Event>)
    ensures var r', s := Run(r, es), Stream(r, es);
            r'.Some? ==>
              if s == [] then r.Some? && r'.value.timeline == r.value.timeline
              else r'.value.timeline == s[|s| - 1]
    decreases |es|
  {
    if es != [] {
      LiveTimelineIsNewest(Step(r, es[0]).0, es[1..]);
    }
  }
}
