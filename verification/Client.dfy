/**
 * A client of the sync plane (sync-harness/src/bots/bot-client.ts): it folds whatever timelines
 * arrive, in whatever order and multiplicity, into the one it applies, and accounts for gaps.
 */
module Clients {
  import opened Common
  import opened Timelines
  import opened RoomStore
  import opened RoomRuns

  datatype ClientState = ClientState(
    timeline: Option<Timeline>, seqsByEpoch: map<string, set<int>>,
    controlCommits: set<(string, int)>, lastSeekMediaTime: Option<real>,
    seqDuplicates: nat, seqReorders: nat)

  const FRESH: ClientState := ClientState(None, map[], {}, None, 0, 0)

  function SeqsOf(seqs: map<string, set<int>>, epoch: string): set<int> {
    if epoch in seqs then seqs[epoch] else {}
  }

  /** The specification of one delivery. */
  function Ingested(number: string -> Reading, c: ClientState, tl: Timeline): ClientState {
    var newer := IsNewer(number, tl, c.timeline);
    var sameEpoch := c.timeline.Some? && c.timeline.value.storeEpoch == tl.storeEpoch;
    ClientState(
      if newer then Some(tl) else c.timeline,
      c.seqsByEpoch[tl.storeEpoch := SeqsOf(c.seqsByEpoch, tl.storeEpoch) + {tl.seqNo}],
      if tl.reason in {Play, Pause, Seek} then c.controlCommits + {(tl.storeEpoch, tl.seqNo)} else c.controlCommits,
      if tl.reason == Seek && newer then Some(tl.mediaTime) else c.lastSeekMediaTime,
      if !newer && sameEpoch && tl.seqNo == c.timeline.value.seqNo then c.seqDuplicates + 1 else c.seqDuplicates,
      if !newer && sameEpoch && tl.seqNo != c.timeline.value.seqNo then c.seqReorders + 1 else c.seqReorders)
  }

  function Deliver(number: string -> Reading, c: ClientState, ds: seq<Timeline>): ClientState
    decreases |ds|
  {
    if ds == [] then c else Deliver(number, Ingested(number, c, ds[0]), ds[1..])
  }

  /** A sequence number inside the observed range that never arrived. */
  ghost predicate Gap(seen: set<int>, s: int) {
    s !in seen && (exists lo :: lo in seen && lo < s) && (exists hi :: hi in seen && hi > s)
  }

  class BotClient {
    var timeline: Option<Timeline>
    var seqsByEpoch: map<string, set<int>>
    var controlCommits: set<(string, int)>
    var lastSeekMediaTime: Option<real>
    var seqDuplicates: nat
    var seqReorders: nat

    ghost function View(): ClientState
      reads this
    {
      ClientState(timeline, seqsByEpoch, controlCommits, lastSeekMediaTime, seqDuplicates, seqReorders)
    }

    constructor ()
      ensures View() == FRESH
    {
      timeline, seqsByEpoch, controlCommits, lastSeekMediaTime := None, map[], {}, None;
      seqDuplicates, seqReorders := 0, 0;
    }

    method Ingest(number: string -> Reading, tl: Timeline)
      modifies this
      ensures View() == Ingested(number, old(View()), tl)
    {
      var seen := if tl.storeEpoch in seqsByEpoch then seqsByEpoch[tl.storeEpoch] else {};
      seqsByEpoch := seqsByEpoch[tl.storeEpoch := seen + {tl.seqNo}];
      if tl.reason == Play || tl.reason == Pause || tl.reason == Seek {
        controlCommits := controlCommits + {(tl.storeEpoch, tl.seqNo)};
      }
      if tl.reason == Seek && IsNewer(number, tl, timeline) {
        lastSeekMediaTime := Some(tl.mediaTime);
      }
      if IsNewer(number, tl, timeline) {
        timeline := Some(tl);
      } else if timeline.Some? && tl.storeEpoch == timeline.value.storeEpoch {
        if tl.seqNo == timeline.value.seqNo {
          seqDuplicates := seqDuplicates + 1;
        } else {
          seqReorders := seqReorders + 1;
        }
      }
    }

    /** The smallest and the largest of a nonempty set, as `Math.min` and `Math.max` over its members. */
    static method Bounds(seen: set<int>) returns (lo: int, hi: int)
      requires seen != {}
      ensures lo in seen && hi in seen && forall s | s in seen :: lo <= s <= hi
    {
      HasMember(seen);
      var first :| first in seen;
      lo, hi := first, first;
      var todo := seen - {first};
      while todo != {}
        invariant todo <= seen && lo in seen && hi in seen
        invariant forall s | s in seen && s !in todo :: lo <= s <= hi
        decreases todo
      {
        HasMember(todo);
        var s :| s in todo;
        lo := if s < lo then s else lo;
        hi := if s > hi then s else hi;
        todo := todo - {s};
      }
    }

    /** The gaps of one epoch: each exactly once, ascending. */
    static method GapsIn(seen: set<int>) returns (gaps: seq<int>)
      ensures forall s :: s in gaps <==> Gap(seen, s)
      ensures forall i, j | 0 <= i < j < |gaps| :: gaps[i] < gaps[j]
    {
      gaps := [];
      if seen == {} {
        return;
      }
      var lo, hi := Bounds(seen);
      var s := lo + 1;
      while s < hi
        invariant lo < s && (s <= hi || lo == hi)
        invariant forall g :: g in gaps <==> lo < g < s && g < hi && g !in seen
        invariant forall i | 0 <= i < |gaps| :: gaps[i] in gaps && gaps[i] < s
        invariant forall i, j | 0 <= i < j < |gaps| :: gaps[i] < gaps[j]
      {
        if s !in seen {
          gaps := gaps + [s];
        }
        s := s + 1;
      }
      forall g
        ensures g in gaps <==> Gap(seen, g)
      {
        if lo < g < hi && g !in seen {
          assert Gap(seen, g);
        }
      }
    }

    /** Over all epochs: a number is reported if and only if it is a gap of some epoch. */
    method Report() returns (gaps: seq<int>)
      ensures forall s :: s in gaps <==> exists epoch :: epoch in seqsByEpoch && Gap(seqsByEpoch[epoch], s)
    {
      gaps := [];
      var todo := seqsByEpoch.Keys;
      while todo != {}
        invariant todo <= seqsByEpoch.Keys
        invariant forall s :: s in gaps <==>
                    exists epoch :: epoch in seqsByEpoch && epoch !in todo && Gap(seqsByEpoch[epoch], s)
        decreases todo
      {
        var epoch :| epoch in todo;
        var found := GapsIn(seqsByEpoch[epoch]);
        gaps := gaps + found;
        todo := todo - {epoch};
      }
    }
  }

  // ---- convergence ----

  /**
   * Under any reordering, duplication and loss a client never regresses, holds something it was
   * given, and nothing it was given is newer than what it holds, whatever the epochs look like.
   */
  lemma {:induction false} ClientHoldsAMaximum(number: string -> Reading, c: ClientState, ds: seq<Timeline>)
    ensures var held := Deliver(number, c, ds).timeline;
            && (held.None? <==> c.timeline.None? && ds == [])
            && (held.Some? ==>
                  && (held == c.timeline || held.value in ds)
                  && (c.timeline.Some? ==> held == c.timeline || Newer(number, held.value, c.timeline.value))
                  && (forall d | d in ds :: !Newer(number, d, held.value)))
    decreases |ds|
  {
    if ds != [] {
      var c' := Ingested(number, c, ds[0]);
      ClientHoldsAMaximum(number, c', ds[1..]);
      var held := Deliver(number, c, ds).timeline.value;
      NewerIsStrictPartialOrder(number, ds[0], held, c'.timeline.value);
      NewerIsStrictPartialOrder(number, held, ds[0], ds[0]);
      if c.timeline.Some? {
        NewerIsStrictPartialOrder(number, held, ds[0], c.timeline.value);
      }
      assert forall d | d in ds :: d == ds[0] || d in ds[1..];
    }
  }

  /** A client fed from one store's run ends on the latest commit among those delivered to it. */
  lemma ClientEndsOnLatestDelivered(number: string -> Reading, commits: seq<Timeline>, ds: seq<Timeline>, k: nat)
    requires Increasing(number, commits) && k < |commits| && commits[k] in ds
    requires forall d | d in ds :: d in commits[..k + 1]
    ensures Deliver(number, FRESH, ds).timeline == Some(commits[k])
  {
    ClientHoldsAMaximum(number, FRESH, ds);
    NothingBeforeTheLastIsMaximal(number, commits, k, Deliver(number, FRESH, ds).timeline.value);
  }

  lemma NothingBeforeTheLastIsMaximal(number: string -> Reading, commits: seq<Timeline>, k: nat, held: Timeline)
    requires Increasing(number, commits) && k < |commits|
    requires held in commits[..k + 1] && !Newer(number, commits[k], held)
    ensures held == commits[k]
  {
  }

  /**
   * Convergence over a whole run of the store: clients that received the same commits, in any
   * order and multiplicity, hold the same timeline; and one delivery of the live timeline brings
   * any client, whatever it missed, to exactly the live state.
   */
  lemma ClientsConverge(number: string -> Reading, newest: real, es: seq<Event>, xs: seq<Timeline>, ys: seq<Timeline>)
    requires WellMinted(number, newest, None, es)
    requires forall d | d in xs :: d in Stream(None, es)
    requires forall d | d in ys :: d in Stream(None, es)
    ensures (forall d :: d in xs <==> d in ys) ==>
              Deliver(number, FRESH, xs).timeline == Deliver(number, FRESH, ys).timeline
    ensures Run(None, es).Some? && Run(None, es).value.timeline in xs ==>
              Deliver(number, FRESH, xs).timeline == Some(Run(None, es).value.timeline)
  {
    var s := Stream(None, es);
    StreamIncreases(number, newest, None, es);
    ClientHoldsAMaximum(number, FRESH, xs);
    ClientHoldsAMaximum(number, FRESH, ys);
    if (forall d :: d in xs <==> d in ys) && xs != [] {
      assert xs[0] in ys;
      var x, y := Deliver(number, FRESH, xs).timeline.value, Deliver(number, FRESH, ys).timeline.value;
      IncomparableCommitsAreEqual(number, s, x, y);
    }
    if Run(None, es).Some? && Run(None, es).value.timeline in xs {
      LiveTimelineIsNewest(None, es);
      assert s[..|s| - 1 + 1] == s;
      ClientEndsOnLatestDelivered(number, s, xs, |s| - 1);
    }
  }

  lemma IncomparableCommitsAreEqual(number: string -> Reading, s: seq<Timeline>, x: Timeline, y: Timeline)
    requires Increasing(number, s) && x in s && y in s
    requires !Newer(number, x, y) && !Newer(number, y, x)
    ensures x == y
  {
  }

  // ---- gap accounting ----

  /** What the client remembers of an epoch is exactly the set of numbers that ever arrived. */
  lemma {:induction false} SeenIsWhatArrived(number: string -> Reading, c: ClientState, ds: seq<Timeline>,
                                             epoch: string)
    ensures SeqsOf(Deliver(number, c, ds).seqsByEpoch, epoch)
            == SeqsOf(c.seqsByEpoch, epoch) + set d | d in ds && d.storeEpoch == epoch :: d.seqNo
    decreases |ds|
  {
    if ds != [] {
      SeenIsWhatArrived(number, Ingested(number, c, ds[0]), ds[1..], epoch);
      assert forall d :: d in ds <==> d == ds[0] || d in ds[1..];
    }
  }

  /** The control commits a client witnessed are exactly the controls that arrived. */
  lemma {:induction false} WitnessedControlsAreWhatArrived(number: string -> Reading, c: ClientState, ds: seq<Timeline>)
    ensures Deliver(number, c, ds).controlCommits
            == c.controlCommits + set d | d in ds && d.reason in {Play, Pause, Seek} :: (d.storeEpoch, d.seqNo)
    decreases |ds|
  {
    if ds != [] {
      WitnessedControlsAreWhatArrived(number, Ingested(number, c, ds[0]), ds[1..]);
      assert forall d :: d in ds <==> d == ds[0] || d in ds[1..];
    }
  }

  /** How often the applied timeline changed. */
  function Applications(number: string -> Reading, c: ClientState, ds: seq<Timeline>): nat
    decreases |ds|
  {
    if ds == [] then 0
    else
      (if IsNewer(number, ds[0], c.timeline) then 1 else 0) + Applications(number, Ingested(number, c, ds[0]), ds[1..])
  }

  /** Every delivery within one epoch is applied, a duplicate or a reorder, and nothing else. */
  lemma {:induction false} DeliveriesAreClassified(number: string -> Reading, c: ClientState, ds: seq<Timeline>,
                                                   epoch: string)
    requires forall d | d in ds :: d.storeEpoch == epoch
    requires c.timeline.Some? ==> c.timeline.value.storeEpoch == epoch
    ensures var c' := Deliver(number, c, ds);
            Applications(number, c, ds) + (c'.seqDuplicates - c.seqDuplicates) + (c'.seqReorders - c.seqReorders)
            == |ds|
    decreases |ds|
  {
    if ds != [] {
      DeliveriesAreClassified(number, Ingested(number, c, ds[0]), ds[1..], epoch);
    }
  }

  /**
   * Why a delivery was not applied: from the epoch held, it is a duplicate exactly if it carries the
   * held number and a reorder exactly if it carries another; from another epoch it is neither.
   */
  lemma RefusalsAreTold(number: string -> Reading, c: ClientState, d: Timeline)
    ensures var c', held := Ingested(number, c, d), c.timeline;
            var refused := held.Some? && held.value.storeEpoch == d.storeEpoch && !IsNewer(number, d, held);
            && c'.seqDuplicates == c.seqDuplicates + (if refused && d.seqNo == held.value.seqNo then 1 else 0)
            && c'.seqReorders == c.seqReorders + (if refused && d.seqNo != held.value.seqNo then 1 else 0)
            && (refused && d.seqNo != held.value.seqNo ==> d.seqNo < held.value.seqNo)
            && (!IsNewer(number, d, held) ==> c'.timeline == held && c'.lastSeekMediaTime == c.lastSeekMediaTime)
  {
  }

  /** The media time of the last seek in `s`, or what was known before. */
  function LastSeek(before: Option<real>, s: seq<Timeline>): Option<real>
    decreases |s|
  {
    if s == [] then before else LastSeek(if s[0].reason == Seek then Some(s[0].mediaTime) else before, s[1..])
  }

  /** Fed the commits in order, a client knows which seek the store committed last, and sees no reorder. */
  lemma {:induction false} OrderedDeliveryWitnessesTheLastSeek(number: string -> Reading, c: ClientState,
                                                               s: seq<Timeline>)
    requires Increasing(number, s)
    requires c.timeline.Some? ==> forall tl | tl in s :: Newer(number, tl, c.timeline.value)
    ensures Deliver(number, c, s).lastSeekMediaTime == LastSeek(c.lastSeekMediaTime, s)
    ensures Deliver(number, c, s).seqReorders == c.seqReorders && Deliver(number, c, s).seqDuplicates == c.seqDuplicates
    decreases |s|
  {
    if s != [] {
      assert forall i | 0 <= i < |s[1..]| :: s[1..][i] == s[i + 1];
      OrderedDeliveryWitnessesTheLastSeek(number, Ingested(number, c, s[0]), s[1..]);
    }
  }

  ghost predicate Has(s: seq<Timeline>, epoch: string, seqNo: int) {
    exists tl :: tl in s && tl.storeEpoch == epoch && tl.seqNo == seqNo
  }

  /** The highest number of the current life of `epoch`; -1 before that life begins. */
  function Reached(r: Option<Room>, epoch: string): int {
    if r.Some? && r.value.timeline.storeEpoch == epoch then r.value.timeline.seqNo else -1
  }

  /** A commit continues the current life by one, or begins a new life at 0. */
  lemma CommitAdvancesByOne(r: Option<Room>, e: Event, epoch: string)
    requires r.Some? ==> r.value.timeline.seqNo >= 0
    ensures var (r', outcome) := Step(r, e);
            && (r'.Some? ==> r'.value.timeline.seqNo >= 0)
            && (outcome.Committed? ==>
                  && outcome.timeline.seqNo >= 0
                  && Reached(r', epoch) <= Reached(r, epoch) + 1
                  && (outcome.timeline.storeEpoch == epoch ==> outcome.timeline.seqNo == Reached(r', epoch)))
            && (!outcome.Committed? ==> Reached(r', epoch) <= Reached(r, epoch))
            && (Reached(r', epoch) == Reached(r, epoch) + 1 ==>
                  outcome.Committed? && outcome.timeline.storeEpoch == epoch)
  {
  }

  /** Sequence numbers are assigned without holes, from 0 in every life of a room. */
  lemma {:induction false} StreamIsContiguous(r: Option<Room>, es: seq<Event>, tl: Timeline, seqNo: int)
    requires r.Some? ==> r.value.timeline.seqNo >= 0
    requires tl in Stream(r, es) && Reached(r, tl.storeEpoch) < seqNo <= tl.seqNo
    ensures Has(Stream(r, es), tl.storeEpoch, seqNo)
    decreases |es|
  {
    var (r', outcome) := Step(r, es[0]);
    var head := if outcome.Committed? then [outcome.timeline] else [];
    var rest := Stream(r', es[1..]);
    assert Stream(r, es) == head + rest;
    CommitAdvancesByOne(r, es[0], tl.storeEpoch);
    if outcome.Committed? && outcome.timeline.storeEpoch == tl.storeEpoch && outcome.timeline.seqNo == seqNo {
      assert (head + rest)[0] == outcome.timeline;
    } else {
      assert tl in rest;
      StreamIsContiguous(r', es[1..], tl, seqNo);
      HasIsMonotone(head, rest, tl.storeEpoch, seqNo);
    }
  }

  lemma HasIsMonotone(head: seq<Timeline>, rest: seq<Timeline>, epoch: string, seqNo: int)
    requires Has(rest, epoch, seqNo)
    ensures Has(head + rest, epoch, seqNo)
  {
    var found :| found in rest && found.storeEpoch == epoch && found.seqNo == seqNo;
    assert found in head + rest;
  }

  /**
   * A reported gap is a real loss, and every loss inside the observed range is reported: it names
   * a commit of that epoch that was never delivered, however the deliveries were ordered.
   */
  lemma GapsAreExactlyTheLosses(number: string -> Reading, es: seq<Event>, ds: seq<Timeline>, epoch: string, s: int)
    requires forall d | d in ds :: d in Stream(None, es)
    ensures Gap(SeqsOf(Deliver(number, FRESH, ds).seqsByEpoch, epoch), s) <==>
            && Has(Stream(None, es), epoch, s) && !Has(ds, epoch, s)
            && (exists lo :: Has(ds, epoch, lo) && lo < s) && (exists hi :: Has(ds, epoch, hi) && hi > s)
  {
    SeenIsWhatArrived(number, FRESH, ds, epoch);
    var seen := SeqsOf(Deliver(number, FRESH, ds).seqsByEpoch, epoch);
    forall n
      ensures n in seen <==> Has(ds, epoch, n)
    {
      if n in seen {
        var d :| d in ds && d.storeEpoch == epoch && d.seqNo == n;
      }
    }
    if Gap(seen, s) {
      var lo :| lo in seen && lo < s;
      var low :| low in ds && low.storeEpoch == epoch && low.seqNo == lo;
      SeqsAreNatural(None, es, low);
      var hi :| hi in seen && hi > s;
      var top :| top in ds && top.storeEpoch == epoch && top.seqNo == hi;
      StreamIsContiguous(None, es, top, s);
    }
  }

  lemma {:induction false} SeqsAreNatural(r: Option<Room>, es: seq<Event>, tl: Timeline)
    requires r.Some? ==> r.value.timeline.seqNo >= 0
    requires tl in Stream(r, es)
    ensures tl.seqNo >= 0
    decreases |es|
  {
    var (r', outcome) := Step(r, es[0]);
    CommitAdvancesByOne(r, es[0], tl.storeEpoch);
    if !(outcome.Committed? && tl == outcome.timeline) {
      SeqsAreNatural(r', es[1..], tl);
    }
  }
}
