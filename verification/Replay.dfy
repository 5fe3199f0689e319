/**
 * The replay checker (shared/sync-core/replay.ts): a transition contract for the command log,
 * written independently of the functions that produce commits.
 */
module Replay {
  import opened Common
  import opened Timelines

  datatype LogEntry = LogEntry(
    seqNo: int, storeEpoch: string, videoId: Option<string>, isPlaying: bool,
    mediaTime: real, stampedAt: real, reason: Reason, author: Option<string>, cmdId: Option<string>)

  datatype Violation =
    | NotContiguous | StampRegressed
    | SetVideoPlaying | SetVideoNotAtZero | VideoChanged
    | PlayNotPlaying | PausePlaying | SeekFlipped
    | SnapshotFlipped | ProjectionMoved(expected: real)
    | UnknownReason

  datatype Mismatch =
    | EpochDiffers | SeqDiffers | PlayingDiffers | MediaTimeDiffers
    | ReasonDiffers | StampDiffers | VideoDiffers

  /** Float slack of the checker, in seconds. */
  const EPS: real := 0.000001

  function ToTimeline(e: LogEntry): Timeline {
    Timeline(e.seqNo, e.storeEpoch, e.videoId, e.isPlaying, e.mediaTime, e.stampedAt, e.reason, e.author)
  }

  predicate Differs(a: real, b: real, eps: real) {
    Abs(a - b) > eps
  }

  /** The contract with slack `eps`; the checker itself uses EPS. */
  function CheckWithin(prev: LogEntry, next: LogEntry, eps: real): Option<Violation> {
    if next.storeEpoch != prev.storeEpoch then None
    else if next.seqNo != prev.seqNo + 1 then Some(NotContiguous)
    else if next.stampedAt < prev.stampedAt then Some(StampRegressed)
    else if next.reason == SetVideo then
      if next.isPlaying then Some(SetVideoPlaying)
      else if Differs(next.mediaTime, 0.0, eps) then Some(SetVideoNotAtZero)
      else None
    else if next.videoId != prev.videoId then Some(VideoChanged)
    else match next.reason
      case Play => if next.isPlaying then None else Some(PlayNotPlaying)
      case Pause => if next.isPlaying then Some(PausePlaying) else None
      case Seek => if next.isPlaying != prev.isPlaying then Some(SeekFlipped) else None
      case Snapshot =>
        if next.isPlaying != prev.isPlaying then Some(SnapshotFlipped)
        else
          var projected := Project(ToTimeline(prev), next.stampedAt);
          if Differs(next.mediaTime, projected, eps) then Some(ProjectionMoved(projected)) else None
      case _ => Some(UnknownReason)
  }

  function CheckTransition(prev: LogEntry, next: LogEntry): Option<Violation> {
    CheckWithin(prev, next, EPS)
  }

  /** The verdict on the transition that ends at entry `i`. */
  function CheckAt(entries: seq<LogEntry>, i: int): Option<Violation>
    requires 0 < i < |entries|
  {
    CheckTransition(entries[i - 1], entries[i])
  }

  ghost predicate LegalChain(entries: seq<LogEntry>) {
    forall i | 0 < i < |entries| :: CheckAt(entries, i).None?
  }

  datatype Located = Located(index: nat, violation: Violation)

  /** Every consecutive pair is checked; the report lists exactly the illegal ones, in order. */
  method CheckChain(entries: seq<LogEntry>) returns (checked: nat, violations: seq<Located>)
    ensures checked == if entries == [] then 0 else |entries| - 1
    ensures forall k | 0 <= k < |violations| ::
              0 < violations[k].index < |entries| &&
              CheckAt(entries, violations[k].index) == Some(violations[k].violation)
    ensures forall i | 0 < i < |entries| && CheckAt(entries, i).Some? ::
              exists k :: 0 <= k < |violations| && violations[k].index == i
    ensures forall j, k | 0 <= j < k < |violations| :: violations[j].index < violations[k].index
    ensures violations == [] <==> LegalChain(entries)
  {
    violations := [];
    var i := 1;
    while i < |entries|
      invariant 1 <= i && (i <= |entries| || entries == [])
      invariant forall k | 0 <= k < |violations| ::
                  0 < violations[k].index < i && violations[k].index < |entries| &&
                  CheckAt(entries, violations[k].index) == Some(violations[k].violation)
      invariant forall j | 0 < j < i && j < |entries| && CheckAt(entries, j).Some? ::
                  exists k :: 0 <= k < |violations| && violations[k].index == j
      invariant forall j, k | 0 <= j < k < |violations| :: violations[j].index < violations[k].index
    {
      var v := CheckAt(entries, i);
      if v.Some? {
        ghost var before := violations;
        violations := violations + [Located(i, v.value)];
        assert violations[|before|].index == i;
        assert forall k | 0 <= k < |before| :: violations[k] == before[k];
      }
      i := i + 1;
    }
    checked := if |entries| == 0 then 0 else |entries| - 1;
    if violations != [] {
      assert CheckAt(entries, violations[0].index).Some?;
    }
  }

  function EntryMatchesLive(last: LogEntry, live: Timeline): Option<Mismatch> {
    if last.storeEpoch != live.storeEpoch then Some(EpochDiffers)
    else if last.seqNo != live.seqNo then Some(SeqDiffers)
    else if last.isPlaying != live.isPlaying then Some(PlayingDiffers)
    else if Differs(last.mediaTime, live.mediaTime, EPS) then Some(MediaTimeDiffers)
    else if last.reason != live.reason then Some(ReasonDiffers)
    else if last.stampedAt != live.stampedAt then Some(StampDiffers)
    else if last.videoId != live.videoId then Some(VideoDiffers)
    else None
  }

  /** No mismatch is reported exactly when the seven fields agree, positions up to the slack. */
  lemma MatchesExactlyWhenFieldsAgree(last: LogEntry, live: Timeline)
    ensures EntryMatchesLive(last, live).None? <==>
            && last.storeEpoch == live.storeEpoch && last.seqNo == live.seqNo && last.isPlaying == live.isPlaying
            && -EPS <= last.mediaTime - live.mediaTime <= EPS && last.reason == live.reason
            && last.stampedAt == live.stampedAt && last.videoId == live.videoId
  {
  }

  /** Epoch boundaries are not chained: any entry may follow one of another epoch. */
  lemma EpochsAreNotChained(prev: LogEntry, next: LogEntry)
    requires prev.storeEpoch != next.storeEpoch
    ensures CheckTransition(prev, next).None?
  {
  }

  // ---- the contract against the implementation ----

  /** What a store can do to a room: commit a control intent or sweep. */
  datatype Commit = Control(intent: Intent, mediaTime: real, videoId: Option<string>) | Sweep

  function Perform(prev: Timeline, c: Commit, now: real, author: string): Timeline {
    match c
    case Control(intent, mediaTime, videoId) =>
      ApplyControl(prev, intent, mediaTime, now, author, videoId, prev.seqNo + 1)
    case Sweep => TakeSnapshot(prev, now, prev.seqNo + 1)
  }

  /** Equal in everything but the author, with media positions at most `eps` apart. */
  ghost predicate AgreeUpTo(a: Timeline, b: Timeline, eps: real) {
    && a == b.(mediaTime := a.mediaTime, author := a.author)
    && Abs(a.mediaTime - b.mediaTime) <= eps
  }

  /**
   * Contract equals implementation. For every slack, a same-epoch pair passes the contract if and
   * only if some control or sweep, performed on the first entry no earlier than its stamp, yields
   * the second up to that slack; with slack 0 it yields it exactly.
   */
  lemma ContractIsImplementation(prev: LogEntry, next: LogEntry, eps: real, author: string)
    requires eps >= 0.0 && next.storeEpoch == prev.storeEpoch
    ensures CheckWithin(prev, next, eps).None? <==>
            prev.stampedAt <= next.stampedAt &&
            exists c :: AgreeUpTo(Perform(ToTimeline(prev), c, next.stampedAt, author), ToTimeline(next), eps)
  {
    var before, after := ToTimeline(prev), ToTimeline(next);
    if CheckWithin(prev, next, eps).None? {
      var c := match next.reason
        case Play => Control(IPlay, next.mediaTime, None)
        case Pause => Control(IPause, next.mediaTime, None)
        case Seek => Control(ISeek, next.mediaTime, None)
        case SetVideo => Control(ISetVideo, 0.0, next.videoId)
        case _ => Sweep;
      assert AgreeUpTo(Perform(before, c, next.stampedAt, author), after, eps);
    }
  }

  /** The literal form of the same theorem: without slack the produced timeline is the logged one. */
  lemma ExactContract(prev: LogEntry, next: LogEntry, author: string)
    requires next.storeEpoch == prev.storeEpoch
    ensures CheckWithin(prev, next, 0.0).None? <==>
            prev.stampedAt <= next.stampedAt &&
            exists c :: Perform(ToTimeline(prev), c, next.stampedAt, author).(author := next.author)
                        == ToTimeline(next)
  {
    ContractIsImplementation(prev, next, 0.0, author);
    if CheckWithin(prev, next, 0.0).None? {
      var c :| AgreeUpTo(Perform(ToTimeline(prev), c, next.stampedAt, author), ToTimeline(next), 0.0);
      assert Perform(ToTimeline(prev), c, next.stampedAt, author).(author := next.author) == ToTimeline(next);
    } else if prev.stampedAt <= next.stampedAt {
      forall c
        ensures Perform(ToTimeline(prev), c, next.stampedAt, author).(author := next.author) != ToTimeline(next)
      {
        assert !AgreeUpTo(Perform(ToTimeline(prev), c, next.stampedAt, author), ToTimeline(next), 0.0);
      }
    }
  }

  ghost predicate AcceptedSnapshots(entries: seq<LogEntry>) {
    && entries != []
    && LegalChain(entries)
    && (forall i | 0 < i < |entries| :: entries[i].reason == Snapshot && entries[i].storeEpoch == entries[0].storeEpoch)
  }

  /** Slack accumulates at most linearly: k accepted snapshots move any projection by at most k * EPS. */
  lemma {:induction false} SnapshotsDriftAtMost(entries: seq<LogEntry>, at: real)
    requires AcceptedSnapshots(entries)
    ensures Abs(Project(ToTimeline(entries[|entries| - 1]), at) - Project(ToTimeline(entries[0]), at))
            <= (|entries| - 1) as real * EPS
    decreases |entries|
  {
    var n := |entries|;
    if n > 1 {
      var front := entries[..n - 1];
      assert AcceptedSnapshots(front) by {
        assert forall i | 0 < i < |front| :: CheckAt(front, i) == CheckAt(entries, i);
      }
      SnapshotsDriftAtMost(front, at);
      assert CheckAt(entries, n - 1).None?;
      assert front[n - 2] == entries[n - 2];
      assert (n - 1) as real * EPS == (n - 2) as real * EPS + EPS;
    }
  }
}
