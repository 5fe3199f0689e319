/**
 * The projectable room timeline (shared/sync-core/timeline.ts): what a room plays, as a
 * function of server time, and the order in which clients accept timelines.
 */
module Timelines {
  import opened Common

  datatype Reason = Play | Pause | Seek | SetVideo | Join | Snapshot | Succession | Other(name: string)

  datatype Intent = IPlay | IPause | ISeek | ISetVideo

  /** `rate` is the literal 1 in version 1 of the protocol and is therefore not a field. */
  datatype Timeline = Timeline(
    seqNo: int, storeEpoch: string, videoId: Option<string>, isPlaying: bool,
    mediaTime: real, stampedAt: real, reason: Reason, author: Option<string>)

  /** Media position in seconds at server instant `at` (milliseconds). */
  function Project(tl: Timeline, at: real): real {
    if tl.isPlaying then tl.mediaTime + (at - tl.stampedAt) / 1000.0 else tl.mediaTime
  }

  /** Restamp a control intent; the sequence number is the store's business. */
  function ApplyControl(prev: Timeline, intent: Intent, mediaTime: real, now: real, author: string,
                        videoId: Option<string>, seqNo: int): Timeline
  {
    var base := prev.(seqNo := seqNo, stampedAt := now, author := Some(author));
    match intent
    case IPlay => base.(isPlaying := true, mediaTime := mediaTime, reason := Play)
    case IPause => base.(isPlaying := false, mediaTime := mediaTime, reason := Pause)
    case ISeek => base.(mediaTime := mediaTime, reason := Seek)
    case ISetVideo => base.(videoId := videoId, isPlaying := false, mediaTime := 0.0, reason := SetVideo)
  }

  /** Re-anchor the projection without changing what is played. */
  function TakeSnapshot(tl: Timeline, now: real, seqNo: int): Timeline {
    Timeline(seqNo, tl.storeEpoch, tl.videoId, tl.isPlaying, Project(tl, now), now, Snapshot, None)
  }

  /** The result of JavaScript's `Number(text)`. */
  datatype Reading = NaN | NegInfinity | Finite(value: real) | PosInfinity

  /** `a > b` on JavaScript numbers: every comparison with NaN is false. */
  predicate Greater(a: Reading, b: Reading) {
    match (a, b)
    case (NaN, _) => false
    case (_, NaN) => false
    case (Finite(x), Finite(y)) => x > y
    case (PosInfinity, _) => !b.PosInfinity?
    case (NegInfinity, _) => false
    case (Finite(_), _) => b.NegInfinity?
  }

  /**
   * Does a client holding `applied` accept `incoming`? `number` is the numeric reading of an
   * epoch text; nothing is assumed of it, so every result below holds for any reading.
   */
  predicate Newer(number: string -> Reading, incoming: Timeline, applied: Timeline) {
    var a, b := number(incoming.storeEpoch), number(applied.storeEpoch);
    if a.Finite? && b.Finite? && a != b then Greater(a, b)
    else if incoming.storeEpoch != applied.storeEpoch then Greater(a, b)
    else incoming.seqNo > applied.seqNo
  }

  predicate IsNewer(number: string -> Reading, incoming: Timeline, applied: Option<Timeline>) {
    applied.None? || Newer(number, incoming, applied.value)
  }

  /** The acceptance rule is a strict partial order on all timelines, unparseable epochs included. */
  lemma NewerIsStrictPartialOrder(number: string -> Reading, x: Timeline, y: Timeline, z: Timeline)
    ensures !Newer(number, x, x)
    ensures Newer(number, x, y) ==> !Newer(number, y, x)
    ensures Newer(number, x, y) && Newer(number, y, z) ==> Newer(number, x, z)
  {
  }

  /**
   * Two timelines are comparable exactly when they are not the same commit and their epochs can
   * be told apart by number; in particular the order is total where every text reads as its own
   * number.
   */
  lemma NewerIsTotalExactlyWhenEpochsAreOrdered(number: string -> Reading, x: Timeline, y: Timeline)
    ensures (Newer(number, x, y) || Newer(number, y, x)) <==>
            if x.storeEpoch == y.storeEpoch then x.seqNo != y.seqNo
            else number(x.storeEpoch) != number(y.storeEpoch) &&
                 !number(x.storeEpoch).NaN? && !number(y.storeEpoch).NaN?
  {
  }

  /** A playing timeline advances by one media second per second from its stamp; a paused one stands. */
  lemma ProjectionMovesWithTheClock(tl: Timeline, a: real, b: real)
    ensures Project(tl, tl.stampedAt) == tl.mediaTime
    ensures tl.isPlaying ==> 1000.0 * (Project(tl, b) - Project(tl, a)) == b - a
    ensures !tl.isPlaying ==> Project(tl, a) == Project(tl, b)
  {
  }

  /**
   * What each intent promises of the timeline `tl` it turns `prev` into: play starts from the
   * commanded position; pause freezes there, at every instant; seek jumps there and leaves the
   * playing state; set-video shows the given video, paused at 0. Only set-video changes the video.
   */
  ghost predicate Obeys(prev: Timeline, tl: Timeline, intent: Intent, mediaTime: real, video: Option<string>) {
    match intent
    case IPlay =>
      tl.isPlaying && Project(tl, tl.stampedAt) == mediaTime && tl.videoId == prev.videoId && tl.reason == Play
    case IPause =>
      !tl.isPlaying && (forall at :: Project(tl, at) == mediaTime) && tl.videoId == prev.videoId && tl.reason == Pause
    case ISeek =>
      && tl.isPlaying == prev.isPlaying && Project(tl, tl.stampedAt) == mediaTime
      && tl.videoId == prev.videoId && tl.reason == Seek
    case ISetVideo =>
      tl.videoId == video && !tl.isPlaying && (forall at :: Project(tl, at) == 0.0) && tl.reason == SetVideo
  }
}
