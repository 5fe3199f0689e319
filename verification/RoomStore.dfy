/**
 * The authority for room playback state (video-sync-backend/src/sync/room-state.store.ts).
 *
 * `Step` says what one call does to one room. The class keeps the three maps of the source and
 * is proved to perform exactly `Step` on the addressed room and nothing elsewhere; everything
 * promised about whole runs is then proved of `Step`.
 */
module RoomStore {
  import opened Common
  import opened Timelines
  import opened Replay

  const CMD_DEDUP_TTL_MS: real := 900000.0
  const LOG_LIMIT: nat := 1024

  /** A live room: its timeline, the dedup table (cmdId to expiry) and the bounded log. */
  datatype Room = Room(timeline: Timeline, seen: map<string, real>, log: seq<LogEntry>)

  /** `forVideoId`: None is "unfenced", Some(None) is "observed no video". */
  datatype Options = Options(cmdId: Option<string>, videoId: Option<string>, forVideoId: Option<Option<string>>)

  datatype Event =
    | ControlEvent(intent: Intent, mediaTime: real, now: real, author: string, opts: Options)
    | SweepEvent(now: real)
    | InitEvent(videoId: Option<string>, mediaTime: real, now: real, minted: string)
    | ClearEvent

  datatype Outcome =
    | Committed(timeline: Timeline)
    | Duplicate(timeline: Timeline)
    | Fenced(timeline: Timeline)
    | Existing(timeline: Timeline)
    | Missing
    | Cleared

  /** The empty string is falsy: such a command carries no id. */
  predicate HasId(opts: Options) {
    opts.cmdId.Some? && opts.cmdId.value != ""
  }

  function Unexpired(seen: map<string, real>, now: real): map<string, real> {
    map id | id in seen && seen[id] > now :: seen[id]
  }

  function Entry(tl: Timeline, cmdId: Option<string>): LogEntry {
    LogEntry(tl.seqNo, tl.storeEpoch, tl.videoId, tl.isPlaying, tl.mediaTime, tl.stampedAt, tl.reason, tl.author, cmdId)
  }

  function AppendTo(log: seq<LogEntry>, e: LogEntry): seq<LogEntry> {
    var pushed := log + [e];
    if |pushed| > LOG_LIMIT then pushed[1..] else pushed
  }

  function Advance(r: Room, next: Timeline, cmdId: Option<string>): Room {
    r.(timeline := next, log := AppendTo(r.log, Entry(next, cmdId)))
  }

  predicate FenceRefuses(prev: Timeline, intent: Intent, opts: Options) {
    opts.forVideoId.Some? && intent != ISetVideo && prev.videoId != opts.forVideoId.value
  }

  function StepControl(r: Room, e: Event): (Room, Outcome)
    requires e.ControlEvent?
  {
    var prev := r.timeline;
    var seen := if HasId(e.opts) then Unexpired(r.seen, e.now) else r.seen;
    if HasId(e.opts) && e.opts.cmdId.value in seen then (r.(seen := seen), Duplicate(prev))
    else if FenceRefuses(prev, e.intent, e.opts) then (r.(seen := seen), Fenced(prev))
    else
      var recorded := if HasId(e.opts) then seen[e.opts.cmdId.value := e.now + CMD_DEDUP_TTL_MS] else seen;
      var next := ApplyControl(prev, e.intent, e.mediaTime, e.now, e.author, e.opts.videoId, prev.seqNo + 1);
      (Advance(r.(seen := recorded), next, e.opts.cmdId), Committed(next))
  }

  function Created(e: Event): Timeline
    requires e.InitEvent?
  {
    Timeline(0, e.minted, e.videoId, false, e.mediaTime, e.now, Join, None)
  }

  function Step(r: Option<Room>, e: Event): (Option<Room>, Outcome) {
    match e
    case ClearEvent => (None, Cleared)
    case InitEvent(_, _, _, _) =>
      if r.Some? then (r, Existing(r.value.timeline))
      else (Some(Room(Created(e), map[], AppendTo([], Entry(Created(e), None)))), Committed(Created(e)))
    case SweepEvent(now) =>
      if r.None? then (r, Missing)
      else
        var next := TakeSnapshot(r.value.timeline, now, r.value.timeline.seqNo + 1);
        (Some(Advance(r.value, next, None)), Committed(next))
    case ControlEvent(_, _, _, _, _) =>
      if r.None? then (r, Missing)
      else var (room, outcome) := StepControl(r.value, e); (Some(room), outcome)
  }

  // ---- the imperative store ----

  class InMemoryRoomStateStore {
    var rooms: map<string, Timeline>
    var cmdSeen: map<string, map<string, real>>
    var logs: map<string, seq<LogEntry>>

    ghost predicate Valid()
      reads this
    {
      logs.Keys == rooms.Keys && cmdSeen.Keys <= rooms.Keys
    }

    /** The abstract value of one room. */
    ghost function At(code: string): Option<Room>
      requires Valid()
      reads this
    {
      if code !in rooms then None
      else Some(Room(rooms[code], if code in cmdSeen then cmdSeen[code] else map[], logs[code]))
    }

    constructor ()
      ensures Valid() && forall code :: At(code) == None
    {
      rooms, cmdSeen, logs := map[], map[], map[];
    }

    method AppendLog(code: string, tl: Timeline, cmdId: Option<string>)
      modifies this`logs
      ensures logs == old(logs)[code := AppendTo(if code in old(logs) then old(logs)[code] else [], Entry(tl, cmdId))]
    {
      var log := if code in logs then logs[code] else [];
      log := log + [Entry(tl, cmdId)];
      if |log| > LOG_LIMIT {
        log := log[1..];
      }
      logs := logs[code := log];
    }

    /** Lazy expiry: the loop that deletes every record whose expiry has come. */
    static method DropExpired(seen: map<string, real>, now: real) returns (kept: map<string, real>)
      ensures kept == Unexpired(seen, now)
    {
      kept := seen;
      var todo := seen.Keys;
      while todo != {}
        invariant todo <= seen.Keys
        invariant forall id :: id in kept <==> id in seen && (id in todo || seen[id] > now)
        invariant forall id | id in kept :: kept[id] == seen[id]
        decreases todo
      {
        var id :| id in todo;
        if seen[id] <= now {
          kept := kept - {id};
        }
        todo := todo - {id};
      }
    }

    /** Write the next timeline of a live room and log it. */
    method CommitNext(code: string, next: Timeline, cmdId: Option<string>)
      requires Valid() && code in rooms
      modifies this`rooms, this`logs
      ensures Valid() && At(code) == Some(Advance(old(At(code)).value, next, cmdId))
      ensures forall other | other != code :: At(other) == old(At(other))
    {
      rooms := rooms[code := next];
      AppendLog(code, next, cmdId);
    }

    method ApplyControlIntent(code: string, intent: Intent, mediaTime: real, now: real, author: string, opts: Options)
      returns (outcome: Outcome)
      requires Valid()
      modifies this
      ensures Valid()
      ensures (At(code), outcome) == Step(old(At(code)), ControlEvent(intent, mediaTime, now, author, opts))
      ensures forall other | other != code :: At(other) == old(At(other))
    {
      if code !in rooms {
        return Missing;
      }
      var prev := rooms[code];
      var seen := if code in cmdSeen then cmdSeen[code] else map[];
      if HasId(opts) {
        seen := DropExpired(seen, now);
        cmdSeen := cmdSeen[code := seen]; // the source edits the table in place
        if opts.cmdId.value in seen {
          return Duplicate(prev);
        }
      }
      if FenceRefuses(prev, intent, opts) {
        return Fenced(prev);
      }
      if HasId(opts) {
        seen := seen[opts.cmdId.value := now + CMD_DEDUP_TTL_MS];
        cmdSeen := cmdSeen[code := seen];
      }
      var next := ApplyControl(prev, intent, mediaTime, now, author, opts.videoId, prev.seqNo + 1);
      CommitNext(code, next, opts.cmdId);
      return Committed(next);
    }

    method ApplySnapshot(code: string, now: real) returns (outcome: Outcome)
      requires Valid()
      modifies this
      ensures Valid()
      ensures (At(code), outcome) == Step(old(At(code)), SweepEvent(now))
      ensures forall other | other != code :: At(other) == old(At(other))
    {
      if code !in rooms {
        return Missing;
      }
      var prev := rooms[code];
      var next := TakeSnapshot(prev, now, prev.seqNo + 1);
      CommitNext(code, next, None);
      return Committed(next);
    }

    method Init(code: string, videoId: Option<string>, mediaTime: real, now: real, minted: string)
      returns (outcome: Outcome)
      requires Valid()
      modifies this
      ensures Valid()
      ensures (At(code), outcome) == Step(old(At(code)), InitEvent(videoId, mediaTime, now, minted))
      ensures forall other | other != code :: At(other) == old(At(other))
    {
      if code in rooms {
        return Existing(rooms[code]);
      }
      var created := Timeline(0, minted, videoId, false, mediaTime, now, Join, None);
      rooms := rooms[code := created];
      AppendLog(code, created, None);
      return Committed(created);
    }

    method Clear(code: string)
      requires Valid()
      modifies this
      ensures Valid()
      ensures At(code) == Step(old(At(code)), ClearEvent).0
      ensures forall other | other != code :: At(other) == old(At(other))
    {
      logs := logs - {code};
      cmdSeen := cmdSeen - {code};
      rooms := rooms - {code};
    }
  }
}
