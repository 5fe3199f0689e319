/**
 * The Rust relay's revocation snapshot (relay-rs/src/main.rs) at the granularity of its locks and
 * its atomic flag: one refresh thread and the event handler interleave at every point where
 * neither holds the other's lock.
 */
module RelayRevocation {
  import opened Common
  import opened RevocationSpec
  import Backend = RevocationService

  /** Where the refresh thread stands in `refresh_snapshot`; a failed read carries None. */
  datatype Refresh =
    | Idle
    | Flagged                                                     // refreshing = true
    | JtiCleared                                                  // pending_jti emptied
    | Cleared                                                     // pending_versions emptied
    | JtiRead(at: int, jtis: Option<set<string>>)                 // SMEMBERS answered
    | BothRead(at: int, jtis: Option<set<string>>, pairs: Option<map<string, int>>) // HGETALL answered
    | JtiMerged(pairs: Option<map<string, int>>)
    | Merged
    | Unflagged                                                   // refreshing = false
    | JtiClearedAgain

  /** A handler inside `remember_*`, holding the live lock: it inserted, then it may have loaded the flag. */
  datatype Holder<T> = Inserted(entry: T) | Loaded(entry: T, flag: bool)

  datatype Relay = Relay(
    live: Refusals, refreshing: bool, pendingJti: set<string>, pendingVersions: map<string, int>,
    mirror: Refusals, now: int, refresh: Refresh,
    jtiLock: Option<Holder<string>>, versionLock: Option<Holder<(string, int)>>)

  datatype Action =
    | RefreshStep(ok: bool)                  // the refresh thread moves on; `ok` is whether a read succeeded
    | LockJti(jti: string)                   // take the live lock and insert
    | LoadForJti                             // load the flag under the lock
    | ReleaseJti                             // insert into pending if the flag was set, and unlock
    | LockVersion(user: string, version: int)
    | LoadForVersion
    | ReleaseVersion
    | MirrorJti(jti: string)
    | MirrorDrop(jti: string)
    | MirrorVersion(user: string, version: int)
    | Tick(now: int)

  /** One step of the refresh thread; it waits where the live lock it needs is taken. */
  function RefreshNext(p: Relay, ok: bool): Relay {
    match p.refresh
    case Idle => p.(refreshing := true, refresh := Flagged)
    case Flagged => p.(pendingJti := {}, refresh := JtiCleared)
    case JtiCleared => p.(pendingVersions := map[], refresh := Cleared)
    case Cleared => p.(refresh := JtiRead(p.now, if ok then Some(p.mirror.tokens) else None))
    case JtiRead(at, jtis) => p.(refresh := BothRead(at, jtis, if ok then Some(p.mirror.versions) else None))
    case BothRead(at, jtis, pairs) =>
      if jtis.None? then p.(refresh := JtiMerged(pairs))
      else if p.jtiLock.Some? then p
      else p.(live := p.live.(tokens := jtis.value + p.pendingJti), refresh := JtiMerged(pairs))
    case JtiMerged(pairs) =>
      if pairs.None? then p.(refresh := Merged)
      else if p.versionLock.Some? then p
      else p.(live := p.live.(versions := MergeVersions(pairs.value, p.pendingVersions)), refresh := Merged)
    case Merged => p.(refreshing := false, refresh := Unflagged)
    case Unflagged => p.(pendingJti := {}, refresh := JtiClearedAgain)
    case JtiClearedAgain => p.(pendingVersions := map[], refresh := Idle)
  }

  function Next(p: Relay, a: Action): Relay {
    match a
    case RefreshStep(ok) => RefreshNext(p, ok)
    case LockJti(jti) =>
      if p.jtiLock.Some? then p
      else p.(live := p.live.(tokens := p.live.tokens + {jti}), jtiLock := Some(Inserted(jti)))
    case LoadForJti =>
      if p.jtiLock.None? || p.jtiLock.value.Loaded? then p
      else p.(jtiLock := Some(Loaded(p.jtiLock.value.entry, p.refreshing)))
    case ReleaseJti =>
      if p.jtiLock.None? || p.jtiLock.value.Inserted? then p
      else p.(pendingJti := if p.jtiLock.value.flag then p.pendingJti + {p.jtiLock.value.entry} else p.pendingJti,
              jtiLock := None)
    case LockVersion(u, v) =>
      if p.versionLock.Some? then p
      else p.(live := p.live.(versions := Raise(p.live.versions, u, v)), versionLock := Some(Inserted((u, v))))
    case LoadForVersion =>
      if p.versionLock.None? || p.versionLock.value.Loaded? then p
      else p.(versionLock := Some(Loaded(p.versionLock.value.entry, p.refreshing)))
    case ReleaseVersion =>
      if p.versionLock.None? || p.versionLock.value.Inserted? then p
      else
        var (u, v) := p.versionLock.value.entry;
        p.(pendingVersions := if p.versionLock.value.flag then Raise(p.pendingVersions, u, v) else p.pendingVersions,
           versionLock := None)
    case MirrorJti(jti) => p.(mirror := p.mirror.(tokens := p.mirror.tokens + {jti}))
    case MirrorDrop(jti) => p.(mirror := p.mirror.(tokens := p.mirror.tokens - {jti}))
    case MirrorVersion(u, v) => p.(mirror := p.mirror.(versions := p.mirror.versions[u := v]))
    case Tick(now) => p.(now := now)
  }

  /**
   * The assumptions on the Redis mirror: it holds an event's entry before the event is delivered,
   * drops a token only once it has expired, and never lowers a version.
   */
  ghost predicate Legal(exp: string -> int, p: Relay, a: Action) {
    match a
    case LockJti(jti) => jti in p.mirror.tokens || exp(jti) <= p.now
    case LockVersion(u, v) => 0 < v <= VersionIn(p.mirror.versions, u)
    case MirrorDrop(jti) => exp(jti) <= p.now
    case MirrorVersion(u, v) => v >= VersionIn(p.mirror.versions, u)
    case Tick(now) => p.now <= now
    case _ => true
  }

  function Run(p: Relay, actions: seq<Action>): Relay
    decreases |actions|
  {
    if actions == [] then p else Run(Next(p, actions[0]), actions[1..])
  }

  ghost predicate LegalRun(exp: string -> int, p: Relay, actions: seq<Action>)
    decreases |actions|
  {
    actions == [] || (Legal(exp, p, actions[0]) && LegalRun(exp, Next(p, actions[0]), actions[1..]))
  }

  // ---- the invariant ----

  /** The flag is up from before the buffers are cleared until after both merges. */
  ghost predicate FlagSound(p: Relay) {
    p.refreshing <==> !(p.refresh.Idle? || p.refresh.Unflagged? || p.refresh.JtiClearedAgain?)
  }

  /** A handler that will still tee its entry into the pending buffer (the flag being up). */
  ghost predicate WillTee<T(!new)>(lock: Option<Holder<T>>) {
    lock.Some? && (lock.value.Inserted? || lock.value.flag)
  }

  /** Token `j`, read as `jtis` at time `at`, survives the merge that is yet to come. */
  ghost predicate TokenSafe(exp: string -> int, p: Relay, at: int, jtis: set<string>, j: string) {
    || j in jtis || exp(j) <= at || j in p.pendingJti
    || (WillTee(p.jtiLock) && p.jtiLock.value.entry == j)
  }

  ghost predicate TokensSound(exp: string -> int, p: Relay) {
    && (forall j | j in p.live.tokens :: j in p.mirror.tokens || exp(j) <= p.now)
    && ((p.refresh.JtiRead? || p.refresh.BothRead?) ==>
          && p.refresh.at <= p.now
          && (p.refresh.jtis.Some? ==>
                && (forall j | j in p.refresh.jtis.value :: j in p.mirror.tokens || exp(j) <= p.now)
                && (forall j | j in p.live.tokens :: TokenSafe(exp, p, p.refresh.at, p.refresh.jtis.value, j))))
    && (forall j | j in p.pendingJti :: j in p.mirror.tokens || exp(j) <= p.now)
    && (p.jtiLock.Some? ==> p.jtiLock.value.entry in p.mirror.tokens || exp(p.jtiLock.value.entry) <= p.now)
  }

  /** The version of `u`, read as `pairs`, survives the merge that is yet to come. */
  ghost predicate VersionSafe(p: Relay, pairs: map<string, int>, u: string) {
    || VersionIn(p.live.versions, u) <= VersionIn(pairs, u)
    || VersionIn(p.live.versions, u) <= VersionIn(p.pendingVersions, u)
    || (WillTee(p.versionLock) && p.versionLock.value.entry.0 == u &&
       VersionIn(p.live.versions, u) <= p.versionLock.value.entry.1)
  }

  ghost predicate UserSound(p: Relay, u: string) {
    && 0 <= VersionIn(p.live.versions, u) <= VersionIn(p.mirror.versions, u)
    && 0 <= VersionIn(p.pendingVersions, u) <= VersionIn(p.mirror.versions, u)
    && (p.versionLock.Some? && p.versionLock.value.entry.0 == u ==>
          0 < p.versionLock.value.entry.1 <= VersionIn(p.mirror.versions, u))
    && ((p.refresh.BothRead? || p.refresh.JtiMerged?) && p.refresh.pairs.Some? ==>
          && 0 <= VersionIn(p.refresh.pairs.value, u) <= VersionIn(p.mirror.versions, u)
          && VersionSafe(p, p.refresh.pairs.value, u))
  }

  ghost predicate VersionsSound(p: Relay) {
    forall u :: UserSound(p, u)
  }

  ghost predicate Inv(exp: string -> int, p: Relay) {
    FlagSound(p) && TokensSound(exp, p) && VersionsSound(p)
  }

  lemma BootIsSound(exp: string -> int, mirror: Refusals, now: int)
    requires forall u :: VersionIn(mirror.versions, u) >= 0
    ensures Inv(exp, Relay(Refusals({}, map[]), false, {}, map[], mirror, now, Idle, None, None))
  {
  }

  lemma RefreshKeepsTokensSound(exp: string -> int, p: Relay, ok: bool)
    requires FlagSound(p) && TokensSound(exp, p)
    ensures TokensSound(exp, RefreshNext(p, ok))
    ensures forall j | j in p.live.tokens ::
              j in RefreshNext(p, ok).live.tokens || (p.refresh.BothRead? && exp(j) <= p.refresh.at)
  {
  }

  lemma EventsKeepTokensSound(exp: string -> int, p: Relay, a: Action)
    requires !a.RefreshStep? && FlagSound(p) && TokensSound(exp, p) && Legal(exp, p, a)
    ensures TokensSound(exp, Next(p, a)) && p.live.tokens <= Next(p, a).live.tokens
  {
  }

  lemma RefreshKeepsUserSound(p: Relay, ok: bool, u: string)
    requires FlagSound(p) && UserSound(p, u)
    ensures UserSound(RefreshNext(p, ok), u)
    ensures VersionIn(p.live.versions, u) <= VersionIn(RefreshNext(p, ok).live.versions, u)
  {
  }

  lemma EventsKeepUserSound(exp: string -> int, p: Relay, a: Action, u: string)
    requires !a.RefreshStep? && FlagSound(p) && UserSound(p, u) && Legal(exp, p, a)
    ensures UserSound(Next(p, a), u)
    ensures VersionIn(p.live.versions, u) <= VersionIn(Next(p, a).live.versions, u)
  {
  }

  lemma StepKeepsVersionsSound(exp: string -> int, p: Relay, a: Action)
    requires FlagSound(p) && VersionsSound(p) && Legal(exp, p, a)
    ensures VersionsSound(Next(p, a))
    ensures forall u :: VersionIn(p.live.versions, u) <= VersionIn(Next(p, a).live.versions, u)
  {
    forall u
      ensures UserSound(Next(p, a), u) && VersionIn(p.live.versions, u) <= VersionIn(Next(p, a).live.versions, u)
    {
      assert UserSound(p, u);
      if a.RefreshStep? {
        RefreshKeepsUserSound(p, a.ok, u);
      } else {
        EventsKeepUserSound(exp, p, a, u);
      }
    }
  }

  lemma StepKeepsFlagSound(exp: string -> int, p: Relay, a: Action)
    requires FlagSound(p) && Legal(exp, p, a)
    ensures FlagSound(Next(p, a)) && p.now <= Next(p, a).now
  {
  }

  /** Every lock-level step refines the same monotone specification as the backend's snapshot. */
  lemma StepAdvances(exp: string -> int, p: Relay, a: Action)
    requires Inv(exp, p) && Legal(exp, p, a)
    ensures Inv(exp, Next(p, a)) && p.now <= Next(p, a).now
    ensures Advances(exp, p.live, Next(p, a).live,
                     if a.RefreshStep? && p.refresh.BothRead? then Some(p.refresh.at) else None, {})
  {
    StepKeepsFlagSound(exp, p, a);
    StepKeepsVersionsSound(exp, p, a);
    if a.RefreshStep? {
      RefreshKeepsTokensSound(exp, p, a.ok);
    } else {
      EventsKeepTokensSound(exp, p, a);
    }
  }

  /**
   * In every lock-level interleaving a remembered token stays refused until it has expired and no
   * user's version ever decreases.
   */
  lemma {:induction false} RefusalsPersist(exp: string -> int, p: Relay, actions: seq<Action>)
    requires Inv(exp, p) && LegalRun(exp, p, actions)
    ensures var q := Run(p, actions);
            Inv(exp, q) && p.now <= q.now && Advances(exp, p.live, q.live, Some(q.now), {})
    decreases |actions|
  {
    if actions != [] {
      StepAdvances(exp, p, actions[0]);
      RefusalsPersist(exp, Next(p, actions[0]), actions[1..]);
    }
  }

  // ---- the verdict at the door ----

  datatype Identity = Identity(sub: string, jti: Option<string>, ver: nat)

  /** A subject is required and a malformed version is a refusal, not a zero. */
  function Identify(claims: Backend.Payload): Option<Identity> {
    if claims.subject.None? || claims.subject.value == "" || claims.ver.Malformed? then None
    else Some(Identity(claims.subject.value, claims.jti, if claims.ver.Natural? then claims.ver.n else 0))
  }

  predicate Revoked(live: Refusals, id: Identity) {
    || (id.jti.Some? && id.jti.value in live.tokens)
    || (id.sub in live.versions && id.ver < live.versions[id.sub])
  }

  /** Once refused at the door, a connection is refused until its token has expired. */
  lemma RevokedStaysRevoked(exp: string -> int, p: Relay, actions: seq<Action>, id: Identity)
    requires Inv(exp, p) && LegalRun(exp, p, actions) && Revoked(p.live, id)
    ensures var q := Run(p, actions);
            Revoked(q.live, id) || (id.jti.Some? && exp(id.jti.value) <= q.now)
  {
    RefusalsPersist(exp, p, actions);
    assert VersionIn(p.live.versions, id.sub) <= VersionIn(Run(p, actions).live.versions, id.sub);
  }

  /** A revoked token that an event brings is refused at once, and on until it has expired. */
  lemma HeardTokensAreRefused(exp: string -> int, p: Relay, j: string, actions: seq<Action>, id: Identity)
    requires Inv(exp, p) && Legal(exp, p, LockJti(j)) && p.jtiLock.None? && id.jti == Some(j)
    requires LegalRun(exp, Next(p, LockJti(j)), actions)
    ensures Revoked(Next(p, LockJti(j)).live, id)
    ensures var q := Run(Next(p, LockJti(j)), actions); exp(j) > q.now ==> Revoked(q.live, id)
  {
    StepAdvances(exp, p, LockJti(j));
    RefusalsPersist(exp, Next(p, LockJti(j)), actions);
  }

  /** A bumped version that an event brings refuses every older identity of the user, for good. */
  lemma HeardVersionsAreEnforced(exp: string -> int, p: Relay, u: string, v: int, actions: seq<Action>, id: Identity)
    requires Inv(exp, p) && Legal(exp, p, LockVersion(u, v)) && p.versionLock.None? && id.sub == u && id.ver < v
    requires LegalRun(exp, Next(p, LockVersion(u, v)), actions)
    ensures Revoked(Next(p, LockVersion(u, v)).live, id)
    ensures Revoked(Run(Next(p, LockVersion(u, v)), actions).live, id)
  {
    var heard := Next(p, LockVersion(u, v));
    StepAdvances(exp, p, LockVersion(u, v));
    assert VersionIn(heard.live.versions, u) >= v;
    RefusalsPersist(exp, heard, actions);
    assert VersionIn(heard.live.versions, u) <= VersionIn(Run(heard, actions).live.versions, u);
  }

  /** What the mirror held at `p` is still there, and in whatever a refresh begun since has read. */
  ghost predicate Covers(exp: string -> int, p: Relay, q: Relay) {
    && (forall j | j in p.mirror.tokens :: j in q.mirror.tokens || exp(j) <= q.now)
    && (forall u :: VersionIn(p.mirror.versions, u) <= VersionIn(q.mirror.versions, u))
    && ((q.refresh.JtiRead? || q.refresh.BothRead?) && q.refresh.jtis.Some? ==>
          forall j | j in p.mirror.tokens :: j in q.refresh.jtis.value || exp(j) <= q.now)
    && ((q.refresh.BothRead? || q.refresh.JtiMerged?) && q.refresh.pairs.Some? ==>
          forall u :: VersionIn(p.mirror.versions, u) <= VersionIn(q.refresh.pairs.value, u))
  }

  lemma RefreshKeepsCovers(exp: string -> int, p: Relay, q: Relay, ok: bool)
    requires Covers(exp, p, q)
    ensures Covers(exp, p, RefreshNext(q, ok))
  {
  }

  /** A handler touches neither the mirror nor what the refresh has read; the mirror itself only grows. */
  lemma EventsKeepCovers(exp: string -> int, p: Relay, q: Relay, a: Action)
    requires !a.RefreshStep? && Covers(exp, p, q) && Legal(exp, q, a)
    ensures Covers(exp, p, Next(q, a))
  {
    var q' := Next(q, a);
    assert q'.refresh == q.refresh && q.now <= q'.now;
    assert forall u :: VersionIn(q.mirror.versions, u) <= VersionIn(q'.mirror.versions, u);
  }

  lemma StepKeepsCovers(exp: string -> int, p: Relay, q: Relay, a: Action)
    requires Covers(exp, p, q) && Legal(exp, q, a)
    ensures Covers(exp, p, Next(q, a))
  {
    if a.RefreshStep? {
      RefreshKeepsCovers(exp, p, q, a.ok);
    } else {
      EventsKeepCovers(exp, p, q, a);
    }
  }

  lemma {:induction false} RunKeepsCovers(exp: string -> int, p: Relay, q: Relay, actions: seq<Action>)
    requires Covers(exp, p, q) && LegalRun(exp, q, actions)
    ensures Covers(exp, p, Run(q, actions))
    decreases |actions|
  {
    if actions != [] {
      StepKeepsCovers(exp, p, q, actions[0]);
      RunKeepsCovers(exp, p, Next(q, actions[0]), actions[1..]);
    }
  }

  /**
   * A refresh enforces the mirror, heard of or not: whatever it held before the refresh began is in
   * force once the merges of its successful reads are done, in every lock-level interleaving.
   */
  lemma RefreshEnforcesTheMirror(exp: string -> int, p: Relay, actions: seq<Action>, ok: bool)
    requires Inv(exp, p) && p.refresh.Idle? && LegalRun(exp, p, actions)
    ensures var q := Run(p, actions);
            && (q.refresh.BothRead? && q.refresh.jtis.Some? && q.jtiLock.None? ==>
                  && RefreshNext(q, ok).refresh.JtiMerged?
                  && forall j | j in p.mirror.tokens && exp(j) > q.now :: j in RefreshNext(q, ok).live.tokens)
            && (q.refresh.JtiMerged? && q.refresh.pairs.Some? && q.versionLock.None? ==>
                  && RefreshNext(q, ok).refresh.Merged?
                  && forall u :: VersionIn(p.mirror.versions, u) <= VersionIn(RefreshNext(q, ok).live.versions, u))
  {
    RunKeepsCovers(exp, p, p, actions);
    RefusalsPersist(exp, p, actions);
    var q := Run(p, actions);
    forall u
      ensures UserSound(q, u)
    {
    }
  }

  /** And it reads what the mirror holds: undisturbed, the whole mirror is in force after seven steps. */
  lemma UndisturbedRefreshEnforces(p: Relay)
    requires p.refresh.Idle? && p.jtiLock.None? && p.versionLock.None?
    ensures var step := (r: Relay) => RefreshNext(r, true);
            var q := step(step(step(step(step(step(step(p)))))));
            q.refresh.Merged? && q.live.tokens == p.mirror.tokens &&
            forall u :: VersionIn(q.live.versions, u) == VersionIn(p.mirror.versions, u)
  {
  }

  /**
   * Two planes, one verdict: given the same refusals, the relay turns away exactly the tokens the
   * backend refuses or cannot name, but for an empty token id, which only the relay looks up.
   */
  lemma PlanesAgreeOnTokens(s: Backend.Snapshot, claims: Backend.Payload)
    requires s.loaded
    ensures (Identify(claims).None? || Revoked(s.live, Identify(claims).value)) <==>
            || !Backend.IsRevoked(s, claims).Trusted?
            || claims.subject.None? || claims.subject.value == ""
            || (claims.jti == Some("") && "" in s.live.tokens)
  {
  }
}
