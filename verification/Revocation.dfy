/** The one specification that both revocation snapshots refine: refusals only accumulate. */
module RevocationSpec {
  import opened Common

  /** What a snapshot refuses. An absent user is at version 0. */
  datatype Refusals = Refusals(tokens: set<string>, versions: map<string, int>)

  function VersionIn(versions: map<string, int>, user: string): int {
    if user in versions then versions[user] else 0
  }

  function Raise(versions: map<string, int>, user: string, v: int): map<string, int> {
    if v > VersionIn(versions, user) then versions[user := v] else versions
  }

  /**
   * From `before` to `after` no refusal is lost, except of a token that had expired by `cutoff`
   * (when something was dropped at all) or of a user in `forgotten`.
   */
  ghost predicate Advances(exp: string -> int, before: Refusals, after: Refusals, cutoff: Option<int>,
                           forgotten: set<string>) {
    && (forall j | j in before.tokens :: j in after.tokens || (cutoff.Some? && exp(j) <= cutoff.value))
    && (forall u | u !in forgotten :: VersionIn(before.versions, u) <= VersionIn(after.versions, u))
  }

  /** Merging is pointwise maximum: neither side's version is lowered. */
  function MergeVersions(read: map<string, int>, pending: map<string, int>): map<string, int> {
    map u | u in read.Keys + pending.Keys ::
      if u !in pending then read[u]
      else if VersionIn(read, u) >= pending[u] then VersionIn(read, u) else pending[u]
  }
}

/**
 * The in-memory revocation snapshot of the backend (video-sync-backend/src/auth/revocation.service.ts):
 * a refresh reads the database and then replaces the snapshot, while revocations keep arriving.
 */
module RevocationService {
  import opened Common
  import opened RevocationSpec

  datatype Snapshot = Snapshot(
    live: Refusals, loaded: bool, refreshing: bool,
    pendingTokens: set<string>, pendingVersions: map<string, int>)

  datatype VersionClaim = Absent | Natural(n: nat) | Malformed

  datatype Payload = Payload(jti: Option<string>, subject: Option<string>, ver: VersionClaim)

  datatype Verdict = Trusted | TokenRevoked | UserRevoked

  function IsRevoked(s: Snapshot, p: Payload): Verdict {
    if !s.loaded then UserRevoked
    else if p.jti.Some? && p.jti.value != "" && p.jti.value in s.live.tokens then TokenRevoked
    else if p.subject.None? || p.subject.value == "" then Trusted
    else if p.ver.Malformed? then UserRevoked
    else
      var claimed := if p.ver.Natural? then p.ver.n else 0;
      if claimed < VersionIn(s.live.versions, p.subject.value) then UserRevoked else Trusted
  }

  function RememberToken(s: Snapshot, jti: string): Snapshot {
    s.(live := s.live.(tokens := s.live.tokens + {jti}),
       pendingTokens := if s.refreshing then s.pendingTokens + {jti} else s.pendingTokens)
  }

  function RememberVersion(s: Snapshot, user: string, v: int): Snapshot {
    s.(live := s.live.(versions := Raise(s.live.versions, user, v)),
       pendingVersions := if s.refreshing then Raise(s.pendingVersions, user, v) else s.pendingVersions)
  }

  function BeginReload(s: Snapshot): Snapshot {
    s.(refreshing := true, pendingTokens := {}, pendingVersions := map[])
  }

  function Replaced(s: Snapshot, tokens: set<string>, users: map<string, int>): Snapshot {
    s.(live := Refusals(tokens + s.pendingTokens, MergeVersions(users, s.pendingVersions)), loaded := true)
  }

  function EndReload(s: Snapshot): Snapshot {
    s.(refreshing := false, pendingTokens := {}, pendingVersions := map[])
  }

  class Service {
    var revokedTokens: set<string>
    var userVersions: map<string, int>
    var loaded: bool
    var pendingTokens: set<string>
    var pendingVersions: map<string, int>
    var refreshing: bool

    ghost function View(): Snapshot
      reads this
    {
      Snapshot(Refusals(revokedTokens, userVersions), loaded, refreshing, pendingTokens, pendingVersions)
    }

    constructor ()
      ensures View() == Snapshot(Refusals({}, map[]), false, false, {}, map[])
    {
      revokedTokens, userVersions, loaded := {}, map[], false;
      pendingTokens, pendingVersions, refreshing := {}, map[], false;
    }

    method Remember(jti: string)
      modifies this
      ensures View() == RememberToken(old(View()), jti)
    {
      revokedTokens := revokedTokens + {jti};
      if refreshing {
        pendingTokens := pendingTokens + {jti};
      }
    }

    method RememberUser(user: string, version: int)
      modifies this
      ensures View() == RememberVersion(old(View()), user, version)
    {
      var current := VersionIn(userVersions, user);
      if version > current {
        userVersions := userVersions[user := version];
      }
      if refreshing {
        var pending := VersionIn(pendingVersions, user);
        if version > pending {
          pendingVersions := pendingVersions[user := version];
        }
      }
    }

    method Begin()
      modifies this
      ensures View() == BeginReload(old(View()))
    {
      refreshing := true;
      pendingTokens := {};
      pendingVersions := map[];
    }

    static method AddPending(tokens: set<string>, pending: set<string>) returns (next: set<string>)
      ensures next == tokens + pending
    {
      next := tokens;
      var todo := pending;
      while todo != {}
        invariant todo <= pending && next == tokens + (pending - todo)
        decreases todo
      {
        var jti :| jti in todo;
        next := next + {jti};
        todo := todo - {jti};
      }
    }

    static method RaisePending(users: map<string, int>, pending: map<string, int>) returns (next: map<string, int>)
      ensures next == MergeVersions(users, pending)
    {
      next := users;
      var todo := pending.Keys;
      while todo != {}
        invariant todo <= pending.Keys
        invariant next.Keys == users.Keys + (pending.Keys - todo)
        invariant forall u | u in next ::
                    next[u] == if u in todo || u !in pending then users[u] else MergeVersions(users, pending)[u]
        decreases todo
      {
        var u :| u in todo;
        var stored := VersionIn(next, u);
        next := next[u := if stored >= pending[u] then stored else pending[u]];
        todo := todo - {u};
      }
    }

    /** The continuation of both queries: merge what arrived meanwhile, then replace. */
    method Replace(tokens: set<string>, users: map<string, int>)
      modifies this
      ensures View() == Replaced(old(View()), tokens, users)
    {
      var nextTokens := AddPending(tokens, pendingTokens);
      var nextVersions := RaisePending(users, pendingVersions);
      revokedTokens := nextTokens;
      userVersions := nextVersions;
      loaded := true;
    }

    /** The `finally` of a reload, whether it succeeded or not. */
    method End()
      modifies this
      ensures View() == EndReload(old(View()))
    {
      refreshing := false;
      pendingTokens := {};
      pendingVersions := map[];
    }
  }

  // ---- the service among its database, its peers and its own refreshes ----

  /**
   * `exp` gives the signed expiry of a token. The database holds the rows of revoked tokens and
   * the users' versions; `deleted` are the users whose row is gone.
   */
  datatype System = System(
    rows: set<string>, dbVersions: map<string, int>, deleted: set<string>, now: int,
    snapshot: Snapshot, reloading: bool,
    tokensRead: Option<(int, set<string>)>, usersRead: Option<map<string, int>>)

  datatype Action =
    | RevokeRow(jti: string)                 // any instance writes the row
    | BumpVersion(user: string)              // any instance increments the stored version
    | DeleteUser(user: string)               // the guest sweep
    | SweepRows                              // rows past their expiry are deleted
    | HearToken(jti: string)                 // own revocation or pub/sub event, after its row was written
    | HearVersion(user: string, version: int)
    | StartReload                            // a caller that arrives mid-refresh joins the running one
    | ReadTokens                             // the two queries run concurrently, in either order
    | ReadUsers
    | ReplaceSnapshot
    | FinishReload                           // also after a failed query
    | Tick(now: int)

  function Next(exp: string -> int, p: System, a: Action): System {
    match a
    case RevokeRow(jti) => p.(rows := p.rows + {jti})
    case BumpVersion(u) =>
      if u in p.deleted then p
      else p.(dbVersions := p.dbVersions[u := VersionIn(p.dbVersions, u) + 1])
    case DeleteUser(u) => p.(dbVersions := p.dbVersions - {u}, deleted := p.deleted + {u})
    case SweepRows => p.(rows := set j | j in p.rows && exp(j) >= p.now)
    case HearToken(jti) => p.(snapshot := RememberToken(p.snapshot, jti))
    case HearVersion(u, v) => p.(snapshot := RememberVersion(p.snapshot, u, v))
    case StartReload =>
      if p.reloading then p
      else p.(reloading := true, snapshot := BeginReload(p.snapshot), tokensRead := None, usersRead := None)
    case ReadTokens =>
      if !p.reloading || p.tokensRead.Some? then p
      else p.(tokensRead := Some((p.now, set j | j in p.rows && exp(j) > p.now)))
    case ReadUsers =>
      if !p.reloading || p.usersRead.Some? then p
      else p.(usersRead := Some(map u | u in p.dbVersions && p.dbVersions[u] > 0 :: p.dbVersions[u]))
    case ReplaceSnapshot =>
      if p.tokensRead.None? || p.usersRead.None? then p
      else p.(snapshot := Replaced(p.snapshot, p.tokensRead.value.1, p.usersRead.value),
              tokensRead := None, usersRead := None)
    case FinishReload =>
      if !p.reloading then p
      else p.(reloading := false, snapshot := EndReload(p.snapshot), tokensRead := None, usersRead := None)
    case Tick(now) => p.(now := now)
  }

  /** News travels only after its durable write, and time does not run backwards. */
  ghost predicate Legal(exp: string -> int, p: System, a: Action) {
    match a
    case HearToken(jti) => jti in p.rows || exp(jti) < p.now
    case HearVersion(u, v) => u in p.deleted || v <= VersionIn(p.dbVersions, u)
    case Tick(now) => p.now <= now
    case _ => true
  }

  function Run(exp: string -> int, p: System, actions: seq<Action>): System
    decreases |actions|
  {
    if actions == [] then p else Run(exp, Next(exp, p, actions[0]), actions[1..])
  }

  ghost predicate LegalRun(exp: string -> int, p: System, actions: seq<Action>)
    decreases |actions|
  {
    actions == [] || (Legal(exp, p, actions[0]) && LegalRun(exp, Next(exp, p, actions[0]), actions[1..]))
  }

  /** A refused token has its row or has expired; what the tokens query missed is pending or had expired. */
  ghost predicate TokensSound(exp: string -> int, p: System) {
    && (forall j | j in p.snapshot.live.tokens || j in p.snapshot.pendingTokens :: j in p.rows || exp(j) < p.now)
    && (p.tokensRead.Some? ==>
          && p.tokensRead.value.0 <= p.now
          && (forall j | j in p.tokensRead.value.1 :: j in p.rows || exp(j) < p.now)
          && (forall j | j in p.snapshot.live.tokens ::
                j in p.tokensRead.value.1 || j in p.snapshot.pendingTokens || exp(j) <= p.tokensRead.value.0))
  }

  ghost predicate VersionsSound(p: System) {
    && (forall u | u in p.dbVersions :: p.dbVersions[u] >= 0)
    && (forall u | u !in p.deleted ::
          && 0 <= VersionIn(p.snapshot.live.versions, u) <= VersionIn(p.dbVersions, u)
          && 0 <= VersionIn(p.snapshot.pendingVersions, u) <= VersionIn(p.dbVersions, u)
          && (p.usersRead.Some? ==>
                && 0 <= VersionIn(p.usersRead.value, u) <= VersionIn(p.dbVersions, u)
                && (|| VersionIn(p.snapshot.live.versions, u) <= VersionIn(p.usersRead.value, u)
                    || VersionIn(p.snapshot.live.versions, u) <= VersionIn(p.snapshot.pendingVersions, u))))
  }

  ghost predicate Inv(exp: string -> int, p: System) {
    && (p.tokensRead.Some? || p.usersRead.Some? ==> p.reloading)
    && (p.reloading <==> p.snapshot.refreshing)
    && TokensSound(exp, p)
    && VersionsSound(p)
  }

  lemma BootIsSound(exp: string -> int, rows: set<string>, dbVersions: map<string, int>, now: int)
    requires forall u | u in dbVersions :: dbVersions[u] >= 0
    ensures var blank := Snapshot(Refusals({}, map[]), false, false, {}, map[]);
            Inv(exp, System(rows, dbVersions, {}, now, blank, false, None, None))
  {
  }

  lemma StepKeepsTokensSound(exp: string -> int, p: System, a: Action)
    requires Inv(exp, p) && Legal(exp, p, a)
    ensures TokensSound(exp, Next(exp, p, a))
  {
  }

  lemma StepKeepsVersionsSound(exp: string -> int, p: System, a: Action)
    requires Inv(exp, p) && Legal(exp, p, a)
    ensures VersionsSound(Next(exp, p, a))
  {
  }

  /** Every step refines the monotone specification; only a replacement drops, and only the expired. */
  lemma StepAdvances(exp: string -> int, p: System, a: Action)
    requires Inv(exp, p) && Legal(exp, p, a)
    ensures Inv(exp, Next(exp, p, a))
    ensures Advances(exp, p.snapshot.live, Next(exp, p, a).snapshot.live,
                     if a.ReplaceSnapshot? && p.tokensRead.Some? then Some(p.tokensRead.value.0) else None, p.deleted)
    ensures p.now <= Next(exp, p, a).now && p.deleted <= Next(exp, p, a).deleted
    ensures p.snapshot.loaded ==> Next(exp, p, a).snapshot.loaded
  {
    StepKeepsTokensSound(exp, p, a);
    StepKeepsVersionsSound(exp, p, a);
  }

  /**
   * Revocations are never lost, in any interleaving of revocations, events and refreshes,
   * succeeding or failing: a remembered token stays refused at least until it has expired, and a
   * user's version never decreases unless the user's row was deleted.
   */
  lemma {:induction false} RefusalsPersist(exp: string -> int, p: System, actions: seq<Action>)
    requires Inv(exp, p) && LegalRun(exp, p, actions)
    ensures var q := Run(exp, p, actions);
            && Inv(exp, q)
            && p.now <= q.now && p.deleted <= q.deleted && (p.snapshot.loaded ==> q.snapshot.loaded)
            && Advances(exp, p.snapshot.live, q.snapshot.live, Some(q.now), q.deleted)
    decreases |actions|
  {
    if actions != [] {
      var p' := Next(exp, p, actions[0]);
      StepAdvances(exp, p, actions[0]);
      RefusalsPersist(exp, p', actions[1..]);
    }
  }

  /** The same at the interface: once refused, a token is refused on every later request. */
  lemma RevokedStaysRevoked(exp: string -> int, p: System, actions: seq<Action>, token: Payload)
    requires Inv(exp, p) && LegalRun(exp, p, actions) && p.snapshot.loaded
    ensures var q := Run(exp, p, actions);
            && (IsRevoked(p.snapshot, token).TokenRevoked? && exp(token.jti.value) > q.now ==>
                  IsRevoked(q.snapshot, token).TokenRevoked?)
            && (IsRevoked(p.snapshot, token).UserRevoked? && token.subject.value !in q.deleted ==>
                  !IsRevoked(q.snapshot, token).Trusted?)
  {
    RefusalsPersist(exp, p, actions);
  }

  // ---- a revocation takes effect ----

  /** Before the first refresh completes nobody is trusted. */
  lemma UnloadedTrustsNobody(s: Snapshot, token: Payload)
    requires !s.loaded
    ensures !IsRevoked(s, token).Trusted?
  {
  }

  /** Once news of a revoked token is heard, the token is refused at once, and on until it has expired. */
  lemma HeardTokensAreRefused(exp: string -> int, p: System, j: string, actions: seq<Action>, token: Payload)
    requires Inv(exp, p) && Legal(exp, p, HearToken(j)) && p.snapshot.loaded && j != "" && token.jti == Some(j)
    requires LegalRun(exp, Next(exp, p, HearToken(j)), actions)
    ensures IsRevoked(Next(exp, p, HearToken(j)).snapshot, token).TokenRevoked?
    ensures var q := Run(exp, Next(exp, p, HearToken(j)), actions);
            exp(j) > q.now ==> IsRevoked(q.snapshot, token).TokenRevoked?
  {
    StepAdvances(exp, p, HearToken(j));
    RefusalsPersist(exp, Next(exp, p, HearToken(j)), actions);
  }

  /** Is the version a token claims malformed, or below `v`? */
  predicate ClaimsBelow(token: Payload, v: int) {
    match token.ver
    case Malformed => true
    case Absent => 0 < v
    case Natural(n) => n < v
  }

  /** Once a bumped version is heard, every older token of the user is refused, and on while the user exists. */
  lemma HeardVersionsAreEnforced(exp: string -> int, p: System, u: string, v: int, actions: seq<Action>, token: Payload)
    requires Inv(exp, p) && Legal(exp, p, HearVersion(u, v)) && p.snapshot.loaded
    requires u != "" && token.subject == Some(u) && ClaimsBelow(token, v)
    requires LegalRun(exp, Next(exp, p, HearVersion(u, v)), actions)
    ensures !IsRevoked(Next(exp, p, HearVersion(u, v)).snapshot, token).Trusted?
    ensures var q := Run(exp, Next(exp, p, HearVersion(u, v)), actions);
            u !in q.deleted ==> !IsRevoked(q.snapshot, token).Trusted?
  {
    var heard := Next(exp, p, HearVersion(u, v));
    StepAdvances(exp, p, HearVersion(u, v));
    RefusalsPersist(exp, heard, actions);
    assert VersionIn(heard.snapshot.live.versions, u) >= v;
  }

  /** What the database held at `p` is still there, and in whatever a refresh begun since has read. */
  ghost predicate Covers(exp: string -> int, p: System, q: System) {
    && (forall j | j in p.rows :: j in q.rows || exp(j) < q.now)
    && (forall u | u !in q.deleted :: VersionIn(p.dbVersions, u) <= VersionIn(q.dbVersions, u))
    && (q.tokensRead.Some? ==> forall j | j in p.rows :: j in q.tokensRead.value.1 || exp(j) <= q.now)
    && (q.usersRead.Some? ==>
          forall u | u !in q.deleted :: VersionIn(p.dbVersions, u) <= VersionIn(q.usersRead.value, u))
  }

  lemma StepKeepsCovers(exp: string -> int, p: System, q: System, a: Action)
    requires Inv(exp, q) && Legal(exp, q, a) && Covers(exp, p, q)
    ensures Covers(exp, p, Next(exp, q, a))
  {
  }

  lemma {:induction false} RunKeepsCovers(exp: string -> int, p: System, q: System, actions: seq<Action>)
    requires Inv(exp, q) && LegalRun(exp, q, actions) && Covers(exp, p, q)
    ensures Covers(exp, p, Run(exp, q, actions))
    decreases |actions|
  {
    if actions != [] {
      StepAdvances(exp, q, actions[0]);
      StepKeepsCovers(exp, p, q, actions[0]);
      RunKeepsCovers(exp, p, Next(exp, q, actions[0]), actions[1..]);
    }
  }

  /**
   * A refresh enforces the database, heard of or not: whatever rows and versions were stored when
   * it had not begun yet are in force when it replaces the snapshot, in every interleaving, and
   * from the first such replacement on the service answers.
   */
  lemma RefreshEnforcesTheDatabase(exp: string -> int, p: System, actions: seq<Action>)
    requires Inv(exp, p) && !p.reloading && LegalRun(exp, p, actions)
    ensures var q := Run(exp, p, actions);
            q.tokensRead.Some? && q.usersRead.Some? ==>
              var snapshot := Next(exp, q, ReplaceSnapshot).snapshot;
              var live := snapshot.live;
              && snapshot.loaded
              && (forall j | j in p.rows && exp(j) > q.now :: j in live.tokens)
              && (forall u | u !in q.deleted :: VersionIn(p.dbVersions, u) <= VersionIn(live.versions, u))
  {
    RunKeepsCovers(exp, p, p, actions);
  }

  /** And a refresh can always be completed: undisturbed, four steps do it. */
  lemma UndisturbedRefreshEnforces(exp: string -> int, p: System)
    requires Inv(exp, p) && !p.reloading
    ensures var q := Next(exp, Next(exp, Next(exp, Next(exp, p, StartReload), ReadTokens), ReadUsers), ReplaceSnapshot);
            && q.snapshot.loaded
            && q.snapshot.live.tokens == (set j | j in p.rows && exp(j) > p.now)
            && forall u | u in p.dbVersions :: VersionIn(q.snapshot.live.versions, u) == p.dbVersions[u]
  {
  }

  /** The sweep of the table deletes the rows of expired tokens and no other. */
  lemma SweepDropsExactlyTheExpired(exp: string -> int, p: System, j: string)
    requires j in p.rows
    ensures j in Next(exp, p, SweepRows).rows <==> p.now <= exp(j)
    ensures Next(exp, p, SweepRows).snapshot == p.snapshot
  {
  }

  /** Nobody is refused without cause: a token never revoked, of the stored version, is trusted everywhere. */
  lemma GenuineTokensAreTrusted(exp: string -> int, p: System, actions: seq<Action>, token: Payload)
    requires Inv(exp, p) && LegalRun(exp, p, actions)
    ensures var q := Run(exp, p, actions);
            && q.snapshot.loaded
            && (token.jti.Some? ==> token.jti.value !in q.rows && exp(token.jti.value) >= q.now)
            && token.subject.Some? && token.subject.value !in q.deleted
            && token.ver.Natural? && token.ver.n >= VersionIn(q.dbVersions, token.subject.value) ==>
              IsRevoked(q.snapshot, token).Trusted?
  {
    RefusalsPersist(exp, p, actions);
  }

  /** The exception is real: one undisturbed refresh forgets the version of a deleted user. */
  lemma DeletedUsersAreForgotten(exp: string -> int, p: System, u: string)
    requires Inv(exp, p) && !p.reloading && u in p.deleted && u !in p.dbVersions
    ensures VersionIn(Run(exp, p, [StartReload, ReadTokens, ReadUsers, ReplaceSnapshot]).snapshot.live.versions, u) == 0
  {
    var a, b, c, d := StartReload, ReadTokens, ReadUsers, ReplaceSnapshot;
    assert [a, b, c, d][1..] == [b, c, d] && [b, c, d][1..] == [c, d] && [c, d][1..] == [d] && [d][1..] == [];
    var p1 := Next(exp, p, a);
    var p2 := Next(exp, p1, b);
    var p3 := Next(exp, p2, c);
    assert Run(exp, p3, [d]) == Run(exp, Next(exp, p3, d), []);
    assert Run(exp, p2, [c, d]) == Run(exp, p3, [d]);
    assert Run(exp, p1, [b, c, d]) == Run(exp, p2, [c, d]);
  }
}
