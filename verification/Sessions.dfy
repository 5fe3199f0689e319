/**
 * Session refresh and rotation (video-sync-backend/src/auth/auth.service.ts, with the row claim of
 * revocation.service.ts): any number of refresh requests run concurrently with sign-ins, logouts,
 * version bumps and row sweeps, interleaved at every database call.
 */
module Sessions {
  import opened Common

  const SESSION_MAX_S: int := 30 * 24 * 3600

  /**
   * A signed token. `parent` is the token it was refreshed from, `claim` the row creation that
   * licensed it, and `requestedAt` the time its refresh request was admitted.
   */
  datatype Token = Token(
    jti: Option<string>, subject: string, ver: Option<nat>, sess: Option<int>, iat: Option<int>, exp: int,
    parent: Option<nat>, claim: Option<nat>, requestedAt: int)

  /** How far one refresh request has come; `token` indexes the issued tokens. */
  datatype Request =
    | Admitted(token: nat, at: int)
    | UserRead(token: nat, at: int, version: nat)
    | JtiChecked(token: nat, at: int, version: nat)
    | Won(token: nat, at: int, version: nat, claim: Option<nat>)

  /** A row created by a rotation of `token`: first it belongs to a request, then to the minted token. */
  datatype Claim = Claim(token: nat, use: Use)
  datatype Use = Pending(id: int) | Minted(child: nat)

  datatype System = System(
    issued: seq<Token>, rows: set<string>, users: map<string, nat>, now: int,
    requests: map<int, Request>, claims: seq<Claim>)

  datatype Action =
    | SignIn(root: Token)                               // a token that starts a session
    | Admit(id: int, token: nat)
    | ReadUser(id: int)
    | CheckJti(id: int)
    | ClaimJti(id: int)
    | Mint(id: int, jti: string, exp: int)
    | Logout(token: nat)
    | Bump(user: string)
    | DeleteUser(user: string)
    | SweepRows
    | Tick(now: int)

  /** Absent means version 0. */
  function Version(t: Token): nat {
    t.ver.GetOr(0)
  }

  /** The session's birth as a refresh at time `at` sees it. */
  function Birth(t: Token, at: int): int {
    if t.sess.Some? then t.sess.value else if t.iat.Some? then t.iat.value else at
  }

  predicate Fresh(s: System, jti: string) {
    jti !in s.rows && forall k | 0 <= k < |s.issued| :: s.issued[k].jti != Some(jti)
  }

  function Expiry(s: System, jti: string): int {
    if exists k :: 0 <= k < |s.issued| && s.issued[k].jti == Some(jti)
    then s.issued[IndexOf(s.issued, jti)].exp else s.now
  }

  /** The position of the token that carries `jti`. */
  function IndexOf(issued: seq<Token>, jti: string): (k: nat)
    requires exists i :: 0 <= i < |issued| && issued[i].jti == Some(jti)
    ensures k < |issued| && issued[k].jti == Some(jti)
  {
    if issued[0].jti == Some(jti) then 0
    else
      assert exists i :: 0 <= i < |issued[1..]| && issued[1..][i].jti == Some(jti) by {
        var i :| 0 <= i < |issued| && issued[i].jti == Some(jti);
        assert issued[1..][i - 1] == issued[i];
      }
      1 + IndexOf(issued[1..], jti)
  }

  function Forget(s: System, id: int): System {
    s.(requests := s.requests - {id})
  }

  function Advance(s: System, id: int, r: Request): System {
    s.(requests := s.requests[id := r])
  }

  function Next(s: System, a: Action): System {
    match a
    case SignIn(t) => s.(issued := s.issued + [t])
    case Admit(id, k) =>
      if id in s.requests || k >= |s.issued| || s.issued[k].exp <= s.now then s
      else if s.now - Birth(s.issued[k], s.now) > SESSION_MAX_S then s
      else Advance(s, id, Admitted(k, s.now))
    case ReadUser(id) =>
      if id !in s.requests || !s.requests[id].Admitted? || s.requests[id].token >= |s.issued| then s
      else
        var Admitted(k, at) := s.requests[id];
        var user := s.issued[k].subject;
        if user !in s.users || Version(s.issued[k]) < s.users[user] then Forget(s, id)
        else Advance(s, id, UserRead(k, at, s.users[user]))
    case CheckJti(id) =>
      if id !in s.requests || !s.requests[id].UserRead? || s.requests[id].token >= |s.issued| then s
      else
        var UserRead(k, at, version) := s.requests[id];
        var jti := s.issued[k].jti;
        if jti.Some? && jti.value in s.rows then Forget(s, id) else Advance(s, id, JtiChecked(k, at, version))
    case ClaimJti(id) =>
      if id !in s.requests || !s.requests[id].JtiChecked? || s.requests[id].token >= |s.issued| then s
      else
        var JtiChecked(k, at, version) := s.requests[id];
        var jti := s.issued[k].jti;
        if jti.None? then Advance(s, id, Won(k, at, version, None))
        else if jti.value in s.rows then Forget(s, id)
        else Advance(s, id, Won(k, at, version, Some(|s.claims|))).(rows := s.rows + {jti.value},
            claims := s.claims + [Claim(k, Pending(id))])
    case Mint(id, jti, exp) =>
      if id !in s.requests || !s.requests[id].Won? || s.requests[id].token >= |s.issued| then s
      else
        var Won(k, at, version, claim) := s.requests[id];
        var parent := s.issued[k];
        var child := Token(Some(jti), parent.subject, Some(version), Some(Birth(parent, at)), Some(s.now), exp,
            Some(k), claim, at);
        Forget(s, id).(issued := s.issued + [child],
                       claims := if claim.Some? && claim.value < |s.claims|
                                 then s.claims[claim.value := Claim(k, Minted(|s.issued|))] else s.claims)
    case Logout(k) =>
      if k < |s.issued| && s.issued[k].jti.Some? then s.(rows := s.rows + {s.issued[k].jti.value}) else s
    case Bump(u) => if u in s.users then s.(users := s.users[u := s.users[u] + 1]) else s
    case DeleteUser(u) => s.(users := s.users - {u})
    case SweepRows => s.(rows := set j | j in s.rows && Expiry(s, j) >= s.now)
    case Tick(now) => s.(now := now)
  }

  /** Token ids are never reused, a session starts without parents, and time does not run backwards. */
  ghost predicate Legal(s: System, a: Action) {
    match a
    case SignIn(t) => t.parent.None? && t.claim.None? && (t.jti.Some? ==> Fresh(s, t.jti.value))
    case Mint(_, jti, _) => Fresh(s, jti)
    case Tick(now) => s.now <= now
    case _ => true
  }

  function Run(s: System, actions: seq<Action>): System
    decreases |actions|
  {
    if actions == [] then s else Run(Next(s, actions[0]), actions[1..])
  }

  ghost predicate LegalRun(s: System, actions: seq<Action>)
    decreases |actions|
  {
    actions == [] || (Legal(s, actions[0]) && LegalRun(Next(s, actions[0]), actions[1..]))
  }

  // ---- the invariant ----

  ghost predicate UniqueJtis(issued: seq<Token>) {
    forall i, j | 0 <= i < j < |issued| && issued[i].jti.Some? :: issued[i].jti != issued[j].jti
  }

  /** What a refreshed token owes its parent. */
  ghost predicate Descends(parent: Token, child: Token) {
    && child.subject == parent.subject
    && child.sess == Some(Birth(parent, child.requestedAt))
    && child.requestedAt - Birth(parent, child.requestedAt) <= SESSION_MAX_S
    && Version(child) <= Version(parent)
    && (parent.jti.Some? ==> child.claim.Some?)
  }

  ghost predicate Lineages(issued: seq<Token>) {
    forall k | 0 <= k < |issued| && issued[k].parent.Some? ::
      issued[k].parent.value < k && Descends(issued[issued[k].parent.value], issued[k])
  }

  ghost predicate RequestSound(s: System, id: int) {
    id in s.requests ==>
      var r := s.requests[id];
      && r.token < |s.issued|
      && r.at - Birth(s.issued[r.token], r.at) <= SESSION_MAX_S
      && (!r.Admitted? ==> r.version <= Version(s.issued[r.token]))
      && (r.Won? && s.issued[r.token].jti.Some? ==> r.claim.Some?)
      && (r.Won? && r.claim.Some? ==>
            r.claim.value < |s.claims| && s.claims[r.claim.value] == Claim(r.token, Pending(id)))
  }

  ghost predicate RequestsSound(s: System) {
    forall id :: RequestSound(s, id)
  }

  /** A claim licenses no token but the one it was spent on. */
  ghost predicate ClaimsSpent(issued: seq<Token>, claims: seq<Claim>) {
    forall k | 0 <= k < |issued| && issued[k].claim.Some? ::
      && issued[k].parent.Some?
      && issued[k].claim.value < |claims|
      && claims[issued[k].claim.value] == Claim(issued[k].parent.value, Minted(k))
  }

  /** A claimed id keeps its row until it expires, so a second claim needs an expired token. */
  ghost predicate ClaimsGuarded(issued: seq<Token>, claims: seq<Claim>, rows: set<string>, now: int) {
    && (forall c | 0 <= c < |claims| ::
          && claims[c].token < |issued|
          && issued[claims[c].token].jti.Some?
          && (issued[claims[c].token].jti.value in rows || issued[claims[c].token].exp < now))
    && (forall c, d | 0 <= c < d < |claims| && claims[c].token == claims[d].token :: issued[claims[c].token].exp < now)
  }

  ghost predicate Inv(s: System) {
    && UniqueJtis(s.issued) && Lineages(s.issued) && RequestsSound(s)
    && ClaimsSpent(s.issued, s.claims) && ClaimsGuarded(s.issued, s.claims, s.rows, s.now)
  }

  lemma ExpiryIsTheTokens(s: System, k: nat)
    requires UniqueJtis(s.issued) && k < |s.issued| && s.issued[k].jti.Some?
    ensures Expiry(s, s.issued[k].jti.value) == s.issued[k].exp
  {
    var i := IndexOf(s.issued, s.issued[k].jti.value);
  }

  lemma IssueKeepsChains(issued: seq<Token>, t: Token)
    requires UniqueJtis(issued) && Lineages(issued)
    requires t.jti.Some? ==> forall k | 0 <= k < |issued| :: issued[k].jti != t.jti
    requires t.parent.Some? ==> t.parent.value < |issued| && Descends(issued[t.parent.value], t)
    ensures UniqueJtis(issued + [t]) && Lineages(issued + [t])
  {
  }

  lemma IssueKeepsInv(s: System, t: Token)
    requires Inv(s)
    requires t.jti.Some? ==> Fresh(s, t.jti.value)
    requires t.parent.None? && t.claim.None?
    ensures Inv(s.(issued := s.issued + [t]))
  {
    IssueKeepsChains(s.issued, t);
    var s' := s.(issued := s.issued + [t]);
    assert forall k | 0 <= k < |s.issued| :: s'.issued[k] == s.issued[k];
    forall id
      ensures RequestSound(s', id)
    {
      assert RequestSound(s, id);
    }
  }

  lemma MintKeepsRequests(s: System, a: Action)
    requires a.Mint? && RequestsSound(s)
    ensures RequestsSound(Next(s, a))
  {
    var s' := Next(s, a);
    assert forall k | 0 <= k < |s.issued| :: s'.issued[k] == s.issued[k];
    assert RequestSound(s, a.id);
    forall id
      ensures RequestSound(s', id)
    {
      assert RequestSound(s, id);
    }
  }

  lemma MintKeepsClaims(s: System, a: Action)
    requires a.Mint? && RequestsSound(s) && ClaimsSpent(s.issued, s.claims) &&
             ClaimsGuarded(s.issued, s.claims, s.rows, s.now)
    ensures ClaimsSpent(Next(s, a).issued, Next(s, a).claims)
    ensures ClaimsGuarded(Next(s, a).issued, Next(s, a).claims, s.rows, s.now)
  {
    var s' := Next(s, a);
    assert forall k | 0 <= k < |s.issued| :: s'.issued[k] == s.issued[k];
    assert RequestSound(s, a.id);
    assert forall c | 0 <= c < |s.claims| :: s'.claims[c].token == s.claims[c].token;
  }

  lemma MintKeepsInv(s: System, a: Action)
    requires a.Mint? && Inv(s) && Legal(s, a)
    ensures Inv(Next(s, a))
  {
    assert RequestSound(s, a.id);
    if a.id in s.requests && s.requests[a.id].Won? {
      var child := Next(s, a).issued[|s.issued|];
      IssueKeepsChains(s.issued, child);
    }
    MintKeepsRequests(s, a);
    MintKeepsClaims(s, a);
  }

  lemma RequestsKeepInv(s: System, a: Action)
    requires a.Admit? || a.ReadUser? || a.CheckJti?
    requires Inv(s)
    ensures Inv(Next(s, a))
  {
    assert RequestSound(s, a.id);
    forall id
      ensures RequestSound(Next(s, a), id)
    {
      assert RequestSound(s, id);
    }
  }

  lemma ClaimKeepsGuarded(issued: seq<Token>, claims: seq<Claim>, rows: set<string>, now: int, k: nat, id: int)
    requires ClaimsSpent(issued, claims) && ClaimsGuarded(issued, claims, rows, now)
    requires k < |issued| && issued[k].jti.Some? && issued[k].jti.value !in rows
    ensures ClaimsSpent(issued, claims + [Claim(k, Pending(id))])
    ensures ClaimsGuarded(issued, claims + [Claim(k, Pending(id))], rows + {issued[k].jti.value}, now)
  {
  }

  lemma ClaimKeepsRequests(s: System, a: Action)
    requires a.ClaimJti? && RequestsSound(s)
    ensures RequestsSound(Next(s, a))
  {
    assert RequestSound(s, a.id);
    forall id
      ensures RequestSound(Next(s, a), id)
    {
      assert RequestSound(s, id);
    }
  }

  lemma ClaimKeepsInv(s: System, a: Action)
    requires a.ClaimJti? && Inv(s)
    ensures Inv(Next(s, a))
  {
    assert RequestSound(s, a.id);
    ClaimKeepsRequests(s, a);
    if a.id in s.requests && s.requests[a.id].JtiChecked? {
      var k := s.requests[a.id].token;
      if s.issued[k].jti.Some? && s.issued[k].jti.value !in s.rows {
        ClaimKeepsGuarded(s.issued, s.claims, s.rows, s.now, k, a.id);
      }
    }
  }

  lemma RowsKeepGuarded(s: System, a: Action)
    requires a.Logout? || a.Bump? || a.DeleteUser? || a.SweepRows? || (a.Tick? && s.now <= a.now)
    requires UniqueJtis(s.issued) && ClaimsGuarded(s.issued, s.claims, s.rows, s.now)
    ensures ClaimsGuarded(s.issued, s.claims, Next(s, a).rows, Next(s, a).now)
  {
    if a.SweepRows? {
      forall c | 0 <= c < |s.claims|
        ensures s.issued[s.claims[c].token].jti.value in Next(s, a).rows || s.issued[s.claims[c].token].exp < s.now
      {
        ExpiryIsTheTokens(s, s.claims[c].token);
      }
    }
  }

  lemma RowsKeepInv(s: System, a: Action)
    requires a.Logout? || a.Bump? || a.DeleteUser? || a.SweepRows? || (a.Tick? && s.now <= a.now)
    requires Inv(s)
    ensures Inv(Next(s, a))
  {
    RowsKeepGuarded(s, a);
    forall id
      ensures RequestSound(Next(s, a), id)
    {
      assert RequestSound(s, id);
    }
  }

  lemma {:induction false} RunKeepsInv(s: System, actions: seq<Action>)
    requires Inv(s) && LegalRun(s, actions)
    ensures Inv(Run(s, actions))
    decreases |actions|
  {
    if actions != [] {
      var a := actions[0];
      match a {
        case SignIn(t) => IssueKeepsInv(s, t);
        case Mint(_, _, _) => MintKeepsInv(s, a);
        case ClaimJti(_) => ClaimKeepsInv(s, a);
        case Admit(_, _) => RequestsKeepInv(s, a);
        case ReadUser(_) => RequestsKeepInv(s, a);
        case CheckJti(_) => RequestsKeepInv(s, a);
        case _ => RowsKeepInv(s, a);
      }
      RunKeepsInv(Next(s, a), actions[1..]);
    }
  }

  // ---- what every run guarantees ----

  function Empty(users: map<string, nat>, now: int): System {
    System([], {}, users, now, map[], [])
  }

  ghost predicate Reachable(s: System) {
    exists users, now, actions :: LegalRun(Empty(users, now), actions) && s == Run(Empty(users, now), actions)
  }

  lemma ReachableIsSound(s: System)
    requires Reachable(s)
    ensures Inv(s)
  {
    var users, now, actions :| LegalRun(Empty(users, now), actions) && s == Run(Empty(users, now), actions);
    EmptyIsSound(users, now);
    RunKeepsInv(Empty(users, now), actions);
  }

  lemma EmptyIsSound(users: map<string, nat>, now: int)
    ensures Inv(Empty(users, now))
  {
  }

  /** However many refreshes race, an unexpired token has at most one successor. */
  lemma AtMostOneSuccessor(s: System, parent: nat, i: nat, j: nat)
    requires Reachable(s)
    requires parent < |s.issued| && s.issued[parent].jti.Some? && s.issued[parent].exp >= s.now
    requires i < |s.issued| && s.issued[i].parent == Some(parent)
    requires j < |s.issued| && s.issued[j].parent == Some(parent)
    ensures i == j
  {
    ReachableIsSound(s);
    SuccessorsCoincide(s.issued, s.claims, s.rows, s.now, parent, i, j);
  }

  lemma SuccessorsCoincide(issued: seq<Token>, claims: seq<Claim>, rows: set<string>, now: int, parent: nat, i: nat,
                           j: nat)
    requires Lineages(issued) && ClaimsSpent(issued, claims) && ClaimsGuarded(issued, claims, rows, now)
    requires parent < |issued| && issued[parent].jti.Some? && issued[parent].exp >= now
    requires i < |issued| && issued[i].parent == Some(parent)
    requires j < |issued| && issued[j].parent == Some(parent)
    ensures i == j
  {
    assert Descends(issued[parent], issued[i]) && Descends(issued[parent], issued[j]);
    var c, d := issued[i].claim.value, issued[j].claim.value;
    assert claims[c] == Claim(parent, Minted(i)) && claims[d] == Claim(parent, Minted(j));
  }

  /** The token that started the session of token `k`. */
  function Root(issued: seq<Token>, k: nat): (root: nat)
    requires Lineages(issued) && k < |issued|
    ensures root <= k && issued[root].parent.None?
    decreases k
  {
    if issued[k].parent.None? then k else Root(issued, issued[k].parent.value)
  }

  lemma {:induction false} LineageKeepsBirthAndVersion(issued: seq<Token>, k: nat)
    requires Lineages(issued) && k < |issued|
    ensures var root := issued[Root(issued, k)];
            && issued[k].subject == root.subject
            && Version(issued[k]) <= Version(root)
            && (root.sess.Some? || root.iat.Some? ==>
                  forall at, at' :: Birth(issued[k], at) == Birth(root, at'))
            && (root.sess.Some? || root.iat.Some? ==>
                  forall at :: issued[k].parent.Some? ==> issued[k].requestedAt <= Birth(root, at) + SESSION_MAX_S)
    decreases k
  {
    if issued[k].parent.Some? {
      var p := issued[k].parent.value;
      assert Descends(issued[p], issued[k]);
      LineageKeepsBirthAndVersion(issued, p);
    }
  }

  /**
   * In every run: a session's birth is constant along its lineage, so no refresh, whether it has
   * minted or is still under way, was admitted more than SESSION_MAX_S after it; the version never
   * rises along a lineage, so a lineage whose root is older than a version bump never reaches the
   * new version and every refresh of it is refused.
   */
  lemma SessionsAreBounded(s: System, k: nat)
    requires Reachable(s) && k < |s.issued|
    ensures Lineages(s.issued)
    ensures var root := s.issued[Root(s.issued, k)];
            && s.issued[k].subject == root.subject
            && (root.sess.Some? || root.iat.Some? ==>
                  forall at :: && Birth(s.issued[k], at) == Birth(root, at)
                               && (s.issued[k].parent.Some? ==>
                                     s.issued[k].requestedAt <= Birth(root, at) + SESSION_MAX_S))
            && (root.sess.Some? || root.iat.Some? ==>
                  forall id, at | id in s.requests && s.requests[id].token == k ::
                    s.requests[id].at <= Birth(root, at) + SESSION_MAX_S)
            && Version(s.issued[k]) <= Version(root)
            && (root.subject in s.users && Version(root) < s.users[root.subject] ==>
                  Version(s.issued[k]) < s.users[root.subject])
  {
    ReachableIsSound(s);
    LineageKeepsBirthAndVersion(s.issued, k);
    forall id | id in s.requests && s.requests[id].token == k
      ensures s.requests[id].at - Birth(s.issued[k], s.requests[id].at) <= SESSION_MAX_S
    {
      assert RequestSound(s, id);
    }
  }

  /** Left alone, a refresh of a current, unrevoked, young enough token succeeds. */
  lemma UncontestedRefreshSucceeds(s: System, id: int, k: nat, jti: string, exp: int)
    requires id !in s.requests && k < |s.issued|
    requires var t := s.issued[k];
             && s.now < t.exp && s.now - Birth(t, s.now) <= SESSION_MAX_S
             && t.subject in s.users && s.users[t.subject] <= Version(t)
             && (t.jti.Some? ==> t.jti.value !in s.rows)
    ensures var s' := Next(Next(Next(Next(Next(s, Admit(id, k)), ReadUser(id)), CheckJti(id)), ClaimJti(id)),
            Mint(id, jti, exp));
            && |s'.issued| == |s.issued| + 1
            && s'.issued[|s.issued|].parent == Some(k) && s'.issued[|s.issued|].jti == Some(jti)
            && s'.issued[|s.issued|].ver == Some(s.users[s.issued[k].subject])
  {
    var s1 := Next(s, Admit(id, k));
    assert s1.requests[id] == Admitted(k, s.now) && s1.issued == s.issued && s1.users == s.users && s1.rows == s.rows;
    var s2 := Next(s1, ReadUser(id));
    assert s2.requests[id] == UserRead(k, s.now, s.users[s.issued[k].subject]) && s2.issued == s.issued &&
           s2.rows == s.rows;
    var s3 := Next(s2, CheckJti(id));
    assert s3.requests[id] == JtiChecked(k, s.now, s.users[s.issued[k].subject]) && s3.issued == s.issued &&
           s3.rows == s.rows;
    var s4 := Next(s3, ClaimJti(id));
    assert s4.requests[id].Won? && s4.requests[id].token == k &&
           s4.requests[id].version == s.users[s.issued[k].subject];
    assert s4.issued == s.issued;
  }

  /** An expired token, or one whose session has reached its age limit, starts no refresh. */
  lemma SpentTokensAreNotAdmitted(s: System, id: int, k: nat)
    requires k < |s.issued|
    requires s.issued[k].exp <= s.now || s.now > Birth(s.issued[k], s.now) + SESSION_MAX_S
    ensures Next(s, Admit(id, k)) == s
  {
  }

  /** Token `k` is below its user's stored version, or the user is gone, and no request for it has read that yet. */
  ghost predicate Overtaken(s: System, k: nat) {
    && k < |s.issued|
    && (s.issued[k].subject !in s.users || Version(s.issued[k]) < s.users[s.issued[k].subject])
    && (forall id | id in s.requests && s.requests[id].token == k :: s.requests[id].Admitted?)
  }

  lemma StepKeepsOvertaken(s: System, a: Action, k: nat)
    requires Overtaken(s, k)
    ensures var s' := Next(s, a);
            && Overtaken(s', k)
            && |s.issued| <= |s'.issued|
            && ((a.SignIn? ==> a.root.parent.None?) ==>
                  forall j | |s.issued| <= j < |s'.issued| :: s'.issued[j].parent != Some(k))
  {
  }

  /**
   * Once the stored version has overtaken a token, no request admitted from then on, nor one
   * admitted earlier that has not read the version yet, ever mints from it: in every further run
   * no new token has it as parent.
   */
  lemma {:induction false} OvertakenTokensNeverMint(s: System, actions: seq<Action>, k: nat)
    requires Overtaken(s, k) && LegalRun(s, actions)
    ensures var q := Run(s, actions);
            && Overtaken(q, k)
            && |s.issued| <= |q.issued|
            && forall j | |s.issued| <= j < |q.issued| :: q.issued[j].parent != Some(k)
    decreases |actions|
  {
    if actions != [] {
      var s' := Next(s, actions[0]);
      StepKeepsOvertaken(s, actions[0], k);
      OvertakenTokensNeverMint(s', actions[1..], k);
      IssuedStay(s', actions[1..]);
    }
  }

  lemma StepKeepsIssued(s: System, a: Action)
    ensures s.issued <= Next(s, a).issued
  {
  }

  lemma {:induction false} IssuedStay(s: System, actions: seq<Action>)
    ensures s.issued <= Run(s, actions).issued
    decreases |actions|
  {
    if actions != [] {
      StepKeepsIssued(s, actions[0]);
      IssuedStay(Next(s, actions[0]), actions[1..]);
    }
  }

  /** A version bump overtakes every token of the user that no request has carried past the check yet. */
  lemma BumpOvertakes(s: System, u: string, k: nat)
    requires u in s.users && k < |s.issued| && s.issued[k].subject == u && Version(s.issued[k]) <= s.users[u]
    requires forall id | id in s.requests && s.requests[id].token == k :: s.requests[id].Admitted?
    ensures Overtaken(Next(s, Bump(u)), k)
  {
  }

  /** Sign out everywhere: after a bump, in every further run, no such token is ever refreshed again. */
  lemma BumpedTokensNeverMint(s: System, u: string, k: nat, actions: seq<Action>)
    requires u in s.users && k < |s.issued| && s.issued[k].subject == u && Version(s.issued[k]) <= s.users[u]
    requires forall id | id in s.requests && s.requests[id].token == k :: s.requests[id].Admitted?
    requires LegalRun(Next(s, Bump(u)), actions)
    ensures var q := Run(Next(s, Bump(u)), actions);
            forall j | |s.issued| <= j < |q.issued| :: q.issued[j].parent != Some(k)
  {
    BumpOvertakes(s, u, k);
    OvertakenTokensNeverMint(Next(s, Bump(u)), actions, k);
  }

  /** Token `k` is signed out and no request has claimed it. */
  ghost predicate SignedOut(s: System, k: nat) {
    && k < |s.issued| && s.issued[k].jti.Some? && s.issued[k].jti.value in s.rows
    && (forall id | id in s.requests && s.requests[id].token == k :: !s.requests[id].Won?)
  }

  lemma RequestsKeepSignedOut(s: System, a: Action, k: nat)
    requires a.SignIn? || a.Admit? || a.ReadUser? || a.CheckJti? || a.ClaimJti? || a.Mint?
    requires Legal(s, a) && SignedOut(s, k)
    ensures SignedOut(Next(s, a), k)
    ensures forall j | |s.issued| <= j < |Next(s, a).issued| :: Next(s, a).issued[j].parent != Some(k)
  {
  }

  lemma RowsKeepSignedOut(s: System, a: Action, k: nat)
    requires a.Logout? || a.Bump? || a.DeleteUser? || a.SweepRows? || a.Tick?
    requires UniqueJtis(s.issued) && SignedOut(s, k) && s.issued[k].exp >= s.now
    ensures SignedOut(Next(s, a), k) && Next(s, a).issued == s.issued
  {
    ExpiryIsTheTokens(s, k);
  }

  lemma StepKeepsSignedOut(s: System, a: Action, k: nat)
    requires Inv(s) && Legal(s, a) && SignedOut(s, k) && s.issued[k].exp >= Next(s, a).now
    ensures SignedOut(Next(s, a), k)
    ensures forall j | |s.issued| <= j < |Next(s, a).issued| :: Next(s, a).issued[j].parent != Some(k)
  {
    if a.Logout? || a.Bump? || a.DeleteUser? || a.SweepRows? || a.Tick? {
      RowsKeepSignedOut(s, a, k);
    } else {
      RequestsKeepSignedOut(s, a, k);
    }
  }

  lemma {:induction false} TimePasses(s: System, actions: seq<Action>)
    requires LegalRun(s, actions)
    ensures s.now <= Run(s, actions).now
    decreases |actions|
  {
    if actions != [] {
      TimePasses(Next(s, actions[0]), actions[1..]);
    }
  }

  /** However many requests race, a signed-out token mints nothing while it is unexpired. */
  lemma {:induction false} SignedOutTokensNeverMint(s: System, actions: seq<Action>, k: nat)
    requires Inv(s) && LegalRun(s, actions) && SignedOut(s, k)
    ensures var q := Run(s, actions);
            s.issued[k].exp >= q.now ==>
              SignedOut(q, k) && forall j | |s.issued| <= j < |q.issued| :: q.issued[j].parent != Some(k)
    decreases |actions|
  {
    if actions != [] {
      var s' := Next(s, actions[0]);
      TimePasses(s', actions[1..]);
      StepKeepsIssued(s, actions[0]);
      assert [actions[0]][1..] == [];
      assert Run(s', []) == s' && Run(s, [actions[0]]) == s';
      assert LegalRun(s', []) && LegalRun(s, [actions[0]]);
      RunKeepsInv(s, [actions[0]]);
      if s.issued[k].exp >= Run(s, actions).now {
        StepKeepsSignedOut(s, actions[0], k);
        SignedOutTokensNeverMint(s', actions[1..], k);
        IssuedStay(s', actions[1..]);
      }
    }
  }

  /** Logging out an unexpired token ends it: only a request that had claimed it already may still mint. */
  lemma LoggedOutTokensNeverMint(s: System, k: nat, actions: seq<Action>)
    requires Inv(s) && k < |s.issued| && s.issued[k].jti.Some?
    requires forall id | id in s.requests && s.requests[id].token == k :: !s.requests[id].Won?
    requires LegalRun(Next(s, Logout(k)), actions)
    ensures var q := Run(Next(s, Logout(k)), actions);
            s.issued[k].exp >= q.now ==> forall j | |s.issued| <= j < |q.issued| :: q.issued[j].parent != Some(k)
  {
    RowsKeepInv(s, Logout(k));
    SignedOutTokensNeverMint(Next(s, Logout(k)), actions, k);
  }
}
