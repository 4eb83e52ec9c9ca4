/**
 * One web session per account over Redis: SessionService (start, resume, isCurrent, end) together with
 * RegistrationService.signIn, refresh and revoke.
 *
 * Every event below is one Redis command of one client; between two commands of a client any other client may run,
 * time may pass and keys may expire. The class SessionServer performs the same commands without interruption, and
 * each of its methods is proved to be a run of the interleaved machine.
 */
module Sessions {
  import opened Options

  type UserId = nat
  type Sid = nat
  type Token = nat
  type Pid = nat

  // 30 days in seconds, both for an idle session and for a refresh token
  const SESSION_TTL: int := 30 * 24 * 3600
  const REFRESH_TTL: int := 30 * 24 * 3600

  //#region The keys and the commands on them

  datatype Session = Session(sid: Sid, until: int)
  datatype Claim = Claim(user: UserId, sid: Option<Sid>, until: int)

  /** The two kinds of key: activeSession by account, refreshToken by token. A key is there while now < until. */
  datatype Store = Store(now: int, active: map<UserId, Session>, refresh: map<Token, Claim>)

  function ActiveSid(st: Store, user: UserId): Option<Sid> {
    if user in st.active && st.now < st.active[user].until then Some(st.active[user].sid) else None
  }

  function SetActive(st: Store, user: UserId, sid: Sid): Store {
    st.(active := st.active[user := Session(sid, st.now + SESSION_TTL)])
  }

  function ExpireActive(st: Store, user: UserId): Store {
    if ActiveSid(st, user).None? then st
    else st.(active := st.active[user := Session(st.active[user].sid, st.now + SESSION_TTL)])
  }

  function DeleteActiveIf(st: Store, user: UserId, sid: Sid): Store {
    if ActiveSid(st, user) == Some(sid) then st.(active := st.active - {user}) else st
  }

  function LiveClaim(st: Store, token: Token): Option<Claim> {
    if token in st.refresh && st.now < st.refresh[token].until then Some(st.refresh[token]) else None
  }

  function TakeRefresh(st: Store, token: Token): Store {
    if LiveClaim(st, token).None? then st else st.(refresh := st.refresh - {token})
  }

  function SetRefresh(st: Store, token: Token, user: UserId, sid: Sid): Store {
    st.(refresh := st.refresh[token := Claim(user, Some(sid), st.now + REFRESH_TTL)])
  }

  //#endregion

  //#region The interleaved machine

  /** Where a client stands between two of its commands. */
  datatype Client =
    | SignedIn(user: UserId, s: Sid)          // session started, tokens not issued yet
    | Taken(user: UserId, held: Option<Sid>)  // refresh token taken, the session not read yet
    | Reading(user: UserId, s: Sid)           // read as current; its time is renewed next
    | Starting(user: UserId)                  // an old token and no session: one is started next
    | Resumed(user: UserId, s: Sid)           // session goes on, tokens not issued yet
    | Leaving(user: UserId, s: Sid)           // revoke took the token; its session ends next

  /** owner: every session id ever made, with its account; minted: every refresh token ever made (both only grow). */
  datatype World = World(
    store: Store, clients: map<Pid, Client>, multi: set<UserId>, owner: map<Sid, UserId>, minted: set<Token>)

  datatype Event =
    | Tick(seconds: nat)
    | StartSession(pid: Pid, user: UserId, sid: Sid)
    | IssueTokens(pid: Pid, token: Token)
    | TakeToRefresh(pid: Pid, token: Token)
    | ReadSession(pid: Pid, sid: Sid)
    | RenewSession(pid: Pid)
    | StartAfterOldToken(pid: Pid, sid: Sid)
    | TakeToRevoke(pid: Pid, token: Token)
    | EndSession(pid: Pid)
    | GiveUp(pid: Pid)   // any check or database read that throws

  predicate Enabled(w: World, e: Event) {
    match e
    case Tick(_) => true
    case StartSession(pid, _, sid) => pid !in w.clients && sid !in w.owner
    case IssueTokens(pid, token) =>
      pid in w.clients && (w.clients[pid].SignedIn? || w.clients[pid].Resumed?) && token !in w.minted
    case TakeToRefresh(pid, _) => pid !in w.clients
    case ReadSession(pid, sid) => pid in w.clients && w.clients[pid].Taken? && sid !in w.owner
    case RenewSession(pid) => pid in w.clients && w.clients[pid].Reading?
    case StartAfterOldToken(pid, sid) => pid in w.clients && w.clients[pid].Starting? && sid !in w.owner
    case TakeToRevoke(pid, _) => pid !in w.clients
    case EndSession(pid) => pid in w.clients && w.clients[pid].Leaving?
    case GiveUp(pid) => pid in w.clients
  }

  function WithoutClient(w: World, pid: Pid): World {
    w.(clients := w.clients - {pid})
  }

  function WithClient(w: World, pid: Pid, c: Client): World {
    w.(clients := w.clients[pid := c])
  }

  function Begin(w: World, user: UserId, sid: Sid): World {
    w.(store := if user in w.multi then w.store else SetActive(w.store, user, sid), owner := w.owner[sid := user])
  }

  function Apply(w: World, e: Event): World
    requires Enabled(w, e)
  {
    match e
    case Tick(seconds) => w.(store := w.store.(now := w.store.now + seconds))
    case StartSession(pid, user, sid) => WithClient(Begin(w, user, sid), pid, SignedIn(user, sid))
    case IssueTokens(pid, token) =>
      var c := w.clients[pid];
      WithoutClient(w.(store := SetRefresh(w.store, token, c.user, c.s), minted := w.minted + {token}), pid)
    case TakeToRefresh(pid, token) =>
      (match LiveClaim(w.store, token)
       case None => w
       case Some(claim) => WithClient(w.(store := TakeRefresh(w.store, token)), pid, Taken(claim.user, claim.sid)))
    case ReadSession(pid, sid) =>
      var c := w.clients[pid];
      if c.user in w.multi then
        (match c.held
         case Some(s) => WithClient(w, pid, Resumed(c.user, s))
         case None => WithClient(Begin(w, c.user, sid), pid, Resumed(c.user, sid)))
      else
        (match c.held
         case Some(s) =>
           if ActiveSid(w.store, c.user) == Some(s) then WithClient(w, pid, Reading(c.user, s)) else WithoutClient(w, pid)
         case None =>
           if ActiveSid(w.store, c.user).None? then WithClient(w, pid, Starting(c.user)) else WithoutClient(w, pid))
    case RenewSession(pid) =>
      var c := w.clients[pid];
      WithClient(w.(store := ExpireActive(w.store, c.user)), pid, Resumed(c.user, c.s))
    case StartAfterOldToken(pid, sid) =>
      var c := w.clients[pid];
      WithClient(Begin(w, c.user, sid), pid, Resumed(c.user, sid))
    case TakeToRevoke(pid, token) =>
      (match LiveClaim(w.store, token)
       case None => w
       case Some(claim) =>
         var taken := w.(store := TakeRefresh(w.store, token));
         if claim.sid.Some? then WithClient(taken, pid, Leaving(claim.user, claim.sid.value)) else taken)
    case EndSession(pid) =>
      var c := w.clients[pid];
      WithoutClient(w.(store := DeleteActiveIf(w.store, c.user, c.s)), pid)
    case GiveUp(pid) => WithoutClient(w, pid)
  }

  predicate CanRun(w: World, es: seq<Event>)
    decreases |es|
  {
    es == [] || (Enabled(w, es[0]) && CanRun(Apply(w, es[0]), es[1..]))
  }

  function Run(w: World, es: seq<Event>): World
    requires CanRun(w, es)
    decreases |es|
  {
    if es == [] then w else Run(Apply(w, es[0]), es[1..])
  }

  //#endregion

  //#region What every command keeps

  /** What can still bring a session further: a refresh token, or a client between two commands. */
  datatype Holder = ByToken(token: Token) | ByClient(pid: Pid)

  function ClientSid(c: Client): Option<Sid> {
    match c
    case Taken(_, held) => held
    case Starting(_) => None
    case _ => Some(c.s)
  }

  function HeldSid(w: World, h: Holder): Option<Sid> {
    match h
    case ByToken(t) => if t in w.store.refresh then w.store.refresh[t].sid else None
    case ByClient(p) => if p in w.clients then ClientSid(w.clients[p]) else None
  }

  function HolderUser(w: World, h: Holder): UserId
    requires HeldSid(w, h).Some?
  {
    match h
    case ByToken(t) => w.store.refresh[t].user
    case ByClient(p) => w.clients[p].user
  }

  /** No session is held twice. */
  ghost predicate Exclusive(w: World) {
    forall a, b :: HeldSid(w, a).Some? && HeldSid(w, a) == HeldSid(w, b) ==> a == b
  }

  ghost predicate Owned(w: World) {
    && (forall h :: HeldSid(w, h).Some? ==> HeldSid(w, h).value in w.owner && w.owner[HeldSid(w, h).value] == HolderUser(w, h))
    && (forall u :: u in w.store.active ==>
          && w.store.active[u].sid in w.owner && w.owner[w.store.active[u].sid] == u
          && w.store.active[u].until <= w.store.now + SESSION_TTL && u !in w.multi)
    && (forall t :: t in w.store.refresh ==> t in w.minted)
    && (forall p :: p in w.clients && (w.clients[p].Reading? || w.clients[p].Starting?) ==> w.clients[p].user !in w.multi)
  }

  ghost predicate Inv(w: World) {
    Exclusive(w) && Owned(w)
  }

  lemma {:induction false} StepKeepsInv(w: World, e: Event)
    requires Inv(w) && Enabled(w, e)
    ensures Inv(Apply(w, e))
  {
    var w' := Apply(w, e);
    // a holder of w' holds what it held before, what another holder just gave up, or a fresh id
    forall h | HeldSid(w', h).Some?
      ensures HeldSid(w', h).value in w'.owner && w'.owner[HeldSid(w', h).value] == HolderUser(w', h)
    {
      StepMovesSids(w, e, h);
    }
    forall a, b | HeldSid(w', a).Some? && HeldSid(w', a) == HeldSid(w', b)
      ensures a == b
    {
      StepMovesSids(w, e, a);
      StepMovesSids(w, e, b);
    }
  }

  /** The holder a step moves its session from, for the holder it moves it to. */
  function Source(w: World, e: Event, h: Holder): Holder {
    match e
    case IssueTokens(pid, token) => if h == ByToken(token) then ByClient(pid) else h
    case TakeToRefresh(pid, token) => if h == ByClient(pid) then ByToken(token) else h
    case TakeToRevoke(pid, token) => if h == ByClient(pid) then ByToken(token) else h
    case _ => h
  }

  /** Sessions only move between holders: nothing is held after a step that was not held, by one holder, before. */
  lemma StepMovesSids(w: World, e: Event, h: Holder)
    requires Inv(w) && Enabled(w, e)
    requires HeldSid(Apply(w, e), h).Some?
    ensures var w' := Apply(w, e); var s := HeldSid(w', h).value;
            || (HeldSid(w, Source(w, e, h)) == Some(s) && HolderUser(w, Source(w, e, h)) == HolderUser(w', h)
                && s in w'.owner && w'.owner[s] == HolderUser(w', h))
            || (s !in w.owner && s in w'.owner && w'.owner[s] == HolderUser(w', h) && h == ByClient(e.pid))
    ensures forall b :: HeldSid(Apply(w, e), b).Some? && Source(w, e, h) == Source(w, e, b) ==> h == b
  {
  }

  lemma {:induction false} RunKeepsInv(w: World, es: seq<Event>)
    requires Inv(w) && CanRun(w, es)
    ensures Inv(Run(w, es))
    decreases |es|
  {
    if es != [] {
      StepKeepsInv(w, es[0]);
      RunKeepsInv(Apply(w, es[0]), es[1..]);
    }
  }

  lemma {:induction false} RunSplit(w: World, es: seq<Event>, k: nat)
    requires k <= |es| && CanRun(w, es)
    ensures CanRun(w, es[..k]) && CanRun(Run(w, es[..k]), es[k..])
    ensures Run(w, es) == Run(Run(w, es[..k]), es[k..])
    decreases |es|
  {
    if k == 0 {
      assert es[..0] == [] && es[0..] == es;
    } else {
      RunSplit(Apply(w, es[0]), es[1..], k - 1);
      assert es[..k][0] == es[0] && es[..k][1..] == es[1..][..k - 1] && es[k..] == es[1..][k - 1..];
    }
  }

  //#endregion

  //#region One session per account

  /** isCurrent for a token that carries a session, on a single-session account. */
  predicate Current(w: World, user: UserId, sid: Sid) {
    ActiveSid(w.store, user) == Some(sid)
  }

  lemma {:induction false} NotCurrentStays(w: World, es: seq<Event>, sid: Sid)
    requires Inv(w) && CanRun(w, es)
    requires sid in w.owner && !Current(w, w.owner[sid], sid)
    ensures sid in Run(w, es).owner && Run(w, es).owner[sid] == w.owner[sid]
    ensures !Current(Run(w, es), w.owner[sid], sid)
    decreases |es|
  {
    if es != [] {
      StepKeepsInv(w, es[0]);
      NotCurrentStays(Apply(w, es[0]), es[1..], sid);
    }
  }

  /**
   * One that was accepted and then was not (replaced, ended or expired) is never accepted again, in any run. That at most
   * one is accepted at a time is how the one key of an account is compared; it is stated beside it.
   */
  lemma {:induction false} OneSessionNeverBack(w: World, es: seq<Event>, i: nat, j: nat, k: nat, user: UserId, sid: Sid)
    requires Inv(w) && CanRun(w, es) && i <= j <= k <= |es|
    ensures CanRun(w, es[..i]) && CanRun(w, es[..j]) && CanRun(w, es[..k])
    ensures forall other :: Current(Run(w, es[..k]), user, sid) && Current(Run(w, es[..k]), user, other) ==> sid == other
    ensures Current(Run(w, es[..i]), user, sid) && !Current(Run(w, es[..j]), user, sid) ==> !Current(Run(w, es[..k]), user, sid)
  {
    RunSplit(w, es, k);
    RunSplit(w, es[..k], j);
    assert es[..k][..j] == es[..j];
    RunSplit(w, es[..j], i);
    assert es[..j][..i] == es[..i];
    var wi := Run(w, es[..i]);
    var wj := Run(w, es[..j]);
    RunKeepsInv(w, es[..i]);
    RunKeepsInv(w, es[..j]);
    if Current(wi, user, sid) && !Current(wj, user, sid) {
      OwnerKept(wi, es[..j][i..], sid);
      NotCurrentStays(wj, es[..k][j..], sid);
    }
  }

  lemma {:induction false} OwnerKept(w: World, es: seq<Event>, sid: Sid)
    requires CanRun(w, es) && sid in w.owner
    ensures sid in Run(w, es).owner && Run(w, es).owner[sid] == w.owner[sid]
    decreases |es|
  {
    if es != [] {
      OwnerKept(Apply(w, es[0]), es[1..], sid);
    }
  }

  predicate Touches(w: World, e: Event, user: UserId)
    requires Enabled(w, e)
  {
    match e
    case StartSession(_, u, _) => u == user
    case RenewSession(pid) => w.clients[pid].user == user
    case StartAfterOldToken(pid, _) => w.clients[pid].user == user
    case _ => false
  }

  predicate Untouched(w: World, es: seq<Event>, user: UserId)
    requires CanRun(w, es)
    decreases |es|
  {
    es == [] || (!Touches(w, es[0], user) && Untouched(Apply(w, es[0]), es[1..], user))
  }

  /** A session nobody signs in to or refreshes for 30 days is over, whatever the other accounts do meanwhile. */
  lemma {:induction false} IdleSessionEnds(w: World, es: seq<Event>, user: UserId)
    requires Inv(w) && CanRun(w, es) && Untouched(w, es, user)
    requires Run(w, es).store.now >= w.store.now + SESSION_TTL
    ensures forall sid :: !Current(Run(w, es), user, sid)
  {
    UntouchedDeadline(w, es, user);
  }

  lemma {:induction false} UntouchedDeadline(w: World, es: seq<Event>, user: UserId)
    requires Inv(w) && CanRun(w, es) && Untouched(w, es, user)
    ensures user in Run(w, es).store.active ==> user in w.store.active && Run(w, es).store.active[user] == w.store.active[user]
    decreases |es|
  {
    if es != [] {
      StepKeepsInv(w, es[0]);
      UntouchedDeadline(Apply(w, es[0]), es[1..], user);
    }
  }

  /** Another start for the account, or an end of this session. */
  predicate Disturbs(w: World, e: Event, user: UserId, sid: Sid)
    requires Enabled(w, e)
  {
    match e
    case StartSession(_, u, _) => u == user
    case StartAfterOldToken(pid, _) => w.clients[pid].user == user
    case EndSession(pid) => w.clients[pid].user == user && w.clients[pid].s == sid
    case _ => false
  }

  predicate Undisturbed(w: World, es: seq<Event>, user: UserId, sid: Sid)
    requires CanRun(w, es)
    decreases |es|
  {
    es == [] || (!Disturbs(w, es[0], user, sid) && Undisturbed(Apply(w, es[0]), es[1..], user, sid))
  }

  /** The session begins, or goes on, with this event. */
  predicate Renews(w: World, e: Event, user: UserId, sid: Sid)
    requires Enabled(w, e)
  {
    match e
    case StartSession(_, u, s) => u == user && s == sid
    case StartAfterOldToken(pid, s) => w.clients[pid].user == user && s == sid
    case RenewSession(pid) => w.clients[pid].user == user && Current(w, user, sid)
    case _ => false
  }

  /**
   * A session that was started or resumed is accepted at every moment of the 30 days after, in every run without another
   * start for its account or an end of it, whatever else is refreshed, issued or ended meanwhile; and when its account is not
   * refreshed again either, exactly until those 30 days are over.
   */
  lemma {:induction false} SessionLivesThirtyDays(w: World, e: Event, es: seq<Event>, user: UserId, sid: Sid)
    requires Inv(w) && Enabled(w, e) && Renews(w, e, user, sid) && user !in w.multi
    requires CanRun(Apply(w, e), es) && Undisturbed(Apply(w, e), es, user, sid)
    ensures Run(Apply(w, e), es).store.now < w.store.now + 30 * 24 * 3600 ==> Current(Run(Apply(w, e), es), user, sid)
    ensures Untouched(Apply(w, e), es, user) ==>
              (Current(Run(Apply(w, e), es), user, sid) <==> Run(Apply(w, e), es).store.now < w.store.now + 30 * 24 * 3600)
  {
    StepKeepsInv(w, e);
    LivesUntil(Apply(w, e), es, user, sid, w.store.now + 30 * 24 * 3600);
    if Untouched(Apply(w, e), es, user) { UntouchedDeadline(Apply(w, e), es, user); }
  }

  lemma {:induction false} LivesUntil(w: World, es: seq<Event>, user: UserId, sid: Sid, until: int)
    requires Inv(w) && CanRun(w, es) && Undisturbed(w, es, user, sid)
    requires user in w.store.active && w.store.active[user].sid == sid && until <= w.store.active[user].until
    ensures Run(w, es).store.now < until ==> Current(Run(w, es), user, sid)
    decreases |es|
  {
    if es != [] {
      StepKeepsInv(w, es[0]);
      LivesUntil(Apply(w, es[0]), es[1..], user, sid, until);
    }
  }

  //#endregion

  //#region Refresh tokens

  ghost function Holders(w: World, sid: Sid): set<Holder> {
    (set t | t in w.store.refresh && w.store.refresh[t].sid == Some(sid) :: ByToken(t))
    + (set p | p in w.clients && ClientSid(w.clients[p]) == Some(sid) :: ByClient(p))
  }

  /** In every run the refresh tokens of a session and the requests in flight that hold it are at most one together. */
  lemma {:induction false} OneHolderPerSession(w: World, es: seq<Event>, sid: Sid)
    requires Inv(w) && CanRun(w, es)
    ensures |Holders(Run(w, es), sid)| <= 1
  {
    RunKeepsInv(w, es);
    var w' := Run(w, es);
    var hs := Holders(w', sid);
    if hs != {} {
      var h :| h in hs;
      forall x | x in hs ensures x == h {
        assert HeldSid(w', x) == Some(sid) == HeldSid(w', h);
      }
      assert hs == {h};
    }
  }

  predicate Exchanges(w: World, e: Event, token: Token) {
    (e.TakeToRefresh? || e.TakeToRevoke?) && e.token == token && LiveClaim(w.store, token).Some?
  }

  function ExchangeCount(w: World, es: seq<Event>, token: Token): nat
    requires CanRun(w, es)
    decreases |es|
  {
    if es == [] then 0
    else (if Exchanges(w, es[0], token) then 1 else 0) + ExchangeCount(Apply(w, es[0]), es[1..], token)
  }

  /** A refresh token is exchanged (for new tokens, or by signing out) at most once, in every run. */
  lemma {:induction false} ExchangedAtMostOnce(w: World, es: seq<Event>, token: Token)
    requires Inv(w) && CanRun(w, es)
    ensures ExchangeCount(w, es, token) <= 1
    ensures token in w.minted && token !in w.store.refresh ==> ExchangeCount(w, es, token) == 0
    decreases |es|
  {
    if es != [] {
      StepKeepsInv(w, es[0]);
      ExchangedAtMostOnce(Apply(w, es[0]), es[1..], token);
    }
  }

  /** Nothing holds the session and it is not its account's current one. */
  ghost predicate Dead(w: World, sid: Sid) {
    sid in w.owner && !Current(w, w.owner[sid], sid) && forall h :: HeldSid(w, h) != Some(sid)
  }

  lemma {:induction false} DeadStays(w: World, es: seq<Event>, sid: Sid)
    requires Inv(w) && CanRun(w, es) && Dead(w, sid)
    ensures Dead(Run(w, es), sid)
    decreases |es|
  {
    if es != [] {
      var w' := Apply(w, es[0]);
      StepKeepsInv(w, es[0]);
      forall h ensures HeldSid(w', h) != Some(sid) {
        if HeldSid(w', h).Some? { StepMovesSids(w, es[0], h); }
      }
      DeadStays(w', es[1..], sid);
    }
  }

  /**
   * Signing out is final: once revoke has taken a token and ended its session, that session is never accepted again
   * and no refresh token of it ever exists again, whatever was in flight on other devices.
   */
  lemma {:induction false} SignOutIsFinal(w: World, pid: Pid, es: seq<Event>)
    requires Inv(w) && Enabled(w, EndSession(pid))
    requires CanRun(Apply(w, EndSession(pid)), es)
    ensures var sid := w.clients[pid].s; var w' := Run(Apply(w, EndSession(pid)), es);
            && !Current(w', w.clients[pid].user, sid)
            && forall t :: t in w'.store.refresh ==> w'.store.refresh[t].sid != Some(sid)
  {
    var sid := w.clients[pid].s;
    var w1 := Apply(w, EndSession(pid));
    StepKeepsInv(w, EndSession(pid));
    assert HeldSid(w, ByClient(pid)) == Some(sid);
    assert w.owner[sid] == w.clients[pid].user;
    OwnerKept(w1, es, sid);
    forall h ensures HeldSid(w1, h) != Some(sid) {
      if HeldSid(w1, h) == Some(sid) { StepMovesSids(w, EndSession(pid), h); }
    }
    DeadStays(w1, es, sid);
    var w' := Run(w1, es);
    forall t | t in w'.store.refresh ensures w'.store.refresh[t].sid != Some(sid) {
      assert HeldSid(w', ByToken(t)) != Some(sid);
    }
  }

  ghost predicate PastTheCheck(w: World, sid: Sid) {
    exists p :: p in w.clients && !w.clients[p].Taken? && !w.clients[p].Leaving? && ClientSid(w.clients[p]) == Some(sid)
  }

  predicate IssuesFor(w: World, e: Event, sid: Sid)
    requires Enabled(w, e)
  {
    e.IssueTokens? && ClientSid(w.clients[e.pid]) == Some(sid)
  }

  function IssueCount(w: World, es: seq<Event>, sid: Sid): nat
    requires CanRun(w, es)
    decreases |es|
  {
    if es == [] then 0
    else (if IssuesFor(w, es[0], sid) then 1 else 0) + IssueCount(Apply(w, es[0]), es[1..], sid)
  }

  /**
   * After a session of a single-session account was replaced, ended or expired at most one more token pair is issued
   * for it (to the one request that had already passed the check), and none when no request had.
   */
  lemma {:induction false} ReplacedSessionRunsOut(w: World, es: seq<Event>, sid: Sid)
    requires Inv(w) && CanRun(w, es)
    requires sid in w.owner && w.owner[sid] !in w.multi && !Current(w, w.owner[sid], sid)
    ensures IssueCount(w, es, sid) <= 1
    ensures !PastTheCheck(w, sid) ==> IssueCount(w, es, sid) == 0
    decreases |es|
  {
    if es != [] {
      var e := es[0];
      var w' := Apply(w, e);
      StepKeepsInv(w, e);
      NotCurrentStays(w, [e], sid);
      assert Run(w, [e]) == w';
      ReplacedSessionRunsOut(w', es[1..], sid);
      if PastTheCheck(w', sid) {
        PassedBefore(w, e, sid);
      }
    }
  }

  lemma {:induction false} PassedBefore(w: World, e: Event, sid: Sid)
    requires Inv(w) && Enabled(w, e)
    requires sid in w.owner && w.owner[sid] !in w.multi && !Current(w, w.owner[sid], sid)
    requires PastTheCheck(Apply(w, e), sid)
    ensures PastTheCheck(w, sid) && !IssuesFor(w, e, sid)
  {
    var w' := Apply(w, e);
    var p :| p in w'.clients && !w'.clients[p].Taken? && !w'.clients[p].Leaving? && ClientSid(w'.clients[p]) == Some(sid);
    StepKeepsInv(w, e);
    assert HeldSid(w', ByClient(p)) == Some(sid);
    StepMovesSids(w, e, ByClient(p));
    assert HeldSid(w, ByClient(p)) == Some(sid);
    assert e.IssueTokens? ==> HeldSid(w, ByClient(e.pid)) == ClientSid(w.clients[e.pid]);
  }

  //#endregion

  //#region The server

  /** What a token carries about its session: multi accounts, and tokens from before sessions, included. */
  predicate IsCurrent(w: World, user: UserId, sid: Option<Sid>) {
    user in w.multi || (if sid.Some? then Current(w, user, sid.value) else ActiveSid(w.store, user).None?)
  }

  /** The events of one resume, by the client pid that holds a taken refresh token. */
  function ResumeEvents(w: World, pid: Pid, newSid: Sid): seq<Event>
    requires pid in w.clients && w.clients[pid].Taken?
  {
    var c := w.clients[pid];
    if c.user in w.multi || !IsCurrent(w, c.user, c.held) then [ReadSession(pid, newSid)]
    else if c.held.Some? then [ReadSession(pid, newSid), RenewSession(pid)]
    else [ReadSession(pid, newSid), StartAfterOldToken(pid, newSid)]
  }

  lemma RunOne(w: World, e: Event)
    requires Enabled(w, e)
    ensures CanRun(w, [e]) && Run(w, [e]) == Apply(w, e)
  {
    assert [e][1..] == [];
  }

  lemma RunTwo(w: World, e: Event, f: Event)
    requires Enabled(w, e) && Enabled(Apply(w, e), f)
    ensures CanRun(w, [e, f]) && Run(w, [e, f]) == Apply(Apply(w, e), f)
  {
    RunOne(Apply(w, e), f);
    assert [e, f][1..] == [f];
  }

  lemma {:induction false} RunAppend(w: World, es: seq<Event>, fs: seq<Event>)
    requires CanRun(w, es) && CanRun(Run(w, es), fs)
    ensures CanRun(w, es + fs) && Run(w, es + fs) == Run(Run(w, es), fs)
    decreases |es|
  {
    if es == [] {
      assert es + fs == fs;
    } else {
      RunAppend(Apply(w, es[0]), es[1..], fs);
      assert (es + fs)[0] == es[0] && (es + fs)[1..] == es[1..] + fs;
    }
  }

  /**
   * The two services as one object over its Redis keys. Random ids are parameters (newSid, token: not made before); roleless
   * and unknown accounts, which the database answers, are the parameters allowed and found.
   */
  class SessionServer {
    const multi: set<UserId>
    var now: int
    var active: map<UserId, Session>
    var refresh: map<Token, Claim>
    ghost var owner: map<Sid, UserId>
    ghost var minted: set<Token>

    ghost function State(): World
      reads this
    {
      World(Store(now, active, refresh), map[], multi, owner, minted)
    }

    constructor (multi: set<UserId>, now: int)
      ensures Inv(State()) && active == map[] && refresh == map[] && this.multi == multi && this.now == now
    {
      this.multi, this.now := multi, now;
      active, refresh, owner, minted := map[], map[], map[], {};
    }

    method Start(user: UserId, sid: Sid)
      requires sid !in owner
      modifies this`active, this`owner
      ensures State() == Begin(old(State()), user, sid)
      ensures active == if user in multi then old(active) else old(active)[user := Session(sid, now + 30 * 24 * 3600)]
    {
      if user !in multi {
        active := active[user := Session(sid, now + SESSION_TTL)];
      }
      owner := owner[sid := user];
    }

    method Get(user: UserId) returns (sid: Option<Sid>)
      ensures sid == ActiveSid(State().store, user)
    {
      sid := None;
      if user in active && now < active[user].until {
        sid := Some(active[user].sid);
      }
    }

    /** None: 401 SESSION_REPLACED. */
    method Resume(user: UserId, sid: Option<Sid>, newSid: Sid) returns (r: Option<Sid>)
      requires newSid !in owner
      modifies this`active, this`owner
      ensures r == if IsCurrent(old(State()), user, sid) then (if sid.Some? then sid else Some(newSid)) else None
      ensures active == if user !in multi && r.Some? then old(active)[user := Session(r.value, now + 30 * 24 * 3600)] else old(active)
      ensures var w := WithClient(old(State()), 0, Taken(user, sid));
              && CanRun(w, ResumeEvents(w, 0, newSid))
              && Run(w, ResumeEvents(w, 0, newSid)) == if r.Some? then WithClient(State(), 0, Resumed(user, r.value)) else State()
    {
      ghost var w := WithClient(State(), 0, Taken(user, sid));
      ghost var read := ReadSession(0, newSid);
      if user in multi {
        RunOne(w, read);
        if sid.None? { owner := owner[newSid := user]; }
        return if sid.Some? then sid else Some(newSid);
      }
      var current := Get(user);
      if sid.None? {
        if current.Some? {
          RunOne(w, read);
          assert Apply(w, read).clients == map[];
          return None;
        }
        RunTwo(w, read, StartAfterOldToken(0, newSid));
        Start(user, newSid);
        return Some(newSid);
      }
      if current != sid {
        RunOne(w, read);
        assert Apply(w, read).clients == map[];
        return None;
      }
      RunTwo(w, read, RenewSession(0));
      active := active[user := Session(sid.value, now + SESSION_TTL)];
      return sid;
    }

    method CheckCurrent(user: UserId, sid: Option<Sid>) returns (ok: bool)
      ensures ok == IsCurrent(State(), user, sid)
      ensures ok <==> user in multi
                      || (sid.Some? && user in active && now < active[user].until && active[user].sid == sid.value)
                      || (sid.None? && (user in active ==> active[user].until <= now))
    {
      if user in multi { return true; }
      var current := Get(user);
      ok := if sid.Some? then current == sid else current.None?;
    }

    /** «خروج»: the session ends only if it is still the current one. */
    method End(user: UserId, sid: Option<Sid>)
      modifies this`active
      ensures active == if sid.Some? && user in old(active) && now < old(active)[user].until && old(active)[user].sid == sid.value
                        then old(active) - {user} else old(active)
    {
      if sid.Some? {
        var current := Get(user);
        if current == sid { active := active - {user}; }
      }
    }

    method SetRefreshToken(user: UserId, sid: Sid, token: Token)
      requires token !in minted
      modifies this`refresh, this`minted
      ensures refresh == old(refresh)[token := Claim(user, Some(sid), now + 30 * 24 * 3600)] && minted == old(minted) + {token}
    {
      refresh := refresh[token := Claim(user, Some(sid), now + REFRESH_TTL)];
      minted := minted + {token};
    }

    method Take(token: Token) returns (claim: Option<Claim>)
      modifies this`refresh
      ensures claim == LiveClaim(old(State()).store, token)
      ensures State().store == TakeRefresh(old(State()).store, token)
      ensures claim == if token in old(refresh) && now < old(refresh)[token].until then Some(old(refresh)[token]) else None
      ensures refresh == if claim.Some? then old(refresh) - {token} else old(refresh)
    {
      claim := None;
      if token in refresh && now < refresh[token].until {
        claim := Some(refresh[token]);
        refresh := refresh - {token};
      }
    }

    method SignIn(user: UserId, allowed: bool, sid: Sid, token: Token) returns (issued: bool, ghost trace: seq<Event>)
      requires Inv(State()) && sid !in owner && token !in minted
      modifies this`active, this`owner, this`refresh, this`minted
      ensures CanRun(old(State()), trace) && State() == Run(old(State()), trace) && Inv(State())
      ensures issued == allowed
      ensures user !in multi ==> forall s :: Current(State(), user, s) <==> s == sid
      ensures active == if user in multi then old(active) else old(active)[user := Session(sid, now + 30 * 24 * 3600)]
      ensures refresh == if issued then old(refresh)[token := Claim(user, Some(sid), now + 30 * 24 * 3600)] else old(refresh)
      ensures issued ==> LiveClaim(State().store, token) == Some(Claim(user, Some(sid), now + REFRESH_TTL))
    {
      ghost var w := State();
      ghost var finish := if allowed then IssueTokens(0, token) else GiveUp(0);
      trace := [StartSession(0, user, sid), finish];
      RunTwo(w, StartSession(0, user, sid), finish);
      RunKeepsInv(w, trace);
      Start(user, sid);
      if allowed { SetRefreshToken(user, sid, token); }
      issued := allowed;
      assert Apply(Apply(w, StartSession(0, user, sid)), finish).clients == map[];
    }

    /** A refresh from the moment its token was taken: resume, then the new pair. */
    method ResumeAndIssue(user: UserId, held: Option<Sid>, allowed: bool, newSid: Sid, next: Token)
      returns (r: Option<Token>, ghost trace: seq<Event>)
      requires newSid !in owner && next !in minted
      modifies this`active, this`owner, this`refresh, this`minted
      ensures var w := WithClient(old(State()), 0, Taken(user, held)); CanRun(w, trace) && State() == Run(w, trace)
      ensures r.Some? <==> allowed && IsCurrent(old(State()), user, held)
      ensures r.Some? ==> r.value == next
      ensures active == if user !in multi && IsCurrent(old(State()), user, held)
                        then old(active)[user := Session(held.GetOr(newSid), now + 30 * 24 * 3600)] else old(active)
      ensures refresh == if r.Some? then old(refresh)[next := Claim(user, Some(held.GetOr(newSid)), now + 30 * 24 * 3600)] else old(refresh)
    {
      ghost var w := WithClient(State(), 0, Taken(user, held));
      trace := ResumeEvents(w, 0, newSid);
      var session := Resume(user, held, newSid);
      if session.None? { return None, trace; }
      ghost var finish := if allowed then IssueTokens(0, next) else GiveUp(0);
      ghost var resumed := Run(w, trace);
      assert Apply(resumed, finish).clients == map[];
      RunOne(resumed, finish);
      RunAppend(w, trace, [finish]);
      trace := trace + [finish];
      if !allowed { return None, trace; }
      SetRefreshToken(user, session.value, next);
      r := Some(next);
    }

    method Refresh(token: Token, found: bool, allowed: bool, newSid: Sid, next: Token)
      returns (r: Option<Token>, ghost trace: seq<Event>)
      requires Inv(State()) && newSid !in owner && next !in minted
      modifies this`active, this`owner, this`refresh, this`minted
      ensures CanRun(old(State()), trace) && State() == Run(old(State()), trace) && Inv(State())
      ensures var was := LiveClaim(old(State()).store, token);
              r.Some? <==> (found && allowed && was.Some? && IsCurrent(old(State()), was.value.user, was.value.sid))
      ensures LiveClaim(State().store, token).None?
      ensures r.Some? ==> var c := LiveClaim(old(State()).store, token).value;
                && r.value == next
                && LiveClaim(State().store, next) == Some(Claim(c.user, if c.sid.Some? then c.sid else Some(newSid), now + REFRESH_TTL))
      ensures r.Some? ==> var c := old(refresh)[token];
                && refresh == (old(refresh) - {token})[next := Claim(c.user, Some(c.sid.GetOr(newSid)), now + 30 * 24 * 3600)]
                && active == if c.user in multi then old(active)
                             else old(active)[c.user := Session(c.sid.GetOr(newSid), now + 30 * 24 * 3600)]
      ensures var was := LiveClaim(old(State()).store, token);
              && (was.None? ==> refresh == old(refresh)) && (was.Some? && r.None? ==> refresh == old(refresh) - {token})
              && (was.None? || !found || !IsCurrent(old(State()), was.value.user, was.value.sid) ==> active == old(active))
    {
      ghost var w := State();
      trace := [TakeToRefresh(0, token)];
      RunOne(w, TakeToRefresh(0, token));
      var claim := Take(token);
      if claim.None? {
        RunKeepsInv(w, trace);
        return None, trace;
      }
      var c := claim.value;
      ghost var rest := [GiveUp(0)];
      r := None;
      ghost var taken := WithClient(State(), 0, Taken(c.user, c.sid));
      assert taken == Run(w, trace);
      if found {
        r, rest := ResumeAndIssue(c.user, c.sid, allowed, newSid, next);
      } else {
        RunOne(taken, GiveUp(0));
        assert Apply(taken, GiveUp(0)).clients == map[];
      }
      RunAppend(w, trace, rest);
      trace := trace + rest;
      RunKeepsInv(w, trace);
    }

    method Revoke(token: Token) returns (ghost trace: seq<Event>)
      requires Inv(State())
      modifies this`active, this`refresh
      ensures CanRun(old(State()), trace) && State() == Run(old(State()), trace) && Inv(State())
      ensures LiveClaim(old(State()).store, token).Some? && LiveClaim(old(State()).store, token).value.sid.Some? ==>
                Dead(State(), LiveClaim(old(State()).store, token).value.sid.value)
      ensures var was := LiveClaim(old(State()).store, token);
              && refresh == (if was.Some? then old(refresh) - {token} else old(refresh))
              && active == if was.Some? && was.value.sid.Some? && Current(old(State()), was.value.user, was.value.sid.value)
                           then old(active) - {was.value.user} else old(active)
    {
      ghost var w := State();
      ghost var take := TakeToRevoke(0, token);
      trace := [take];
      RunOne(w, take);
      RunKeepsInv(w, trace);
      var claim := Take(token);
      if claim.None? { return trace; }
      ghost var w1 := Run(w, trace);
      End(claim.value.user, claim.value.sid);
      if claim.value.sid.Some? {
        RunOne(w1, EndSession(0));
        RunAppend(w, trace, [EndSession(0)]);
        trace := trace + [EndSession(0)];
        RunKeepsInv(w, trace);
        assert Apply(w1, EndSession(0)).clients == map[];
        assert HeldSid(w1, ByClient(0)) == claim.value.sid;
        assert forall h :: HeldSid(State(), h) != claim.value.sid by {
          forall h ensures HeldSid(State(), h) != claim.value.sid {
            if HeldSid(State(), h) == claim.value.sid { StepMovesSids(w1, EndSession(0), h); }
          }
        }
      }
    }
  }

  //#endregion
}
