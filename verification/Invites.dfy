/**
 * Invite links (inviteRules, inviteUsage, DriverInviteService) of one kind, the drivers': invite, renew, register, use,
 * remove, and the sweep that revokes what nobody used in a day and may delete the account an invite made. A mobile
 * number stands for its account. Each transaction or single statement is one event; the sweep's SELECT and its
 * transactions, and the read and the write of an opened link, are events of their own. Times are milliseconds.
 */
module Invites {
  import opened Options

  type Mobile = nat
  type CompanyId = nat
  type InviteId = nat

  const LIFE_MS: int := 24 * 3_600_000
  const MADE_MS: int := 60_000

  datatype Role = NoRole | Driver | OtherRole
  datatype Account = Account(createdAt: int, role: Role, linked: bool)
  datatype Invite = Invite(inviter: CompanyId, driver: Mobile, createdAt: int, usedAt: Option<int>, revokedAt: Option<int>)

  //#region The rules

  predicate Expired(i: Invite, now: int) {
    i.usedAt.None? && now - i.createdAt > LIFE_MS
  }

  predicate Waiting(i: Invite, now: int) {
    i.revokedAt.None? && i.usedAt.None? && !Expired(i, now)
  }

  function Abs(x: int): int {
    if x < 0 then -x else x
  }

  /** assertInvitable returns rather than throws; rows: the invites of the one account. */
  predicate Invitable(rows: set<Invite>, inviter: CompanyId, accountCreatedAt: int, now: int) {
    || (exists i :: i in rows && Waiting(i, now) && i.inviter == inviter)
    || ((forall i :: i in rows ==> !Waiting(i, now))
        && (exists i :: i in rows && Abs(i.createdAt - accountCreatedAt) < MADE_MS)
        && (forall i :: i in rows ==> i.usedAt.None?))
  }

  //#endregion

  //#region The machine

  /**
   * ties: DriverProfile.companyUserIds, as pairs. selected: what the running sweep selected, with the createdAt each
   * had then. links: links read as in force and not written yet. Invite ids are below next.
   */
  datatype World = World(
    now: int, accounts: map<Mobile, Account>, invites: map<InviteId, Invite>, ties: set<(CompanyId, Mobile)>,
    selected: map<InviteId, int>, links: set<InviteId>, next: InviteId)

  datatype Event =
    | Tick(ms: nat)
    | MakeAccount(mobile: Mobile, linked: bool)         // a messenger's, before it chose its kind
    | TakeRole(mobile: Mobile, role: Role)              // signing up alone
    | LinkMessenger(mobile: Mobile)
    | MarkUsed(mobile: Mobile)                          // every way in: markInvitesUsed
    | InviteDriver(company: CompanyId, mobile: Mobile, direct: bool)
    | Remove(company: CompanyId, mobile: Mobile)
    | OpenLink(id: InviteId)                            // isInvited reads the invite
    | UseLink(id: InviteId)                             // and marks it used
    | Select
    | ExpireRow(id: InviteId)

  predicate Enabled(w: World, e: Event) {
    match e
    case MakeAccount(mobile, _) => mobile !in w.accounts
    case TakeRole(mobile, role) => (mobile in w.accounts ==> w.accounts[mobile].role.NoRole?) && !role.NoRole?
    case LinkMessenger(mobile) => mobile in w.accounts
    case OpenLink(id) => id in w.invites && w.invites[id].revokedAt.None? && !Expired(w.invites[id], w.now)
    case UseLink(id) => id in w.links
    case ExpireRow(id) => id in w.selected
    case _ => true
  }

  function RowsOf(w: World, driver: Mobile): set<Invite> {
    set id | id in w.invites && w.invites[id].driver == driver :: w.invites[id]
  }

  predicate IsPair(i: Invite, company: CompanyId, mobile: Mobile) {
    i.inviter == company && i.driver == mobile
  }

  /** Whether inviteOne refuses: the number has another kind of account, or an account that may not be invited. */
  predicate Refused(w: World, company: CompanyId, mobile: Mobile) {
    mobile in w.accounts
    && (w.accounts[mobile].role.OtherRole?
        || (w.accounts[mobile].role.Driver? && !Invitable(RowsOf(w, mobile), company, w.accounts[mobile].createdAt, w.now)))
  }

  /** The pair's row after an invite: kept while it waits, renewed otherwise, made when there is none. */
  function InvitedRow(before: Option<Invite>, company: CompanyId, mobile: Mobile, direct: bool, now: int): Invite {
    var row := if before.Some? && Waiting(before.value, now) then before.value else Invite(company, mobile, now, None, None);
    if direct then row.(usedAt := if row.usedAt.Some? then row.usedAt else Some(now), revokedAt := None) else row
  }

  /** The id of the pair's row: its own, or the next one. */
  ghost function PairId(w: World, company: CompanyId, mobile: Mobile): InviteId {
    if id :| id in w.invites && IsPair(w.invites[id], company, mobile) then id else w.next
  }

  ghost function Invited(w: World, company: CompanyId, mobile: Mobile, direct: bool): World {
    var account := if mobile in w.accounts then w.accounts[mobile].(role := Driver) else Account(w.now, Driver, false);
    var id := PairId(w, company, mobile);
    var before := if id in w.invites then Some(w.invites[id]) else None;
    w.(accounts := w.accounts[mobile := account],
       invites := w.invites[id := InvitedRow(before, company, mobile, direct, w.now)],
       ties := w.ties + {(company, mobile)},
       next := if id == w.next then w.next + 1 else w.next)
  }

  function Used(i: Invite, now: int): Invite {
    if i.usedAt.Some? then i else i.(usedAt := Some(now))
  }

  /** The account goes only when this invite made it, nobody came in with it, nothing else is in force, and no messenger. */
  predicate Deletes(w: World, id: InviteId)
    requires id in w.invites
  {
    var mobile := w.invites[id].driver;
    && mobile in w.accounts
    && Abs(w.invites[id].createdAt - w.accounts[mobile].createdAt) <= MADE_MS
    && (forall j :: j in w.invites && w.invites[j].driver == mobile ==> w.invites[j].usedAt.None? && (j == id || w.invites[j].revokedAt.Some?))
    && !w.accounts[mobile].linked
  }

  predicate Revokes(w: World, id: InviteId) {
    id in w.invites && w.invites[id].usedAt.None? && w.invites[id].revokedAt.None?
  }

  /** Deleting an account deletes its invites and its profile with it. */
  function WithoutAccount(w: World, mobile: Mobile): World {
    w.(accounts := w.accounts - {mobile},
       invites := map id | id in w.invites && w.invites[id].driver != mobile :: w.invites[id],
       ties := set t | t in w.ties && t.1 != mobile)
  }

  function ExpiredRow(w: World, id: InviteId): World {
    if !Revokes(w, id) then w
    else
      var i := w.invites[id];
      var w' := w.(invites := w.invites[id := i.(revokedAt := Some(w.now))], ties := w.ties - {(i.inviter, i.driver)});
      if Deletes(w, id) then WithoutAccount(w', i.driver) else w'
  }

  predicate IsStale(i: Invite, now: int) {
    i.usedAt.None? && i.revokedAt.None? && i.createdAt < now - LIFE_MS
  }

  ghost function Apply(w: World, e: Event): World
    requires Enabled(w, e)
  {
    match e
    case Tick(ms) => w.(now := w.now + ms)
    case MakeAccount(mobile, linked) => w.(accounts := w.accounts[mobile := Account(w.now, NoRole, linked)])
    case TakeRole(mobile, role) =>
      w.(accounts := w.accounts[mobile :=
           if mobile in w.accounts then w.accounts[mobile].(role := role) else Account(w.now, role, false)])
    case LinkMessenger(mobile) => w.(accounts := w.accounts[mobile := w.accounts[mobile].(linked := true)])
    case MarkUsed(mobile) =>
      w.(invites := map id | id in w.invites :: if w.invites[id].driver == mobile then Used(w.invites[id], w.now) else w.invites[id])
    case InviteDriver(company, mobile, direct) => if Refused(w, company, mobile) then w else Invited(w, company, mobile, direct)
    case Remove(company, mobile) =>
      var id := PairId(w, company, mobile);
      if id in w.invites && w.invites[id].revokedAt.None? then
        w.(invites := w.invites[id := w.invites[id].(revokedAt := Some(w.now))], ties := w.ties - {(company, mobile)})
      else w
    case OpenLink(id) => w.(links := w.links + {id})
    case UseLink(id) => if id in w.invites then w.(invites := w.invites[id := Used(w.invites[id], w.now)]) else w
    case Select => w.(selected := map id | id in w.invites && IsStale(w.invites[id], w.now) :: w.invites[id].createdAt)
    case ExpireRow(id) => ExpiredRow(w.(selected := w.selected - {id}), id)
  }

  ghost predicate CanRun(w: World, es: seq<Event>)
    decreases |es|
  {
    es == [] || (Enabled(w, es[0]) && CanRun(Apply(w, es[0]), es[1..]))
  }

  ghost function Run(w: World, es: seq<Event>): World
    requires CanRun(w, es)
    decreases |es|
  {
    if es == [] then w else Run(Apply(w, es[0]), es[1..])
  }

  function Empty(now: int): World {
    World(now, map[], map[], {}, map[], {}, 0)
  }

  //#endregion

  //#region What every event keeps

  ghost predicate IsUsed(w: World, mobile: Mobile) {
    exists id :: id in w.invites && w.invites[id].driver == mobile && w.invites[id].usedAt.Some?
  }

  predicate WaitsFor(w: World, id: InviteId, mobile: Mobile) {
    id in w.invites && w.invites[id].driver == mobile && Waiting(w.invites[id], w.now)
  }

  predicate Tied(w: World, company: CompanyId, mobile: Mobile) {
    exists id :: id in w.invites && IsPair(w.invites[id], company, mobile) && w.invites[id].revokedAt.None?
  }

  ghost predicate TiesMatch(w: World) {
    forall c: CompanyId, m: Mobile :: (c, m) in w.ties <==> Tied(w, c, m)
  }

  /**
   * One row a pair, rows only of driver accounts, a driver's companies are those whose invite is not revoked, and what
   * the sweep selected had its day over.
   */
  ghost predicate Tidy(w: World) {
    && (forall id :: id in w.invites ==> id < w.next && w.invites[id].driver in w.accounts && w.accounts[w.invites[id].driver].role.Driver?)
    && (forall a, b :: a in w.invites && b in w.invites && IsPair(w.invites[a], w.invites[b].inviter, w.invites[b].driver) ==> a == b)
    && TiesMatch(w)
    && (forall id :: id in w.invites ==> w.invites[id].createdAt <= w.now)
    && (forall id :: id in w.selected || id in w.links ==> id < w.next)
    && (forall id :: id in w.selected ==> w.selected[id] < w.now - LIFE_MS)
  }

  /** At most one invite waits for a driver, and none once any of its invites was used. */
  ghost predicate Settled(w: World) {
    && (forall a, b, m :: WaitsFor(w, a, m) && WaitsFor(w, b, m) ==> a == b)
    && (forall m :: IsUsed(w, m) ==> forall id :: !WaitsFor(w, id, m))
  }

  ghost predicate Inv(w: World) {
    Tidy(w) && Settled(w)
  }

  /** An opened link is written while no other invite waits for its driver. */
  predicate Harmless(w: World, e: Event) {
    e.UseLink? && e.id in w.invites ==> forall j :: j in w.invites && j != e.id ==> !WaitsFor(w, j, w.invites[e.id].driver)
  }

  lemma PairIdIs(w: World, company: CompanyId, mobile: Mobile)
    requires Tidy(w)
    ensures var id := PairId(w, company, mobile);
            && (id in w.invites <==> id != w.next)
            && (id in w.invites ==> IsPair(w.invites[id], company, mobile))
            && (forall j :: j in w.invites && IsPair(w.invites[j], company, mobile) ==> j == id)
  {
  }

  lemma InviteKeepsTidy(w: World, company: CompanyId, mobile: Mobile, direct: bool)
    requires Tidy(w) && !Refused(w, company, mobile)
    ensures Tidy(Invited(w, company, mobile, direct))
  {
    PairIdIs(w, company, mobile);
    var w' := Invited(w, company, mobile, direct);
    var id := PairId(w, company, mobile);
    forall c: CompanyId, m: Mobile ensures (c, m) in w'.ties <==> Tied(w', c, m) {
      if (c, m) == (company, mobile) {
        assert IsPair(w'.invites[id], c, m) && w'.invites[id].revokedAt.None?;
      } else if (c, m) in w.ties {
        var j :| j in w.invites && IsPair(w.invites[j], c, m) && w.invites[j].revokedAt.None?;
        assert j in w'.invites && w'.invites[j] == w.invites[j];
      }
    }
  }

  lemma RemoveKeepsTidy(w: World, company: CompanyId, mobile: Mobile)
    requires Tidy(w)
    ensures Tidy(Apply(w, Remove(company, mobile)))
  {
    PairIdIs(w, company, mobile);
    TiesWithout(w, Apply(w, Remove(company, mobile)), PairId(w, company, mobile), company, mobile);
  }

  lemma TiesWithout(w: World, w': World, id: InviteId, c: CompanyId, m: Mobile)
    requires Tidy(w) && (id in w.invites ==> IsPair(w.invites[id], c, m))
    requires if id in w.invites && w.invites[id].revokedAt.None? then
               w'.invites == w.invites[id := w.invites[id].(revokedAt := Some(w.now))] && w'.ties == w.ties - {(c, m)}
             else w'.invites == w.invites && w'.ties == w.ties
    ensures TiesMatch(w')
  {
    forall a: CompanyId, b: Mobile ensures (a, b) in w'.ties <==> Tied(w', a, b) {
      if (a, b) in w'.ties {
        var j :| j in w.invites && IsPair(w.invites[j], a, b) && w.invites[j].revokedAt.None?;
        assert j in w'.invites && w'.invites[j] == w.invites[j];
      }
      if j :| j in w'.invites && IsPair(w'.invites[j], a, b) && w'.invites[j].revokedAt.None? {
        assert w.invites[j] == w'.invites[j];
      }
    }
  }

  lemma ExpireKeepsTidy(w: World, id: InviteId)
    requires Tidy(w) && id in w.selected
    ensures Tidy(Apply(w, ExpireRow(id)))
  {
    if Revokes(w, id) {
      var i := w.invites[id];
      var mid := w.(invites := w.invites[id := i.(revokedAt := Some(w.now))], ties := w.ties - {(i.inviter, i.driver)}, selected := w.selected - {id});
      TiesWithout(w, mid, id, i.inviter, i.driver);
      assert Tidy(mid);
      if Deletes(w, id) {
        assert Apply(w, ExpireRow(id)) == WithoutAccount(mid, i.driver);
        DeletingKeepsTidy(mid, i.driver);
      }
    }
  }

  lemma DeletingKeepsTidy(w: World, mobile: Mobile)
    requires Tidy(w)
    ensures Tidy(WithoutAccount(w, mobile))
  {
    var w' := WithoutAccount(w, mobile);
    forall c: CompanyId, m: Mobile ensures (c, m) in w'.ties <==> Tied(w', c, m) {
      if (c, m) in w'.ties {
        var j :| j in w.invites && IsPair(w.invites[j], c, m) && w.invites[j].revokedAt.None?;
        assert j in w'.invites;
      }
    }
  }

  lemma SameTies(w: World, w': World)
    requires Tidy(w) && w'.ties == w.ties && w'.invites.Keys == w.invites.Keys
    requires forall id :: id in w.invites ==>
               IsPair(w'.invites[id], w.invites[id].inviter, w.invites[id].driver) && w'.invites[id].revokedAt == w.invites[id].revokedAt
    ensures TiesMatch(w')
  {
    forall a: CompanyId, b: Mobile ensures (a, b) in w'.ties <==> Tied(w', a, b) {
      if (a, b) in w.ties {
        var j :| j in w.invites && IsPair(w.invites[j], a, b) && w.invites[j].revokedAt.None?;
        assert j in w'.invites && IsPair(w'.invites[j], a, b);
      }
      if j :| j in w'.invites && IsPair(w'.invites[j], a, b) && w'.invites[j].revokedAt.None? {
        assert j in w.invites && IsPair(w.invites[j], a, b);
      }
    }
  }

  lemma UsesKeepTidy(w: World, e: Event)
    requires Tidy(w) && Enabled(w, e) && (e.MarkUsed? || e.UseLink?)
    ensures Tidy(Apply(w, e))
  {
    SameTies(w, Apply(w, e));
  }

  lemma OthersKeepTidy(w: World, e: Event)
    requires Tidy(w) && Enabled(w, e)
    requires e.Tick? || e.MakeAccount? || e.TakeRole? || e.LinkMessenger? || e.OpenLink? || e.Select?
    ensures Tidy(Apply(w, e))
  {
    SameTies(w, Apply(w, e));
  }

  /** Every event keeps the rows tidy, however late a link is written. */
  lemma StepKeepsTidy(w: World, e: Event)
    requires Tidy(w) && Enabled(w, e)
    ensures Tidy(Apply(w, e))
  {
    match e {
      case InviteDriver(company, mobile, direct) =>
        if !Refused(w, company, mobile) { InviteKeepsTidy(w, company, mobile, direct); }
      case Remove(company, mobile) => RemoveKeepsTidy(w, company, mobile);
      case ExpireRow(id) => ExpireKeepsTidy(w, id);
      case MarkUsed(_) => UsesKeepTidy(w, e);
      case UseLink(_) => UsesKeepTidy(w, e);
      case _ => OthersKeepTidy(w, e);
    }
  }

  lemma {:induction false} RunKeepsTidy(w: World, es: seq<Event>)
    requires Tidy(w) && CanRun(w, es)
    ensures Tidy(Run(w, es))
    decreases |es|
  {
    if es != [] {
      StepKeepsTidy(w, es[0]);
      RunKeepsTidy(Apply(w, es[0]), es[1..]);
    }
  }

  //#endregion

  //#region At most one invite waits

  lemma InviteKeepsSettled(w: World, company: CompanyId, mobile: Mobile, direct: bool)
    requires Inv(w) && !Refused(w, company, mobile)
    ensures Settled(Invited(w, company, mobile, direct))
  {
    PairIdIs(w, company, mobile);
    var w' := Invited(w, company, mobile, direct);
    var id := PairId(w, company, mobile);
    // before: this company's row waits (alone), or none of the driver's does and none was used
    if exists j :: WaitsFor(w, j, mobile) {
      var j :| WaitsFor(w, j, mobile);
      assert w.invites[j] in RowsOf(w, mobile);
      var i :| i in RowsOf(w, mobile) && Waiting(i, w.now) && i.inviter == company;
      assert WaitsFor(w, id, mobile);
      assert !IsUsed(w, mobile);
    } else if IsUsed(w, mobile) {
      ClosedIsRefused(w, company, mobile);
    }
    forall j, m | WaitsFor(w', j, m) ensures WaitsFor(w, j, m) || (j == id && m == mobile) {}
    forall m | IsUsed(w', m) ensures IsUsed(w, m) || (m == mobile && direct) {
      var j :| j in w'.invites && w'.invites[j].driver == m && w'.invites[j].usedAt.Some?;
      if j != id { assert j in w.invites; }
    }
  }

  /** Rows that stay or only become used or revoked keep at most one waiting. */
  lemma NoNewWaiting(w: World, w': World)
    requires Settled(w) && w'.now >= w.now
    requires forall id, m :: WaitsFor(w', id, m) ==> WaitsFor(w, id, m)
    requires forall m :: IsUsed(w', m) && !IsUsed(w, m) ==> forall id :: !WaitsFor(w', id, m)
    ensures Settled(w')
  {
  }

  lemma MarkKeepsSettled(w: World, mobile: Mobile)
    requires Inv(w)
    ensures Settled(Apply(w, MarkUsed(mobile)))
  {
    var w' := Apply(w, MarkUsed(mobile));
    forall m | IsUsed(w', m) && !IsUsed(w, m) ensures m == mobile {
      var j :| j in w'.invites && w'.invites[j].driver == m && w'.invites[j].usedAt.Some?;
      assert j in w.invites;
    }
    NoNewWaiting(w, w');
  }

  /**
   * The read of a link and its write are two statements: written late, it leaves a used invite beside one that waits
   * exactly when another invite waits for its driver by then.
   */
  lemma LateLinkUnsettlesExactly(w: World, id: InviteId)
    requires Inv(w) && id in w.links
    ensures Settled(Apply(w, UseLink(id))) <==> Harmless(w, UseLink(id))
  {
    var w' := Apply(w, UseLink(id));
    if id in w.invites {
      var driver := w.invites[id].driver;
      assert w'.invites[id].usedAt.Some? && IsUsed(w', driver);
      if Harmless(w, UseLink(id)) {
        forall m | IsUsed(w', m) && !IsUsed(w, m) ensures m == driver {
          var j :| j in w'.invites && w'.invites[j].driver == m && w'.invites[j].usedAt.Some?;
        }
        NoNewWaiting(w, w');
      } else {
        var j :| j in w.invites && j != id && WaitsFor(w, j, driver);
        assert WaitsFor(w', j, driver);
      }
    } else {
      assert w' == w;
    }
  }

  /** A link written while its own invite is still in force is harmless. */
  lemma TimelyLinkIsHarmless(w: World, id: InviteId)
    requires Inv(w) && id in w.invites && w.invites[id].revokedAt.None? && !Expired(w.invites[id], w.now)
    ensures Harmless(w, UseLink(id))
  {
    var driver := w.invites[id].driver;
    assert IsUsed(w, driver) || WaitsFor(w, id, driver);
  }

  lemma OthersKeepSettled(w: World, e: Event)
    requires Inv(w) && Enabled(w, e) && !e.InviteDriver? && !e.MarkUsed? && !e.UseLink?
    ensures Settled(Apply(w, e))
  {
    var w' := Apply(w, e);
    if e.Remove? { PairIdIs(w, e.company, e.mobile); }
    forall m | IsUsed(w', m) ensures IsUsed(w, m) {
      var j :| j in w'.invites && w'.invites[j].driver == m && w'.invites[j].usedAt.Some?;
      assert j in w.invites && w.invites[j].usedAt.Some?;
    }
    NoNewWaiting(w, w');
  }

  lemma StepKeepsInv(w: World, e: Event)
    requires Inv(w) && Enabled(w, e)
    ensures Tidy(Apply(w, e)) && (Settled(Apply(w, e)) <==> Harmless(w, e))
  {
    StepKeepsTidy(w, e);
    match e {
      case InviteDriver(company, mobile, direct) =>
        if !Refused(w, company, mobile) { InviteKeepsSettled(w, company, mobile, direct); }
      case MarkUsed(mobile) => MarkKeepsSettled(w, mobile);
      case UseLink(id) => LateLinkUnsettlesExactly(w, id);
      case _ => OthersKeepSettled(w, e);
    }
  }

  ghost predicate HarmlessRun(w: World, es: seq<Event>)
    requires CanRun(w, es)
    decreases |es|
  {
    es == [] || (Harmless(w, es[0]) && HarmlessRun(Apply(w, es[0]), es[1..]))
  }

  ghost predicate SettledThroughout(w: World, es: seq<Event>)
    requires CanRun(w, es)
    decreases |es|
  {
    Settled(w) && (es == [] || SettledThroughout(Apply(w, es[0]), es[1..]))
  }

  lemma {:induction false} RunKeepsInv(w: World, es: seq<Event>)
    requires Inv(w) && CanRun(w, es)
    ensures SettledThroughout(w, es) <==> HarmlessRun(w, es)
    ensures HarmlessRun(w, es) ==> Inv(Run(w, es))
    decreases |es|
  {
    if es != [] {
      StepKeepsInv(w, es[0]);
      if Harmless(w, es[0]) {
        RunKeepsInv(Apply(w, es[0]), es[1..]);
      } else {
        assert !SettledThroughout(Apply(w, es[0]), es[1..]);
      }
    }
  }

  /**
   * In every run from the first invite on in which each opened link is written while no other invite waits for its
   * driver: a driver has at most one invite waiting for it, and once any was used none waits. In every other run this
   * fails at some moment.
   */
  lemma AtMostOneWaits(now: int, es: seq<Event>)
    requires CanRun(Empty(now), es)
    ensures HarmlessRun(Empty(now), es) <==> SettledThroughout(Empty(now), es)
    ensures HarmlessRun(Empty(now), es) ==>
              forall mobile: Mobile, a, b :: var w := Run(Empty(now), es);
                && (WaitsFor(w, a, mobile) && WaitsFor(w, b, mobile) ==> a == b)
                && (IsUsed(w, mobile) ==> !WaitsFor(w, a, mobile))
  {
    RunKeepsInv(Empty(now), es);
  }

  //#endregion

  //#region Coming in is final

  lemma StepKeepsUsed(w: World, e: Event, mobile: Mobile)
    requires Tidy(w) && Enabled(w, e) && IsUsed(w, mobile)
    ensures IsUsed(Apply(w, e), mobile)
  {
    var w' := Apply(w, e);
    var j :| j in w.invites && w.invites[j].driver == mobile && w.invites[j].usedAt.Some?;
    if e.InviteDriver? {
      PairIdIs(w, e.company, e.mobile);
      if e.mobile == mobile { UsedIsNotRenewed(w, e.company, mobile, e.direct, j); }
    } else if e.Remove? {
      PairIdIs(w, e.company, e.mobile);
    }
    assert j in w'.invites && w'.invites[j].driver == mobile && w'.invites[j].usedAt.Some?;
  }

  /** A used row is never renewed: with one, only a company whose own invite waits may invite, and that one is kept. */
  lemma UsedIsNotRenewed(w: World, company: CompanyId, mobile: Mobile, direct: bool, id: InviteId)
    requires Tidy(w) && id in w.invites && w.invites[id].driver == mobile && w.invites[id].usedAt.Some?
    ensures var w' := Apply(w, InviteDriver(company, mobile, direct)); id in w'.invites && w'.invites[id] == w.invites[id]
  {
    PairIdIs(w, company, mobile);
    assert w.invites[id] in RowsOf(w, mobile);
    if !Refused(w, company, mobile) {
      var i :| i in RowsOf(w, mobile) && Waiting(i, w.now) && i.inviter == company;
      var k :| k in w.invites && w.invites[k].driver == mobile && w.invites[k] == i;
      assert k == PairId(w, company, mobile) != id;
    }
  }

  /** Nobody waits for a driver any of whose invites was used. */
  ghost predicate Closed(w: World, mobile: Mobile) {
    IsUsed(w, mobile) && forall id :: !WaitsFor(w, id, mobile)
  }

  lemma ClosedIsRefused(w: World, company: CompanyId, mobile: Mobile)
    requires Tidy(w) && Closed(w, mobile)
    ensures Refused(w, company, mobile)
  {
    var j :| j in w.invites && w.invites[j].driver == mobile && w.invites[j].usedAt.Some?;
    assert w.invites[j] in RowsOf(w, mobile);
    forall i | i in RowsOf(w, mobile) ensures !Waiting(i, w.now) {
      var k :| k in w.invites && w.invites[k].driver == mobile && w.invites[k] == i;
      assert !WaitsFor(w, k, mobile);
    }
  }

  lemma StepKeepsClosed(w: World, e: Event, mobile: Mobile)
    requires Tidy(w) && Enabled(w, e) && Closed(w, mobile)
    ensures Closed(Apply(w, e), mobile)
  {
    StepKeepsUsed(w, e, mobile);
    if e.InviteDriver? {
      PairIdIs(w, e.company, e.mobile);
      if e.mobile == mobile { ClosedIsRefused(w, e.company, mobile); }
    } else if e.Remove? {
      PairIdIs(w, e.company, e.mobile);
    }
    forall id ensures !WaitsFor(Apply(w, e), id, mobile) {
      assert !WaitsFor(w, id, mobile);
    }
  }

  /**
   * Coming in is final: once an invite of a driver was used, whatever follows (invites, renewals, registrations,
   * removals, sign-ins, links written however late, sweeps, time) its account is never deleted and stays used; and once
   * none waits for it besides, none ever does again and no company can invite it.
   */
  lemma {:induction false} ComingInIsFinal(w: World, es: seq<Event>, mobile: Mobile)
    requires Tidy(w) && CanRun(w, es) && IsUsed(w, mobile)
    ensures var w' := Run(w, es);
            && mobile in w'.accounts && IsUsed(w', mobile)
            && (Closed(w, mobile) ==> Closed(w', mobile) && forall company :: Refused(w', company, mobile))
    decreases |es|
  {
    if es == [] {
      if Closed(w, mobile) {
        forall company ensures Refused(w, company, mobile) { ClosedIsRefused(w, company, mobile); }
      }
    } else {
      StepKeepsUsed(w, es[0], mobile);
      if Closed(w, mobile) { StepKeepsClosed(w, es[0], mobile); }
      StepKeepsTidy(w, es[0]);
      ComingInIsFinal(Apply(w, es[0]), es[1..], mobile);
    }
  }

  //#endregion

  //#region The sweep

  /** Rows of the sweep's SELECT either kept their day or were renewed after it. */
  lemma {:induction false} RenewedOrUnchanged(w: World, es: seq<Event>, since: int, id: InviteId)
    requires Tidy(w) && CanRun(w, es) && since <= w.now
    requires id < w.next && id in w.invites ==> w.invites[id].createdAt >= since || w.invites[id].createdAt < since - LIFE_MS
    requires id < w.next
    ensures id in Run(w, es).invites ==> Run(w, es).invites[id].createdAt >= since || Run(w, es).invites[id].createdAt < since - LIFE_MS
    decreases |es|
  {
    if es != [] {
      var w' := Apply(w, es[0]);
      StepKeepsTidy(w, es[0]);
      if es[0].InviteDriver? { PairIdIs(w, es[0].company, es[0].mobile); }
      if es[0].Remove? { PairIdIs(w, es[0].company, es[0].mobile); }
      RenewedOrUnchanged(w', es[1..], since, id);
    }
  }

  /**
   * With anything at all between the sweep's SELECT and a row's transaction, links written late among it: the
   * transaction never revokes a used invite, and revokes one whose link works exactly when that row was renewed after
   * the SELECT (less than a day ago).
   */
  lemma SweepRevokesWorkingOnlyIfRenewed(w: World, es: seq<Event>, id: InviteId)
    requires Tidy(w) && CanRun(Apply(w, Select), es)
    requires id in Apply(w, Select).selected
    ensures var w' := Run(Apply(w, Select), es);
            Revokes(w', id) ==>
              && w'.invites[id].usedAt.None?
              && (Waiting(w'.invites[id], w'.now) <==> w'.invites[id].createdAt >= w.now && w'.now - w'.invites[id].createdAt <= LIFE_MS)
  {
    var w1 := Apply(w, Select);
    StepKeepsTidy(w, Select);
    RenewedOrUnchanged(w1, es, w.now, id);
    TimePasses(w1, es);
  }

  lemma {:induction false} TimePasses(w: World, es: seq<Event>)
    requires CanRun(w, es)
    ensures Run(w, es).now >= w.now
    decreases |es|
  {
    if es != [] { TimePasses(Apply(w, es[0]), es[1..]); }
  }

  /**
   * A row's transaction that deletes an account: none of its invites was used or is still in force but that row, it has
   * no messenger, and nothing of it is left.
   */
  ghost predicate DeletesUnclaimed(w: World, id: InviteId, mobile: Mobile) {
    && id in w.selected && Revokes(w, id) && w.invites[id].driver == mobile
    && mobile in w.accounts && !w.accounts[mobile].linked && !IsUsed(w, mobile)
    && (forall j :: j in w.invites && w.invites[j].driver == mobile && j != id ==> w.invites[j].revokedAt.Some?)
    && (forall j :: j in Apply(w, ExpireRow(id)).invites ==> Apply(w, ExpireRow(id)).invites[j].driver != mobile)
    && forall c: CompanyId :: (c, mobile) !in Apply(w, ExpireRow(id)).ties
  }

  lemma SweepDeletesOnlyUnclaimed(w: World, e: Event, mobile: Mobile)
    requires Enabled(w, e) && mobile in w.accounts && mobile !in Apply(w, e).accounts
    ensures e.ExpireRow? && DeletesUnclaimed(w, e.id, mobile)
  {
  }

  /** An account that is gone in any run went by such a transaction, at some moment of the run. */
  lemma {:induction false} GoneAccountWasUnclaimed(w: World, es: seq<Event>, mobile: Mobile) returns (k: nat)
    requires CanRun(w, es) && mobile in w.accounts && mobile !in Run(w, es).accounts
    ensures k < |es| && CanRun(w, es[..k])
    ensures es[k].ExpireRow? && DeletesUnclaimed(Run(w, es[..k]), es[k].id, mobile)
    decreases |es|
  {
    if mobile !in Apply(w, es[0]).accounts {
      SweepDeletesOnlyUnclaimed(w, es[0], mobile);
      return 0;
    }
    var j := GoneAccountWasUnclaimed(Apply(w, es[0]), es[1..], mobile);
    k := j + 1;
    assert es[..k][1..] == es[1..][..j];
  }

  /** An account with a messenger stays, in every run from any state. */
  lemma {:induction false} LinkedStays(w: World, es: seq<Event>, mobile: Mobile)
    requires CanRun(w, es) && mobile in w.accounts && w.accounts[mobile].linked
    ensures mobile in Run(w, es).accounts && Run(w, es).accounts[mobile].linked
    decreases |es|
  {
    if es != [] {
      LinkedStays(Apply(w, es[0]), es[1..], mobile);
    }
  }

  /**
   * An account of another kind keeps its kind and stays, in every run from a tidy state, and no company ever invites it or
   * has it among its drivers.
   */
  lemma {:induction false} OtherKindIsNeverInvited(w: World, es: seq<Event>, mobile: Mobile)
    requires Tidy(w) && CanRun(w, es) && mobile in w.accounts && w.accounts[mobile].role.OtherRole?
    ensures mobile in Run(w, es).accounts && Run(w, es).accounts[mobile].role.OtherRole?
    ensures forall id :: id in Run(w, es).invites ==> Run(w, es).invites[id].driver != mobile
    ensures forall company: CompanyId :: (company, mobile) !in Run(w, es).ties
    decreases |es|
  {
    if es == [] {
      forall company: CompanyId ensures (company, mobile) !in w.ties {
        assert !Tied(w, company, mobile);
      }
    } else {
      OtherKindStays(w, es[0], mobile);
      StepKeepsTidy(w, es[0]);
      OtherKindIsNeverInvited(Apply(w, es[0]), es[1..], mobile);
    }
  }

  lemma OtherKindStays(w: World, e: Event, mobile: Mobile)
    requires Tidy(w) && Enabled(w, e) && mobile in w.accounts && w.accounts[mobile].role.OtherRole?
    ensures mobile in Apply(w, e).accounts && Apply(w, e).accounts[mobile].role.OtherRole?
  {
  }

  //#endregion

  //#region What a renewal costs

  lemma RowOf(w: World, mobile: Mobile, i: Invite) returns (id: InviteId)
    requires i in RowsOf(w, mobile)
    ensures id in w.invites && w.invites[id].driver == mobile && w.invites[id] == i
  {
    id :| id in w.invites && w.invites[id].driver == mobile && w.invites[id] == i;
  }

  /**
   * A driver nobody came in as and no invite waits for may be invited, by any company, exactly if one of its invites was
   * made within a minute of its account. A renewal moves when an invite was made.
   */
  lemma RefusedExactly(w: World, company: CompanyId, mobile: Mobile)
    requires mobile in w.accounts && w.accounts[mobile].role.Driver?
    requires !IsUsed(w, mobile) && forall id :: !WaitsFor(w, id, mobile)
    ensures Refused(w, company, mobile)
       <==> forall id :: id in w.invites && w.invites[id].driver == mobile ==>
              Abs(w.invites[id].createdAt - w.accounts[mobile].createdAt) >= MADE_MS
  {
    forall i | i in RowsOf(w, mobile) ensures !Waiting(i, w.now) && i.usedAt.None? {
      var id := RowOf(w, mobile, i);
      assert !WaitsFor(w, id, mobile);
    }
    forall id | id in w.invites && w.invites[id].driver == mobile ensures w.invites[id] in RowsOf(w, mobile) {}
  }

  /** An account an invite made, whose day ended unused and not renewed, may still be invited, by any company. */
  lemma FirstInviteMayBeRepeated(w: World, company: CompanyId, mobile: Mobile, id: InviteId)
    requires mobile in w.accounts && w.accounts[mobile].role.Driver?
    requires id in w.invites && w.invites[id].driver == mobile
    requires Abs(w.invites[id].createdAt - w.accounts[mobile].createdAt) < MADE_MS
    requires !IsUsed(w, mobile) && forall j :: !WaitsFor(w, j, mobile)
    ensures !Refused(w, company, mobile)
  {
    RefusedExactly(w, company, mobile);
  }

  /** A driver with no invite waiting and none made within a minute of its account, or at a minute of it. */
  ghost predicate Stranded(w: World, mobile: Mobile) {
    && mobile in w.accounts && w.accounts[mobile].role.Driver?
    && forall id :: id in w.invites && w.invites[id].driver == mobile ==>
         !Waiting(w.invites[id], w.now) && Abs(w.invites[id].createdAt - w.accounts[mobile].createdAt) > MADE_MS
  }

  lemma StrandedIsRefused(w: World, company: CompanyId, mobile: Mobile)
    requires Tidy(w) && Stranded(w, mobile)
    ensures Refused(w, company, mobile)
  {
    forall id ensures !WaitsFor(w, id, mobile) {}
    if IsUsed(w, mobile) {
      ClosedIsRefused(w, company, mobile);
    } else {
      RefusedExactly(w, company, mobile);
    }
  }

  lemma InviteKeepsStranded(w: World, company: CompanyId, m: Mobile, direct: bool, mobile: Mobile)
    requires Tidy(w) && Stranded(w, mobile)
    ensures Stranded(Apply(w, InviteDriver(company, m, direct)), mobile)
  {
    PairIdIs(w, company, m);
    if m == mobile { StrandedIsRefused(w, company, m); }
  }

  lemma ExpireKeepsStranded(w: World, id: InviteId, mobile: Mobile)
    requires id in w.selected && Stranded(w, mobile)
    ensures Stranded(Apply(w, ExpireRow(id)), mobile)
  {
    if Revokes(w, id) && w.invites[id].driver == mobile { assert !Deletes(w, id); }
  }

  lemma StepKeepsStranded(w: World, e: Event, mobile: Mobile)
    requires Tidy(w) && Enabled(w, e) && Stranded(w, mobile)
    ensures Stranded(Apply(w, e), mobile)
  {
    match e {
      case InviteDriver(company, m, direct) => InviteKeepsStranded(w, company, m, direct, mobile);
      case Remove(company, m) => PairIdIs(w, company, m);
      case ExpireRow(id) => ExpireKeepsStranded(w, id, mobile);
      case _ =>
    }
  }

  /** Such an account stays so in every run: never invited again, and never deleted although nobody used it. */
  lemma {:induction false} StrandedForever(w: World, es: seq<Event>, mobile: Mobile)
    requires Tidy(w) && CanRun(w, es) && Stranded(w, mobile)
    ensures Stranded(Run(w, es), mobile) && forall company :: Refused(Run(w, es), company, mobile)
    decreases |es|
  {
    forall company ensures Refused(w, company, mobile) { StrandedIsRefused(w, company, mobile); }
    if es != [] {
      StepKeepsStranded(w, es[0], mobile);
      StepKeepsTidy(w, es[0]);
      StrandedForever(Apply(w, es[0]), es[1..], mobile);
    }
  }

  lemma RunOne(w: World, e: Event)
    requires Enabled(w, e)
    ensures CanRun(w, [e]) && Run(w, [e]) == Apply(w, e) && (Harmless(w, e) ==> HarmlessRun(w, [e]))
  {
    assert [e][1..] == [];
  }

  lemma {:induction false} Extend(w: World, es: seq<Event>, v: World, e: Event)
    requires CanRun(w, es) && Run(w, es) == v && Enabled(v, e)
    ensures CanRun(w, es + [e]) && Run(w, es + [e]) == Apply(v, e)
    ensures HarmlessRun(w, es) && Harmless(v, e) ==> HarmlessRun(w, es + [e])
    decreases |es|
  {
    if es == [] {
      RunOne(w, e);
      assert es + [e] == [e];
    } else {
      Extend(Apply(w, es[0]), es[1..], v, e);
      assert (es + [e])[0] == es[0] && (es + [e])[1..] == es[1..] + [e];
    }
  }

  /** One driver, invited by company 0 at time 0 and by nobody else. */
  function OneInvite(now: int, row: Invite): World {
    Empty(now).(accounts := map[7 := Account(0, Driver, false)], invites := map[0 := row], ties := {(0, 7)}, next := 1)
  }

  lemma FirstInvite(w: World) returns (es: seq<Event>)
    requires w == Empty(0)
    ensures CanRun(w, es) && HarmlessRun(w, es) && Run(w, es) == OneInvite(0, Invite(0, 7, 0, None, None))
  {
    es := [InviteDriver(0, 7, false)];
    RunOne(w, es[0]);
    assert Apply(w, es[0]).ties == {(0, 7)};
  }

  lemma Renewal(w: World, row: Invite, now: int)
    requires w == OneInvite(now, row) && row.inviter == 0 && row.driver == 7 && !Waiting(row, now)
    requires row.usedAt.None? && Abs(row.createdAt) < MADE_MS
    ensures !Refused(w, 0, 7) && Invited(w, 0, 7, false) == OneInvite(now, Invite(0, 7, now, None, None))
  {
    assert row in RowsOf(w, 7) by { assert w.invites[0] == row; }
    assert IsPair(w.invites[0], 0, 7);
  }

  /**
   * The documented rule, that an account only an invite made may be invited again once that invite's day is over, fails
   * after one renewal: it moves createdAt, by which the account's own invite is told.
   */
  lemma RenewalStrandsTheAccount(w: World) returns (es: seq<Event>)
    requires w == Empty(0)
    ensures CanRun(w, es) && HarmlessRun(w, es)
    ensures Stranded(Run(w, es), 7) && !IsUsed(Run(w, es), 7)
  {
    es := FirstInvite(w);
    var v := OneInvite(0, Invite(0, 7, 0, None, None));
    Extend(w, es, v, Tick(LIFE_MS + 1));
    es, v := es + [Tick(LIFE_MS + 1)], OneInvite(LIFE_MS + 1, Invite(0, 7, 0, None, None));
    Renewal(v, v.invites[0], LIFE_MS + 1);
    Extend(w, es, v, InviteDriver(0, 7, false));
    es, v := es + [InviteDriver(0, 7, false)], OneInvite(LIFE_MS + 1, Invite(0, 7, LIFE_MS + 1, None, None));
    Extend(w, es, v, Tick(LIFE_MS + 1));
    es, v := es + [Tick(LIFE_MS + 1)], OneInvite(2 * LIFE_MS + 2, Invite(0, 7, LIFE_MS + 1, None, None));
  }

  /** A row renewed between the sweep's SELECT and its transaction is revoked while its link works. */
  lemma RenewedRowIsRevoked(w: World) returns (es: seq<Event>)
    requires w == Empty(0)
    ensures CanRun(w, es) && HarmlessRun(w, es) && Enabled(Run(w, es), ExpireRow(0))
    ensures WaitsFor(Run(w, es), 0, 7)
    ensures var w' := Apply(Run(w, es), ExpireRow(0)); 0 in w'.invites && w'.invites[0].revokedAt.Some?
  {
    es := FirstInvite(w);
    var v := OneInvite(0, Invite(0, 7, 0, None, None));
    Extend(w, es, v, Tick(LIFE_MS + 1));
    es, v := es + [Tick(LIFE_MS + 1)], OneInvite(LIFE_MS + 1, Invite(0, 7, 0, None, None));
    Extend(w, es, v, Select);
    es, v := es + [Select], v.(selected := map[0 := 0]);
    var row := Invite(0, 7, LIFE_MS + 1, None, None);
    var u := v.(selected := map[]);
    Renewal(u, v.invites[0], LIFE_MS + 1);
    assert IsPair(v.invites[0], 0, 7) && RowsOf(v, 7) == RowsOf(u, 7);
    Extend(w, es, v, InviteDriver(0, 7, false));
    es := es + [InviteDriver(0, 7, false)];
    assert Run(w, es).invites[0] == row;
    assert !Deletes(Run(w, es), 0);
  }

  /** A link opened in its last moment and written after another company's invite leaves one used and one waiting. */
  lemma LateLinkLeavesTwo(w: World) returns (es: seq<Event>)
    requires w == Empty(0)
    ensures CanRun(w, es) && IsUsed(Run(w, es), 7) && WaitsFor(Run(w, es), 1, 7)
  {
    es := FirstInvite(w);
    var v := OneInvite(0, Invite(0, 7, 0, None, None));
    Extend(w, es, v, Tick(LIFE_MS));
    es, v := es + [Tick(LIFE_MS)], OneInvite(LIFE_MS, Invite(0, 7, 0, None, None));
    Extend(w, es, v, OpenLink(0));
    es, v := es + [OpenLink(0)], v.(links := {0});
    Extend(w, es, v, Tick(1));
    es, v := es + [Tick(1)], v.(now := LIFE_MS + 1);
    assert v.invites[0] in RowsOf(v, 7) && !Waiting(v.invites[0], v.now);
    assert !Refused(v, 1, 7);
    Extend(w, es, v, InviteDriver(1, 7, false));
    es, v := es + [InviteDriver(1, 7, false)], Apply(v, InviteDriver(1, 7, false));
    assert v.invites[1] == Invite(1, 7, LIFE_MS + 1, None, None) && v.invites[0] == Invite(0, 7, 0, None, None);
    Extend(w, es, v, UseLink(0));
    es := es + [UseLink(0)];
    assert Run(w, es).invites[0].usedAt.Some?;
  }

  //#endregion
}
