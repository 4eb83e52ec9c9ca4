/** DriverInviteService and the sweep over their tables, each operation proved to be its event of the invite machine. */
module InviteService {
  import opened Options
  import opened Invites
  import opened InviteSweep

  const MAX_DRIVER_INVITES: nat := 20

  datatype Outcome = NotInvited | Created(id: InviteId) | Added(id: InviteId)

  /** One line of a batch's answer. */
  datatype Line = BadNumber | Line(mobile: Mobile, outcome: Outcome)

  /** The valid numbers of a batch, each once, in the order they first come. */
  function FirstOnes(inputs: seq<Option<Mobile>>): seq<Mobile> {
    if inputs == [] then []
    else
      var before := FirstOnes(inputs[..|inputs| - 1]);
      var last := inputs[|inputs| - 1];
      if last.None? || last.value in before then before else before + [last.value]
  }

  /** The numbers a batch's answer speaks of. */
  function Numbers(lines: seq<Line>): seq<Mobile> {
    if lines == [] then []
    else Numbers(lines[..|lines| - 1]) + (if lines[|lines| - 1].Line? then [lines[|lines| - 1].mobile] else [])
  }

  /** What each line of an answer is about: a number, or an input that is none. */
  function Headings(lines: seq<Line>): seq<Option<Mobile>> {
    seq(|lines|, i requires 0 <= i < |lines| => if lines[i].Line? then Some(lines[i].mobile) else None)
  }

  /** The inputs that get a line: every bad one, and each number where it first comes. */
  function Listed(inputs: seq<Option<Mobile>>): seq<Option<Mobile>> {
    if inputs == [] then []
    else
      var before := inputs[..|inputs| - 1];
      var last := inputs[|inputs| - 1];
      Listed(before) + if last.Some? && last in before then [] else [last]
  }

  /** Each valid number of a batch once, and nothing else. */
  lemma {:induction false} FirstOnesAre(inputs: seq<Option<Mobile>>)
    ensures forall m :: m in FirstOnes(inputs) <==> Some(m) in inputs
    ensures forall i, j :: 0 <= i < j < |FirstOnes(inputs)| ==> FirstOnes(inputs)[i] != FirstOnes(inputs)[j]
  {
    if inputs != [] {
      var n := |inputs| - 1;
      FirstOnesAre(inputs[..n]);
      assert inputs == inputs[..n] + [inputs[n]];
    }
  }

  /** Each number's line says "not invited" exactly when the rules refuse it after the numbers before it. */
  ghost predicate Judged(w: World, company: CompanyId, direct: bool, lines: seq<Line>)
    decreases |lines|
  {
    lines == []
    || (var before, last := lines[..|lines| - 1], lines[|lines| - 1];
        && Judged(w, company, direct, before)
        && var es := InviteEvents(company, Numbers(before), direct);
           CanRun(w, es)
           && (last.Line? ==> (last.outcome.NotInvited? <==> Refused(Run(w, es), company, last.mobile))))
  }

  lemma OneMoreLine(lines: seq<Line>, line: Line)
    ensures Numbers(lines + [line]) == Numbers(lines) + (if line.Line? then [line.mobile] else [])
    ensures Headings(lines + [line]) == Headings(lines) + [if line.Line? then Some(line.mobile) else None]
  {
    assert (lines + [line])[..|lines|] == lines;
  }

  function InviteEvents(company: CompanyId, mobiles: seq<Mobile>, direct: bool): seq<Event> {
    seq(|mobiles|, i requires 0 <= i < |mobiles| => InviteDriver(company, mobiles[i], direct))
  }

  lemma InvitesCanRun(w: World, company: CompanyId, mobiles: seq<Mobile>, direct: bool)
    ensures CanRun(w, InviteEvents(company, mobiles, direct)) && HarmlessRun(w, InviteEvents(company, mobiles, direct))
    decreases |mobiles|
  {
    if mobiles != [] {
      var e := InviteDriver(company, mobiles[0], direct);
      InvitesCanRun(Apply(w, e), company, mobiles[1..], direct);
      assert InviteEvents(company, mobiles, direct)[1..] == InviteEvents(company, mobiles[1..], direct);
    }
  }

  lemma OneMoreJudged(w: World, company: CompanyId, direct: bool, lines: seq<Line>, line: Line, es: seq<Event>)
    requires Judged(w, company, direct, lines) && es == InviteEvents(company, Numbers(lines), direct) && CanRun(w, es)
    requires line.Line? ==> (line.outcome.NotInvited? <==> Refused(Run(w, es), company, line.mobile))
    ensures Judged(w, company, direct, lines + [line])
  {
    assert (lines + [line])[..|lines|] == lines;
  }

  /** Where a batch stands after some of its inputs: the run so far, and the lines so far. */
  ghost predicate Upto(w: World, company: CompanyId, direct: bool, inputs: seq<Option<Mobile>>, lines: seq<Line>, es: seq<Event>, now: World) {
    && es == InviteEvents(company, FirstOnes(inputs), direct) && CanRun(w, es) && now == Run(w, es)
    && Numbers(lines) == FirstOnes(inputs) && Headings(lines) == Listed(inputs) && Judged(w, company, direct, lines)
  }

  /** The answer speaks of exactly the valid numbers of the batch. */
  ghost predicate SameNumbers(lines: seq<Line>, inputs: seq<Option<Mobile>>) {
    forall m :: m in Numbers(lines) <==> Some(m) in inputs
  }

  lemma NumbersAre(w: World, company: CompanyId, direct: bool, inputs: seq<Option<Mobile>>, lines: seq<Line>, es: seq<Event>, now: World)
    requires Upto(w, company, direct, inputs, lines, es, now)
    ensures SameNumbers(lines, inputs)
  {
    FirstOnesAre(inputs);
  }

  lemma BadUpto(w: World, company: CompanyId, direct: bool, inputs: seq<Option<Mobile>>, lines: seq<Line>, es: seq<Event>, now: World)
    requires Upto(w, company, direct, inputs, lines, es, now)
    ensures Upto(w, company, direct, inputs + [None], lines + [BadNumber], es, now)
  {
    assert (inputs + [None])[..|inputs|] == inputs;
    OneMoreLine(lines, BadNumber);
    OneMoreJudged(w, company, direct, lines, BadNumber, es);
  }

  lemma RepeatUpto(w: World, company: CompanyId, direct: bool, inputs: seq<Option<Mobile>>, lines: seq<Line>, es: seq<Event>, now: World,
                   mobile: Mobile)
    requires Upto(w, company, direct, inputs, lines, es, now) && mobile in FirstOnes(inputs)
    ensures Upto(w, company, direct, inputs + [Some(mobile)], lines, es, now)
  {
    assert (inputs + [Some(mobile)])[..|inputs|] == inputs;
    FirstOnesAre(inputs);
  }

  lemma NumberUpto(w: World, company: CompanyId, direct: bool, inputs: seq<Option<Mobile>>, lines: seq<Line>, es: seq<Event>, now: World,
                   line: Line, es': seq<Event>, now': World)
    requires Upto(w, company, direct, inputs, lines, es, now) && line.Line? && line.mobile !in FirstOnes(inputs)
    requires es' == es + [InviteDriver(company, line.mobile, direct)] && CanRun(w, es') && now' == Run(w, es')
    requires line.outcome.NotInvited? <==> Refused(Run(w, es), company, line.mobile)
    ensures Upto(w, company, direct, inputs + [Some(line.mobile)], lines + [line], es', now')
  {
    assert (inputs + [Some(line.mobile)])[..|inputs|] == inputs;
    FirstOnesAre(inputs);
    OneMoreLine(lines, line);
    OneMoreJudged(w, company, direct, lines, line, es);
  }

  function StaleIds(w: World): set<InviteId> {
    set id | id in w.invites && IsStale(w.invites[id], w.now)
  }

  /** The stale ones: neither used nor revoked, and past their day. */
  lemma StaleAre(w: World)
    ensures forall id :: id in StaleIds(w) <==> (id in w.invites && w.invites[id].usedAt.None? && w.invites[id].revokedAt.None?
                                                && w.now - w.invites[id].createdAt > 86_400_000)
  {
  }

  /** What one row's transaction does to the rows: its own is revoked or gone, and nothing that is stale goes unnoticed. */
  lemma RowExpires(w: World, id: InviteId)
    requires id in StaleIds(w)
    ensures StaleIds(ExpiredRow(w, id)) == StaleIds(w) - {id}
    ensures UsedKept(w.invites, ExpiredRow(w, id).invites)
  {
    var w' := ExpiredRow(w, id);
    assert Revokes(w, id);
    forall j | j in w.invites && j != id && (IsStale(w.invites[j], w.now) || w.invites[j].usedAt.Some?)
      ensures j in w'.invites && w'.invites[j] == w.invites[j]
    {
    }
    forall j | j in StaleIds(w') ensures j in StaleIds(w) - {id} {
      assert w'.invites[j].revokedAt.None?;
    }
  }

  /** Every row that was used is as it was. */
  ghost predicate UsedKept(before: map<InviteId, Invite>, after: map<InviteId, Invite>) {
    forall id :: id in before && before[id].usedAt.Some? ==> id in after && after[id] == before[id]
  }

  lemma SweptRow(w: World, id: InviteId)
    requires id in w.selected
    ensures var w' := Apply(w, ExpireRow(id));
            UsedKept(w.invites, w'.invites) && (id in StaleIds(w) ==> StaleIds(w') == StaleIds(w) - {id})
  {
    if id in StaleIds(w) { RowExpires(w.(selected := w.selected - {id}), id); }
  }

  /** An event of the service, which writes a link as soon as it read it, keeps the rows tidy, and settled ones settled. */
  lemma ServiceKeeps(w: World, e: Event)
    requires Tidy(w) && Enabled(w, e) && !e.UseLink?
    ensures Keeps(w, Apply(w, e))
  {
    StepKeepsTidy(w, e);
    if Settled(w) { StepKeepsInv(w, e); }
  }

  ghost predicate Keeps(w: World, w': World) {
    Tidy(w') && (Settled(w) ==> Settled(w'))
  }

  lemma LinkKeeps(w: World, id: InviteId)
    requires Tidy(w) && Enabled(w, OpenLink(id))
    ensures Keeps(w, Apply(Apply(w, OpenLink(id)), UseLink(id)))
  {
    var w' := Apply(w, OpenLink(id));
    StepKeepsTidy(w, OpenLink(id));
    StepKeepsTidy(w', UseLink(id));
    if Settled(w) {
      StepKeepsInv(w, OpenLink(id));
      TimelyLinkIsHarmless(w', id);
      StepKeepsInv(w', UseLink(id));
    }
  }

  /** The rows of an order and those still to come are all the rows, none twice. */
  ghost predicate Split(all: set<InviteId>, left: set<InviteId>, order: seq<InviteId>) {
    && (forall id :: id in all <==> id in left || id in order) && (forall id :: id in order ==> id !in left)
    && forall i, j :: 0 <= i < j < |order| ==> order[i] != order[j]
  }

  lemma SplitMore(all: set<InviteId>, left: set<InviteId>, order: seq<InviteId>, id: InviteId)
    requires Split(all, left, order) && id in left
    ensures Split(all, left - {id}, order + [id])
  {
  }

  /** A sweep under way: the rows of order are done, those left are still to come. */
  ghost predicate Sweeping(before: World, start: World, now: World, all: set<InviteId>, left: set<InviteId>, order: seq<InviteId>) {
    && Keeps(before, now) && UsedKept(before.invites, now.invites) && now == Swept(start, order)
    && left == StaleIds(now) && left <= now.selected.Keys && Split(all, left, order)
  }

  lemma SweepGoesOn(before: World, start: World, now: World, all: set<InviteId>, left: set<InviteId>, order: seq<InviteId>, id: InviteId)
    requires Sweeping(before, start, now, all, left, order) && id in left && Tidy(before)
    ensures Revokes(now, id)
    ensures Sweeping(before, start, Apply(now, ExpireRow(id)), all, left - {id}, order + [id])
  {
    ServiceKeeps(now, ExpireRow(id));
    SweptRow(now, id);
    SplitMore(all, left, order, id);
    assert (order + [id])[..|order|] == order;
  }

  lemma SweepBegins(before: World, start: World)
    requires Tidy(before) && start == Apply(before, Select)
    ensures Sweeping(before, start, start, StaleIds(before), StaleIds(before), [])
  {
    ServiceKeeps(before, Select);
  }

  lemma SweepEnds(before: World, start: World, now: World, order: seq<InviteId>)
    requires Sweeping(before, start, now, StaleIds(before), {}, order)
    ensures StaleIds(now) == {} && WholeSweep(before, order)
  {
    forall i | 0 <= i < |order| ensures order[i] in StaleIds(before) {
      assert order[i] in order;
    }
  }

  /** Neither used nor revoked, and within its day. */
  predicate InForce(i: Invite, now: int) {
    i.usedAt.None? && i.revokedAt.None? && now - i.createdAt <= 86_400_000
  }

  /**
   * A driver's account is not invited exactly when no invite of the company's own is in force for it and either somebody
   * else's is, or one of its invites was used, or none of them was made within a minute of the account.
   */
  predicate MayNotInvite(invites: map<InviteId, Invite>, company: CompanyId, mobile: Mobile, made: int, now: int) {
    && (forall id :: id in invites && invites[id].driver == mobile && InForce(invites[id], now) ==> invites[id].inviter != company)
    && ((exists id :: id in invites && invites[id].driver == mobile && InForce(invites[id], now))
        || (exists id :: id in invites && invites[id].driver == mobile && invites[id].usedAt.Some?)
        || (forall id :: id in invites && invites[id].driver == mobile ==>
              invites[id].createdAt - made <= -60_000 || invites[id].createdAt - made >= 60_000))
  }

  /**
   * What an invite writes, and nothing else: the account is a driver's, the company is among its companies, and the row of
   * the two is in force with the time it had when it was in force already, or else from now; registered directly, it is used.
   */
  ghost predicate Admitted(w: World, w': World, company: CompanyId, mobile: Mobile, direct: bool, id: InviteId) {
    && w'.accounts == w.accounts[mobile := if mobile in w.accounts then Account(w.accounts[mobile].createdAt, Driver, w.accounts[mobile].linked)
                                           else Account(w.now, Driver, false)]
    && w'.ties == w.ties + {(company, mobile)}
    && id in w'.invites && w'.invites.Keys == w.invites.Keys + {id}
    && (forall j :: j in w.invites && j != id ==> w'.invites[j] == w.invites[j])
    && (forall j :: j in w.invites && w.invites[j].inviter == company && w.invites[j].driver == mobile ==> j == id)
    && w'.invites[id] == Invite(company, mobile, if id in w.invites && InForce(w.invites[id], w.now) then w.invites[id].createdAt else w.now,
                                if direct then Some(w.now) else None, None)
  }

  lemma AdmittedIs(w: World, company: CompanyId, mobile: Mobile, direct: bool)
    requires Tidy(w) && !Refused(w, company, mobile)
    ensures Admitted(w, Invited(w, company, mobile, direct), company, mobile, direct, PairId(w, company, mobile))
  {
    PairIdIs(w, company, mobile);
  }

  /**
   * What revoking row id does. The account goes with all its invites and ties exactly when the row was made within a minute
   * of it, it has no messenger, no invite of it was used and no other is unrevoked; else only the row and its tie change.
   */
  ghost predicate RowGone(w: World, w': World, id: InviteId)
    requires id in w.invites
  {
    var i := w.invites[id]; var m := i.driver;
    var goes := && m in w.accounts && -60_000 <= i.createdAt - w.accounts[m].createdAt <= 60_000 && !w.accounts[m].linked
                && (forall j :: j in w.invites && w.invites[j].driver == m ==> w.invites[j].usedAt.None?)
                && (forall j :: j in w.invites && w.invites[j].driver == m && j != id ==> w.invites[j].revokedAt.Some?);
    && (forall a :: a in w'.accounts <==> a in w.accounts && !(goes && a == m))
    && (forall a :: a in w'.accounts ==> w'.accounts[a] == w.accounts[a])
    && (forall j :: j in w'.invites <==> j in w.invites && !(goes && w.invites[j].driver == m))
    && (forall j :: j in w'.invites ==> w'.invites[j] == if j == id then i.(revokedAt := Some(w.now)) else w.invites[j])
    && (forall t :: t in w'.ties <==> t in w.ties && t != (i.inviter, m) && !(goes && t.1 == m))
  }

  lemma RowGoneIs(w: World, id: InviteId)
    requires Revokes(w, id)
    ensures RowGone(w, ExpiredRow(w, id), id)
  {
  }

  lemma MayNotInviteIs(w: World, company: CompanyId, mobile: Mobile, made: int)
    ensures Invitable(RowsOf(w, mobile), company, made, w.now) <==> !MayNotInvite(w.invites, company, mobile, made, w.now)
  {
    var rows := RowsOf(w, mobile);
    forall id | id in w.invites && w.invites[id].driver == mobile
      ensures w.invites[id] in rows && (Waiting(w.invites[id], w.now) <==> InForce(w.invites[id], w.now))
    {
    }
    forall i | i in rows ensures exists id :: id in w.invites && w.invites[id].driver == mobile && w.invites[id] == i {
    }
  }

  class InviteTables {
    var now: int
    var accounts: map<Mobile, Account>
    var invites: map<InviteId, Invite>
    var ties: set<(CompanyId, Mobile)>
    var next: InviteId
    ghost var selected: map<InviteId, int>
    ghost var links: set<InviteId>

    ghost function State(): World
      reads this
    {
      World(now, accounts, invites, ties, selected, links, next)
    }

    constructor (now: int)
      ensures State() == Empty(now) && Tidy(State()) && Settled(State())
    {
      this.now, next := now, 0;
      accounts, invites, ties := map[], map[], {};
      selected, links := map[], {};
    }

    method FindPair(company: CompanyId, mobile: Mobile) returns (id: InviteId)
      requires Tidy(State())
      ensures id == PairId(State(), company, mobile)
    {
      PairIdIs(State(), company, mobile);
      id := next;
      if exists j :: j in invites && IsPair(invites[j], company, mobile) {
        id :| id in invites && IsPair(invites[id], company, mobile);
      }
    }

    method Rows(mobile: Mobile) returns (rows: set<Invite>)
      ensures rows == RowsOf(State(), mobile)
    {
      rows := set id | id in invites && invites[id].driver == mobile :: invites[id];
    }

    method InviteOne(company: CompanyId, mobile: Mobile, direct: bool) returns (outcome: Outcome)
      requires Tidy(State())
      modifies this`accounts, this`invites, this`ties, this`next
      ensures Keeps(old(State()), State()) && State() == Apply(old(State()), InviteDriver(company, mobile, direct))
      ensures outcome.NotInvited? <==> Refused(old(State()), company, mobile)
      ensures outcome.Created? <==> mobile !in old(accounts) || old(accounts)[mobile].role.NoRole?
      ensures mobile in old(accounts) && old(accounts)[mobile].role.OtherRole? ==> outcome.NotInvited?
      ensures mobile in old(accounts) && old(accounts)[mobile].role.Driver? ==>
                (outcome.NotInvited? <==> MayNotInvite(old(invites), company, mobile, old(accounts)[mobile].createdAt, now))
      ensures outcome.NotInvited? ==> State() == old(State())
      ensures !outcome.NotInvited? ==>
                Admitted(old(State()), State(), company, mobile, direct, outcome.id)
    {
      ghost var w := State();
      ServiceKeeps(w, InviteDriver(company, mobile, direct));
      if mobile in accounts && accounts[mobile].role.OtherRole? { return NotInvited; }
      var created := mobile !in accounts || accounts[mobile].role.NoRole?;
      if !created {
        var rows := Rows(mobile);
        MayNotInviteIs(w, company, mobile, accounts[mobile].createdAt);
        if !Invitable(rows, company, accounts[mobile].createdAt, now) { return NotInvited; }
      }
      AdmittedIs(w, company, mobile, direct);
      var id := Admit(company, mobile, direct);
      outcome := if created then Created(id) else Added(id);
    }

    /** The writes of an invite that may go ahead. */
    method Admit(company: CompanyId, mobile: Mobile, direct: bool) returns (id: InviteId)
      requires Tidy(State())
      modifies this`accounts, this`invites, this`ties, this`next
      ensures State() == Invited(old(State()), company, mobile, direct) && id == PairId(old(State()), company, mobile)
    {
      id := FindPair(company, mobile);
      var account := if mobile in accounts then accounts[mobile].(role := Driver) else Account(now, Driver, false);
      accounts := accounts[mobile := account];
      ties := ties + {(company, mobile)};
      var row := Invite(company, mobile, now, None, None);
      if id in invites && Waiting(invites[id], now) { row := invites[id]; }
      if direct { row := row.(usedAt := if row.usedAt.Some? then row.usedAt else Some(now), revokedAt := None); }
      invites := invites[id := row];
      if id == next { next := next + 1; }
    }

    /** None: an empty batch, or more than 20. A refused or bad number does not stop the others. */
    method InviteAll(company: CompanyId, inputs: seq<Option<Mobile>>, direct: bool) returns (answer: Option<seq<Line>>)
      requires Tidy(State())
      modifies this`accounts, this`invites, this`ties, this`next
      ensures Keeps(old(State()), State()) && (answer.None? <==> |inputs| == 0 || |inputs| > 20)
      ensures answer.None? ==> State() == old(State())
      ensures answer.Some? ==>
                var es := InviteEvents(company, FirstOnes(inputs), direct);
                CanRun(old(State()), es) && State() == Run(old(State()), es)
      ensures answer.Some? ==> Numbers(answer.value) == FirstOnes(inputs) && Headings(answer.value) == Listed(inputs)
      ensures answer.Some? ==> SameNumbers(answer.value, inputs)
      ensures answer.Some? ==> Judged(old(State()), company, direct, answer.value)
    {
      if inputs == [] || |inputs| > MAX_DRIVER_INVITES { return None; }
      var outcomes: seq<Line> := [];
      var seen: set<Mobile> := {};
      ghost var done: seq<Event> := [];
      for i := 0 to |inputs|
        invariant Keeps(old(State()), State())
        invariant Upto(old(State()), company, direct, inputs[..i], outcomes, done, State())
        invariant forall m :: m in seen <==> m in FirstOnes(inputs[..i])
      {
        ghost var before := State();
        assert inputs[..i + 1] == inputs[..i] + [inputs[i]] && inputs[..i + 1][..i] == inputs[..i];
        if inputs[i].None? {
          BadUpto(old(State()), company, direct, inputs[..i], outcomes, done, before);
          outcomes := outcomes + [BadNumber];
        } else if inputs[i].value in seen {
          RepeatUpto(old(State()), company, direct, inputs[..i], outcomes, done, before, inputs[i].value);
        } else {
          var mobile := inputs[i].value;
          seen := seen + {mobile};
          var outcome := InviteNext(old(State()), done, company, mobile, direct);
          var line := Line(mobile, outcome);
          ghost var more := done + [InviteDriver(company, mobile, direct)];
          NumberUpto(old(State()), company, direct, inputs[..i], outcomes, done, before, line, more, State());
          outcomes, done := outcomes + [line], more;
        }
      }
      assert inputs[..|inputs|] == inputs;
      NumbersAre(old(State()), company, direct, inputs, outcomes, done, State());
      answer := Some(outcomes);
    }

    /** One number of a batch: the run so far goes on by its invite. */
    method InviteNext(ghost start: World, ghost done: seq<Event>, company: CompanyId, mobile: Mobile, direct: bool) returns (outcome: Outcome)
      requires Tidy(State()) && CanRun(start, done) && State() == Run(start, done)
      modifies this`accounts, this`invites, this`ties, this`next
      ensures Keeps(old(State()), State()) && CanRun(start, done + [InviteDriver(company, mobile, direct)])
      ensures State() == Run(start, done + [InviteDriver(company, mobile, direct)])
      ensures outcome.NotInvited? <==> Refused(Run(start, done), company, mobile)
    {
      Extend(start, done, State(), InviteDriver(company, mobile, direct));
      outcome := InviteOne(company, mobile, direct);
    }

    method RemoveDriver(company: CompanyId, mobile: Mobile) returns (found: bool)
      requires Tidy(State())
      modifies this`invites, this`ties
      ensures Keeps(old(State()), State()) && State() == Apply(old(State()), Remove(company, mobile))
      ensures found <==> (company, mobile) in old(ties)
      ensures ties == old(ties) - {(company, mobile)} && invites.Keys == old(invites).Keys
      ensures forall id :: id in old(invites) ==> (invites[id] ==
                if old(invites)[id].inviter == company && old(invites)[id].driver == mobile && old(invites)[id].revokedAt.None?
                then old(invites)[id].(revokedAt := Some(now)) else old(invites)[id])
    {
      ServiceKeeps(State(), Remove(company, mobile));
      PairIdIs(State(), company, mobile);
      var id := FindPair(company, mobile);
      found := id in invites && invites[id].revokedAt.None?;
      assert found <==> Tied(State(), company, mobile);
      if found {
        invites := invites[id := invites[id].(revokedAt := Some(now))];
        ties := ties - {(company, mobile)};
      }
    }

    /** Signing in by any way: every invite of the number counts as used, whatever its state. */
    method MarkInvitesUsed(mobile: Mobile)
      requires Tidy(State())
      modifies this`invites
      ensures Keeps(old(State()), State()) && State() == Apply(old(State()), MarkUsed(mobile))
      ensures forall id :: id in invites && invites[id].driver == mobile ==> invites[id].usedAt.Some?
      ensures invites.Keys == old(invites).Keys
      ensures forall id :: id in invites ==>
                (invites[id] == if old(invites)[id].driver == mobile && old(invites)[id].usedAt.None?
                                then old(invites)[id].(usedAt := Some(now)) else old(invites)[id])
      ensures forall id :: id in old(invites) && old(invites)[id].usedAt.Some? ==> id in invites && invites[id] == old(invites)[id]
    {
      ServiceKeeps(State(), MarkUsed(mobile));
      invites := map id | id in invites :: if invites[id].driver == mobile then Used(invites[id], now) else invites[id];
    }

    /** The link (or its code) in the hands of mobile; menu: the inviter still has its drivers' menu. */
    method IsInvited(id: InviteId, mobile: Mobile, menu: bool) returns (joined: bool)
      requires Tidy(State())
      modifies this`invites, this`links
      ensures Keeps(old(State()), State())
      ensures joined <==> (menu && id in old(invites) && old(invites)[id].driver == mobile && old(invites)[id].revokedAt.None?
                           && (old(invites)[id].usedAt.Some? || now - old(invites)[id].createdAt <= 86_400_000))
      ensures joined ==> id in invites && invites[id].usedAt.Some?
      ensures invites == if joined && old(invites)[id].usedAt.None? then old(invites)[id := old(invites)[id].(usedAt := Some(now))] else old(invites)
      ensures State() == if joined then Apply(Apply(old(State()), OpenLink(id)), UseLink(id)) else old(State())
    {
      joined := false;
      if id in invites && invites[id].revokedAt.None? && !Expired(invites[id], now) && menu && invites[id].driver == mobile {
        LinkKeeps(State(), id);
        links := links + {id};
        invites := invites[id := Used(invites[id], now)];
        joined := true;
      }
    }

    /** One row's transaction of the sweep: whether the row was revoked. */
    method RevokeUnused(id: InviteId) returns (gone: bool)
      modifies this`accounts, this`invites, this`ties
      ensures State() == ExpiredRow(old(State()), id) && gone == Revokes(old(State()), id)
      ensures gone <==> id in old(invites) && old(invites)[id].usedAt.None? && old(invites)[id].revokedAt.None?
      ensures !gone ==> State() == old(State())
      ensures gone ==> RowGone(old(State()), State(), id)
    {
      if id !in invites || invites[id].usedAt.Some? || invites[id].revokedAt.Some? { return false; }
      gone := true;
      RowGoneIs(State(), id);
      var i := invites[id];
      var delete := i.driver in accounts && Abs(i.createdAt - accounts[i.driver].createdAt) <= MADE_MS
        && (forall j :: j in invites && invites[j].driver == i.driver ==> invites[j].usedAt.None? && (j == id || invites[j].revokedAt.Some?))
        && !accounts[i.driver].linked;
      invites := invites[id := i.(revokedAt := Some(now))];
      ties := ties - {(i.inviter, i.driver)};
      if delete {
        accounts := accounts - {i.driver};
        invites := map j | j in invites && invites[j].driver != i.driver :: invites[j];
        ties := set t | t in ties && t.1 != i.driver;
      }
    }

    method ExpireOne(id: InviteId) returns (gone: bool)
      requires Tidy(State()) && id in selected
      modifies this`accounts, this`invites, this`ties, this`selected
      ensures Keeps(old(State()), State()) && State() == Apply(old(State()), ExpireRow(id))
      ensures gone == Revokes(old(State()), id)
    {
      ServiceKeeps(State(), ExpireRow(id));
      selected := selected - {id};
      gone := RevokeUnused(id);
    }

    /**
     * The sweep alone, in the order the rows come: afterwards no unused, unrevoked invite is past its day, and what it
     * counts is how many were; so a second sweep at the same instant counts none. Used invites are untouched, and so
     * (Tidy) are their accounts; SweepTakesExactly says which accounts are left.
     */
    method ExpireStaleInvites() returns (expired: nat, ghost order: seq<InviteId>)
      requires Tidy(State())
      modifies this`accounts, this`invites, this`ties, this`selected
      ensures Keeps(old(State()), State()) && StaleIds(State()) == {}
      ensures expired == |StaleIds(old(State()))|
      ensures UsedKept(old(invites), invites)
      ensures WholeSweep(old(State()), order) && State() == Swept(Apply(old(State()), Select), order)
    {
      ghost var before := State();
      var stale := SelectStale();
      ghost var all, start := stale, State();
      SweepBegins(before, start);
      expired, order := 0, [];
      while stale != {}
        invariant Sweeping(before, start, State(), all, stale, order) && expired + |stale| == |all|
        decreases |stale|
      {
        var id :| id in stale;
        var gone := ExpireNext(before, start, all, stale, order, id);
        stale, order := stale - {id}, order + [id];
        if gone { expired := expired + 1; }
      }
      SweepEnds(before, start, State(), order);
    }

    /** The next row of a sweep under way. */
    method ExpireNext(ghost before: World, ghost start: World, ghost all: set<InviteId>, ghost left: set<InviteId>,
                      ghost order: seq<InviteId>, id: InviteId) returns (gone: bool)
      requires Tidy(before) && Sweeping(before, start, State(), all, left, order) && id in left
      modifies this`accounts, this`invites, this`ties, this`selected
      ensures gone && Sweeping(before, start, State(), all, left - {id}, order + [id])
    {
      SweepGoesOn(before, start, State(), all, left, order, id);
      gone := ExpireOne(id);
    }

    method SelectStale() returns (stale: set<InviteId>)
      requires Tidy(State())
      modifies this`selected
      ensures Keeps(old(State()), State()) && State() == Apply(old(State()), Select)
      ensures stale == StaleIds(old(State())) == StaleIds(State()) && stale == selected.Keys
    {
      ghost var w := State();
      ServiceKeeps(w, Select);
      stale := set id | id in invites && IsStale(invites[id], now);
      selected := map id | id in stale :: invites[id].createdAt;
      assert State() == Apply(w, Select);
    }
  }
}
