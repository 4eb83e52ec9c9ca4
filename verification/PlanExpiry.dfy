/** CompanyPlanExpiryWorker.expiring: which companies are told that bought menus close soon, and what the notice says. */
module PlanExpiry {
  import opened Options
  import opened MenuTime
  import opened MenuAccess

  //#region The query

  datatype EndingRow = EndingRow(user: UserId, feature: Feature, endsAt: int)

  /** The WHERE of the query: unexpired, and started or beside a started one of the same menu. */
  predicate Qualifies(grants: seq<Grant>, now: int, g: Grant) {
    || (g.expireAt > now && g.startAt <= now)
    || (g.expireAt > now && exists s :: s in grants && Of(s, g.user, g.feature) && s.startAt <= now && s.expireAt > now)
  }

  /** max("expireAt") of a group */
  ghost predicate IsQueriedEnd(grants: seq<Grant>, user: UserId, f: Feature, now: int, end: int) {
    && (exists g :: g in grants && Of(g, user, f) && Qualifies(grants, now, g) && g.expireAt == end)
    && (forall g :: g in grants && Of(g, user, f) && Qualifies(grants, now, g) ==> g.expireAt <= end)
  }

  /** The worker's end of a menu is the end the access check has, on any rows whatever. */
  lemma WorkerAgreesWithAccess(grants: seq<Grant>, user: UserId, f: Feature, now: int, open: map<Feature, int>, end: int)
    requires IsOpenMap(grants, user, now, open)
    ensures IsQueriedEnd(grants, user, f, now, end) <==> f in open && open[f] == end
  {
    NextStartIsLatest(grants, user, f, now);
    if f in open {
      var s :| s in grants && Of(s, user, f) && Covers(s, now);
      forall g | g in grants && Of(g, user, f) && g.expireAt > now ensures Qualifies(grants, now, g) {}
      var last :| last in grants && Of(last, user, f) && last.expireAt == NextStart(grants, user, f, now);
      assert Qualifies(grants, now, last);
    }
    if IsQueriedEnd(grants, user, f, now, end) {
      var g :| g in grants && Of(g, user, f) && Qualifies(grants, now, g) && g.expireAt == end;
      var s :| s in grants && Of(s, user, f) && s.startAt <= now && s.expireAt > now;
      assert Covers(s, now);
    }
  }

  /** What the database answers: the ends of the companies that are not parents, within the reminder days, soonest first. */
  ghost predicate IsAnswer(rows: seq<EndingRow>, grants: seq<Grant>, parents: set<UserId>, now: int, days: int) {
    && (forall i, j :: 0 <= i < j < |rows| ==> rows[i].endsAt <= rows[j].endsAt)
    && (forall user, f, end :: EndingRow(user, f, end) in rows
          <==> IsQueriedEnd(grants, user, f, now, end) && user !in parents && end <= now + days * DAY_MS)
  }

  //#endregion

  //#region Notices

  datatype Notice = Notice(user: UserId, features: seq<Feature>, endsAt: int, daysLeft: int)

  function OfUser(rows: seq<EndingRow>, user: UserId): seq<EndingRow> {
    if rows == [] then []
    else OfUser(rows[..|rows| - 1], user) + (if rows[|rows| - 1].user == user then [rows[|rows| - 1]] else [])
  }

  lemma {:induction false} OfUserKeeps(rows: seq<EndingRow>, user: UserId)
    requires forall i, j :: 0 <= i < j < |rows| ==> rows[i].endsAt <= rows[j].endsAt
    ensures forall r :: r in OfUser(rows, user) <==> r in rows && r.user == user
    ensures OfUser(rows, user) != [] ==> forall r :: r in rows && r.user == user ==> OfUser(rows, user)[0].endsAt <= r.endsAt
  {
    if rows != [] {
      var n := |rows| - 1;
      OfUserKeeps(rows[..n], user);
      assert rows == rows[..n] + [rows[n]];
      if OfUser(rows[..n], user) != [] { assert OfUser(rows[..n], user)[0] in rows[..n]; }
    }
  }

  /** Map insertion in the order of the rows: users in first-seen order, each with its rows. */
  method GroupByUser(rows: seq<EndingRow>) returns (users: seq<UserId>, byUser: map<UserId, seq<EndingRow>>)
    ensures forall i, j :: 0 <= i < j < |users| ==> users[i] != users[j]
    ensures forall u :: u in users <==> OfUser(rows, u) != []
    ensures forall u :: u in users ==> u in byUser && byUser[u] == OfUser(rows, u)
  {
    users, byUser := [], map[];
    for i := 0 to |rows|
      invariant forall a, b :: 0 <= a < b < |users| ==> users[a] != users[b]
      invariant forall u :: u in users <==> OfUser(rows[..i], u) != []
      invariant forall u :: u in users <==> u in byUser
      invariant forall u :: u in byUser ==> byUser[u] == OfUser(rows[..i], u)
    {
      var row := rows[i];
      assert rows[..i + 1][..i] == rows[..i];
      assert forall u :: OfUser(rows[..i + 1], u) == OfUser(rows[..i], u) + (if row.user == u then [row] else []);
      if row.user in byUser {
        byUser := byUser[row.user := byUser[row.user] + [row]];
      } else {
        users := users + [row.user];
        byUser := byUser[row.user := [row]];
      }
    }
    assert rows[..|rows|] == rows;
  }

  function Within(ending: seq<EndingRow>, first: int): seq<Feature> {
    if ending == [] then []
    else (if ending[0].endsAt - first < DAY_MS then [ending[0].feature] else []) + Within(ending[1..], first)
  }

  lemma WithinHas(ending: seq<EndingRow>, first: int, f: Feature)
    ensures f in Within(ending, first) <==> exists r :: r in ending && r.feature == f && r.endsAt - first < DAY_MS
  {
    if ending != [] {
      WithinHas(ending[1..], first, f);
      assert ending == [ending[0]] + ending[1..];
    }
  }

  function DaysLeft(endsAt: int, now: int): int {
    var days := (endsAt - now + DAY_MS - 1) / DAY_MS;
    if days < 1 then 1 else days
  }

  function NoticeOf(user: UserId, ending: seq<EndingRow>, now: int): Notice
    requires ending != []
  {
    Notice(user, Within(ending, ending[0].endsAt), ending[0].endsAt, DaysLeft(ending[0].endsAt, now))
  }

  /**
   * A notice about a company: it names the day of its first menu to close (no bought menu closes earlier), exactly the
   * menus closing within a day of it and within the reminder days, and the days left, a part of a day counted as one.
   */
  ghost predicate Tells(n: Notice, open: map<Feature, int>, now: int, days: int) {
    && (exists f :: f in open && open[f] == n.endsAt)
    && (forall f :: f in open ==> n.endsAt <= open[f])
    && (forall f :: f in n.features <==> f in open && open[f] < n.endsAt + DAY_MS && open[f] <= now + days * DAY_MS)
    && 1 <= n.daysLeft <= days && now < n.endsAt <= now + days * DAY_MS
    && 86_400_000 * (n.daysLeft - 1) < n.endsAt - now <= 86_400_000 * n.daysLeft
  }

  lemma NoticeTells(rows: seq<EndingRow>, grants: seq<Grant>, parents: set<UserId>, now: int, days: int, user: UserId, open: map<Feature, int>)
    requires days >= 1 && IsAnswer(rows, grants, parents, now, days) && IsOpenMap(grants, user, now, open)
    ensures OfUser(rows, user) != [] <==> user !in parents && exists f :: f in open && open[f] <= now + days * DAY_MS
    ensures OfUser(rows, user) != [] ==> Tells(NoticeOf(user, OfUser(rows, user), now), open, now, days)
  {
    OfUserKeeps(rows, user);
    forall f, end ensures EndingRow(user, f, end) in rows <==> f in open && open[f] == end && user !in parents && end <= now + days * DAY_MS {
      WorkerAgreesWithAccess(grants, user, f, now, open, end);
    }
    var ending := OfUser(rows, user);
    if ending != [] {
      var first := ending[0];
      assert first in ending && EndingRow(user, first.feature, first.endsAt) == first;
      NextStartIsLatest(grants, user, first.feature, now);
      assert first.endsAt > now by {
        var g :| g in grants && Of(g, user, first.feature) && Covers(g, now);
      }
      forall f ensures f in Within(ending, first.endsAt) <==> f in open && open[f] < first.endsAt + DAY_MS && open[f] <= now + days * DAY_MS {
        WithinHas(ending, first.endsAt, f);
        if f in open && open[f] <= now + days * DAY_MS { assert EndingRow(user, f, open[f]) in ending; }
      }
      forall f | f in open ensures first.endsAt <= open[f] {
        if open[f] <= now + days * DAY_MS { assert EndingRow(user, f, open[f]) in rows; }
      }
      DaysLeftBounds(first.endsAt, now, days);
    }
    if f :| f in open && open[f] <= now + days * DAY_MS && user !in parents {
      assert EndingRow(user, f, open[f]) in ending;
    }
  }

  lemma DaysLeftBounds(endsAt: int, now: int, days: int)
    requires now < endsAt <= now + days * DAY_MS && days >= 1
    ensures 1 <= DaysLeft(endsAt, now) <= days
    ensures 86_400_000 * (DaysLeft(endsAt, now) - 1) < endsAt - now <= 86_400_000 * DaysLeft(endsAt, now)
  {
    assert (endsAt - now + DAY_MS - 1) / DAY_MS <= (days * DAY_MS + DAY_MS - 1) / DAY_MS == days;
  }

  /** One notice for each company with a bought menu closing within the reminder days, and for no other. */
  method Expiring(rows: seq<EndingRow>, ghost grants: seq<Grant>, ghost parents: set<UserId>, now: int, ghost days: int)
    returns (notices: seq<Notice>)
    requires days >= 1 && IsAnswer(rows, grants, parents, now, days)
    ensures forall i, j :: 0 <= i < j < |notices| ==> notices[i].user != notices[j].user
    ensures forall n, open :: n in notices && IsOpenMap(grants, n.user, now, open) ==> n.user !in parents && Tells(n, open, now, days)
    ensures forall user, open, f :: IsOpenMap(grants, user, now, open) && user !in parents && f in open && open[f] <= now + days * DAY_MS ==>
              exists n :: n in notices && n.user == user
  {
    var users, byUser := GroupByUser(rows);
    notices := [];
    for i := 0 to |users|
      invariant |notices| == i
      invariant forall j :: 0 <= j < i ==> OfUser(rows, users[j]) != [] && notices[j] == NoticeOf(users[j], OfUser(rows, users[j]), now)
    {
      notices := notices + [NoticeOf(users[i], byUser[users[i]], now)];
    }
    forall n, open | n in notices && IsOpenMap(grants, n.user, now, open) ensures n.user !in parents && Tells(n, open, now, days) {
      NoticeTells(rows, grants, parents, now, days, n.user, open);
    }
    forall user, open, f | IsOpenMap(grants, user, now, open) && user !in parents && f in open && open[f] <= now + days * DAY_MS
      ensures exists n :: n in notices && n.user == user
    {
      NoticeTells(rows, grants, parents, now, days, user, open);
      var i :| 0 <= i < |users| && users[i] == user;
      assert notices[i].user == user;
    }
  }

  //#endregion
}
