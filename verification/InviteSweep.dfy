/**
 * The sweep of stale invites run alone, in whatever order the database returns the rows: which accounts it takes with it.
 */
module InviteSweep {
  import opened Options
  import opened Invites

  /** The rows of an order expired one after another. */
  function Swept(w: World, order: seq<InviteId>): World
    decreases |order|
  {
    if order == [] then w
    else
      var id := order[|order| - 1];
      var v := Swept(w, order[..|order| - 1]);
      ExpiredRow(v.(selected := v.selected - {id}), id)
  }

  /** Rows past their day, each once. */
  predicate StaleOrder(w: World, order: seq<InviteId>) {
    && (forall i :: 0 <= i < |order| ==> order[i] in w.invites && IsStale(w.invites[order[i]], w.now))
    && (forall i, j :: 0 <= i < j < |order| ==> order[i] != order[j])
  }

  /** All the rows past their day. */
  predicate WholeSweep(w: World, order: seq<InviteId>) {
    StaleOrder(w, order) && forall id :: id in w.invites && IsStale(w.invites[id], w.now) ==> id in order
  }

  predicate IsRowOf(w: World, id: InviteId, mobile: Mobile) {
    id in w.invites && w.invites[id].driver == mobile
  }

  predicate MadeIt(w: World, id: InviteId, mobile: Mobile)
    requires id in w.invites && mobile in w.accounts
  {
    Abs(w.invites[id].createdAt - w.accounts[mobile].createdAt) <= MADE_MS
  }

  /** Nobody came in as it: no invite of it was used, and it has no messenger. */
  ghost predicate Unclaimed(w: World, mobile: Mobile)
    requires mobile in w.accounts
  {
    !w.accounts[mobile].linked && forall id :: IsRowOf(w, id, mobile) ==> w.invites[id].usedAt.None?
  }

  /** The k-th row of an order takes its account: it made it, and it is the last of the account's rows still in force. */
  ghost predicate TakenAt(w: World, order: seq<InviteId>, k: nat, mobile: Mobile)
    requires mobile in w.accounts
  {
    && k < |order| && IsRowOf(w, order[k], mobile) && MadeIt(w, order[k], mobile) && Unclaimed(w, mobile)
    && forall id :: IsRowOf(w, id, mobile) ==> w.invites[id].revokedAt.Some? || id in order[..k + 1]
  }

  ghost predicate Taken(w: World, order: seq<InviteId>, mobile: Mobile)
    requires mobile in w.accounts
  {
    exists k: nat :: k < |order| && TakenAt(w, order, k, mobile)
  }

  /** An account's part of the tables after some rows: its rows of the order are revoked and nothing else is changed. */
  ghost predicate KeptPart(w: World, v: World, order: seq<InviteId>, mobile: Mobile)
    requires mobile in w.accounts
  {
    && v.now == w.now && mobile in v.accounts && v.accounts[mobile] == w.accounts[mobile]
    && (forall id :: IsRowOf(v, id, mobile) <==> IsRowOf(w, id, mobile))
    && (forall id :: IsRowOf(w, id, mobile) ==>
          v.invites[id] == if id in order then w.invites[id].(revokedAt := Some(w.now)) else w.invites[id])
  }

  ghost predicate GonePart(w: World, v: World, mobile: Mobile) {
    v.now == w.now && mobile !in v.accounts && forall id :: !IsRowOf(v, id, mobile)
  }

  lemma OneMoreOrder(w: World, order: seq<InviteId>, mobile: Mobile)
    requires mobile in w.accounts && order != []
    ensures var before := order[..|order| - 1];
            Taken(w, order, mobile) <==> Taken(w, before, mobile) || TakenAt(w, order, |order| - 1, mobile)
  {
    var before := order[..|order| - 1];
    forall k: nat | k < |before| ensures TakenAt(w, before, k, mobile) <==> TakenAt(w, order, k, mobile) {
      assert before[..k + 1] == order[..k + 1];
    }
    if k: nat :| k < |before| && TakenAt(w, before, k, mobile) { assert TakenAt(w, order, k, mobile); }
    if k: nat :| k < |order| && TakenAt(w, order, k, mobile) {
      if k < |before| { assert TakenAt(w, before, k, mobile); }
    }
  }

  /** The next row, of an account that is still there. */
  lemma NextRow(w: World, v: World, order: seq<InviteId>, mobile: Mobile)
    requires mobile in w.accounts && order != [] && StaleOrder(w, order)
    requires KeptPart(w, v, order[..|order| - 1], mobile)
    ensures var id := order[|order| - 1]; var v' := ExpiredRow(v.(selected := v.selected - {id}), id);
            if TakenAt(w, order, |order| - 1, mobile) then GonePart(w, v', mobile) else KeptPart(w, v', order, mobile)
  {
    var before, id := order[..|order| - 1], order[|order| - 1];
    assert order[..|order|] == order == before + [id];
    if IsRowOf(w, id, mobile) {
      OwnRow(w, v, before, id, mobile);
    }
  }

  lemma OwnRow(w: World, v: World, before: seq<InviteId>, id: InviteId, mobile: Mobile)
    requires mobile in w.accounts && KeptPart(w, v, before, mobile) && id !in before
    requires IsRowOf(w, id, mobile) && IsStale(w.invites[id], w.now)
    ensures Revokes(v, id)
    ensures Deletes(v, id)
       <==> && MadeIt(w, id, mobile) && Unclaimed(w, mobile)
            && forall j :: IsRowOf(w, j, mobile) ==> w.invites[j].revokedAt.Some? || j in before + [id]
  {
    assert IsRowOf(v, id, mobile) && v.invites[id] == w.invites[id];
    forall j | IsRowOf(w, j, mobile)
      ensures IsRowOf(v, j, mobile) && (v.invites[j].usedAt == w.invites[j].usedAt)
      ensures v.invites[j].revokedAt.Some? <==> w.invites[j].revokedAt.Some? || j in before
    {
    }
    forall j | j in v.invites && v.invites[j].driver == mobile ensures IsRowOf(w, j, mobile) {
      assert IsRowOf(v, j, mobile);
    }
  }

  lemma GoneStays(w: World, v: World, id: InviteId, mobile: Mobile)
    requires GonePart(w, v, mobile)
    ensures GonePart(w, ExpiredRow(v.(selected := v.selected - {id}), id), mobile)
  {
    forall j ensures !IsRowOf(ExpiredRow(v.(selected := v.selected - {id}), id), j, mobile) {
      assert !IsRowOf(v, j, mobile) && !IsRowOf(v, id, mobile);
    }
  }

  lemma {:induction false} SweptPart(w: World, order: seq<InviteId>, mobile: Mobile)
    requires mobile in w.accounts && StaleOrder(w, order)
    ensures if Taken(w, order, mobile) then GonePart(w, Swept(w, order), mobile) else KeptPart(w, Swept(w, order), order, mobile)
    decreases |order|
  {
    if order != [] {
      var before := order[..|order| - 1];
      SweptPart(w, before, mobile);
      OneMoreOrder(w, order, mobile);
      if Taken(w, before, mobile) {
        GoneStays(w, Swept(w, before), order[|order| - 1], mobile);
      } else {
        NextRow(w, Swept(w, before), order, mobile);
      }
    }
  }

  /** The sweep takes an account exactly if one of its rows does; otherwise the account's rows are revoked and it stays. */
  lemma SweepTakesExactly(w: World, order: seq<InviteId>, mobile: Mobile)
    requires mobile in w.accounts && StaleOrder(w, order)
    ensures mobile in Swept(w, order).accounts <==> !Taken(w, order, mobile)
  {
    SweptPart(w, order, mobile);
  }

  /** Among the rows of an order the k-th is the account's last. */
  predicate LastOf(w: World, order: seq<InviteId>, k: nat, mobile: Mobile) {
    k < |order| && IsRowOf(w, order[k], mobile) && forall j :: k < j < |order| ==> !IsRowOf(w, order[j], mobile)
  }

  /**
   * Of an unclaimed account whose rows in force are all past their day, the row swept last decides: the account goes
   * exactly if that row was made within a minute of it.
   */
  lemma LastSweptDecides(w: World, order: seq<InviteId>, k: nat, mobile: Mobile)
    requires mobile in w.accounts && WholeSweep(w, order) && Unclaimed(w, mobile) && LastOf(w, order, k, mobile)
    requires forall id :: IsRowOf(w, id, mobile) ==> w.invites[id].revokedAt.Some? || IsStale(w.invites[id], w.now)
    ensures mobile in Swept(w, order).accounts <==> !MadeIt(w, order[k], mobile)
  {
    SweepTakesExactly(w, order, mobile);
    forall id | IsRowOf(w, id, mobile) && w.invites[id].revokedAt.None? ensures id in order[..k + 1] {
      var i :| 0 <= i < |order| && order[i] == id;
      assert i <= k && order[..k + 1][i] == id;
    }
    if MadeIt(w, order[k], mobile) { assert TakenAt(w, order, k, mobile); }
    if j: nat :| j < |order| && TakenAt(w, order, j, mobile) {
      assert order[k] in order[..j + 1];
      var i :| 0 <= i < j + 1 && order[..j + 1][i] == order[k];
      assert order[i] == order[k] && i == k && j == k;
    }
  }

  /** An account taken had nobody come in, nothing waiting, and a stale row that made it: any other stays in any order. */
  lemma TakenNeeds(w: World, order: seq<InviteId>, mobile: Mobile)
    requires mobile in w.accounts && StaleOrder(w, order) && mobile !in Swept(w, order).accounts
    ensures Unclaimed(w, mobile) && forall id :: !WaitsFor(w, id, mobile)
    ensures exists id :: IsRowOf(w, id, mobile) && IsStale(w.invites[id], w.now) && MadeIt(w, id, mobile)
  {
    SweepTakesExactly(w, order, mobile);
    var k: nat :| k < |order| && TakenAt(w, order, k, mobile);
    forall id ensures !WaitsFor(w, id, mobile) {
      if IsRowOf(w, id, mobile) && w.invites[id].revokedAt.None? {
        var i :| 0 <= i < k + 1 && order[..k + 1][i] == id;
        assert order[i] == id;
      }
    }
    assert IsRowOf(w, order[k], mobile) && IsStale(w.invites[order[k]], w.now);
  }

  /** With one row that made the account and one that did not, the order of the rows decides whether the account stays. */
  lemma OrderDecides(w: World, others: seq<InviteId>, made: InviteId, later: InviteId, mobile: Mobile)
    requires mobile in w.accounts && WholeSweep(w, others + [made, later]) && Unclaimed(w, mobile)
    requires IsRowOf(w, made, mobile) && MadeIt(w, made, mobile) && IsRowOf(w, later, mobile) && !MadeIt(w, later, mobile)
    requires forall id :: IsRowOf(w, id, mobile) ==> w.invites[id].revokedAt.Some? || IsStale(w.invites[id], w.now)
    ensures mobile in Swept(w, others + [made, later]).accounts
    ensures WholeSweep(w, others + [later, made]) && mobile !in Swept(w, others + [later, made]).accounts
  {
    var n := |others|;
    var one, other := others + [made, later], others + [later, made];
    LastSweptDecides(w, one, n + 1, mobile);
    forall i | 0 <= i < |other| ensures other[i] == if i < n then one[i] else if i == n then one[n + 1] else one[n] {}
    forall id | id in one ensures id in other {}
    assert WholeSweep(w, other);
    LastSweptDecides(w, other, n + 1, mobile);
  }
}
