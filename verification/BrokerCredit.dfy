/**
 * BrokerAccessService's metered requests: packages bought and approved, gifts, requests taken and given back. Every event
 * is one statement or one transaction, so that a run is any interleaving of the callers.
 */
module BrokerCredit {
  import opened Options

  type User = nat

  const MAX_PACKAGES: nat := 100

  datatype Kind = Package | Companies | Suggestion

  datatype Status = Submitted | Approved | Rejected

  datatype Order = Order(user: User, kind: Kind, requests: nat, status: Status)

  datatype Gift = Gift(user: User, requests: nat)

  datatype Fate = InFlight | Saved | Refunded

  /** A request taken off a broker's packages, and what became of the load request it was taken for. */
  datatype Charge = Charge(user: User, fate: Fate)

  /** The credit rows and orders, with every gift made and every request taken. */
  datatype World = World(credits: map<User, int>, orders: seq<Order>, gifts: seq<Gift>, charges: seq<Charge>)

  datatype Event =
    | Submit(order: Order)
    | Approve(id: nat)
    | Reject(id: nat)
    | Give(gift: Gift)
    | Use(user: User)
    | Refund(charge: nat)
    | Save(charge: nat)

  //#region Steps

  function Remaining(w: World, user: User): int {
    if user in w.credits then w.credits[user] else 0
  }

  /** The upsert: a new row, or more in the one there is. */
  function WithCredit(credits: map<User, int>, user: User, count: int): map<User, int> {
    credits[user := (if user in credits then credits[user] else 0) + count]
  }

  predicate Enabled(w: World, e: Event) {
    match e
    case Submit(order) => order.status == Submitted
    case Refund(i) => i < |w.charges| && w.charges[i].fate == InFlight
    case Save(i) => i < |w.charges| && w.charges[i].fate == InFlight
    case _ => true
  }

  predicate Waiting(w: World, id: nat) {
    id < |w.orders| && w.orders[id].status == Submitted
  }

  function Decided(w: World, id: nat, status: Status): seq<Order>
    requires Waiting(w, id)
  {
    w.orders[id := w.orders[id].(status := status)]
  }

  /** A decision on an order that is not waiting, and a request with nothing remaining, change nothing. */
  function Step(w: World, e: Event): World
    requires Enabled(w, e)
  {
    match e
    case Submit(order) => w.(orders := w.orders + [order])
    case Approve(id) =>
      if !Waiting(w, id) then w
      else
        var order := w.orders[id];
        w.(orders := Decided(w, id, Approved),
           credits := if order.kind == Package then WithCredit(w.credits, order.user, order.requests) else w.credits)
    case Reject(id) => if !Waiting(w, id) then w else w.(orders := Decided(w, id, Rejected))
    case Give(gift) => w.(credits := WithCredit(w.credits, gift.user, gift.requests), gifts := w.gifts + [gift])
    case Use(user) =>
      if Remaining(w, user) > 0 then
        w.(credits := WithCredit(w.credits, user, -1), charges := w.charges + [Charge(user, InFlight)])
      else w
    case Refund(i) =>
      w.(credits := WithCredit(w.credits, w.charges[i].user, 1), charges := w.charges[i := w.charges[i].(fate := Refunded)])
    case Save(i) => w.(charges := w.charges[i := w.charges[i].(fate := Saved)])
  }

  predicate CanRun(w: World, events: seq<Event>)
    decreases |events|
  {
    events == [] || (Enabled(w, events[0]) && CanRun(Step(w, events[0]), events[1..]))
  }

  function Run(w: World, events: seq<Event>): World
    requires CanRun(w, events)
    decreases |events|
  {
    if events == [] then w else Run(Step(w, events[0]), events[1..])
  }

  predicate Fresh(w: World) {
    w == World(map[], [], [], [])
  }

  //#endregion

  //#region Sums

  /** What an order is worth to a broker: its requests, once approved. */
  function Worth(order: Order, user: User): nat {
    if order.user == user && order.kind == Package && order.status == Approved then order.requests else 0
  }

  function Bought(orders: seq<Order>, user: User): nat {
    if orders == [] then 0 else Worth(orders[0], user) + Bought(orders[1..], user)
  }

  function Given(gifts: seq<Gift>, user: User): nat {
    if gifts == [] then 0 else (if gifts[0].user == user then gifts[0].requests else 0) + Given(gifts[1..], user)
  }

  function Taken(charges: seq<Charge>, user: User): nat {
    if charges == [] then 0 else (if charges[0].user == user then 1 else 0) + Taken(charges[1..], user)
  }

  function GivenBack(charges: seq<Charge>, user: User): nat {
    if charges == [] then 0
    else (if charges[0] == Charge(user, Refunded) then 1 else 0) + GivenBack(charges[1..], user)
  }

  lemma {:induction false} BoughtMore(orders: seq<Order>, order: Order, user: User)
    ensures Bought(orders + [order], user) == Bought(orders, user) + Worth(order, user)
  {
    if orders == [] {
      assert [order][1..] == [] && orders + [order] == [order];
    } else {
      BoughtMore(orders[1..], order, user);
      assert (orders + [order])[1..] == orders[1..] + [order];
    }
  }

  lemma {:induction false} BoughtChanged(orders: seq<Order>, id: nat, order: Order, user: User)
    requires id < |orders|
    ensures Bought(orders[id := order], user) == Bought(orders, user) - Worth(orders[id], user) + Worth(order, user)
  {
    if id == 0 {
      assert orders[id := order][1..] == orders[1..];
    } else {
      BoughtChanged(orders[1..], id - 1, order, user);
      assert orders[id := order][1..] == orders[1..][id - 1 := order];
    }
  }

  lemma {:induction false} GivenMore(gifts: seq<Gift>, gift: Gift, user: User)
    ensures Given(gifts + [gift], user) == Given(gifts, user) + if gift.user == user then gift.requests else 0
  {
    if gifts == [] {
      assert [gift][1..] == [] && gifts + [gift] == [gift];
    } else {
      GivenMore(gifts[1..], gift, user);
      assert (gifts + [gift])[1..] == gifts[1..] + [gift];
    }
  }

  lemma {:induction false} TakenMore(charges: seq<Charge>, charge: Charge, user: User)
    requires charge.fate != Refunded
    ensures Taken(charges + [charge], user) == Taken(charges, user) + if charge.user == user then 1 else 0
    ensures GivenBack(charges + [charge], user) == GivenBack(charges, user)
  {
    if charges == [] {
      assert [charge][1..] == [] && charges + [charge] == [charge];
    } else {
      TakenMore(charges[1..], charge, user);
      assert (charges + [charge])[1..] == charges[1..] + [charge];
    }
  }

  lemma {:induction false} FateChanged(charges: seq<Charge>, i: nat, fate: Fate, user: User)
    requires i < |charges| && charges[i].fate == InFlight
    ensures Taken(charges[i := charges[i].(fate := fate)], user) == Taken(charges, user)
    ensures GivenBack(charges[i := charges[i].(fate := fate)], user)
         == GivenBack(charges, user) + if fate == Refunded && charges[i].user == user then 1 else 0
  {
    var charge := charges[i].(fate := fate);
    if i == 0 {
      assert charges[i := charge][1..] == charges[1..];
    } else {
      FateChanged(charges[1..], i - 1, fate, user);
      assert charges[i := charge][1..] == charges[1..][i - 1 := charge];
    }
  }

  //#endregion

  //#region What every run keeps

  /** What a broker has left is what was bought, given and given back, less what was taken; and it is never negative. */
  predicate Balanced(w: World, user: User) {
    && Remaining(w, user) == Bought(w.orders, user) + Given(w.gifts, user) + GivenBack(w.charges, user) - Taken(w.charges, user)
    && Remaining(w, user) >= 0
  }

  lemma StepKeepsBalance(w: World, e: Event, user: User)
    requires Enabled(w, e) && Balanced(w, user)
    ensures Balanced(Step(w, e), user)
  {
    match e
    case Submit(order) => BoughtMore(w.orders, order, user);
    case Approve(id) =>
      if Waiting(w, id) {
        BoughtChanged(w.orders, id, w.orders[id].(status := Approved), user);
      }
    case Reject(id) =>
      if Waiting(w, id) {
        BoughtChanged(w.orders, id, w.orders[id].(status := Rejected), user);
      }
    case Give(gift) => GivenMore(w.gifts, gift, user);
    case Use(taker) => TakenMore(w.charges, Charge(taker, InFlight), user);
    case Refund(i) => FateChanged(w.charges, i, Refunded, user);
    case Save(i) => FateChanged(w.charges, i, Saved, user);
  }

  lemma {:induction false} RunKeepsBalance(w: World, events: seq<Event>, user: User)
    requires CanRun(w, events) && Balanced(w, user)
    ensures Balanced(Run(w, events), user)
    decreases |events|
  {
    if events != [] {
      StepKeepsBalance(w, events[0], user);
      RunKeepsBalance(Step(w, events[0]), events[1..], user);
    }
  }

  /** In every run from an empty database, each broker's requests are conserved. */
  lemma RequestsAreConserved(w: World, events: seq<Event>, user: User)
    requires Fresh(w) && CanRun(w, events)
    ensures Balanced(Run(w, events), user)
  {
    RunKeepsBalance(w, events, user);
  }

  /** Load requests of a broker that stand on its packages: saved, or about to be. */
  function Standing(charges: seq<Charge>, user: User): nat {
    if charges == [] then 0
    else (if charges[0].user == user && charges[0].fate != Refunded then 1 else 0) + Standing(charges[1..], user)
  }

  lemma {:induction false} StandingIsTheRest(charges: seq<Charge>, user: User)
    ensures Standing(charges, user) + GivenBack(charges, user) == Taken(charges, user)
  {
    if charges != [] {
      StandingIsTheRest(charges[1..], user);
    }
  }

  /** However its callers interleave, a broker never has more load requests than it bought and was given. */
  lemma NeverMoreThanBought(w: World, events: seq<Event>, user: User)
    requires Fresh(w) && CanRun(w, events)
    ensures var w' := Run(w, events); Standing(w'.charges, user) <= Bought(w'.orders, user) + Given(w'.gifts, user)
  {
    RequestsAreConserved(w, events, user);
    StandingIsTheRest(Run(w, events).charges, user);
  }

  /** Once decided, an order keeps its decision and its requests in every run that follows, so it is credited at most once. */
  lemma {:induction false} DecisionIsFinal(w: World, events: seq<Event>, id: nat)
    requires CanRun(w, events) && id < |w.orders| && w.orders[id].status != Submitted
    ensures id < |Run(w, events).orders| && Run(w, events).orders[id] == w.orders[id]
    decreases |events|
  {
    if events != [] {
      DecisionIsFinal(Step(w, events[0]), events[1..], id);
    }
  }

  /** One approval of a waiting package adds exactly its requests to its buyer, and the next adds nothing. */
  lemma ApprovedOnce(w: World, id: nat, user: User)
    requires Waiting(w, id)
    ensures var order, w' := w.orders[id], Step(w, Approve(id));
            && Remaining(w', user) == Remaining(w, user) + (if order.kind == Package && order.user == user then order.requests else 0)
            && Step(w', Approve(id)) == w' && Step(w', Reject(id)) == w'
  {
  }

  //#endregion

  //#region The service

  datatype Outcome = NotCounted | Counted | NoCredit

  class Requests {
    var credits: map<User, int>
    var orders: seq<Order>
    ghost var gifts: seq<Gift>
    ghost var charges: seq<Charge>

    ghost function State(): World
      reads this
    {
      World(credits, orders, gifts, charges)
    }

    constructor ()
      ensures Fresh(State())
    {
      credits, orders, gifts, charges := map[], [], [], [];
    }

    method AddCredit(user: User, count: int)
      modifies this`credits
      ensures credits == WithCredit(old(credits), user, count)
      ensures user in credits && credits[user] == (if user in old(credits) then old(credits)[user] else 0) + count
      ensures forall u :: u != user ==> (u in credits <==> u in old(credits)) && (u in credits ==> credits[u] == old(credits)[u])
    {
      var remaining := if user in credits then credits[user] else 0;
      credits := credits[user := remaining + count];
    }

    /** The conditional decrement: counted only for a broker, while requests are sold and brokers are not open. */
    method UseRequest(user: User, brokersOpen: bool, isBroker: bool, packagesEnabled: bool) returns (outcome: Outcome)
      modifies this`credits, this`charges
      ensures outcome == NotCounted <==> brokersOpen || !isBroker || !packagesEnabled
      ensures outcome != NotCounted ==> State() == Step(old(State()), Use(user))
      ensures outcome == Counted <==> |charges| == |old(charges)| + 1
      ensures outcome == Counted <==> !brokersOpen && isBroker && packagesEnabled && user in old(credits) && old(credits)[user] > 0
      ensures credits == if outcome == Counted then old(credits)[user := old(credits)[user] - 1] else old(credits)
      ensures outcome == NotCounted ==> State() == old(State())
    {
      if brokersOpen || !isBroker || !packagesEnabled {
        return NotCounted;
      }
      if user !in credits || credits[user] <= 0 {
        return NoCredit;
      }
      credits := credits[user := credits[user] - 1];
      charges := charges + [Charge(user, InFlight)];
      outcome := Counted;
    }

    /** A request taken but not saved is given back. */
    method RefundRequest(user: User, ghost charge: nat)
      requires Enabled(State(), Refund(charge)) && charges[charge].user == user
      modifies this`credits, this`charges
      ensures State() == Step(old(State()), Refund(charge))
    {
      AddCredit(user, 1);
      charges := charges[charge := charges[charge].(fate := Refunded)];
    }

    /**
     * A load request: taken off the packages first, and given back when it is not saved. So its caller refunds only what
     * it took, and once.
     */
    method RequestLoad(user: User, brokersOpen: bool, isBroker: bool, packagesEnabled: bool, saves: bool) returns (outcome: Outcome)
      modifies this`credits, this`charges
      ensures outcome == NoCredit || outcome == NotCounted ==> State() == old(State())
      ensures outcome == Counted ==>
                var taken := Step(old(State()), Use(user)); var i := |old(charges)|;
                && Remaining(old(State()), user) > 0
                && State() == Step(taken, if saves then Save(i) else Refund(i))
      ensures outcome == Counted <==> !brokersOpen && isBroker && packagesEnabled && user in old(credits) && old(credits)[user] > 0
      ensures credits == if outcome == Counted && saves then old(credits)[user := old(credits)[user] - 1] else old(credits)
    {
      outcome := UseRequest(user, brokersOpen, isBroker, packagesEnabled);
      if outcome == Counted {
        ghost var charge := |charges| - 1;
        if saves {
          charges := charges[charge := charges[charge].(fate := Saved)];
        } else {
          RefundRequest(user, charge);
        }
      }
    }

    method GrantRequests(user: User, requests: nat, isBroker: bool) returns (remaining: Option<int>)
      modifies this`credits, this`gifts
      ensures remaining.Some? <==> isBroker
      ensures State() == if isBroker then Step(old(State()), Give(Gift(user, requests))) else old(State())
      ensures isBroker ==> remaining == Some((if user in old(credits) then old(credits)[user] else 0) + requests)
      ensures credits == if isBroker then old(credits)[user := remaining.value] else old(credits)
    {
      if !isBroker {
        return None;
      }
      AddCredit(user, requests);
      gifts := gifts + [Gift(user, requests)];
      remaining := Some(credits[user]);
    }

    /** A package order, refused while one of the broker's waits. */
    method SubmitPackageOrder(user: User, packages: int, packageSize: nat, isBroker: bool, packagesEnabled: bool)
      returns (id: Option<nat>)
      modifies this`orders
      ensures id.Some? <==> && isBroker && packagesEnabled && 1 <= packages <= 100
                            && !exists o :: o in old(orders) && o.user == user && o.kind == Package && o.status == Submitted
      ensures orders == if id.Some? then old(orders) + [Order(user, Package, packages * packageSize, Submitted)] else old(orders)
      ensures State() == if id.Some? then Step(old(State()), Submit(Order(user, Package, packages * packageSize, Submitted)))
                         else old(State())
      ensures id.Some? ==> id.value == |old(orders)|
    {
      if !isBroker || !packagesEnabled || packages < 1 || packages > MAX_PACKAGES {
        return None;
      }
      if exists i :: 0 <= i < |orders| && OpenPackage(orders[i], user) {
        return None;
      }
      orders := orders + [Order(user, Package, packages * packageSize, Submitted)];
      id := Some(|orders| - 1);
    }

    method ApproveOrder(id: nat) returns (approved: bool)
      modifies this`credits, this`orders
      ensures approved <==> id < |old(orders)| && old(orders)[id].status == Submitted
      ensures State() == Step(old(State()), Approve(id))
      ensures orders == if approved then old(orders)[id := old(orders)[id].(status := Approved)] else old(orders)
      ensures var o := if approved then Some(old(orders)[id]) else None;
              credits == if o.Some? && o.value.kind == Package then
                           old(credits)[o.value.user := (if o.value.user in old(credits) then old(credits)[o.value.user] else 0) + o.value.requests]
                         else old(credits)
    {
      if id >= |orders| || orders[id].status != Submitted {
        return false;
      }
      var order := orders[id];
      if order.kind == Package {
        AddCredit(order.user, order.requests);
      }
      orders := orders[id := order.(status := Approved)];
      approved := true;
    }

    method RejectOrder(id: nat) returns (rejected: bool)
      modifies this`orders
      ensures rejected <==> id < |old(orders)| && old(orders)[id].status == Submitted
      ensures State() == Step(old(State()), Reject(id))
      ensures orders == if rejected then old(orders)[id := old(orders)[id].(status := Rejected)] else old(orders)
    {
      if id >= |orders| || orders[id].status != Submitted {
        return false;
      }
      orders := orders[id := orders[id].(status := Rejected)];
      rejected := true;
    }
  }

  predicate OpenPackage(order: Order, user: User) {
    order.user == user && order.kind == Package && order.status == Submitted
  }

  //#endregion
}
