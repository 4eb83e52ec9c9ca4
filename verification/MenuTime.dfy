/**
 * The menus a transport company buys (CompanyFeatureService): periods granted by approved orders and by gifts, the
 * access check and the purchase page over them. Times are milliseconds; every decision is one transaction.
 */
module MenuTime {
  import opened Options

  type UserId = nat
  type OrderId = nat

  const DAY_MS: int := 86_400_000

  datatype Feature =
    Suggestions | CreateLoad | PublishedLoads | DriverRequests | Trips | Drivers | Channels | Agent | Factories

  const FEATURES: seq<Feature> :=
    [Suggestions, CreateLoad, PublishedLoads, DriverRequests, Trips, Drivers, Channels, Agent, Factories]

  datatype Tier = Bronze | Silver | Gold
  datatype TierMonths = One | Three | Six | Twelve

  function MonthDays(months: TierMonths): int {
    match months
    case One => 30
    case Three => 90
    case Six => 180
    case Twelve => 365
  }

  datatype TierPlan = TierPlan(features: seq<Feature>, sold: set<TierMonths>, active: bool)

  datatype Status = ReceiptSubmitted | Approved | Rejected

  /** A tier's order keeps the menus the tier had then; a menu's own order has its one feature. */
  datatype Order = Order(user: UserId, tier: Option<Tier>, feature: Option<Feature>, features: seq<Feature>, days: int, status: Status)

  datatype Grant = Grant(user: UserId, feature: Feature, startAt: int, expireAt: int, order: Option<OrderId>)

  datatype Gift = Gift(user: UserId, feature: Feature, days: int)

  //#region Periods

  predicate Of(g: Grant, user: UserId, feature: Feature) {
    g.user == user && g.feature == feature
  }

  /** Where the next period of a menu starts: behind its latest open one, or now. */
  function NextStart(rows: seq<Grant>, user: UserId, feature: Feature, now: int): int {
    if rows == [] then now
    else
      var rest := NextStart(rows[..|rows| - 1], user, feature, now);
      var last := rows[|rows| - 1];
      if Of(last, user, feature) && last.expireAt > rest then last.expireAt else rest
  }

  lemma {:induction false} NextStartIsLatest(rows: seq<Grant>, user: UserId, feature: Feature, now: int)
    ensures var start := NextStart(rows, user, feature, now);
            && start >= now
            && (forall g :: g in rows && Of(g, user, feature) ==> g.expireAt <= start)
            && (start == now || exists g :: g in rows && Of(g, user, feature) && g.expireAt == start)
  {
    if rows != [] {
      NextStartIsLatest(rows[..|rows| - 1], user, feature, now);
      assert rows == rows[..|rows| - 1] + [rows[|rows| - 1]];
    }
  }

  function NewGrant(rows: seq<Grant>, user: UserId, feature: Feature, days: int, now: int, order: Option<OrderId>): Grant {
    var start := NextStart(rows, user, feature, now);
    Grant(user, feature, start, start + days * DAY_MS, order)
  }

  /** An approval: one period for each menu of the order, in turn. */
  function AddGrants(rows: seq<Grant>, user: UserId, features: seq<Feature>, days: int, now: int, order: OrderId): seq<Grant>
    decreases |features|
  {
    if features == [] then rows
    else AddGrants(rows + [NewGrant(rows, user, features[0], days, now, Some(order))], user, features[1..], days, now, order)
  }

  //#endregion

  //#region The machine

  datatype World = World(now: int, grants: seq<Grant>, orders: seq<Order>, gifts: seq<Gift>, tiers: map<Tier, TierPlan>)

  datatype Event =
    | Tick(ms: nat)
    | UpdateTier(tier: Tier, chosen: set<Feature>, sold: set<TierMonths>, active: bool)
    | SubmitTier(user: UserId, tier: Tier, months: TierMonths)
    | SubmitMenu(user: UserId, feature: Feature, days: int)
    | Approve(id: OrderId)
    | Reject(id: OrderId)
    | Give(user: UserId, feature: Feature, days: int)

  /** The menus an order buys. */
  function Menus(o: Order): seq<Feature> {
    if o.tier.Some? then o.features else if o.feature.Some? then [o.feature.value] else []
  }

  predicate CanDecide(w: World, id: OrderId) {
    id < |w.orders| && w.orders[id].status.ReceiptSubmitted?
  }

  /** Days come from the tiers' table or are checked to be from 1 to 3650 where they are entered. */
  predicate Enabled(w: World, e: Event) {
    match e
    case Tick(_) => true
    case UpdateTier(tier, chosen, sold, active) => tier in w.tiers && (active ==> chosen != {} && sold != {})
    case SubmitTier(_, tier, months) =>
      tier in w.tiers && w.tiers[tier].active && w.tiers[tier].features != [] && months in w.tiers[tier].sold
    case SubmitMenu(_, _, days) => 1 <= days <= 3650
    case Approve(id) => CanDecide(w, id) && Menus(w.orders[id]) != []
    case Reject(id) => CanDecide(w, id)
    case Give(_, _, days) => 1 <= days <= 3650
  }

  /** The chosen menus in the enumeration's order. */
  function InOrder(chosen: set<Feature>, from: seq<Feature>): seq<Feature> {
    if from == [] then []
    else (if from[0] in chosen then [from[0]] else []) + InOrder(chosen, from[1..])
  }

  function Apply(w: World, e: Event): World
    requires Enabled(w, e)
  {
    match e
    case Tick(ms) => w.(now := w.now + ms)
    case UpdateTier(tier, chosen, sold, active) =>
      w.(tiers := w.tiers[tier := TierPlan(InOrder(chosen, FEATURES), sold, active)])
    case SubmitTier(user, tier, months) =>
      w.(orders := w.orders + [Order(user, Some(tier), None, w.tiers[tier].features, MonthDays(months), ReceiptSubmitted)])
    case SubmitMenu(user, feature, days) =>
      w.(orders := w.orders + [Order(user, None, Some(feature), [], days, ReceiptSubmitted)])
    case Approve(id) =>
      var o := w.orders[id];
      w.(grants := AddGrants(w.grants, o.user, Menus(o), o.days, w.now, id),
         orders := w.orders[id := o.(status := Approved)])
    case Reject(id) => w.(orders := w.orders[id := w.orders[id].(status := Rejected)])
    case Give(user, feature, days) =>
      w.(grants := w.grants + [NewGrant(w.grants, user, feature, days, w.now, None)], gifts := w.gifts + [Gift(user, feature, days)])
  }

  predicate CanRun(w: World, es: seq<Event>)
    decreases |es|
  {
    es == [] || (Enabled(w, es[0]) && CanRun(Apply(w, es[0]), es[1..]))
  }

  function Run(w: World, es: seq<Event>): World
    requires CanRun(w, es)
    decreases |es|
  {
    if es == [] then w else Run(Apply(w, es[0]), es[1..])
  }

  //#endregion

  //#region Chains of periods

  /**
   * In the order they were granted, the periods of a menu follow one another without overlap, and one that has not
   * started yet begins exactly where an earlier one of the same menu ends.
   */
  ghost predicate Chained(rows: seq<Grant>, now: int) {
    && (forall i :: 0 <= i < |rows| ==> rows[i].startAt < rows[i].expireAt)
    && (forall i, j :: 0 <= i < j < |rows| && Of(rows[j], rows[i].user, rows[i].feature) ==> rows[i].expireAt <= rows[j].startAt)
    && (forall j :: 0 <= j < |rows| && rows[j].startAt > now ==> Behind(rows, j))
  }

  /** Period j begins exactly where an earlier one of its menu ends. */
  ghost predicate Behind(rows: seq<Grant>, j: nat)
    requires j < |rows|
  {
    exists i :: 0 <= i < j && Of(rows[i], rows[j].user, rows[j].feature) && rows[i].expireAt == rows[j].startAt
  }

  lemma BehindStays(rows: seq<Grant>, g: Grant, j: nat)
    requires j < |rows| && Behind(rows, j)
    ensures Behind(rows + [g], j)
  {
    var i :| 0 <= i < j && Of(rows[i], rows[j].user, rows[j].feature) && rows[i].expireAt == rows[j].startAt;
    assert (rows + [g])[i] == rows[i] && (rows + [g])[j] == rows[j];
  }

  lemma NewGrantIsBehind(rows: seq<Grant>, user: UserId, feature: Feature, days: int, now: int, order: Option<OrderId>)
    requires NewGrant(rows, user, feature, days, now, order).startAt > now
    ensures Behind(rows + [NewGrant(rows, user, feature, days, now, order)], |rows|)
  {
    NextStartIsLatest(rows, user, feature, now);
    var g := NewGrant(rows, user, feature, days, now, order);
    var h :| h in rows && Of(h, user, feature) && h.expireAt == g.startAt;
    var i :| 0 <= i < |rows| && rows[i] == h;
    assert (rows + [g])[i] == h && (rows + [g])[|rows|] == g;
  }

  lemma NewGrantChains(rows: seq<Grant>, user: UserId, feature: Feature, days: int, now: int, order: Option<OrderId>)
    requires Chained(rows, now) && days >= 1
    ensures Chained(rows + [NewGrant(rows, user, feature, days, now, order)], now)
  {
    NextStartIsLatest(rows, user, feature, now);
    var g := NewGrant(rows, user, feature, days, now, order);
    var rows' := rows + [g];
    forall j | 0 <= j < |rows'| && rows'[j].startAt > now ensures Behind(rows', j) {
      if j == |rows| { NewGrantIsBehind(rows, user, feature, days, now, order); } else { BehindStays(rows, g, j); }
    }
    forall i, j | 0 <= i < j < |rows'| && Of(rows'[j], rows'[i].user, rows'[i].feature)
      ensures rows'[i].expireAt <= rows'[j].startAt
    {
      if j == |rows| { assert rows[i] in rows; }
    }
  }

  lemma {:induction false} AddGrantsChain(rows: seq<Grant>, user: UserId, features: seq<Feature>, days: int, now: int, order: OrderId)
    requires Chained(rows, now) && days >= 1
    ensures Chained(AddGrants(rows, user, features, days, now, order), now)
    decreases |features|
  {
    if features != [] {
      NewGrantChains(rows, user, features[0], days, now, Some(order));
      AddGrantsChain(rows + [NewGrant(rows, user, features[0], days, now, Some(order))], user, features[1..], days, now, order);
    }
  }

  predicate Covers(g: Grant, t: int) {
    g.startAt <= t < g.expireAt
  }

  predicate Covered(rows: seq<Grant>, user: UserId, feature: Feature, t: int) {
    exists g :: g in rows && Of(g, user, feature) && Covers(g, t)
  }

  /**
   * No gap: from now on a menu is covered exactly until the latest end of its periods, which is where its next period
   * would start.
   */
  lemma ChainHasNoGap(rows: seq<Grant>, user: UserId, feature: Feature, now: int, t: int)
    requires Chained(rows, now) && t >= now
    ensures Covered(rows, user, feature, t) <==> t < NextStart(rows, user, feature, now)
  {
    NextStartIsLatest(rows, user, feature, now);
    if t < NextStart(rows, user, feature, now) {
      var g :| g in rows && Of(g, user, feature) && g.expireAt > t;
      var k :| 0 <= k < |rows| && rows[k] == g;
      CoverFrom(rows, user, feature, now, t, k);
    }
  }

  lemma {:induction false} CoverFrom(rows: seq<Grant>, user: UserId, feature: Feature, now: int, t: int, k: nat)
    requires Chained(rows, now) && t >= now
    requires k < |rows| && Of(rows[k], user, feature) && rows[k].expireAt > t
    ensures Covered(rows, user, feature, t)
  {
    if rows[k].startAt <= t {
      assert rows[k] in rows && Covers(rows[k], t);
    } else {
      var i :| 0 <= i < k && Of(rows[i], rows[k].user, rows[k].feature) && rows[i].expireAt == rows[k].startAt;
      CoverFrom(rows, user, feature, now, t, i);
    }
  }

  //#endregion

  //#region Conservation

  function Length(rows: seq<Grant>, user: UserId, feature: Feature): int {
    if rows == [] then 0
    else
      var last := rows[|rows| - 1];
      Length(rows[..|rows| - 1], user, feature) + (if Of(last, user, feature) then last.expireAt - last.startAt else 0)
  }

  function Times(features: seq<Feature>, feature: Feature): nat {
    multiset(features)[feature]
  }

  predicate Distinct(features: seq<Feature>) {
    forall i, j :: 0 <= i < j < |features| ==> features[i] != features[j]
  }

  /** A tier's order buys every menu it kept, a menu's own order its one feature. */
  predicate Bought(o: Order, f: Feature) {
    if o.tier.Some? then f in o.features else o.feature == Some(f)
  }

  /** How often an order buys a menu. */
  function TimesBought(o: Order, feature: Feature): nat {
    if o.tier.Some? then Times(o.features, feature) else if o.feature == Some(feature) then 1 else 0
  }

  lemma MenusAreBought(o: Order)
    ensures forall f :: Times(Menus(o), f) == TimesBought(o, f)
    ensures forall f :: f in Menus(o) <==> Bought(o, f)
    ensures Distinct(o.features) ==> Distinct(Menus(o))
  {
  }

  /** Days of a menu bought by the approved orders of a company. */
  function DaysBought(orders: seq<Order>, user: UserId, feature: Feature): int {
    if orders == [] then 0
    else
      var o := orders[|orders| - 1];
      DaysBought(orders[..|orders| - 1], user, feature)
      + (if o.user == user && o.status.Approved? then o.days * TimesBought(o, feature) else 0)
  }

  function DaysGiven(gifts: seq<Gift>, user: UserId, feature: Feature): int {
    if gifts == [] then 0
    else
      var g := gifts[|gifts| - 1];
      DaysGiven(gifts[..|gifts| - 1], user, feature) + (if g.user == user && g.feature == feature then g.days else 0)
  }

  lemma LengthOfOneMore(rows: seq<Grant>, g: Grant, user: UserId, feature: Feature)
    ensures Length(rows + [g], user, feature) == Length(rows, user, feature) + (if Of(g, user, feature) then g.expireAt - g.startAt else 0)
  {
    assert (rows + [g])[..|rows|] == rows;
  }

  lemma {:induction false} AddGrantsLength(rows: seq<Grant>, u: UserId, features: seq<Feature>, days: int, now: int, order: OrderId,
                                           user: UserId, feature: Feature)
    ensures Length(AddGrants(rows, u, features, days, now, order), user, feature)
            == Length(rows, user, feature) + (if u == user then DAY_MS * (days * Times(features, feature)) else 0)
    decreases |features|
  {
    if features != [] {
      var g := NewGrant(rows, u, features[0], days, now, Some(order));
      LengthOfOneMore(rows, g, user, feature);
      AddGrantsLength(rows + [g], u, features[1..], days, now, order, user, feature);
      assert features == [features[0]] + features[1..];
      OneMoreTime(days, if features[0] == feature then 1 else 0, Times(features[1..], feature));
    }
  }

  lemma OneMoreTime(days: int, first: int, rest: int)
    requires first == 0 || first == 1
    ensures DAY_MS * (days * (first + rest)) == (if first == 1 then days * DAY_MS else 0) + DAY_MS * (days * rest)
  {
    if first == 1 { assert days * (1 + rest) == days + days * rest; }
  }

  lemma {:induction false} DecidingOne(orders: seq<Order>, id: OrderId, status: Status, user: UserId, feature: Feature)
    requires id < |orders| && orders[id].status.ReceiptSubmitted? && !status.ReceiptSubmitted?
    ensures var o := orders[id];
            DaysBought(orders[id := o.(status := status)], user, feature)
            == DaysBought(orders, user, feature)
               + (if o.user == user && status.Approved? then o.days * TimesBought(o, feature) else 0)
    decreases |orders|
  {
    var n := |orders| - 1;
    var orders' := orders[id := orders[id].(status := status)];
    if id < n {
      DecidingOne(orders[..n], id, status, user, feature);
      assert orders'[..n] == orders[..n][id := orders[id].(status := status)];
    } else {
      assert orders'[..n] == orders[..n];
    }
  }

  /** No bought or given day is lost or counted twice. */
  ghost predicate Conserved(w: World) {
    forall user, feature :: ConservedFor(w, user, feature)
  }

  predicate ConservedFor(w: World, user: UserId, feature: Feature) {
    Length(w.grants, user, feature) == DAY_MS * (DaysBought(w.orders, user, feature) + DaysGiven(w.gifts, user, feature))
  }

  lemma ApproveConserves(w: World, id: OrderId, user: UserId, feature: Feature)
    requires ConservedFor(w, user, feature) && Enabled(w, Approve(id))
    ensures ConservedFor(Apply(w, Approve(id)), user, feature)
  {
    var o := w.orders[id];
    MenusAreBought(o);
    AddGrantsLength(w.grants, o.user, Menus(o), o.days, w.now, id, user, feature);
    DecidingOne(w.orders, id, Approved, user, feature);
  }

  lemma GiveConserves(w: World, u: UserId, f: Feature, days: int, user: UserId, feature: Feature)
    requires ConservedFor(w, user, feature) && Enabled(w, Give(u, f, days))
    ensures ConservedFor(Apply(w, Give(u, f, days)), user, feature)
  {
    LengthOfOneMore(w.grants, NewGrant(w.grants, u, f, days, w.now, None), user, feature);
    assert Apply(w, Give(u, f, days)).gifts[..|w.gifts|] == w.gifts;
  }

  lemma WaitingBuysNothing(orders: seq<Order>, o: Order, user: UserId, feature: Feature)
    requires !o.status.Approved?
    ensures DaysBought(orders + [o], user, feature) == DaysBought(orders, user, feature)
  {
    assert (orders + [o])[..|orders|] == orders;
  }

  lemma SubmitConserves(w: World, e: Event, user: UserId, feature: Feature)
    requires ConservedFor(w, user, feature) && Enabled(w, e) && (e.SubmitTier? || e.SubmitMenu?)
    ensures ConservedFor(Apply(w, e), user, feature)
  {
    var orders := Apply(w, e).orders;
    WaitingBuysNothing(w.orders, orders[|orders| - 1], user, feature);
    assert orders == w.orders + [orders[|orders| - 1]];
  }

  lemma StepConserves(w: World, e: Event)
    requires Conserved(w) && Enabled(w, e)
    ensures Conserved(Apply(w, e))
  {
    forall user, feature ensures ConservedFor(Apply(w, e), user, feature) {
      assert ConservedFor(w, user, feature);
      match e {
        case Approve(id) => ApproveConserves(w, id, user, feature);
        case Give(u, f, days) => GiveConserves(w, u, f, days, user, feature);
        case Reject(id) => DecidingOne(w.orders, id, Rejected, user, feature);
        case SubmitTier(_, _, _) => SubmitConserves(w, e, user, feature);
        case SubmitMenu(_, _, _) => SubmitConserves(w, e, user, feature);
        case _ =>
      }
    }
  }

  //#endregion

  //#region Decisions

  function GrantsOf(rows: seq<Grant>, id: OrderId, feature: Feature): nat {
    if rows == [] then 0
    else
      var last := rows[|rows| - 1];
      GrantsOf(rows[..|rows| - 1], id, feature) + (if last.order == Some(id) && last.feature == feature then 1 else 0)
  }

  /** Exactly one grant per menu of an approved order, none for any other; an order names each menu once. */
  ghost predicate DecidedOnce(w: World) {
    && (forall t :: t in w.tiers ==> Distinct(w.tiers[t].features))
    && (forall id :: 0 <= id < |w.orders| ==> Distinct(w.orders[id].features) && w.orders[id].days >= 1)
    && (forall id: OrderId, f :: GrantsOf(w.grants, id, f)
          == if id < |w.orders| && w.orders[id].status.Approved? && Bought(w.orders[id], f) then 1 else 0)
  }

  lemma {:induction false} AddGrantsCount(rows: seq<Grant>, user: UserId, features: seq<Feature>, days: int, now: int, order: OrderId,
                                          id: OrderId, feature: Feature)
    requires Distinct(features)
    ensures GrantsOf(AddGrants(rows, user, features, days, now, order), id, feature)
            == GrantsOf(rows, id, feature) + (if id == order && feature in features then 1 else 0)
    decreases |features|
  {
    if features != [] {
      var g := NewGrant(rows, user, features[0], days, now, Some(order));
      assert (rows + [g])[..|rows|] == rows;
      AddGrantsCount(rows + [g], user, features[1..], days, now, order, id, feature);
      assert features == [features[0]] + features[1..];
    }
  }

  lemma InOrderDistinct(chosen: set<Feature>, from: seq<Feature>)
    requires Distinct(from)
    ensures Distinct(InOrder(chosen, from)) && forall f :: f in InOrder(chosen, from) <==> f in from && f in chosen
  {
    if from != [] {
      InOrderDistinct(chosen, from[1..]);
      assert from == [from[0]] + from[1..];
    }
  }

  lemma StepDecidesOnce(w: World, e: Event)
    requires DecidedOnce(w) && Enabled(w, e)
    ensures DecidedOnce(Apply(w, e))
  {
    var w' := Apply(w, e);
    if e.UpdateTier? { InOrderDistinct(e.chosen, FEATURES); }
    forall id: OrderId, f
      ensures GrantsOf(w'.grants, id, f)
              == if id < |w'.orders| && w'.orders[id].status.Approved? && Bought(w'.orders[id], f) then 1 else 0
    {
      StepCounts(w, e, id, f);
    }
  }

  lemma StepCounts(w: World, e: Event, id: OrderId, f: Feature)
    requires Enabled(w, e) && (e.Approve? ==> Distinct(w.orders[e.id].features))
    requires GrantsOf(w.grants, id, f) == if id < |w.orders| && w.orders[id].status.Approved? && Bought(w.orders[id], f) then 1 else 0
    ensures var w' := Apply(w, e);
            GrantsOf(w'.grants, id, f)
            == if id < |w'.orders| && w'.orders[id].status.Approved? && Bought(w'.orders[id], f) then 1 else 0
  {
    if e.Approve? {
      var o := w.orders[e.id];
      MenusAreBought(o);
      AddGrantsCount(w.grants, o.user, Menus(o), o.days, w.now, e.id, id, f);
    } else if e.Give? {
      assert Apply(w, e).grants[..|w.grants|] == w.grants;
    }
  }

  /** A decision is final: an approved or rejected order never changes again, in any run. */
  lemma {:induction false} DecisionIsFinal(w: World, es: seq<Event>, id: OrderId)
    requires CanRun(w, es) && id < |w.orders| && !w.orders[id].status.ReceiptSubmitted?
    ensures id < |Run(w, es).orders| && Run(w, es).orders[id] == w.orders[id]
    decreases |es|
  {
    if es != [] {
      DecisionIsFinal(Apply(w, es[0]), es[1..], id);
    }
  }

  //#endregion

  //#region What every run keeps

  ghost predicate Inv(w: World) {
    Chained(w.grants, w.now) && Conserved(w) && DecidedOnce(w)
  }

  lemma StepKeepsInv(w: World, e: Event)
    requires Inv(w) && Enabled(w, e)
    ensures Inv(Apply(w, e))
  {
    StepConserves(w, e);
    StepDecidesOnce(w, e);
    match e {
      case Approve(id) => AddGrantsChain(w.grants, w.orders[id].user, Menus(w.orders[id]), w.orders[id].days, w.now, id);
      case Give(user, feature, days) => NewGrantChains(w.grants, user, feature, days, w.now, None);
      case Tick(ms) => Later(w.grants, w.now, w.now + ms);
      case _ =>
    }
  }

  lemma Later(rows: seq<Grant>, now: int, later: int)
    requires Chained(rows, now) && later >= now
    ensures Chained(rows, later)
  {
  }

  lemma {:induction false} RunKeepsInv(w: World, es: seq<Event>)
    requires Inv(w) && CanRun(w, es)
    ensures Inv(Run(w, es))
    decreases |es|
  {
    if es != [] {
      StepKeepsInv(w, es[0]);
      RunKeepsInv(Apply(w, es[0]), es[1..]);
    }
  }

  /**
   * After any run of purchases, decisions, gifts and waiting, from an empty start: two periods of a menu never overlap;
   * the menu is covered from now exactly until its latest end; and all its time adds up to the days of the approved
   * orders that bought it and of the gifts.
   */
  lemma BoughtTimeIsKept(now: int, tiers: map<Tier, TierPlan>, es: seq<Event>, user: UserId, feature: Feature)
    requires forall t :: t in tiers ==> Distinct(tiers[t].features)
    requires CanRun(World(now, [], [], [], tiers), es)
    ensures var w := Run(World(now, [], [], [], tiers), es);
            && (forall i, j, t :: 0 <= i < j < |w.grants| && Of(w.grants[i], user, feature) && Of(w.grants[j], user, feature) ==>
                  !(Covers(w.grants[i], t) && Covers(w.grants[j], t)))
            && (forall t :: t >= w.now ==> (Covered(w.grants, user, feature, t) <==> t < NextStart(w.grants, user, feature, w.now)))
            && Length(w.grants, user, feature) == DAY_MS * (DaysBought(w.orders, user, feature) + DaysGiven(w.gifts, user, feature))
  {
    var w0 := World(now, [], [], [], tiers);
    RunKeepsInv(w0, es);
    var w := Run(w0, es);
    assert ConservedFor(w, user, feature);
    forall t | t >= w.now ensures Covered(w.grants, user, feature, t) <==> t < NextStart(w.grants, user, feature, w.now) {
      ChainHasNoGap(w.grants, user, feature, w.now, t);
    }
  }

  /**
   * Why each grant must read and insert in one go: inserted from a read that other insertions followed, it overlaps
   * exactly when one of those was for the same menu.
   */
  lemma StaleReadOverlaps(rows: seq<Grant>, between: seq<Grant>, all: seq<Grant>, user: UserId, feature: Feature, days: int, now: int)
    requires all == rows + between && Chained(all, now)
    requires days >= 1 && forall b :: b in between ==> b.expireAt > now
    ensures Chained(all + [NewGrant(rows, user, feature, days, now, None)], now)
            <==> forall b :: b in between ==> !Of(b, user, feature)
  {
    if b :| b in between && Of(b, user, feature) {
      var k := PlaceIn(rows, between, all, b);
      OverlapsIt(rows, all, user, feature, days, now, k);
    } else {
      AppendedChains(rows, between, all, user, feature, days, now);
    }
  }

  lemma PlaceIn(rows: seq<Grant>, between: seq<Grant>, all: seq<Grant>, b: Grant) returns (k: nat)
    requires all == rows + between && b in between
    ensures |rows| <= k < |all| && all[k] == b && all[..|rows|] == rows
  {
    var i :| 0 <= i < |between| && between[i] == b;
    k := |rows| + i;
  }

  lemma OverlapsIt(rows: seq<Grant>, all: seq<Grant>, user: UserId, feature: Feature, days: int, now: int, k: nat)
    requires Chained(all, now) && |rows| <= k < |all| && all[..|rows|] == rows && Of(all[k], user, feature) && all[k].expireAt > now
    ensures !Chained(all + [NewGrant(rows, user, feature, days, now, None)], now)
  {
    var g := NewGrant(rows, user, feature, days, now, None);
    if g.startAt != now { LaterStartsBehind(rows, all, user, feature, now, k); }
    OverlapBreaks(all + [g], now, k, |all|);
  }

  lemma AppendedChains(rows: seq<Grant>, between: seq<Grant>, all: seq<Grant>, user: UserId, feature: Feature, days: int, now: int)
    requires all == rows + between && Chained(all, now) && days >= 1 && forall b :: b in between ==> !Of(b, user, feature)
    ensures Chained(all + [NewGrant(rows, user, feature, days, now, None)], now)
  {
    NextStartIgnores(rows, between, user, feature, now);
    assert NewGrant(rows, user, feature, days, now, None) == NewGrant(all, user, feature, days, now, None);
    NewGrantChains(all, user, feature, days, now, None);
  }

  lemma OverlapBreaks(rows: seq<Grant>, now: int, i: nat, j: nat)
    requires i < j < |rows| && Of(rows[j], rows[i].user, rows[i].feature) && rows[i].expireAt > rows[j].startAt
    ensures !Chained(rows, now)
  {
  }

  lemma LaterStartsBehind(rows: seq<Grant>, all: seq<Grant>, user: UserId, feature: Feature, now: int, k: nat)
    requires Chained(all, now) && |rows| <= k < |all| && all[..|rows|] == rows && Of(all[k], user, feature)
    requires NextStart(rows, user, feature, now) != now
    ensures NextStart(rows, user, feature, now) <= all[k].startAt < all[k].expireAt
  {
    NextStartIsLatest(rows, user, feature, now);
    var h :| h in rows && Of(h, user, feature) && h.expireAt == NextStart(rows, user, feature, now);
    var i :| 0 <= i < |rows| && rows[i] == h;
    assert all[i] == all[..|rows|][i];
  }

  lemma {:induction false} NextStartIgnores(rows: seq<Grant>, between: seq<Grant>, user: UserId, feature: Feature, now: int)
    requires forall b :: b in between ==> !Of(b, user, feature)
    ensures NextStart(rows + between, user, feature, now) == NextStart(rows, user, feature, now)
    decreases |between|
  {
    if between == [] {
      assert rows + between == rows;
    } else {
      var n := |between| - 1;
      NextStartIgnores(rows, between[..n], user, feature, now);
      assert (rows + between)[..|rows| + n] == rows + between[..n];
    }
  }

  //#endregion
}
