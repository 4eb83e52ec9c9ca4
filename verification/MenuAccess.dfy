/**
 * What a company may use now: openGrants, lockedFeatures (the access check) and status (the purchase page), and the
 * operations that change the rows they read.
 */
module MenuAccess {
  import opened Options
  import opened MenuTime

  //#region Who pays for what

  datatype Account = Account(isParent: bool, invitedBy: Option<UserId>, approved: bool)

  datatype Standing = Standing(isParent: bool, invited: bool, verified: bool)

  function StandingOf(account: Option<Account>): Standing {
    match account
    case None => Standing(false, false, true)
    case Some(a) => Standing(a.isParent, !a.isParent && a.invitedBy.Some?, a.approved)
  }

  /** plans: the features of the active plans, one per plan */
  datatype Catalog = Catalog(tiers: map<Tier, TierPlan>, plans: seq<Feature>, menuPurchase: bool)

  predicate InTier(c: Catalog, tier: Tier, feature: Feature) {
    tier in c.tiers && c.tiers[tier].active && feature in c.tiers[tier].features
  }

  /** Menus somebody has to pay for: in a tier on sale, or with a plan of its own while menus are sold one by one. */
  predicate Sold(c: Catalog, feature: Feature) {
    InTier(c, Bronze, feature) || InTier(c, Silver, feature) || InTier(c, Gold, feature) || (c.menuPurchase && feature in c.plans)
  }

  method PaidFeatures(c: Catalog) returns (paid: set<Feature>)
    ensures forall f :: f in paid <==> Sold(c, f)
  {
    var tiers := [Bronze, Silver, Gold];
    paid := {};
    for i := 0 to |tiers|
      invariant forall f :: f in paid <==> exists j :: 0 <= j < i && InTier(c, tiers[j], f)
    {
      if tiers[i] in c.tiers && c.tiers[tiers[i]].active {
        paid := paid + (set f | f in c.tiers[tiers[i]].features);
      }
    }
    assert forall f :: f in paid <==> InTier(c, Bronze, f) || InTier(c, Silver, f) || InTier(c, Gold, f) by {
      assert tiers[0] == Bronze && tiers[1] == Silver && tiers[2] == Gold;
    }
    if c.menuPurchase {
      ghost var tierPaid := paid;
      for i := 0 to |c.plans|
        invariant forall f :: f in paid <==> f in tierPaid || f in c.plans[..i]
      {
        paid := paid + {c.plans[i]};
      }
      assert c.plans[..|c.plans|] == c.plans;
    }
  }

  //#endregion

  //#region Open periods

  /** open has a menu exactly while one of its periods runs, with the latest end of all its periods. */
  ghost predicate IsOpenMap(grants: seq<Grant>, user: UserId, now: int, open: map<Feature, int>) {
    forall f ::
      && (f in open <==> Covered(grants, user, f, now))
      && (f in open ==> open[f] == NextStart(grants, user, f, now))
  }

  predicate HasStartedRow(rows: seq<Grant>, f: Feature, now: int) {
    exists g :: g in rows && g.feature == f && g.startAt <= now
  }

  /** ends is the map of the latest end per menu of the rows. */
  ghost predicate LatestEnds(rows: seq<Grant>, ends: map<Feature, int>) {
    && (forall f :: f in ends ==> exists g :: g in rows && g.feature == f && g.expireAt == ends[f])
    && (forall g :: g in rows ==> g.feature in ends && g.expireAt <= ends[g.feature])
  }

  method CollectEnds(rows: seq<Grant>) returns (ends: map<Feature, int>)
    ensures LatestEnds(rows, ends)
  {
    ends := map[];
    for i := 0 to |rows|
      invariant LatestEnds(rows[..i], ends)
    {
      var row := rows[i];
      ghost var before := ends;
      if row.feature !in ends || row.expireAt > ends[row.feature] {
        ends := ends[row.feature := row.expireAt];
      }
      EndsWithOneMore(rows[..i], row, before, ends);
      assert rows[..i + 1] == rows[..i] + [row];
    }
    assert rows[..|rows|] == rows;
  }

  lemma EndsWithOneMore(rows: seq<Grant>, row: Grant, ends: map<Feature, int>, ends': map<Feature, int>)
    requires LatestEnds(rows, ends)
    requires ends' == if row.feature !in ends || row.expireAt > ends[row.feature] then ends[row.feature := row.expireAt] else ends
    ensures LatestEnds(rows + [row], ends')
  {
    forall f | f in ends' ensures exists g :: g in rows + [row] && g.feature == f && g.expireAt == ends'[f] {
      if f in ends && ends[f] == ends'[f] {
        var g :| g in rows && g.feature == f && g.expireAt == ends[f];
        assert g in rows + [row];
      } else {
        assert row in rows + [row];
      }
    }
  }

  method Prune(ends: map<Feature, int>, rows: seq<Grant>, now: int) returns (open: map<Feature, int>)
    ensures forall f :: f in open <==> f in ends && HasStartedRow(rows, f, now)
    ensures forall f :: f in open ==> open[f] == ends[f]
  {
    open := ends;
    var keys := ends.Keys;
    while keys != {}
      invariant keys <= open.Keys <= ends.Keys
      invariant forall f :: f in open ==> open[f] == ends[f]
      invariant forall f :: f in ends && f !in keys ==> (f in open <==> HasStartedRow(rows, f, now))
      decreases |keys|
    {
      var f :| f in keys;
      if !HasStartedRow(rows, f, now) { open := open - {f}; }
      keys := keys - {f};
    }
  }

  /** rows: the unexpired grants of the company as the database returns them, in any order. */
  method OpenGrants(ghost grants: seq<Grant>, user: UserId, now: int, rows: seq<Grant>) returns (open: map<Feature, int>)
    requires AreUnexpired(grants, user, now, rows)
    ensures IsOpenMap(grants, user, now, open)
  {
    var ends := CollectEnds(rows);
    open := Prune(ends, rows, now);
    forall f {
      OpenEntry(grants, user, now, rows, ends, f);
    }
  }

  ghost predicate AreUnexpired(grants: seq<Grant>, user: UserId, now: int, rows: seq<Grant>) {
    forall g :: g in rows <==> g in grants && g.user == user && g.expireAt > now
  }

  lemma OpenEntry(grants: seq<Grant>, user: UserId, now: int, rows: seq<Grant>, ends: map<Feature, int>, f: Feature)
    requires AreUnexpired(grants, user, now, rows) && LatestEnds(rows, ends)
    ensures f in ends && HasStartedRow(rows, f, now) <==> Covered(grants, user, f, now)
    ensures f in ends ==> ends[f] == NextStart(grants, user, f, now)
  {
    NextStartIsLatest(grants, user, f, now);
    if f in ends {
      var g :| g in rows && g.feature == f && g.expireAt == ends[f];
      assert g in grants && Of(g, user, f);
    }
    if f in ends && HasStartedRow(rows, f, now) {
      var g :| g in rows && g.feature == f && g.startAt <= now;
      assert Of(g, user, f) && Covers(g, now);
    }
    if Covered(grants, user, f, now) {
      var g :| g in grants && Of(g, user, f) && Covers(g, now);
      assert g in rows;
    }
  }

  /** On every reachable state (RunKeepsInv) a menu with an unexpired period also has a running one: nothing is ever pruned. */
  lemma PruningRemovesNothing(w: World, g: Grant)
    requires Chained(w.grants, w.now) && g in w.grants && g.expireAt > w.now
    ensures Covered(w.grants, g.user, g.feature, w.now)
  {
    assert Of(g, g.user, g.feature);
    NextStartIsLatest(w.grants, g.user, g.feature, w.now);
    ChainHasNoGap(w.grants, g.user, g.feature, w.now, w.now);
  }

  /**
   * The reported end is exact: if nothing more is bought, then at any later time the menu is open if and only if it
   * is open now and that time is before the end reported now.
   */
  lemma ReportedEndIsExact(w: World, user: UserId, f: Feature, open: map<Feature, int>, later: int, openLater: map<Feature, int>)
    requires Chained(w.grants, w.now) && later >= w.now
    requires IsOpenMap(w.grants, user, w.now, open) && IsOpenMap(w.grants, user, later, openLater)
    ensures f in openLater <==> f in open && later < open[f]
    ensures f in openLater ==> openLater[f] == open[f]
  {
    ChainHasNoGap(w.grants, user, f, w.now, later);
    ChainHasNoGap(w.grants, user, f, w.now, w.now);
    if f in openLater { SameEnd(w.grants, user, f, w.now, later); }
  }

  lemma SameEnd(rows: seq<Grant>, user: UserId, f: Feature, now: int, later: int)
    requires now <= later && Covered(rows, user, f, later)
    ensures NextStart(rows, user, f, later) == NextStart(rows, user, f, now)
  {
    NextStartIsLatest(rows, user, f, now);
    NextStartIsLatest(rows, user, f, later);
    var g :| g in rows && Of(g, user, f) && Covers(g, later);
  }

  //#endregion

  //#region The access check and the purchase page

  datatype FeatureState = FeatureState(feature: Feature, paid: bool, locked: bool, expireAt: Option<int>)

  function FeatureStatus(s: Standing, c: Catalog, open: map<Feature, int>, f: Feature): FeatureState {
    var paid := (c.menuPurchase && f in c.plans) || InTier(c, Bronze, f) || InTier(c, Silver, f) || InTier(c, Gold, f);
    var expireAt := if f in open then Some(open[f]) else None;
    FeatureState(f, paid, !s.isParent && (!s.verified || ((s.invited || paid) && expireAt.None?)), expireAt)
  }

  /** The purchase page's menus, in the enumeration's order. */
  function StatusPage(s: Standing, c: Catalog, open: map<Feature, int>): seq<FeatureState> {
    seq(|FEATURES|, i requires 0 <= i < |FEATURES| => FeatureStatus(s, c, open, FEATURES[i]))
  }

  /** The page has every menu, and what it says of each is its status. */
  lemma PageHasEveryMenu(s: Standing, c: Catalog, open: map<Feature, int>, f: Feature)
    ensures FeatureStatus(s, c, open, f) in StatusPage(s, c, open)
    ensures forall shown :: shown in StatusPage(s, c, open) && shown.feature == f ==> shown == FeatureStatus(s, c, open, f)
  {
    EveryFeature(f);
    var i :| 0 <= i < |FEATURES| && FEATURES[i] == f;
    assert StatusPage(s, c, open)[i] == FeatureStatus(s, c, open, f);
  }

  /** A menu of some active tier, or one with an active plan while menus are sold one by one. */
  predicate HasPrice(c: Catalog, f: Feature) {
    (exists t :: t in c.tiers && c.tiers[t].active && f in c.tiers[t].features) || (c.menuPurchase && f in c.plans)
  }

  predicate PeriodRuns(grants: seq<Grant>, user: UserId, f: Feature, now: int) {
    exists g :: g in grants && g.user == user && g.feature == f && g.startAt <= now < g.expireAt
  }

  lemma CoveredRuns(grants: seq<Grant>, user: UserId, f: Feature, now: int)
    ensures Covered(grants, user, f, now) <==> PeriodRuns(grants, user, f, now)
  {
    if g :| g in grants && g.user == user && g.feature == f && g.startAt <= now < g.expireAt {
      assert Of(g, user, f) && Covers(g, now);
    }
  }

  lemma SoldIsPriced(c: Catalog, f: Feature)
    ensures Sold(c, f) <==> HasPrice(c, f)
  {
    if t :| t in c.tiers && c.tiers[t].active && f in c.tiers[t].features {
      assert t == Bronze || t == Silver || t == Gold;
    }
  }

  /**
   * What the page says of a menu: paid for exactly if it has a price, with the end of the company's own periods exactly
   * while one of them runs, and locked for a company that is no parent exactly if that company is not approved yet, or
   * was invited or the menu has a price, and no period of its own runs.
   */
  lemma PageTells(account: Option<Account>, c: Catalog, grants: seq<Grant>, user: UserId, now: int, open: map<Feature, int>, f: Feature)
    requires IsOpenMap(grants, user, now, open)
    ensures var shown := FeatureStatus(StandingOf(account), c, open, f);
            && shown.feature == f && (shown.paid <==> HasPrice(c, f))
            && (shown.expireAt.Some? <==> PeriodRuns(grants, user, f, now))
            && (shown.expireAt.Some? ==>
                  && (exists g :: g in grants && g.user == user && g.feature == f && g.expireAt == shown.expireAt.value)
                  && (forall g :: g in grants && g.user == user && g.feature == f ==> g.expireAt <= shown.expireAt.value))
            && (shown.locked <==>
                  && (account.Some? ==> !account.value.isParent)
                  && ((account.Some? && !account.value.approved)
                      || (((account.Some? && account.value.invitedBy.Some?) || HasPrice(c, f)) && !PeriodRuns(grants, user, f, now))))
  {
    SoldIsPriced(c, f);
    NextStartIsLatest(grants, user, f, now);
    CoveredRuns(grants, user, f, now);
  }

  /** The menus a company does not have now. The page never disagrees: it locks exactly these. */
  method LockedFeatures(account: Option<Account>, c: Catalog, ghost grants: seq<Grant>, user: UserId, now: int, rows: seq<Grant>)
    returns (locked: set<Feature>)
    requires AreUnexpired(grants, user, now, rows)
    ensures account.Some? && account.value.isParent ==> locked == {}
    ensures account.Some? && !account.value.isParent && !account.value.approved ==> forall f :: f in locked
    ensures account.None? || (!account.value.isParent && account.value.approved) ==>
              forall f :: f in locked <==> ((account.Some? && account.value.invitedBy.Some?) || HasPrice(c, f)) && !PeriodRuns(grants, user, f, now)
    ensures forall open, f :: IsOpenMap(grants, user, now, open) ==>
              (f in locked <==> FeatureStatus(StandingOf(account), c, open, f).locked)
    ensures forall open, shown :: IsOpenMap(grants, user, now, open) && shown in StatusPage(StandingOf(account), c, open) ==>
              (shown.feature in locked <==> shown.locked)
  {
    var s := StandingOf(account);
    if s.isParent { return {}; }
    forall f ensures f in FEATURES && (Sold(c, f) <==> HasPrice(c, f)) {
      EveryFeature(f);
      SoldIsPriced(c, f);
    }
    var all := set f | f in FEATURES;
    if !s.verified { return all; }
    locked := all;
    if !s.invited { locked := PaidFeatures(c); }
    if locked == {} { return; }
    var open := OpenGrants(grants, user, now, rows);
    locked := Without(locked, open.Keys);
    assert forall other, f :: IsOpenMap(grants, user, now, other) ==> (f in other <==> f in open);
    forall f ensures f in open <==> PeriodRuns(grants, user, f, now) {
      CoveredRuns(grants, user, f, now);
    }
  }

  method Without(locked: set<Feature>, open: set<Feature>) returns (left: set<Feature>)
    ensures left == locked - open
  {
    left := locked;
    var keys := open;
    while keys != {}
      invariant keys <= open && left == locked - (open - keys)
      decreases |keys|
    {
      var f :| f in keys;
      left := left - {f};
      keys := keys - {f};
    }
  }

  lemma EveryFeature(f: Feature)
    ensures f in FEATURES
  {
    match f
    case Suggestions => assert FEATURES[0] == f;
    case CreateLoad => assert FEATURES[1] == f;
    case PublishedLoads => assert FEATURES[2] == f;
    case DriverRequests => assert FEATURES[3] == f;
    case Trips => assert FEATURES[4] == f;
    case Drivers => assert FEATURES[5] == f;
    case Channels => assert FEATURES[6] == f;
    case Agent => assert FEATURES[7] == f;
    case Factories => assert FEATURES[8] == f;
  }

  /** hasFeature and the page, menu by menu and over time: a page loaded now tells until when each menu stays open. */
  lemma PageTellsWhenMenusLock(w: World, s: Standing, c: Catalog, user: UserId, f: Feature,
                               open: map<Feature, int>, later: int, openLater: map<Feature, int>)
    requires Chained(w.grants, w.now) && later >= w.now
    requires IsOpenMap(w.grants, user, w.now, open) && IsOpenMap(w.grants, user, later, openLater)
    ensures var shown := FeatureStatus(s, c, open, f);
            FeatureStatus(s, c, openLater, f).locked
            <==> shown.locked || (!s.isParent && (s.invited || shown.paid) && shown.expireAt.Some? && later >= shown.expireAt.value)
  {
    ReportedEndIsExact(w, user, f, open, later, openLater);
  }

  //#endregion

  //#region The operations

  datatype Outcome = Done | Refused

  /** The latest end among the menu's open periods, or now. */
  method StartOfNext(rows: seq<Grant>, user: UserId, feature: Feature, now: int) returns (start: int)
    ensures start == NextStart(rows, user, feature, now)
  {
    start := now;
    for i := 0 to |rows|
      invariant start == NextStart(rows[..i], user, feature, now)
    {
      assert rows[..i + 1][..i] == rows[..i];
      if Of(rows[i], user, feature) && rows[i].expireAt > start { start := rows[i].expireAt; }
    }
    assert rows[..|rows|] == rows;
  }

  /** A period an order bought: its company's, for exactly its days, and not in the past. */
  predicate IsPeriod(g: Grant, user: UserId, feature: Feature, days: int, now: int, id: OrderId) {
    g.user == user && g.feature == feature && g.expireAt - g.startAt == days * 86_400_000 && g.startAt >= now && g.order == Some(id)
  }

  /** An approval's periods, one after another. */
  method GrantAll(rows: seq<Grant>, user: UserId, features: seq<Feature>, days: int, now: int, id: OrderId) returns (made: seq<Grant>)
    ensures |made| == |features| && rows + made == AddGrants(rows, user, features, days, now, id)
    ensures forall i :: 0 <= i < |made| ==> IsPeriod(made[i], user, features[i], days, now, id)
  {
    ghost var target := AddGrants(rows, user, features, days, now, id);
    made := [];
    var all := rows;
    for i := 0 to |features|
      invariant |made| == i && all == rows + made
      invariant forall j :: 0 <= j < i ==> IsPeriod(made[j], user, features[j], days, now, id)
      invariant AddGrants(all, user, features[i..], days, now, id) == target
    {
      var start := StartOfNext(all, user, features[i], now);
      var g := Grant(user, features[i], start, start + days * DAY_MS, Some(id));
      NextStartIsLatest(all, user, features[i], now);
      OneMoreGrant(all, g, user, features[i..], days, now, id);
      assert features[i..][1..] == features[i + 1..];
      all, made := all + [g], made + [g];
    }
    assert features[|features|..] == [];
  }

  lemma OneMoreGrant(rows: seq<Grant>, g: Grant, user: UserId, features: seq<Feature>, days: int, now: int, id: OrderId)
    requires features != [] && g == NewGrant(rows, user, features[0], days, now, Some(id))
    ensures AddGrants(rows + [g], user, features[1..], days, now, id) == AddGrants(rows, user, features, days, now, id)
  {
  }

  lemma MadeForEach(made: seq<Grant>, o: Order, now: int, id: OrderId)
    requires Distinct(o.features) && |made| == |Menus(o)|
    requires forall i :: 0 <= i < |made| ==> IsPeriod(made[i], o.user, Menus(o)[i], o.days, now, id)
    ensures forall g :: g in made ==> IsPeriod(g, o.user, g.feature, o.days, now, id)
    ensures forall f :: (exists g :: g in made && g.feature == f) <==> Bought(o, f)
    ensures forall i, j :: 0 <= i < j < |made| ==> made[i].feature != made[j].feature
  {
    MenusAreBought(o);
    forall f ensures (exists g :: g in made && g.feature == f) <==> Bought(o, f) {
      if Bought(o, f) {
        var i :| 0 <= i < |Menus(o)| && Menus(o)[i] == f;
        assert made[i] in made;
      }
    }
  }

  method LatestOf(made: seq<Grant>) returns (latest: Grant)
    requires made != []
    ensures latest in made && forall g :: g in made ==> g.expireAt <= latest.expireAt
  {
    latest := made[0];
    for i := 1 to |made|
      invariant latest in made && forall j :: 0 <= j < i ==> made[j].expireAt <= latest.expireAt
    {
      if made[i].expireAt > latest.expireAt { latest := made[i]; }
    }
  }

  class CompanyMenus {
    var now: int
    var grants: seq<Grant>
    var orders: seq<Order>
    var tiers: map<Tier, TierPlan>
    ghost var gifts: seq<Gift>

    ghost function State(): World
      reads this
    {
      World(now, grants, orders, gifts, tiers)
    }

    constructor (now: int, tiers: map<Tier, TierPlan>)
      requires forall t :: t in tiers ==> Distinct(tiers[t].features)
      ensures Inv(State()) && this.tiers == tiers && grants == [] && orders == [] && gifts == [] && this.now == now
    {
      this.now, this.tiers := now, tiers;
      grants, orders, gifts := [], [], [];
    }

    /** The start is behind the latest open period of the menu, or now. */
    method AddGrant(user: UserId, feature: Feature, days: int, order: Option<OrderId>) returns (g: Grant)
      modifies this`grants
      ensures g == NewGrant(old(grants), user, feature, days, now, order)
      ensures grants == old(grants) + [g]
    {
      var start := StartOfNext(grants, user, feature, now);
      g := Grant(user, feature, start, start + days * DAY_MS, order);
      grants := grants + [g];
    }

    method GiveMenu(user: UserId, feature: Feature, days: int) returns (g: Grant)
      requires Inv(State()) && 1 <= days <= 3650
      modifies this`grants, this`gifts
      ensures Inv(State()) && State() == Apply(old(State()), Give(user, feature, days))
      ensures grants == old(grants) + [g] && g.user == user && g.feature == feature && g.order.None?
      ensures g.expireAt - g.startAt == days * 86_400_000 && g.startAt >= now
    {
      StepKeepsInv(State(), Give(user, feature, days));
      NextStartIsLatest(grants, user, feature, now);
      g := AddGrant(user, feature, days, None);
      gifts := gifts + [Gift(user, feature, days)];
    }

    /** Refused: no such order, one already decided, or one without a menu; then nothing changes. */
    method ApproveOrder(id: OrderId) returns (r: Outcome, latest: Option<Grant>)
      requires Inv(State())
      modifies this`grants, this`orders
      ensures Inv(State())
      ensures r.Done? <==> id < |old(orders)| && old(orders)[id].status.ReceiptSubmitted?
                           && (if old(orders)[id].tier.Some? then old(orders)[id].features != [] else old(orders)[id].feature.Some?)
      ensures r.Refused? ==> State() == old(State())
      ensures r.Done? ==> State() == Apply(old(State()), Approve(id))
      ensures r.Done? ==> orders == old(orders)[id := old(orders)[id].(status := Approved)] && old(grants) <= grants
      ensures r.Done? ==> var o := old(orders)[id]; var made := grants[|old(grants)|..];
                && (forall g :: g in made ==> IsPeriod(g, o.user, g.feature, o.days, now, id))
                && (forall f :: (exists g :: g in made && g.feature == f) <==> if o.tier.Some? then f in o.features else o.feature == Some(f))
                && (forall i, j :: 0 <= i < j < |made| ==> made[i].feature != made[j].feature)
                && latest.Some? && latest.value in made && forall g :: g in made ==> g.expireAt <= latest.value.expireAt
    {
      if id >= |orders| || !orders[id].status.ReceiptSubmitted? { return Refused, None; }
      var o := orders[id];
      if Menus(o) == [] { return Refused, None; }
      StepKeepsInv(State(), Approve(id));
      var made := GrantAll(grants, o.user, Menus(o), o.days, now, id);
      var last := LatestOf(made);
      assert (grants + made)[|grants|..] == made;
      MenusAreBought(o);
      MadeForEach(made, o, now, id);
      grants := grants + made;
      orders := orders[id := o.(status := Approved)];
      return Done, Some(last);
    }

    method RejectOrder(id: OrderId) returns (r: Outcome)
      requires Inv(State())
      modifies this`orders
      ensures Inv(State()) && (r.Done? <==> id < |old(orders)| && old(orders)[id].status.ReceiptSubmitted?)
      ensures State() == if r.Done? then Apply(old(State()), Reject(id)) else old(State())
      ensures orders == if r.Done? then old(orders)[id := old(orders)[id].(status := Rejected)] else old(orders)
    {
      if id >= |orders| || !orders[id].status.ReceiptSubmitted? { return Refused; }
      StepKeepsInv(State(), Reject(id));
      orders := orders[id := orders[id].(status := Rejected)];
      r := Done;
    }

    /** open: whether a tier's receipt of this company already waits. */
    method SubmitTierOrder(user: UserId, isParent: bool, tier: Tier, months: TierMonths) returns (r: Outcome)
      requires Inv(State())
      modifies this`orders
      ensures Inv(State())
      ensures r.Done? <==> (!isParent && tier in tiers && tiers[tier].active && tiers[tier].features != [] && months in tiers[tier].sold
                            && !exists o :: o in old(orders) && o.user == user && o.tier.Some? && o.status.ReceiptSubmitted?)
      ensures orders == if r.Refused? then old(orders)
                        else old(orders) + [Order(user, Some(tier), None, tiers[tier].features,
                          if months.One? then 30 else if months.Three? then 90 else if months.Six? then 180 else 365, ReceiptSubmitted)]
      ensures State() == if r.Done? then Apply(old(State()), SubmitTier(user, tier, months)) else old(State())
    {
      if isParent || tier !in tiers || !tiers[tier].active || tiers[tier].features == [] || months !in tiers[tier].sold {
        return Refused;
      }
      if exists o :: o in orders && o.user == user && o.tier.Some? && o.status.ReceiptSubmitted? { return Refused; }
      StepKeepsInv(State(), SubmitTier(user, tier, months));
      orders := orders + [Order(user, Some(tier), None, tiers[tier].features, MonthDays(months), ReceiptSubmitted)];
      r := Done;
    }
  }

  //#endregion
}
