/**
 * The SMS codes of one phone number: RegistrationService.withLock, requestOtp and verifyOtp over their four Redis keys
 * (lock, sends, cooldown, pending code), one command at a time, with SMS codes switched on. Times are milliseconds.
 */
module OneTimeCodes {
  import opened Options

  type Pid = nat

  const LOCK_MS: int := 120_000
  const CODE_MS: int := 300_000
  const COOLDOWN_MS: int := 60_000
  const WINDOW_MS: int := 3_600_000
  const MAX_ATTEMPTS: nat := 5
  const MAX_SENDS: nat := 3

  //#region The keys, the clients and their steps

  datatype Lock = Lock(owner: Pid, until: int)
  /** until None: the counter was made by INCR and has no time yet */
  datatype Counter = Counter(count: nat, until: Option<int>)
  /** id: which of the stored codes this is; secret stands for the digest */
  datatype Pending = Pending(id: nat, secret: nat, expiresAt: int, attempts: nat)
  datatype PendingKey = PendingKey(value: Pending, until: int)

  /** The next command of a client that holds the lock. counted: the counter was there when it was checked. */
  datatype Step =
    | CheckSends
    | SetCooldown(counted: bool)
    | SendSms(counted: bool)
    | StoreCode(counted: bool, secret: nat)
    | Increment(counted: bool)
    | StartWindow(counted: bool)
    | ExtendWindow(counted: bool)
    | CleanUp
    | ReadCode(guess: nat)
    | Compare(guess: nat, pending: Pending)
    | WriteBack(pending: Pending)
    | Erase
    | Rest   // the answer, or the sign-in that follows an accepted code; the lock is released next

  datatype Client = Client(since: int, step: Step)

  /** What happened to a stored code, for the statements only. */
  datatype CodeLog = CodeLog(storedAt: int, wrong: nat, accepted: nat)

  /** successes: how many codes had been stored at each accepted one */
  datatype World = World(
    now: int, lock: Option<Lock>, sends: Option<Counter>, cooldown: Option<int>, pending: Option<PendingKey>,
    clients: map<Pid, Client>, used: set<Pid>, codes: seq<CodeLog>, successes: set<nat>)

  datatype Event =
    | Tick(ms: nat)
    | Acquire(pid: Pid, first: Step)
    | Sms(pid: Pid, secret: Option<nat>)   // the provider's answer: a code, or a failure
    | Go(pid: Pid)
    | Release(pid: Pid)

  predicate LockHeld(w: World) {
    w.lock.Some? && w.now < w.lock.value.until
  }

  predicate SendsLive(w: World) {
    w.sends.Some? && (w.sends.value.until.None? || w.now < w.sends.value.until.value)
  }

  predicate CooldownLive(w: World) {
    w.cooldown.Some? && w.now < w.cooldown.value
  }

  predicate CodeLive(w: World) {
    w.pending.Some? && w.now < w.pending.value.until
  }

  predicate Enabled(w: World, e: Event) {
    match e
    case Tick(_) => true
    case Acquire(pid, first) => pid !in w.used && (first.CheckSends? || first.ReadCode? || first.Rest?)
    case Sms(pid, _) => pid in w.clients && w.clients[pid].step.SendSms?
    case Go(pid) => pid in w.clients && !w.clients[pid].step.SendSms? && !w.clients[pid].step.Rest?
    case Release(pid) => pid in w.clients && w.clients[pid].step.Rest?
  }

  function At(w: World, pid: Pid, step: Step): World
    requires pid in w.clients
  {
    w.(clients := w.clients[pid := w.clients[pid].(step := step)])
  }

  /** Seconds left until expiresAt, rounded up, at least one. */
  function SecondsLeft(expiresAt: int, now: int): int {
    var left := (expiresAt - now + 999) / 1000;
    if left < 1 then 1 else left
  }

  function DoStep(w: World, pid: Pid): World
    requires Enabled(w, Go(pid))
  {
    match w.clients[pid].step
    case CheckSends =>
      if SendsLive(w) && w.sends.value.count >= MAX_SENDS then At(w, pid, Rest)
      else At(w, pid, SetCooldown(SendsLive(w)))
    case SetCooldown(counted) =>
      if CooldownLive(w) then At(w, pid, Rest)
      else At(w.(cooldown := Some(w.now + COOLDOWN_MS)), pid, SendSms(counted))
    case StoreCode(counted, secret) =>
      var p := Pending(|w.codes|, secret, w.now + CODE_MS, 0);
      At(w.(pending := Some(PendingKey(p, w.now + CODE_MS)), codes := w.codes + [CodeLog(w.now, 0, 0)]), pid, Increment(counted))
    case Increment(counted) =>
      var next := if SendsLive(w) then w.sends.value.(count := w.sends.value.count + 1) else Counter(1, None);
      At(w.(sends := Some(next)), pid, if next.count == 1 then StartWindow(counted) else ExtendWindow(counted))
    case StartWindow(counted) => At(Extended(w), pid, ExtendWindow(counted))
    case ExtendWindow(_) => At(Extended(w), pid, Rest)
    case CleanUp => At(w.(pending := None, cooldown := None), pid, Rest)
    case ReadCode(guess) =>
      if !CodeLive(w) || w.pending.value.value.expiresAt <= w.now || w.pending.value.value.attempts >= MAX_ATTEMPTS
      then At(w, pid, Rest)
      else At(w, pid, Compare(guess, w.pending.value.value))
    case Compare(guess, p) =>
      if guess == p.secret then
        At(w.(codes := Logged(w.codes, p.id, 0, 1), successes := w.successes + {|w.codes|}), pid, Erase)
      else At(w.(codes := Logged(w.codes, p.id, 1, 0)), pid, WriteBack(p.(attempts := p.attempts + 1)))
    case WriteBack(p) =>
      At(w.(pending := Some(PendingKey(p, w.now + 1000 * SecondsLeft(p.expiresAt, w.now)))), pid, Rest)
    case Erase => At(w.(pending := None, sends := None), pid, Rest)
  }

  function Logged(codes: seq<CodeLog>, id: nat, wrong: nat, accepted: nat): seq<CodeLog> {
    if id >= |codes| then codes
    else codes[id := codes[id].(wrong := codes[id].wrong + wrong, accepted := codes[id].accepted + accepted)]
  }

  /** EXPIRE on the counter: nothing when the key is gone. */
  function Extended(w: World): World {
    if SendsLive(w) then w.(sends := Some(w.sends.value.(until := Some(w.now + WINDOW_MS)))) else w
  }

  function Apply(w: World, e: Event): World
    requires Enabled(w, e)
  {
    match e
    case Tick(ms) => w.(now := w.now + ms)
    case Acquire(pid, first) =>
      if LockHeld(w) then w.(used := w.used + {pid})
      else w.(used := w.used + {pid}, lock := Some(Lock(pid, w.now + LOCK_MS)), clients := w.clients[pid := Client(w.now, first)])
    case Sms(pid, secret) =>
      At(w, pid, if secret.Some? then StoreCode(w.clients[pid].step.counted, secret.value) else CleanUp)
    case Go(pid) => DoStep(w, pid)
    case Release(pid) =>
      // deleteIfValue: only while the key still holds this owner
      w.(lock := if LockHeld(w) && w.lock.value.owner == pid then None else w.lock, clients := w.clients - {pid})
  }

  predicate CanRun(w: World, es: seq<Event>)
    decreases |es|
  {
    es == [] || (Enabled(w, es[0]) && CanRun(Apply(w, es[0]), es[1..]))
  }

  function Run(w: World, es: seq<Event>): World
    requires CanRun(w, es)
    decreases |es|
  {
    if es == [] then w else Run(Apply(w, es[0]), es[1..])
  }

  function Start(now: int): World {
    World(now, None, None, None, None, map[], {}, [], {})
  }

  //#endregion

  //#region The lock

  /** Releasing never frees another owner's lock, however late it comes. */
  lemma ReleaseSparesOthers(w: World, pid: Pid)
    requires Enabled(w, Release(pid))
    ensures LockHeld(w) && w.lock.value.owner != pid ==> Apply(w, Release(pid)).lock == w.lock
    ensures LockHeld(Apply(w, Release(pid))) ==> w.lock == Apply(w, Release(pid)).lock
  {
  }

  /** Each operation in progress is still inside the life of the lock it took. */
  ghost predicate Prompt(w: World) {
    forall p :: p in w.clients ==> w.now < w.clients[p].since + 120_000
  }

  ghost predicate PromptRun(w: World, es: seq<Event>)
    requires CanRun(w, es)
    decreases |es|
  {
    Prompt(w) && (es == [] || PromptRun(Apply(w, es[0]), es[1..]))
  }

  /** Every client in progress owns the lock, so there is at most one. */
  ghost predicate Exclusive(w: World) {
    && (forall p :: p in w.clients ==>
          w.lock == Some(Lock(p, w.clients[p].since + LOCK_MS)) && w.clients[p].since <= w.now && p in w.used)
    && (w.lock.Some? ==> w.lock.value.owner in w.used)
  }

  lemma StepKeepsExclusive(w: World, e: Event)
    requires Exclusive(w) && Prompt(w) && Enabled(w, e)
    ensures Exclusive(Apply(w, e))
  {
  }

  //#endregion

  //#region Attempts

  /** How the counts of the newest code stand to the stored one, with the one client at this step. */
  ghost predicate Counted(codes: seq<CodeLog>, stored: Option<PendingKey>, step: Step) {
    && (forall i :: 0 <= i < |codes| ==> codes[i].wrong <= MAX_ATTEMPTS && codes[i].accepted <= 1)
    && (stored.Some? ==> stored.value.value.id + 1 == |codes|)
    && (stored.Some? && !step.WriteBack? && !step.Erase? ==>
          codes[|codes| - 1].wrong == stored.value.value.attempts && codes[|codes| - 1].accepted == 0)
    && (step.Compare? ==> stored.Some? && step.pending == stored.value.value && step.pending.attempts < MAX_ATTEMPTS)
    && (step.WriteBack? ==>
          && step.pending.id + 1 == |codes|
          && codes[|codes| - 1].wrong == step.pending.attempts && codes[|codes| - 1].accepted == 0)
  }

  ghost predicate CodesCounted(w: World) {
    && (w.clients == map[] ==> Counted(w.codes, w.pending, Rest))
    && (forall p :: p in w.clients ==> Counted(w.codes, w.pending, w.clients[p].step))
  }

  lemma OnlyClient(w: World, pid: Pid)
    requires Exclusive(w) && pid in w.clients
    ensures w.clients.Keys == {pid}
  {
    forall q | q in w.clients ensures q == pid {
      assert w.lock.value.owner == q;
    }
  }

  lemma StepKeepsCodesCounted(w: World, e: Event)
    requires Exclusive(w) && Prompt(w) && CodesCounted(w) && Enabled(w, e)
    ensures CodesCounted(Apply(w, e))
  {
    var w' := Apply(w, e);
    match e {
      case Tick(_) =>
      case Acquire(pid, first) =>
        forall p | p in w.clients ensures LockHeld(w) {}
      case Release(pid) =>
        OnlyClient(w, pid);
        assert w.clients - {pid} == map[];
      case Sms(pid, secret) =>
        OnlyClient(w, pid);
        assert w'.clients.Keys == {pid};
      case Go(pid) =>
        OnlyClient(w, pid);
        assert w'.clients.Keys == {pid};
        GoKeepsCounted(w, pid);
    }
  }

  lemma GoKeepsCounted(w: World, pid: Pid)
    requires Enabled(w, Go(pid)) && Counted(w.codes, w.pending, w.clients[pid].step)
    ensures Counted(DoStep(w, pid).codes, DoStep(w, pid).pending, DoStep(w, pid).clients[pid].step)
  {
  }

  /**
   * With every operation shorter than the lock's life: whatever clients try and whenever, a stored code is compared
   * wrongly at most 5 times and accepted at most once.
   */
  lemma {:induction false} FiveTriesOneSuccess(w: World, es: seq<Event>)
    requires Exclusive(w) && CodesCounted(w) && CanRun(w, es) && PromptRun(w, es)
    ensures Exclusive(Run(w, es)) && CodesCounted(Run(w, es))
    ensures forall i :: 0 <= i < |Run(w, es).codes| ==> Run(w, es).codes[i].wrong <= 5 && Run(w, es).codes[i].accepted <= 1
    decreases |es|
  {
    if es != [] {
      StepKeepsExclusive(w, es[0]);
      StepKeepsCodesCounted(w, es[0]);
      FiveTriesOneSuccess(Apply(w, es[0]), es[1..]);
    }
  }

  //#endregion

  //#region Sends

  /** The last codes of the first n stored less than gap apart and without a success between them. */
  function Streak(codes: seq<CodeLog>, successes: set<nat>, n: nat, gap: int): nat
    requires n <= |codes|
  {
    if n == 0 then 0
    else if n == 1 || n - 1 in successes || codes[n - 1].storedAt >= codes[n - 2].storedAt + gap then 1
    else 1 + Streak(codes, successes, n - 1, gap)
  }

  lemma StreakSame(codes: seq<CodeLog>, successes: set<nat>, codes': seq<CodeLog>, successes': set<nat>, n: nat, gap: int)
    requires n <= |codes| && n <= |codes'|
    requires forall i :: 0 <= i < n ==> codes[i].storedAt == codes'[i].storedAt
    requires forall i :: 0 <= i < n ==> (i in successes <==> i in successes')
    ensures Streak(codes, successes, n, gap) == Streak(codes', successes', n, gap)
  {
  }

  ghost predicate Bounded(w: World, gap: int, slack: nat) {
    forall m: nat :: m <= |w.codes| ==> Streak(w.codes, w.successes, m, gap) <= MAX_SENDS + slack
  }

  lemma BoundedKept(w: World, w': World, gap: int, slack: nat)
    requires Bounded(w, gap, slack) && |w'.codes| == |w.codes|
    requires forall i :: 0 <= i < |w.codes| ==> w'.codes[i].storedAt == w.codes[i].storedAt
    requires w'.successes == w.successes || w'.successes == w.successes + {|w.codes|}
    ensures Bounded(w', gap, slack)
    ensures Streak(w'.codes, w'.successes, |w.codes|, gap) == Streak(w.codes, w.successes, |w.codes|, gap)
  {
    forall m: nat | m <= |w.codes|
      ensures Streak(w'.codes, w'.successes, m, gap) == Streak(w.codes, w.successes, m, gap)
    {
      StreakSame(w.codes, w.successes, w'.codes, w'.successes, m, gap);
    }
  }

  function Newest(w: World, gap: int): nat {
    Streak(w.codes, w.successes, |w.codes|, gap)
  }

  /** Between requests the counter counts the newest streak (all of it but slack), and lives long enough to matter. */
  ghost predicate Tracked(w: World, gap: int, slack: nat) {
    var n := |w.codes|;
    || n == 0 || n in w.successes
    || (w.sends.Some? && w.sends.value.until.Some? && w.sends.value.count + slack >= Newest(w, gap)
        && w.sends.value.until.value >= w.codes[n - 1].storedAt + WINDOW_MS)
    || (slack >= Newest(w, gap) && !SendsLive(w))
  }

  ghost predicate Passed(w: World, gap: int, slack: nat, counted: bool) {
    var n := |w.codes|;
    || n == 0 || n in w.successes || w.now >= w.codes[n - 1].storedAt + gap
    || (Newest(w, gap) < MAX_SENDS + slack && (slack == 0 ==> counted))
  }

  ghost predicate Stored(w: World, gap: int, slack: nat, counted: bool, since: int) {
    var n := |w.codes|;
    && n > 0 && n !in w.successes && since <= w.codes[n - 1].storedAt <= w.now
    && (Newest(w, gap) == 1
        || (slack >= Newest(w, gap) - 1 && !SendsLive(w))
        || (w.sends.Some? && w.sends.value.until.Some? && w.sends.value.count + slack + 1 >= Newest(w, gap)
            && w.sends.value.until.value >= w.codes[n - 2].storedAt + WINDOW_MS && (slack == 0 ==> counted)))
  }

  ghost predicate Incremented(w: World, gap: int, slack: nat, counted: bool, since: int) {
    var n := |w.codes|;
    && n > 0 && n !in w.successes && since <= w.codes[n - 1].storedAt <= w.now
    && w.sends.Some? && w.sends.value.count + slack >= Newest(w, gap) && w.sends.value.count >= 1
    && var until := w.sends.value.until;
       || until.None?
       || until.value >= w.codes[n - 1].storedAt + WINDOW_MS
       || (Newest(w, gap) == 1 && (slack == 0 ==> counted))
       || (Newest(w, gap) > 1 && until.value >= w.codes[n - 2].storedAt + WINDOW_MS && (slack == 0 ==> counted))
  }

  ghost predicate SendsAt(w: World, gap: int, slack: nat, c: Client) {
    match c.step
    case SetCooldown(counted) => Tracked(w, gap, slack) && Passed(w, gap, slack, counted) && (SendsLive(w) ==> counted)
    case SendSms(counted) => Tracked(w, gap, slack) && Passed(w, gap, slack, counted) && (SendsLive(w) ==> counted)
    case StoreCode(counted, _) => Tracked(w, gap, slack) && Passed(w, gap, slack, counted) && (SendsLive(w) ==> counted)
    case Increment(counted) => Stored(w, gap, slack, counted, c.since) && (SendsLive(w) ==> counted)
    case StartWindow(counted) => Incremented(w, gap, slack, counted, c.since)
    case ExtendWindow(counted) => Incremented(w, gap, slack, counted, c.since)
    case Erase => |w.codes| in w.successes
    case _ => Tracked(w, gap, slack)
  }

  ghost predicate SendsCounted(w: World, gap: int, slack: nat) {
    && Bounded(w, gap, slack)
    && (w.clients == map[] ==> Tracked(w, gap, slack))
    && (forall p :: p in w.clients ==> SendsAt(w, gap, slack, w.clients[p]))
    && (w.sends.Some? ==> w.sends.value.count >= 1)
  }

  /** The counter a request saw when it checked is still there when it counts and extends it. */
  predicate NoLapse(w: World, e: Event)
    requires Enabled(w, e)
  {
    e.Go? ==>
      var step := w.clients[e.pid].step;
      (step.Increment? || step.StartWindow? || step.ExtendWindow?) && step.counted ==> SendsLive(w)
  }

  predicate Steady(w: World, es: seq<Event>)
    requires CanRun(w, es)
    decreases |es|
  {
    es == [] || (NoLapse(w, es[0]) && Steady(Apply(w, es[0]), es[1..]))
  }

  /** Which gap and slack go together: 3600 s and all counted while no counter lapses; 3480 s and all but one always. */
  predicate Measure(gap: int, slack: nat) {
    (gap == WINDOW_MS && slack == 0) || (gap == WINDOW_MS - LOCK_MS && slack == 1)
  }

  lemma StoreKeepsSends(w: World, pid: Pid, gap: int, slack: nat)
    requires Measure(gap, slack) && SendsCounted(w, gap, slack)
    requires Enabled(w, Go(pid)) && w.clients[pid].step.StoreCode? && w.clients[pid].since <= w.now
    requires forall i :: i in w.successes ==> i <= |w.codes|
    ensures Bounded(DoStep(w, pid), gap, slack)
    ensures SendsAt(DoStep(w, pid), gap, slack, DoStep(w, pid).clients[pid])
  {
    var w' := DoStep(w, pid);
    var n := |w.codes|;
    forall m: nat | m <= n ensures Streak(w'.codes, w'.successes, m, gap) == Streak(w.codes, w.successes, m, gap) {
      StreakSame(w.codes, w.successes, w'.codes, w'.successes, m, gap);
    }
    assert Streak(w'.codes, w'.successes, n + 1, gap) == Newest(w', gap);
  }

  lemma IncrementKeepsSends(w: World, pid: Pid, gap: int, slack: nat)
    requires Measure(gap, slack) && SendsCounted(w, gap, slack)
    requires Enabled(w, Go(pid)) && w.clients[pid].since <= w.now < w.clients[pid].since + LOCK_MS
    requires slack == 0 ==> NoLapse(w, Go(pid))
    requires w.clients[pid].step.Increment?
    ensures Bounded(DoStep(w, pid), gap, slack)
    ensures SendsAt(DoStep(w, pid), gap, slack, DoStep(w, pid).clients[pid])
  {
    var w' := DoStep(w, pid);
    BoundedKept(w, w', gap, slack);
    assert Newest(w', gap) == Newest(w, gap);
    assert Incremented(w', gap, slack, w.clients[pid].step.counted, w.clients[pid].since);
  }

  lemma WindowKeepsSends(w: World, pid: Pid, gap: int, slack: nat)
    requires Measure(gap, slack) && SendsCounted(w, gap, slack)
    requires Enabled(w, Go(pid)) && w.clients[pid].since <= w.now < w.clients[pid].since + LOCK_MS
    requires slack == 0 ==> NoLapse(w, Go(pid))
    requires w.clients[pid].step.StartWindow? || w.clients[pid].step.ExtendWindow?
    ensures Bounded(DoStep(w, pid), gap, slack)
    ensures SendsAt(DoStep(w, pid), gap, slack, DoStep(w, pid).clients[pid])
  {
    var w' := DoStep(w, pid);
    BoundedKept(w, w', gap, slack);
    assert Newest(w', gap) == Newest(w, gap);
  }

  lemma OtherStepKeepsSends(w: World, pid: Pid, gap: int, slack: nat)
    requires Measure(gap, slack) && SendsCounted(w, gap, slack)
    requires Enabled(w, Go(pid)) && w.clients[pid].since <= w.now < w.clients[pid].since + LOCK_MS
    requires var step := w.clients[pid].step;
             !step.StoreCode? && !step.Increment? && !step.StartWindow? && !step.ExtendWindow?
    requires forall i :: i in w.successes ==> i <= |w.codes|
    ensures Bounded(DoStep(w, pid), gap, slack)
    ensures SendsAt(DoStep(w, pid), gap, slack, DoStep(w, pid).clients[pid])
  {
    BoundedKept(w, DoStep(w, pid), gap, slack);
  }

  lemma GoKeepsSends(w: World, pid: Pid, gap: int, slack: nat)
    requires Measure(gap, slack) && SendsCounted(w, gap, slack)
    requires Enabled(w, Go(pid)) && w.clients[pid].since <= w.now < w.clients[pid].since + LOCK_MS
    requires slack == 0 ==> NoLapse(w, Go(pid))
    requires forall i :: i in w.successes ==> i <= |w.codes|
    ensures Bounded(DoStep(w, pid), gap, slack)
    ensures SendsAt(DoStep(w, pid), gap, slack, DoStep(w, pid).clients[pid])
  {
    var step := w.clients[pid].step;
    if step.StoreCode? {
      StoreKeepsSends(w, pid, gap, slack);
    } else if step.Increment? {
      IncrementKeepsSends(w, pid, gap, slack);
    } else if step.StartWindow? || step.ExtendWindow? {
      WindowKeepsSends(w, pid, gap, slack);
    } else {
      OtherStepKeepsSends(w, pid, gap, slack);
    }
  }

  lemma SendsAge(w: World, w': World, gap: int, slack: nat, c: Client)
    requires Measure(gap, slack) && SendsAt(w, gap, slack, c)
    requires w'.now >= w.now && w'.sends == w.sends && w'.codes == w.codes && w'.successes == w.successes
    ensures SendsAt(w', gap, slack, c)
  {
  }

  lemma OtherKeepsSends(w: World, e: Event, gap: int, slack: nat)
    requires Measure(gap, slack) && SendsCounted(w, gap, slack)
    requires Exclusive(w) && Prompt(w) && Enabled(w, e) && !e.Go?
    ensures SendsCounted(Apply(w, e), gap, slack)
  {
    var w' := Apply(w, e);
    BoundedKept(w, w', gap, slack);
    match e {
      case Tick(_) =>
        forall p | p in w.clients ensures SendsAt(w', gap, slack, w.clients[p]) {
          SendsAge(w, w', gap, slack, w.clients[p]);
        }
      case Acquire(pid, first) =>
        forall p | p in w.clients ensures LockHeld(w) && SendsAt(w', gap, slack, w.clients[p]) {
          SendsAge(w, w', gap, slack, w.clients[p]);
        }
      case Release(pid) =>
        OnlyClient(w, pid);
        assert w'.clients == map[];
      case Sms(pid, _) =>
        OnlyClient(w, pid);
        assert w'.clients.Keys == {pid};
    }
  }

  lemma StepKeepsSends(w: World, e: Event, gap: int, slack: nat)
    requires Measure(gap, slack) && SendsCounted(w, gap, slack)
    requires Exclusive(w) && Prompt(w) && Enabled(w, e)
    requires slack == 0 ==> NoLapse(w, e)
    requires forall i :: i in w.successes ==> i <= |w.codes|
    ensures SendsCounted(Apply(w, e), gap, slack)
    ensures forall i :: i in Apply(w, e).successes ==> i <= |Apply(w, e).codes|
  {
    if e.Go? {
      OnlyClient(w, e.pid);
      assert Apply(w, e).clients.Keys == {e.pid};
      GoKeepsSends(w, e.pid, gap, slack);
    } else {
      OtherKeepsSends(w, e, gap, slack);
    }
  }

  /** A counter that is there when a request checks it has the lock's whole life left, or no end at all. */
  predicate AmpleCheck(w: World, e: Event)
    requires Enabled(w, e)
  {
    e.Go? && w.clients[e.pid].step.CheckSends? && SendsLive(w) && w.sends.value.until.Some? ==>
      w.sends.value.until.value >= w.now + LOCK_MS
  }

  predicate Ample(w: World, es: seq<Event>)
    requires CanRun(w, es)
    decreases |es|
  {
    es == [] || (AmpleCheck(w, es[0]) && Ample(Apply(w, es[0]), es[1..]))
  }

  predicate SawCounter(step: Step) {
    (step.SetCooldown? || step.SendSms? || step.StoreCode? || step.Increment? || step.StartWindow? || step.ExtendWindow?)
    && step.counted
  }

  /** A request that saw the counter works on one that outlives the request's lock. */
  ghost predicate CounterOutlives(w: World) {
    forall p :: p in w.clients && SawCounter(w.clients[p].step) ==>
      && w.sends.Some?
      && (w.sends.value.until.Some? ==> w.sends.value.until.value >= w.clients[p].since + LOCK_MS)
  }

  lemma StepKeepsCounter(w: World, e: Event)
    requires Exclusive(w) && Prompt(w) && CounterOutlives(w) && Enabled(w, e) && AmpleCheck(w, e)
    ensures NoLapse(w, e) && CounterOutlives(Apply(w, e))
  {
    var w' := Apply(w, e);
    match e {
      case Tick(_) =>
      case Acquire(pid, first) =>
      case Release(pid) => OnlyClient(w, pid);
      case Sms(pid, secret) =>
        OnlyClient(w, pid);
        assert w'.clients.Keys == {pid};
      case Go(pid) =>
        OnlyClient(w, pid);
        assert w'.clients.Keys == {pid};
    }
  }

  /** What a caller can check: with room at every check, no counter lapses in a prompt run. */
  lemma {:induction false} AmpleIsSteady(w: World, es: seq<Event>)
    requires Exclusive(w) && CounterOutlives(w) && CanRun(w, es) && PromptRun(w, es) && Ample(w, es)
    ensures Steady(w, es)
    decreases |es|
  {
    if es != [] {
      StepKeepsExclusive(w, es[0]);
      StepKeepsCounter(w, es[0]);
      AmpleIsSteady(Apply(w, es[0]), es[1..]);
    }
  }

  /** Codes i to i + k stored one after another, each less than gap after the one before and with no success between. */
  ghost predicate Rapid(w: World, i: nat, k: nat, gap: int) {
    && i + k < |w.codes|
    && forall j :: i < j <= i + k ==> j !in w.successes && w.codes[j].storedAt < w.codes[j - 1].storedAt + gap
  }

  lemma {:induction false} RapidIsStreak(w: World, i: nat, k: nat, gap: int)
    requires Rapid(w, i, k, gap)
    ensures Streak(w.codes, w.successes, i + k + 1, gap) > k
  {
    if k > 0 {
      RapidIsStreak(w, i, k - 1, gap);
    }
  }

  lemma {:induction false} SendsCountedThroughout(w: World, es: seq<Event>, gap: int, slack: nat)
    requires Measure(gap, slack) && SendsCounted(w, gap, slack) && Exclusive(w)
    requires forall i :: i in w.successes ==> i <= |w.codes|
    requires CanRun(w, es) && PromptRun(w, es) && (slack == 0 ==> Steady(w, es))
    ensures Bounded(Run(w, es), gap, slack)
    decreases |es|
  {
    if es != [] {
      StepKeepsExclusive(w, es[0]);
      StepKeepsSends(w, es[0], gap, slack);
      SendsCountedThroughout(Apply(w, es[0]), es[1..], gap, slack);
    }
  }

  /**
   * From a number's first request on, with every operation shorter than the lock's life: while no counter lapses in the
   * middle of a request (which it cannot where every check finds no counter, or one with two minutes left), no four codes
   * in a row are each stored less than 3600 s after the one before without a success between them. Without that proviso,
   * no five are with 3480 s.
   */
  lemma SendsLimited(now: int, es: seq<Event>, i: nat)
    requires CanRun(Start(now), es) && PromptRun(Start(now), es)
    ensures Steady(Start(now), es) ==> !Rapid(Run(Start(now), es), i, 3, WINDOW_MS)
    ensures Ample(Start(now), es) ==> !Rapid(Run(Start(now), es), i, 3, WINDOW_MS)
    ensures !Rapid(Run(Start(now), es), i, 4, WINDOW_MS - LOCK_MS)
  {
    var w := Run(Start(now), es);
    if Ample(Start(now), es) { AmpleIsSteady(Start(now), es); }
    if Steady(Start(now), es) {
      SendsCountedThroughout(Start(now), es, WINDOW_MS, 0);
      if Rapid(w, i, 3, WINDOW_MS) { RapidIsStreak(w, i, 3, WINDOW_MS); }
    }
    SendsCountedThroughout(Start(now), es, WINDOW_MS - LOCK_MS, 1);
    if Rapid(w, i, 4, WINDOW_MS - LOCK_MS) { RapidIsStreak(w, i, 4, WINDOW_MS - LOCK_MS); }
  }

  //#endregion

  //#region One request without interruption, and why the proviso is there

  /** A request for a code by pid, with a pause before the window is extended. */
  function RequestEvents(w: World, pid: Pid, secret: nat, pause: nat): seq<Event> {
    Opening(pid) + Storing(pid, secret) + (if SendsLive(w) then [] else [Go(pid)]) + Closing(pid, pause)
  }

  function Opening(pid: Pid): seq<Event> {
    [Acquire(pid, CheckSends), Go(pid), Go(pid)]
  }

  function Storing(pid: Pid, secret: nat): seq<Event> {
    [Sms(pid, Some(secret)), Go(pid), Go(pid)]
  }

  function Closing(pid: Pid, pause: nat): seq<Event> {
    [Tick(pause), Go(pid), Release(pid)]
  }

  /** Nobody is in progress and nothing keeps a code from being sent. */
  predicate Ready(w: World, pid: Pid) {
    && w.clients == map[] && !LockHeld(w) && !CooldownLive(w) && pid !in w.used
    && (SendsLive(w) ==> 1 <= w.sends.value.count < MAX_SENDS && w.sends.value.until.Some?)
  }

  function AfterRequest(w: World, pid: Pid, secret: nat, pause: nat): World
    requires Ready(w, pid)
  {
    var end := w.now + pause;
    w.(now := end, lock := None, cooldown := Some(w.now + COOLDOWN_MS), used := w.used + {pid},
       pending := Some(PendingKey(Pending(|w.codes|, secret, w.now + CODE_MS, 0), w.now + CODE_MS)),
       codes := w.codes + [CodeLog(w.now, 0, 0)],
       sends := Some(if !SendsLive(w) then Counter(1, Some(end + WINDOW_MS))
                     else Counter(w.sends.value.count + 1,
                                  if end < w.sends.value.until.value then Some(end + WINDOW_MS) else w.sends.value.until)))
  }

  lemma RunOne(w: World, e: Event)
    requires Enabled(w, e)
    ensures CanRun(w, [e]) && Run(w, [e]) == Apply(w, e)
    ensures Prompt(w) && Prompt(Apply(w, e)) ==> PromptRun(w, [e])
  {
    assert [e][1..] == [];
  }

  lemma {:induction false} RunAppend(w: World, es: seq<Event>, fs: seq<Event>)
    requires CanRun(w, es) && CanRun(Run(w, es), fs)
    ensures CanRun(w, es + fs) && Run(w, es + fs) == Run(Run(w, es), fs)
    ensures PromptRun(w, es) && PromptRun(Run(w, es), fs) ==> PromptRun(w, es + fs)
    decreases |es|
  {
    if es == [] {
      assert es + fs == fs;
    } else {
      RunAppend(Apply(w, es[0]), es[1..], fs);
      assert (es + fs)[0] == es[0] && (es + fs)[1..] == es[1..] + fs;
    }
  }

  /** One more event at the end of a prompt run. */
  lemma Extend(w: World, es: seq<Event>, v: World, e: Event)
    requires CanRun(w, es) && PromptRun(w, es) && Run(w, es) == v && Prompt(v) && Enabled(v, e) && Prompt(Apply(v, e))
    ensures CanRun(w, es + [e]) && PromptRun(w, es + [e]) && Run(w, es + [e]) == Apply(v, e)
  {
    RunOne(v, e);
    RunAppend(w, es, [e]);
  }

  lemma OpeningRuns(w: World, pid: Pid, es: seq<Event>)
    requires Ready(w, pid) && es == Opening(pid)
    ensures CanRun(w, es) && PromptRun(w, es)
    ensures Run(w, es) == w.(lock := Some(Lock(pid, w.now + LOCK_MS)), used := w.used + {pid},
                             cooldown := Some(w.now + COOLDOWN_MS), clients := map[pid := Client(w.now, SendSms(SendsLive(w)))])
  {
    var w1 := Apply(w, es[0]);
    var w2 := Apply(w1, Go(pid));
    RunOne(w, es[0]);
    Extend(w, [es[0]], w1, Go(pid));
    Extend(w, [es[0]] + [Go(pid)], w2, Go(pid));
    assert es == [es[0]] + [Go(pid)] + [Go(pid)];
    assert Apply(w2, Go(pid)).clients == map[pid := Client(w.now, SendSms(SendsLive(w)))];
  }

  lemma StoringRuns(w: World, pid: Pid, secret: nat, counted: bool, es: seq<Event>)
    requires w.clients == map[pid := Client(w.now, SendSms(counted))] && es == Storing(pid, secret)
    requires SendsLive(w) ==> w.sends.value.count >= 1
    ensures CanRun(w, es) && PromptRun(w, es)
    ensures Run(w, es) == w.(
              pending := Some(PendingKey(Pending(|w.codes|, secret, w.now + CODE_MS, 0), w.now + CODE_MS)),
              codes := w.codes + [CodeLog(w.now, 0, 0)],
              sends := Some(if SendsLive(w) then w.sends.value.(count := w.sends.value.count + 1) else Counter(1, None)),
              clients := map[pid := Client(w.now, if SendsLive(w) then ExtendWindow(counted) else StartWindow(counted))])
  {
    var w1 := Apply(w, es[0]);
    var w2 := Apply(w1, Go(pid));
    RunOne(w, es[0]);
    Extend(w, [es[0]], w1, Go(pid));
    Extend(w, [es[0]] + [Go(pid)], w2, Go(pid));
    assert es == [es[0]] + [Go(pid)] + [Go(pid)];
    assert Apply(w2, Go(pid)).clients
           == map[pid := Client(w.now, if SendsLive(w) then ExtendWindow(counted) else StartWindow(counted))];
  }

  lemma ClosingRuns(w: World, pid: Pid, counted: bool, pause: nat, es: seq<Event>)
    requires w.clients == map[pid := Client(w.now, ExtendWindow(counted))] && pause < LOCK_MS
    requires w.lock == Some(Lock(pid, w.now + LOCK_MS)) && w.sends.Some? && w.sends.value.until.Some?
    requires es == Closing(pid, pause)
    ensures CanRun(w, es) && PromptRun(w, es)
    ensures var end := w.now + pause;
            Run(w, es) == w.(now := end, lock := None, clients := map[],
                             sends := if end < w.sends.value.until.value then Some(w.sends.value.(until := Some(end + WINDOW_MS)))
                                      else w.sends)
  {
    var w1 := Apply(w, Tick(pause));
    var w2 := Apply(w1, Go(pid));
    RunOne(w, Tick(pause));
    Extend(w, [Tick(pause)], w1, Go(pid));
    Extend(w, [Tick(pause)] + [Go(pid)], w2, Release(pid));
    assert es == [Tick(pause)] + [Go(pid)] + [Release(pid)];
    assert Apply(w2, Release(pid)).clients == map[];
  }

  /** Up to the window: the code is stored and counted. */
  lemma BeginningRuns(w: World, pid: Pid, secret: nat, es: seq<Event>)
    requires Ready(w, pid) && es == Opening(pid) + Storing(pid, secret) + (if SendsLive(w) then [] else [Go(pid)])
    ensures CanRun(w, es) && PromptRun(w, es)
    ensures Run(w, es) == w.(
              lock := Some(Lock(pid, w.now + LOCK_MS)), used := w.used + {pid}, cooldown := Some(w.now + COOLDOWN_MS),
              pending := Some(PendingKey(Pending(|w.codes|, secret, w.now + CODE_MS, 0), w.now + CODE_MS)),
              codes := w.codes + [CodeLog(w.now, 0, 0)],
              sends := Some(if SendsLive(w) then w.sends.value.(count := w.sends.value.count + 1)
                            else Counter(1, Some(w.now + WINDOW_MS))),
              clients := map[pid := Client(w.now, ExtendWindow(SendsLive(w)))])
  {
    var opening, storing := Opening(pid), Storing(pid, secret);
    OpeningRuns(w, pid, opening);
    var w3 := Run(w, opening);
    StoringRuns(w3, pid, secret, SendsLive(w), storing);
    RunAppend(w, opening, storing);
    var w6 := Run(w3, storing);
    if SendsLive(w) {
      assert es == opening + storing;
    } else {
      Extend(w, opening + storing, w6, Go(pid));
      assert Apply(w6, Go(pid)).clients == map[pid := Client(w.now, ExtendWindow(SendsLive(w)))];
    }
  }

  lemma RequestCounts(w: World, pid: Pid, secret: nat, pause: nat, es: seq<Event>)
    requires Ready(w, pid) && pause < LOCK_MS && es == RequestEvents(w, pid, secret, pause)
    ensures CanRun(w, es) && PromptRun(w, es) && Run(w, es) == AfterRequest(w, pid, secret, pause)
  {
    var begun := Opening(pid) + Storing(pid, secret) + (if SendsLive(w) then [] else [Go(pid)]);
    var closing := Closing(pid, pause);
    BeginningRuns(w, pid, secret, begun);
    var w7 := Run(w, begun);
    ClosingRuns(w7, pid, SendsLive(w), pause, closing);
    RunAppend(w, begun, closing);
  }

  /** Waits ms and then requests a code, appended to a run. */
  lemma WaitAndRequest(w0: World, es: seq<Event>, ms: nat, pid: Pid, pause: nat) returns (fs: seq<Event>)
    requires CanRun(w0, es) && PromptRun(w0, es) && pause < LOCK_MS && Run(w0, es).clients == map[]
    requires Ready(Apply(Run(w0, es), Tick(ms)), pid)
    ensures CanRun(w0, fs) && PromptRun(w0, fs)
    ensures Run(w0, fs) == AfterRequest(Apply(Run(w0, es), Tick(ms)), pid, 0, pause)
  {
    var now := Run(w0, es);
    var rs := RequestEvents(Apply(now, Tick(ms)), pid, 0, pause);
    Extend(w0, es, now, Tick(ms));
    RequestCounts(Apply(now, Tick(ms)), pid, 0, pause, rs);
    RunAppend(w0, es + [Tick(ms)], rs);
    fs := es + [Tick(ms)] + rs;
  }

  lemma {:induction false} SteadyAppend(w: World, es: seq<Event>, fs: seq<Event>)
    requires CanRun(w, es) && CanRun(Run(w, es), fs)
    ensures CanRun(w, es + fs) && (Steady(w, es + fs) <==> Steady(w, es) && Steady(Run(w, es), fs))
    decreases |es|
  {
    RunAppend(w, es, fs);
    if es == [] {
      assert es + fs == fs;
    } else {
      SteadyAppend(Apply(w, es[0]), es[1..], fs);
      assert (es + fs)[0] == es[0] && (es + fs)[1..] == es[1..] + fs;
    }
  }

  lemma SteadyOne(w: World, e: Event)
    requires Enabled(w, e)
    ensures CanRun(w, [e]) && (Steady(w, [e]) <==> NoLapse(w, e))
  {
    assert [e][1..] == [];
  }

  lemma SteadyThree(w: World, a: Event, b: Event, c: Event, es: seq<Event>)
    requires es == [a, b, c] && Enabled(w, a) && Enabled(Apply(w, a), b) && Enabled(Apply(Apply(w, a), b), c)
    ensures CanRun(w, es)
    ensures Steady(w, es) <==> NoLapse(w, a) && NoLapse(Apply(w, a), b) && NoLapse(Apply(Apply(w, a), b), c)
  {
    var w1 := Apply(w, a);
    var w2 := Apply(w1, b);
    RunOne(w, a);
    RunOne(w1, b);
    SteadyOne(w, a);
    SteadyOne(w1, b);
    SteadyOne(w2, c);
    SteadyAppend(w, [a], [b]);
    RunAppend(w, [a], [b]);
    SteadyAppend(w, [a] + [b], [c]);
    assert es == [a] + [b] + [c];
  }

  lemma OpeningIsSteady(w: World, pid: Pid, es: seq<Event>)
    requires Ready(w, pid) && es == Opening(pid)
    ensures CanRun(w, es) && Steady(w, es)
  {
    SteadyThree(w, es[0], es[1], es[2], es);
  }

  lemma StoringIsSteady(w: World, pid: Pid, secret: nat, es: seq<Event>)
    requires w.clients == map[pid := Client(w.now, SendSms(true))] && SendsLive(w) && es == Storing(pid, secret)
    ensures CanRun(w, es) && Steady(w, es)
  {
    SteadyThree(w, es[0], es[1], es[2], es);
  }

  lemma ClosingIsSteadyExactly(w: World, pid: Pid, pause: nat, es: seq<Event>)
    requires w.clients == map[pid := Client(w.now, ExtendWindow(true))] && w.sends.Some? && w.sends.value.until.Some?
    requires es == Closing(pid, pause)
    ensures CanRun(w, es) && (Steady(w, es) <==> w.now + pause < w.sends.value.until.value)
  {
    SteadyThree(w, es[0], es[1], es[2], es);
  }

  /** One uninterrupted request whose counter was there loses it exactly if the pause before the window reaches its end. */
  lemma RequestIsSteadyExactly(w: World, pid: Pid, secret: nat, pause: nat, es: seq<Event>)
    requires Ready(w, pid) && SendsLive(w) && pause < LOCK_MS && es == RequestEvents(w, pid, secret, pause)
    ensures CanRun(w, es) && PromptRun(w, es) && (Steady(w, es) <==> w.now + pause < w.sends.value.until.value)
  {
    var opening, storing, closing := Opening(pid), Storing(pid, secret), Closing(pid, pause);
    RequestCounts(w, pid, secret, pause, es);
    OpeningRuns(w, pid, opening);
    OpeningIsSteady(w, pid, opening);
    var w3 := Run(w, opening);
    StoringRuns(w3, pid, secret, true, storing);
    StoringIsSteady(w3, pid, secret, storing);
    ClosingIsSteadyExactly(Run(w3, storing), pid, pause, closing);
    SteadyAppend(w, opening, storing);
    RunAppend(w, opening, storing);
    SteadyAppend(w, opening + storing, closing);
    assert es == opening + storing + closing;
  }

  /** So some prompt request loses it exactly when less than the lock's life is left at its start. */
  lemma LapseNeedsLateCheck(w: World, pid: Pid)
    requires Ready(w, pid) && SendsLive(w)
    ensures (exists pause: nat :: pause < LOCK_MS && CanRun(w, RequestEvents(w, pid, 0, pause)) && !Steady(w, RequestEvents(w, pid, 0, pause)))
       <==> w.sends.value.until.value < w.now + LOCK_MS
  {
    forall pause: nat | pause < LOCK_MS
      ensures CanRun(w, RequestEvents(w, pid, 0, pause))
      ensures Steady(w, RequestEvents(w, pid, 0, pause)) <==> w.now + pause < w.sends.value.until.value
    {
      RequestIsSteadyExactly(w, pid, 0, pause, RequestEvents(w, pid, 0, pause));
    }
    if w.sends.value.until.value < w.now + LOCK_MS {
      var pause := w.sends.value.until.value - w.now;
      assert !Steady(w, RequestEvents(w, pid, 0, pause));
    }
  }

  /** What the next request of LapseSendsFourCodes needs to know: a counter, and since when codes have been stored. */
  ghost predicate Quiet(w: World, now: int, count: nat, until: int, cooldown: int, times: seq<int>, used: set<Pid>) {
    && w.now == now && w.sends == Some(Counter(count, Some(until))) && (w.cooldown.Some? ==> w.cooldown.value <= cooldown)
    && !LockHeld(w) && w.clients == map[] && w.used == used
    && |w.codes| == |times| && (forall i :: 0 <= i < |times| ==> w.codes[i].storedAt == times[i])
  }

  lemma QuietRequest(w0: World, es: seq<Event>, ms: nat, pid: Pid, pause: nat,
                     now: int, count: nat, until: int, cooldown: int, times: seq<int>, used: set<Pid>)
    returns (fs: seq<Event>)
    requires CanRun(w0, es) && PromptRun(w0, es) && Quiet(Run(w0, es), now, count, until, cooldown, times, used)
    requires pause < LOCK_MS && pid !in used && cooldown <= now + ms && (now + ms < until ==> 1 <= count < MAX_SENDS)
    ensures CanRun(w0, fs) && PromptRun(w0, fs) && Run(w0, fs).successes == Run(w0, es).successes
    ensures var at := now + ms;
            Quiet(Run(w0, fs), at + pause, if at < until then count + 1 else 1,
                  if at < until <= at + pause then until else at + pause + WINDOW_MS,
                  at + COOLDOWN_MS, times + [at], used + {pid})
  {
    fs := WaitAndRequest(w0, es, ms, pid, pause);
  }

  /** A state between requests with a counter below its limit that a request may still find. */
  ghost predicate MayLapse(w: World) {
    && w.clients == map[] && !LockHeld(w) && SendsLive(w) && w.sends.value.until.Some? && 1 <= w.sends.value.count < MAX_SENDS
    && (w.cooldown.Some? ==> w.cooldown.value < w.sends.value.until.value)
    && forall i :: i in w.successes ==> i <= |w.codes|
  }

  lemma {:induction false} Above(used: set<Pid>) returns (n: nat)
    ensures forall p :: p in used ==> p < n
    decreases |used|
  {
    n := 0;
    if p :| p in used {
      n := Above(used - {p});
      n := if p < n then n else p + 1;
      forall q | q in used ensures q < n {
        assert q == p || q in used - {p};
      }
    }
  }

  /**
   * Why SendsLimited needs its proviso: from every such state, when the counter expires between INCREMENT and EXPIRE of
   * one request, that code is not counted, and four codes a minute apart are sent although every operation is prompt
   * and none was entered.
   */
  lemma LapseSendsFourCodes(w: World) returns (es: seq<Event>)
    requires MayLapse(w)
    ensures CanRun(w, es) && PromptRun(w, es)
    ensures Rapid(Run(w, es), |w.codes|, 3, 61_000)
  {
    var until := w.sends.value.until.value;
    var pid := Above(w.used);
    var times := seq(|w.codes|, i requires 0 <= i < |w.codes| => w.codes[i].storedAt);
    es := LateThenPrompt(w, pid, until, times);
    var all := times + [until - 1] + [until + 60_000] + [until + 120_000] + [until + 180_000];
    RapidTimes(Run(w, es), |w.codes|, all);
  }

  lemma RapidTimes(w: World, i: nat, times: seq<int>)
    requires |w.codes| == |times| == i + 4 && forall j :: 0 <= j < |times| ==> w.codes[j].storedAt == times[j]
    requires forall j :: j in w.successes ==> j <= i
    requires forall j :: i < j < i + 4 ==> times[j] < times[j - 1] + 61_000
    ensures Rapid(w, i, 3, 61_000)
  {
  }

  /** The request that loses the counter, and three more a minute apart. */
  lemma LateThenPrompt(w: World, pid: Pid, until: int, times: seq<int>) returns (es: seq<Event>)
    requires MayLapse(w) && until == w.sends.value.until.value && forall p :: p in w.used ==> p < pid
    requires |times| == |w.codes| && forall i :: 0 <= i < |times| ==> w.codes[i].storedAt == times[i]
    ensures CanRun(w, es) && PromptRun(w, es) && Run(w, es).successes == w.successes
    ensures var all := times + [until - 1] + [until + 60_000] + [until + 120_000] + [until + 180_000];
            var codes := Run(w, es).codes;
            |codes| == |all| && forall i :: 0 <= i < |all| ==> codes[i].storedAt == all[i]
  {
    es := [];
    es := QuietRequest(w, es, until - 1 - w.now, pid, 1, w.now, w.sends.value.count, until, until - 1, times, w.used);
    var last, all, used := until - 1, times + [until - 1], w.used + {pid};
    es := QuietRequest(w, es, 60_000, pid + 1, 0, until, w.sends.value.count + 1, until, last + COOLDOWN_MS, all, used);
    last, all, used := until + 60_000, all + [until + 60_000], used + {pid + 1};
    es := QuietRequest(w, es, 60_000, pid + 2, 0, last, 1, last + WINDOW_MS, last + COOLDOWN_MS, all, used);
    last, all, used := until + 120_000, all + [until + 120_000], used + {pid + 2};
    es := QuietRequest(w, es, 60_000, pid + 3, 0, last, 2, last + WINDOW_MS, last + COOLDOWN_MS, all, used);
  }

  /** Such a state comes with a number's first code, whenever it is asked for. */
  lemma LapseFromTheFirstCode(w: World, now: int) returns (es: seq<Event>)
    requires w == Start(now)
    ensures CanRun(w, es) && PromptRun(w, es) && Rapid(Run(w, es), 1, 3, 61_000)
  {
    var first := RequestEvents(w, 0, 0, 0);
    RequestCounts(w, 0, 0, 0, first);
    var v := Run(w, first);
    var more := LapseSendsFourCodes(v);
    RunAppend(w, first, more);
    es := first + more;
  }

  //#endregion

  //#region The service

  datatype Answer = Busy | TooManyCodes | Cooling | SmsFailed | Sent | NoCode | TooManyTries | Wrong | Accepted

  /** What verifyOtp must answer, from the keys before it. */
  function VerifyAnswer(w: World, guess: nat): Answer {
    if LockHeld(w) then Busy
    else if !CodeLive(w) || w.pending.value.value.expiresAt <= w.now then NoCode
    else if w.pending.value.value.attempts >= MAX_ATTEMPTS then TooManyTries
    else if w.pending.value.value.secret == guess then Accepted
    else Wrong
  }

  function RequestAnswer(w: World, sms: Option<nat>): Answer {
    if LockHeld(w) then Busy
    else if SendsLive(w) && w.sends.value.count >= MAX_SENDS then TooManyCodes
    else if CooldownLive(w) then Cooling
    else if sms.None? then SmsFailed
    else Sent
  }

  /** What the keys, and the counts of the newest code, are after verifyOtp. */
  function AfterVerify(w: World, pid: Pid, guess: nat): World {
    var v := w.(used := w.used + {pid}, lock := if LockHeld(w) then w.lock else None);
    match VerifyAnswer(w, guess)
    case Wrong =>
      var p := w.pending.value.value;
      v.(codes := Logged(w.codes, p.id, 1, 0),
         pending := Some(PendingKey(p.(attempts := p.attempts + 1), w.now + 1000 * SecondsLeft(p.expiresAt, w.now))))
    case Accepted =>
      v.(codes := Logged(w.codes, w.pending.value.value.id, 0, 1), successes := w.successes + {|w.codes|},
         pending := None, sends := None)
    case _ => v
  }

  /**
   * verifyOtp on the keys: which answer it gives, told by the lock, the stored code's life and its five tries; a wrong
   * guess keeps the code until it expires, to the second, with one try more; a right one takes the code and the count of sends.
   */
  predicate VerifyTells(w: World, w': World, guess: nat, answer: Answer) {
    var busy := w.lock.Some? && w.now < w.lock.value.until;
    var there := w.pending.Some? && w.now < w.pending.value.until && w.now < w.pending.value.value.expiresAt;
    && answer == (if busy then Busy else if !there then NoCode
                  else if w.pending.value.value.attempts >= 5 then TooManyTries
                  else if w.pending.value.value.secret == guess then Accepted else Wrong)
    && w'.now == w.now && w'.cooldown == w.cooldown && w'.lock == (if busy then w.lock else None)
    && (if answer.Accepted? then w'.pending.None? && w'.sends.None? else w'.sends == w.sends)
    && (if answer.Wrong? then
          var p := w.pending.value.value;
          && w'.pending.Some? && w'.pending.value.value == p.(attempts := p.attempts + 1)
          && p.expiresAt <= w'.pending.value.until < p.expiresAt + 1000
        else answer.Accepted? || w'.pending == w.pending)
  }

  lemma AfterVerifyTells(w: World, pid: Pid, guess: nat)
    ensures VerifyTells(w, AfterVerify(w, pid, guess), guess, VerifyAnswer(w, guess))
  {
  }

  /**
   * requestOtp on the keys: refused behind the lock, behind three codes within the hour and behind the cooldown, in this
   * order; a sent code lives five minutes and cools for one, and the count goes on for an hour from now.
   */
  predicate RequestTells(w: World, w': World, sms: Option<nat>, answer: Answer) {
    var busy := w.lock.Some? && w.now < w.lock.value.until;
    var counted := if w.sends.Some? && (w.sends.value.until.None? || w.now < w.sends.value.until.value) then w.sends.value.count else 0;
    && answer == (if busy then Busy else if counted >= 3 then TooManyCodes
                  else if w.cooldown.Some? && w.now < w.cooldown.value then Cooling
                  else if sms.None? then SmsFailed else Sent)
    && w'.now == w.now && w'.lock == (if busy then w.lock else None)
    && match answer
       case Sent =>
         && w'.cooldown == Some(w.now + 60_000) && w'.sends == Some(Counter(counted + 1, Some(w.now + 3_600_000)))
         && w'.pending == Some(PendingKey(Pending(|w.codes|, sms.value, w.now + 300_000, 0), w.now + 300_000))
         && w'.codes == w.codes + [CodeLog(w.now, 0, 0)]
       case SmsFailed => w'.cooldown.None? && w'.pending.None? && w'.sends == w.sends && w'.codes == w.codes
       case _ => w'.cooldown == w.cooldown && w'.pending == w.pending && w'.sends == w.sends && w'.codes == w.codes
  }

  lemma AfterRequestTells(w: World, pid: Pid, sms: Option<nat>)
    requires w.clients == map[] && pid !in w.used && (w.sends.Some? ==> w.sends.value.count >= 1 && w.sends.value.until.Some?)
    ensures RequestTells(w, if RequestAnswer(w, sms).Sent? then AfterRequest(w, pid, sms.value, 0) else AfterRefusal(w, pid, sms),
                         sms, RequestAnswer(w, sms))
  {
  }

  function TakeLock(w: World, pid: Pid, step: Step): World {
    w.(used := w.used + {pid}, lock := Some(Lock(pid, w.now + LOCK_MS)), clients := map[pid := Client(w.now, step)])
  }

  /** The lock is taken and the first command is done. */
  lemma LookRuns(w: World, pid: Pid, first: Step, es: seq<Event>)
    requires w.clients == map[] && pid !in w.used && !LockHeld(w) && es == [Acquire(pid, first), Go(pid)]
    requires first.ReadCode? || first.CheckSends?
    ensures CanRun(w, es) && PromptRun(w, es) && Run(w, es) == DoStep(TakeLock(w, pid, first), pid)
  {
    var v := Apply(w, es[0]);
    RunOne(w, es[0]);
    Extend(w, [es[0]], v, Go(pid));
    assert es == [es[0]] + [Go(pid)];
  }

  lemma JudgeRuns(w: World, pid: Pid, guess: nat, p: Pending, es: seq<Event>)
    requires w.clients == map[pid := Client(w.now, Compare(guess, p))] && es == [Go(pid), Go(pid)]
    ensures CanRun(w, es) && PromptRun(w, es)
    ensures Run(w, es) == (if guess == p.secret then
                             w.(codes := Logged(w.codes, p.id, 0, 1), successes := w.successes + {|w.codes|},
                                pending := None, sends := None, clients := map[pid := Client(w.now, Rest)])
                           else
                             w.(codes := Logged(w.codes, p.id, 1, 0), clients := map[pid := Client(w.now, Rest)],
                                pending := Some(PendingKey(p.(attempts := p.attempts + 1),
                                                           w.now + 1000 * SecondsLeft(p.expiresAt, w.now)))))
  {
    var v := Apply(w, es[0]);
    RunOne(w, es[0]);
    Extend(w, [es[0]], v, Go(pid));
    assert es == [es[0]] + [Go(pid)];
    assert Apply(v, Go(pid)).clients == map[pid := Client(w.now, Rest)];
  }

  lemma LeaveRuns(w: World, pid: Pid)
    requires w.clients == map[pid := Client(w.now, Rest)] && w.lock == Some(Lock(pid, w.now + LOCK_MS))
    ensures CanRun(w, [Release(pid)]) && PromptRun(w, [Release(pid)])
    ensures Run(w, [Release(pid)]) == w.(lock := None, clients := map[])
  {
    RunOne(w, Release(pid));
    assert Apply(w, Release(pid)).clients == map[];
  }

  lemma BusyRuns(w: World, pid: Pid, first: Step)
    requires LockHeld(w) && Enabled(w, Acquire(pid, first)) && Prompt(w)
    ensures CanRun(w, [Acquire(pid, first)]) && PromptRun(w, [Acquire(pid, first)])
    ensures Run(w, [Acquire(pid, first)]) == w.(used := w.used + {pid})
  {
    RunOne(w, Acquire(pid, first));
  }

  /** verifyOtp without interruption is a run of the machine, and leaves what AfterVerify says. */
  lemma VerifyRuns(w: World, pid: Pid, guess: nat) returns (trace: seq<Event>)
    requires w.clients == map[] && pid !in w.used
    ensures CanRun(w, trace) && PromptRun(w, trace) && Run(w, trace) == AfterVerify(w, pid, guess)
  {
    if LockHeld(w) {
      BusyRuns(w, pid, ReadCode(guess));
      return [Acquire(pid, ReadCode(guess))];
    }
    var look := [Acquire(pid, ReadCode(guess)), Go(pid)];
    LookRuns(w, pid, ReadCode(guess), look);
    var v := Run(w, look);
    trace := look;
    if VerifyAnswer(w, guess).Wrong? || VerifyAnswer(w, guess).Accepted? {
      var judge := [Go(pid), Go(pid)];
      assert v.clients == map[pid := Client(w.now, Compare(guess, w.pending.value.value))];
      JudgeRuns(v, pid, guess, w.pending.value.value, judge);
      RunAppend(w, look, judge);
      trace := look + judge;
      v := Run(v, judge);
    } else {
      assert v.clients == map[pid := Client(w.now, Rest)];
    }
    LeaveRuns(v, pid);
    RunAppend(w, trace, [Release(pid)]);
    trace := trace + [Release(pid)];
  }

  /** The keys after a request that sends nothing: a failed SMS also takes the last code and the cooldown away. */
  function AfterRefusal(w: World, pid: Pid, sms: Option<nat>): World {
    var v := w.(used := w.used + {pid}, lock := if LockHeld(w) then w.lock else None);
    if RequestAnswer(w, sms).SmsFailed? then v.(pending := None, cooldown := None) else v
  }

  lemma RefusalRuns(w: World, pid: Pid, sms: Option<nat>) returns (trace: seq<Event>)
    requires w.clients == map[] && pid !in w.used && !RequestAnswer(w, sms).Sent?
    ensures CanRun(w, trace) && PromptRun(w, trace) && Run(w, trace) == AfterRefusal(w, pid, sms)
  {
    if LockHeld(w) {
      BusyRuns(w, pid, CheckSends);
      return [Acquire(pid, CheckSends)];
    }
    var look := [Acquire(pid, CheckSends), Go(pid)];
    LookRuns(w, pid, CheckSends, look);
    var v := Run(w, look);
    trace := look;
    if RequestAnswer(w, sms).TooManyCodes? {
      assert v.clients == map[pid := Client(w.now, Rest)];
    } else {
      assert v.clients == map[pid := Client(w.now, SetCooldown(SendsLive(w)))];
      var more := CooldownRuns(v, pid);
      RunAppend(w, look, more);
      trace := look + more;
      v := Run(v, more);
    }
    LeaveRuns(v, pid);
    RunAppend(w, trace, [Release(pid)]);
    trace := trace + [Release(pid)];
  }

  lemma CooldownRuns(w: World, pid: Pid) returns (es: seq<Event>)
    requires w.clients.Keys == {pid} && w.clients[pid].step.SetCooldown? && w.clients[pid].since == w.now
    ensures CanRun(w, es) && PromptRun(w, es)
    ensures Run(w, es) == (if CooldownLive(w) then w else w.(cooldown := None, pending := None)).(clients := map[pid := Client(w.now, Rest)])
  {
    var w1 := Apply(w, Go(pid));
    RunOne(w, Go(pid));
    es := [Go(pid)];
    if CooldownLive(w) {
      assert w1.clients == map[pid := Client(w.now, Rest)];
    } else {
      var w2 := Apply(w1, Sms(pid, None));
      Extend(w, [Go(pid)], w1, Sms(pid, None));
      Extend(w, [Go(pid)] + [Sms(pid, None)], w2, Go(pid));
      es := [Go(pid)] + [Sms(pid, None)] + [Go(pid)];
      assert Apply(w2, Go(pid)).clients == map[pid := Client(w.now, Rest)];
    }
  }

  /** What holds between two requests. */
  ghost predicate Sound(w: World) {
    && w.clients == map[] && Exclusive(w) && CodesCounted(w)
    && (w.sends.Some? ==> w.sends.value.count >= 1 && w.sends.value.until.Some?)
  }

  lemma VerifyKeepsSound(w: World, pid: Pid, guess: nat)
    requires Sound(w) && pid !in w.used
    ensures Sound(AfterVerify(w, pid, guess))
  {
    var trace := VerifyRuns(w, pid, guess);
    FiveTriesOneSuccess(w, trace);
  }

  lemma SentKeepsSound(w: World, pid: Pid, sms: Option<nat>)
    requires Sound(w) && pid !in w.used && RequestAnswer(w, sms).Sent?
    ensures Sound(AfterRequest(w, pid, sms.value, 0))
  {
    var trace := RequestEvents(w, pid, sms.value, 0);
    RequestCounts(w, pid, sms.value, 0, trace);
    FiveTriesOneSuccess(w, trace);
  }

  lemma RefusalKeepsSound(w: World, pid: Pid, sms: Option<nat>)
    requires Sound(w) && pid !in w.used && !RequestAnswer(w, sms).Sent?
    ensures Sound(AfterRefusal(w, pid, sms))
  {
    var trace := RefusalRuns(w, pid, sms);
    FiveTriesOneSuccess(w, trace);
  }

  /** Nobody is about to ask for a code's SMS or to store one, and the cooldown runs until then. */
  ghost predicate Cools(w: World, until: int) {
    && w.cooldown == Some(until)
    && forall p :: p in w.clients ==>
         var s := w.clients[p].step;
         s.CheckSends? || s.SetCooldown? || s.ReadCode? || s.Compare? || s.WriteBack? || s.Erase? || s.Rest?
  }

  /** While the cooldown runs no SMS is asked for and no code is stored, in any run, whoever asks and however late. */
  lemma {:induction false} CooldownHolds(w: World, es: seq<Event>, until: int)
    requires CanRun(w, es) && Cools(w, until) && Run(w, es).now < until
    ensures Cools(Run(w, es), until) && |Run(w, es).codes| == |w.codes| && forall i :: 0 <= i < |es| ==> !es[i].Sms?
    decreases |es|
  {
    TimeGoesOn(w, es);
    if es != [] {
      var w' := Apply(w, es[0]);
      TimeGoesOn(w', es[1..]);
      CoolsOn(w, es[0], until);
      CooldownHolds(w', es[1..], until);
    }
  }

  lemma CoolsOn(w: World, e: Event, until: int)
    requires Enabled(w, e) && Cools(w, until) && w.now < until
    ensures !e.Sms? && Cools(Apply(w, e), until) && |Apply(w, e).codes| == |w.codes|
  {
  }

  lemma {:induction false} TimeGoesOn(w: World, es: seq<Event>)
    requires CanRun(w, es)
    ensures w.now <= Run(w, es).now
    decreases |es|
  {
    if es != [] { TimeGoesOn(Apply(w, es[0]), es[1..]); }
  }

  /** After a code was sent no other SMS is asked for within the next minute, in any run. */
  lemma NextCodeWaits(w: World, pid: Pid, secret: nat, es: seq<Event>)
    requires Ready(w, pid) && CanRun(AfterRequest(w, pid, secret, 0), es)
    requires Run(AfterRequest(w, pid, secret, 0), es).now < w.now + 60_000
    ensures |Run(AfterRequest(w, pid, secret, 0), es).codes| == |w.codes| + 1 && forall i :: 0 <= i < |es| ==> !es[i].Sms?
  {
    CooldownHolds(AfterRequest(w, pid, secret, 0), es, w.now + 60_000);
  }

  /** Both requests keep what every prompt run keeps. */
  /** Both requests keep what every prompt run keeps. */
  lemma RequestsKeepCounts(w: World, pid: Pid, guess: nat, sms: Option<nat>)
    requires Sound(w) && pid !in w.used
    ensures Sound(AfterVerify(w, pid, guess))
    ensures Sound(if RequestAnswer(w, sms).Sent? then AfterRequest(w, pid, sms.value, 0) else AfterRefusal(w, pid, sms))
  {
    VerifyKeepsSound(w, pid, guess);
    if RequestAnswer(w, sms).Sent? {
      SentKeepsSound(w, pid, sms);
    } else {
      RefusalKeepsSound(w, pid, sms);
    }
  }

  /**
   * The phone's keys and the two requests on them, each performed without interruption: VerifyRuns, RequestCounts and
   * RefusalRuns make each a run of the machine, and RequestsKeepCounts keeps Sound.
   */
  class PhoneCodes {
    var now: int
    var lock: Option<Lock>
    var sends: Option<Counter>
    var cooldown: Option<int>
    var pending: Option<PendingKey>
    var stored: nat   // how many codes so far: names the next one
    ghost var used: set<Pid>
    ghost var codes: seq<CodeLog>
    ghost var successes: set<nat>

    ghost function State(): World
      reads this
    {
      World(now, lock, sends, cooldown, pending, map[], used, codes, successes)
    }

    constructor (now: int)
      ensures State() == Start(now) && Sound(State()) && stored == |codes|
    {
      this.now := now;
      lock, sends, cooldown, pending := None, None, None, None;
      stored, used, codes, successes := 0, {}, [], {};
    }

    method Unlock(pid: Pid)
      modifies this`lock
      ensures lock == if LockHeld(old(State())) && old(lock).value.owner == pid then None else old(lock)
    {
      if lock.Some? && now < lock.value.until && lock.value.owner == pid { lock := None; }
    }

    method VerifyOtp(pid: Pid, guess: nat) returns (answer: Answer)
      requires pid !in used
      modifies this
      ensures State() == AfterVerify(old(State()), pid, guess) && stored == old(stored)
      ensures answer == VerifyAnswer(old(State()), guess)
      ensures VerifyTells(old(State()), State(), guess, answer)
      ensures answer.Accepted? ==> pending.None? && sends.None?
      ensures answer.Wrong? ==> pending.Some? && pending.value.value.attempts == old(pending).value.value.attempts + 1
      ensures answer.Wrong? ==> pending.value.until >= pending.value.value.expiresAt
    {
      ghost var w := State();
      AfterVerifyTells(w, pid, guess);
      used := used + {pid};
      if lock.Some? && now < lock.value.until { return Busy; }
      lock := Some(Lock(pid, now + LOCK_MS));
      answer := Check(guess);
      Unlock(pid);
      assert State() == AfterVerify(w, pid, guess);
    }

    /** The part of verifyOtp inside the lock. */
    method Check(guess: nat) returns (answer: Answer)
      modifies this`pending, this`sends, this`codes, this`successes
      ensures answer == VerifyAnswer(old(State()).(lock := None), guess)
      ensures answer.Wrong? ==>
                var p := old(pending).value.value;
                && pending == Some(PendingKey(p.(attempts := p.attempts + 1), now + 1000 * SecondsLeft(p.expiresAt, now)))
                && codes == Logged(old(codes), p.id, 1, 0) && sends == old(sends) && successes == old(successes)
      ensures answer.Accepted? ==>
                && pending.None? && sends.None? && codes == Logged(old(codes), old(pending).value.value.id, 0, 1)
                && successes == old(successes) + {|old(codes)|}
      ensures !answer.Wrong? && !answer.Accepted? ==>
                pending == old(pending) && sends == old(sends) && codes == old(codes) && successes == old(successes)
    {
      if pending.None? || now >= pending.value.until || pending.value.value.expiresAt <= now { return NoCode; }
      var found := pending.value.value;
      if found.attempts >= MAX_ATTEMPTS { return TooManyTries; }
      if guess != found.secret {
        codes := Logged(codes, found.id, 1, 0);
        pending := Some(PendingKey(found.(attempts := found.attempts + 1), now + 1000 * SecondsLeft(found.expiresAt, now)));
        return Wrong;
      }
      codes, successes := Logged(codes, found.id, 0, 1), successes + {|codes|};
      pending, sends := None, None;
      answer := Accepted;
    }

    method RequestOtp(pid: Pid, sms: Option<nat>) returns (answer: Answer)
      requires stored == |codes| && pid !in used
      requires sends.Some? ==> sends.value.count >= 1 && sends.value.until.Some?
      modifies this
      ensures stored == |codes|
      ensures answer == RequestAnswer(old(State()), sms)
      ensures RequestTells(old(State()), State(), sms, answer)
      ensures answer.Sent? ==> State() == AfterRequest(old(State()), pid, sms.value, 0)
      ensures !answer.Sent? ==> State() == AfterRefusal(old(State()), pid, sms)
    {
      ghost var w := State();
      AfterRequestTells(w, pid, sms);
      used := used + {pid};
      if lock.Some? && now < lock.value.until { return Busy; }
      lock := Some(Lock(pid, now + LOCK_MS));
      answer := SendCode(sms);
      Unlock(pid);
      assert answer.Sent? ==> State() == AfterRequest(w, pid, sms.value, 0);
      assert !answer.Sent? ==> State() == AfterRefusal(w, pid, sms);
    }

    /** The part of requestOtp inside the lock. */
    method SendCode(sms: Option<nat>) returns (answer: Answer)
      requires stored == |codes|
      modifies this`pending, this`sends, this`cooldown, this`stored, this`codes
      ensures answer == RequestAnswer(old(State()).(lock := None), sms) && stored == |codes|
      ensures answer.Sent? ==>
                && cooldown == Some(now + COOLDOWN_MS) && codes == old(codes) + [CodeLog(now, 0, 0)]
                && pending == Some(PendingKey(Pending(|old(codes)|, sms.value, now + CODE_MS, 0), now + CODE_MS))
                && sends == Some(Counter(if SendsLive(old(State())) then old(sends).value.count + 1 else 1, Some(now + WINDOW_MS)))
      ensures !answer.Sent? ==> codes == old(codes) && sends == old(sends)
      ensures answer.SmsFailed? ==> pending.None? && cooldown.None?
      ensures !answer.Sent? && !answer.SmsFailed? ==> pending == old(pending) && cooldown == old(cooldown)
    {
      var live := sends.Some? && (sends.value.until.None? || now < sends.value.until.value);
      if live && sends.value.count >= MAX_SENDS { return TooManyCodes; }
      if cooldown.Some? && now < cooldown.value { return Cooling; }
      if sms.None? {
        pending, cooldown := None, None;
        return SmsFailed;
      }
      cooldown := Some(now + COOLDOWN_MS);
      pending := Some(PendingKey(Pending(stored, sms.value, now + CODE_MS, 0), now + CODE_MS));
      sends := Some(Counter(if live then sends.value.count + 1 else 1, Some(now + WINDOW_MS)));
      stored, codes := stored + 1, codes + [CodeLog(now, 0, 0)];
      answer := Sent;
    }
  }

  //#endregion
}
