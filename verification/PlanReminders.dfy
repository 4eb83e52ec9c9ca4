/** CompanyPlanExpiryWorker.tick: each company hears of an end date once, whichever server instance sees it first. */
module PlanReminders {
  import MenuTime
  import PlanExpiry

  datatype Mark = Mark(user: MenuTime.UserId, day: int)

  /** The Redis marks with their end, and the notices sent, by any number of server instances. */
  datatype Log = Log(now: int, marks: map<Mark, int>, told: seq<Mark>)

  datatype Event =
    | Wait(ms: nat)
    | Attempt(user: MenuTime.UserId, endsAt: int, seenAt: int)   // a notice computed at seenAt reaches its mark

  /** toISOString().slice(0, 10) */
  function DayOf(at: int): int {
    at / MenuTime.DAY_MS
  }

  /** A notice is computed inside the reminder window, and reaches its mark at any time after. */
  predicate Enabled(w: Log, days: int, e: Event) {
    match e
    case Wait(_) => true
    case Attempt(_, endsAt, seenAt) => seenAt <= w.now && seenAt < endsAt <= seenAt + days * MenuTime.DAY_MS
  }

  /** It does so before two whole days have passed since the day of the end it speaks of. */
  predicate InTime(w: Log, e: Event) {
    e.Attempt? ==> w.now < (DayOf(e.endsAt) + 3) * MenuTime.DAY_MS
  }

  predicate Marked(w: Log, mark: Mark) {
    mark in w.marks && w.now < w.marks[mark]
  }

  function Apply(w: Log, days: int, e: Event): Log {
    match e
    case Wait(ms) => w.(now := w.now + ms)
    case Attempt(user, endsAt, _) =>
      var mark := Mark(user, DayOf(endsAt));
      if Marked(w, mark) then w
      else w.(marks := w.marks[mark := w.now + (days + 3) * MenuTime.DAY_MS], told := w.told + [mark])
  }

  predicate CanRun(w: Log, days: int, es: seq<Event>)
    decreases |es|
  {
    es == [] || (Enabled(w, days, es[0]) && CanRun(Apply(w, days, es[0]), days, es[1..]))
  }

  predicate AllInTime(w: Log, days: int, es: seq<Event>)
    decreases |es|
  {
    es == [] || (InTime(w, es[0]) && AllInTime(Apply(w, days, es[0]), days, es[1..]))
  }

  function Run(w: Log, days: int, es: seq<Event>): Log
    decreases |es|
  {
    if es == [] then w else Run(Apply(w, days, es[0]), days, es[1..])
  }

  /** No end date is told twice, every one told is marked until it is two days old, and none is marked without being told. */
  ghost predicate ToldOnce(w: Log) {
    && (forall i, j :: 0 <= i < j < |w.told| ==> w.told[i] != w.told[j])
    && (forall m :: m in w.told ==> m in w.marks && w.marks[m] >= (m.day + 3) * MenuTime.DAY_MS)
    && (forall m :: m in w.marks ==> m in w.told)
  }

  lemma AttemptKeepsToldOnce(w: Log, days: int, e: Event)
    requires ToldOnce(w) && days >= 1 && Enabled(w, days, e) && InTime(w, e)
    ensures ToldOnce(Apply(w, days, e))
  {
    if e.Attempt? {
      var mark := Mark(e.user, DayOf(e.endsAt));
      assert mark.day * MenuTime.DAY_MS <= e.endsAt < (mark.day + 1) * MenuTime.DAY_MS;
      // the window opens `days` before the end, so a mark set inside it outlives the end date by two days
      assert w.now + (days + 3) * MenuTime.DAY_MS >= (mark.day + 3) * MenuTime.DAY_MS;
      assert w.now < (mark.day + 3) * MenuTime.DAY_MS;
    }
  }

  /** With fixed reminder days a company is told at most once per end date, in any run of any number of instances. */
  lemma {:induction false} ToldAtMostOnce(w: Log, days: int, es: seq<Event>)
    requires ToldOnce(w) && days >= 1 && CanRun(w, days, es) && AllInTime(w, days, es)
    ensures ToldOnce(Run(w, days, es))
    ensures var told := Run(w, days, es).told; forall i, j :: 0 <= i < j < |told| ==> told[i] != told[j]
    decreases |es|
  {
    if es != [] {
      AttemptKeepsToldOnce(w, days, es[0]);
      ToldAtMostOnce(Apply(w, days, es[0]), days, es[1..]);
    }
  }

  /**
   * That bound is exact: from the first moment past it on, a company told as early as it can be is told again by a notice
   * that late.
   */
  lemma LateAttemptTellsTwice(w: Log, days: int, user: MenuTime.UserId, day: int, late: int) returns (es: seq<Event>)
    requires days >= 1 && w == Log((day - days) * MenuTime.DAY_MS, map[], [])
    requires late >= (day + 3) * MenuTime.DAY_MS
    ensures CanRun(w, days, es) && Run(w, days, es).told == [Mark(user, day), Mark(user, day)] && Run(w, days, es).now == late
  {
    var attempt := Attempt(user, day * MenuTime.DAY_MS, w.now);
    var wait := Wait(late - w.now);
    es := [attempt, wait, attempt];
    assert DayOf(day * MenuTime.DAY_MS) == day;
    var w1 := Apply(w, days, attempt);
    var w2 := Apply(w1, days, wait);
    assert !Marked(w2, Mark(user, day));
    var w3 := Apply(w2, days, attempt);
    assert es[1..] == [wait, attempt] && es[1..][1..] == [attempt] && es[1..][1..][1..] == [];
    assert Run(w2, days, [attempt]) == w3 && CanRun(w2, days, [attempt]);
    assert Run(w1, days, [wait, attempt]) == w3 && CanRun(w1, days, [wait, attempt]);
  }

  lemma FreshNoticeIsInTime(w: Log, days: int, e: Event)
    ensures e.Attempt? && w.now < e.endsAt ==> InTime(w, e)
  {
  }

  function Attempts(notices: seq<PlanExpiry.Notice>, seenAt: int): seq<Event> {
    seq(|notices|, i requires 0 <= i < |notices| => Attempt(notices[i].user, notices[i].endsAt, seenAt))
  }

  lemma OneMoreAttempt(w: Log, days: int, notices: seq<PlanExpiry.Notice>, seenAt: int)
    requires notices != []
    ensures var e := Attempt(notices[0].user, notices[0].endsAt, seenAt);
            Run(w, days, Attempts(notices, seenAt)) == Run(Apply(w, days, e), days, Attempts(notices[1..], seenAt))
  {
    assert Attempts(notices, seenAt)[1..] == Attempts(notices[1..], seenAt);
  }

  class ExpiryWorker {
    const days: int
    var now: int
    var running: bool
    var marks: map<Mark, int>
    ghost var told: seq<Mark>

    ghost function State(): Log
      reads this
    {
      Log(now, marks, told)
    }

    constructor (days: int, now: int)
      ensures ToldOnce(State()) && !running && this.days == days && this.now == now && told == []
    {
      this.days, this.now, running := days, now, false;
      marks, told := map[], [];
    }

    method SetIfAbsent(mark: Mark, until: int) returns (set_: bool)
      modifies this`marks
      ensures set_ == !Marked(old(State()), mark)
      ensures marks == if set_ then old(marks)[mark := until] else old(marks)
    {
      set_ := mark !in marks || now >= marks[mark];
      if set_ { marks := marks[mark := until]; }
    }

    /** One sweep over the notices computed at its start; an overlapping one is skipped. */
    method Tick(notices: seq<PlanExpiry.Notice>) returns (sent: nat)
      requires ToldOnce(State()) && days >= 1
      requires forall n :: n in notices ==> now < n.endsAt <= now + days * MenuTime.DAY_MS
      modifies this
      ensures ToldOnce(State()) && running == old(running) && now == old(now)
      ensures |told| == |old(told)| + sent
      ensures State() == if running then old(State()) else Run(old(State()), days, Attempts(notices, now))
      ensures !running ==> forall n :: n in notices ==> Marked(State(), Mark(n.user, DayOf(n.endsAt))) && Mark(n.user, DayOf(n.endsAt)) in told
    {
      if running { return 0; }
      running := true;
      sent := 0;
      ghost var goal := Run(State(), days, Attempts(notices, now));
      for i := 0 to |notices|
        invariant now == old(now) && running && ToldOnce(State()) && |told| == |old(told)| + sent
        invariant Run(State(), days, Attempts(notices[i..], now)) == goal
        invariant forall j :: 0 <= j < i ==> Marked(State(), Mark(notices[j].user, DayOf(notices[j].endsAt)))
      {
        var n := notices[i];
        OneMoreAttempt(State(), days, notices[i..], now);
        assert notices[i..][1..] == notices[i + 1..];
        var first := Remind(n);
        if first { sent := sent + 1; }
      }
      running := false;
    }

    /** One notice: told unless its mark is there. */
    method Remind(n: PlanExpiry.Notice) returns (first: bool)
      requires ToldOnce(State()) && days >= 1 && now < n.endsAt <= now + days * MenuTime.DAY_MS
      modifies this`marks, this`told
      ensures ToldOnce(State()) && State() == Apply(old(State()), days, Attempt(n.user, n.endsAt, now))
      ensures first == !Marked(old(State()), Mark(n.user, DayOf(n.endsAt)))
      ensures |told| == |old(told)| + if first then 1 else 0
      ensures Marked(State(), Mark(n.user, DayOf(n.endsAt))) && forall m :: Marked(old(State()), m) ==> Marked(State(), m)
    {
      FreshNoticeIsInTime(State(), days, Attempt(n.user, n.endsAt, now));
      AttemptKeepsToldOnce(State(), days, Attempt(n.user, n.endsAt, now));
      var mark := Mark(n.user, DayOf(n.endsAt));
      first := SetIfAbsent(mark, now + (days + 3) * MenuTime.DAY_MS);
      if first {
        told := told + [mark];
      }
    }
  }
}
