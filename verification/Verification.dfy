/**
 * DriverVerificationService: paid inquiries about a driver's documents, kept with the inputs they were asked for. A world is
 * one driver's profile and stored record, with the log of every answered inquiry; visits (calls of verify) and profile
 * edits come one after another. An input key is the inputs themselves: the hash is taken to be injective.
 */
module Verification {
  import opened Options

  //#region Checks and their inputs

  datatype Check = Shahkar | Person | License | Score

  /** The profile's fields in their normal form, absent when they are not valid; names as compared. */
  datatype Profile = Profile(nationalCode: Option<string>, mobile: Option<string>, birthDate: Option<string>,
                             licenseNumber: Option<string>, firstName: string, lastName: string)

  /** What the judge reads of an answer's data; absent data reads as false, empty or none. */
  datatype Data = Data(matched: bool, dead: bool, firstName: string, lastName: string, licenses: seq<string>)

  datatype Answer = Answer(key: seq<string>, at: int, ok: bool, data: Data)

  datatype Usage = Usage(day: int, count: nat)

  datatype Record = Record(answers: map<Check, Answer>, usage: Option<Usage>)

  datatype Status = Missing | Pending | Failed | Passed

  const HOUR: int := 3_600_000
  const DAY: int := 24 * HOUR
  const DAILY_PAID_INQUIRIES: nat := 12

  function Inputs(p: Profile, check: Check): Option<seq<string>> {
    match check
    case Person =>
      if p.nationalCode.Some? && p.birthDate.Some? then Some([p.nationalCode.value, p.birthDate.value]) else None
    case Score =>
      if p.nationalCode.Some? && p.mobile.Some? && p.licenseNumber.Some? then
        Some([p.nationalCode.value, p.mobile.value, p.licenseNumber.value])
      else None
    case _ =>
      if p.nationalCode.Some? && p.mobile.Some? then Some([p.nationalCode.value, p.mobile.value]) else None
  }

  predicate Accepted(check: Check, a: Answer, p: Profile) {
    && a.ok
    && match check
       case Shahkar => a.data.matched
       case Person => !a.data.dead && a.data.firstName == p.firstName && a.data.lastName == p.lastName
       case License => a.data.licenses != [] && (p.licenseNumber.Some? ==> p.licenseNumber.value in a.data.licenses)
       case Score => true
  }

  /** The view of a check on its own. */
  function Judged(p: Profile, answers: map<Check, Answer>, check: Check): Status {
    var input := Inputs(p, check);
    if input.None? then Missing
    else if check !in answers || answers[check].key != input.value then Pending
    else if Accepted(check, answers[check], p) then Passed
    else Failed
  }

  /** The view of a check: what was asked with the mobile waits for shahkar. */
  function StatusOf(p: Profile, answers: map<Check, Answer>, check: Check): Status {
    if (check == License || check == Score) && Judged(p, answers, Shahkar) != Passed && Judged(p, answers, check) != Missing
    then Pending
    else Judged(p, answers, check)
  }

  predicate Verified(p: Profile, answers: map<Check, Answer>) {
    StatusOf(p, answers, Shahkar) == Passed && StatusOf(p, answers, Person) == Passed && StatusOf(p, answers, License) == Passed
  }

  method EvaluateVerification(p: Profile, answers: map<Check, Answer>) returns (checks: map<Check, Status>, verified: bool)
    ensures checks.Keys == {Shahkar, Person, License, Score}
    ensures forall check :: check in checks ==> checks[check] == StatusOf(p, answers, check)
    ensures verified <==> Verified(p, answers)
    ensures TellsInFields(p, answers, checks, verified)
  {
    var order := [Shahkar, Person, License, Score];
    checks := map[];
    for i := 0 to |order|
      invariant checks.Keys == set k | 0 <= k < i :: order[k]
      invariant forall check :: check in checks ==> checks[check] == Judged(p, answers, check)
    {
      var check := order[i];
      var input := Inputs(p, check);
      if input.None? {
        checks := checks[check := Missing];
      } else if check !in answers || answers[check].key != input.value {
        checks := checks[check := Pending];
      } else {
        checks := checks[check := if Accepted(check, answers[check], p) then Passed else Failed];
      }
    }
    assert order[0] in checks.Keys && order[1] in checks.Keys && order[2] in checks.Keys && order[3] in checks.Keys;
    if checks[Shahkar] != Passed {
      var later := [License, Score];
      for i := 0 to |later|
        invariant checks.Keys == {Shahkar, Person, License, Score}
        invariant forall check :: check in checks ==>
          checks[check] == if check in later[..i] then StatusOf(p, answers, check) else Judged(p, answers, check)
      {
        if checks[later[i]] != Missing {
          checks := checks[later[i] := Pending];
        }
        assert later[..i + 1] == later[..i] + [later[i]];
      }
      assert later[..|later|] == later && later[0] == License && later[1] == Score;
    }
    verified := checks[Shahkar] == Passed && checks[Person] == Passed && checks[License] == Passed;
    ViewTells(p, answers, checks, verified);
  }

  //#endregion

  //#region What a view says

  /** The fields a check is asked by are there. */
  predicate HasFields(p: Profile, check: Check) {
    && p.nationalCode.Some? && (if check == Person then p.birthDate.Some? else p.mobile.Some?)
    && (check == Score ==> p.licenseNumber.Some?)
  }

  /** The stored answer of a check is for the fields as they are. */
  predicate AnsweredFor(p: Profile, answers: map<Check, Answer>, check: Check) {
    && check in answers && HasFields(p, check)
    && answers[check].key == [p.nationalCode.value, if check == Person then p.birthDate.value else p.mobile.value]
                             + if check == Score then [p.licenseNumber.value] else []
  }

  /** The mobile is registered to the national code. */
  predicate OwnMobile(p: Profile, answers: map<Check, Answer>) {
    AnsweredFor(p, answers, Shahkar) && answers[Shahkar].ok && answers[Shahkar].data.matched
  }

  /** The person of the national code and birth date is alive and has both names. */
  predicate OwnName(p: Profile, answers: map<Check, Answer>) {
    && AnsweredFor(p, answers, Person) && answers[Person].ok && !answers[Person].data.dead
    && answers[Person].data.firstName == p.firstName && answers[Person].data.lastName == p.lastName
  }

  /** There is a licence, and the number typed, if one was, is a licence's. */
  predicate OwnLicense(p: Profile, answers: map<Check, Answer>) {
    && AnsweredFor(p, answers, License) && answers[License].ok
    && HasLicense(answers[License].data.licenses, p.licenseNumber)
  }

  predicate HasLicense(licenses: seq<string>, typed: Option<string>) {
    exists i :: 0 <= i < |licenses| && (typed.Some? ==> licenses[i] == typed.value)
  }

  /** The score was answered; whatever it is, it is shown. */
  predicate OwnScore(p: Profile, answers: map<Check, Answer>) {
    AnsweredFor(p, answers, Score) && answers[Score].ok
  }

  /** What each check's view says, in the fields of the profile and of the stored answers. */
  lemma FieldsTell(p: Profile, answers: map<Check, Answer>)
    ensures StatusOf(p, answers, Shahkar) == Passed <==> OwnMobile(p, answers)
    ensures StatusOf(p, answers, Person) == Passed <==> OwnName(p, answers)
    ensures StatusOf(p, answers, License) == Passed <==> OwnMobile(p, answers) && OwnLicense(p, answers)
    ensures StatusOf(p, answers, Score) == Passed <==> OwnMobile(p, answers) && OwnScore(p, answers)
    ensures forall check :: StatusOf(p, answers, check) == Missing <==> !HasFields(p, check)
    ensures forall check :: (StatusOf(p, answers, check) == Failed
              <==> AnsweredFor(p, answers, check) && StatusOf(p, answers, check) != Passed
                   && (check in {License, Score} ==> OwnMobile(p, answers)))
  {
    forall check ensures Inputs(p, check).Some? <==> HasFields(p, check)
      ensures AnsweredFor(p, answers, check) <==> Inputs(p, check).Some? && check in answers && answers[check].key == Inputs(p, check).value
    {
    }
    if License in answers { LicenseTells(answers[License].data.licenses, p.licenseNumber); }
  }

  /** A view in the fields of the profile and the answers: what passes each check, is missing, or fails, and who is verified. */
  predicate TellsInFields(p: Profile, answers: map<Check, Answer>, checks: map<Check, Status>, verified: bool)
    requires checks.Keys == {Shahkar, Person, License, Score}
  {
    && (checks[Shahkar] == Passed <==> OwnMobile(p, answers))
    && (checks[Person] == Passed <==> OwnName(p, answers))
    && (checks[License] == Passed <==> OwnMobile(p, answers) && OwnLicense(p, answers))
    && (checks[Score] == Passed <==> OwnMobile(p, answers) && OwnScore(p, answers))
    && (verified <==> OwnMobile(p, answers) && OwnName(p, answers) && OwnLicense(p, answers))
    && (forall check :: check in checks ==> (checks[check] == Missing <==> !HasFields(p, check)))
    && (forall check :: check in checks ==>
          (checks[check] == Failed
           <==> AnsweredFor(p, answers, check) && checks[check] != Passed && (check in {License, Score} ==> checks[Shahkar] == Passed)))
  }

  lemma ViewTells(p: Profile, answers: map<Check, Answer>, checks: map<Check, Status>, verified: bool)
    requires checks.Keys == {Shahkar, Person, License, Score} && (verified <==> Verified(p, answers))
    requires forall check :: check in checks ==> checks[check] == StatusOf(p, answers, check)
    ensures TellsInFields(p, answers, checks, verified)
  {
    FieldsTell(p, answers);
  }

  lemma LicenseTells(licenses: seq<string>, typed: Option<string>)
    ensures licenses != [] && (typed.Some? ==> typed.value in licenses) <==> HasLicense(licenses, typed)
  {
    if licenses != [] && typed.None? {
      var i: nat := 0;
      assert i < |licenses| && licenses[i] == licenses[0];
    }
  }

  /** A check is settled exactly when its inputs are there, its answer is for them, and shahkar has passed where it must. */
  lemma SettledExactlyFor(p: Profile, answers: map<Check, Answer>, check: Check)
    ensures StatusOf(p, answers, check) in {Passed, Failed}
       <==> && Inputs(p, check).Some? && check in answers && answers[check].key == Inputs(p, check).value
            && (check in {License, Score} ==> StatusOf(p, answers, Shahkar) == Passed)
  {
  }

  /** Changing an input of a check, or one of shahkar's for those that wait for it, unsettles it. */
  lemma ChangedInputUnsettles(p: Profile, p': Profile, answers: map<Check, Answer>, check: Check, changed: Check)
    requires StatusOf(p, answers, check) in {Passed, Failed}
    requires changed == check || (changed == Shahkar && check in {License, Score})
    requires Inputs(p', changed) != Inputs(p, changed)
    ensures StatusOf(p', answers, check) in {Pending, Missing}
  {
    SettledExactlyFor(p, answers, check);
    SettledExactlyFor(p, answers, changed);
    SettledExactlyFor(p', answers, check);
    SettledExactlyFor(p', answers, changed);
  }

  //#endregion

  //#region Visits and edits

  /** One inquiry as it may go: its age check, its day, and the reply, absent when the call fails. */
  datatype Call = Call(asked: int, spent: int, reply: Option<Reply>, answered: int)

  datatype Reply = Reply(ok: bool, data: Data)

  datatype Visit = Visit(began: int, shahkar: Call, person: Call, license: Call, score: Call)

  /** An answered inquiry, with the profile and the answers it was asked by. */
  datatype Inquiry = Inquiry(check: Check, began: int, asked: int, spent: int, profile: Profile, before: map<Check, Answer>,
                             answer: Answer)

  datatype World = World(profile: Profile, record: Record, log: seq<Inquiry>, clock: int)

  datatype Event = Edit(profile: Profile) | Verify(visit: Visit)

  predicate InOrder(call: Call) {
    call.asked <= call.spent <= call.answered
  }

  predicate Timely(w: World, v: Visit) {
    && w.clock <= v.began <= v.shahkar.asked && InOrder(v.shahkar)
    && v.shahkar.answered <= v.person.asked && InOrder(v.person)
    && v.person.answered <= v.license.asked && InOrder(v.license)
    && v.license.answered <= v.score.asked && InOrder(v.score)
  }

  /** The UTC day of a moment. */
  function DayOf(t: int): int {
    t / DAY
  }

  predicate Keeps(check: Check, a: Answer, now: int) {
    var age := now - a.at;
    if !a.ok then age < HOUR
    else match check
      case Shahkar => age < 180 * DAY
      case Person => true
      case License => age < 30 * DAY
      case Score => age < 7 * DAY
  }

  predicate Asks(p: Profile, answers: map<Check, Answer>, check: Check, now: int) {
    var input := Inputs(p, check);
    input.Some? && !(check in answers && answers[check].key == input.value && Keeps(check, answers[check], now))
  }

  function SpentOn(usage: Option<Usage>, day: int): nat {
    if usage.Some? && usage.value.day == day then usage.value.count else 0
  }

  /** A check brought up to date, and whether that threw. Nothing of a call that fails is stored, not even its count. */
  function Refreshed(w: World, check: Check, call: Call, began: int): (World, bool) {
    if !Asks(w.profile, w.record.answers, check, call.asked) then (w, false)
    else if SpentOn(w.record.usage, DayOf(call.spent)) >= DAILY_PAID_INQUIRIES || call.reply.None? then (w, true)
    else (WithAnswer(w, check, call, began), false)
  }

  function AnswerOf(p: Profile, check: Check, call: Call): Answer
    requires Inputs(p, check).Some? && call.reply.Some?
  {
    Answer(Inputs(p, check).value, call.answered, call.reply.value.ok, call.reply.value.data)
  }

  function WithAnswer(w: World, check: Check, call: Call, began: int): World
    requires Inputs(w.profile, check).Some? && call.reply.Some?
  {
    var answer := AnswerOf(w.profile, check, call);
    var day := DayOf(call.spent);
    w.(record := Record(w.record.answers[check := answer], Some(Usage(day, SpentOn(w.record.usage, day) + 1))),
       log := w.log + [Inquiry(check, began, call.asked, call.spent, w.profile, w.record.answers, answer)])
  }

  function Shown(w: World, check: Check): Status {
    StatusOf(w.profile, w.record.answers, check)
  }

  function ShahkarAndPerson(w: World, v: Visit): (World, bool) {
    var (w1, threw) := Refreshed(w, Shahkar, v.shahkar, v.began);
    if threw then (w1, true) else Refreshed(w1, Person, v.person, v.began)
  }

  function UpToLicense(w: World, v: Visit): (World, bool) {
    var (w2, threw) := ShahkarAndPerson(w, v);
    if threw || Shown(w2, Shahkar) != Passed then (w2, threw) else Refreshed(w2, License, v.license, v.began)
  }

  function Visited(w: World, v: Visit): (World, bool) {
    var (w3, threw) := UpToLicense(w, v);
    if threw || Shown(w3, License) != Passed then (w3, threw) else Refreshed(w3, Score, v.score, v.began)
  }

  predicate Enabled(w: World, e: Event) {
    e.Verify? ==> Timely(w, e.visit)
  }

  function Step(w: World, e: Event): World {
    match e
    case Edit(profile) => w.(profile := profile)
    case Verify(v) => Visited(w, v).0.(clock := v.score.answered)
  }

  predicate CanRun(w: World, events: seq<Event>)
    decreases |events|
  {
    events == [] || (Enabled(w, events[0]) && CanRun(Step(w, events[0]), events[1..]))
  }

  function Run(w: World, events: seq<Event>): World
    decreases |events|
  {
    if events == [] then w else Run(Step(w, events[0]), events[1..])
  }

  predicate Fresh(w: World) {
    w.record == Record(map[], None) && w.log == []
  }

  //#endregion

  //#region The daily count

  /** Answered inquiries paid for on a day. */
  function PaidOn(log: seq<Inquiry>, day: int): nat {
    if log == [] then 0
    else PaidOn(log[..|log| - 1], day) + if DayOf(log[|log| - 1].spent) == day then 1 else 0
  }

  /** The stored count is that of its day, nothing is paid for after that day, and no day is over its quota. */
  ghost predicate QuotaInv(w: World) {
    var usage := w.record.usage;
    && (forall day :: PaidOn(w.log, day) <= DAILY_PAID_INQUIRIES)
    && (usage.None? ==> forall day :: PaidOn(w.log, day) == 0)
    && (usage.Some? ==>
          && DayOf(w.clock) >= usage.value.day
          && PaidOn(w.log, usage.value.day) == usage.value.count
          && forall day :: day > usage.value.day ==> PaidOn(w.log, day) == 0)
  }

  lemma DaysInOrder(a: int, b: int)
    ensures a <= b ==> DayOf(a) <= DayOf(b)
  {
  }

  lemma AnswerKeepsQuota(w: World, check: Check, call: Call, began: int)
    requires QuotaInv(w) && Inputs(w.profile, check).Some? && call.reply.Some? && w.clock <= call.spent
    requires SpentOn(w.record.usage, DayOf(call.spent)) < DAILY_PAID_INQUIRIES
    ensures QuotaInv(WithAnswer(w, check, call, began).(clock := call.spent))
  {
    var w' := WithAnswer(w, check, call, began).(clock := call.spent);
    var today := DayOf(call.spent);
    DaysInOrder(w.clock, call.spent);
    assert w'.log[..|w'.log| - 1] == w.log;
    forall day ensures PaidOn(w'.log, day) == PaidOn(w.log, day) + if day == today then 1 else 0 {
    }
    assert PaidOn(w.log, today) == SpentOn(w.record.usage, today);
  }

  //#endregion

  //#region The log and what it answers for

  /** The last answer to a check. */
  function LastTo(log: seq<Inquiry>, check: Check): Option<Inquiry> {
    if log == [] then None
    else if log[|log| - 1].check == check then Some(log[|log| - 1])
    else LastTo(log[..|log| - 1], check)
  }

  /** The stored answers are the last ones. */
  predicate AnswersInv(log: seq<Inquiry>, answers: map<Check, Answer>) {
    forall check ::
      && (check in answers <==> LastTo(log, check).Some?)
      && (check in answers ==> answers[check] == LastTo(log, check).value.answer)
  }

  /** An inquiry was due: its answer is for the inputs of its moment, and the answer it replaced was for others or stale. */
  predicate Due(e: Inquiry) {
    && Inputs(e.profile, e.check) == Some(e.answer.key)
    && (e.check in e.before && e.before[e.check].key == e.answer.key ==> !Keeps(e.check, e.before[e.check], e.asked))
  }

  /** A check passed for the current inputs, by an answer still valid when the visit began. */
  predicate PassedBy(e: Inquiry, check: Check) {
    StatusOf(e.profile, e.before, check) == Passed && check in e.before && Keeps(check, e.before[check], e.began)
  }

  /** Licence is asked only with shahkar passed, score only with licence passed as well. */
  predicate Gated(e: Inquiry) {
    && (e.check == License || e.check == Score ==> PassedBy(e, Shahkar))
    && (e.check == Score ==> PassedBy(e, License))
  }

  predicate LogInv(log: seq<Inquiry>) {
    forall i :: 0 <= i < |log| ==> Due(log[i]) && Gated(log[i]) && AnswersInv(log[..i], log[i].before)
  }

  ghost predicate Inv(w: World) {
    QuotaInv(w) && AnswersInv(w.log, w.record.answers) && LogInv(w.log)
  }

  lemma AnswerKeepsAnswers(w: World, check: Check, call: Call, began: int)
    requires AnswersInv(w.log, w.record.answers) && Inputs(w.profile, check).Some? && call.reply.Some?
    ensures AnswersInv(WithAnswer(w, check, call, began).log, WithAnswer(w, check, call, began).record.answers)
  {
    var w' := WithAnswer(w, check, call, began);
    assert w'.log[..|w'.log| - 1] == w.log;
  }

  lemma AppendKeepsLog(log: seq<Inquiry>, e: Inquiry)
    requires LogInv(log) && Due(e) && Gated(e) && AnswersInv(log, e.before)
    ensures LogInv(log + [e])
  {
    var log' := log + [e];
    forall i | 0 <= i < |log'| ensures Due(log'[i]) && Gated(log'[i]) && AnswersInv(log'[..i], log'[i].before) {
      assert log'[..i] == log[..i];
    }
    assert log'[..|log|] == log;
  }

  //#endregion

  //#region One check brought up to date

  /** The stored answer may still be used: a failed inquiry for an hour, the others for as long as their kind lasts. */
  predicate StillGood(check: Check, a: Answer, now: int) {
    if !a.ok then now - a.at < 3_600_000
    else (check == Shahkar ==> now - a.at < 180 * 86_400_000) && (check == License ==> now - a.at < 30 * 86_400_000)
         && (check == Score ==> now - a.at < 7 * 86_400_000)
  }

  /**
   * What bringing a check up to date does to the stored record, and which calls it makes. It is due when its fields are
   * there without a good answer for them; it throws when the day's twelve are spent or the call fails, and then, as when it
   * is not due, the record stays; else the answer is stored for those fields, and the day's count goes up by one.
   */
  ghost predicate Brought(w: World, w': World, check: Check, call: Call, threw: bool, made: seq<Made>) {
    var answers, usage, day := w.record.answers, w.record.usage, call.spent / 86_400_000;
    var spent := if usage.Some? && usage.value.day == day then usage.value.count else 0;
    var due := HasFields(w.profile, check) && !(AnsweredFor(w.profile, answers, check) && StillGood(check, answers[check], call.asked));
    && w'.profile == w.profile
    && (threw <==> due && (spent >= 12 || call.reply.None?))
    && made == (if due && spent < 12 then [Made(check, day, call.reply.None?)] else [])
    && if !due || threw then w' == w
       else
         && AnsweredFor(w.profile, w'.record.answers, check) && w'.record.usage == Some(Usage(day, spent + 1))
         && w'.record.answers == answers[check := w'.record.answers[check]]
         && w'.record.answers[check] == Answer(w'.record.answers[check].key, call.answered, call.reply.value.ok, call.reply.value.data)
  }

  lemma RefreshBrings(w: World, check: Check, call: Call, began: int)
    ensures var (w', threw) := Refreshed(w, check, call, began); Brought(w, w', check, call, threw, CallMade(w, check, call))
  {
    assert AnsweredFor(w.profile, w.record.answers, check)
      <==> Inputs(w.profile, check).Some? && check in w.record.answers && w.record.answers[check].key == Inputs(w.profile, check).value;
  }

  /** What lets a visit come to a check: licence and score wait for the mobile, score for the licence as well. */
  predicate ComesTo(p: Profile, answers: map<Check, Answer>, check: Check) {
    (check in {License, Score} ==> OwnMobile(p, answers)) && (check == Score ==> OwnLicense(p, answers))
  }

  predicate UpToDate(w: World, check: Check, now: int) {
    ComesTo(w.profile, w.record.answers, check) && HasFields(w.profile, check) ==>
      AnsweredFor(w.profile, w.record.answers, check) && StillGood(check, w.record.answers[check], now)
  }

  lemma RefreshUpdates(w: World, check: Check, call: Call, began: int)
    requires InOrder(call) && !Refreshed(w, check, call, began).1
    ensures UpToDate(Refreshed(w, check, call, began).0, check, call.asked)
  {
    RefreshBrings(w, check, call, began);
  }

  lemma RefreshSparesUpToDate(w: World, check: Check, call: Call, began: int, other: Check, now: int)
    requires other != check && (other in {Shahkar, Person} || check == Score) && UpToDate(w, other, now)
    ensures UpToDate(Refreshed(w, check, call, began).0, other, now)
  {
  }

  lemma FirstTwoUpdated(w: World, v: Visit)
    requires Timely(w, v) && !ShahkarAndPerson(w, v).1
    ensures var w' := ShahkarAndPerson(w, v).0; UpToDate(w', Shahkar, v.shahkar.asked) && UpToDate(w', Person, v.person.asked)
  {
    var (w1, threw) := Refreshed(w, Shahkar, v.shahkar, v.began);
    RefreshUpdates(w, Shahkar, v.shahkar, v.began);
    RefreshUpdates(w1, Person, v.person, v.began);
    RefreshSparesUpToDate(w1, Person, v.person, v.began, Shahkar, v.shahkar.asked);
  }

  lemma FirstThreeUpdated(w: World, v: Visit)
    requires Timely(w, v) && !UpToLicense(w, v).1
    ensures var w' := UpToLicense(w, v).0;
            UpToDate(w', Shahkar, v.shahkar.asked) && UpToDate(w', Person, v.person.asked) && UpToDate(w', License, v.license.asked)
  {
    var (w2, threw) := ShahkarAndPerson(w, v);
    FirstTwoUpdated(w, v);
    FieldsTell(w2.profile, w2.record.answers);
    if Shown(w2, Shahkar) == Passed {
      RefreshUpdates(w2, License, v.license, v.began);
      RefreshSparesUpToDate(w2, License, v.license, v.began, Shahkar, v.shahkar.asked);
      RefreshSparesUpToDate(w2, License, v.license, v.began, Person, v.person.asked);
    }
  }

  /** A visit that does not throw leaves every check it comes to with a good answer for the fields as they are. */
  lemma VisitUpdatesAll(w: World, v: Visit)
    requires Timely(w, v) && !Visited(w, v).1
    ensures var w' := Visited(w, v).0;
            && UpToDate(w', Shahkar, v.shahkar.asked) && UpToDate(w', Person, v.person.asked)
            && UpToDate(w', License, v.license.asked) && UpToDate(w', Score, v.score.asked)
  {
    var (w3, threw) := UpToLicense(w, v);
    FirstThreeUpdated(w, v);
    FieldsTell(w3.profile, w3.record.answers);
    if Shown(w3, License) == Passed {
      RefreshUpdates(w3, Score, v.score, v.began);
      RefreshSparesUpToDate(w3, Score, v.score, v.began, Shahkar, v.shahkar.asked);
      RefreshSparesUpToDate(w3, Score, v.score, v.began, Person, v.person.asked);
      RefreshSparesUpToDate(w3, Score, v.score, v.began, License, v.license.asked);
    }
  }

  //#endregion

  //#region Every run keeps them

  /** What lets a check be asked. */
  predicate GateOpen(w: World, check: Check, began: int) {
    && (check == License || check == Score ==> PassedNow(w, Shahkar, began))
    && (check == Score ==> PassedNow(w, License, began))
  }

  predicate PassedNow(w: World, check: Check, began: int) {
    Shown(w, check) == Passed && check in w.record.answers && Keeps(check, w.record.answers[check], began)
  }

  lemma RefreshKeepsInv(w: World, check: Check, call: Call, began: int)
    requires Inv(w) && w.clock <= call.spent && GateOpen(w, check, began)
    ensures Inv(Refreshed(w, check, call, began).0.(clock := call.spent))
  {
    var (w', threw) := Refreshed(w, check, call, began);
    if w' == w {
      LaterKeepsInv(w, call.spent);
    } else {
      AnswerKeepsQuota(w, check, call, began);
      AnswerKeepsAnswers(w, check, call, began);
      AppendKeepsLog(w.log, w'.log[|w.log|]);
    }
  }

  lemma LaterKeepsInv(w: World, t: int)
    requires Inv(w) && w.clock <= t
    ensures Inv(w.(clock := t))
  {
    DaysInOrder(w.clock, t);
  }

  /** A check that passes once brought up to date does so by an answer still valid when the visit began. */
  lemma RefreshedIsCurrent(w: World, check: Check, call: Call, began: int)
    requires began <= call.asked && InOrder(call)
    requires !Refreshed(w, check, call, began).1 && Shown(Refreshed(w, check, call, began).0, check) == Passed
    ensures PassedNow(Refreshed(w, check, call, began).0, check, began)
  {
  }

  /** Bringing one check up to date changes nothing of another. */
  lemma RefreshSparesOthers(w: World, check: Check, call: Call, began: int, other: Check)
    requires other != check && (other == Shahkar || other == Person || check == Score)
    ensures var w' := Refreshed(w, check, call, began).0;
            && w'.profile == w.profile && w'.clock == w.clock
            && (PassedNow(w, other, began) <==> PassedNow(w', other, began)) && Shown(w', other) == Shown(w, other)
  {
  }

  lemma FirstTwoKeepInv(w: World, v: Visit)
    requires Inv(w) && Timely(w, v)
    ensures var (w', threw) := ShahkarAndPerson(w, v);
            && Inv(w'.(clock := v.person.spent)) && w'.profile == w.profile
            && (!threw && Shown(w', Shahkar) == Passed ==> PassedNow(w', Shahkar, v.began))
  {
    var (w1, threw) := Refreshed(w, Shahkar, v.shahkar, v.began);
    RefreshKeepsInv(w, Shahkar, v.shahkar, v.began);
    LaterKeepsInv(w1.(clock := v.shahkar.spent), v.person.spent);
    if !threw {
      RefreshKeepsInv(w1.(clock := v.shahkar.spent), Person, v.person, v.began);
      RefreshSparesOthers(w1, Person, v.person, v.began, Shahkar);
      if Shown(w1, Shahkar) == Passed {
        RefreshedIsCurrent(w, Shahkar, v.shahkar, v.began);
      }
    }
  }

  lemma FirstThreeKeepInv(w: World, v: Visit)
    requires Inv(w) && Timely(w, v)
    ensures var (w', threw) := UpToLicense(w, v);
            && Inv(w'.(clock := v.license.spent)) && w'.profile == w.profile
            && (!threw && Shown(w', License) == Passed ==> PassedNow(w', Shahkar, v.began) && PassedNow(w', License, v.began))
  {
    FirstTwoKeepInv(w, v);
    var (w2, threw) := ShahkarAndPerson(w, v);
    LaterKeepsInv(w2.(clock := v.person.spent), v.license.spent);
    if !threw && Shown(w2, Shahkar) == Passed {
      RefreshKeepsInv(w2.(clock := v.person.spent), License, v.license, v.began);
      RefreshSparesOthers(w2, License, v.license, v.began, Shahkar);
      var (w3, threw3) := Refreshed(w2, License, v.license, v.began);
      if !threw3 && Shown(w3, License) == Passed {
        RefreshedIsCurrent(w2, License, v.license, v.began);
      }
    }
  }

  lemma VisitKeepsInv(w: World, v: Visit)
    requires Inv(w) && Timely(w, v)
    ensures Inv(Visited(w, v).0.(clock := v.score.answered))
  {
    FirstThreeKeepInv(w, v);
    var (w3, threw) := UpToLicense(w, v);
    LaterKeepsInv(w3.(clock := v.license.spent), v.score.answered);
    if !threw && Shown(w3, License) == Passed {
      var w4 := Refreshed(w3, Score, v.score, v.began).0;
      RefreshKeepsInv(w3.(clock := v.license.spent), Score, v.score, v.began);
      LaterKeepsInv(w4.(clock := v.score.spent), v.score.answered);
    }
  }

  lemma StepKeepsInv(w: World, e: Event)
    requires Inv(w) && Enabled(w, e)
    ensures Inv(Step(w, e))
  {
    match e
    case Edit(profile) =>
    case Verify(v) => VisitKeepsInv(w, v);
  }

  lemma {:induction false} RunKeepsInv(w: World, events: seq<Event>)
    requires Inv(w) && CanRun(w, events)
    ensures Inv(Run(w, events))
    decreases |events|
  {
    if events != [] {
      StepKeepsInv(w, events[0]);
      RunKeepsInv(Step(w, events[0]), events[1..]);
    }
  }

  lemma FreshIsInv(w: World)
    requires Fresh(w)
    ensures Inv(w)
  {
  }

  //#endregion

  //#region What holds of every run

  /** On no day are more than twelve inquiries answered, and the stored count is that of its day. */
  lemma QuotaHolds(w: World, events: seq<Event>, day: int)
    requires Fresh(w) && CanRun(w, events)
    ensures var w' := Run(w, events);
            && PaidOn(w'.log, day) <= DAILY_PAID_INQUIRIES
            && (w'.record.usage.Some? && day >= w'.record.usage.value.day ==> PaidOn(w'.log, day) == SpentOn(w'.record.usage, day))
  {
    FreshIsInv(w);
    RunKeepsInv(w, events);
  }

  lemma {:induction false} LastToIsLast(log: seq<Inquiry>, check: Check, i: nat)
    requires i < |log| && log[i].check == check && forall k :: i < k < |log| ==> log[k].check != check
    ensures LastTo(log, check) == Some(log[i])
    decreases |log|
  {
    if i < |log| - 1 {
      LastToIsLast(log[..|log| - 1], check, i);
    }
  }

  /** Of two inquiries in a row for the same check and inputs, the first answer was stale when the second was asked. */
  lemma NotRepeatedWhileFresh(w: World, events: seq<Event>, i: nat, j: nat)
    requires Fresh(w) && CanRun(w, events)
    requires var log := Run(w, events).log;
             && i < j < |log| && log[i].check == log[j].check && log[i].answer.key == log[j].answer.key
             && forall k :: i < k < j ==> log[k].check != log[j].check
    ensures var log := Run(w, events).log; !Keeps(log[j].check, log[i].answer, log[j].asked)
  {
    FreshIsInv(w);
    RunKeepsInv(w, events);
    var log := Run(w, events).log;
    LastToIsLast(log[..j], log[j].check, i);
    assert Due(log[j]) && AnswersInv(log[..j], log[j].before);
  }

  lemma {:induction false} LastToIsThere(log: seq<Inquiry>, check: Check) returns (i: nat)
    requires LastTo(log, check).Some?
    ensures i < |log| && log[i] == LastTo(log, check).value && log[i].check == check
    ensures forall k :: i < k < |log| ==> log[k].check != check
    decreases |log|
  {
    if log[|log| - 1].check == check {
      i := |log| - 1;
    } else {
      i := LastToIsThere(log[..|log| - 1], check);
    }
  }

  /** The inquiry of a check before place j that nothing later of it replaced, accepted for the inputs of j's moment. */
  predicate RestsOn(log: seq<Inquiry>, j: nat, check: Check, i: nat)
    requires j < |log|
  {
    && i < j && log[i].check == check && (forall k :: i < k < j ==> log[k].check != check)
    && (check == Shahkar ==> OwnMobile(log[j].profile, map[Shahkar := log[i].answer]))
    && (check == License ==> OwnLicense(log[j].profile, map[License := log[i].answer]))
    && Keeps(check, log[i].answer, log[j].began)
  }

  lemma PassedRestsOn(log: seq<Inquiry>, j: nat, check: Check) returns (i: nat)
    requires LogInv(log) && j < |log| && PassedBy(log[j], check)
    ensures RestsOn(log, j, check, i)
  {
    assert AnswersInv(log[..j], log[j].before);
    i := LastToIsThere(log[..j], check);
    FieldsTell(log[j].profile, log[j].before);
    assert log[i].answer == log[j].before[check];
    forall k | i < k < j ensures log[k].check != check {
      assert log[..j][k] == log[k];
    }
  }

  /**
   * Licence is asked only on top of an accepted shahkar answer for the current inputs, no older than its age allows when
   * the visit began, and score only on top of such a licence answer as well.
   */
  lemma AskedInOrder(w: World, events: seq<Event>, j: nat)
    requires Fresh(w) && CanRun(w, events) && j < |Run(w, events).log|
    ensures var log := Run(w, events).log;
            && (log[j].check in {License, Score} ==> exists i :: RestsOn(log, j, Shahkar, i))
            && (log[j].check == Score ==> exists i :: RestsOn(log, j, License, i))
  {
    FreshIsInv(w);
    RunKeepsInv(w, events);
    var log := Run(w, events).log;
    assert Gated(log[j]);
    if log[j].check in {License, Score} {
      var i := PassedRestsOn(log, j, Shahkar);
    }
    if log[j].check == Score {
      var i := PassedRestsOn(log, j, License);
    }
  }

  //#endregion

  //#region Calls made

  /** A paid call, answered or failed, on its day. */
  datatype Made = Made(check: Check, day: int, failed: bool)

  /** The call bringing a check up to date makes: one if the check is due and the day's count has room. */
  function CallMade(w: World, check: Check, call: Call): seq<Made> {
    if Asks(w.profile, w.record.answers, check, call.asked) && SpentOn(w.record.usage, DayOf(call.spent)) < DAILY_PAID_INQUIRIES
    then [Made(check, DayOf(call.spent), call.reply.None?)]
    else []
  }

  function FirstTwoCalls(w: World, v: Visit): seq<Made> {
    var (w1, threw) := Refreshed(w, Shahkar, v.shahkar, v.began);
    CallMade(w, Shahkar, v.shahkar) + if threw then [] else CallMade(w1, Person, v.person)
  }

  function FirstThreeCalls(w: World, v: Visit): seq<Made> {
    var (w2, threw) := ShahkarAndPerson(w, v);
    FirstTwoCalls(w, v) + if threw || Shown(w2, Shahkar) != Passed then [] else CallMade(w2, License, v.license)
  }

  function VisitCalls(w: World, v: Visit): seq<Made> {
    var (w3, threw) := UpToLicense(w, v);
    FirstThreeCalls(w, v) + if threw || Shown(w3, License) != Passed then [] else CallMade(w3, Score, v.score)
  }

  function RunCalls(w: World, events: seq<Event>): seq<Made>
    decreases |events|
  {
    if events == [] then []
    else (if events[0].Verify? then VisitCalls(w, events[0].visit) else []) + RunCalls(Step(w, events[0]), events[1..])
  }

  function MadeOn(calls: seq<Made>, day: int): nat {
    if calls == [] then 0 else (if calls[0].day == day then 1 else 0) + MadeOn(calls[1..], day)
  }

  function FailedOn(calls: seq<Made>, day: int): nat {
    if calls == [] then 0 else (if calls[0].day == day && calls[0].failed then 1 else 0) + FailedOn(calls[1..], day)
  }

  lemma {:induction false} CallsConcat(a: seq<Made>, b: seq<Made>, day: int)
    ensures MadeOn(a + b, day) == MadeOn(a, day) + MadeOn(b, day)
    ensures FailedOn(a + b, day) == FailedOn(a, day) + FailedOn(b, day)
  {
    if a == [] {
      assert a + b == b;
    } else {
      CallsConcat(a[1..], b, day);
      assert (a + b)[1..] == a[1..] + b;
    }
  }

  /** Every call of these was answered, and so is in the log, or failed. */
  predicate Accounted(w: World, w': World, calls: seq<Made>, day: int) {
    MadeOn(calls, day) == PaidOn(w'.log, day) - PaidOn(w.log, day) + FailedOn(calls, day)
  }

  lemma AccountedConcat(w: World, mid: World, w': World, a: seq<Made>, b: seq<Made>, day: int)
    requires Accounted(w, mid, a, day) && Accounted(mid, w', b, day)
    ensures Accounted(w, w', a + b, day)
  {
    CallsConcat(a, b, day);
  }

  lemma RefreshAccounted(w: World, check: Check, call: Call, began: int, day: int)
    ensures Accounted(w, Refreshed(w, check, call, began).0, CallMade(w, check, call), day)
  {
    var w' := Refreshed(w, check, call, began).0;
    var calls := CallMade(w, check, call);
    assert calls != [] ==> calls[1..] == [];
    if w'.log != w.log { assert w'.log[..|w'.log| - 1] == w.log; }
  }

  lemma NothingAccounted(w: World, day: int)
    ensures Accounted(w, w, [], day)
  {
  }

  lemma FirstTwoAccounted(w: World, v: Visit, day: int)
    ensures Accounted(w, ShahkarAndPerson(w, v).0, FirstTwoCalls(w, v), day)
  {
    var (w1, threw) := Refreshed(w, Shahkar, v.shahkar, v.began);
    var w2 := ShahkarAndPerson(w, v).0;
    RefreshAccounted(w, Shahkar, v.shahkar, v.began, day);
    if threw { NothingAccounted(w1, day); } else { RefreshAccounted(w1, Person, v.person, v.began, day); }
    AccountedConcat(w, w1, w2, CallMade(w, Shahkar, v.shahkar), if threw then [] else CallMade(w1, Person, v.person), day);
  }

  lemma FirstThreeAccounted(w: World, v: Visit, day: int)
    ensures Accounted(w, UpToLicense(w, v).0, FirstThreeCalls(w, v), day)
  {
    var (w2, threw) := ShahkarAndPerson(w, v);
    var ends := threw || Shown(w2, Shahkar) != Passed;
    FirstTwoAccounted(w, v, day);
    if ends { NothingAccounted(w2, day); } else { RefreshAccounted(w2, License, v.license, v.began, day); }
    AccountedConcat(w, w2, UpToLicense(w, v).0, FirstTwoCalls(w, v), if ends then [] else CallMade(w2, License, v.license), day);
  }

  lemma VisitAccounted(w: World, v: Visit, day: int)
    ensures Accounted(w, Visited(w, v).0, VisitCalls(w, v), day)
  {
    var (w3, threw) := UpToLicense(w, v);
    var ends := threw || Shown(w3, License) != Passed;
    FirstThreeAccounted(w, v, day);
    if ends { NothingAccounted(w3, day); } else { RefreshAccounted(w3, Score, v.score, v.began, day); }
    AccountedConcat(w, w3, Visited(w, v).0, FirstThreeCalls(w, v), if ends then [] else CallMade(w3, Score, v.score), day);
  }

  lemma {:induction false} RunAccounted(w: World, events: seq<Event>, day: int)
    ensures Accounted(w, Run(w, events), RunCalls(w, events), day)
    decreases |events|
  {
    if events != [] {
      var w' := Step(w, events[0]);
      if events[0].Verify? { VisitAccounted(w, events[0].visit, day); }
      RunAccounted(w', events[1..], day);
      var first := if events[0].Verify? then VisitCalls(w, events[0].visit) else [];
      AccountedConcat(w, w', Run(w, events), first, RunCalls(w', events[1..]), day);
    }
  }

  /** On every day the calls made are those answered and those failed: at most twelve, and the failed ones besides. */
  lemma CallsAreAnsweredOrFailed(w: World, events: seq<Event>, day: int)
    requires Fresh(w) && CanRun(w, events)
    ensures var calls := RunCalls(w, events);
            && MadeOn(calls, day) == PaidOn(Run(w, events).log, day) + FailedOn(calls, day)
            && MadeOn(calls, day) <= DAILY_PAID_INQUIRIES + FailedOn(calls, day)
  {
    RunAccounted(w, events, day);
    QuotaHolds(w, events, day);
  }

  /** A visit at one moment whose calls all fail. */
  function FailingVisit(t: int): Visit {
    var call := Call(t, t, None, t);
    Visit(t, call, call, call, call)
  }

  /** Whether a visit at the moment comes to a check that is due: the answers there are let it come so far. */
  predicate ComesToDue(w: World, t: int) {
    || Asks(w.profile, w.record.answers, Shahkar, t)
    || Asks(w.profile, w.record.answers, Person, t)
    || (Shown(w, Shahkar) == Passed && Asks(w.profile, w.record.answers, License, t))
    || (Shown(w, License) == Passed && Asks(w.profile, w.record.answers, Score, t))
  }

  lemma FailingVisitCalls(w: World, v: Visit)
    requires v == FailingVisit(w.clock)
    ensures Timely(w, v) && Step(w, Verify(v)) == w
    ensures MadeOn(VisitCalls(w, v), DayOf(w.clock))
         == if ComesToDue(w, w.clock) && SpentOn(w.record.usage, DayOf(w.clock)) < DAILY_PAID_INQUIRIES then 1 else 0
  {
    var t := w.clock;
    forall check: Check ensures CallMade(w, check, v.shahkar) == [] || CallMade(w, check, v.shahkar)[1..] == [] {}
    assert Visited(w, v).0 == w;
    assert Shown(w, License) == Passed ==> Shown(w, Shahkar) == Passed;
  }

  /**
   * The quota counts answers: any number of visits whose calls fail can be made at one moment. Each makes a call, exactly
   * if it comes to a check that is due and the day has room, and leaves the record and its count as they were.
   */
  lemma {:induction false} FailedCallsAreNotCounted(w: World, n: nat, events: seq<Event>)
    requires |events| == n && forall i :: 0 <= i < n ==> events[i] == Verify(FailingVisit(w.clock))
    ensures CanRun(w, events) && Run(w, events) == w
    ensures MadeOn(RunCalls(w, events), DayOf(w.clock))
         == if ComesToDue(w, w.clock) && SpentOn(w.record.usage, DayOf(w.clock)) < DAILY_PAID_INQUIRIES then n else 0
    decreases n
  {
    if n > 0 {
      FailingVisitCalls(w, events[0].visit);
      FailedCallsAreNotCounted(w, n - 1, events[1..]);
      CallsConcat(VisitCalls(w, events[0].visit), RunCalls(w, events[1..]), DayOf(w.clock));
    }
  }

  //#endregion

  //#region The service

  /** One driver's row. Verify works on a copy of the record, and stores it after every answer. */
  class DriverRow {
    var profile: Profile
    var stored: Record
    ghost var log: seq<Inquiry>
    ghost var clock: int
    ghost var calls: seq<Made>

    ghost function State(): World
      reads this
    {
      World(profile, stored, log, clock)
    }

    constructor (p: Profile)
      ensures Fresh(State()) && profile == p && calls == []
    {
      profile, stored, log, clock, calls := p, Record(map[], None), [], 0, [];
    }

    static method SpendQuota(record: Record, now: int) returns (spent: Record, full: bool)
      ensures full <==> SpentOn(record.usage, DayOf(now)) >= DAILY_PAID_INQUIRIES
      ensures !full ==> spent.answers == record.answers && spent.usage.Some? && spent.usage.value.day == DayOf(now)
                        && SpentOn(spent.usage, DayOf(now)) == SpentOn(record.usage, DayOf(now)) + 1 <= DAILY_PAID_INQUIRIES
    {
      var day := DayOf(now);
      var count := if record.usage.Some? && record.usage.value.day == day then record.usage.value.count else 0;
      if count >= DAILY_PAID_INQUIRIES {
        return record, true;
      }
      return record.(usage := Some(Usage(day, count + 1))), false;
    }

    method Refresh(record: Record, check: Check, call: Call, ghost began: int) returns (record': Record, threw: bool)
      requires record == stored
      modifies this`stored, this`log, this`calls
      ensures (State(), threw) == Refreshed(old(State()), check, call, began)
      ensures calls == old(calls) + CallMade(old(State()), check, call)
      ensures !threw ==> record' == stored
    {
      record' := record;
      var input := Inputs(profile, check);
      if input.None? {
        return record', false;
      }
      if check in record.answers && record.answers[check].key == input.value
         && Keeps(check, record.answers[check], call.asked) {
        return record', false;
      }
      var full;
      record', full := SpendQuota(record, call.spent);
      if full {
        return record', true;
      }
      calls := calls + [Made(check, DayOf(call.spent), call.reply.None?)];
      if call.reply.None? {
        return record', true;
      }
      var answer := Answer(input.value, call.answered, call.reply.value.ok, call.reply.value.data);
      record' := record'.(answers := record'.answers[check := answer]);
      log := log + [Inquiry(check, began, call.asked, call.spent, profile, stored.answers, answer)];
      stored := record';
      threw := false;
    }

    method Verify(v: Visit) returns (threw: bool)
      requires Timely(State(), v)
      modifies this`stored, this`log, this`calls
      ensures (State(), threw) == Visited(old(State()), v)
      ensures calls == old(calls) + VisitCalls(old(State()), v)
    {
      var record := stored;
      record, threw := Refresh(record, Shahkar, v.shahkar, v.began);
      if threw { return; }
      record, threw := Refresh(record, Person, v.person, v.began);
      if threw { return; }
      assert (State(), false) == ShahkarAndPerson(old(State()), v) && calls == old(calls) + FirstTwoCalls(old(State()), v);
      if StatusOf(profile, record.answers, Shahkar) == Passed {
        record, threw := Refresh(record, License, v.license, v.began);
        if threw { return; }
      }
      assert (State(), false) == UpToLicense(old(State()), v) && calls == old(calls) + FirstThreeCalls(old(State()), v);
      if StatusOf(profile, record.answers, License) == Passed {
        record, threw := Refresh(record, Score, v.score, v.began);
      }
    }

    /** A visit of the running service, and time going on. */
    method Take(e: Event)
      requires Enabled(State(), e)
      modifies this
      ensures State() == Step(old(State()), e)
      ensures calls == old(calls) + RunCalls(old(State()), [e])
    {
      assert [e][1..] == [];
      match e
      case Edit(p) =>
        profile := p;
      case Verify(v) =>
        var threw := Verify(v);
        clock := v.score.answered;
    }
  }

  //#endregion
}
