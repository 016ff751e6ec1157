/** `AllowIngest`, its clock readings and pipelines as single steps, with any number of ingests under way. */
module IngestLimit {
  import opened Prelude
  import opened RateLimit

  datatype Limits = Limits(perHour: int, perDay: int)

  /** Where an ingest stands; the hour's key is built when it starts. */
  datatype Stage = AtHour | AtClock | AtDay | Refused | Answered(accepted: bool)

  /** One `AllowIngest` with the clock readings of its two keys, the second of which is taken after the hour agreed. */
  datatype Ingest = Ingest(org: string, hourAt: nat, dayAt: nat, stage: Stage)

  /** `calls` holds the `Allow` calls of all ingests in the order in which they ran. */
  datatype State = State(now: nat, calls: seq<Call>, ingests: seq<Ingest>)

  datatype Action =
    | Tick(dt: nat)
    | Start(org: string)
    | AskHour(id: nat, fault: RedisFault)
    | ReadClock(id: nat)
    | AskDay(id: nat, fault: RedisFault)

  const Init := State(0, [], [])

  function HourCall(l: Limits, i: Ingest, now: nat, fault: RedisFault): Call {
    Call(i.hourAt, now, "hour", i.org, HOUR, l.perHour, fault)
  }

  function DayCall(l: Limits, i: Ingest, now: nat, fault: RedisFault): Call {
    Call(i.dayAt, now, "day", i.org, DAY, l.perDay, fault)
  }

  predicate At(s: State, id: nat, stage: Stage) {
    id < |s.ingests| && s.ingests[id].stage == stage
  }

  function Asked(s: State, id: nat, c: Call, stage: Stage): State
    requires id < |s.ingests|
  {
    s.(calls := s.calls + [c], ingests := s.ingests[id := s.ingests[id].(stage := stage)])
  }

  /** A step that does not apply leaves the state alone, so every sequence of steps is a run. */
  function Next(l: Limits, s: State, a: Action): State {
    match a
    case Tick(dt) => s.(now := s.now + dt)
    case Start(org) => s.(ingests := s.ingests + [Ingest(org, s.now, 0, AtHour)])
    case AskHour(id, fault) =>
      if !At(s, id, AtHour) then s
      else
        var c := HourCall(l, s.ingests[id], s.now, fault);
        Asked(s, id, c, if Admits(s.calls + [c]) then AtClock else Refused)
    case ReadClock(id) =>
      if !At(s, id, AtClock) then s
      else s.(ingests := s.ingests[id := s.ingests[id].(dayAt := s.now, stage := AtDay)])
    case AskDay(id, fault) =>
      if !At(s, id, AtDay) then s
      else
        var c := DayCall(l, s.ingests[id], s.now, fault);
        Asked(s, id, c, Answered(Admits(s.calls + [c])))
  }

  function Run(l: Limits, run: seq<Action>): State {
    if run == [] then Init else Next(l, Run(l, run[..|run| - 1]), run[|run| - 1])
  }

  function HourKey(org: string, hour: nat): Key {
    Key("hour", org, HOUR, hour)
  }

  function DayKey(org: string, day: nat): Key {
    Key("day", org, DAY, day)
  }

  predicate Passed(i: Ingest) {
    i.stage.AtClock? || i.stage.AtDay? || i.stage.Answered?
  }

  predicate ReadDay(i: Ingest) {
    i.stage.AtDay? || i.stage.Answered?
  }

  function Count(xs: seq<Ingest>, p: Ingest -> bool): nat {
    if xs == [] then 0 else Count(xs[..|xs| - 1], p) + if p(xs[|xs| - 1]) then 1 else 0
  }

  /** The ingests whose hour has been asked, and those it let through. */
  function HourAsked(s: State, org: string, hour: nat): nat {
    Count(s.ingests, AskedHour(org, hour))
  }

  function AskedHour(org: string, hour: nat): Ingest -> bool {
    (i: Ingest) => i.org == org && i.hourAt / HOUR == hour && !i.stage.AtHour?
  }

  /** Those that passed n hours from the given one. */
  function PassedBetween(org: string, hour: nat, n: nat): Ingest -> bool {
    (i: Ingest) => i.org == org && hour <= i.hourAt / HOUR < hour + n && Passed(i)
  }

  /** The ingests charged to a day, those of them accepted, and those of the day's hours still on their way to it. */
  function ChargedOn(s: State, org: string, day: nat): nat {
    Count(s.ingests, Charged(org, day))
  }

  function Charged(org: string, day: nat): Ingest -> bool {
    (i: Ingest) => i.org == org && i.dayAt / DAY == day && i.stage.Answered?
  }

  function AcceptedOn(s: State, org: string, day: nat): nat {
    Count(s.ingests, Accepted(org, day))
  }

  function Accepted(org: string, day: nat): Ingest -> bool {
    (i: Ingest) => i.org == org && i.dayAt / DAY == day && i.stage == Answered(true)
  }

  function PendingOn(s: State, org: string, day: nat): nat {
    Count(s.ingests, Pending(org, day))
  }

  function Pending(org: string, day: nat): Ingest -> bool {
    (i: Ingest) => i.org == org && i.hourAt / DAY == day && (i.stage.AtClock? || i.stage.AtDay?)
  }

  lemma {:induction false} CountUpdated(xs: seq<Ingest>, p: Ingest -> bool, k: nat, x: Ingest)
    requires k < |xs|
    ensures Count(xs[k := x], p) + (if p(xs[k]) then 1 else 0) == Count(xs, p) + if p(x) then 1 else 0
  {
    var n := |xs| - 1;
    if k < n {
      assert xs[k := x][..n] == xs[..n][k := x];
      CountUpdated(xs[..n], p, k, x);
    } else {
      assert xs[k := x][..n] == xs[..n];
    }
  }

  /** Two kinds of ingest that exclude each other add up to any kind that they make up, and to less than a wider one. */
  lemma {:induction false} CountSplits(xs: seq<Ingest>, p: Ingest -> bool, q: Ingest -> bool, r: Ingest -> bool)
    requires forall k :: 0 <= k < |xs| ==> (p(xs[k]) <==> q(xs[k]) || r(xs[k])) && !(q(xs[k]) && r(xs[k]))
    ensures Count(xs, p) == Count(xs, q) + Count(xs, r)
  {
    if xs != [] { CountSplits(xs[..|xs| - 1], p, q, r); }
  }

  lemma {:induction false} CountWithin(xs: seq<Ingest>, p: Ingest -> bool, q: Ingest -> bool)
    requires forall k :: 0 <= k < |xs| && p(xs[k]) ==> q(xs[k])
    ensures Count(xs, p) <= Count(xs, q)
  {
    if xs != [] { CountWithin(xs[..|xs| - 1], p, q); }
  }

  /** The call is one of an ingest under these limits. */
  predicate Ours(l: Limits, c: Call) {
    || (c.scope == "hour" && c.window == HOUR && c.limit == l.perHour)
    || (c.scope == "day" && c.window == DAY && c.limit == l.perDay)
  }

  /** What all runs keep: calls are made under the limits in force, after their clock readings and in order of time. */
  ghost predicate CallsOk(l: Limits, s: State) {
    && InOrder(s.calls) && NotAfter(s.calls, s.now)
    && (forall k :: 0 <= k < |s.calls| ==> s.calls[k].at <= s.calls[k].sent && Ours(l, s.calls[k]))
    && (forall k :: 0 <= k < |s.ingests| ==> s.ingests[k].hourAt <= s.now && s.ingests[k].dayAt <= s.now)
  }

  lemma AskedOk(l: Limits, s: State, id: nat, c: Call, stage: Stage)
    requires CallsOk(l, s) && id < |s.ingests| && c.at <= c.sent == s.now && Ours(l, c)
    ensures CallsOk(l, Asked(s, id, c, stage))
  {
  }

  lemma {:induction false} RunOrdered(l: Limits, run: seq<Action>)
    ensures CallsOk(l, Run(l, run))
  {
    if run != [] {
      var s, a := Run(l, run[..|run| - 1]), run[|run| - 1];
      RunOrdered(l, run[..|run| - 1]);
      if a.AskHour? && At(s, a.id, AtHour) {
        var c := HourCall(l, s.ingests[a.id], s.now, a.fault);
        AskedOk(l, s, a.id, c, Next(l, s, a).ingests[a.id].stage);
      } else if a.AskDay? && At(s, a.id, AtDay) {
        var c := DayCall(l, s.ingests[a.id], s.now, a.fault);
        AskedOk(l, s, a.id, c, Next(l, s, a).ingests[a.id].stage);
      }
    }
  }

  lemma LimitsInForce(l: Limits, run: seq<Action>, org: string, hour: nat, day: nat)
    ensures LimitIs(Run(l, run).calls, HourKey(org, hour), l.perHour)
    ensures LimitIs(Run(l, run).calls, DayKey(org, day), l.perDay)
  {
    RunOrdered(l, run);
    assert "hour" != "day";
  }

  /** The limiter's books and the ingests agree about an hour and about a day. */
  ghost predicate HourBooks(s: State, org: string, hour: nat) {
    && HourAsked(s, org, hour) == Made(s.calls, HourKey(org, hour))
    && Count(s.ingests, PassedBetween(org, hour, 1)) == Admitted(s.calls, HourKey(org, hour))
  }

  ghost predicate DayBooks(s: State, org: string, day: nat) {
    && ChargedOn(s, org, day) == Made(s.calls, DayKey(org, day))
    && AcceptedOn(s, org, day) == Admitted(s.calls, DayKey(org, day))
  }

  /** An ingest moves on without a call that the key's books would show. */
  lemma OtherBooks(s: State, s': State, id: nat, org: string, hour: nat, day: nat)
    requires HourBooks(s, org, hour) && DayBooks(s, org, day) && id < |s.ingests|
    requires |s'.ingests| == |s.ingests| && s'.calls == s.calls && s'.ingests == s.ingests[id := s'.ingests[id]]
    requires s.ingests[id].stage.AtClock? && s'.ingests[id].stage.AtDay?
    requires s'.ingests[id].org == s.ingests[id].org && s'.ingests[id].hourAt == s.ingests[id].hourAt
    ensures HourBooks(s', org, hour) && DayBooks(s', org, day)
  {
    CountUpdated(s.ingests, AskedHour(org, hour), id, s'.ingests[id]);
    CountUpdated(s.ingests, PassedBetween(org, hour, 1), id, s'.ingests[id]);
    CountUpdated(s.ingests, Charged(org, day), id, s'.ingests[id]);
    CountUpdated(s.ingests, Accepted(org, day), id, s'.ingests[id]);
  }

  lemma AskHourBooks(l: Limits, s: State, id: nat, fault: RedisFault, org: string, hour: nat, day: nat)
    requires HourBooks(s, org, hour) && DayBooks(s, org, day) && At(s, id, AtHour)
    ensures HourBooks(Next(l, s, AskHour(id, fault)), org, hour) && DayBooks(Next(l, s, AskHour(id, fault)), org, day)
  {
    var s' := Next(l, s, AskHour(id, fault));
    Snoc(s.calls, HourCall(l, s.ingests[id], s.now, fault));
    CountUpdated(s.ingests, AskedHour(org, hour), id, s'.ingests[id]);
    CountUpdated(s.ingests, PassedBetween(org, hour, 1), id, s'.ingests[id]);
    CountUpdated(s.ingests, Charged(org, day), id, s'.ingests[id]);
    CountUpdated(s.ingests, Accepted(org, day), id, s'.ingests[id]);
  }

  lemma AskDayBooks(l: Limits, s: State, id: nat, fault: RedisFault, org: string, hour: nat, day: nat)
    requires HourBooks(s, org, hour) && DayBooks(s, org, day) && At(s, id, AtDay)
    ensures HourBooks(Next(l, s, AskDay(id, fault)), org, hour) && DayBooks(Next(l, s, AskDay(id, fault)), org, day)
  {
    var s' := Next(l, s, AskDay(id, fault));
    Snoc(s.calls, DayCall(l, s.ingests[id], s.now, fault));
    CountUpdated(s.ingests, AskedHour(org, hour), id, s'.ingests[id]);
    CountUpdated(s.ingests, PassedBetween(org, hour, 1), id, s'.ingests[id]);
    CountUpdated(s.ingests, Charged(org, day), id, s'.ingests[id]);
    CountUpdated(s.ingests, Accepted(org, day), id, s'.ingests[id]);
  }

  lemma StartBooks(s: State, i: Ingest, org: string, hour: nat, day: nat)
    requires HourBooks(s, org, hour) && DayBooks(s, org, day) && i.stage.AtHour?
    ensures var s' := s.(ingests := s.ingests + [i]); HourBooks(s', org, hour) && DayBooks(s', org, day)
  {
    assert (s.ingests + [i])[..|s.ingests|] == s.ingests;
  }

  /** In every run, however ingests overlap and whatever fails, the books are right. */
  lemma {:induction false} RunBooks(l: Limits, run: seq<Action>, org: string, hour: nat, day: nat)
    ensures HourBooks(Run(l, run), org, hour) && DayBooks(Run(l, run), org, day)
  {
    if run != [] {
      var s, a := Run(l, run[..|run| - 1]), run[|run| - 1];
      RunBooks(l, run[..|run| - 1], org, hour, day);
      match a {
        case Tick(_) =>
        case Start(o) => StartBooks(s, Ingest(o, s.now, 0, AtHour), org, hour, day);
        case AskHour(id, fault) => if At(s, id, AtHour) { AskHourBooks(l, s, id, fault, org, hour, day); }
        case ReadClock(id) => if At(s, id, AtClock) { OtherBooks(s, Next(l, s, a), id, org, hour, day); }
        case AskDay(id, fault) => if At(s, id, AtDay) { AskDayBooks(l, s, id, fault, org, hour, day); }
      }
    }
  }

  /** What n hours let through, what their limit would let through, and how many of their calls failed. */
  function SumAdmitted(calls: seq<Call>, org: string, hour: nat, n: nat): nat {
    if n == 0 then 0 else SumAdmitted(calls, org, hour, n - 1) + Admitted(calls, HourKey(org, hour + n - 1))
  }

  function SumOfHours(l: Limits, s: State, org: string, hour: nat, n: nat): nat {
    if n == 0 then 0
    else SumOfHours(l, s, org, hour, n - 1) + Cap(HourAsked(s, org, hour + n - 1), l.perHour)
  }

  function SumFaulted(calls: seq<Call>, org: string, hour: nat, n: nat): nat {
    if n == 0 then 0 else SumFaulted(calls, org, hour, n - 1) + Faulted(calls, HourKey(org, hour + n - 1))
  }

  lemma {:induction false} PassedAdds(l: Limits, run: seq<Action>, org: string, hour: nat, n: nat)
    ensures var s := Run(l, run); Count(s.ingests, PassedBetween(org, hour, n)) == SumAdmitted(s.calls, org, hour, n)
  {
    var s := Run(l, run);
    if n == 0 {
      NonePassed(s.ingests, org, hour);
    } else {
      PassedAdds(l, run, org, hour, n - 1);
      RunBooks(l, run, org, hour + n - 1, 0);
      CountSplits(s.ingests, PassedBetween(org, hour, n),
                  PassedBetween(org, hour, n - 1), PassedBetween(org, hour + n - 1, 1));
    }
  }

  lemma {:induction false} NonePassed(xs: seq<Ingest>, org: string, hour: nat)
    ensures Count(xs, PassedBetween(org, hour, 0)) == 0
  {
    if xs != [] { NonePassed(xs[..|xs| - 1], org, hour); }
  }

  /** No ingest reads its two clocks on different days. */
  ghost predicate SameDay(s: State) {
    forall k :: 0 <= k < |s.ingests| && ReadDay(s.ingests[k]) ==>
      s.ingests[k].hourAt / DAY == s.ingests[k].dayAt / DAY
  }

  lemma DayOfHour(at: nat)
    ensures at / HOUR / 24 == at / DAY
  {
  }

  /** Whatever a day's hours let through is charged to the day or still on its way there. */
  lemma HoursFeedDay(l: Limits, run: seq<Action>, org: string, day: nat)
    requires SameDay(Run(l, run))
    ensures var s := Run(l, run);
            ChargedOn(s, org, day) + PendingOn(s, org, day) == SumAdmitted(s.calls, org, 24 * day, 24)
  {
    var s := Run(l, run);
    PassedAdds(l, run, org, 24 * day, 24);
    forall k | 0 <= k < |s.ingests|
      ensures 24 * day <= s.ingests[k].hourAt / HOUR < 24 * day + 24 <==> s.ingests[k].hourAt / DAY == day
    {
      DayOfHour(s.ingests[k].hourAt);
    }
    CountSplits(s.ingests, PassedBetween(org, 24 * day, 24), Charged(org, day), Pending(org, day));
  }

  /** What n hours let through lies between their capped asks and that with the failed calls added. */
  lemma {:induction false} SumsBetween(l: Limits, s: State, org: string, hour: nat, n: nat)
    requires forall h: nat :: Cap(HourAsked(s, org, h), l.perHour) <= Admitted(s.calls, HourKey(org, h))
    requires forall h: nat :: Admitted(s.calls, HourKey(org, h)) <=
                              Cap(HourAsked(s, org, h), l.perHour) + Faulted(s.calls, HourKey(org, h))
    ensures SumOfHours(l, s, org, hour, n) <= SumAdmitted(s.calls, org, hour, n) <=
            SumOfHours(l, s, org, hour, n) + SumFaulted(s.calls, org, hour, n)
  {
    if n > 0 { SumsBetween(l, s, org, hour, n - 1); }
  }

  lemma {:induction false} SumsZero(calls: seq<Call>, org: string, hour: nat, n: nat)
    requires forall h: nat :: Faulted(calls, HourKey(org, h)) == 0
    ensures SumFaulted(calls, org, hour, n) == 0
  {
    if n > 0 { SumsZero(calls, org, hour, n - 1); }
  }

  lemma {:induction false} HoursAtMost(l: Limits, s: State, org: string, hour: nat, n: nat)
    requires l.perHour > 0
    ensures SumOfHours(l, s, org, hour, n) <= n * l.perHour
  {
    if n > 0 {
      HoursAtMost(l, s, org, hour, n - 1);
      MulNext(n - 1, l.perHour);
    }
  }

  /** Every hour lets through what its limit allows, and at most those that failed besides. */
  lemma HoursAdmit(l: Limits, run: seq<Action>, org: string, hour: nat, n: nat)
    requires Prompt(Run(l, run).calls)
    ensures var s := Run(l, run);
            && SumOfHours(l, s, org, hour, n) <= SumAdmitted(s.calls, org, hour, n)
            && SumAdmitted(s.calls, org, hour, n) <= SumOfHours(l, s, org, hour, n) + SumFaulted(s.calls, org, hour, n)
            && (FaultFree(s.calls) ==> SumFaulted(s.calls, org, hour, n) == 0)
  {
    var s := Run(l, run);
    forall h: nat
      ensures var m, a := Cap(HourAsked(s, org, h), l.perHour), Admitted(s.calls, HourKey(org, h));
              m <= a <= m + Faulted(s.calls, HourKey(org, h))
      ensures FaultFree(s.calls) ==> Faulted(s.calls, HourKey(org, h)) == 0
    {
      LimitsInForce(l, run, org, h, 0);
      RunBooks(l, run, org, h, 0);
      BucketWithin(s.calls, HourKey(org, h), l.perHour);
    }
    SumsBetween(l, s, org, hour, n);
    if FaultFree(s.calls) { SumsZero(s.calls, org, hour, n); }
  }

  /** A day accepts what is charged to it capped by its limit, and at most those that failed besides. */
  lemma DayAdmits(l: Limits, run: seq<Action>, org: string, day: nat)
    requires Prompt(Run(l, run).calls)
    ensures var s := Run(l, run);
            var capped := Cap(ChargedOn(s, org, day), l.perDay);
            && capped <= AcceptedOn(s, org, day) <= capped + Faulted(s.calls, DayKey(org, day))
            && (FaultFree(s.calls) ==> Faulted(s.calls, DayKey(org, day)) == 0)
  {
    LimitsInForce(l, run, org, 0, day);
    RunBooks(l, run, org, 0, day);
    BucketWithin(Run(l, run).calls, DayKey(org, day), l.perDay);
  }

  /**
   * The limits compose, however ingests overlap, unless one reads its clocks on different days: what is charged to a
   * day or on its way there is the sum over its hours of the capped asks, and the day accepts what is charged capped by
   * its own limit; each with at most those added whose calls failed, and exactly where none did.
   */
  lemma LimitsCompose(l: Limits, run: seq<Action>, org: string, day: nat)
    requires var s := Run(l, run); Prompt(s.calls) && SameDay(s)
    ensures var s := Run(l, run);
            var sum, fed := SumOfHours(l, s, org, 24 * day, 24), ChargedOn(s, org, day) + PendingOn(s, org, day);
            sum <= fed <= sum + SumFaulted(s.calls, org, 24 * day, 24)
    ensures var s := Run(l, run);
            var capped := Cap(ChargedOn(s, org, day), l.perDay);
            capped <= AcceptedOn(s, org, day) <= capped + Faulted(s.calls, DayKey(org, day))
    ensures var s := Run(l, run);
            && Exact(After(s.calls), DayKey(org, day), Counted(s.calls, DayKey(org, day)))
            && (FaultFree(s.calls) ==>
                  && SumFaulted(s.calls, org, 24 * day, 24) == 0 && Faulted(s.calls, DayKey(org, day)) == 0
                  && Counted(s.calls, DayKey(org, day)) == if l.perDay > 0 then ChargedOn(s, org, day) else 0)
    ensures l.perHour > 0 ==> SumOfHours(l, Run(l, run), org, 24 * day, 24) <= 24 * l.perHour
  {
    var s := Run(l, run);
    HoursFeedDay(l, run, org, day);
    HoursAdmit(l, run, org, 24 * day, 24);
    DayAdmits(l, run, org, day);
    LimitsInForce(l, run, org, 0, day);
    RunBooks(l, run, org, 0, day);
    CounterExact(s.calls, DayKey(org, day));
    if FaultFree(s.calls) { FaultFreeCounts(s.calls, DayKey(org, day), l.perDay); }
    if l.perHour > 0 { HoursAtMost(l, s, org, 24 * day, 24); }
  }

  /** So where nothing failed a day accepts at most its own limit and its 24 hours' worth. */
  lemma DayWithinLimits(l: Limits, run: seq<Action>, org: string, day: nat)
    requires var s := Run(l, run); Prompt(s.calls) && FaultFree(s.calls) && SameDay(s)
    requires l.perHour > 0 && l.perDay > 0
    ensures AcceptedOn(Run(l, run), org, day) <= Min(l.perDay, 24 * l.perHour)
  {
    LimitsCompose(l, run, org, day);
  }

  /** The second clock reading of an ingest comes at most `lag` after the first. */
  ghost predicate Lagging(s: State, lag: nat) {
    forall k :: 0 <= k < |s.ingests| && ReadDay(s.ingests[k]) ==>
      s.ingests[k].hourAt <= s.ingests[k].dayAt <= s.ingests[k].hourAt + lag
  }

  /** How many hours before midnight such an ingest can be charged to and still be counted for the next day. */
  function HoursBefore(lag: nat): nat {
    (lag + HOUR - 1) / HOUR
  }

  /** The first hour whose ingests can be counted for the day, and how many hours there are from it. */
  function FirstHour(day: nat, lag: nat): nat {
    Max(24 * day - HoursBefore(lag), 0)
  }

  function HoursCharged(day: nat, lag: nat): nat {
    24 * day + 24 - FirstHour(day, lag)
  }

  lemma ChargedHour(hourAt: nat, dayAt: nat, day: nat, lag: nat)
    requires hourAt <= dayAt <= hourAt + lag && dayAt / DAY == day
    ensures FirstHour(day, lag) <= hourAt / HOUR < 24 * day + 24
  {
    var first, m := FirstHour(day, lag), HoursBefore(lag);
    assert lag <= m * HOUR;
    assert day * DAY <= dayAt < (day + 1) * DAY;
    if first > 0 { assert first * HOUR == day * DAY - m * HOUR; }
    BucketBetween(hourAt, HOUR, first, 24 * day + 24 - first);
  }

  lemma ChargedWithin(l: Limits, run: seq<Action>, org: string, day: nat, lag: nat)
    requires Lagging(Run(l, run), lag)
    ensures var s := Run(l, run);
            ChargedOn(s, org, day) <= SumAdmitted(s.calls, org, FirstHour(day, lag), HoursCharged(day, lag))
  {
    var s := Run(l, run);
    var within := PassedBetween(org, FirstHour(day, lag), HoursCharged(day, lag));
    PassedAdds(l, run, org, FirstHour(day, lag), HoursCharged(day, lag));
    forall k | 0 <= k < |s.ingests| && Charged(org, day)(s.ingests[k])
      ensures within(s.ingests[k])
    {
      ChargedHour(s.ingests[k].hourAt, s.ingests[k].dayAt, day, lag);
    }
    CountWithin(s.ingests, Charged(org, day), within);
  }

  /** What a day can accept when the clock readings of an ingest are at most `lag` apart and nothing fails. */
  function Ceiling(l: Limits, lag: nat): nat
    requires l.perHour > 0
  {
    Cap((24 + HoursBefore(lag)) * l.perHour, l.perDay)
  }

  lemma MulMonotone(a: nat, b: nat, w: nat)
    requires a <= b
    ensures a * w <= b * w
  {
  }

  lemma ChargedCeiling(l: Limits, run: seq<Action>, org: string, day: nat, lag: nat)
    requires l.perHour > 0 && Prompt(Run(l, run).calls) && Lagging(Run(l, run), lag)
    ensures var s := Run(l, run);
            ChargedOn(s, org, day) <= (24 + HoursBefore(lag)) * l.perHour
              + SumFaulted(s.calls, org, FirstHour(day, lag), HoursCharged(day, lag))
  {
    ChargedWithin(l, run, org, day, lag);
    HoursAdmit(l, run, org, FirstHour(day, lag), HoursCharged(day, lag));
    HoursAtMost(l, Run(l, run), org, FirstHour(day, lag), HoursCharged(day, lag));
    HoursChargedBound(l, day, lag);
  }

  lemma HoursChargedBound(l: Limits, day: nat, lag: nat)
    requires l.perHour > 0
    ensures HoursCharged(day, lag) * l.perHour <= (24 + HoursBefore(lag)) * l.perHour
  {
    MulMonotone(HoursCharged(day, lag), 24 + HoursBefore(lag), l.perHour);
  }

  /** A day to which so many are charged accepts no more than its limit and those that failed. */
  lemma DayAccepts(l: Limits, run: seq<Action>, org: string, day: nat, n: nat, extra: nat)
    requires Prompt(Run(l, run).calls) && ChargedOn(Run(l, run), org, day) <= n + extra
    ensures var s := Run(l, run);
            AcceptedOn(s, org, day) <= Cap(n, l.perDay) + extra + Faulted(s.calls, DayKey(org, day))
  {
    DayAdmits(l, run, org, day);
  }

  /**
   * In every run, with ingests that straddle midnight, a day accepts no more than the hours they can come from allow;
   * to that come the ingests whose calls failed at Redis, in one of those hours or on the day.
   */
  lemma DayCeiling(l: Limits, run: seq<Action>, org: string, day: nat, lag: nat)
    requires l.perHour > 0 && Prompt(Run(l, run).calls) && Lagging(Run(l, run), lag)
    ensures var s := Run(l, run);
            AcceptedOn(s, org, day) <= Ceiling(l, lag)
              + SumFaulted(s.calls, org, FirstHour(day, lag), HoursCharged(day, lag))
              + Faulted(s.calls, DayKey(org, day))
  {
    ChargedCeiling(l, run, org, day, lag);
    DayAccepts(l, run, org, day, (24 + HoursBefore(lag)) * l.perHour,
               SumFaulted(Run(l, run).calls, org, FirstHour(day, lag), HoursCharged(day, lag)));
  }

  /** Readings at most an hour apart make it 25 hours' worth, readings on one tick 24. */
  lemma HoursInLag(lag: nat)
    ensures HoursBefore(lag) == if lag == 0 then 0 else (lag - 1) / HOUR + 1
    ensures 0 < lag <= HOUR ==> HoursBefore(lag) == 1
  {
  }

  /** The hour lets an ingest through exactly if it is unlimited, the call fails, or the hour has room. */
  lemma HourCheck(l: Limits, run: seq<Action>, id: nat, fault: RedisFault)
    requires var s := Run(l, run);
             At(s, id, AtHour) && Prompt(s.calls) && InTime(HourCall(l, s.ingests[id], s.now, fault))
    ensures var s := Run(l, run);
            var i := s.ingests[id];
            At(Next(l, s, AskHour(id, fault)), id, AtClock) <==>
            l.perHour <= 0 || !fault.NoFault? || Counted(s.calls, HourKey(i.org, i.hourAt / HOUR)) < l.perHour
  {
    var s := Run(l, run);
    LastAdmitted(s.calls, HourCall(l, s.ingests[id], s.now, fault));
  }

  /** And so does the day. */
  lemma DayCheck(l: Limits, run: seq<Action>, id: nat, fault: RedisFault)
    requires var s := Run(l, run);
             At(s, id, AtDay) && Prompt(s.calls) && InTime(DayCall(l, s.ingests[id], s.now, fault))
    ensures var s := Run(l, run);
            var i := s.ingests[id];
            At(Next(l, s, AskDay(id, fault)), id, Answered(true)) <==>
            l.perDay <= 0 || !fault.NoFault? || Counted(s.calls, DayKey(i.org, i.dayAt / DAY)) < l.perDay
  {
    var s := Run(l, run);
    LastAdmitted(s.calls, DayCall(l, s.ingests[id], s.now, fault));
  }
}

/** Runs, with every command in order of time, in which a day accepts as much as it can. */
module IngestWitness {
  import opened RateLimit
  import opened IngestLimit

  lemma Extend(l: Limits, run: seq<Action>, a: Action) returns (run': seq<Action>)
    ensures Run(l, run') == Next(l, Run(l, run), a)
  {
    run' := run + [a];
    assert run'[..|run'| - 1] == run;
  }

  /** Nothing failed or came late, and no clock readings are further apart than the lag. */
  ghost predicate Smooth(s: State, lag: nat) {
    Prompt(s.calls) && FaultFree(s.calls) && Lagging(s, lag)
  }

  /** The ingests from this one on have all passed their hour and can be charged within the lag at the given time. */
  ghost predicate Waiting(s: State, org: string, from: nat, at: nat, lag: nat) {
    forall k :: from <= k < |s.ingests| ==>
      && s.ingests[k].org == org && s.ingests[k].stage.AtClock?
      && s.ingests[k].hourAt <= s.now && at <= s.ingests[k].hourAt + lag
  }

  /** One more ingest passes its hour. */
  lemma Pass(l: Limits, run: seq<Action>, org: string, lag: nat) returns (run': seq<Action>)
    requires var s := Run(l, run);
             Smooth(s, lag) && l.perHour > 0 && Made(s.calls, HourKey(org, s.now / HOUR)) < l.perHour
    ensures var s, s' := Run(l, run), Run(l, run');
            && Smooth(s', lag) && s'.now == s.now
            && s'.ingests == s.ingests + [Ingest(org, s.now, 0, AtClock)]
            && (forall k :: Made(s'.calls, k) == Made(s.calls, k) + if k == HourKey(org, s.now / HOUR) then 1 else 0)
  {
    var s := Run(l, run);
    var i := Ingest(org, s.now, 0, AtHour);
    var c := HourCall(l, i, s.now, NoFault);
    LimitsInForce(l, run, org, s.now / HOUR, 0);
    FaultFreeCounts(s.calls, HourKey(org, s.now / HOUR), l.perHour);
    LastAdmitted(s.calls, c);
    PassSteps(l, s, i);
    run' := Extend(l, run, Start(org));
    run' := Extend(l, run', AskHour(|s.ingests|, NoFault));
    PassedSmooth(s, c, i.(stage := AtClock), lag);
  }

  lemma PassSteps(l: Limits, s: State, i: Ingest)
    requires i == Ingest(i.org, s.now, 0, AtHour) && Admits(s.calls + [HourCall(l, i, s.now, NoFault)])
    ensures Next(l, Next(l, s, Start(i.org)), AskHour(|s.ingests|, NoFault)) ==
            s.(calls := s.calls + [HourCall(l, i, s.now, NoFault)], ingests := s.ingests + [i.(stage := AtClock)])
  {
    assert (s.ingests + [i])[|s.ingests| := i.(stage := AtClock)] == s.ingests + [i.(stage := AtClock)];
  }

  lemma PassedSmooth(s: State, c: Call, i: Ingest, lag: nat)
    requires Smooth(s, lag) && InTime(c) && c.fault.NoFault? && i.stage.AtClock?
    ensures Smooth(s.(calls := s.calls + [c], ingests := s.ingests + [i]), lag)
    ensures forall k :: Made(s.calls + [c], k) == Made(s.calls, k) + if k == KeyOf(c) then 1 else 0
  {
    Snoc(s.calls, c);
  }

  lemma {:induction false} PassMany(l: Limits, run: seq<Action>, org: string, at: nat, lag: nat,
                                    from: nat, n: nat)
    returns (run': seq<Action>)
    requires var s := Run(l, run);
             && Smooth(s, lag) && from <= |s.ingests| && Waiting(s, org, from, at, lag) && l.perHour > 0
             && at <= s.now + lag
             && Made(s.calls, HourKey(org, s.now / HOUR)) + n <= l.perHour
    ensures var s, s' := Run(l, run), Run(l, run');
            && Smooth(s', lag) && s'.now == s.now && Waiting(s', org, from, at, lag) && |s'.ingests| == |s.ingests| + n
            && (forall k :: Made(s'.calls, k) == Made(s.calls, k) + if k == HourKey(org, s.now / HOUR) then n else 0)
  {
    if n == 0 {
      run' := run;
    } else {
      run' := PassMany(l, run, org, at, lag, from, n - 1);
      run' := Pass(l, run', org, lag);
    }
  }

  /** One waiting ingest reads the clock and is charged to the day. */
  lemma Charge(l: Limits, run: seq<Action>, org: string, lag: nat, from: nat) returns (run': seq<Action>)
    requires var s := Run(l, run); Smooth(s, lag) && from < |s.ingests| && Waiting(s, org, from, s.now, lag)
    ensures var s, s' := Run(l, run), Run(l, run');
            && Smooth(s', lag) && s'.now == s.now && |s'.ingests| == |s.ingests|
            && Waiting(s', org, from + 1, s'.now, lag)
            && (forall k :: Made(s'.calls, k) == Made(s.calls, k) + if k == DayKey(org, s.now / DAY) then 1 else 0)
  {
    var s := Run(l, run);
    var c := DayCall(l, s.ingests[from].(dayAt := s.now), s.now, NoFault);
    Snoc(s.calls, c);
    run' := Extend(l, run, ReadClock(from));
    run' := Extend(l, run', AskDay(from, NoFault));
    assert Run(l, run').calls == s.calls + [c];
  }

  /** All waiting ingests are charged to the day. */
  lemma {:induction false} ChargeAll(l: Limits, run: seq<Action>, org: string, lag: nat, from: nat)
    returns (run': seq<Action>)
    requires var s := Run(l, run); Smooth(s, lag) && from <= |s.ingests| && Waiting(s, org, from, s.now, lag)
    ensures var s, s' := Run(l, run), Run(l, run');
            && Smooth(s', lag) && s'.now == s.now && |s'.ingests| == |s.ingests|
            && (forall k :: Made(s'.calls, k) ==
                            Made(s.calls, k) + if k == DayKey(org, s.now / DAY) then |s.ingests| - from else 0)
    decreases |Run(l, run).ingests| - from
  {
    if from == |Run(l, run).ingests| {
      run' := run;
    } else {
      run' := Charge(l, run, org, lag, from);
      run' := ChargeAll(l, run', org, lag, from + 1);
    }
  }

  /** Nobody has asked from this hour on. */
  ghost predicate Unasked(s: State, org: string, hour: int) {
    forall h: nat :: hour <= h ==> Made(s.calls, HourKey(org, h)) == 0
  }

  /** A moment of an hour before midnight from which the lag reaches the day, later than all of earlier hours. */
  lemma LateMoment(hour: nat, day: nat, lag: nat) returns (late: nat)
    requires 24 * day - HoursBefore(lag) <= hour < 24 * day
    ensures late / HOUR == hour && late < day * DAY <= late + lag
    ensures forall at: nat :: at / HOUR < hour ==> at <= late
  {
    late := (hour + 1) * HOUR - 1;
    BucketBetween(late, HOUR, hour, 1);
    var m := HoursBefore(lag);
    assert (m - 1) * HOUR < lag;
    assert (24 * day - hour - 1) * HOUR <= (m - 1) * HOUR;
  }

  /** One such hour is filled. */
  lemma FillLate(l: Limits, run: seq<Action>, org: string, hour: nat, day: nat, lag: nat) returns (run': seq<Action>)
    requires l.perHour > 0 && 24 * day - HoursBefore(lag) <= hour < 24 * day
    requires var s := Run(l, run);
             && Smooth(s, lag) && Waiting(s, org, 0, day * DAY, lag) && Unasked(s, org, hour)
             && (s.now == 0 || s.now / HOUR < hour)
    ensures var s, s' := Run(l, run), Run(l, run');
            && Smooth(s', lag) && Waiting(s', org, 0, day * DAY, lag) && Unasked(s', org, hour + 1)
            && s'.now / HOUR == hour && s'.now < day * DAY && |s'.ingests| == |s.ingests| + l.perHour
            && Made(s'.calls, DayKey(org, day)) == Made(s.calls, DayKey(org, day))
  {
    var late := LateMoment(hour, day, lag);
    run' := Extend(l, run, Tick(late - Run(l, run).now));
    run' := PassMany(l, run', org, day * DAY, lag, 0, l.perHour);
  }

  /** The hours before midnight from which an ingest can be charged to the day are filled, late in each. */
  lemma {:induction false} FillBefore(l: Limits, org: string, day: nat, lag: nat, n: nat) returns (run: seq<Action>)
    requires l.perHour > 0 && n <= HoursBefore(lag) <= 24 * day
    ensures var s := Run(l, run);
            && Smooth(s, lag) && Waiting(s, org, 0, day * DAY, lag) && |s.ingests| == n * l.perHour
            && Unasked(s, org, 24 * day - HoursBefore(lag) + n) && Made(s.calls, DayKey(org, day)) == 0
            && (if n == 0 then s.now == 0
                else s.now / HOUR == 24 * day - HoursBefore(lag) + n - 1 && s.now < day * DAY)
  {
    if n == 0 {
      run := [];
    } else {
      run := FillBefore(l, org, day, lag, n - 1);
      run := FillLate(l, run, org, 24 * day - HoursBefore(lag) + n - 1, day, lag);
      MulNext(n - 1, l.perHour);
    }
  }

  /** At midnight those ingests are charged to the day. */
  lemma Midnight(l: Limits, org: string, day: nat, lag: nat) returns (run: seq<Action>)
    requires l.perHour > 0 && HoursBefore(lag) <= 24 * day
    ensures var s := Run(l, run);
            && Smooth(s, lag) && s.now <= 24 * day * HOUR && Unasked(s, org, 24 * day)
            && Made(s.calls, DayKey(org, day)) == HoursBefore(lag) * l.perHour
  {
    run := FillBefore(l, org, day, lag, HoursBefore(lag));
    var midnight := HourStart(24 * day, day);
    run := Extend(l, run, Tick(midnight - Run(l, run).now));
    run := ChargeAll(l, run, org, lag, 0);
  }

  lemma HourStart(hour: nat, day: nat) returns (start: nat)
    requires 24 * day <= hour < 24 * day + 24
    ensures start == hour * HOUR <= (hour + 1) * HOUR && start / HOUR == hour && start / DAY == day
    ensures hour == 24 * day ==> start == day * DAY
  {
    start := hour * HOUR;
    BucketBetween(start, HOUR, hour, 1);
    DayOfHour(start);
  }

  /** Then an hour of the day is filled and charged at once. */
  lemma FillOne(l: Limits, run: seq<Action>, org: string, hour: nat, day: nat, lag: nat) returns (run': seq<Action>)
    requires l.perHour > 0 && 24 * day <= hour < 24 * day + 24 && Smooth(Run(l, run), lag)
    requires Run(l, run).now <= hour * HOUR && Unasked(Run(l, run), org, hour)
    ensures var s, s' := Run(l, run), Run(l, run');
            && Smooth(s', lag) && Unasked(s', org, hour + 1) && s'.now <= (hour + 1) * HOUR && s'.now / DAY == day
            && Made(s'.calls, DayKey(org, day)) == Made(s.calls, DayKey(org, day)) + l.perHour
  {
    var start := HourStart(hour, day);
    run' := Extend(l, run, Tick(start - Run(l, run).now));
    var from := |Run(l, run').ingests|;
    run' := PassMany(l, run', org, start, lag, from, l.perHour);
    run' := ChargeAll(l, run', org, lag, from);
  }

  lemma {:induction false} FillDay(l: Limits, org: string, day: nat, lag: nat, n: nat) returns (run: seq<Action>)
    requires l.perHour > 0 && HoursBefore(lag) <= 24 * day && n <= 24
    ensures var s := Run(l, run);
            && Smooth(s, lag) && Unasked(s, org, 24 * day + n) && s.now <= (24 * day + n) * HOUR
            && (n > 0 ==> s.now / DAY == day)
            && Made(s.calls, DayKey(org, day)) == (HoursBefore(lag) + n) * l.perHour
  {
    if n == 0 {
      run := Midnight(l, org, day, lag);
    } else {
      run := FillDay(l, org, day, lag, n - 1);
      run := FillOne(l, run, org, 24 * day + n - 1, day, lag);
      MulNext(HoursBefore(lag) + n - 1, l.perHour);
    }
  }

  /**
   * The ceiling is attained for every limit and lag, on every day that has enough hours before it: overlapping ingests
   * that pass the last hours of one day and are charged to the next let it accept more than its 24 hours' worth.
   */
  lemma CeilingAttained(l: Limits, org: string, day: nat, lag: nat) returns (run: seq<Action>)
    requires l.perHour > 0 && HoursBefore(lag) <= 24 * day
    ensures var s := Run(l, run);
            && Smooth(s, lag) && InOrder(s.calls) && AcceptedOn(s, org, day) == Ceiling(l, lag)
    ensures 0 < lag <= HOUR ==> Ceiling(l, lag) == Cap(25 * l.perHour, l.perDay)
  {
    HoursInLag(lag);
    run := FillDay(l, org, day, lag, 24);
    RunOrdered(l, run);
    RunBooks(l, run, org, 0, day);
    DayAdmits(l, run, org, day);
  }

  lemma UncountedPasses(calls: seq<Call>, c: Call)
    requires c.fault.Uncounted?
    ensures Admits(calls + [c])
  {
    Snoc(calls, c);
  }

  /** An ingest both of whose pipelines fail is accepted, whatever the limits. */
  lemma FailingIngest(l: Limits, run: seq<Action>, org: string) returns (run': seq<Action>)
    ensures var s, s' := Run(l, run), Run(l, run');
            var i := Ingest(org, s.now, s.now, Answered(true));
            && s'.ingests == s.ingests + [i]
            && s'.calls == s.calls + [HourCall(l, i, s.now, Uncounted)] + [DayCall(l, i, s.now, Uncounted)]
  {
    var s := Run(l, run);
    var i := Ingest(org, s.now, 0, AtHour);
    var hour := HourCall(l, i, s.now, Uncounted);
    UncountedPasses(s.calls, hour);
    UncountedPasses(s.calls + [hour], DayCall(l, i.(dayAt := s.now), s.now, Uncounted));
    run' := Extend(l, run, Start(org));
    run' := Extend(l, run', AskHour(|s.ingests|, Uncounted));
    assert Run(l, run').ingests == s.ingests + [i.(stage := AtClock)];
    run' := Extend(l, run', ReadClock(|s.ingests|));
    assert Run(l, run').ingests == s.ingests + [i.(dayAt := s.now, stage := AtDay)];
    run' := Extend(l, run', AskDay(|s.ingests|, Uncounted));
    assert Run(l, run').ingests == s.ingests + [i.(dayAt := s.now, stage := Answered(true))];
  }

  lemma FailingIngestCounts(s: State, s': State, i: Ingest, hour: Call, day: Call, lag: nat)
    requires s'.ingests == s.ingests + [i] && s'.calls == s.calls + [hour] + [day]
    requires Prompt(s.calls) && Lagging(s, lag) && InTime(hour) && InTime(day) && i.hourAt == i.dayAt
    requires i.stage == Answered(true)
    ensures Prompt(s'.calls) && Lagging(s', lag)
    ensures AcceptedOn(s', i.org, i.dayAt / DAY) == AcceptedOn(s, i.org, i.dayAt / DAY) + 1
  {
    assert (s.ingests + [i])[..|s.ingests|] == s.ingests;
  }

  /** After a full day one such ingest overruns it. */
  lemma FaultOverruns(l: Limits, lag: nat) returns (run: seq<Action>)
    requires l.perHour > 0
    ensures var s := Run(l, run);
            Prompt(s.calls) && Lagging(s, lag) && AcceptedOn(s, "o", 0) == Cap(24 * l.perHour, l.perDay) + 1
  {
    var full := FillDay(l, "o", 0, 0, 24);
    var s := Run(l, full);
    assert HoursBefore(0) + 24 == 24;
    RunBooks(l, full, "o", 0, 0);
    DayAdmits(l, full, "o", 0);
    run := FailingIngest(l, full, "o");
    var i := Ingest("o", s.now, s.now, Answered(true));
    FailingIngestCounts(s, Run(l, run), i, HourCall(l, i, s.now, Uncounted), DayCall(l, i, s.now, Uncounted), lag);
  }

  /** No day accepts more than its limits allow, taking its 24 hours alone. */
  ghost predicate WithinLimits(l: Limits, s: State)
    requires l.perHour > 0
  {
    forall org, day: nat :: AcceptedOn(s, org, day) <= Cap(24 * l.perHour, l.perDay)
  }

  /**
   * Exactly when the two limits hold together, over all runs with prompt commands, clock readings at most `lag` apart,
   * and failing pipelines only where `faults` says so: nothing may fail, and either the two readings of an ingest are
   * one, or the day's own limit is within its 24 hours' worth.
   */
  lemma LimitsHoldIff(l: Limits, lag: nat, faults: bool)
    requires l.perHour > 0
    ensures (forall run | Prompt(Run(l, run).calls) && Lagging(Run(l, run), lag)
                          && (faults || FaultFree(Run(l, run).calls)) ::
               WithinLimits(l, Run(l, run))) <==> !faults && (lag == 0 || 0 < l.perDay <= 24 * l.perHour)
  {
    if faults {
      var run := FaultOverruns(l, lag);
      assert !WithinLimits(l, Run(l, run));
    } else if lag > 0 && !(0 < l.perDay <= 24 * l.perHour) {
      var day := HoursBefore(lag);
      var run := CeilingAttained(l, "o", day, lag);
      CeilingGrows(l, lag);
      assert !WithinLimits(l, Run(l, run));
    } else {
      forall run | Prompt(Run(l, run).calls) && Lagging(Run(l, run), lag) && FaultFree(Run(l, run).calls)
        ensures WithinLimits(l, Run(l, run))
      {
        forall org, day: nat
          ensures AcceptedOn(Run(l, run), org, day) <= Cap(24 * l.perHour, l.perDay)
        {
          DayAccepted(l, run, org, day, lag);
        }
      }
    }
  }

  lemma CeilingGrows(l: Limits, lag: nat)
    requires l.perHour > 0 && lag > 0 && !(0 < l.perDay <= 24 * l.perHour)
    ensures Ceiling(l, lag) > Cap(24 * l.perHour, l.perDay)
  {
    MulMonotone(25, 24 + HoursBefore(lag), l.perHour);
  }

  lemma DayAccepted(l: Limits, run: seq<Action>, org: string, day: nat, lag: nat)
    requires l.perHour > 0 && (lag == 0 || 0 < l.perDay <= 24 * l.perHour)
    requires var s := Run(l, run); Prompt(s.calls) && Lagging(s, lag) && FaultFree(s.calls)
    ensures AcceptedOn(Run(l, run), org, day) <= Cap(24 * l.perHour, l.perDay)
  {
    DayCapped(l, run, org, day);
    if lag == 0 { ChargedInDay(l, run, org, day); }
  }

  lemma DayCapped(l: Limits, run: seq<Action>, org: string, day: nat)
    requires var s := Run(l, run); Prompt(s.calls) && FaultFree(s.calls)
    ensures AcceptedOn(Run(l, run), org, day) == Cap(ChargedOn(Run(l, run), org, day), l.perDay)
  {
    DayAdmits(l, run, org, day);
  }

  lemma ChargedInDay(l: Limits, run: seq<Action>, org: string, day: nat)
    requires l.perHour > 0
    requires var s := Run(l, run); Prompt(s.calls) && Lagging(s, 0) && FaultFree(s.calls)
    ensures ChargedOn(Run(l, run), org, day) <= 24 * l.perHour
  {
    var n := HoursCharged(day, 0);
    assert n == 24;
    ChargedWithin(l, run, org, day, 0);
    HoursAdmit(l, run, org, FirstHour(day, 0), n);
    HoursAtMost(l, Run(l, run), org, FirstHour(day, 0), n);
  }
}

/** The limiter as the source writes it: one shared store of expiring counters. */
module RateLimiter {
  import opened Prelude
  import opened RateLimit
  import opened IngestLimit

  function Ask(enabled: bool, store: Store, c: Call): (Store, bool) {
    if !enabled then (store, true) else RateLimit.Allow(store, c)
  }

  /** When one `AllowIngest` reads the clock and when Redis runs its pipelines, and what fails. */
  datatype Visit = Visit(org: string, hourAt: nat, hourSent: nat, hourFault: RedisFault,
                         dayAt: nat, daySent: nat, dayFault: RedisFault)

  function HourOf(l: Limits, v: Visit): Call {
    Call(v.hourAt, v.hourSent, "hour", v.org, HOUR, l.perHour, v.hourFault)
  }

  function DayOf(l: Limits, v: Visit): Call {
    Call(v.dayAt, v.daySent, "day", v.org, DAY, l.perDay, v.dayFault)
  }

  function AskIngest(enabled: bool, store: Store, v: Visit, l: Limits): (Store, bool) {
    var (store', allowed) := Ask(enabled, store, HourOf(l, v));
    if allowed then Ask(enabled, store', DayOf(l, v)) else (store', false)
  }

  /** The steps of an ingest, with the waits between them: the hour's clock and pipeline, then the day's. */
  function HourSteps(l: Limits, s: State, v: Visit): State
    requires s.now <= v.hourAt <= v.hourSent
  {
    var s1 := Next(l, Next(l, s, Tick(v.hourAt - s.now)), Start(v.org));
    Next(l, Next(l, s1, Tick(v.hourSent - v.hourAt)), AskHour(|s.ingests|, v.hourFault))
  }

  function DaySteps(l: Limits, s: State, id: nat, v: Visit): State
    requires s.now <= v.dayAt <= v.daySent
  {
    var s1 := Next(l, Next(l, s, Tick(v.dayAt - s.now)), ReadClock(id));
    Next(l, Next(l, s1, Tick(v.daySent - v.dayAt)), AskDay(id, v.dayFault))
  }

  lemma HourIsSteps(l: Limits, s: State, v: Visit)
    requires s.now <= v.hourAt <= v.hourSent
    ensures var s' := HourSteps(l, s, v);
            && s'.now == v.hourSent && s'.calls == s.calls + [HourOf(l, v)] && |s'.ingests| == |s.ingests| + 1
            && s'.ingests[|s.ingests|] == Ingest(v.org, v.hourAt, 0, if Admits(s'.calls) then AtClock else Refused)
  {
  }

  lemma DayIsSteps(l: Limits, s: State, id: nat, v: Visit)
    requires s.now <= v.dayAt <= v.daySent && id < |s.ingests| && s.ingests[id].org == v.org
    ensures var s' := DaySteps(l, s, id, v);
            && |s'.ingests| == |s.ingests|
            && if s.ingests[id].stage.AtClock? then
                 s'.calls == s.calls + [DayOf(l, v)] && s'.ingests[id].stage == Answered(Admits(s'.calls))
               else s.ingests[id].stage.Refused? ==> s'.calls == s.calls && s'.ingests == s.ingests
  {
  }

  /** An ingest that no other overlaps is its steps in order, for all delays and faults. */
  lemma AllowIngestIsSteps(l: Limits, s: State, v: Visit)
    requires s.now <= v.hourAt <= v.hourSent <= v.dayAt <= v.daySent
    ensures var s' := DaySteps(l, HourSteps(l, s, v), |s.ingests|, v);
            var (store, allowed) := AskIngest(true, After(s.calls), v, l);
            && After(s'.calls) == store && |s'.ingests| == |s.ingests| + 1
            && (allowed <==> s'.ingests[|s.ingests|].stage == Answered(true))
            && (s'.ingests[|s.ingests|].stage.Refused? || s'.ingests[|s.ingests|].stage.Answered?)
  {
    var hour := s.calls + [HourOf(l, v)];
    Snoc(s.calls, HourOf(l, v));
    Snoc(hour, DayOf(l, v));
    HourIsSteps(l, s, v);
    DayIsSteps(l, HourSteps(l, s, v), |s.ingests|, v);
  }

  class Limiter {
    const enabled: bool
    var store: Store

    constructor (enabled: bool)
      ensures this.enabled == enabled && store == map[]
    {
      this.enabled, store := enabled, map[];
    }

    method Allow(c: Call) returns (allowed: bool)
      modifies this`store
      ensures (store, allowed) == Ask(enabled, old(store), c)
      ensures !enabled ==> allowed && store == old(store)
      ensures enabled && c.limit > 0 && !c.fault.Uncounted? ==>
                KeyOf(c) in store && store == old(store)[KeyOf(c) := store[KeyOf(c)]]
      ensures enabled && c.limit > 0 && !c.fault.Uncounted? && !c.fault.Unexpired? ==>
                store[KeyOf(c)].expires == Some(c.sent + c.window)
      ensures enabled && c.limit > 0 && c.fault.NoFault? ==> (allowed <==> store[KeyOf(c)].count <= c.limit)
    {
      if !enabled || c.limit <= 0 {
        return true;
      }
      if c.fault.Uncounted? {
        return true;
      }
      var key := KeyOf(c);
      var count := Incr(store, key, c.sent);
      store := store[key := Ran(store, c)];
      if !c.fault.NoFault? {
        return true;
      }
      return count <= c.limit;
    }

    method AllowIngest(v: Visit, l: Limits) returns (allowed: bool)
      modifies this`store
      ensures (store, allowed) == AskIngest(enabled, old(store), v, l)
      ensures !enabled ==> allowed && store == old(store)
      ensures enabled && !RateLimit.Allow(old(store), HourOf(l, v)).1 ==>
                !allowed && store == RateLimit.Allow(old(store), HourOf(l, v)).0
    {
      allowed := Allow(HourOf(l, v));
      if !allowed {
        return false;
      }
      allowed := Allow(DayOf(l, v));
    }
  }
}
