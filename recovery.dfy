/** The recovery plan of Backlog Buddy: the persisted record, the rules that the
    two check-in buttons apply to it, and what those rules guarantee over any
    sequence of check-ins. */
module Recovery {

  /** The three labels the script writes into the record's `mode` field. */
  datatype Mode = NormalRecovery | AdjustedRecovery | MinimumViableProgress

  /** The record the script saves and loads: remaining lectures, the lectures the
      plan started with, today's target, the current streak of misses and the mode. */
  datatype Plan = Plan(backlog: nat, originalBacklog: nat, dailyLoad: nat, missedCount: nat, mode: Mode)

  /** The two check-in buttons of the dashboard. */
  datatype CheckIn = Completed | Missed

  /** The message a check-in leaves for the next page: the success message of a
      completion and the three adjustment messages of a miss. */
  datatype Notice = Reclaimed(units: nat) | Shifted | Reduced(from: nat, to: nat) | PinnedToOne

  function Min(a: nat, b: nat): nat { if a <= b then a else b }

  /** The script's `backlog == 0` test: a record with lectures left is an active plan
      and gets the dashboard; any other record gets the setup form. */
  predicate IsActive(p: Plan) { p.backlog != 0 }

  /** What every record the script itself writes satisfies: the backlog never
      exceeds the original, the target is at least one lecture, a streak of two
      misses has put the plan in Adjusted Recovery and a longer streak has pinned
      it to one lecture in Minimum Viable Progress. */
  predicate Valid(p: Plan) {
    && p.backlog <= p.originalBacklog
    && p.dailyLoad >= 1
    && (p.missedCount == 2 ==> p.mode == AdjustedRecovery)
    && (p.missedCount >= 3 ==> p.mode == MinimumViableProgress && p.dailyLoad == 1)
  }

  /** The record used when nothing has been saved yet. */
  function NoPlan(): (p: Plan)
    ensures Valid(p) && !IsActive(p)
    ensures p.originalBacklog == 0 && p.missedCount == 0 && p.mode == NormalRecovery
  {
    Plan(0, 0, 1, 0, NormalRecovery)
  }

  /** The record saved by "Start Recovery Mode"; both inputs are at least 1 because
      the number widgets have `min_value=1`. */
  function Start(backlogInput: nat, dailyInput: nat): (p: Plan)
    requires backlogInput >= 1 && dailyInput >= 1
    ensures Valid(p) && IsActive(p)
    ensures p.backlog == p.originalBacklog == backlogInput && p.dailyLoad == dailyInput
    ensures p.missedCount == 0 && p.mode == NormalRecovery
  {
    Plan(backlogInput, backlogInput, dailyInput, 0, NormalRecovery)
  }

  /** `max(1, int(load * 0.75))`. Since 0.75 is exact in binary, the truncated float
      product is the integer quotient of 3 * load by 4 for every target below about
      2^53 / 3. The result is characterised as that floor, clamped below at 1. */
  function ReducedLoad(load: nat): (r: nat)
    ensures r >= 1
    ensures 4 <= 3 * load ==> 4 * r <= 3 * load < 4 * r + 4
    ensures 3 * load < 4 ==> r == 1
    ensures load >= 1 ==> r <= load
    ensures load >= 2 ==> r < load
  {
    var quarterOff := load * 3 / 4;
    if quarterOff < 1 then 1 else quarterOff
  }

  /** "I Completed Today": subtract the target, clamp at zero, end the miss streak. */
  function AfterComplete(p: Plan): (q: Plan)
    ensures q.backlog <= p.backlog
    ensures p.backlog - q.backlog == Min(p.backlog, p.dailyLoad)
    ensures q.backlog == 0 <==> p.backlog <= p.dailyLoad
    ensures q.missedCount == 0
    ensures q.originalBacklog == p.originalBacklog && q.dailyLoad == p.dailyLoad && q.mode == p.mode
    ensures Valid(p) ==> Valid(q)
  {
    var rest := p.backlog - p.dailyLoad;
    p.(backlog := if rest < 0 then 0 else rest, missedCount := 0)
  }

  /** "I Missed Today": extend the streak, then escalate on its new length. */
  function AfterMiss(p: Plan): (q: Plan)
    ensures q.missedCount == p.missedCount + 1
    ensures q.backlog == p.backlog && q.originalBacklog == p.originalBacklog
    ensures q.missedCount == 1 ==> q.dailyLoad == p.dailyLoad && q.mode == p.mode
    ensures q.missedCount == 2 ==> q.dailyLoad == ReducedLoad(p.dailyLoad) && q.mode == AdjustedRecovery
    ensures q.missedCount >= 3 ==> q.dailyLoad == 1 && q.mode == MinimumViableProgress
    ensures p.dailyLoad >= 1 ==> 1 <= q.dailyLoad <= p.dailyLoad
    ensures q.mode == NormalRecovery ==> p.mode == NormalRecovery && q.missedCount == 1
    ensures Valid(p) ==> Valid(q)
  {
    var count := p.missedCount + 1;
    if count == 1 then
      p.(missedCount := count)
    else if count == 2 then
      p.(missedCount := count, dailyLoad := ReducedLoad(p.dailyLoad), mode := AdjustedRecovery)
    else
      p.(missedCount := count, dailyLoad := 1, mode := MinimumViableProgress)
  }

  /** The success message of a completion, reporting the lectures actually taken
      off the backlog. */
  function CompleteNotice(p: Plan): (n: Notice)
    ensures n.Reclaimed? && n.units == p.backlog - AfterComplete(p).backlog
    ensures n.units <= p.dailyLoad && n.units <= p.backlog
    ensures p.dailyLoad <= p.backlog ==> n.units == p.dailyLoad
  {
    Reclaimed(Min(p.backlog, p.dailyLoad))
  }

  /** The success message as the handler writes it: it reports the whole daily
      target. That is the lectures taken off on a full day, and more than were taken
      off whenever fewer than the target were left. */
  function ScriptReclaimed(p: Plan): (n: Notice)
    ensures n.Reclaimed? && n.units == p.dailyLoad
    ensures p.dailyLoad <= p.backlog ==> n == CompleteNotice(p)
    ensures p.backlog < p.dailyLoad ==> n.units > p.backlog - AfterComplete(p).backlog
  {
    Reclaimed(p.dailyLoad)
  }

  /** The handler's message overstates a final partial day: with 2 lectures left
      and a target of 5 it reports 5 while 2 come off the backlog. */
  lemma ReclaimedOverstated()
    ensures ScriptReclaimed(Start(2, 5)) == Reclaimed(5)
    ensures Start(2, 5).backlog - AfterComplete(Start(2, 5)).backlog == 2
    ensures CompleteNotice(Start(2, 5)) == Reclaimed(2)
  {
  }

  /** The adjustment message of a miss, chosen by the streak length it produces. */
  function MissNotice(p: Plan): (n: Notice)
    ensures n.Shifted? <==> AfterMiss(p).missedCount == 1
    ensures n.Reduced? <==> AfterMiss(p).missedCount == 2
    ensures n.PinnedToOne? <==> AfterMiss(p).missedCount >= 3
    ensures n.Reduced? ==> n.from == p.dailyLoad && n.to == AfterMiss(p).dailyLoad
  {
    if p.missedCount == 0 then Shifted
    else if p.missedCount == 1 then Reduced(p.dailyLoad, ReducedLoad(p.dailyLoad))
    else PinnedToOne
  }

  function Apply(p: Plan, e: CheckIn): Plan {
    match e
    case Completed => AfterComplete(p)
    case Missed => AfterMiss(p)
  }

  /** The record after a sequence of check-ins, each saved before the next. */
  function Run(p: Plan, es: seq<CheckIn>): Plan
    decreases |es|
  {
    if es == [] then p else Run(Apply(p, es[0]), es[1..])
  }

  /** n consecutive misses. */
  function Misses(n: nat): (es: seq<CheckIn>)
    ensures |es| == n
    ensures forall i :: 0 <= i < n ==> es[i] == Missed
  {
    if n == 0 then [] else [Missed] + Misses(n - 1)
  }

  /** The dashboard's progress bar `1 - backlog / original_backlog`, as an exact
      rational. The script divides without a guard, so the original must be positive. */
  function Progress(p: Plan): (r: real)
    requires p.originalBacklog > 0
    ensures p.backlog <= p.originalBacklog ==> 0.0 <= r <= 1.0
    ensures r == 1.0 <==> p.backlog == 0
    ensures r == 0.0 <==> p.backlog == p.originalBacklog
  {
    1.0 - (p.backlog as real) / (p.originalBacklog as real)
  }

  /** Over any sequence of check-ins from a valid record: the record stays valid,
      the original backlog is never touched, the backlog and the target never grow,
      the target never drops below one lecture and a plan that has left Normal
      Recovery never returns to it. */
  lemma {:induction false} RunKeepsInvariant(p: Plan, es: seq<CheckIn>)
    requires Valid(p)
    ensures Valid(Run(p, es))
    ensures Run(p, es).originalBacklog == p.originalBacklog
    ensures Run(p, es).backlog <= p.backlog
    ensures 1 <= Run(p, es).dailyLoad <= p.dailyLoad
    ensures Run(p, es).mode == NormalRecovery ==> p.mode == NormalRecovery
    decreases |es|
  {
    if es != [] {
      RunKeepsInvariant(Apply(p, es[0]), es[1..]);
    }
  }

  /** Only completions move the progress bar, and only forwards. */
  lemma ProgressStep(p: Plan, e: CheckIn)
    requires p.originalBacklog > 0
    ensures Apply(p, e).originalBacklog > 0
    ensures e == Completed ==> Progress(Apply(p, e)) >= Progress(p)
    ensures e == Missed ==> Progress(Apply(p, e)) == Progress(p)
  {
    if e == Completed {
      var q := AfterComplete(p);
      var o := p.originalBacklog as real;
      assert (q.backlog as real) / o <= (p.backlog as real) / o by {
        assert q.backlog as real <= p.backlog as real;
        DivideMonotone(q.backlog as real, p.backlog as real, o);
      }
    }
  }

  lemma DivideMonotone(a: real, b: real, c: real)
    requires a <= b && c > 0.0
    ensures a / c <= b / c
  {
    assert b / c - a / c == (b - a) / c;
  }

  /** The progress bar never moves backwards over any sequence of check-ins. */
  lemma {:induction false} ProgressNeverFalls(p: Plan, es: seq<CheckIn>)
    requires p.originalBacklog > 0
    ensures Run(p, es).originalBacklog == p.originalBacklog
    ensures Progress(Run(p, es)) >= Progress(p)
    decreases |es|
  {
    if es != [] {
      ProgressStep(p, es[0]);
      ProgressNeverFalls(Apply(p, es[0]), es[1..]);
    }
  }

  /** Whatever the streak, n >= 3 consecutive misses leave the plan at one lecture a
      day in Minimum Viable Progress, with the streak grown by n and the backlog as
      it was. */
  lemma {:induction false} MissesPinLoad(p: Plan, n: nat)
    requires n >= 1 && p.missedCount + n >= 3
    ensures Run(p, Misses(n)).missedCount == p.missedCount + n
    ensures Run(p, Misses(n)).backlog == p.backlog
    ensures Run(p, Misses(n)).dailyLoad == 1
    ensures Run(p, Misses(n)).mode == MinimumViableProgress
    decreases n
  {
    var es := Misses(n);
    assert es[0] == Missed && es[1..] == Misses(n - 1);
    if n == 1 {
      assert Run(p, es) == Run(AfterMiss(p), []);
    } else {
      MissesPinLoad(AfterMiss(p), n - 1);
    }
  }

  /** A miss once the streak is past two re-applies "set to 1" and changes nothing
      else about the load or mode. */
  lemma PinnedMissIdempotent(p: Plan)
    requires p.missedCount >= 2
    ensures AfterMiss(AfterMiss(p)).dailyLoad == AfterMiss(p).dailyLoad == 1
    ensures AfterMiss(AfterMiss(p)).mode == AfterMiss(p).mode == MinimumViableProgress
  {
  }

  /** A completion ends the streak, so escalation restarts from its first step: one
      miss changes nothing, the second reduces the load once. */
  lemma EscalationRestartsAfterCompletion(p: Plan)
    ensures Run(p, [Completed, Missed]).dailyLoad == p.dailyLoad
    ensures Run(p, [Completed, Missed]).mode == p.mode
    ensures Run(p, [Completed, Missed, Missed]).dailyLoad == ReducedLoad(p.dailyLoad)
    ensures Run(p, [Completed, Missed, Missed]).mode == AdjustedRecovery
  {
    var c := AfterComplete(p);
    assert Run(p, [Completed, Missed]) == Run(c, [Missed]) == AfterMiss(c);
    assert Run(p, [Completed, Missed, Missed]) == Run(c, [Missed, Missed]);
    assert Run(c, [Missed, Missed]) == Run(AfterMiss(c), [Missed]) == AfterMiss(AfterMiss(c));
  }

  /** The escalation of a fresh plan of 20 lectures at 8 a day: 8, then 6, then 1. */
  lemma EightSixOne()
    ensures AfterMiss(Start(20, 8)).dailyLoad == 8
    ensures AfterMiss(AfterMiss(Start(20, 8))) == Plan(20, 20, 6, 2, AdjustedRecovery)
    ensures AfterMiss(AfterMiss(AfterMiss(Start(20, 8)))) == Plan(20, 20, 1, 3, MinimumViableProgress)
  {
  }

  /** The mode is not monotone: after Minimum Viable Progress, a completion and two
      misses relabel the plan Adjusted Recovery (with the load still at 1). */
  lemma ModeCanFallBackToAdjusted()
    ensures Run(Plan(5, 9, 1, 3, MinimumViableProgress), [Completed, Missed, Missed])
         == Plan(4, 9, 1, 2, AdjustedRecovery)
  {
    EscalationRestartsAfterCompletion(Plan(5, 9, 1, 3, MinimumViableProgress));
  }

  /** Completing with nothing left only ends the streak. */
  lemma CompleteOnEmptyBacklog(p: Plan)
    requires p.backlog == 0
    ensures AfterComplete(p) == p.(missedCount := 0)
  {
  }
}
