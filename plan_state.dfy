/** The script's working copy of the plan: the variables its handlers reassign one
    step at a time before writing the whole record back. */
module App {
  import opened Recovery

  datatype Option<T> = None | Some(value: T)

  class PlanState {
    var backlog: nat
    var originalBacklog: nat
    var dailyLoad: nat
    var missedCount: nat
    var mode: Mode

    /** The record a save writes. */
    function Snapshot(): Plan
      reads this
    {
      Plan(backlog, originalBacklog, dailyLoad, missedCount, mode)
    }

    predicate Valid()
      reads this
    {
      Recovery.Valid(Snapshot())
    }

    /** The top of every run: take the saved record, or the no-plan record when
        nothing has been saved. */
    constructor (saved: Option<Plan>)
      ensures saved.Some? ==> Snapshot() == saved.value
      ensures saved.None? ==> Snapshot() == NoPlan()
    {
      if saved.Some? {
        var data := saved.value;
        backlog := data.backlog;
        originalBacklog := data.originalBacklog;
        dailyLoad := data.dailyLoad;
        missedCount := data.missedCount;
        mode := data.mode;
      } else {
        backlog := 0;
        originalBacklog := 0;
        dailyLoad := 1;
        missedCount := 0;
        mode := NormalRecovery;
      }
    }

    /** "Start Recovery Mode": the form's two inputs become a fresh plan. */
    method Setup(backlogInput: nat, dailyInput: nat)
      requires backlogInput >= 1 && dailyInput >= 1
      modifies this
      ensures Snapshot() == Start(backlogInput, dailyInput)
      ensures Valid() && IsActive(Snapshot())
    {
      backlog, originalBacklog := backlogInput, backlogInput;
      dailyLoad := dailyInput;
      missedCount := 0;
      mode := NormalRecovery;
    }

    /** "I Completed Today". */
    method Complete() returns (notice: Notice)
      modifies this
      ensures Snapshot() == AfterComplete(old(Snapshot()))
      ensures notice == CompleteNotice(old(Snapshot()))
      ensures backlog <= old(backlog) && missedCount == 0
      ensures originalBacklog == old(originalBacklog) && dailyLoad == old(dailyLoad) && mode == old(mode)
      ensures old(Valid()) ==> Valid()
    {
      var before := backlog;
      var rest: int := backlog - dailyLoad;
      if rest < 0 {
        rest := 0;
      }
      backlog := rest;
      missedCount := 0;
      notice := Reclaimed(before - backlog);
    }

    /** "I Missed Today". */
    method Miss() returns (notice: Notice)
      modifies this
      ensures Snapshot() == AfterMiss(old(Snapshot()))
      ensures notice == MissNotice(old(Snapshot()))
      ensures missedCount == old(missedCount) + 1
      ensures backlog == old(backlog) && originalBacklog == old(originalBacklog)
      ensures old(dailyLoad) >= 1 ==> 1 <= dailyLoad <= old(dailyLoad)
      ensures old(Valid()) ==> Valid()
    {
      missedCount := missedCount + 1;
      var oldLoad := dailyLoad;
      if missedCount == 1 {
        notice := Shifted;
      } else if missedCount == 2 {
        dailyLoad := ReducedLoad(dailyLoad);
        mode := AdjustedRecovery;
        notice := Reduced(oldLoad, dailyLoad);
      } else {
        // the streak is at least 3 here, the last branch of the escalation
        dailyLoad := 1;
        mode := MinimumViableProgress;
        notice := PinnedToOne;
      }
    }

    /** "Start New Recovery Plan": the saved record is deleted, so the next run
        starts from the no-plan record. */
    method Reset()
      modifies this
      ensures Snapshot() == NoPlan()
    {
      backlog, originalBacklog := 0, 0;
      dailyLoad := 1;
      missedCount := 0;
      mode := NormalRecovery;
    }
  }
}
