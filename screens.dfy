/** Which page the script draws for a loaded record. Every button handler ends by
    saving and rerunning the script, and a rerun stops the current run at once, so
    each page is decided by the record as loaded at the top of a run. */
module Screens {
  import opened Recovery

  datatype Screen = SetupForm | Dashboard | ClearedBanner

  /** The page as the script selects it: the setup form when the loaded backlog is
      0, otherwise the dashboard, whose "Backlog Cleared" block is guarded by the
      same variable being 0 again. That variable is only changed inside a handler,
      which never reaches the guard, so the banner is never drawn. */
  function ScriptScreen(p: Plan): (s: Screen)
    ensures s == SetupForm <==> !IsActive(p)
    ensures s == Dashboard <==> IsActive(p)
    ensures s != ClearedBanner
  {
    if p.backlog == 0 then SetupForm
    else if p.backlog == 0 then ClearedBanner
    else Dashboard
  }

  /** The page as the "Backlog Cleared" block intends: a record that had a plan and
      has none of it left gets the banner with its "Start New Recovery Plan" button;
      only the record with no plan at all gets the setup form. */
  function ViewFor(p: Plan): (s: Screen)
    ensures s == Dashboard <==> IsActive(p)
    ensures s == ClearedBanner <==> !IsActive(p) && p.originalBacklog >= 1
    ensures s == SetupForm <==> !IsActive(p) && p.originalBacklog == 0
  {
    if p.backlog != 0 then Dashboard
    else if p.originalBacklog >= 1 then ClearedBanner
    else SetupForm
  }

  /** As written: the completion that clears a plan is followed straight by the
      setup form, never by the banner. */
  lemma ClearingShowsSetupForm(p: Plan)
    requires Valid(p) && IsActive(p) && p.backlog <= p.dailyLoad
    ensures !IsActive(AfterComplete(p))
    ensures ScriptScreen(AfterComplete(p)) == SetupForm
  {
  }

  /** As intended: the completion that clears a plan is followed by the banner, and
      only after the plan is reset does the setup form come back. */
  lemma ClearingShowsBanner(p: Plan)
    requires Valid(p) && IsActive(p) && p.backlog <= p.dailyLoad
    ensures ViewFor(AfterComplete(p)) == ClearedBanner
    ensures ViewFor(NoPlan()) == SetupForm
  {
  }

  /** A fresh plan opens on the dashboard under either reading. */
  lemma StartShowsDashboard(b: nat, d: nat)
    requires b >= 1 && d >= 1
    ensures ScriptScreen(Start(b, d)) == Dashboard && ViewFor(Start(b, d)) == Dashboard
  {
  }

  /** On every record the dashboard is drawn, its progress bar divides by a
      positive original backlog. */
  lemma DashboardProgressDefined(p: Plan)
    requires Valid(p) && ViewFor(p) == Dashboard
    ensures p.originalBacklog > 0 && 0.0 <= Progress(p) < 1.0
  {
  }
}
