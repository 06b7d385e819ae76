# Backlog Buddy recovery plan, in Dafny

Backlog Buddy is a one-page Streamlit app (`app.py`) for catching up on lectures.
A plan is a saved record of five fields:
- `backlog`: lectures left;
- `original_backlog`: lectures at the start;
- `daily_load`: today's target;
- `missed_count`: the current streak of missed days;
- `mode`: one of three labels.

The setup form creates the record. After that, two dashboard buttons change it:
- "I Completed Today" takes the target off the backlog, clamped at zero, and ends the streak.
- "I Missed Today" extends the streak and then escalates. The first miss changes nothing. The second cuts the target to `max(1, int(load * 0.75))` and sets Adjusted Recovery. Every later miss pins the target at 1 and sets Minimum Viable Progress.

The model has three modules:
- `Recovery` (`recovery.dfy`) holds the record as a datatype and each rule as a function whose contract states what the rule guarantees. It also holds the lemmas over any sequence of check-ins: the invariant is kept, the target never grows and never drops below 1, Normal Recovery is never re-entered, the progress bar never moves back, and three misses pin the load.
- `App` (`plan_state.dfy`) holds the class `PlanState`. Its fields are the script's variables. Its methods reassign them step by step, as the handlers do, and are proved equal to the `Recovery` functions. One difference: `Complete` returns the corrected success message, which reports min(backlog, target) lectures, not the handler's `daily_load` (app.py:134); see Findings.
- `Screens` (`screens.dfy`) models the script's `backlog == 0` tests, which choose between the setup form, the dashboard and the "Backlog Cleared" banner.

Persistence becomes plain values. The saved record, or its absence, is the constructor's argument. A save makes the new fields current. Deleting the file returns to the no-plan record.

`int(daily_load * 0.75)` is modelled as `(3 * daily_load) / 4` on naturals. The two agree for every target below about 2^53 / 3 (about 3.0 * 10^15): 0.75 is exact in binary, and below that bound the product is exact too.

Two facts about the code shape the model:
- The mode is not monotone. A streak of two misses always writes Adjusted Recovery (app.py:162-164), even when the plan was in Minimum Viable Progress before a completion ended the streak. `Recovery.ModeCanFallBackToAdjusted` exhibits this. What does hold, and is proved in `Recovery.RunKeepsInvariant`, is that Normal Recovery is never re-entered.
- The progress bar divides without a guard (app.py:115), so `Recovery.Progress` requires a positive original. `Screens.DashboardProgressDefined` shows the dashboard always has one.

## Model

| member | source | states |
|---|---|---|
| `Recovery.NoPlan` | app.py:37-42 | the record used when nothing is saved is valid, is not an active plan, and starts at streak 0 in Normal Recovery |
| `Recovery.Start` | app.py:53-63 | from inputs of at least 1, setup gives a valid active plan whose backlog and original both equal the input, with the given target, no misses and Normal Recovery |
| `Recovery.ReducedLoad` | app.py:163 | the reduced target is at least 1; it is the floor of 3/4 of the old target whenever that floor is at least 1; it never exceeds the old target and is strictly smaller once the target is at least 2 |
| `Recovery.AfterComplete` | app.py:127-131 | completion takes exactly min(backlog, target) off the backlog, so the backlog never grows and reaches 0 iff it was at most the target; the streak becomes 0; original, target and mode are untouched; validity is preserved |
| `Recovery.AfterMiss` | app.py:152-172 | a miss adds exactly 1 to the streak and never touches either backlog; at streak 1 target and mode are kept; at 2 the target is reduced and the mode is Adjusted Recovery; at 3 or more the target is 1 and the mode is Minimum Viable Progress; a target of at least 1 never grows or falls below 1; a miss never enters Normal Recovery; validity is preserved |
| `Recovery.CompleteNotice` | app.py:133-136 | the success message reports exactly the lectures taken off the backlog: never more than the target or the backlog, and the whole target on a full day |
| `Recovery.ScriptReclaimed` | app.py:133-136 | as written, the success message reports the whole daily target; that equals the corrected message on a full day, and is more than was taken off the backlog whenever fewer lectures than the target were left |
| `Recovery.ReclaimedOverstated` | app.py:127-136 | with 2 lectures left and a target of 5, the message as written says 5 while 2 come off the backlog; the corrected message says 2 |
| `Recovery.MissNotice` | app.py:156-176 | the adjustment message is the reassurance at streak 1, the "reduced from old to new" report at streak 2 carrying the old and new targets, and the "set to 1" message from streak 3 on |
| `Recovery.Progress` | app.py:115 | with a positive original and backlog at most the original, the progress fraction lies in [0, 1]; it is 1 iff the backlog is 0 and 0 iff nothing has been done |
| `Recovery.RunKeepsInvariant` | app.py:125-184 | over any sequence of completions and misses from a valid record: the record stays valid, the original backlog never changes, backlog and target never grow, the target stays at least 1, and a plan that has left Normal Recovery never returns to it |
| `Recovery.ProgressStep` | app.py:115 | a completion never lowers the progress fraction; a miss leaves it exactly as it was |
| `Recovery.ProgressNeverFalls` | app.py:115 | over any sequence of check-ins, the progress fraction never falls below its starting value |
| `Recovery.MissesPinLoad` | app.py:152-172 | from any record, n consecutive misses that bring the streak to 3 or more leave target 1 and Minimum Viable Progress, with the streak exactly n longer and the backlog unchanged |
| `Recovery.PinnedMissIdempotent` | app.py:170-172 | once the streak is past 2, another miss leaves target (1) and mode (Minimum Viable Progress) as they were |
| `Recovery.EscalationRestartsAfterCompletion` | app.py:131-172 | after a completion, one miss keeps target and mode; a second miss reduces the target once and sets Adjusted Recovery |
| `Recovery.EightSixOne` | app.py:152-172 | a fresh plan of 20 lectures at 8 a day goes to targets 8, 6, 1 on three misses, ending at streak 3 in Minimum Viable Progress |
| `Recovery.ModeCanFallBackToAdjusted` | app.py:131-172 | from Minimum Viable Progress, a completion and two misses relabel the plan Adjusted Recovery |
| `Recovery.CompleteOnEmptyBacklog` | app.py:127-131 | completing with no backlog left changes nothing but the streak |
| `Screens.ScriptScreen` | app.py:49-69 | as written, the setup form is drawn iff the loaded backlog is 0, the dashboard iff it is not, and the cleared banner never |
| `Screens.ViewFor` | app.py:189-199 | as intended, the dashboard is drawn for an active plan, the cleared banner for a plan that has no lectures left, and the setup form only when there is no plan |
| `Screens.ClearingShowsSetupForm` | app.py:127-146 | as written, the completion that clears a valid plan is followed by the setup form |
| `Screens.ClearingShowsBanner` | app.py:189-199 | as intended, the completion that clears a valid plan is followed by the banner, and a reset brings back the setup form |
| `Screens.StartShowsDashboard` | app.py:56-69 | a freshly set-up plan opens on the dashboard |
| `Screens.DashboardProgressDefined` | app.py:115 | whenever a valid record is drawn as the dashboard, the progress bar divides by a positive original and shows a value in [0, 1) |
| `App.PlanState.constructor` | app.py:29-42 | the working copy is the saved record when there is one, and the no-plan record otherwise |
| `App.PlanState.Setup` | app.py:56-63 | the fields become the fresh plan from the two inputs, which is valid and active |
| `App.PlanState.Complete` | app.py:125-144 | the fields become the completed record: backlog not larger, streak 0, original, target and mode unchanged, validity kept; the message reports the lectures taken off |
| `App.PlanState.Miss` | app.py:150-184 | the fields become the missed record: streak one longer, both backlogs unchanged, target not larger and still at least 1, validity kept; the message is the one for the new streak |
| `App.PlanState.Reset` | app.py:194-199 | after the saved plan is deleted, the fields are the no-plan record |

## Left out

- Streamlit rendering is not modelled: page config, titles, HTML message boxes, the progress widget, balloons, columns and buttons. It is presentation only.
- JSON persistence is not modelled. `load_data` becomes the constructor's argument, `save_data` makes the fields current, and `os.remove` returns to the no-plan record. A corrupt or hand-edited file is not modelled: the record's fields are naturals and the mode is one of the three labels.
- The session-state message slots and `st.rerun` are not modelled as state. Each handler instead returns its message as a `Notice` value.
- The handlers are not restricted to the page that shows their button. `Complete` and `Miss` accept any record, and `Setup` accepts one that already holds a plan. `Screens` says which page, and so which buttons, a record gets.
- Floating point is not modelled. The progress bar is an exact rational. `int(load * 0.75)` is exact in the model, whereas the float product rounds for targets beyond about 2^53 / 3; from 3002399751580333 on, its truncation can be one more than the integer quotient.
- Start dates, finish dates and per-subject allocation are not modelled. `app.py` has no code for them.

## Findings

| source | as written | input that shows it | evidently intended | confidence | as-written member | corrected member |
|---|---|---|---|---|---|---|
| app.py:189-192 | the "Backlog Cleared" block sits in the dashboard branch, which runs only when the loaded backlog is not 0; the only change to the backlog is in the Complete handler, which saves and reruns first, so the guard is never true | a plan with 3 lectures left and a target of 5: "I Completed Today" saves backlog 0, and the next run draws the setup form instead of the banner | after the completion that clears a plan, show the banner and its "Start New Recovery Plan" button | medium, not executed; it rests on `st.rerun()` ending the current run | `Screens.ScriptScreen`, `Screens.ClearingShowsSetupForm` | `Screens.ViewFor`, `Screens.ClearingShowsBanner` |
| app.py:133-136 | the success message reports `daily_load` lectures reclaimed, even when fewer were left | 2 lectures left and a target of 5: the message says 5, but only 2 come off the backlog | report the lectures actually taken off the backlog | high, not executed | `Recovery.ScriptReclaimed`, `Recovery.ReclaimedOverstated` | `Recovery.CompleteNotice`, `App.PlanState.Complete` |
