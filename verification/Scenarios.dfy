/** Two runs of the task supervisor that its exact conditions are about: a cancellation that saves late, and one
    that comes between the look at the token and the last transition. */
module Scenarios {
  import opened Common
  import opened Tasks
  import opened Lifecycle

  /** The one task 1 (operation 5, no session, nothing to approve), after `history`, with its worker at `place`; its
      command has succeeded if it was started and has returned. */
  function Scene(history: seq<TaskStatus>, place: Place, calls: map<nat, Canceller>, executions: map<TaskId, nat>): State
    requires history != []
  {
    var status := history[|history| - 1];
    State(Database(map[1 := TaskRow(None, 5, Row(status))], map[], map[1 := Allow], map[1 := history], executions,
                   if executions == map[] || place.InCommand? then {} else {1}),
          map[], {1}, {}, {}, map[], map[1 := Worker(None, 5, Allow, place)], {}, calls)
  }

  function Row(status: TaskStatus): TaskSummary {
    TaskSummary(1, None, 5, status, if status == Queued then None else Some(0), if status.IsTerminal() then Some(0) else None,
                !status.IsTerminal())
  }

  const work := Work(1, true, 0)
  const calls: map<nat, Canceller> := map[0 := Canceller(1, 9, Asking(Cancelling))]
  const drafted: map<nat, Canceller> := map[0 := Canceller(1, 9, Writing(Row(Cancelling), Running))]
  const saved: map<nat, Canceller> := map[0 := Canceller(1, 9, Signalling)]
  const once: map<TaskId, nat> := map[1 := 1]

  /** A step of a run that is not overtaken. */
  ghost predicate Goes(s: State, step: Step, t: State) { Enabled(s, step) && Apply(s, step) == t && !Overtaken(s, step) }

  /** A run with no overtaken save. */
  ghost predicate Reaches(s: State, steps: seq<Step>, t: State) {
    Runs(s, steps) && After(s, steps) == t && NoneOvertaken(s, steps)
  }

  lemma Stays(s: State)
    ensures Reaches(s, [], s)
  {}

  lemma First(s: State, step: Step, t: State, rest: seq<Step>, end: State)
    requires Goes(s, step, t) && Reaches(t, rest, end)
    ensures Reaches(s, [step] + rest, end)
  {
    assert ([step] + rest)[1..] == rest;
  }

  lemma {:induction false} Joins(s: State, a: seq<Step>, t: State, b: seq<Step>, end: State)
    requires Reaches(s, a, t) && Reaches(t, b, end)
    ensures Reaches(s, a + b, end)
    decreases |a|
  {
    if a == [] {
      assert a + b == b;
    } else {
      Joins(Apply(s, a[0]), a[1..], t, b, end);
      assert a + b == [a[0]] + (a[1..] + b);
      First(s, a[0], Apply(s, a[0]), a[1..] + b, end);
    }
  }

  lemma Starts()
    ensures Reaches(Empty(), [Start(1, None, 5, Allow), work, work], Scene([Queued], Spawned, map[], map[]))
  {
    var reserved := Apply(Empty(), Start(1, None, 5, Allow));
    var stored := Scene([Queued], Stored, map[], map[]).(registered := {});
    var spawned := Scene([Queued], Spawned, map[], map[]);
    assert Goes(Empty(), Start(1, None, 5, Allow), reserved) && Goes(reserved, work, stored) && Goes(stored, work, spawned);
    assert [Start(1, None, 5, Allow)] + ([work] + ([work] + [])) == [Start(1, None, 5, Allow), work, work];
    hide Apply, Enabled, Scene;
    Stays(spawned);
    First(stored, work, spawned, [], spawned);
    First(reserved, work, stored, [work] + [], spawned);
    First(Empty(), Start(1, None, 5, Allow), reserved, [work] + ([work] + []), spawned);
  }

  lemma Spawns()
    ensures Goes(Scene([Queued], Spawned, map[], map[]), work, Scene([Queued], Loading(ToRunning), map[], map[]))
  {}

  lemma Loads()
    ensures Goes(Scene([Queued], Loading(ToRunning), map[], map[]), work, Scene([Queued], Saving(ToRunning, Row(Running), Queued), map[], map[]))
  {}

  lemma Saves()
    ensures Goes(Scene([Queued], Saving(ToRunning, Row(Running), Queued), map[], map[]), work, Scene([Queued, Running], Gated, map[], map[]))
  {
    assert [Queued] + [Running] == [Queued, Running];
  }

  lemma Passes()
    ensures Goes(Scene([Queued, Running], Gated, map[], map[]), work, Scene([Queued, Running], Executing, map[], map[]))
  {}

  lemma Executes()
    ensures Goes(Scene([Queued, Running], Executing, map[], map[]), work, Scene([Queued, Running], InCommand, map[], once))
  {}

  lemma Responds()
    ensures Goes(Scene([Queued, Running], InCommand, map[], once), work, Scene([Queued, Running], Responded(true), map[], once))
  {}

  lemma Looks()
    ensures Goes(Scene([Queued, Running], Responded(true), map[], once), work, Scene([Queued, Running], Loading(ToCompleted), map[], once))
  {}

  /** The worker has run its command, seen no cancellation, and is about to complete the task. */
  lemma Succeeds() returns (steps: seq<Step>)
    ensures Reaches(Empty(), steps, Scene([Queued, Running], Loading(ToCompleted), map[], once))
  {
    Starts();
    Spawns();
    Loads();
    Saves();
    Passes();
    Executes();
    Responds();
    Looks();
    hide Goes, Reaches, Scene, Row;
    var end := Scene([Queued, Running], Loading(ToCompleted), map[], once);
    Stays(end);
    First(Scene([Queued, Running], Responded(true), map[], once), work, end, [], end);
    First(Scene([Queued, Running], InCommand, map[], once), work, Scene([Queued, Running], Responded(true), map[], once), [work] + [], end);
    steps := [work] + ([work] + []);
    First(Scene([Queued, Running], Executing, map[], map[]), work, Scene([Queued, Running], InCommand, map[], once), steps, end);
    First(Scene([Queued, Running], Gated, map[], map[]), work, Scene([Queued, Running], Executing, map[], map[]), [work] + steps, end);
    steps := [work] + ([work] + steps);
    var loading, saving := Scene([Queued], Loading(ToRunning), map[], map[]), Scene([Queued], Saving(ToRunning, Row(Running), Queued), map[], map[]);
    First(saving, work, Scene([Queued, Running], Gated, map[], map[]), steps, end);
    First(loading, work, saving, [work] + steps, end);
    First(Scene([Queued], Spawned, map[], map[]), work, loading, [work] + ([work] + steps), end);
    steps := [work] + ([work] + ([work] + steps));
    Joins(Empty(), [Start(1, None, 5, Allow), work, work], Scene([Queued], Spawned, map[], map[]), steps, end);
    steps := [Start(1, None, 5, Allow), work, work] + steps;
  }

  /** A `cancel_task` that comes just then: it has loaded Running. */
  lemma Asks()
    ensures Goes(Scene([Queued, Running], Loading(ToCompleted), map[], once), BeginCancel(0, 1, 9), Scene([Queued, Running], Loading(ToCompleted), calls, once))
    ensures Goes(Scene([Queued, Running], Loading(ToCompleted), calls, once), Cancel(0, 0), Scene([Queued, Running], Loading(ToCompleted), drafted, once))
  {}

  lemma CancelComes() returns (steps: seq<Step>)
    ensures Reaches(Empty(), steps, Scene([Queued, Running], Loading(ToCompleted), drafted, once))
  {
    Asks();
    steps := Succeeds();
    hide Goes, Reaches, Scene, Row;
    var before, asked, read := Scene([Queued, Running], Loading(ToCompleted), map[], once),
      Scene([Queued, Running], Loading(ToCompleted), calls, once), Scene([Queued, Running], Loading(ToCompleted), drafted, once);
    Stays(read);
    First(asked, Cancel(0, 0), read, [], read);
    First(before, BeginCancel(0, 1, 9), asked, [Cancel(0, 0)] + [], read);
    Joins(Empty(), steps, before, [BeginCancel(0, 1, 9)] + ([Cancel(0, 0)] + []), read);
    steps := steps + ([BeginCancel(0, 1, 9)] + ([Cancel(0, 0)] + []));
  }

  lemma Drafts()
    ensures Goes(Scene([Queued, Running], Loading(ToCompleted), drafted, once), work,
                 Scene([Queued, Running], Saving(ToCompleted, Row(Completed), Running), drafted, once))
  {}

  lemma Completes()
    ensures Goes(Scene([Queued, Running], Saving(ToCompleted, Row(Completed), Running), drafted, once), work,
                 Scene([Queued, Running, Completed], CleaningUp, drafted, once))
  {
    assert [Queued, Running] + [Completed] == [Queued, Running, Completed];
  }

  lemma SavesLate()
    ensures var s := Scene([Queued, Running, Completed], CleaningUp, drafted, once);
      && Enabled(s, Cancel(0, 0)) && Overtaken(s, Cancel(0, 0))
      && Apply(s, Cancel(0, 0)) == Scene([Queued, Running, Completed, Cancelling], CleaningUp, saved, once)
  {
    assert [Queued, Running, Completed] + [Cancelling] == [Queued, Running, Completed, Cancelling];
  }

  /** A run whose last step is overtaken: the task was Completed, and is Cancelling again. */
  lemma LateCancelReopens() returns (steps: seq<Step>)
    ensures Runs(Empty(), steps) && steps != [] && Runs(Empty(), steps[..|steps| - 1])
    ensures NoneOvertaken(Empty(), steps[..|steps| - 1]) && StatusOf(After(Empty(), steps[..|steps| - 1]).db, 1) == Completed
    ensures !NoneOvertaken(Empty(), steps) && 1 in After(Empty(), steps).db.history
    ensures After(Empty(), steps).db.history[1] == [Queued, Running, Completed, Cancelling]
  {
    Drafts();
    Completes();
    SavesLate();
    steps := CancelComes();
    hide Goes, Scene, Row, Apply, Enabled, Overtaken;
    var read, saving, done := Scene([Queued, Running], Loading(ToCompleted), drafted, once),
      Scene([Queued, Running], Saving(ToCompleted, Row(Completed), Running), drafted, once), Scene([Queued, Running, Completed], CleaningUp, drafted, once);
    Stays(done);
    First(saving, work, done, [], done);
    First(read, work, saving, [work] + [], done);
    Joins(Empty(), steps, read, [work] + ([work] + []), done);
    var front := steps + ([work] + ([work] + []));
    SceneShows([Queued, Running, Completed], CleaningUp, drafted, once);
    SceneShows([Queued, Running, Completed, Cancelling], CleaningUp, saved, once);
    OneMore(Empty(), front, done, Cancel(0, 0));
    steps := front + [Cancel(0, 0)];
    assert steps[..|steps| - 1] == front;
  }

  lemma SceneShows(history: seq<TaskStatus>, place: Place, calls: map<nat, Canceller>, executions: map<TaskId, nat>)
    requires history != []
    ensures var d := Scene(history, place, calls, executions).db;
      1 in d.tasks && 1 in d.history && StatusOf(d, 1) == history[|history| - 1] && d.history[1] == history
  {}

  lemma {:induction false} OneMore(s: State, steps: seq<Step>, t: State, last: Step)
    requires Reaches(s, steps, t) && Enabled(t, last)
    ensures Runs(s, steps + [last]) && After(s, steps + [last]) == Apply(t, last)
    ensures NoneOvertaken(s, steps + [last]) <==> !Overtaken(t, last)
    decreases |steps|
  {
    hide Apply, Enabled, Overtaken;
    if steps == [] {
      assert steps + [last] == [last] && [last][1..] == [];
    } else {
      OneMore(Apply(s, steps[0]), steps[1..], t, last);
      assert (steps + [last])[1..] == steps[1..] + [last];
    }
  }

  lemma Interrupts()
    ensures Goes(Scene([Queued, Running], Loading(ToCompleted), drafted, once), Cancel(0, 0),
                 Scene([Queued, Running, Cancelling], Loading(ToCompleted), saved, once))
  {
    assert [Queued, Running] + [Cancelling] == [Queued, Running, Cancelling];
  }

  lemma GivesUp()
    ensures Worked(Scene([Queued, Running, Cancelling], Loading(ToCompleted), saved, once), 1, true, 0)
      == Scene([Queued, Running, Cancelling], CleaningUp, saved, once)
  {}

  /** A run in which nothing is overtaken, and whose worker ends with its task still Cancelling. */
  lemma CancelBetweenAbandons() returns (steps: seq<Step>)
    ensures Runs(Empty(), steps) && NoneOvertaken(Empty(), steps)
    ensures var s := After(Empty(), steps);
      && WorkEnabled(s, 1) && Ends(s, 1, true, 0) && Abandons(s, 1)
      && StatusOf(Worked(s, 1, true, 0).db, 1) == Cancelling
  {
    Interrupts();
    GivesUp();
    steps := CancelComes();
    var read, late := Scene([Queued, Running], Loading(ToCompleted), drafted, once), Scene([Queued, Running, Cancelling], Loading(ToCompleted), saved, once);
    assert WorkEnabled(late, 1) && Ends(late, 1, true, 0) && Abandons(late, 1) && StatusOf(Worked(late, 1, true, 0).db, 1) == Cancelling;
    hide Goes, Scene, Row;
    Stays(late);
    First(read, Cancel(0, 0), late, [], late);
    Joins(Empty(), steps, read, [Cancel(0, 0)] + [], late);
    steps := steps + ([Cancel(0, 0)] + []);
  }
}
