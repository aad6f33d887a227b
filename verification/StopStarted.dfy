/** `Kanban.stop_started`: one Stop carried to every unfinished task a task started, however deep. */
module StopStarted {
  import opened Basics

  /** A task's `created` row: who created it, if a task did. */
  datatype Row = Row(task: nat, creator: Option<nat>)

  /** `reason` is the payload's, whatever the kind; `at` is in seconds. */
  datatype Event = Event(id: nat, kind: string, reason: Option<string>, at: nat)

  /** `run` is the id of the run under way, if there is one. */
  datatype Task = Task(status: string, run: Option<nat>, log: seq<Event>)

  /** One Stop: the reason its blocks carry, and the moment of the click in milliseconds. */
  datatype Stop = Stop(reason: string, stamp: nat)

  predicate Parked(status: string) {
    status in ["blocked", "triage", "done", "archived"]
  }

  /** The event carries this Stop, or a person resumed or finished the task after the click. */
  predicate Settles(e: Event, stop: Stop) {
    e.reason == Some(stop.reason) || (e.kind in ["unblocked", "completed", "archived"] && e.at * 1000 > stop.stamp)
  }

  /** The task is still to be stopped. */
  predicate NeedsStop(t: Task, stop: Stop) {
    !Parked(t.status) && forall k :: 0 <= k < |t.log| ==> !Settles(t.log[k], stop)
  }

  predicate Needs(tasks: map<nat, Task>, id: nat, stop: Stop) {
    id in tasks && NeedsStop(tasks[id], stop)
  }

  function LastId(log: seq<Event>): Option<nat> {
    if log == [] then None else Some(log[|log| - 1].id)
  }

  /** An event as it is appended: the board numbers it. */
  datatype Note = Note(kind: string, reason: Option<string>, at: nat)

  function Appended(log: seq<Event>, note: Note): seq<Event> {
    log + [Event(if log == [] then 0 else log[|log| - 1].id + 1, note.kind, note.reason, note.at)]
  }

  function AppendedAll(log: seq<Event>, notes: seq<Note>, n: nat): seq<Event>
    requires n <= |notes|
  {
    if n == 0 then log else Appended(AppendedAll(log, notes, n - 1), notes[n - 1])
  }

  /** What the dispatcher, a person or anyone else did to a task meanwhile: events, a new status, another run. */
  datatype Others = Others(notes: seq<Note>, status: string, run: Option<nat>)

  function Met(t: Task, others: Option<Others>): Task {
    match others
    case None => t
    case Some(o) => Task(o.status, o.run, AppendedAll(t.log, o.notes, |o.notes|))
  }

  /** The guard of the native block: the last event is still the one looked at, and so is the run of a running task. */
  predicate Holds(looked: Task, now: Task) {
    LastId(looked.log) == LastId(now.log) && (looked.status == "running" && looked.run.Some? ==> looked.run == now.run)
  }

  lemma {:induction false} IdsGrow(log: seq<Event>, notes: seq<Note>, n: nat)
    requires 0 < n <= |notes|
    ensures var last := LastId(AppendedAll(log, notes, n));
            last.Some? && (log != [] ==> last.value > log[|log| - 1].id)
  {
    if n > 1 {
      IdsGrow(log, notes, n - 1);
    }
  }

  const TRIES := 3

  /**
    How core answers: whether one more block of a task counts as a loop, and what others do to a task in each try,
    between its history being read and the task, and then before the block.
   */
  datatype Core =
    Core(loop: nat -> bool, reading: (nat, nat) -> Option<Others>, others: (nat, nat) -> Option<Others>)

  ghost predicate Quiet(core: Core) {
    forall id, k :: core.reading(id, k).None? && core.others(id, k).None?
  }

  /** The task when it is read in try `k`, its history having been read before. */
  function Read(t: Task, core: Core, id: nat, k: nat): Task {
    Met(t, core.reading(id, k))
  }

  /** What the try goes by: the history as it was, the status and the run as they are. */
  function Looked(t: Task, core: Core, id: nat, k: nat): Task {
    Read(t, core, id, k).(log := t.log)
  }

  /** The task when the block comes. */
  function Then(t: Task, core: Core, id: nat, k: nat): Task {
    Met(Read(t, core, id, k), core.others(id, k))
  }

  function NotesOf(others: Option<Others>): seq<Note> {
    if others.Some? then others.value.notes else []
  }

  /** Whoever appends an event before the block makes the guard fail: a block lands only on the history looked at. */
  lemma GuardSeesEvents(t: Task, core: Core, id: nat, k: nat)
    ensures Holds(Looked(t, core, id, k), Then(t, core, id, k)) ==> Then(t, core, id, k).log == t.log
  {
    var first, second := NotesOf(core.reading(id, k)), NotesOf(core.others(id, k));
    var read := AppendedAll(t.log, first, |first|);
    if first != [] {
      IdsGrow(t.log, first, |first|);
    }
    if second != [] {
      IdsGrow(read, second, |second|);
    }
  }

  /** The guard holds exactly when nobody appended an event since the history was read nor changed the run looked at. */
  lemma GuardIs(t: Task, core: Core, id: nat, k: nat)
    ensures Holds(Looked(t, core, id, k), Then(t, core, id, k))
       <==> && NotesOf(core.reading(id, k)) == [] && NotesOf(core.others(id, k)) == []
            && var looked := Read(t, core, id, k);
               looked.status == "running" && looked.run.Some? ==> Then(t, core, id, k).run == looked.run
  {
    var first, second := NotesOf(core.reading(id, k)), NotesOf(core.others(id, k));
    if first != [] {
      IdsGrow(t.log, first, |first|);
    }
    if second != [] {
      IdsGrow(AppendedAll(t.log, first, |first|), second, |second|);
    }
  }

  /** What the native block makes of a task; a block loop goes to triage. */
  function Halted(t: Task, stop: Stop, loop: bool): Task {
    var kind := if loop then "block_loop_detected" else "blocked";
    Task(if loop then "triage" else "blocked", None, Appended(t.log, Note(kind, Some(stop.reason), 0)))
  }

  /** A task after the tries from `k` on: each looks, and blocks if what it looked at still holds. */
  function Tried(t: Task, stop: Stop, core: Core, id: nat, k: nat): Task
    decreases TRIES - k
  {
    if k >= TRIES then t
    else
      var looked, met := Looked(t, core, id, k), Then(t, core, id, k);
      if !NeedsStop(looked, stop) then Read(t, core, id, k)
      else if Holds(looked, met) then Halted(met, stop, core.loop(id))
      else Tried(met, stop, core, id, k + 1)
  }

  /** One of these tries blocked it. */
  predicate Caught(t: Task, stop: Stop, core: Core, id: nat, k: nat)
    decreases TRIES - k
  {
    && k < TRIES
    && var looked, met := Looked(t, core, id, k), Then(t, core, id, k);
       NeedsStop(looked, stop) && (Holds(looked, met) || Caught(met, stop, core, id, k + 1))
  }

  /** In each of these tries others changed what was looked at before the block came, and it still needed the Stop. */
  predicate Outran(t: Task, stop: Stop, core: Core, id: nat, k: nat)
    decreases TRIES - k
  {
    if k >= TRIES then NeedsStop(t, stop)
    else
      var looked, met := Looked(t, core, id, k), Then(t, core, id, k);
      NeedsStop(looked, stop) && !Holds(looked, met) && Outran(met, stop, core, id, k + 1)
  }

  lemma {:induction false} AppendedKeeps(log: seq<Event>, notes: seq<Note>, n: nat)
    requires n <= |notes|
    ensures var out := AppendedAll(log, notes, n); |log| <= |out| && out[..|log|] == log
  {
    if n > 0 {
      AppendedKeeps(log, notes, n - 1);
    }
  }

  /** What settled a task when its history was read settles it when the task is read. */
  lemma ReadSettles(t: Task, stop: Stop, core: Core, id: nat, k: nat)
    requires NeedsStop(Read(t, core, id, k), stop)
    ensures NeedsStop(Looked(t, core, id, k), stop)
  {
    var notes := NotesOf(core.reading(id, k));
    AppendedKeeps(t.log, notes, |notes|);
    assert forall i :: 0 <= i < |t.log| ==> Read(t, core, id, k).log[i] == t.log[i];
  }

  /** A tried task still needs the Stop exactly when others outran every try. */
  lemma {:induction false} TriedNeeds(t: Task, stop: Stop, core: Core, id: nat, k: nat)
    ensures NeedsStop(Tried(t, stop, core, id, k), stop) <==> Outran(t, stop, core, id, k)
    decreases TRIES - k
  {
    if k < TRIES {
      TriedNeeds(Then(t, core, id, k), stop, core, id, k + 1);
      if !NeedsStop(Looked(t, core, id, k), stop) && NeedsStop(Read(t, core, id, k), stop) {
        ReadSettles(t, stop, core, id, k);
      }
    }
  }

  /** Each task was created once. */
  predicate OncePerTask(rows: seq<Row>) {
    forall i, j :: 0 <= i < j < |rows| ==> rows[i].task != rows[j].task
  }

  predicate Started(rows: seq<Row>, creator: nat, task: nat) {
    Row(task, Some(creator)) in rows
  }

  /** `task` is `depth` starts away from `root`. */
  ghost predicate Within(rows: seq<Row>, root: nat, task: nat, depth: nat)
    decreases depth
  {
    if depth == 0 then task == root
    else exists creator :: Within(rows, root, creator, depth - 1) && Started(rows, creator, task)
  }

  /** `root` started `task`, or a task it started did, and so on. */
  ghost predicate Descends(rows: seq<Row>, root: nat, task: nat) {
    exists depth: nat :: depth > 0 && Within(rows, root, task, depth)
  }

  lemma DescendsOn(rows: seq<Row>, root: nat, creator: nat, task: nat)
    requires (creator == root || Descends(rows, root, creator)) && Started(rows, creator, task)
    ensures Descends(rows, root, task)
  {
    if creator == root {
      assert Within(rows, root, root, 0);
      assert Within(rows, root, task, 1);
    } else {
      var depth: nat :| depth > 0 && Within(rows, root, creator, depth);
      assert Within(rows, root, task, depth + 1);
    }
  }

  /** A set with the root in it that every start stays inside holds every descendant. */
  lemma {:induction false} ClosedHolds(rows: seq<Row>, root: nat, seen: set<nat>, task: nat, depth: nat)
    requires root in seen && forall c, t :: c in seen && Started(rows, c, t) ==> t in seen
    requires Within(rows, root, task, depth)
    ensures task in seen
    decreases depth
  {
    if depth > 0 {
      var creator :| Within(rows, root, creator, depth - 1) && Started(rows, creator, task);
      ClosedHolds(rows, root, seen, creator, depth - 1);
    }
  }

  // ----- what the whole Stop does -----

  /** The tasks after each of the first `n` visited ones was tried if it needed to be stopped. */
  function Stopped(tasks: map<nat, Task>, core: Core, visited: seq<nat>, n: nat, stop: Stop): map<nat, Task>
    requires n <= |visited|
  {
    if n == 0 then tasks
    else
      var before, id := Stopped(tasks, core, visited, n - 1, stop), visited[n - 1];
      if id in before then before[id := Tried(before[id], stop, core, id, 0)] else before
  }

  predicate Stops(tasks: map<nat, Task>, core: Core, id: nat, stop: Stop) {
    id in tasks && Caught(tasks[id], stop, core, id, 0)
  }

  /** Which of them were stopped, in the order they were visited. */
  function Reported(tasks: map<nat, Task>, core: Core, visited: seq<nat>, n: nat, stop: Stop): seq<nat>
    requires n <= |visited|
  {
    if n == 0 then []
    else
      Reported(tasks, core, visited, n - 1, stop)
      + if Stops(tasks, core, visited[n - 1], stop) then [visited[n - 1]] else []
  }

  ghost predicate Distinct(s: seq<nat>) {
    forall i, j :: 0 <= i < j < |s| ==> s[i] != s[j]
  }

  /** A task is touched only by its own visit. */
  lemma {:induction false} StoppedAt(tasks: map<nat, Task>, core: Core, visited: seq<nat>, n: nat, stop: Stop, id: nat)
    requires n <= |visited| && Distinct(visited)
    ensures var after := Stopped(tasks, core, visited, n, stop);
            && (id in after <==> id in tasks)
            && (id in tasks ==>
                  after[id] == if id in visited[..n] then Tried(tasks[id], stop, core, id, 0) else tasks[id])
  {
    if n > 0 {
      StoppedAt(tasks, core, visited, n - 1, stop, id);
      StoppedAt(tasks, core, visited, n - 1, stop, visited[n - 1]);
      assert visited[..n] == visited[..n - 1] + [visited[n - 1]];
    }
  }

  /**
    A visited task is blocked, in triage, finished, already stopped or superseded in the end, unless it needed the Stop
    at each of the three looks and in the end, and others changed its history or its run before each of the blocks.
   */
  lemma LeftToStop(tasks: map<nat, Task>, core: Core, visited: seq<nat>, stop: Stop, id: nat)
    requires Distinct(visited) && id in visited
    ensures Needs(Stopped(tasks, core, visited, |visited|, stop), id, stop)
       <==> id in tasks && Outran(tasks[id], stop, core, id, 0)
  {
    assert visited[..|visited|] == visited;
    StoppedAt(tasks, core, visited, |visited|, stop, id);
    if id in tasks {
      TriedNeeds(tasks[id], stop, core, id, 0);
    }
  }

  /**
    Run again, in any order, over tasks nobody outran in the first run, and with nobody coming in now, the Stop stops
    nothing and changes nothing.
   */
  lemma {:induction false} SecondRunStopsNothing(
      tasks: map<nat, Task>, core: Core, visited: seq<nat>, again: Core, second: seq<nat>, stop: Stop, n: nat)
    requires Distinct(visited) && n <= |second| && (forall id :: id in second ==> id in visited) && Quiet(again)
    requires forall id :: id in second && id in tasks ==> !Outran(tasks[id], stop, core, id, 0)
    ensures var after := Stopped(tasks, core, visited, |visited|, stop);
            Stopped(after, again, second, n, stop) == after && Reported(after, again, second, n, stop) == []
  {
    if n > 0 {
      SecondRunStopsNothing(tasks, core, visited, again, second, stop, n - 1);
      var after, id := Stopped(tasks, core, visited, |visited|, stop), second[n - 1];
      LeftToStop(tasks, core, visited, stop, id);
      StoppedAt(tasks, core, visited, |visited|, stop, id);
      hide Outran;
      if id in after {
        QuietTry(after[id], stop, again, id);
      }
    }
  }

  lemma QuietTry(t: Task, stop: Stop, core: Core, id: nat)
    requires Quiet(core) && !NeedsStop(t, stop)
    ensures Tried(t, stop, core, id, 0) == t && !Caught(t, stop, core, id, 0)
  {
    assert core.reading(id, 0).None? && core.others(id, 0).None?;
  }

  /** The history carries this Stop. */
  ghost predicate Carried(t: Task, stop: Stop) {
    exists i :: 0 <= i < |t.log| && t.log[i].reason == Some(stop.reason)
  }

  lemma {:induction false} CaughtCarries(t: Task, stop: Stop, core: Core, id: nat, k: nat)
    requires Caught(t, stop, core, id, k)
    ensures Carried(Tried(t, stop, core, id, k), stop)
    decreases TRIES - k
  {
    var met := Then(t, core, id, k);
    if Holds(Looked(t, core, id, k), met) {
      var log := Halted(met, stop, core.loop(id)).log;
      assert log[|log| - 1].reason == Some(stop.reason);
    } else {
      CaughtCarries(met, stop, core, id, k + 1);
    }
  }

  /** A task one run stopped is not stopped by another, whatever others do meanwhile. */
  lemma StoppedOnce(tasks: map<nat, Task>, core: Core, visited: seq<nat>, again: Core, stop: Stop, id: nat)
    requires Distinct(visited) && id in visited && Stops(tasks, core, id, stop)
    ensures !Stops(Stopped(tasks, core, visited, |visited|, stop), again, id, stop)
  {
    assert visited[..|visited|] == visited;
    StoppedAt(tasks, core, visited, |visited|, stop, id);
    CaughtCarries(tasks[id], stop, core, id, 0);
    var t := Stopped(tasks, core, visited, |visited|, stop)[id];
    var i :| 0 <= i < |t.log| && t.log[i].reason == Some(stop.reason);
    assert Settles(Looked(t, again, id, 0).log[i], stop);
  }

  /** The task is not parked, and no event carries this Stop or is a person's resuming or finishing after the click. */
  ghost predicate Untouched(status: string, log: seq<Event>, stop: Stop) {
    && status != "blocked" && status != "triage" && status != "done" && status != "archived"
    && forall e :: e in log ==>
         && e.reason != Some(stop.reason)
         && ((e.kind == "unblocked" || e.kind == "completed" || e.kind == "archived") ==> e.at * 1000 <= stop.stamp)
  }

  lemma UntouchedIs(t: Task, stop: Stop)
    ensures NeedsStop(t, stop) <==> Untouched(t.status, t.log, stop)
  {
    if NeedsStop(t, stop) {
      forall e | e in t.log
        ensures && e.reason != Some(stop.reason)
                && ((e.kind == "unblocked" || e.kind == "completed" || e.kind == "archived") ==>
                      e.at * 1000 <= stop.stamp)
      {
        var k :| 0 <= k < |t.log| && t.log[k] == e;
        assert !Settles(t.log[k], stop);
      }
    }
    if Untouched(t.status, t.log, stop) {
      forall k | 0 <= k < |t.log| ensures !Settles(t.log[k], stop) {
        assert t.log[k] in t.log;
      }
    }
  }

  /** With nobody else coming in, the Stop blocks every untouched task it visits, once, and leaves the others alone. */
  lemma QuietStop(tasks: map<nat, Task>, core: Core, visited: seq<nat>, stop: Stop, id: nat)
    requires Quiet(core) && Distinct(visited) && id in tasks
    ensures var t, after := tasks[id], Stopped(tasks, core, visited, |visited|, stop);
            && id in after
            && (Stops(tasks, core, id, stop) <==> Untouched(t.status, t.log, stop))
            && (if id in visited && Untouched(t.status, t.log, stop) then
                  && after[id].status == (if core.loop(id) then "triage" else "blocked") && after[id].run.None?
                  && |after[id].log| == |t.log| + 1 && after[id].log[..|t.log|] == t.log
                  && after[id].log[|t.log|].reason == Some(stop.reason)
                  && after[id].log[|t.log|].kind == (if core.loop(id) then "block_loop_detected" else "blocked")
                else after[id] == t)
  {
    StoppedAt(tasks, core, visited, |visited|, stop, id);
    assert visited[..|visited|] == visited;
    UntouchedIs(tasks[id], stop);
    hide NeedsStop, Untouched;
    assert core.reading(id, 0).None? && core.others(id, 0).None?;
    assert Looked(tasks[id], core, id, 0) == tasks[id];
  }

  /**
    Whatever others do meanwhile, a task that was stopped was untouched up to the very block: its history ends with the
    Stop, and nothing before that is this Stop or a person's resuming or finishing after the click.
   */
  lemma {:induction false} StoppedUntouched(t: Task, stop: Stop, core: Core, id: nat, k: nat)
    requires Caught(t, stop, core, id, k)
    ensures var out := Tried(t, stop, core, id, k);
            && out.log != [] && out.log[|out.log| - 1].reason == Some(stop.reason)
            && (out.status == "blocked" || out.status == "triage") && out.run.None?
            && Untouched("", out.log[..|out.log| - 1], stop)
    decreases TRIES - k
  {
    var looked, met := Looked(t, core, id, k), Then(t, core, id, k);
    if Holds(looked, met) {
      GuardSeesEvents(t, core, id, k);
      UntouchedIs(looked, stop);
      var out := Halted(met, stop, core.loop(id));
      assert out.log[..|out.log| - 1] == t.log;
    } else {
      StoppedUntouched(met, stop, core, id, k + 1);
    }
  }

  /** The task before try `k`, if none of the earlier ones blocked it or gave up. */
  function BeforeTry(t: Task, core: Core, id: nat, k: nat): Task {
    if k == 0 then t else Then(BeforeTry(t, core, id, k - 1), core, id, k - 1)
  }

  /** The look of try `k` finds the task untouched. */
  ghost predicate Looks(t: Task, stop: Stop, core: Core, id: nat, k: nat) {
    NeedsStop(Looked(BeforeTry(t, core, id, k), core, id, k), stop)
  }

  ghost predicate Lands(t: Task, core: Core, id: nat, k: nat) {
    Holds(Looked(BeforeTry(t, core, id, k), core, id, k), Then(BeforeTry(t, core, id, k), core, id, k))
  }

  /** A task is stopped exactly when it is untouched at every look up to one of the first three that holds. */
  lemma CaughtIs(t: Task, stop: Stop, core: Core, id: nat)
    ensures Caught(t, stop, core, id, 0)
       <==> exists k :: && 0 <= k < 3 && Lands(t, core, id, k)
                        && (forall j :: 0 <= j <= k ==> Looks(t, stop, core, id, j))
  {
    hide NeedsStop, Holds, Looked, Then;
    CaughtFrom(t, stop, core, id, 2);
    CaughtFrom(t, stop, core, id, 1);
    CaughtFrom(t, stop, core, id, 0);
    hide Looks, Lands, Caught;
    assert Caught(BeforeTry(t, core, id, 0), stop, core, id, 0) == Caught(t, stop, core, id, 0);
    if Caught(t, stop, core, id, 0) {
      var k := if Lands(t, core, id, 0) then 0 else if Lands(t, core, id, 1) then 1 else 2;
      assert Lands(t, core, id, k) && forall j :: 0 <= j <= k ==> Looks(t, stop, core, id, j);
    }
  }

  lemma CaughtFrom(t: Task, stop: Stop, core: Core, id: nat, k: nat)
    requires k < 3
    ensures Caught(BeforeTry(t, core, id, k), stop, core, id, k)
       <==> && Looks(t, stop, core, id, k)
            && (Lands(t, core, id, k) || (k < 2 && Caught(BeforeTry(t, core, id, k + 1), stop, core, id, k + 1)))
  {
    hide NeedsStop, Holds, Looked, Then;
  }

  /** The tasks visited: every descendant of `root` but itself, each once. */
  ghost predicate Visits(rows: seq<Row>, root: nat, visited: seq<nat>) {
    Distinct(visited) && forall t :: t in visited <==> t != root && Descends(rows, root, t)
  }

  // ----- the board -----

  class Board {
    const rows: seq<Row>
    const core: Core
    var tasks: map<nat, Task>

    constructor (rows: seq<Row>, core: Core, tasks: map<nat, Task>)
      ensures this.rows == rows && this.core == core && this.tasks == tasks
    {
      this.rows, this.core, this.tasks := rows, core, tasks;
    }

    /** The native guarded block: it appends exactly when what was looked at still holds. */
    method BlockTask(id: nat, stop: Stop, run: Option<nat>, expected: Option<nat>) returns (ok: bool)
      requires id in tasks
      modifies `tasks
      ensures ok == (expected == LastId(old(tasks)[id].log) && (run.Some? ==> run == old(tasks)[id].run))
      ensures tasks == if ok then old(tasks)[id := Halted(old(tasks)[id], stop, core.loop(id))] else old(tasks)
    {
      ok := expected == LastId(tasks[id].log) && (run.Some? ==> run == tasks[id].run);
      if ok {
        tasks := tasks[id := Halted(tasks[id], stop, core.loop(id))];
      }
    }

    /** The tasks `creator` started that were not seen yet, in the order of their rows. */
    method Children(creator: nat, seen: set<nat>) returns (children: seq<nat>)
      requires OncePerTask(rows)
      ensures Distinct(children)
      ensures forall t :: t in children <==> Started(rows, creator, t) && t !in seen
    {
      children := [];
      for i := 0 to |rows|
        invariant Distinct(children)
        invariant forall t :: t in children <==> Row(t, Some(creator)) in rows[..i] && t !in seen
      {
        if rows[i].creator == Some(creator) && rows[i].task !in seen {
          children := children + [rows[i].task];
        }
        assert rows[..i + 1] == rows[..i] + [rows[i]];
      }
      assert rows[..|rows|] == rows;
    }

    /** One task, tried up to three times: others may come in after each read. */
    method StopOne(child: nat, stop: Stop) returns (did: bool)
      modifies `tasks
      ensures did == Stops(old(tasks), core, child, stop)
      ensures tasks == if child in old(tasks)
                       then old(tasks)[child := Tried(old(tasks)[child], stop, core, child, 0)] else old(tasks)
    {
      hide Met;
      hide Halted;
      if child !in tasks {
        return false;
      }
      var k := 0;
      while k < TRIES
        invariant k <= TRIES && child in tasks && tasks == old(tasks)[child := tasks[child]]
        invariant Tried(tasks[child], stop, core, child, k) == Tried(old(tasks)[child], stop, core, child, 0)
        invariant Caught(tasks[child], stop, core, child, k) == Caught(old(tasks)[child], stop, core, child, 0)
      {
        var events := tasks[child].log;
        tasks := tasks[child := Met(tasks[child], core.reading(child, k))];
        var task := tasks[child];
        if !NeedsStop(task.(log := events), stop) {
          return false;
        }
        tasks := tasks[child := Met(task, core.others(child, k))];
        var ok := BlockTask(child, stop, if task.status == "running" then task.run else None, LastId(events));
        if ok {
          return true;
        }
        k := k + 1;
      }
      return false;
    }

    /**
      The Stop of `root` carried on: every descendant is looked at once, however the starts loop, and stopped if it
      still needed to be.
     */
    method StopStarted(root: nat, stop: Stop) returns (stopped: seq<nat>, ghost visited: seq<nat>)
      requires OncePerTask(rows)
      modifies `tasks
      ensures Visits(rows, root, visited)
      ensures tasks == Stopped(old(tasks), core, visited, |visited|, stop)
      ensures stopped == Reported(old(tasks), core, visited, |visited|, stop)
    {
      hide Found;
      hide Queued;
      hide ClosedBut;
      hide Distinct;
      hide Needs;
      hide Visits;
      hide Started;
      hide Unseen;
      hide Tried;
      hide Stops;
      hide OncePerTask;
      stopped, visited := [], [];
      var seen, pending := {root}, [root];
      ghost var done: set<nat>, nobody: seq<nat> := {}, [];
      ghost var was := tasks;
      Begun(rows, root);
      while pending != []
        invariant Found(rows, root, seen, visited) && Queued(seen, done, pending) && ClosedBut(rows, done, seen, [])
        invariant tasks == Stopped(was, core, visited, |visited|, stop)
        invariant stopped == Reported(was, core, visited, |visited|, stop)
        decreases Unseen(rows, seen), |pending|
      {
        var creator := pending[0];
        ghost var were, left := pending, Unseen(rows, seen);
        pending := pending[1..];
        var children := Children(creator, seen);
        Popped(rows, seen, done, were, children);
        done := done + {creator};
        var i := 0;
        while i < |children|
          invariant i <= |children|
          invariant Found(rows, root, seen, visited) && Queued(seen, done, pending)
          invariant ClosedBut(rows, done, seen, children[i..])
          invariant forall t :: t in children[i..] ==> t !in seen
          invariant Unseen(rows, seen) <= left
          invariant (i > 0 ==> Unseen(rows, seen) < left) && (i == 0 ==> |pending| < |were|)
          invariant creator in seen
          invariant tasks == Stopped(was, core, visited, |visited|, stop)
          invariant stopped == Reported(was, core, visited, |visited|, stop)
        {
          var child := children[i];
          OneMore(rows, root, seen, visited, creator, children, i);
          NextTask(was, core, visited, child, stop);
          Pushed(rows, seen, done, pending, children, i);
          seen := seen + {child};
          pending := pending + [child];
          var did := StopOne(child, stop);
          if did {
            stopped := stopped + [child];
          }
          visited := visited + [child];
          i := i + 1;
        }
        assert children[i..] == [];
      }
      AllFound(rows, root, seen, visited, done);
    }
  }

  // ----- the worklist -----

  /** Everything seen is the root or a visited descendant of it, visited once. */
  ghost predicate Found(rows: seq<Row>, root: nat, seen: set<nat>, visited: seq<nat>) {
    && Distinct(visited) && root !in visited
    && (forall t :: t in seen <==> t == root || t in visited)
    && forall t :: t in visited ==> Descends(rows, root, t)
  }

  /** How many created tasks were not seen. */
  ghost function Unseen(rows: seq<Row>, seen: set<nat>): nat {
    |(set r | r in rows :: r.task) - seen|
  }

  /** Everything seen is done or waits. */
  ghost predicate Queued(seen: set<nat>, done: set<nat>, pending: seq<nat>) {
    forall t :: t in seen <==> t in done || t in pending
  }

  /** What a done task started was seen, or is one of `left`. */
  ghost predicate ClosedBut(rows: seq<Row>, done: set<nat>, seen: set<nat>, left: seq<nat>) {
    forall c, t :: c in done && Started(rows, c, t) ==> t in seen || t in left
  }

  lemma Begun(rows: seq<Row>, root: nat)
    ensures Found(rows, root, {root}, []) && Queued({root}, {}, [root]) && ClosedBut(rows, {}, {root}, [])
  {
  }

  lemma Popped(rows: seq<Row>, seen: set<nat>, done: set<nat>, pending: seq<nat>, children: seq<nat>)
    requires Queued(seen, done, pending) && pending != [] && ClosedBut(rows, done, seen, [])
    requires forall t :: t in children <==> Started(rows, pending[0], t) && t !in seen
    ensures Queued(seen, done + {pending[0]}, pending[1..]) && pending[0] in seen
    ensures ClosedBut(rows, done + {pending[0]}, seen, children)
  {
    assert pending == [pending[0]] + pending[1..];
  }

  lemma Pushed(rows: seq<Row>, seen: set<nat>, done: set<nat>, pending: seq<nat>, children: seq<nat>, i: nat)
    requires i < |children| && Queued(seen, done, pending) && ClosedBut(rows, done, seen, children[i..])
    ensures Queued(seen + {children[i]}, done, pending + [children[i]])
    ensures ClosedBut(rows, done, seen + {children[i]}, children[i + 1..])
  {
    assert children[i..] == [children[i]] + children[i + 1..];
  }

  lemma OneMore(
      rows: seq<Row>, root: nat, seen: set<nat>, visited: seq<nat>, creator: nat, children: seq<nat>, i: nat)
    requires i < |children| && Distinct(children) && Found(rows, root, seen, visited) && creator in seen
    requires Started(rows, creator, children[i])
    requires forall t :: t in children[i..] ==> t !in seen
    ensures Distinct(visited) && children[i] !in visited
    ensures Found(rows, root, seen + {children[i]}, visited + [children[i]])
    ensures forall t :: t in children[i + 1..] ==> t !in seen + {children[i]}
    ensures Unseen(rows, seen + {children[i]}) < Unseen(rows, seen)
  {
    var child := children[i];
    assert child in children[i..];
    DescendsOn(rows, root, creator, child);
    var all := set r | r in rows :: r.task;
    assert Row(child, Some(creator)).task in all;
    assert child in all - seen && child !in all - (seen + {child});
    Smaller(all - (seen + {child}), all - seen);
    forall t | t in children[i + 1..] ensures t != child && t !in seen {
      var k :| i + 1 <= k < |children| && children[k] == t;
      assert children[i..][k - i] == t;
    }
  }

  /** A task not visited yet still is what it was. */
  lemma NextTask(tasks: map<nat, Task>, core: Core, visited: seq<nat>, child: nat, stop: Stop)
    requires Distinct(visited) && child !in visited
    ensures var now := Stopped(tasks, core, visited, |visited|, stop);
            && Stopped(tasks, core, visited + [child], |visited| + 1, stop)
               == (if child in now then now[child := Tried(now[child], stop, core, child, 0)] else now)
            && Reported(tasks, core, visited + [child], |visited| + 1, stop)
               == Reported(tasks, core, visited, |visited|, stop)
                  + (if Stops(now, core, child, stop) then [child] else [])
  {
    StoppedAt(tasks, core, visited, |visited|, stop, child);
    assert visited[..|visited|] == visited;
    SameSoFar(tasks, core, visited, [child], |visited|, stop);
  }

  lemma {:induction false} SameSoFar(
      tasks: map<nat, Task>, core: Core, visited: seq<nat>, more: seq<nat>, n: nat, stop: Stop)
    requires n <= |visited|
    ensures Stopped(tasks, core, visited + more, n, stop) == Stopped(tasks, core, visited, n, stop)
    ensures Reported(tasks, core, visited + more, n, stop) == Reported(tasks, core, visited, n, stop)
  {
    if n > 0 {
      SameSoFar(tasks, core, visited, more, n - 1, stop);
    }
  }

  lemma Smaller(a: set<nat>, b: set<nat>)
    ensures a < b ==> |a| < |b|
    ensures a <= b ==> |a| <= |b|
  {
    if a <= b {
      assert b == a + (b - a) && a !! (b - a);
    }
  }

  lemma AllFound(rows: seq<Row>, root: nat, seen: set<nat>, visited: seq<nat>, done: set<nat>)
    requires Found(rows, root, seen, visited) && Queued(seen, done, []) && ClosedBut(rows, done, seen, [])
    ensures Visits(rows, root, visited)
  {
    forall t | t != root && Descends(rows, root, t) ensures t in visited {
      var depth: nat :| depth > 0 && Within(rows, root, t, depth);
      ClosedHolds(rows, root, seen, t, depth);
    }
  }
}
