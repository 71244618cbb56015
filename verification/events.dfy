/** Engine events and the default handler's task counter. */
module Events {
  import opened Results

  /** An engine event; only its `stdout` entry matters to the wrapper. */
  datatype Event = Event(stdout: Option<string>)

  /** `event.get("stdout", "")`. */
  function Stdout(e: Event): string {
    match e.stdout
    case Some(line) => line
    case None => ""
  }

  /** The event's output line begins with the four characters T, A, S, K. */
  predicate IsTaskEvent(e: Event) {
    |Stdout(e)| >= 4 && Stdout(e)[..4] == "TASK"
  }

  /** What the default handler leaves behind: the new counter and its
      (advisory) return value. */
  datatype HandlerResult = HandlerResult(tasksProcessed: nat, keepGoing: bool)

  /** The default event handler: count the event when its output starts with
      "TASK"; always answer true. */
  function DefaultHandler(tasksProcessed: nat, e: Event): (r: HandlerResult)
    ensures r.keepGoing
    ensures "TASK" <= Stdout(e) ==> r.tasksProcessed == tasksProcessed + 1
    ensures !("TASK" <= Stdout(e)) ==> r.tasksProcessed == tasksProcessed
  {
    if IsTaskEvent(e) then HandlerResult(tasksProcessed + 1, true)
    else HandlerResult(tasksProcessed, true)
  }

  /** The number of task events in a stream. */
  function CountTasks(evs: seq<Event>): nat
    decreases |evs|
  {
    if evs == [] then 0
    else CountTasks(evs[..|evs| - 1]) + (if IsTaskEvent(evs[|evs| - 1]) then 1 else 0)
  }

  /** The positions of task events in a stream. */
  function TaskPositions(evs: seq<Event>): set<int> {
    set i | 0 <= i < |evs| && IsTaskEvent(evs[i])
  }

  /** Extending a stream by one event adds that event's position exactly when
      it is a task event. */
  lemma TaskPositionsSnoc(evs: seq<Event>)
    requires evs != []
    ensures TaskPositions(evs)
         == TaskPositions(evs[..|evs| - 1]) + if IsTaskEvent(evs[|evs| - 1]) then {|evs| - 1} else {}
  {
    var n := |evs| - 1;
    var front := evs[..n];
    forall i | 0 <= i < n
      ensures i in TaskPositions(evs) <==> i in TaskPositions(front)
    {
      assert front[i] == evs[i];
    }
  }

  /** A stream holding exactly K task events counts K. */
  lemma {:induction false} CountTasksIsTaskPositions(evs: seq<Event>)
    ensures CountTasks(evs) == |TaskPositions(evs)|
    decreases |evs|
  {
    if evs != [] {
      var n := |evs| - 1;
      CountTasksIsTaskPositions(evs[..n]);
      TaskPositionsSnoc(evs);
      assert n !in TaskPositions(evs[..n]);
    }
  }

  /** Counting distributes over concatenation. */
  lemma {:induction false} CountTasksAppend(a: seq<Event>, b: seq<Event>)
    ensures CountTasks(a + b) == CountTasks(a) + CountTasks(b)
    decreases |b|
  {
    if b == [] {
      assert a + b == a;
    } else {
      var n := |b| - 1;
      assert (a + b)[..|a + b| - 1] == a + b[..n];
      CountTasksAppend(a, b[..n]);
    }
  }

  /** The engine calling the default handler on each event in arrival order:
      the counter grows by the stream's task count and every call answers true. */
  method DeliverEvents(tasksProcessed: nat, evs: seq<Event>) returns (total: nat, answers: seq<bool>)
    ensures total == tasksProcessed + CountTasks(evs)
    ensures total <= tasksProcessed + |evs|
    ensures |answers| == |evs|
    ensures forall i :: 0 <= i < |answers| ==> answers[i]
  {
    total := tasksProcessed;
    answers := [];
    var i := 0;
    while i < |evs|
      invariant 0 <= i <= |evs|
      invariant total == tasksProcessed + CountTasks(evs[..i])
      invariant total <= tasksProcessed + i
      invariant |answers| == i
      invariant forall j :: 0 <= j < i ==> answers[j]
    {
      var r := DefaultHandler(total, evs[i]);
      assert evs[..i + 1][..i] == evs[..i];
      total := r.tasksProcessed;
      answers := answers + [r.keepGoing];
      i := i + 1;
    }
    assert evs[..i] == evs;
  }

  /** The task count over a history of runs, one event stream per run. */
  function TotalTasks(history: seq<seq<Event>>): nat
    decreases |history|
  {
    if history == [] then 0
    else TotalTasks(history[..|history| - 1]) + CountTasks(history[|history| - 1])
  }

  /** The task count of a history is the sum over its two halves. */
  lemma {:induction false} TotalTasksAppend(a: seq<seq<Event>>, b: seq<seq<Event>>)
    ensures TotalTasks(a + b) == TotalTasks(a) + TotalTasks(b)
    decreases |b|
  {
    if b == [] {
      assert a + b == a;
    } else {
      var n := |b| - 1;
      assert (a + b)[..|a + b| - 1] == a + b[..n];
      TotalTasksAppend(a, b[..n]);
    }
  }

  /** A history of one run counts that run's tasks. */
  lemma TotalTasksSingle(evs: seq<Event>)
    ensures TotalTasks([evs]) == CountTasks(evs)
  {
    assert [evs][..0] == [];
  }
}
