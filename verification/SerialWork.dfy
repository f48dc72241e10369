/**
  Work chained on promises: what src/coordinator/coordinator.ts does per board with `registrations` and
  `storeWork`, and src/coordinator/session.ts per session with `queue`. Each new piece of work is put
  behind the promise that is the end of the line at that moment, and the end of the line is forgotten
  once it has settled and nothing was put behind it.

  That is a first-in first-out queue per line, although no queue is kept anywhere.
 */
module SerialWork {

  type TaskId = nat

  datatype Option<T> = None | Some(value: T)

  datatype Phase = Queued | Running | Settled

  // `after` is the promise this one was chained on; none when no work was known for its line.
  datatype Task = Task(line: string, after: Option<TaskId>, phase: Phase)

  class Lines {
    // Every task there ever was, in the order they were asked for.
    var tasks: seq<Task>
    // The end of each line: the promise the next task of that line is chained on.
    var ends: map<string, TaskId>

    ghost predicate Valid()
      reads this
    {
      LinesOk(tasks, ends)
    }

    // A task runs once the one it is chained on has settled.
    predicate CanBegin(id: TaskId)
      reads this
      requires Valid()
    {
      id < |tasks| && Ready(tasks, id)
    }

    constructor ()
      ensures Valid() && tasks == [] && ends == map[]
    {
      tasks, ends := [], map[];
    }

    // The unsettled tasks of a line, oldest first: the queue nobody keeps.
    ghost function Queue(line: string): seq<TaskId>
      reads this
    {
      Unsettled(tasks, line)
    }

    method Enqueue(line: string) returns (id: TaskId)
      requires Valid()
      modifies this
      ensures Valid() && id == old(|tasks|)
      ensures |tasks| == id + 1 && tasks[..id] == old(tasks) && ends == old(ends)[line := id]
      ensures tasks[id] == Task(line, if line in old(ends) then Some(old(ends)[line]) else None, Queued)
      ensures Queue(line) == old(Queue(line)) + [id]
      ensures forall l :: l != line ==> Queue(l) == old(Queue(l))
    {
      id := |tasks|;
      var after := if line in ends then Some(ends[line]) else None;
      EnqueueKeeps(tasks, ends, line);
      forall l { UnsettledAppend(tasks, Task(line, after, Queued), l); }
      tasks := tasks + [Task(line, after, Queued)];
      ends := ends[line := id];
    }

    // Only the oldest unsettled task of a line ever begins.
    method Begin(id: TaskId)
      requires Valid() && CanBegin(id)
      modifies this`tasks
      ensures Valid() && tasks == old(tasks)[id := old(tasks)[id].(phase := Running)]
      ensures Queue(tasks[id].line) != [] && Queue(tasks[id].line)[0] == id
      ensures forall l :: Queue(l) == old(Queue(l))
    {
      BeginKeeps(tasks, ends, id);
      UnsettledFirst(tasks, id);
      forall l { UnsettledUpdate(tasks, id, Running, l); }
      tasks := tasks[id := tasks[id].(phase := Running)];
    }

    // It settles whether it succeeded or failed: what is chained on it cannot see the difference.
    method Settle(id: TaskId)
      requires Valid() && id < |tasks| && tasks[id].phase == Running
      modifies this`tasks
      ensures Valid() && tasks == old(tasks)[id := old(tasks)[id].(phase := Settled)]
      ensures old(Queue(tasks[id].line)) == [id] + Queue(tasks[id].line)
      ensures forall l :: l != tasks[id].line ==> Queue(l) == old(Queue(l))
    {
      SettleKeeps(tasks, ends, id);
      forall l | l != tasks[id].line { UnsettledUpdate(tasks, id, Settled, l); }
      UnsettledRemove(tasks, id);
      tasks := tasks[id := tasks[id].(phase := Settled)];
    }

    // After a task settled, whenever its cleanup happens to run.
    method Forget(id: TaskId)
      requires Valid() && id < |tasks| && tasks[id].phase == Settled
      modifies this`ends
      ensures Valid()
      ensures var line := tasks[id].line;
              ends == if line in old(ends) && old(ends)[line] == id then old(ends) - {line} else old(ends)
      ensures forall l :: Queue(l) == old(Queue(l))
    {
      var line := tasks[id].line;
      if line in ends && ends[line] == id {
        ForgetKeeps(tasks, ends, id);
        ends := ends - {line};
      }
    }
  }

  // ---------------------------------------------------------------- what the chain keeps

  predicate Ready(tasks: seq<Task>, id: TaskId)
    requires id < |tasks| && Chained(tasks, id)
  {
    tasks[id].phase == Queued && (tasks[id].after.Some? ==> tasks[tasks[id].after.value].phase == Settled)
  }

  predicate Chained(tasks: seq<Task>, id: TaskId) {
    id < |tasks| && tasks[id].after.Some? ==>
      tasks[id].after.value < id && tasks[tasks[id].after.value].line == tasks[id].line
  }

  // Behind an unsettled task of its line a task has not begun, and is chained on that one or a later.
  ghost predicate Behind(tasks: seq<Task>, i: TaskId, j: TaskId) {
    i < j < |tasks| && tasks[i].line == tasks[j].line && tasks[i].phase != Settled ==>
      tasks[j].phase == Queued && tasks[j].after.Some? && i <= tasks[j].after.value
  }

  // A task that is not before the end of its line has settled.
  ghost predicate Ended(tasks: seq<Task>, ends: map<string, TaskId>, i: TaskId) {
    i < |tasks| && (tasks[i].line !in ends || ends[tasks[i].line] < i) ==> tasks[i].phase == Settled
  }

  ghost predicate LinesOk(tasks: seq<Task>, ends: map<string, TaskId>) {
    && (forall i: TaskId :: Chained(tasks, i))
    && (forall i: TaskId, j: TaskId :: Behind(tasks, i, j))
    && (forall i: TaskId :: Ended(tasks, ends, i))
    && (forall l :: l in ends ==> ends[l] < |tasks| && tasks[ends[l]].line == l)
  }

  lemma {:induction false} EnqueueKeeps(tasks: seq<Task>, ends: map<string, TaskId>, line: string)
    requires LinesOk(tasks, ends)
    ensures LinesOk(tasks + [Task(line, if line in ends then Some(ends[line]) else None, Queued)], ends[line := |tasks|])
  {
    var longer := tasks + [Task(line, if line in ends then Some(ends[line]) else None, Queued)];
    var later := ends[line := |tasks|];
    forall i: TaskId ensures Chained(longer, i) && Ended(longer, later, i) {
      assert Chained(tasks, i) && Ended(tasks, ends, i);
    }
    forall i: TaskId, j: TaskId ensures Behind(longer, i, j) {
      assert Behind(tasks, i, j) && Ended(tasks, ends, i);
    }
    assert forall l :: l in later ==> later[l] < |longer| && longer[later[l]].line == l;
  }

  // When a task may begin, all before it in its line have settled: were one not, this one would be
  // chained on a task behind that one, which cannot have settled either.
  lemma {:induction false} AllBeforeSettled(tasks: seq<Task>, ends: map<string, TaskId>, id: TaskId, i: TaskId)
    requires LinesOk(tasks, ends) && i < id < |tasks| && tasks[i].line == tasks[id].line
    requires Chained(tasks, id) && (Ready(tasks, id) || tasks[id].phase != Queued)
    ensures tasks[i].phase == Settled
  {
    assert Behind(tasks, i, id);
    if tasks[id].after.Some? {
      assert Behind(tasks, i, tasks[id].after.value);
    }
  }

  lemma {:induction false} BeginKeeps(tasks: seq<Task>, ends: map<string, TaskId>, id: TaskId)
    requires LinesOk(tasks, ends) && id < |tasks| && Chained(tasks, id) && Ready(tasks, id)
    ensures LinesOk(tasks[id := tasks[id].(phase := Running)], ends)
    ensures forall i :: 0 <= i < id && tasks[i].line == tasks[id].line ==> tasks[i].phase == Settled
  {
    var begun := tasks[id := tasks[id].(phase := Running)];
    forall i: TaskId | i < id && tasks[i].line == tasks[id].line ensures tasks[i].phase == Settled {
      AllBeforeSettled(tasks, ends, id, i);
    }
    forall i: TaskId ensures Chained(begun, i) && Ended(begun, ends, i) {
      assert Chained(tasks, i) && Ended(tasks, ends, i);
    }
    forall i: TaskId, j: TaskId ensures Behind(begun, i, j) {
      assert Behind(tasks, i, j);
    }
  }

  lemma {:induction false} SettleKeeps(tasks: seq<Task>, ends: map<string, TaskId>, id: TaskId)
    requires LinesOk(tasks, ends) && id < |tasks| && tasks[id].phase == Running
    ensures LinesOk(tasks[id := tasks[id].(phase := Settled)], ends)
    ensures forall i :: 0 <= i < id && tasks[i].line == tasks[id].line ==> tasks[i].phase == Settled
  {
    var done := tasks[id := tasks[id].(phase := Settled)];
    forall i: TaskId | i < id && tasks[i].line == tasks[id].line ensures tasks[i].phase == Settled {
      assert Behind(tasks, i, id);
    }
    forall i: TaskId ensures Chained(done, i) && Ended(done, ends, i) {
      assert Chained(tasks, i) && Ended(tasks, ends, i);
    }
    forall i: TaskId, j: TaskId ensures Behind(done, i, j) {
      assert Behind(tasks, i, j);
    }
  }

  // Nothing of the line is unsettled once its end has settled, so the end may be forgotten.
  lemma {:induction false} ForgetKeeps(tasks: seq<Task>, ends: map<string, TaskId>, id: TaskId)
    requires LinesOk(tasks, ends) && id < |tasks| && tasks[id].phase == Settled
    requires tasks[id].line in ends && ends[tasks[id].line] == id
    ensures LinesOk(tasks, ends - {tasks[id].line})
  {
    forall i: TaskId ensures Ended(tasks, ends - {tasks[id].line}, i) {
      assert Ended(tasks, ends, i) && Behind(tasks, i, id);
    }
  }

  // At most one task of a line runs at a time: the oldest that has not settled.
  lemma {:induction false} OneAtATime(tasks: seq<Task>, ends: map<string, TaskId>, i: TaskId, j: TaskId)
    requires LinesOk(tasks, ends)
    requires i < |tasks| && j < |tasks| && tasks[i].line == tasks[j].line
    requires tasks[i].phase == Running && tasks[j].phase == Running
    ensures i == j
    ensures Unsettled(tasks, tasks[i].line) != [] && Unsettled(tasks, tasks[i].line)[0] == i
  {
    assert Behind(tasks, i, j) && Behind(tasks, j, i);
    SettleKeeps(tasks, ends, i);
    UnsettledFirst(tasks, i);
  }

  // And a line is never stuck: what has not begun may begin exactly when it is the oldest unsettled.
  lemma {:induction false} ReadyExactlyAtHead(tasks: seq<Task>, ends: map<string, TaskId>, id: TaskId)
    requires LinesOk(tasks, ends) && id < |tasks| && tasks[id].phase == Queued && Chained(tasks, id)
    ensures Ready(tasks, id) <==> Unsettled(tasks, tasks[id].line) != [] && Unsettled(tasks, tasks[id].line)[0] == id
  {
    if Ready(tasks, id) {
      BeginKeeps(tasks, ends, id);
      UnsettledFirst(tasks, id);
    } else {
      var before := tasks[id].after.value;
      UnsettledMember(tasks, tasks[id].line, before);
      UnsettledSorted(tasks, tasks[id].line);
    }
  }

  // ---------------------------------------------------------------- the queue read off the tasks

  ghost function Unsettled(tasks: seq<Task>, line: string): (q: seq<TaskId>)
    ensures forall i :: i in q ==> i < |tasks|
  {
    if tasks == [] then []
    else
      var i := |tasks| - 1;
      Unsettled(tasks[..i], line) + (if tasks[i].line == line && tasks[i].phase != Settled then [i] else [])
  }

  lemma {:induction false} UnsettledAppend(tasks: seq<Task>, t: Task, line: string)
    ensures Unsettled(tasks + [t], line)
            == Unsettled(tasks, line) + (if t.line == line && t.phase != Settled then [|tasks|] else [])
  {
    assert (tasks + [t])[..|tasks|] == tasks;
  }

  lemma {:induction false} UnsettledMember(tasks: seq<Task>, line: string, id: TaskId)
    ensures id in Unsettled(tasks, line) <==> id < |tasks| && tasks[id].line == line && tasks[id].phase != Settled
  {
    if tasks != [] {
      UnsettledMember(tasks[..|tasks| - 1], line, id);
    }
  }

  lemma {:induction false} UnsettledSorted(tasks: seq<Task>, line: string)
    ensures forall x, y :: 0 <= x < y < |Unsettled(tasks, line)| ==> Unsettled(tasks, line)[x] < Unsettled(tasks, line)[y]
  {
    if tasks != [] {
      UnsettledSorted(tasks[..|tasks| - 1], line);
      var q := Unsettled(tasks[..|tasks| - 1], line);
      assert forall x :: 0 <= x < |q| ==> q[x] in q;
    }
  }

  lemma {:induction false} UnsettledFirst(tasks: seq<Task>, id: TaskId)
    requires id < |tasks| && tasks[id].phase != Settled
    requires forall i :: 0 <= i < id && tasks[i].line == tasks[id].line ==> tasks[i].phase == Settled
    ensures Unsettled(tasks, tasks[id].line) != [] && Unsettled(tasks, tasks[id].line)[0] == id
  {
    var q := Unsettled(tasks, tasks[id].line);
    UnsettledMember(tasks, tasks[id].line, id);
    UnsettledSorted(tasks, tasks[id].line);
    UnsettledMember(tasks, tasks[id].line, q[0]);
  }

  lemma {:induction false} UnsettledUpdate(tasks: seq<Task>, id: TaskId, phase: Phase, line: string)
    requires id < |tasks|
    requires tasks[id].line != line || (tasks[id].phase != Settled && phase != Settled)
    ensures Unsettled(tasks[id := tasks[id].(phase := phase)], line) == Unsettled(tasks, line)
  {
    var n, later := |tasks| - 1, tasks[id := tasks[id].(phase := phase)];
    if id < n {
      UnsettledUpdate(tasks[..n], id, phase, line);
      assert later[..n] == tasks[..n][id := tasks[id].(phase := phase)];
    } else {
      assert later[..n] == tasks[..n];
    }
  }

  lemma {:induction false} UnsettledRemove(tasks: seq<Task>, id: TaskId)
    requires id < |tasks| && tasks[id].phase != Settled
    requires forall i :: 0 <= i < id && tasks[i].line == tasks[id].line ==> tasks[i].phase == Settled
    ensures Unsettled(tasks, tasks[id].line) == [id] + Unsettled(tasks[id := tasks[id].(phase := Settled)], tasks[id].line)
  {
    var n, later := |tasks| - 1, tasks[id := tasks[id].(phase := Settled)];
    if id < n {
      UnsettledRemove(tasks[..n], id);
      assert later[..n] == tasks[..n][id := tasks[id].(phase := Settled)];
    } else {
      assert later[..n] == tasks[..n];
      NoneUnsettled(tasks[..n], tasks[id].line);
    }
  }

  lemma {:induction false} NoneUnsettled(tasks: seq<Task>, line: string)
    requires forall i :: 0 <= i < |tasks| && tasks[i].line == line ==> tasks[i].phase == Settled
    ensures Unsettled(tasks, line) == []
  {
    if tasks != [] {
      NoneUnsettled(tasks[..|tasks| - 1], line);
    }
  }
}
