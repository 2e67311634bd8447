/**
 * The two stores side by side. A todolist's creation and deletion are one
 * event each, handled by both stores: the todolist store edits its sequence
 * and the task store creates or drops the list's bucket.
 */
module AppStore {
  import opened Wrappers
  import opened Scan
  import opened TaskTypes
  import opened TodolistsSlice
  import opened TasksSlice

  /** The ids of the local todolists. */
  ghost function ListIds(ls: seq<DomainTodolist>): set<string> {
    set i | 0 <= i < |ls| :: ls[i].id
  }

  /** No two local todolists share an id. */
  ghost predicate DistinctIds(ls: seq<DomainTodolist>) {
    forall i, j :: 0 <= i < j < |ls| ==> ls[i].id != ls[j].id
  }

  /** The two stores agree: exactly one bucket per known todolist. */
  ghost predicate InLockstep(ls: seq<DomainTodolist>, ts: TasksState) {
    DistinctIds(ls) && ts.Keys == ListIds(ls)
  }

  /** A created todolist with a fresh id keeps the stores in lockstep. */
  lemma CreatePreservesLockstep(ls: seq<DomainTodolist>, ts: TasksState, tl: Todolist)
    requires InLockstep(ls, ts) && tl.id !in ListIds(ls)
    ensures InLockstep(Created(ls, tl), TodolistAdded(ts, tl.id))
  {
    var after := Created(ls, tl);
    assert forall i :: 1 <= i < |after| ==> after[i] == ls[i - 1];
    forall x | x in ListIds(after) ensures x in {tl.id} + ListIds(ls) {
      var i :| 0 <= i < |after| && after[i].id == x;
      if i > 0 {
        assert ls[i - 1].id == x;
      }
    }
    forall x | x in ListIds(ls) ensures x in ListIds(after) {
      var i :| 0 <= i < |ls| && ls[i].id == x;
      assert after[i + 1].id == x;
    }
    assert after[0].id == tl.id;
    forall i, j | 0 <= i < j < |after| ensures after[i].id != after[j].id {
      assert after[j].id == ls[j - 1].id;
      if i == 0 {
        assert ls[j - 1].id in ListIds(ls);
      }
    }
  }

  /** Taking out the list at `k` removes exactly its id and keeps the others distinct. */
  lemma SpliceRemovesOneId(ls: seq<DomainTodolist>, k: nat)
    requires DistinctIds(ls) && k < |ls|
    ensures DistinctIds(ls[..k] + ls[k + 1..])
    ensures ListIds(ls[..k] + ls[k + 1..]) == ListIds(ls) - {ls[k].id}
  {
    var after := ls[..k] + ls[k + 1..];
    assert forall i :: 0 <= i < |after| ==> after[i] == ls[if i < k then i else i + 1];
    forall x | x in ListIds(after) ensures x in ListIds(ls) - {ls[k].id} {
      var i :| 0 <= i < |after| && after[i].id == x;
      var i' := if i < k then i else i + 1;
      assert ls[i'].id == x;
    }
    forall x | x in ListIds(ls) - {ls[k].id} ensures x in ListIds(after) {
      var i :| 0 <= i < |ls| && ls[i].id == x;
      var i' := if i < k then i else i - 1;
      assert after[i'].id == x;
    }
  }

  /** A deleted todolist takes its bucket with it, keeping the stores in lockstep. */
  lemma DeletePreservesLockstep(ls: seq<DomainTodolist>, ts: TasksState, id: string)
    requires InLockstep(ls, ts)
    ensures InLockstep(Deleted(ls, id), TodolistRemoved(ts, id))
  {
    var k := IndexOf(ls, ListId, id);
    if k == -1 {
      IndexOfIsFirst(ls, ListId, id);
      assert forall j :: 0 <= j < |ls| ==> ls[j].id != id;
    } else {
      assert ls[k].id == id;
      SpliceRemovesOneId(ls, k);
    }
  }

  /** Renaming a list or changing its filter never touches an id, so the stores stay in lockstep. */
  lemma RenameAndFilterKeepLockstep(ls: seq<DomainTodolist>, ts: TasksState, id: string, title: string, filter: FilterValues)
    requires InLockstep(ls, ts)
    ensures InLockstep(Renamed(ls, id, title), ts)
    ensures InLockstep(Filtered(ls, id, filter), ts)
  {
    SameIdsSameSet(ls, Renamed(ls, id, title));
    var filtered := Filtered(ls, id, filter);
    assert forall i :: 0 <= i < |ls| ==> filtered[i].id == Strip(filtered[i]).id == Strip(ls[i]).id;
    SameIdsSameSet(ls, filtered);
  }

  /** Two sequences with the same ids position by position have the same id set and distinctness. */
  lemma SameIdsSameSet(ls: seq<DomainTodolist>, other: seq<DomainTodolist>)
    requires |ls| == |other|
    requires forall i :: 0 <= i < |ls| ==> other[i].id == ls[i].id
    ensures ListIds(other) == ListIds(ls)
    ensures DistinctIds(other) == DistinctIds(ls)
  {
    forall x | x in ListIds(ls) ensures x in ListIds(other) {
      var i :| 0 <= i < |ls| && ls[i].id == x;
      assert other[i].id == x;
    }
  }

  /**
   * Fetching todolists creates no buckets: from two empty stores, one
   * fetched list already leaves the stores out of lockstep until its tasks
   * are fetched.
   */
  lemma FetchLeavesListWithoutBucket(tl: Todolist)
    ensures InLockstep([], map[])
    ensures !InLockstep([] + Decorated([tl]), map[])
  {
    var after := [] + Decorated([tl]);
    assert after[0].id == tl.id;
    assert tl.id in ListIds(after);
  }

  /** The event "todolist created": both stores handle the same server answer. */
  method CreateTodolist(lists: TodolistStore, tasks: TaskStore, reply: Reply<Todolist>)
    modifies lists, tasks
    ensures reply.Rejected? ==> lists.lists == old(lists.lists) && tasks.tasks == old(tasks.tasks)
    ensures reply.Resolved? ==>
      && lists.lists == Created(old(lists.lists), reply.payload)
      && tasks.tasks == TodolistAdded(old(tasks.tasks), reply.payload.id)
  {
    lists.CreateTodolist(reply);
    tasks.TodolistCreated(reply);
  }

  /** The event "todolist deleted": both stores handle the same server answer. */
  method DeleteTodolist(lists: TodolistStore, tasks: TaskStore, id: string, reply: Reply<()>)
    modifies lists, tasks
    ensures reply.Rejected? ==> lists.lists == old(lists.lists) && tasks.tasks == old(tasks.tasks)
    ensures reply.Resolved? ==>
      && lists.lists == Deleted(old(lists.lists), id)
      && tasks.tasks == TodolistRemoved(old(tasks.tasks), id)
  {
    lists.DeleteTodolist(id, reply);
    tasks.TodolistDeleted(id, reply);
  }

  /**
   * From empty stores: fetch one todolist, fetch its one task, delete that
   * task. The list is kept with filter "all" and its bucket ends empty.
   */
  method FetchThenDeleteScenario() returns (ls: seq<DomainTodolist>, bucket: seq<DomainTask>)
    ensures ls == [DomainTodolist("L1", "Work", "", 0, All)]
    ensures bucket == []
  {
    var lists := new TodolistStore();
    var tasks := new TaskStore();
    lists.FetchTodolists(Resolved([Todolist("L1", "Work", "", 0)]));
    assert lists.lists == [DomainTodolist("L1", "Work", "", 0, All)];
    var t1 := DomainTask("", "Buy milk", TaskTypes.New, Low, "", "", "T1", "L1", 0, "");
    tasks.FetchTasks("L1", Resolved(GetTasksResponse(None, 1, [t1])));
    assert tasks.tasks["L1"] == [t1];
    var settled := tasks.DeleteTask(DeleteTaskArgs("L1", "T1"), Resolved(()));
    assert IndexOf([t1], TaskId, "T1") == 0;
    ls, bucket := lists.lists, tasks.tasks["L1"];
  }

  /**
   * A task `{title: "X", status: New, ...}` updated with `{status: Completed}`:
   * the server receives the full model with only the status changed, and the
   * store keeps the server's answer, whose title the server lower-cased.
   */
  method UpdateScenario() returns (sent: Option<UpdateTaskModel>, bucket: seq<DomainTask>)
    ensures sent == Some(UpdateTaskModel("", "X", TaskTypes.Completed, Low, "", ""))
    ensures bucket == [DomainTask("", "x", TaskTypes.Completed, Low, "", "", "T1", "L1", 0, "")]
  {
    var tasks := new TaskStore();
    var t := DomainTask("", "X", TaskTypes.New, Low, "", "", "T1", "L1", 0, "");
    tasks.FetchTasks("L1", Resolved(GetTasksResponse(None, 1, [t])));
    assert IndexOf(tasks.tasks["L1"], TaskId, "T1") == 0;
    var answer := DomainTask("", "x", TaskTypes.Completed, Low, "", "", "T1", "L1", 0, "");
    var settled;
    sent, settled := tasks.UpdateTask("L1", "T1", NoChange.(status := Some(TaskTypes.Completed)), Resolved(answer));
    bucket := tasks.tasks["L1"];
  }
}
