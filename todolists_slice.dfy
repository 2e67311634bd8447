/**
 * The todolist store (src/features/todolists/model/todolists-slice.ts): an
 * ordered sequence of todolists, each decorated with a client-only filter.
 * Every server-backed operation edits the sequence only after its call resolved.
 */
module TodolistsSlice {
  import opened Wrappers
  import opened Scan

  /** A todolist as the Remote API returns it. */
  datatype Todolist = Todolist(id: string, title: string, addedDate: string, order: int)

  /** The display filter; it exists only in local state. */
  datatype FilterValues = All | Active | Completed

  /** `Todolist & { filter: FilterValues }`. */
  datatype DomainTodolist = DomainTodolist(id: string, title: string, addedDate: string, order: int, filter: FilterValues)

  /** The key the todolist scans compare. */
  function ListId(tl: DomainTodolist): string { tl.id }

  /** The server's part of a local todolist: what remains once the filter is dropped. */
  function Strip(d: DomainTodolist): Todolist {
    Todolist(d.id, d.title, d.addedDate, d.order)
  }

  /** `{ ...tl, filter: "all" }`: the server's fields are kept and the filter starts at "all". */
  function Decorate(tl: Todolist): (d: DomainTodolist)
    ensures Strip(d) == tl && d.filter == All
  {
    DomainTodolist(tl.id, tl.title, tl.addedDate, tl.order, All)
  }

  /** Every list of `tls`, decorated, in server order (`DecoratedAt` states it position by position). */
  function Decorated(tls: seq<Todolist>): (r: seq<DomainTodolist>)
    ensures |r| == |tls|
  {
    if tls == [] then [] else [Decorate(tls[0])] + Decorated(tls[1..])
  }

  /** Position `i` of the decorated batch is the server's list `i` with filter "all". */
  lemma {:induction false} DecoratedAt(tls: seq<Todolist>, i: nat)
    requires i < |tls|
    ensures Strip(Decorated(tls)[i]) == tls[i] && Decorated(tls)[i].filter == All
  {
    if i > 0 {
      DecoratedAt(tls[1..], i - 1);
    }
  }

  /** Decorating two batches one after the other is decorating them together. */
  lemma {:induction false} DecoratedAppend(a: seq<Todolist>, b: seq<Todolist>)
    ensures Decorated(a + b) == Decorated(a) + Decorated(b)
  {
    if a == [] {
      assert a + b == b;
    } else {
      var head, rest := [Decorate(a[0])], Decorated(a[1..]);
      calc {
        Decorated(a + b);
        { assert (a + b)[0] == a[0] && (a + b)[1..] == a[1..] + b; }
        head + Decorated(a[1..] + b);
        { DecoratedAppend(a[1..], b); }
        head + (rest + Decorated(b));
        (head + rest) + Decorated(b);
      }
    }
  }

  /** State after a created todolist: the new list leads, the old sequence follows. */
  function Created(s: seq<DomainTodolist>, tl: Todolist): (r: seq<DomainTodolist>)
    ensures |r| == |s| + 1 && r[1..] == s
    ensures Strip(r[0]) == tl && r[0].filter == All
  {
    [Decorate(tl)] + s
  }

  /** State after a deleted todolist: the first list with that id is gone, the rest keep their order. */
  function Deleted(s: seq<DomainTodolist>, id: string): (r: seq<DomainTodolist>)
    ensures var k := IndexOf(s, ListId, id);
      r == if k == -1 then s else s[..k] + s[k + 1..]
  {
    RemoveFirstIsSplice(s, ListId, id);
    RemoveFirst(s, ListId, id)
  }

  /** State after a renamed todolist: only the title of the first list with that id changes. */
  function Renamed(s: seq<DomainTodolist>, id: string, title: string): (r: seq<DomainTodolist>)
    ensures |r| == |s|
    ensures forall i :: 0 <= i < |s| ==>
      r[i].id == s[i].id && r[i].addedDate == s[i].addedDate && r[i].order == s[i].order && r[i].filter == s[i].filter
    ensures forall i :: 0 <= i < |s| && i != IndexOf(s, ListId, id) ==> r[i] == s[i]
    ensures IndexOf(s, ListId, id) != -1 ==> r[IndexOf(s, ListId, id)].title == title
  {
    var k := IndexOf(s, ListId, id);
    if k == -1 then s else s[k := s[k].(title := title)]
  }

  /** State after a filter change: only the filter of the first list with that id changes. */
  function Filtered(s: seq<DomainTodolist>, id: string, filter: FilterValues): (r: seq<DomainTodolist>)
    ensures |r| == |s|
    ensures forall i :: 0 <= i < |s| ==> Strip(r[i]) == Strip(s[i])
    ensures forall i :: 0 <= i < |s| && i != IndexOf(s, ListId, id) ==> r[i] == s[i]
    ensures IndexOf(s, ListId, id) != -1 ==> r[IndexOf(s, ListId, id)].filter == filter
  {
    var k := IndexOf(s, ListId, id);
    if k == -1 then s else s[k := s[k].(filter := filter)]
  }

  /** Deleting the list just created restores the previous sequence, whatever ids it already held. */
  lemma DeleteUndoesCreate(s: seq<DomainTodolist>, tl: Todolist)
    ensures Deleted(Created(s, tl), tl.id) == s
  {
    assert IndexOf(Created(s, tl), ListId, tl.id) == 0;
  }

  /** Setting the same filter twice is the same as setting it once. */
  lemma FilterIdempotent(s: seq<DomainTodolist>, id: string, filter: FilterValues)
    ensures Filtered(Filtered(s, id, filter), id, filter) == Filtered(s, id, filter)
  {
    IndexOfSameKeys(s, Filtered(s, id, filter), ListId, id);
  }

  /** Of two renames of one list, the later title is the one that stays. */
  lemma RenameLastWins(s: seq<DomainTodolist>, id: string, first: string, second: string)
    ensures Renamed(Renamed(s, id, first), id, second) == Renamed(s, id, second)
  {
    IndexOfSameKeys(s, Renamed(s, id, first), ListId, id);
  }

  /** The local todolist collection; its methods are the slice's reducers. */
  class TodolistStore {
    var lists: seq<DomainTodolist>

    /** The initial state `[]`. */
    constructor ()
      ensures lists == []
    {
      lists := [];
    }

    /** `createTodolistTC` and its fulfilled reducer: prepend the server's list with filter "all". */
    method CreateTodolist(reply: Reply<Todolist>)
      modifies this
      ensures reply.Rejected? ==> lists == old(lists)
      ensures reply.Resolved? ==> lists == Created(old(lists), reply.payload)
    {
      if reply.Resolved? {
        lists := [Decorate(reply.payload)] + lists;
      }
    }

    /** `deleteTodolistTC` and its fulfilled reducer: `findIndex`, then `splice` when found. */
    method DeleteTodolist(id: string, reply: Reply<()>)
      modifies this
      ensures reply.Rejected? ==> lists == old(lists)
      ensures reply.Resolved? ==> lists == Deleted(old(lists), id)
    {
      if reply.Resolved? {
        var index := FindIndex(lists, ListId, id);
        if index != -1 {
          lists := lists[..index] + lists[index + 1..];
        }
      }
    }

    /** `changeTodolistTitleTC` and its fulfilled reducer: overwrite the title of the match in place. */
    method ChangeTodolistTitle(id: string, title: string, reply: Reply<()>)
      modifies this
      ensures reply.Rejected? ==> lists == old(lists)
      ensures reply.Resolved? ==> lists == Renamed(old(lists), id, title)
    {
      if reply.Resolved? {
        var index := FindIndex(lists, ListId, id);
        if index != -1 {
          lists := lists[index := lists[index].(title := title)];
        }
      }
    }

    /** `changeTodolistFilterAC`: a synchronous reducer, no server call. */
    method ChangeTodolistFilter(id: string, filter: FilterValues)
      modifies this
      ensures lists == Filtered(old(lists), id, filter)
    {
      var index := FindIndex(lists, ListId, id);
      if index != -1 {
        lists := lists[index := lists[index].(filter := filter)];
      }
    }

    /** `fetchTodolists` and its fulfilled reducer: `push` each server list, decorated, in order. */
    method FetchTodolists(reply: Reply<seq<Todolist>>)
      modifies this
      ensures reply.Rejected? ==> lists == old(lists)
      ensures reply.Resolved? ==> lists == old(lists) + Decorated(reply.payload)
    {
      if reply.Resolved? {
        var tls := reply.payload;
        var i := 0;
        while i < |tls|
          invariant 0 <= i <= |tls|
          invariant lists == old(lists) + Decorated(tls[..i])
        {
          assert tls[..i + 1] == tls[..i] + [tls[i]];
          DecoratedAppend(tls[..i], [tls[i]]);
          lists := lists + [Decorate(tls[i])];
          i := i + 1;
        }
        assert tls[..i] == tls;
      }
    }
  }
}
