/** Properties of the todo router over whole sequences of authenticated
    requests: the item lifecycle created -> completed -> deleted, and
    ownership, hold across any interleaving of users. */
module TodoLifecycle {
  import opened Http
  import opened TodoRoutes

  /** One authenticated request: who asked, and which route. */
  datatype Step = Step(caller: UserId, route: Route)

  /** The table after serving `steps` in order. */
  function Run(s: Store, steps: seq<Step>): (r: Store)
    requires WellFormed(s)
    ensures WellFormed(r) && r.nextId >= s.nextId
    decreases |steps|
  {
    if steps == [] then s
    else Run(Handle(s, steps[0].caller, steps[0].route).store, steps[1..])
  }

  /** Ids are never reused: an id already handed out and no longer present
      never comes back. */
  lemma {:induction false} GoneStaysGone(s: Store, steps: seq<Step>, id: int)
    requires WellFormed(s) && id < s.nextId && id !in s.todos
    ensures id !in Run(s, steps).todos
    decreases |steps|
  {
    if steps != [] {
      var next := Handle(s, steps[0].caller, steps[0].route).store;
      GoneStaysGone(next, steps[1..], id);
    }
  }

  /** Across any requests by anyone, an item keeps its name, description and
      owner, and once completed stays completed. */
  lemma {:induction false} ItemsOnlyEvolve(s: Store, steps: seq<Step>, id: int)
    requires WellFormed(s) && id in s.todos && id in Run(s, steps).todos
    ensures Evolves(s.todos[id], Run(s, steps).todos[id])
    decreases |steps|
  {
    if steps != [] {
      var next := Handle(s, steps[0].caller, steps[0].route).store;
      if id in next.todos {
        ItemsOnlyEvolve(next, steps[1..], id);
      } else {
        GoneStaysGone(next, steps[1..], id);
      }
    }
  }

  /** Requests by other users never change or remove an item. */
  lemma {:induction false} OthersCannotTouch(s: Store, steps: seq<Step>, id: int)
    requires WellFormed(s) && id in s.todos
    requires forall k :: 0 <= k < |steps| ==> steps[k].caller != s.todos[id].userId
    ensures id in Run(s, steps).todos && Run(s, steps).todos[id] == s.todos[id]
    decreases |steps|
  {
    if steps != [] {
      var next := Handle(s, steps[0].caller, steps[0].route).store;
      assert steps[0].caller != s.todos[id].userId;
      assert id in next.todos && next.todos[id] == s.todos[id];
      OthersCannotTouch(next, steps[1..], id);
    }
  }

  /** An item that disappears over a run was removed by a request of its
      owner: someone else's requests alone can never delete it. */
  lemma RemovalNeedsOwner(s: Store, steps: seq<Step>, id: int)
    requires WellFormed(s) && id in s.todos && id !in Run(s, steps).todos
    ensures exists k :: 0 <= k < |steps| && steps[k].caller == s.todos[id].userId
  {
    if forall k :: 0 <= k < |steps| ==> steps[k].caller != s.todos[id].userId {
      OthersCannotTouch(s, steps, id);
    }
  }

  /** The walk-through of one item's life, for two distinct users. */
  lemma Scenario(u1: User, u2: User)
    requires u1.id != u2.id
    ensures var s0 := Store(map[], 1);
            var created := CreateTodo(s0, u1.id, "Buy milk", "");
            var s1 := created.store;
            var item := Todo("Buy milk", "", false, u1.id);
            && created.response == Response(201, TodoRef(1))
            && ListTodos(s1, u1.id) == Response(200, TodoList([Row(1, item)]))
            && ListTodos(s1, u2.id) == Response(200, TodoList([]))
            && DeleteTodo(s1, u1.id, 1) == Outcome(s1, Response(400, Failure(CannotDeleteIncomplete)))
            && DeleteTodo(s1, u2.id, 1) == Outcome(s1, Response(403, Failure(Unauthorized)))
            && CompleteTodo(s1, u2.id, 1) == Outcome(s1, Response(403, Failure(NotFoundOrUnauthorized)))
            && var done := CompleteTodo(s1, u1.id, 1);
               && done.response == Response(200, TodoRef(1))
               && ListTodos(done.store, u1.id) == Response(200, TodoList([Row(1, item.(completed := true))]))
               && var removed := DeleteTodo(done.store, u1.id, 1);
                  && removed.response == Response(200, TodoRef(1))
                  && ListTodos(removed.store, u1.id) == Response(200, TodoList([]))
  {
    var s0 := Store(map[], 1);
    var s1 := CreateTodo(s0, u1.id, "Buy milk", "").store;
    var item := Todo("Buy milk", "", false, u1.id);
    assert s1 == Store(map[1 := item], 2);
    assert ListRows(s1.todos, u1.id, 1) == [];
    assert ListRows(s1.todos, u2.id, 1) == [];
    var done := CompleteTodo(s1, u1.id, 1).store;
    assert done == Store(map[1 := item.(completed := true)], 2);
    assert ListRows(done.todos, u1.id, 1) == [];
    var removed := DeleteTodo(done, u1.id, 1).store;
    assert removed.todos == map[];
  }
}
