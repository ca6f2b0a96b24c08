/**
 * The `todos` table and the TodoModel that runs one SQL statement per
 * operation against it. The table is a map from id to row plus the
 * AUTO_INCREMENT counter; timestamps are ticks of a logical clock that only
 * serve to order rows. What the database driver may do wrong is a parameter
 * of each call (a Fault), not something the model decides.
 */
module Models {
  import opened Wrappers

  /** One row of the table (models.Todo). */
  datatype Todo = Todo(
    id: int,
    title: string,
    description: string,
    completed: bool,
    createdAt: nat,
    updatedAt: nat)

  datatype StoreError =
    | NotFound(id: int)   // "todo with id %d not found"
    | DriverError         // any error the driver returns

  datatype Result<T> = Ok(value: T) | Err(error: StoreError)

  /**
   * How the database answers a mutating call: normally; with an error from
   * the statement itself (nothing changes); or with an error from what comes
   * after a statement that did take effect (LastInsertId, RowsAffected or the
   * re-fetch by id).
   */
  datatype Fault = NoFault | StatementFails | FollowUpFails

  /** Largest value of the INT AUTO_INCREMENT primary key. */
  const MaxAutoId: int := 0x7FFF_FFFF

  /** The row an INSERT of title and description produces: completed defaults to false. */
  function NewRow(id: int, title: string, description: string, now: nat): (t: Todo)
    ensures t.id == id && t.title == title && t.description == description
    ensures !t.completed && t.createdAt == now && t.updatedAt == now
  {
    Todo(id, title, description, false, now, now)
  }

  /**
   * UPDATE ... SET title = ?, description = ?: updated_at moves (ON UPDATE
   * CURRENT_TIMESTAMP) only when the statement actually changes a value.
   */
  function Edited(t: Todo, title: string, description: string, now: nat): (e: Todo)
    ensures e.id == t.id && e.completed == t.completed && e.createdAt == t.createdAt
    ensures e.title == title && e.description == description
    ensures e.updatedAt == if t.title == title && t.description == description then t.updatedAt else now
  {
    if t.title == title && t.description == description then t
    else t.(title := title, description := description, updatedAt := now)
  }

  /** UPDATE ... SET completed = NOT completed. */
  function Toggled(t: Todo, now: nat): (f: Todo)
    ensures f.completed != t.completed
    ensures f.id == t.id && f.title == t.title && f.description == t.description
    ensures f.createdAt == t.createdAt && f.updatedAt == now
  {
    t.(completed := !t.completed, updatedAt := now)
  }

  lemma ToggleTwiceRestores(t: Todo, now1: nat, now2: nat)
    ensures Toggled(Toggled(t, now1), now2) == t.(updatedAt := now2)
  {
  }

  /** The set of ids a sequence of rows mentions. */
  function Ids(s: seq<Todo>): (ids: set<int>)
    ensures forall i :: 0 <= i < |s| ==> s[i].id in ids
    ensures forall id :: id in ids ==> exists i :: 0 <= i < |s| && s[i].id == id
  {
    if s == [] then {} else Ids(s[..|s| - 1]) + {s[|s| - 1].id}
  }

  /**
   * `s` is what SELECT ... ORDER BY created_at DESC returns for `rows`: every
   * row exactly once, each as stored, newest first.
   */
  ghost predicate IsListing(rows: map<int, Todo>, s: seq<Todo>)
  {
    && (forall i :: 0 <= i < |s| ==> s[i].id in rows && rows[s[i].id] == s[i])
    && (forall i, j :: 0 <= i < j < |s| ==> s[i].id != s[j].id)
    && Ids(s) == rows.Keys
    && (forall i, j :: 0 <= i < j < |s| ==> s[i].createdAt >= s[j].createdAt)
  }

  lemma {:induction false} DistinctIdsCount(s: seq<Todo>)
    requires forall i, j :: 0 <= i < j < |s| ==> s[i].id != s[j].id
    ensures |Ids(s)| == |s|
  {
    if s != [] {
      var init := s[..|s| - 1];
      DistinctIdsCount(init);
      assert s[|s| - 1].id !in Ids(init);
    }
  }

  /** A listing has as many entries as the table has rows; an empty table lists as []. */
  lemma ListingLength(rows: map<int, Todo>, s: seq<Todo>)
    requires IsListing(rows, s)
    ensures |s| == |rows|
    ensures rows == map[] ==> s == []
  {
    DistinctIdsCount(s);
    assert |rows| == |rows.Keys|;
  }

  predicate IsLatest(rows: map<int, Todo>, keys: set<int>, k: int)
    requires keys <= rows.Keys
  {
    k in keys && forall j :: j in keys ==> rows[j].createdAt <= rows[k].createdAt
  }

  /** A non-empty set has an element: the step every choice from a set rests on. */
  lemma HasElement<T>(keys: set<T>) returns (w: T)
    requires keys != {}
    ensures w in keys
  {
    if forall k :: k !in keys {
      assert false;
    }
    w :| w in keys;
  }

  /** The key among `keys` whose row was created last (the head of ORDER BY created_at DESC). */
  method PickLatest(rows: map<int, Todo>, keys: set<int>) returns (k: int)
    requires keys != {} && keys <= rows.Keys
    ensures IsLatest(rows, keys, k)
  {
    ghost var some := HasElement(keys);
    k :| k in keys;
    var rest := keys - {k};
    while rest != {}
      invariant rest <= keys && k in keys
      invariant forall j :: j in keys && j !in rest ==> rows[j].createdAt <= rows[k].createdAt
      decreases rest
    {
      ghost var another := HasElement(rest);
      var j :| j in rest;
      if rows[j].createdAt > rows[k].createdAt {
        k := j;
      }
      rest := rest - {j};
    }
  }

  /** The whole state of the table at one moment: its rows, the AUTO_INCREMENT counter and the clock. */
  datatype Table = Table(rows: map<int, Todo>, nextId: int, clock: nat)

  /** TodoModel: the `todos` table as the application sees it. */
  class TodoModel {
    var rows: map<int, Todo>
    /** The next AUTO_INCREMENT value. */
    var nextId: int
    /** The logical clock: the tick the next write will be stamped with. */
    var clock: nat

    ghost predicate Valid()
      reads this
    {
      && 1 <= nextId
      && (forall id :: id in rows ==> rows[id].id == id && 1 <= id < nextId)
      && (forall id :: id in rows ==> rows[id].createdAt <= rows[id].updatedAt < clock)
    }

    function Snapshot(): Table
      reads this
    {
      Table(rows, nextId, clock)
    }

    /** The table just after CREATE TABLE: empty, AUTO_INCREMENT at 1. */
    constructor ()
      ensures Valid() && rows == map[] && nextId == 1 && clock == 0
    {
      rows := map[];
      nextId := 1;
      clock := 0;
    }

    /** SELECT ... WHERE id = ?: the stored row, or NotFound when no row has that id. */
    method GetTodoByID(id: int, fails: bool) returns (r: Result<Todo>)
      requires Valid()
      ensures fails ==> r == Err(DriverError)
      ensures !fails && id in rows ==> r == Ok(rows[id])
      ensures !fails && id !in rows ==> r == Err(NotFound(id))
      ensures r.Ok? ==> r.value.id == id
    {
      if fails {
        return Err(DriverError);
      }
      if id !in rows {
        return Err(NotFound(id));
      }
      r := Ok(rows[id]);
    }

    /**
     * SELECT ... ORDER BY created_at DESC, scanned row by row into a list.
     * The database's ordering is modelled by taking, at each step, the
     * remaining row with the latest createdAt.
     */
    method GetAllTodos(fails: bool) returns (r: Result<seq<Todo>>)
      requires Valid()
      ensures fails <==> r.Err?
      ensures r.Err? ==> r.error == DriverError
      ensures r.Ok? ==> IsListing(rows, r.value)
    {
      if fails {
        return Err(DriverError);
      }
      var todos: seq<Todo> := [];
      var remaining := rows.Keys;
      while remaining != {}
        invariant remaining <= rows.Keys
        invariant Ids(todos) !! remaining && Ids(todos) + remaining == rows.Keys
        invariant forall i :: 0 <= i < |todos| ==> todos[i].id in rows && rows[todos[i].id] == todos[i]
        invariant forall i, j :: 0 <= i < j < |todos| ==> todos[i].id != todos[j].id
        invariant forall i, j :: 0 <= i < j < |todos| ==> todos[i].createdAt >= todos[j].createdAt
        invariant forall i, k :: 0 <= i < |todos| && k in remaining ==> todos[i].createdAt >= rows[k].createdAt
        decreases remaining
      {
        var k := PickLatest(rows, remaining);
        todos := todos + [rows[k]];
        remaining := remaining - {k};
      }
      r := Ok(todos);
    }

    /**
     * INSERT INTO todos (title, description), then re-fetch by the new id.
     * Exactly one row is added, under an id no row had, with completed false.
     */
    method CreateTodo(title: string, description: string, fault: Fault) returns (r: Result<Todo>)
      requires Valid()
      modifies this
      ensures Valid()
      ensures fault == StatementFails || old(nextId) > MaxAutoId ==>
        r == Err(DriverError) && rows == old(rows) && nextId == old(nextId) && clock == old(clock)
      ensures fault != StatementFails && old(nextId) <= MaxAutoId ==>
        && old(nextId) !in old(rows)
        && rows == old(rows)[old(nextId) := NewRow(old(nextId), title, description, old(clock))]
        && nextId == old(nextId) + 1 && clock == old(clock) + 1
        && r == if fault == FollowUpFails then Err(DriverError)
                else Ok(NewRow(old(nextId), title, description, old(clock)))
    {
      if fault == StatementFails || nextId > MaxAutoId {
        return Err(DriverError);
      }
      var id := nextId;
      rows := rows[id := NewRow(id, title, description, clock)];
      nextId, clock := nextId + 1, clock + 1;
      r := GetTodoByID(id, fault == FollowUpFails);
    }

    /**
     * UPDATE todos SET title = ?, description = ? WHERE id = ?, then re-fetch.
     * Nothing checks the affected-row count: an absent id fails only in the re-fetch.
     */
    method UpdateTodo(id: int, title: string, description: string, fault: Fault) returns (r: Result<Todo>)
      requires Valid()
      modifies this
      ensures Valid() && nextId == old(nextId)
      ensures fault == StatementFails || id !in old(rows) ==> rows == old(rows) && clock == old(clock)
      ensures fault != StatementFails && id in old(rows) ==>
        rows == old(rows)[id := Edited(old(rows)[id], title, description, old(clock))] && clock == old(clock) + 1
      ensures r == if fault != NoFault then Err(DriverError)
                   else if id in old(rows) then Ok(Edited(old(rows)[id], title, description, old(clock)))
                   else Err(NotFound(id))
    {
      if fault == StatementFails {
        return Err(DriverError);
      }
      if id in rows {
        rows := rows[id := Edited(rows[id], title, description, clock)];
        clock := clock + 1;
      }
      r := GetTodoByID(id, fault == FollowUpFails);
    }

    /** DELETE FROM todos WHERE id = ?; zero affected rows is reported as NotFound. */
    method DeleteTodo(id: int, fault: Fault) returns (err: Option<StoreError>)
      requires Valid()
      modifies this
      ensures Valid() && nextId == old(nextId) && clock == old(clock)
      ensures fault == StatementFails ==> rows == old(rows) && err == Some(DriverError)
      ensures fault != StatementFails ==> rows == old(rows) - {id}
      ensures err.None? <==> fault == NoFault && id in old(rows)
      ensures fault == NoFault && id !in old(rows) ==> rows == old(rows) && err == Some(NotFound(id))
    {
      if fault == StatementFails {
        return Some(DriverError);
      }
      var rowsAffected := if id in rows then 1 else 0;
      rows := rows - {id};
      if fault == FollowUpFails {
        return Some(DriverError);
      }
      if rowsAffected == 0 {
        return Some(NotFound(id));
      }
      err := None;
    }

    /** UPDATE todos SET completed = NOT completed WHERE id = ?, then re-fetch. */
    method ToggleTodoStatus(id: int, fault: Fault) returns (r: Result<Todo>)
      requires Valid()
      modifies this
      ensures Valid() && nextId == old(nextId)
      ensures fault == StatementFails || id !in old(rows) ==> rows == old(rows) && clock == old(clock)
      ensures fault != StatementFails && id in old(rows) ==>
        rows == old(rows)[id := Toggled(old(rows)[id], old(clock))] && clock == old(clock) + 1
      ensures r == if fault != NoFault then Err(DriverError)
                   else if id in old(rows) then Ok(Toggled(old(rows)[id], old(clock)))
                   else Err(NotFound(id))
    {
      if fault == StatementFails {
        return Err(DriverError);
      }
      if id in rows {
        rows := rows[id := Toggled(rows[id], clock)];
        clock := clock + 1;
      }
      r := GetTodoByID(id, fault == FollowUpFails);
    }
  }

  /** Two successful creates in a row hand out different ids, both new to the table. */
  method CreateTwice(m: TodoModel, a: string, b: string) returns (first: Result<Todo>, second: Result<Todo>)
    requires m.Valid()
    modifies m
    ensures m.Valid()
    ensures first.Ok? && second.Ok? ==>
      && first.value.id != second.value.id
      && first.value.id !in old(m.rows) && second.value.id !in old(m.rows)
      && first.value.id in m.rows && second.value.id in m.rows
  {
    first := m.CreateTodo(a, "", NoFault);
    second := m.CreateTodo(b, "", NoFault);
  }
}
