/**
 * The request handlers. Each one is an early-return sequence of checks
 * (method, id in the path, form, title), then one store call, then the
 * response; the order of the checks decides which status code a bad request
 * gets. Ids are read from the path by trimming the "/todos/" prefix and,
 * for edit and toggle, the action suffix, then strconv.Atoi.
 */
module Handlers {
  import opened Wrappers
  import opened Text
  import opened Models
  import opened Http
  import opened Templates

  /**
   * What the world outside the code decides during one request: how the
   * handler's own store call goes (the insert, update, delete or toggle, or
   * the read of the edit form), whether the listing query fails, and whether
   * executing the template fails.
   */
  datatype Outside = Outside(store: Fault, listFails: bool, renderFails: bool)

  const TodosPrefix := "/todos/"

  /** The id of /todos/{id}/edit. */
  function EditId(path: string): Option<int>
  {
    Atoi(TrimSuffix(TrimPrefix(path, TodosPrefix), "/edit"))
  }

  /** The id of /todos/{id}/toggle. */
  function ToggleId(path: string): Option<int>
  {
    Atoi(TrimSuffix(TrimPrefix(path, TodosPrefix), "/toggle"))
  }

  /** The id of /todos/{id} as update and delete read it: the whole rest of the path. */
  function ResourceId(path: string): Option<int>
  {
    Atoi(TrimPrefix(path, TodosPrefix))
  }

  /** The three extractions disagree on an edit path: only the edit form reads its id. */
  lemma IdExtractionDiffers(n: int)
    requires MinInt64 <= n <= MaxInt64
    ensures EditId(TodosPrefix + Itoa(n) + "/edit") == Some(n)
    ensures ResourceId(TodosPrefix + Itoa(n) + "/edit") == None
    ensures ToggleId(TodosPrefix + Itoa(n) + "/edit") == None
  {
    var digits := Itoa(n);
    var path := TodosPrefix + digits + "/edit";
    assert path == TodosPrefix + (digits + "/edit");
    TrimPrefixOfJoin(TodosPrefix, digits + "/edit");
    TrimSuffixOfJoin(digits, "/edit");
    AtoiItoa(n);
    var rest := digits + "/edit";
    assert rest[|rest| - 1] == 't';
    assert !HasSuffix(rest, "/toggle");
  }

  /** The toggle handler reads back the id of the path a card's toggle button posts to. */
  lemma ToggleIdOfPath(n: int)
    requires MinInt64 <= n <= MaxInt64
    ensures ToggleId(TodosPrefix + Itoa(n) + "/toggle") == Some(n)
  {
    var digits := Itoa(n);
    assert TodosPrefix + digits + "/toggle" == TodosPrefix + (digits + "/toggle");
    TrimPrefixOfJoin(TodosPrefix, digits + "/toggle");
    TrimSuffixOfJoin(digits, "/toggle");
    AtoiItoa(n);
  }

  /** `cards` shows the whole table, newest first. */
  ghost predicate ShowsTable(rows: map<int, Todo>, cards: seq<Card>)
  {
    exists s :: IsListing(rows, s) && CardsOf(s, cards)
  }

  /**
   * The response after a successful create, delete or toggle: the partial
   * list of the whole table when HX-Request is "true", otherwise a 303 to "/".
   */
  ghost predicate AfterMutation(resp: Response, rows: map<int, Todo>, hxRequest: string, ext: Outside)
  {
    if hxRequest != "true" then resp == Redirect("/", StatusSeeOther)
    else if ext.listFails then resp == Error(StatusInternalServerError, "Error fetching todos")
    else if ext.renderFails then resp == Error(StatusInternalServerError, "Error rendering todos")
    else resp.Fragment? && ShowsTable(rows, resp.cards)
  }

  /*
   * What each handler answers, and what the table becomes, as a function of
   * the table before the request (`before`), the request and the outside
   * world. `formErr` is what the handler's own ParseForm reports: true only
   * for a first parse of a malformed body. The raw title and description are
   * the form values before trimming.
   */

  ghost predicate HomeOutcome(rows: map<int, Todo>, path: string, ext: Outside, resp: Response)
  {
    if ext.listFails then resp == Error(StatusInternalServerError, "Error fetching todos")
    else if ext.renderFails then resp == Error(StatusInternalServerError, "Error rendering template")
    else
      && resp.Page? && resp.template == Registry()["index"]
      && resp.data.title == "Todo List" && resp.data.todo == None && resp.data.currentPath == path
      && IsListing(rows, resp.data.todos)
  }

  ghost predicate CreateFormOutcome(path: string, ext: Outside, resp: Response)
  {
    if ext.renderFails then resp == Error(StatusInternalServerError, "Error rendering template")
    else resp == Page(Registry()["create"], TemplateData("Create Todo", None, [], path))
  }

  ghost predicate EditFormOutcome(rows: map<int, Todo>, path: string, ext: Outside, resp: Response)
  {
    match EditId(path)
    case None => resp == Error(StatusBadRequest, "Invalid todo ID")
    case Some(id) =>
      if ext.store != NoFault || id !in rows then resp == Error(StatusNotFound, "Todo not found")
      else if ext.renderFails then resp == Error(StatusInternalServerError, "Error rendering template")
      else resp == Page(Registry()["edit"], TemplateData("Edit Todo", Some(rows[id]), [], path))
  }

  ghost predicate CreateOutcome(before: Table, after: Table, httpMethod: string, formErr: bool,
                                rawTitle: string, rawDescription: string, hxRequest: string,
                                ext: Outside, resp: Response)
  {
    if httpMethod != "POST" then after == before && resp == Error(StatusMethodNotAllowed, "Method not allowed")
    else if formErr then after == before && resp == Error(StatusBadRequest, "Error parsing form")
    else if TrimSpace(rawTitle) == "" then after == before && resp == Error(StatusBadRequest, "Title is required")
    else CreateStored(before, after, TrimSpace(rawTitle), TrimSpace(rawDescription), hxRequest, ext, resp)
  }

  /** The part of CreateOutcome after the form checks: the insert, the re-fetch and the answer. */
  ghost predicate CreateStored(before: Table, after: Table, title: string, description: string, hxRequest: string,
                               ext: Outside, resp: Response)
  {
    if ext.store == StatementFails || before.nextId > MaxAutoId then
      after == before && resp == Error(StatusInternalServerError, "Error creating todo")
    else
      var id := before.nextId;
      && after == Table(before.rows[id := NewRow(id, title, description, before.clock)], id + 1, before.clock + 1)
      && if ext.store == FollowUpFails then resp == Error(StatusInternalServerError, "Error creating todo")
         else AfterMutation(resp, after.rows, hxRequest, ext)
  }

  ghost predicate UpdateOutcome(before: Table, after: Table, httpMethod: string, path: string, formErr: bool,
                                rawTitle: string, rawDescription: string, ext: Outside, resp: Response)
  {
    if httpMethod != "POST" && httpMethod != "PUT" then
      after == before && resp == Error(StatusMethodNotAllowed, "Method not allowed")
    else match ResourceId(path)
      case None => after == before && resp == Error(StatusBadRequest, "Invalid todo ID")
      case Some(id) =>
        if formErr then after == before && resp == Error(StatusBadRequest, "Error parsing form")
        else if TrimSpace(rawTitle) == "" then after == before && resp == Error(StatusBadRequest, "Title is required")
        else
          && after == (if ext.store != StatementFails && id in before.rows
                       then before.(rows := before.rows[id := Edited(before.rows[id], TrimSpace(rawTitle),
                                                                     TrimSpace(rawDescription), before.clock)],
                                    clock := before.clock + 1)
                       else before)
          && resp == if ext.store == NoFault && id in before.rows then Redirect("/", StatusSeeOther)
                     else Error(StatusInternalServerError, "Error updating todo")
  }

  ghost predicate DeleteOutcome(before: Table, after: Table, httpMethod: string, path: string,
                                hxRequest: string, ext: Outside, resp: Response)
  {
    if httpMethod != "DELETE" then after == before && resp == Error(StatusMethodNotAllowed, "Method not allowed")
    else match ResourceId(path)
      case None => after == before && resp == Error(StatusBadRequest, "Invalid todo ID")
      case Some(id) =>
        && after == (if ext.store == StatementFails then before else before.(rows := before.rows - {id}))
        && if ext.store == NoFault && id in before.rows then AfterMutation(resp, after.rows, hxRequest, ext)
           else resp == Error(StatusInternalServerError, "Error deleting todo")
  }

  ghost predicate ToggleOutcome(before: Table, after: Table, httpMethod: string, path: string,
                                hxRequest: string, ext: Outside, resp: Response)
  {
    if httpMethod != "POST" then after == before && resp == Error(StatusMethodNotAllowed, "Method not allowed")
    else match ToggleId(path)
      case None => after == before && resp == Error(StatusBadRequest, "Invalid todo ID")
      case Some(id) =>
        && after == (if ext.store != StatementFails && id in before.rows
                     then before.(rows := before.rows[id := Toggled(before.rows[id], before.clock)],
                                  clock := before.clock + 1)
                     else before)
        && if ext.store == NoFault && id in before.rows then AfterMutation(resp, after.rows, hxRequest, ext)
           else resp == Error(StatusInternalServerError, "Error toggling todo status")
  }

  class TodoHandler {
    const model: TodoModel
    const templates: TemplateManager

    ghost predicate Valid()
      reads this, model, templates
    {
      model.Valid() && templates.Loaded()
    }

    constructor (model: TodoModel, templates: TemplateManager)
      requires model.Valid() && templates.Loaded()
      ensures this.model == model && this.templates == templates && Valid()
    {
      this.model := model;
      this.templates := templates;
    }

    /** The tail of create, delete and toggle once the store call succeeded. */
    method ListOrRedirect(r: Request, ext: Outside) returns (resp: Response)
      requires Valid()
      ensures AfterMutation(resp, model.rows, r.hxRequest, ext)
    {
      if r.hxRequest == "true" {
        var todos := model.GetAllTodos(ext.listFails);
        if todos.Err? {
          return Error(StatusInternalServerError, "Error fetching todos");
        }
        var written, err := templates.RenderTodoList(todos.value, ext.renderFails);
        if err {
          return Error(StatusInternalServerError, "Error rendering todos");
        }
        assert IsListing(model.rows, todos.value) && CardsOf(todos.value, written.cards);
        return written;
      }
      resp := Redirect("/", StatusSeeOther);
    }

    /** HomeHandler: the index page with every todo, newest first. */
    method HomeHandler(r: Request, ext: Outside) returns (resp: Response)
      requires Valid()
      ensures HomeOutcome(model.rows, r.path, ext, resp)
    {
      var todos := model.GetAllTodos(ext.listFails);
      if todos.Err? {
        return Error(StatusInternalServerError, "Error fetching todos");
      }
      var data := TemplateData("Todo List", None, todos.value, r.path);
      var written, err := templates.Render("index", data, ext.renderFails);
      if err {
        return Error(StatusInternalServerError, "Error rendering template");
      }
      resp := written;
    }

    /** CreateTodoFormHandler: the empty create form. */
    method CreateTodoFormHandler(r: Request, ext: Outside) returns (resp: Response)
      requires Valid()
      ensures CreateFormOutcome(r.path, ext, resp)
    {
      var data := TemplateData("Create Todo", None, [], r.path);
      var written, err := templates.Render("create", data, ext.renderFails);
      if err {
        return Error(StatusInternalServerError, "Error rendering template");
      }
      resp := written;
    }

    /**
     * CreateTodoHandler: POST only; the title and description are trimmed and
     * an empty title is refused before the store is touched.
     */
    method CreateTodoHandler(r: Request, ext: Outside) returns (resp: Response)
      requires Valid()
      modifies model, r`parsed
      ensures Valid()
      ensures CreateOutcome(old(model.Snapshot()), model.Snapshot(), r.httpMethod, !old(r.parsed) && r.formMalformed,
                            r.Field("title"), r.Field("description"), r.hxRequest, ext, resp)
    {
      if r.httpMethod != "POST" {
        return Error(StatusMethodNotAllowed, "Method not allowed");
      }
      var formErr := r.ParseForm();
      if formErr {
        return Error(StatusBadRequest, "Error parsing form");
      }
      var rawTitle := r.FormValue("title");
      var rawDescription := r.FormValue("description");
      var title, description := TrimSpace(rawTitle), TrimSpace(rawDescription);
      if title == "" {
        return Error(StatusBadRequest, "Title is required");
      }
      var created := model.CreateTodo(title, description, ext.store);
      if created.Err? {
        return Error(StatusInternalServerError, "Error creating todo");
      }
      resp := ListOrRedirect(r, ext);
    }

    /** EditTodoFormHandler: no method check; a bad id is 400, any failed read 404. */
    method EditTodoFormHandler(r: Request, ext: Outside) returns (resp: Response)
      requires Valid()
      ensures EditFormOutcome(model.rows, r.path, ext, resp)
    {
      var id := EditId(r.path);
      if id.None? {
        return Error(StatusBadRequest, "Invalid todo ID");
      }
      var todo := model.GetTodoByID(id.value, ext.store != NoFault);
      if todo.Err? {
        return Error(StatusNotFound, "Todo not found");
      }
      var data := TemplateData("Edit Todo", Some(todo.value), [], r.path);
      var written, err := templates.Render("edit", data, ext.renderFails);
      if err {
        return Error(StatusInternalServerError, "Error rendering template");
      }
      resp := written;
    }

    /**
     * UpdateTodoHandler: POST or PUT; then the id, the form and the title, in
     * that order. It always answers a redirect on success, never a fragment.
     */
    method UpdateTodoHandler(r: Request, ext: Outside) returns (resp: Response)
      requires Valid()
      modifies model, r`parsed
      ensures Valid()
      ensures !resp.Fragment?
      ensures UpdateOutcome(old(model.Snapshot()), model.Snapshot(), r.httpMethod, r.path, !old(r.parsed) && r.formMalformed,
                            r.Field("title"), r.Field("description"), ext, resp)
    {
      if r.httpMethod != "POST" && r.httpMethod != "PUT" {
        return Error(StatusMethodNotAllowed, "Method not allowed");
      }
      var id := ResourceId(r.path);
      if id.None? {
        return Error(StatusBadRequest, "Invalid todo ID");
      }
      var formErr := r.ParseForm();
      if formErr {
        return Error(StatusBadRequest, "Error parsing form");
      }
      var rawTitle := r.FormValue("title");
      var rawDescription := r.FormValue("description");
      var title, description := TrimSpace(rawTitle), TrimSpace(rawDescription);
      if title == "" {
        return Error(StatusBadRequest, "Title is required");
      }
      var updated := model.UpdateTodo(id.value, title, description, ext.store);
      if updated.Err? {
        return Error(StatusInternalServerError, "Error updating todo");
      }
      resp := Redirect("/", StatusSeeOther);
    }

    /**
     * DeleteTodoHandler: DELETE only. A missing id fails in the store and is
     * answered 500, not 404, with the table unchanged.
     */
    method DeleteTodoHandler(r: Request, ext: Outside) returns (resp: Response)
      requires Valid()
      modifies model
      ensures Valid()
      ensures DeleteOutcome(old(model.Snapshot()), model.Snapshot(), r.httpMethod, r.path, r.hxRequest, ext, resp)
    {
      if r.httpMethod != "DELETE" {
        return Error(StatusMethodNotAllowed, "Method not allowed");
      }
      var id := ResourceId(r.path);
      if id.None? {
        return Error(StatusBadRequest, "Invalid todo ID");
      }
      var err := model.DeleteTodo(id.value, ext.store);
      if err.Some? {
        return Error(StatusInternalServerError, "Error deleting todo");
      }
      resp := ListOrRedirect(r, ext);
    }

    /** ToggleTodoHandler: POST only; flips the completed flag of one row. */
    method ToggleTodoHandler(r: Request, ext: Outside) returns (resp: Response)
      requires Valid()
      modifies model
      ensures Valid()
      ensures ToggleOutcome(old(model.Snapshot()), model.Snapshot(), r.httpMethod, r.path, r.hxRequest, ext, resp)
    {
      if r.httpMethod != "POST" {
        return Error(StatusMethodNotAllowed, "Method not allowed");
      }
      var id := ToggleId(r.path);
      if id.None? {
        return Error(StatusBadRequest, "Invalid todo ID");
      }
      var toggled := model.ToggleTodoStatus(id.value, ext.store);
      if toggled.Err? {
        return Error(StatusInternalServerError, "Error toggling todo status");
      }
      resp := ListOrRedirect(r, ext);
    }
  }
}
