/**
 * The rendering layer: the presentation helpers the templates call, the
 * registry of page templates loaded at start-up, Render by name, and the
 * partial list that incremental (htmx) requests receive. HTML itself is not
 * modelled: a page is the template it was rendered from plus its data, and
 * the partial list is one Card per todo holding what that card shows.
 */
module Templates {
  import opened Wrappers
  import opened Text
  import opened Models

  // ---- Template helper functions (the funcMap) ----

  /** The status label. */
  function IsCompleted(completed: bool): (text: string)
    ensures text == "Completed" <==> completed
    ensures text == "Pending" <==> !completed
  {
    if completed then "Completed" else "Pending"
  }

  /** The card's border colour. */
  function CompletedClass(completed: bool): (cls: string)
    ensures cls == "border-green-500" <==> completed
    ensures cls == "border-blue-500" <==> !completed
  {
    if completed then "border-green-500" else "border-blue-500"
  }

  /** The strike-through of a completed title; no class at all for a pending one. */
  function CompletedTextClass(completed: bool): (cls: string)
    ensures cls == "" <==> !completed
    ensures completed ==> cls == "line-through text-gray-500"
  {
    if completed then "line-through text-gray-500" else ""
  }

  /** The colour of the toggle button. */
  function ToggleButtonClass(completed: bool): (cls: string)
    ensures cls == "bg-yellow-500 hover:bg-yellow-600 text-white" <==> completed
    ensures cls == "bg-green-500 hover:bg-green-600 text-white" <==> !completed
  {
    if completed then "bg-yellow-500 hover:bg-yellow-600 text-white" else "bg-green-500 hover:bg-green-600 text-white"
  }

  /** The short label of the toggle button: what a click will do. */
  function ToggleButtonText(completed: bool): (text: string)
    ensures text == "Undo" <==> completed
    ensures text == "Complete" <==> !completed
  {
    if completed then "Undo" else "Complete"
  }

  /** The long label of the toggle button. */
  function ToggleButtonLongText(completed: bool): (text: string)
    ensures text == "Mark as Pending" <==> completed
    ensures text == "Mark as Complete" <==> !completed
  {
    if completed then "Mark as Pending" else "Mark as Complete"
  }

  /** The colour of the status label. */
  function StatusClass(completed: bool): (cls: string)
    ensures cls == "text-green-600" <==> completed
    ensures cls == "text-blue-600" <==> !completed
  {
    if completed then "text-green-600" else "text-blue-600"
  }

  /** Every helper shows a completed todo differently from a pending one. */
  lemma HelpersTellStatesApart()
    ensures IsCompleted(true) != IsCompleted(false)
    ensures CompletedClass(true) != CompletedClass(false)
    ensures CompletedTextClass(true) != CompletedTextClass(false)
    ensures ToggleButtonClass(true) != ToggleButtonClass(false)
    ensures ToggleButtonText(true) != ToggleButtonText(false)
    ensures ToggleButtonLongText(true) != ToggleButtonLongText(false)
    ensures StatusClass(true) != StatusClass(false)
  {
  }

  // ---- The partial list ----

  /** What one card of the partial list shows and where its controls point. */
  datatype Card = Card(
    borderClass: string,
    title: string,
    /** Applied to the title and to the description. */
    textClass: string,
    /** Shown only when the description is not empty. */
    description: Option<string>,
    /** The creation stamp that formatDate prints. */
    created: nat,
    togglePath: string,
    toggleClass: string,
    toggleLabel: string,
    editPath: string,
    deletePath: string)

  function TodoPath(id: int): string
  {
    "/todos/" + Itoa(id)
  }

  /** The card the list template writes for one todo. */
  function CardFor(t: Todo): Card
  {
    Card(
      CompletedClass(t.completed),
      t.title,
      CompletedTextClass(t.completed),
      if t.description != "" then Some(t.description) else None,
      t.createdAt,
      TodoPath(t.id) + "/toggle",
      ToggleButtonClass(t.completed),
      ToggleButtonText(t.completed),
      TodoPath(t.id) + "/edit",
      TodoPath(t.id))
  }

  /** `cards` shows `todos`: one card per todo, in the same order. */
  predicate CardsOf(todos: seq<Todo>, cards: seq<Card>)
  {
    |cards| == |todos| && forall i :: 0 <= i < |todos| ==> cards[i] == CardFor(todos[i])
  }

  // ---- Pages, responses and the template registry ----

  /** The data bag every page template receives. */
  datatype TemplateData = TemplateData(title: string, todo: Option<Todo>, todos: seq<Todo>, currentPath: string)

  /** A page template: the shared layout plus one page-specific body. */
  datatype PageTemplate = PageTemplate(layout: string, body: string)

  /** What a request writes to its ResponseWriter. */
  datatype Response =
    | Error(code: int, message: string)       // http.Error, http.NotFound
    | Redirect(location: string, code: int)   // http.Redirect
    | Page(template: PageTemplate, data: TemplateData)
    | Fragment(cards: seq<Card>)
    | StaticFile(path: string)                // the static file server
    | Blank                                   // nothing the model keeps track of

  const StatusSeeOther := 303
  const StatusBadRequest := 400
  const StatusNotFound := 404
  const StatusMethodNotAllowed := 405
  const StatusInternalServerError := 500

  const LayoutFile := "templates/layout.html"

  /** The registry once every page template has loaded. */
  function Registry(): (reg: map<string, PageTemplate>)
    ensures reg.Keys == {"index", "create", "edit"}
    ensures forall name :: name in reg ==> reg[name] == PageTemplate(LayoutFile, "templates/" + name + ".html")
  {
    map[
      "index" := PageTemplate(LayoutFile, "templates/index.html"),
      "create" := PageTemplate(LayoutFile, "templates/create.html"),
      "edit" := PageTemplate(LayoutFile, "templates/edit.html")]
  }

  class TemplateManager {
    var templates: map<string, PageTemplate>

    constructor ()
      ensures templates == map[]
    {
      templates := map[];
    }

    ghost predicate Loaded()
      reads this
    {
      templates == Registry()
    }

    /**
     * loadTemplates: parses index, create and edit in that order, each with
     * the layout, and stops at the first that does not parse (the Go code
     * panics there). `unparsable` is the set of template files that fail to parse.
     */
    method LoadTemplates(unparsable: set<string>) returns (panicked: Option<string>)
      modifies this
      ensures panicked.None? <==>
        (LayoutFile !in unparsable && "templates/index.html" !in unparsable
         && "templates/create.html" !in unparsable && "templates/edit.html" !in unparsable)
      ensures panicked.Some? ==>
        (panicked.value in Registry() && (LayoutFile in unparsable || Registry()[panicked.value].body in unparsable))
      ensures panicked == Some("index") <==> LayoutFile in unparsable || "templates/index.html" in unparsable
      ensures (panicked == Some("create")) ==
        (LayoutFile !in unparsable && "templates/index.html" !in unparsable && "templates/create.html" in unparsable)
      ensures (panicked == Some("edit")) ==
        (LayoutFile !in unparsable && "templates/index.html" !in unparsable && "templates/create.html" !in unparsable
         && "templates/edit.html" in unparsable)
      ensures panicked.None? ==> templates == old(templates) + Registry()
    {
      if LayoutFile in unparsable || "templates/index.html" in unparsable {
        return Some("index");
      }
      templates := templates["index" := PageTemplate(LayoutFile, "templates/index.html")];
      if LayoutFile in unparsable || "templates/create.html" in unparsable {
        return Some("create");
      }
      templates := templates["create" := PageTemplate(LayoutFile, "templates/create.html")];
      if LayoutFile in unparsable || "templates/edit.html" in unparsable {
        return Some("edit");
      }
      templates := templates["edit" := PageTemplate(LayoutFile, "templates/edit.html")];
      panicked := None;
    }

    /**
     * Render: an unknown name writes a 500 "Template not found" and returns no
     * error, so the caller writes nothing more; a failed execution returns
     * the error to the caller.
     */
    method Render(name: string, data: TemplateData, execFails: bool) returns (written: Response, err: bool)
      ensures name !in templates ==> written == Error(StatusInternalServerError, "Template not found") && !err
      ensures name in templates ==> err == execFails
      ensures name in templates && !execFails ==> written == Page(templates[name], data)
      ensures name in templates && execFails ==> written == Blank
    {
      if name !in templates {
        return Error(StatusInternalServerError, "Template not found"), false;
      }
      if execFails {
        return Blank, true;
      }
      written, err := Page(templates[name], data), false;
    }

    /** getTemplateNames: every registered name once, in the map's iteration order. */
    method TemplateNames() returns (names: seq<string>)
      ensures |names| == |templates|
      ensures forall n :: n in names <==> n in templates
      ensures forall i, j :: 0 <= i < j < |names| ==> names[i] != names[j]
    {
      names := [];
      var left := templates.Keys;
      while left != {}
        invariant left <= templates.Keys
        invariant forall n :: n in names <==> n in templates && n !in left
        invariant forall i, j :: 0 <= i < j < |names| ==> names[i] != names[j]
        invariant |names| + |left| == |templates.Keys|
        decreases left
      {
        ghost var some := HasElement(left);
        var n :| n in left;
        names := names + [n];
        left := left - {n};
      }
    }

    /**
     * RenderTodoList: the inline list template, executed over `todos`, writes
     * one card per todo in the order given.
     */
    method RenderTodoList(todos: seq<Todo>, execFails: bool) returns (written: Response, err: bool)
      ensures err == execFails
      ensures execFails ==> written == Blank
      ensures !execFails ==> written.Fragment? && CardsOf(todos, written.cards)
    {
      if execFails {
        return Blank, true;
      }
      var cards: seq<Card> := [];
      for i := 0 to |todos|
        invariant CardsOf(todos[..i], cards)
      {
        cards := cards + [CardFor(todos[i])];
      }
      assert todos[..|todos|] == todos;
      written, err := Fragment(cards), false;
    }
  }

  /** NewTemplateManager: an empty registry, then loadTemplates. */
  method NewTemplateManager(unparsable: set<string>) returns (tm: TemplateManager, panicked: Option<string>)
    ensures fresh(tm)
    ensures panicked.None? <==>
      (LayoutFile !in unparsable && "templates/index.html" !in unparsable
       && "templates/create.html" !in unparsable && "templates/edit.html" !in unparsable)
    ensures panicked == Some("index") <==> LayoutFile in unparsable || "templates/index.html" in unparsable
    ensures (panicked == Some("create")) ==
      (LayoutFile !in unparsable && "templates/index.html" !in unparsable && "templates/create.html" in unparsable)
    ensures (panicked == Some("edit")) ==
      (LayoutFile !in unparsable && "templates/index.html" !in unparsable && "templates/create.html" !in unparsable
       && "templates/edit.html" in unparsable)
    ensures panicked.None? ==> tm.Loaded() && tm.templates == Registry()
  {
    tm := new TemplateManager();
    panicked := tm.LoadTemplates(unparsable);
  }
}
