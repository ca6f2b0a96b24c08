/**
 * The program's entry point without its I/O: configuration from the
 * environment, the data source name, the routing table of the ServeMux with
 * its two dispatching closures, and the method-override middleware that
 * wraps it.
 */
module App {
  import opened Wrappers
  import opened Text
  import opened Models
  import opened Http
  import opened Templates
  import opened Handlers

  // ---- Configuration ----

  /** getEnv: the variable's value unless it is unset or empty. */
  function GetEnv(env: map<string, string>, key: string, fallback: string): (v: string)
    ensures key in env && env[key] != "" ==> v == env[key]
    ensures key !in env || env[key] == "" ==> v == fallback
    ensures v == "" ==> fallback == ""
  {
    if key in env && env[key] != "" then env[key] else fallback
  }

  datatype Config = Config(dbUser: string, dbPassword: string, dbHost: string, dbPort: string, dbName: string, port: string)

  /** The settings read at start-up; only the password may end up empty. */
  function LoadConfig(env: map<string, string>): (c: Config)
    ensures c.dbUser != "" && c.dbHost != "" && c.dbPort != "" && c.dbName != "" && c.port != ""
  {
    Config(
      GetEnv(env, "DB_USER", "root"),
      GetEnv(env, "DB_PASSWORD", ""),
      GetEnv(env, "DB_HOST", "localhost"),
      GetEnv(env, "DB_PORT", "3306"),
      GetEnv(env, "DB_NAME", "todoapp"),
      GetEnv(env, "PORT", "8080"))
  }

  /** `v` is what `key` yields: its value when set and non-empty, `fallback` otherwise. */
  predicate Chosen(env: map<string, string>, key: string, fallback: string, v: string)
  {
    && (key in env && env[key] != "" ==> v == env[key])
    && (key !in env || env[key] == "" ==> v == fallback)
  }

  /**
   * Each setting is decided by its own variable alone: a variable set to a
   * non-empty value wins over its default whatever the other variables hold.
   */
  lemma ConfigOverrides(env: map<string, string>)
    ensures var c := LoadConfig(env);
      && Chosen(env, "DB_USER", "root", c.dbUser)
      && Chosen(env, "DB_PASSWORD", "", c.dbPassword)
      && Chosen(env, "DB_HOST", "localhost", c.dbHost)
      && Chosen(env, "DB_PORT", "3306", c.dbPort)
      && Chosen(env, "DB_NAME", "todoapp", c.dbName)
      && Chosen(env, "PORT", "8080", c.port)
  {
  }

  /** The MySQL data source name: user:password@tcp(host:port)/name?parseTime=true. */
  function Dsn(c: Config): string
  {
    c.dbUser + ":" + c.dbPassword + "@tcp(" + c.dbHost + ":" + c.dbPort + ")/" + c.dbName + "?parseTime=true"
  }

  datatype DsnFields = DsnFields(user: string, password: string, host: string, port: string, name: string)

  /**
   * Splits at the first occurrence of a one-character separator: the text
   * before it and the text after. The reader below is built from it.
   */
  function Cut(s: string, sep: char): (r: Option<(string, string)>)
    ensures r.None? <==> sep !in s
    ensures r.Some? ==> sep !in r.value.0 && r.value.0 + [sep] + r.value.1 == s
  {
    if s == [] then None
    else if s[0] == sep then Some(([], s[1..]))
    else match Cut(s[1..], sep)
      case None => None
      case Some((before, after)) => Some(([s[0]] + before, after))
  }

  lemma {:induction false} CutOfJoin(before: string, sep: char, after: string)
    requires sep !in before
    ensures Cut(before + [sep] + after, sep) == Some((before, after))
  {
    if before == [] {
      assert before + [sep] + after == [sep] + after;
    } else {
      assert (before + [sep] + after)[1..] == before[1..] + [sep] + after;
      CutOfJoin(before[1..], sep, after);
      assert [before[0]] + before[1..] == before;
    }
  }

  /** A reader of the data source name format, left to right, one separator at a time. */
  function ParseDsn(dsn: string): Option<DsnFields>
  {
    match Cut(dsn, ':')
    case None => None
    case Some((user, afterUser)) =>
      match Cut(afterUser, '@')
      case None => None
      case Some((password, afterAt)) =>
        if !HasPrefix(afterAt, "tcp(") then None
        else
          match Cut(afterAt[4..], ':')
          case None => None
          case Some((host, afterHost)) =>
            match Cut(afterHost, ')')
            case None => None
            case Some((port, afterPort)) =>
              if !HasPrefix(afterPort, "/") then None
              else
                match Cut(afterPort[1..], '?')
                case None => None
                case Some((name, params)) =>
                  if params == "parseTime=true" then Some(DsnFields(user, password, host, port, name)) else None
  }

  /** The data source name read as its first field, its separator, and the rest, at every separator. */
  lemma DsnShape(c: Config)
    ensures Dsn(c) == c.dbUser + [':'] + (c.dbPassword + ['@'] + ("tcp(" + (c.dbHost + [':'] + (c.dbPort + [')']
                      + ("/" + (c.dbName + ['?'] + "parseTime=true"))))))
  {
    var tail := "/" + (c.dbName + ['?'] + "parseTime=true");
    assert c.dbName + "?parseTime=true" == c.dbName + ['?'] + "parseTime=true";
    assert ")/" + c.dbName + "?parseTime=true" == [')'] + tail;
    assert c.dbPort + ")/" + c.dbName + "?parseTime=true" == c.dbPort + [')'] + tail;
  }

  /**
   * The data source name carries every database setting through, as long as
   * no field holds the separator that ends it.
   */
  lemma DsnRoundTrip(c: Config)
    requires ':' !in c.dbUser && '@' !in c.dbPassword && ':' !in c.dbHost && ')' !in c.dbPort && '?' !in c.dbName
    ensures ParseDsn(Dsn(c)) == Some(DsnFields(c.dbUser, c.dbPassword, c.dbHost, c.dbPort, c.dbName))
  {
    var afterPort := "/" + (c.dbName + ['?'] + "parseTime=true");
    var afterHost := c.dbPort + [')'] + afterPort;
    var afterTcp := c.dbHost + [':'] + afterHost;
    var afterAt := "tcp(" + afterTcp;
    var afterUser := c.dbPassword + ['@'] + afterAt;
    DsnShape(c);
    CutOfJoin(c.dbUser, ':', afterUser);
    CutOfJoin(c.dbPassword, '@', afterAt);
    TrimPrefixOfJoin("tcp(", afterTcp);
    assert afterAt[4..] == afterTcp;
    CutOfJoin(c.dbHost, ':', afterHost);
    CutOfJoin(c.dbPort, ')', afterPort);
    TrimPrefixOfJoin("/", c.dbName + ['?'] + "parseTime=true");
    assert afterPort[1..] == c.dbName + ['?'] + "parseTime=true";
    CutOfJoin(c.dbName, '?', "parseTime=true");
  }

  // ---- Method override ----

  /** The method a request carries on after the middleware: only a POST asking for PUT or DELETE changes. */
  function OverriddenMethod(httpMethod: string, field: string): (m: string)
    ensures m != httpMethod <==> httpMethod == "POST" && (field == "PUT" || field == "DELETE")
    ensures m == httpMethod || m == field
  {
    if httpMethod == "POST" && (field == "PUT" || field == "DELETE") then field else httpMethod
  }

  /** methodOverrideMiddleware: rewrites the method in place; reading _method parses the form of every POST. */
  method MethodOverrideMiddleware(r: Request)
    modifies r
    ensures r.httpMethod == OverriddenMethod(old(r.httpMethod), r.Field("_method"))
    ensures r.parsed == (old(r.parsed) || old(r.httpMethod) == "POST")
  {
    if r.httpMethod == "POST" {
      var m := r.FormValue("_method");
      if m == "PUT" || m == "DELETE" {
        r.httpMethod := m;
      }
    }
  }

  // ---- Routing ----

  /** The patterns registered on the ServeMux, and the subtree root it redirects. */
  datatype Pattern = RootPattern | NewPattern | TodosPattern | TodosSubtreePattern | StaticPattern | StaticRoot

  /**
   * The pattern a path matches: an exact pattern matches only itself, a
   * pattern ending in '/' its whole subtree, and the longest match wins;
   * "/" catches every path nothing else matches.
   */
  function MuxPattern(path: string): (p: Pattern)
    ensures p == NewPattern <==> path == "/todos/new"
    ensures p == TodosPattern <==> path == "/todos"
    ensures p == TodosSubtreePattern <==> HasPrefix(path, "/todos/") && path != "/todos/new"
    ensures p == StaticPattern <==> HasPrefix(path, "/static/")
    ensures p == StaticRoot <==> path == "/static"
  {
    PrefixesDisjoint(path);
    if path == "/todos/new" then NewPattern
    else if path == "/todos" then TodosPattern
    else if HasPrefix(path, "/todos/") then TodosSubtreePattern
    else if HasPrefix(path, "/static/") then StaticPattern
    else if path == "/static" then StaticRoot
    else RootPattern
  }

  /** No path lies under both subtrees, and neither subtree holds the other patterns. */
  lemma PrefixesDisjoint(path: string)
    ensures !(HasPrefix(path, TodosPrefix) && HasPrefix(path, "/static/"))
    ensures HasPrefix(path, "/static/") ==> path != "/todos/new" && path != "/todos" && path != "/static"
    ensures HasPrefix(path, TodosPrefix) ==> path != "/todos" && path != "/static"
  {
    if HasPrefix(path, TodosPrefix) {
      assert path[1] == 't';
    }
    if HasPrefix(path, "/static/") {
      assert path[1] == 's';
    }
  }

  /** A path ends with at most one of the two action suffixes. */
  lemma SuffixesDisjoint(rest: string)
    ensures !(HasSuffix(rest, "/edit") && HasSuffix(rest, "/toggle"))
  {
    if HasSuffix(rest, "/edit") {
      assert rest[|rest| - 1] == 't';
    }
    if HasSuffix(rest, "/toggle") {
      assert rest[|rest| - 1] == 'e';
    }
  }

  /** The code the handler writes once the request reaches it. */
  datatype Target = Home | CreateForm | Create | EditForm | Update | Delete | Toggle | Static | StaticRedirect | NotFoundPage

  /** The "/todos" closure: a POST creates, anything else is not found. */
  function TodosDispatch(httpMethod: string): (t: Target)
    ensures t == Create <==> httpMethod == "POST"
    ensures t != Create ==> t == NotFoundPage
  {
    if httpMethod == "POST" then Create else NotFoundPage
  }

  /**
   * The "/todos/" closure: the edit and toggle suffixes are looked at before
   * the method, so they reach their handler whatever the method is.
   */
  function TodosSubtreeDispatch(httpMethod: string, path: string): (t: Target)
    ensures var rest := TrimPrefix(path, TodosPrefix);
      && (t == EditForm <==> HasSuffix(rest, "/edit"))
      && (t == Toggle <==> HasSuffix(rest, "/toggle"))
      && (t == Delete <==> !HasSuffix(rest, "/edit") && !HasSuffix(rest, "/toggle") && httpMethod == "DELETE")
      && (t == Update <==> !HasSuffix(rest, "/edit") && !HasSuffix(rest, "/toggle") && (httpMethod == "POST" || httpMethod == "PUT"))
      && t in {EditForm, Toggle, Delete, Update, NotFoundPage}
  {
    var rest := TrimPrefix(path, TodosPrefix);
    SuffixesDisjoint(rest);
    if HasSuffix(rest, "/edit") then EditForm
    else if HasSuffix(rest, "/toggle") then Toggle
    else if httpMethod == "DELETE" then Delete
    else if httpMethod == "POST" || httpMethod == "PUT" then Update
    else NotFoundPage
  }

  /**
   * Where a request with this (already overridden) method and path ends up:
   * every path outside the registered patterns is the home page, "/todos"
   * answers only POST, and the four id routes lie under "/todos/".
   */
  function Route(httpMethod: string, path: string): (t: Target)
    ensures t == Home <==>
      (path != "/todos/new" && path != "/todos" && path != "/static"
       && !HasPrefix(path, TodosPrefix) && !HasPrefix(path, "/static/"))
    ensures t == CreateForm <==> path == "/todos/new"
    ensures t == Create <==> path == "/todos" && httpMethod == "POST"
    ensures t == Static <==> HasPrefix(path, "/static/")
    ensures t == StaticRedirect <==> path == "/static"
    ensures t in {EditForm, Update, Delete, Toggle} ==> HasPrefix(path, TodosPrefix) && path != "/todos/new"
    ensures t == NotFoundPage ==> path == "/todos" || HasPrefix(path, TodosPrefix)
  {
    match MuxPattern(path)
    case RootPattern => Home
    case NewPattern => CreateForm
    case TodosPattern => TodosDispatch(httpMethod)
    case TodosSubtreePattern => TodosSubtreeDispatch(httpMethod, path)
    case StaticPattern => Static
    case StaticRoot => StaticRedirect
  }

  const StatusMovedPermanently := 301

  /**
   * What serving a request that the mux sent to `target` answers, and what the
   * table becomes: the outcome of that handler, or the file server's answers.
   * Only the four mutating routes may change the table.
   */
  ghost predicate Served(target: Target, before: Table, after: Table, httpMethod: string, path: string,
                         formErr: bool, rawTitle: string, rawDescription: string, hxRequest: string,
                         ext: Outside, resp: Response)
  {
    match target
    case Home => after == before && HomeOutcome(before.rows, path, ext, resp)
    case CreateForm => after == before && CreateFormOutcome(path, ext, resp)
    case Create => CreateOutcome(before, after, httpMethod, formErr, rawTitle, rawDescription, hxRequest, ext, resp)
    case EditForm => after == before && EditFormOutcome(before.rows, path, ext, resp)
    case Update => UpdateOutcome(before, after, httpMethod, path, formErr, rawTitle, rawDescription, ext, resp)
    case Delete => DeleteOutcome(before, after, httpMethod, path, hxRequest, ext, resp)
    case Toggle => ToggleOutcome(before, after, httpMethod, path, hxRequest, ext, resp)
    case Static => after == before && resp == StaticFile(TrimPrefix(path, "/static/"))
    case StaticRedirect => after == before && resp == Redirect("/static/", StatusMovedPermanently)
    case NotFoundPage => after == before && resp == Error(StatusNotFound, "404 page not found")
  }

  /** No request stores an empty title: serving one keeps every stored title non-empty. */
  lemma ServedKeepsTitles(target: Target, before: Table, after: Table, httpMethod: string, path: string,
                          formErr: bool, rawTitle: string, rawDescription: string, hxRequest: string,
                          ext: Outside, resp: Response)
    requires Served(target, before, after, httpMethod, path, formErr, rawTitle, rawDescription, hxRequest, ext, resp)
    requires forall id :: id in before.rows ==> before.rows[id].title != ""
    ensures forall id :: id in after.rows ==> after.rows[id].title != ""
  {
  }

  /** "Error parsing form" is only ever the answer to a form that failed to parse on its first parse. */
  lemma ParseErrorNeedsFormError(target: Target, before: Table, after: Table, httpMethod: string, path: string,
                                 formErr: bool, rawTitle: string, rawDescription: string, hxRequest: string,
                                 ext: Outside, resp: Response)
    requires Served(target, before, after, httpMethod, path, formErr, rawTitle, rawDescription, hxRequest, ext, resp)
    requires resp == Error(StatusBadRequest, "Error parsing form")
    ensures formErr
    ensures target == Create || target == Update
  {
  }

  /**
   * The ServeMux with the routes of main: picks the target for the method and
   * path and runs its handler, or answers as the file server and http.NotFound do.
   */
  method Mux(h: TodoHandler, r: Request, ext: Outside) returns (resp: Response)
    requires h.Valid()
    modifies h.model, r`parsed
    ensures h.Valid()
    ensures Route(r.httpMethod, r.path) !in {Create, Update, Delete, Toggle} ==> unchanged(h.model)
    ensures Served(Route(r.httpMethod, r.path), old(h.model.Snapshot()), h.model.Snapshot(), r.httpMethod, r.path,
                   !old(r.parsed) && r.formMalformed, r.Field("title"), r.Field("description"), r.hxRequest, ext, resp)
  {
    match Route(r.httpMethod, r.path)
    case Home =>
      resp := h.HomeHandler(r, ext);
    case CreateForm =>
      resp := h.CreateTodoFormHandler(r, ext);
    case Create =>
      resp := h.CreateTodoHandler(r, ext);
    case EditForm =>
      resp := h.EditTodoFormHandler(r, ext);
    case Update =>
      resp := h.UpdateTodoHandler(r, ext);
    case Delete =>
      resp := h.DeleteTodoHandler(r, ext);
    case Toggle =>
      resp := h.ToggleTodoHandler(r, ext);
    case Static =>
      resp := StaticFile(TrimPrefix(r.path, "/static/"));
    case StaticRedirect =>
      resp := Redirect("/static/", StatusMovedPermanently);
    case NotFoundPage =>
      resp := Error(StatusNotFound, "404 page not found");
  }

  /**
   * The whole request path: the override middleware, then the mux, then the
   * handler. A POST never gets "Error parsing form": the middleware has
   * already parsed its form and swallowed the error.
   */
  method ServeHTTP(h: TodoHandler, r: Request, ext: Outside) returns (resp: Response)
    requires h.Valid()
    modifies h.model, r
    ensures h.Valid()
    ensures r.httpMethod == OverriddenMethod(old(r.httpMethod), r.Field("_method"))
    ensures old(r.httpMethod) == "POST" ==> resp != Error(StatusBadRequest, "Error parsing form")
    ensures Route(r.httpMethod, r.path) !in {Create, Update, Delete, Toggle} ==> unchanged(h.model)
    ensures Route(r.httpMethod, r.path) == NotFoundPage ==> resp == Error(StatusNotFound, "404 page not found")
    ensures Route(r.httpMethod, r.path) == Toggle && r.httpMethod != "POST" ==>
      resp == Error(StatusMethodNotAllowed, "Method not allowed")
    ensures Route(r.httpMethod, r.path) == Static ==> resp == StaticFile(TrimPrefix(r.path, "/static/"))
    ensures Route(r.httpMethod, r.path) == StaticRedirect ==> resp == Redirect("/static/", StatusMovedPermanently)
    ensures Served(Route(r.httpMethod, r.path), old(h.model.Snapshot()), h.model.Snapshot(), r.httpMethod, r.path,
                   !old(r.parsed) && old(r.httpMethod) != "POST" && r.formMalformed,
                   r.Field("title"), r.Field("description"), r.hxRequest, ext, resp)
  {
    MethodOverrideMiddleware(r);
    resp := Mux(h, r, ext);
    if resp == Error(StatusBadRequest, "Error parsing form") {
      ParseErrorNeedsFormError(Route(r.httpMethod, r.path), old(h.model.Snapshot()), h.model.Snapshot(), r.httpMethod,
                               r.path, !old(r.parsed) && old(r.httpMethod) != "POST" && r.formMalformed,
                               r.Field("title"), r.Field("description"), r.hxRequest, ext, resp);
    }
  }

  // ---- Properties of the routing table ----

  /** Every method reaches the edit form on an edit path, DELETE and PUT included. */
  lemma EditPathIgnoresMethod(httpMethod: string, idText: string)
    ensures Route(httpMethod, TodosPrefix + idText + "/edit") == EditForm
  {
    var path := TodosPrefix + idText + "/edit";
    assert path == TodosPrefix + (idText + "/edit");
    TrimPrefixOfJoin(TodosPrefix, idText + "/edit");
    TrimSuffixOfJoin(idText, "/edit");
    assert path != "/todos/new" by {
      assert |path| >= 12;
    }
  }

  /** Every method reaches the toggle handler on a toggle path. */
  lemma TogglePathIgnoresMethod(httpMethod: string, idText: string)
    ensures Route(httpMethod, TodosPrefix + idText + "/toggle") == Toggle
  {
    var path := TodosPrefix + idText + "/toggle";
    assert path == TodosPrefix + (idText + "/toggle");
    TrimPrefixOfJoin(TodosPrefix, idText + "/toggle");
    TrimSuffixOfJoin(idText, "/toggle");
    assert |path| >= 14;
  }

  /**
   * A form that posts _method=PUT or _method=DELETE to a toggle path reaches
   * the toggle handler with that method, which refuses it.
   */
  lemma OverrideOnTogglePath(field: string, idText: string)
    requires field == "PUT" || field == "DELETE"
    ensures Route(OverriddenMethod("POST", field), TodosPrefix + idText + "/toggle") == Toggle
    ensures OverriddenMethod("POST", field) != "POST"
  {
    TogglePathIgnoresMethod(OverriddenMethod("POST", field), idText);
  }

  /** A card's delete button reaches the delete handler, which reads the card's id. */
  lemma DeleteLinkRoutesBack(id: int)
    requires MinInt64 <= id <= MaxInt64
    ensures Route("DELETE", TodoPath(id)) == Delete && ResourceId(TodoPath(id)) == Some(id)
  {
    var digits := Itoa(id);
    var path := TodosPrefix + digits;
    AtoiItoa(id);
    TrimPrefixOfJoin(TodosPrefix, digits);
    assert IsDigit(digits[|digits| - 1]);
    assert !HasSuffix(digits, "/edit") && !HasSuffix(digits, "/toggle");
    assert path[|path| - 1] == digits[|digits| - 1];
  }

  /**
   * The links a card holds lead back to the todo it shows: its toggle button
   * (hx-post) to the toggle handler, its edit link (any method) to the edit
   * form and its delete button (hx-delete) to the delete handler, each
   * reading the card's own id.
   */
  lemma CardLinksRouteBack(t: Todo, httpMethod: string)
    requires MinInt64 <= t.id <= MaxInt64
    ensures var card := CardFor(t);
      && Route("POST", card.togglePath) == Toggle && ToggleId(card.togglePath) == Some(t.id)
      && Route(httpMethod, card.editPath) == EditForm && EditId(card.editPath) == Some(t.id)
      && Route("DELETE", card.deletePath) == Delete && ResourceId(card.deletePath) == Some(t.id)
  {
    var digits := Itoa(t.id);
    TogglePathIgnoresMethod("POST", digits);
    ToggleIdOfPath(t.id);
    EditPathIgnoresMethod(httpMethod, digits);
    IdExtractionDiffers(t.id);
    DeleteLinkRoutesBack(t.id);
  }

  /** Every path outside /todos and /static is served the home page, whatever the method. */
  lemma UnknownPathsShowHome(httpMethod: string, path: string)
    requires !HasPrefix(path, "/todos") && !HasPrefix(path, "/static")
    ensures Route(httpMethod, path) == Home
  {
  }
}
