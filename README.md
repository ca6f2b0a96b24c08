# todoy in Dafny

todoy is a small todo-list web application written in Go: a MySQL `todos`
table behind a `TodoModel`, a set of HTTP handlers that create, edit,
toggle and delete todos, server-rendered page templates, and htmx requests
(`HX-Request: true`) that receive a partial list of todo cards instead of a
redirect. This project models that core in Dafny and proves what it does.

- `wrappers.dfy` (`Wrappers`): the `Option` type.
- `text.dfy` (`Text`): the Go string functions the handlers and the router
  rest on: `strings.TrimSpace` over the `unicode.IsSpace` set,
  `HasPrefix`/`HasSuffix`/`TrimPrefix`/`TrimSuffix`, and
  `strconv.Atoi` on a 64-bit `int`, and `Itoa`, the decimal spelling with
  which a template prints `{{.ID}}`.
- `models.dfy` (`Models`): the table as a class `TodoModel` holding a map
  from id to row, the AUTO_INCREMENT counter `nextId` and a logical clock
  for `created_at`/`updated_at`. Each method runs one SQL statement on that
  state. How the database answers (normally, the statement fails, or what
  follows a successful statement fails) is a `Fault` parameter.
- `http.dfy` (`Http`): the parts of `*http.Request` the code uses. The
  method can be rewritten in place, and the form is parsed at most once, so
  only the first `ParseForm` can report an error. The form a request
  carries is what that first parse yields.
- `templates.dfy` (`Templates`): the template helper functions, the
  template registry and `Render`, and the htmx partial list as one `Card`
  per todo. A page is the template it came from plus its data; HTML is not
  modelled.
- `handlers.dfy` (`Handlers`): id extraction and the handlers as methods of
  `TodoHandler`. Each handler is the same early-return sequence as in Go,
  with the same messages and status codes. An `Outside` value says how the
  store call, the listing query and template execution turn out. What each
  handler answers, and what the table becomes, is stated once as a
  predicate (`HomeOutcome`, `CreateOutcome`, ...). The handler's contract
  and the routing contract both use it.
- `app.dfy` (`App`): configuration from an environment map, the MySQL data
  source name, the method-override middleware, the routing table, `Mux`,
  which runs the handler a route picks, and `ServeHTTP`, which runs the
  middleware and then the mux.

Some behaviours of the code are worth knowing about, and the contracts state them:

- A POST form's `_method` is read with `FormValue`, which parses the form
  and drops any parse error. After the middleware, a POST can therefore
  never get "Error parsing form" (`App.ServeHTTP`). That answer is only
  reachable for a genuine PUT to the update handler.
- The edit and toggle suffixes are checked before the method. So
  `DELETE /todos/5/edit` shows the edit form. A form that posts
  `_method=PUT` to a toggle path reaches the toggle handler, which answers
  405.
- A missing id gets 404 from the edit form but 500 from delete, update and
  toggle, because those only learn of it from the store's error.
- Update does not check how many rows changed. For an absent id, the
  UPDATE changes nothing and the re-fetch fails.

## Model

| member | source | states |
|---|---|---|
| Text.TrimSpace | handlers/todo_handlers.go:72-73 | trimming never lengthens a string. The result is empty exactly when the input is all white space. A non-empty result starts and ends with a non-space |
| Text.TrimSpaceOfPadded | handlers/todo_handlers.go:72-73 | trimming any white-space padding off a core that has non-space ends gives back exactly that core |
| Text.TrimSpaceIdempotent | handlers/todo_handlers.go:160-161 | trimming twice is trimming once |
| Text.TrimPrefix | handlers/todo_handlers.go:109 | removes one leading prefix when present (prefix + result == input), otherwise returns the input unchanged |
| Text.TrimSuffix | handlers/todo_handlers.go:110 | removes one trailing suffix when present (result + suffix == input), otherwise returns the input unchanged |
| Text.Atoi | handlers/todo_handlers.go:112-116 | accepts exactly the strings made of an optional sign and one or more digits whose value fits in 64 bits, and returns that value (negated after '-') |
| Text.AtoiItoa | handlers/todo_handlers.go:112 | Atoi reads back every 64-bit int that Itoa prints |
| Text.NatDigits | handlers/templates.go:151 | the decimal spelling is non-empty, all digits, has the value n and has no leading zero |
| Text.Itoa | handlers/templates.go:155 | an int prints as an optional '-' followed by digits |
| Models.NewRow | models/todo.go:32-39 | an inserted row has the generated id and the given title and description. completed defaults to false, and created_at and updated_at are both the insertion time |
| Models.Edited | models/todo.go:102-105 | only title and description change. The id, completed and created_at stay. updated_at moves only when a value actually changes |
| Models.Toggled | models/todo.go:135-138 | completed flips and updated_at moves. Id, title, description and created_at stay |
| Models.ToggleTwiceRestores | models/todo.go:136 | toggling twice restores the row up to its updated_at |
| Models.Ids | models/todo.go:55-63 | an id is in the set exactly when some listed row has it |
| Models.DistinctIdsCount | models/todo.go:33 | rows with pairwise distinct ids have as many ids as rows |
| Models.ListingLength | models/todo.go:46-66 | a listing has one entry per table row, and an empty table lists as [] |
| Models.PickLatest | models/todo.go:47 | picks a key whose row has the latest created_at among the given keys |
| Models.TodoModel.constructor | models/todo.go:30-42 | the new table is empty and the AUTO_INCREMENT counter starts at 1 |
| Models.TodoModel.GetTodoByID | models/todo.go:68-82 | a present id gives the stored row. An absent id gives NotFound(id). A driver failure gives DriverError. A returned row has the asked id |
| Models.TodoModel.GetAllTodos | models/todo.go:45-66 | fails exactly when the query fails. Otherwise returns every row once, as stored, with created_at non-increasing |
| Models.TodoModel.CreateTodo | models/todo.go:84-99 | adds exactly one row under the previous AUTO_INCREMENT value, which no row had, with completed false and the given title and description. Leaves every other row unchanged. Nothing changes when the statement fails or the INT key is exhausted. A follow-up failure still leaves the row inserted |
| Models.TodoModel.UpdateTodo | models/todo.go:101-111 | a present id gets its title and description rewritten through Edited, so its updated_at moves exactly when a value differs. Its id, completed and created_at stay, and every other row, and the counter, stay unchanged. An absent id changes nothing and fails with NotFound from the re-fetch |
| Models.TodoModel.DeleteTodo | models/todo.go:113-132 | removes exactly that id unless the statement fails. Succeeds exactly when there was no fault and the id was present. An absent id gives NotFound and leaves the table unchanged |
| Models.TodoModel.ToggleTodoStatus | models/todo.go:134-144 | flips completed of that row only. An absent id changes nothing and gives NotFound from the re-fetch |
| Models.CreateTwice | models/todo.go:33 | two successful creates return different ids, neither of which was in the table before and both of which are in it after |
| Http.Request.Field | handlers/todo_handlers.go:72-73 | FormValue yields the first form value of a key, or "" when the key is absent |
| Http.Request.ParseForm | handlers/todo_handlers.go:66-70 | reports the parse error only on the first call. The form counts as parsed afterwards |
| Http.Request.FormValue | main.go:124 | parses the form when that has not happened yet, ignores the error, and yields Field(key) |
| Templates.IsCompleted | handlers/templates.go:44-49 | "Completed" exactly when completed, "Pending" exactly when not |
| Templates.CompletedClass | handlers/templates.go:50-55 | green border exactly when completed, blue exactly when not |
| Templates.CompletedTextClass | handlers/templates.go:56-61 | the empty class exactly when not completed, strike-through when completed |
| Templates.ToggleButtonClass | handlers/templates.go:62-67 | yellow exactly when completed, green exactly when not |
| Templates.ToggleButtonText | handlers/templates.go:68-73 | "Undo" exactly when completed, "Complete" exactly when not |
| Templates.ToggleButtonLongText | handlers/templates.go:74-79 | "Mark as Pending" exactly when completed, "Mark as Complete" exactly when not |
| Templates.StatusClass | handlers/templates.go:80-85 | green text exactly when completed, blue exactly when not |
| Templates.HelpersTellStatesApart | handlers/templates.go:44-85 | every helper shows completed and pending todos differently |
| Templates.Registry | handlers/templates.go:97-110 | the registry holds exactly index, create and edit, each the layout plus templates/<name>.html |
| Templates.TemplateManager.LoadTemplates | handlers/templates.go:93-111 | panics at the first template, in the order index, create, edit, whose layout or page file does not parse, so a broken layout always names index. Otherwise adds exactly the three templates |
| Templates.TemplateManager.Render | handlers/templates.go:113-129 | an unknown name writes 500 "Template not found" and returns no error. A failed execution returns the error. Otherwise writes the page from the registered template and the given data |
| Templates.TemplateManager.TemplateNames | handlers/templates.go:131-138 | lists every registered name exactly once and nothing else |
| Templates.TemplateManager.RenderTodoList | handlers/templates.go:140-170 | returns an error exactly when execution fails. Otherwise one card per todo, in input order |
| Templates.NewTemplateManager | handlers/templates.go:27-90 | a fresh manager. It panics exactly when a layout or page file does not parse, and names the first failing template in the order index, create, edit, so a broken layout always names index. When nothing panicked it holds exactly the registry |
| Handlers.IdExtractionDiffers | handlers/todo_handlers.go:109-112 | on /todos/{n}/edit only the edit form's EditId reads n. ResourceId, the whole-remainder extraction of update and delete (handlers/todo_handlers.go:145-148, 185-188), and ToggleId both reject that path |
| Handlers.ToggleIdOfPath | handlers/todo_handlers.go:227-230 | ToggleId, the toggle handler's extraction, reads n back from /todos/{n}/toggle |
| Handlers.TodoHandler.constructor | handlers/todo_handlers.go:16-22 | a handler over a consistent table and a loaded registry |
| Handlers.TodoHandler.ListOrRedirect | handlers/todo_handlers.go:86-103 | without HX-Request "true", a 303 to "/". With it: 500 "Error fetching todos" or 500 "Error rendering todos" on failure, otherwise the partial list of the whole table, newest first |
| Handlers.TodoHandler.HomeHandler | handlers/todo_handlers.go:24-43 | HomeOutcome: a listing failure gives 500 "Error fetching todos" and a render failure 500 "Error rendering template". Otherwise the index page titled "Todo List" with the full listing, newest first |
| Handlers.TodoHandler.CreateTodoFormHandler | handlers/todo_handlers.go:45-57 | CreateFormOutcome: the create page titled "Create Todo", or 500 "Error rendering template" |
| Handlers.TodoHandler.CreateTodoHandler | handlers/todo_handlers.go:59-104 | CreateOutcome: checks method, form, title, store, in that order. Non-POST gives 405, a form parse error 400 and a title that is empty after trimming 400, all with the table unchanged. A stored row holds the trimmed title and description under the next id, and the counter and clock advance. A failed insert or an exhausted key changes nothing and gives 500. A failed re-fetch gives 500 with the row kept. Success is the list fragment exactly when HX-Request is "true", otherwise a 303 to "/" |
| Handlers.TodoHandler.EditTodoFormHandler | handlers/todo_handlers.go:106-135 | EditFormOutcome: no method check. A non-integer id gives 400. A missing id or any failed read gives 404 "Todo not found". Otherwise the edit page titled "Edit Todo" showing the stored row |
| Handlers.TodoHandler.UpdateTodoHandler | handlers/todo_handlers.go:137-175 | UpdateOutcome: checks method (POST or PUT), then id, form and title, each failure with the table unchanged. Only the row with that id changes, through Edited. A missing id or store error gives 500 "Error updating todo". Success is always a 303 to "/", never a fragment |
| Handlers.TodoHandler.DeleteTodoHandler | handlers/todo_handlers.go:177-217 | DeleteOutcome: DELETE only, then the id. Removes exactly that row unless the statement fails. A missing id gives 500 "Error deleting todo" with the table unchanged. Success is the list fragment or a 303 as for create |
| Handlers.TodoHandler.ToggleTodoHandler | handlers/todo_handlers.go:219-259 | ToggleOutcome: POST only, then the id. Flips exactly that row. A missing id gives 500 "Error toggling todo status" with the table unchanged. Success is the list fragment or a 303 as for create |
| App.GetEnv | main.go:104-110 | the variable's value when it is set and non-empty, otherwise the fallback |
| App.LoadConfig | main.go:18-22 | every setting except the password is non-empty |
| App.ConfigOverrides | main.go:18-22 | each setting is decided by its own variable alone: its value when set and non-empty, otherwise that setting's default (root, "", localhost, 3306, todoapp, 8080), whatever the other variables hold |
| App.DsnRoundTrip | main.go:24-25 | the data source name that Dsn formats as user:password@tcp(host:port)/dbname?parseTime=true gives back user, password, host, port and database name, in that order, when no field contains its terminating separator |
| App.OverriddenMethod | main.go:123-127 | the method changes only for a POST whose _method is exactly "PUT" or "DELETE", and then becomes that value |
| App.MethodOverrideMiddleware | main.go:120-131 | rewrites the method to OverriddenMethod. Every POST has its form parsed afterwards |
| App.MuxPattern | main.go:58-88 | /todos/new and /todos match only themselves. /todos/… and /static/… match their subtrees, and /static redirects to its subtree root. Everything else falls to "/" |
| App.PrefixesDisjoint | main.go:71 | no path is under both /todos/ and /static/, and neither subtree contains the exact patterns |
| App.SuffixesDisjoint | main.go:74-77 | no path ends in both /edit and /toggle |
| App.TodosDispatch | main.go:62-68 | POST creates, every other method is not found |
| App.TodosSubtreeDispatch | main.go:71-85 | /edit wins, then /toggle, whatever the method. Without those suffixes, DELETE deletes, POST or PUT updates, anything else is not found |
| App.Route | main.go:55-88 | every path outside the registered patterns shows the home page, and only those paths do. /todos/new is the create form. /todos creates exactly for POST. /static/… is served as a file and /static redirects. The id routes and the not-found answers lie under /todos/ or at /todos |
| App.Mux | main.go:55-88 | for the route the mux picks, the outcome of exactly that handler (HomeOutcome, CreateOutcome, and so on), or the file server's and http.NotFound's answers. Only create, update, delete and toggle can change the table |
| App.ServedKeepsTitles | handlers/todo_handlers.go:74-78 | whatever the route, serving a request keeps the invariant that no stored title is empty, because create and update refuse a title that is empty after trimming |
| App.ParseErrorNeedsFormError | handlers/todo_handlers.go:66-70 | whatever the route, "Error parsing form" is answered only when the handler's own ParseForm reports an error, and only by create or update |
| App.ServeHTTP | main.go:91 | runs the override middleware, then, for the route the mux picks, has exactly the outcome of that handler (HomeOutcome, CreateOutcome, and so on) with the overridden method and the form-error flag the handler sees, or the file server's answers. A POST never gets "Error parsing form". Only create, update, delete and toggle can change the table. A not-found route gives 404. A non-POST on a toggle path gives 405 |
| App.EditPathIgnoresMethod | main.go:74-75 | every method, DELETE included, reaches the edit form on /todos/{x}/edit |
| App.TogglePathIgnoresMethod | main.go:76-77 | every method reaches the toggle handler on /todos/{x}/toggle |
| App.OverrideOnTogglePath | main.go:123-126 | a POST with _method PUT or DELETE to a toggle path is dispatched to the toggle handler with a method other than POST |
| App.DeleteLinkRoutesBack | handlers/templates.go:159 | the delete button's path with DELETE reaches the delete handler, which reads the card's id |
| App.CardLinksRouteBack | handlers/templates.go:151-159 | each card's toggle, edit and delete targets (CardFor, built on TodoPath) route back to their handler with that todo's id |
| App.UnknownPathsShowHome | main.go:58 | every path outside /todos and /static shows the home page, whatever the method |

## Left out

- The MySQL driver, `sql.Open`/`Ping`, `CreateTable`'s DDL and row scanning are not modelled. A driver error is the `Fault` or `fails` parameter of each call.
- Real time is not modelled. Timestamps are ticks of a logical clock, advanced by every write that changes a row. Clock granularity, and two rows sharing a `created_at`, are not modelled. `formatDate`, `formatDateLong` and `datesEqual` (handlers/templates.go:35-43) format real times and are left out. A card keeps the raw `createdAt` tick.
- Models.TodoModel.GetAllTodos: ties in `created_at` are broken by an arbitrary choice, as in MySQL, so the contract does not fix the order among rows with equal stamps.
- Models.TodoModel.GetAllTodos: models/todo.go:56-65 never checks `rows.Err()`. An error while reading the result ends the loop early, and Go then returns the rows read so far with no error. The model has no such truncated listing: the query either fails or returns the whole table.
- Models.TodoModel.CreateTodo: the 255-character limit of the `title` column (models/todo.go:34) is not modelled; the INSERT (models/todo.go:86) accepts any title.
- Models.TodoModel.UpdateTodo: the same 255-character limit is not modelled for the UPDATE (models/todo.go:103) either.
- HTML escaping, the layout and page files, and template parse and execution errors are not modelled. Parse and execution errors are parameters: `unparsable` and `renderFails`. A failed execution's partial output is `Blank`, followed by the handler's error.
- Templates.TemplateManager.Render: a failed execution is answered 500 "Error rendering template" by the handlers, and after `RenderTodoList` 500 "Error rendering todos". Go's `Execute` writes to the response as it runs (handlers/templates.go:122, 169). Once it has written anything, status 200 is fixed and the later `http.Error` cannot change it. The client then gets 200 with partial HTML followed by the error text. The model's 500 holds only when execution fails before writing anything.
- `RenderError` is `http.Error` and appears as the `Error` response. `RenderJSON` is a stub and is left out. The unused `Error` and `Success` fields of `TemplateData` are left out.
- Logging is not modelled: `loggingMiddleware` and the `log.Printf` calls in `Render` (handlers/templates.go:117, 124) only write to the log. `ListenAndServe`, the listen address and the static `FileServer` are not modelled. A static request answers with the file path it would serve. `ServeMux` path cleaning (`..`, `//`) is not modelled. Host patterns are not modelled.
- Concurrency between requests is not modelled.
- Http.Request: body encodings are not modelled. `form` is given as what the request's first parse yields. Go's `ParseForm` decodes only a urlencoded body, while `FormValue` (the middleware's, main.go:124) goes through `ParseMultipartForm` and also decodes a multipart body. So a genuine PUT with a multipart body shows no title to the update handler, which calls `ParseForm` first (handlers/todo_handlers.go:154), and gets 400 "Title is required". The same body sent as a POST with `_method=PUT` updates the row. In the model that difference lies in which `form` the caller supplies.
- Text: strings are sequences of Unicode scalar values. Go's handling of invalid UTF-8 is not modelled. Atoi does not distinguish a syntax error from a range error, because every caller only checks for an error.
- The constructors do not fit together as written. main.go:52 passes one argument to `NewTodoHandler`, which takes two (handlers/todo_handlers.go:17). handlers/todo_handlers.go:20 passes one to `NewTemplateManager`, which takes none (handlers/templates.go:28). The model's `TodoHandler.constructor` takes a table and an already loaded registry instead.
- Templates.TemplateManager.TemplateNames: Go's map iteration order is random, so only membership and uniqueness are stated, not an order.
- Templates.TemplateManager.LoadTemplates: on a panic, Go has already stored a nil entry under the failing name. The model stops before that store.
- App.ParseDsn is a reader of the format written for the round trip, built on the helper App.Cut. The MySQL driver's own DSN parser is not part of this model.
