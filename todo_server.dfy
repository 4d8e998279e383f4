/**
 * The todo backend's request semantics: the input-validation middleware, the
 * five CRUD routes over the todo collection, and the error-handling
 * middleware that turns every failure of the database driver into a 500.
 *
 * The collection is a map from document id to todo. Each call into the
 * driver takes `thrown`: `Some(fault)` when the driver throws (a malformed
 * id that cannot be cast, a lost connection), `None` when it answers.
 */
module TodoServer {
  import opened Wrappers
  import opened JsString

  /**
   * A document id, matched against the stored ids as a string; the cast of a
   * route parameter to an ObjectId is not modelled.
   */
  type Id = string

  /** The value of `req.body.task` after JSON parsing; `Missing` when the body has no `task`. */
  datatype Json = Missing | Null | Bool(b: bool) | Num(x: real) | Str(s: string) | Arr | Obj

  /** ECMAScript ToBoolean, for the values a JSON body can hold. */
  predicate Truthy(v: Json): (b: bool)
    ensures !b <==> v in {Missing, Null, Bool(false), Num(0.0), Str([])}
  {
    match v
    case Missing => false
    case Null => false
    case Bool(b) => b
    case Num(x) => x != 0.0
    case Str(s) => s != []
    case Arr => true
    case Obj => true
  }

  datatype Todo = Todo(task: string, done: bool)

  /** An error thrown by the database driver, with its `message`. */
  datatype Fault = Fault(message: string)

  datatype Result<T> = Ok(value: T) | Err(fault: Fault)

  /** JSON response bodies: `{error}`, `{error, message}`, one document, or the whole collection. */
  datatype Body =
    | Message(error: string)
    | ServerError(error: string, message: string)
    | Document(id: Id, todo: Todo)
    | Documents(todos: map<Id, Todo>)

  datatype Response = Response(status: nat, body: Body)

  const InvalidTaskMessage := "Task is required and must be a non-empty string"
  const NotFoundMessage := "Todo not found"
  const InternalErrorMessage := "Internal Server Error"
  const GenericFaultMessage := "Something went wrong"
  /** What MongoDB throws when an insert reuses an existing `_id`. */
  const DuplicateKey := Fault("E11000 duplicate key error")

  const BadRequest := Response(400, Message(InvalidTaskMessage))
  const NotFound := Response(404, Message(NotFoundMessage))

  /**
   * `errorHandler`: every error forwarded with `next(err)` becomes a 500; the
   * driver's message is shown only when NODE_ENV is "development".
   */
  function ErrorHandler(err: Fault, development: bool): (r: Response)
    ensures r.status == 500 && r.body.ServerError? && r.body.error == InternalErrorMessage
    ensures r.body.message == (if development then err.message else GenericFaultMessage)
  {
    Response(500, ServerError(InternalErrorMessage, if development then err.message else GenericFaultMessage))
  }

  /**
   * The decision of `validateTodoInput`: the trimmed task when the request is
   * accepted, None when it is rejected. The three checks are the source's, in
   * its order: falsy, not a string, empty after trimming.
   */
  function Validate(task: Json): (r: Option<string>)
    ensures r.Some? <==> task.Str? && !AllWhitespace(task.s)
    ensures r.Some? ==> r.value == Trim(task.s) && IsTrimmedNonEmpty(r.value) && Trim(r.value) == r.value
  {
    if !Truthy(task) || !task.Str? then None
    else
      TrimEmptyIff(task.s);
      if |Trim(task.s)| == 0 then None
      else
        TrimmedForm(task.s);
        Some(Trim(task.s))
  }

  /** Every stored task is non-empty and has no whitespace at either end. */
  ghost predicate AllTrimmed(todos: map<Id, Todo>) {
    forall id :: id in todos ==> IsTrimmedNonEmpty(todos[id].task)
  }

  /** The part of an Express request the routes read: `req.body.task`. */
  class Request {
    var task: Json

    constructor (task: Json)
      ensures this.task == task
    {
      this.task := task;
    }
  }

  /**
   * `validateTodoInput`: either answers 400 and does not call `next`
   * (`rejection` is Some), or replaces `req.body.task` by its trimmed form and
   * calls `next` (`rejection` is None).
   */
  method ValidateTodoInput(req: Request) returns (rejection: Option<Response>)
    modifies req
    ensures rejection.None? <==> Validate(old(req.task)).Some?
    ensures rejection.Some? ==> rejection.value == BadRequest && req.task == old(req.task)
    ensures rejection.None? ==> req.task == Str(Validate(old(req.task)).value)
  {
    var accepted := Validate(req.task);
    if accepted.None? {
      return Some(BadRequest);
    }
    req.task := Str(accepted.value);
    rejection := None;
  }

  /** The update documents the routes pass to `findByIdAndUpdate`. */
  datatype Update = MarkDone | SetTask(task: string)

  /** The effect of an update document on a todo: a field is set, never toggled. */
  function Apply(u: Update, t: Todo): (r: Todo)
    ensures u.MarkDone? ==> r.done && r.task == t.task
    ensures u.SetTask? ==> r.task == u.task && r.done == t.done
  {
    match u
    case MarkDone => t.(done := true)
    case SetTask(task) => t.(task := task)
  }

  /** `todos` with the update applied to the document `id`, if there is one; no other document changes. */
  function Updated(todos: map<Id, Todo>, id: Id, u: Update): (r: map<Id, Todo>)
    ensures r.Keys == todos.Keys
    ensures id in todos ==> r[id] == Apply(u, todos[id])
    ensures forall k :: k in todos && k != id ==> r[k] == todos[k]
  {
    if id in todos then todos[id := Apply(u, todos[id])] else todos
  }

  /** Applying the same update twice leaves the collection as applying it once. */
  lemma UpdateIdempotent(todos: map<Id, Todo>, id: Id, u: Update)
    ensures Updated(Updated(todos, id, u), id, u) == Updated(todos, id, u)
  {
    if id in todos {
      assert Apply(u, Apply(u, todos[id])) == Apply(u, todos[id]);
    }
  }

  /** An update that keeps tasks trimmed keeps every stored task trimmed. */
  lemma UpdatedKeepsTrimmed(todos: map<Id, Todo>, id: Id, u: Update)
    requires AllTrimmed(todos)
    requires u.SetTask? ==> IsTrimmedNonEmpty(u.task)
    ensures AllTrimmed(Updated(todos, id, u))
  {
    var r := Updated(todos, id, u);
    forall k | k in r ensures IsTrimmedNonEmpty(r[k].task) {
      assert k in todos;
    }
  }

  /** Inserting a todo whose task is trimmed keeps every stored task trimmed. */
  lemma InsertKeepsTrimmed(todos: map<Id, Todo>, id: Id, t: Todo)
    requires AllTrimmed(todos) && IsTrimmedNonEmpty(t.task)
    ensures AllTrimmed(todos[id := t])
  {
    var r := todos[id := t];
    forall k | k in r ensures IsTrimmedNonEmpty(r[k].task) {
      if k != id { assert k in todos; }
    }
  }

  /**
   * The todo collection (`TodoModel`) and the four driver calls the routes
   * make. `defaultDone` is the schema default of `done` for a created
   * document; the schema is not part of this model, so nothing depends on it.
   */
  class TodoStore {
    var todos: map<Id, Todo>
    const defaultDone: bool

    constructor (defaultDone: bool)
      ensures todos == map[] && this.defaultDone == defaultDone
    {
      todos := map[];
      this.defaultDone := defaultDone;
    }

    /** `TodoModel.create({task})`, the new document getting id `id` from the driver. */
    method Create(id: Id, task: string, thrown: Option<Fault>) returns (r: Result<Todo>)
      modifies this
      ensures thrown.Some? ==> r == Err(thrown.value) && todos == old(todos)
      ensures thrown.None? && id in old(todos) ==> r == Err(DuplicateKey) && todos == old(todos)
      ensures thrown.None? && id !in old(todos) ==>
        r == Ok(Todo(task, defaultDone)) && todos == old(todos)[id := Todo(task, defaultDone)]
    {
      if thrown.Some? {
        return Err(thrown.value);
      }
      if id in todos {
        return Err(DuplicateKey);
      }
      todos := todos[id := Todo(task, defaultDone)];
      r := Ok(Todo(task, defaultDone));
    }

    /** `TodoModel.find()`: every document. */
    method Find(thrown: Option<Fault>) returns (r: Result<map<Id, Todo>>)
      ensures thrown.Some? ==> r == Err(thrown.value)
      ensures thrown.None? ==> r == Ok(todos)
    {
      if thrown.Some? {
        return Err(thrown.value);
      }
      r := Ok(todos);
    }

    /** `TodoModel.findByIdAndUpdate(id, update, {new: true})`: the updated document, or None (null) for an unknown id. */
    method FindByIdAndUpdate(id: Id, u: Update, thrown: Option<Fault>) returns (r: Result<Option<Todo>>)
      modifies this
      ensures thrown.Some? ==> r == Err(thrown.value) && todos == old(todos)
      ensures thrown.None? ==> todos == Updated(old(todos), id, u)
      ensures thrown.None? ==> r == Ok(if id in old(todos) then Some(todos[id]) else None)
    {
      if thrown.Some? {
        return Err(thrown.value);
      }
      if id !in todos {
        return Ok(None);
      }
      todos := todos[id := Apply(u, todos[id])];
      r := Ok(Some(todos[id]));
    }

    /** `TodoModel.findByIdAndDelete({_id: id})`: the removed document, or None (null) for an unknown id. */
    method FindByIdAndDelete(id: Id, thrown: Option<Fault>) returns (r: Result<Option<Todo>>)
      modifies this
      ensures thrown.Some? ==> r == Err(thrown.value) && todos == old(todos)
      ensures thrown.None? ==> todos == old(todos) - {id}
      ensures thrown.None? ==> r == Ok(if id in old(todos) then Some(old(todos)[id]) else None)
    {
      if thrown.Some? {
        return Err(thrown.value);
      }
      if id !in todos {
        return Ok(None);
      }
      r := Ok(Some(todos[id]));
      todos := todos - {id};
    }
  }

  /**
   * POST /add: `validateTodoInput`, then `create`; 201 with the new document.
   * `newId` is the ObjectId the driver generates for it.
   */
  method AddRoute(store: TodoStore, req: Request, newId: Id, thrown: Option<Fault>, development: bool)
    returns (resp: Response)
    modifies store, req
    ensures Validate(old(req.task)).None? ==>
      resp == BadRequest && store.todos == old(store.todos) && req.task == old(req.task)
    ensures Validate(old(req.task)).Some? ==>
      var task := Validate(old(req.task)).value;
      && req.task == Str(task)
      && (thrown.Some? ==> resp == ErrorHandler(thrown.value, development) && store.todos == old(store.todos))
      && (thrown.None? && newId in old(store.todos) ==>
            resp == ErrorHandler(DuplicateKey, development) && store.todos == old(store.todos))
      && (thrown.None? && newId !in old(store.todos) ==>
            && resp == Response(201, Document(newId, Todo(task, store.defaultDone)))
            && store.todos == old(store.todos)[newId := Todo(task, store.defaultDone)])
    ensures resp.status == 201 ==>
      newId !in old(store.todos) && store.todos.Keys == old(store.todos.Keys) + {newId}
      && |store.todos| == |old(store.todos)| + 1
    ensures AllTrimmed(old(store.todos)) ==> AllTrimmed(store.todos)
  {
    ghost var before := store.todos;
    var rejection := ValidateTodoInput(req);
    if rejection.Some? {
      return rejection.value;
    }
    var task := req.task.s;
    assert IsTrimmedNonEmpty(task);
    var result := store.Create(newId, task, thrown);
    if result.Ok? && AllTrimmed(before) {
      InsertKeepsTrimmed(before, newId, Todo(task, store.defaultDone));
    }
    match result
    case Err(fault) =>
      resp := ErrorHandler(fault, development);
    case Ok(todo) =>
      resp := Response(201, Document(newId, todo));
  }

  /** GET /get: the whole collection, which it does not change. */
  method GetRoute(store: TodoStore, thrown: Option<Fault>, development: bool) returns (resp: Response)
    ensures thrown.Some? ==> resp == ErrorHandler(thrown.value, development)
    ensures thrown.None? ==> resp == Response(200, Documents(store.todos))
  {
    var result := store.Find(thrown);
    match result
    case Err(fault) =>
      resp := ErrorHandler(fault, development);
    case Ok(todos) =>
      resp := Response(200, Documents(todos));
  }

  /** PUT /edit/:id: sets `done` to true on that document (no validation, no toggling). */
  method EditRoute(store: TodoStore, id: Id, thrown: Option<Fault>, development: bool) returns (resp: Response)
    modifies store
    ensures thrown.Some? ==> resp == ErrorHandler(thrown.value, development) && store.todos == old(store.todos)
    ensures thrown.None? && id !in old(store.todos) ==> resp == NotFound && store.todos == old(store.todos)
    ensures thrown.None? && id in old(store.todos) ==>
      && store.todos == Updated(old(store.todos), id, MarkDone)
      && store.todos[id] == Todo(old(store.todos)[id].task, true)
      && resp == Response(200, Document(id, store.todos[id]))
    ensures AllTrimmed(old(store.todos)) ==> AllTrimmed(store.todos)
  {
    ghost var before := store.todos;
    var result := store.FindByIdAndUpdate(id, MarkDone, thrown);
    if thrown.None? && AllTrimmed(before) {
      UpdatedKeepsTrimmed(before, id, MarkDone);
    }
    match result
    case Err(fault) =>
      resp := ErrorHandler(fault, development);
    case Ok(None) =>
      resp := NotFound;
    case Ok(Some(todo)) =>
      resp := Response(200, Document(id, todo));
  }

  /**
   * PUT /update/:id: `validateTodoInput` first, so an invalid task is a 400
   * whatever the id; then replaces that document's task with the trimmed one.
   */
  method UpdateRoute(store: TodoStore, req: Request, id: Id, thrown: Option<Fault>, development: bool)
    returns (resp: Response)
    modifies store, req
    ensures Validate(old(req.task)).None? ==>
      resp == BadRequest && store.todos == old(store.todos) && req.task == old(req.task)
    ensures Validate(old(req.task)).Some? ==>
      var task := Validate(old(req.task)).value;
      && req.task == Str(task)
      && (thrown.Some? ==> resp == ErrorHandler(thrown.value, development) && store.todos == old(store.todos))
      && (thrown.None? && id !in old(store.todos) ==> resp == NotFound && store.todos == old(store.todos))
      && (thrown.None? && id in old(store.todos) ==>
            && store.todos == Updated(old(store.todos), id, SetTask(task))
            && store.todos[id] == Todo(task, old(store.todos)[id].done)
            && resp == Response(200, Document(id, store.todos[id])))
    ensures AllTrimmed(old(store.todos)) ==> AllTrimmed(store.todos)
  {
    var rejection := ValidateTodoInput(req);
    if rejection.Some? {
      return rejection.value;
    }
    var task := req.task.s;
    assert IsTrimmedNonEmpty(task);
    ghost var before := store.todos;
    var result := store.FindByIdAndUpdate(id, SetTask(task), thrown);
    if thrown.None? && AllTrimmed(before) {
      UpdatedKeepsTrimmed(before, id, SetTask(task));
    }
    match result
    case Err(fault) =>
      resp := ErrorHandler(fault, development);
    case Ok(None) =>
      resp := NotFound;
    case Ok(Some(todo)) =>
      resp := Response(200, Document(id, todo));
  }

  /** DELETE /delete/:id: removes exactly that document and answers with it. */
  method DeleteRoute(store: TodoStore, id: Id, thrown: Option<Fault>, development: bool) returns (resp: Response)
    modifies store
    ensures thrown.Some? ==> resp == ErrorHandler(thrown.value, development) && store.todos == old(store.todos)
    ensures thrown.None? && id !in old(store.todos) ==> resp == NotFound && store.todos == old(store.todos)
    ensures thrown.None? && id in old(store.todos) ==>
      && store.todos.Keys == old(store.todos).Keys - {id}
      && (forall k :: k in store.todos ==> store.todos[k] == old(store.todos)[k])
      && |store.todos| == |old(store.todos)| - 1
      && resp == Response(200, Document(id, old(store.todos)[id]))
    ensures AllTrimmed(old(store.todos)) ==> AllTrimmed(store.todos)
  {
    var result := store.FindByIdAndDelete(id, thrown);
    match result
    case Err(fault) =>
      resp := ErrorHandler(fault, development);
    case Ok(None) =>
      resp := NotFound;
    case Ok(Some(todo)) =>
      resp := Response(200, Document(id, todo));
  }

  /** PUT /edit/:id twice on a known id leaves the collection as after one call, answering 200 both times. */
  method EditTwice(store: TodoStore, id: Id, development: bool) returns (first: Response, second: Response)
    modifies store
    ensures id in old(store.todos) ==>
      && store.todos == Updated(old(store.todos), id, MarkDone)
      && first.status == 200 && second == first
  {
    ghost var before := store.todos;
    first := EditRoute(store, id, None, development);
    ghost var once := store.todos;
    second := EditRoute(store, id, None, development);
    if id in before {
      UpdateIdempotent(before, id, MarkDone);
    }
  }
}
