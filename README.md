# Todo application: backend request semantics and test-runner logic, in Dafny

This project models the parts of the Devops-Todo repository that decide
something on their own:

- **The todo backend** (`todo_backend/server.js`). The `validateTodoInput`
  middleware accepts a request only when `task` is a string that is not all
  whitespace, and rewrites it to its trimmed form. The five routes `/add`,
  `/get`, `/edit/:id`, `/update/:id` and `/delete/:id` work over the todo
  collection. Every error the database driver throws goes to `errorHandler`,
  which answers 500. The collection is the class `TodoStore`, holding a map
  from document id to `Todo(task, done)`. Its four driver calls (`create`,
  `find`, `findByIdAndUpdate`, `findByIdAndDelete`) are its methods. Each
  route is a method over the store and a `Request` object.
- **The test runner's command line** (`testcases/run-tests.js`). `main`
  chooses between usage, one test file and all test files. The model also
  builds the exact `npx mocha` argument vectors, and maps the child's exit to
  the runner's exit status.
- **The test configuration** (`testcases/config/test.config.js`). It holds
  the constant tables. `getConfig` looks up an environment by name and falls
  back to `local`.

`String.prototype.trim` is modelled exactly (module `JsString`): it strips
the ECMAScript WhiteSpace and LineTerminator code points (ECMA-262, sections
12.2 and 12.3). It is proved equal to the unique slice of the input that has
only whitespace outside it and no whitespace at its ends.

Inputs the programs take from outside become parameters:
- `thrown: Option<Fault>` says whether a driver call throws (a malformed id,
  a lost connection).
- `newId` is the ObjectId the driver generates for a new document.
- `development` stands for `NODE_ENV === 'development'`.
- `scriptDir` stands for the runner's `__dirname`.
- `ChildExit` is how the mocha child process ended.

Some behaviours of the code that the model keeps:
- `/edit/:id` *sets* `done` to true, so calling it twice is the same as once.
- `/update/:id` validates before it looks up the id: an invalid task is a 400
  even for an unknown id.
- `/add` with an id already in the collection hits MongoDB's unique `_id`
  index. The driver throws, and the client gets a 500.
- When `--single` is the last of two or more arguments (`x --single`), the
  runner takes the single-test path with an `undefined` file. `path.join`
  then throws, nothing is spawned, and `main` exits with status 1. With
  `--single` alone, every test runs.

## Model

| member | source | states |
|---|---|---|
| `JsString.TrimStart` | todo_backend/server.js:69 | the result is a suffix of the input, everything dropped is whitespace, and it does not start with whitespace |
| `JsString.TrimEnd` | todo_backend/server.js:69 | the result is a prefix of the input, everything dropped is whitespace, and it does not end with whitespace |
| `JsString.Trim` | todo_backend/server.js:69 | the trimmed string is no longer than the input and, when not empty, has no whitespace at either end (TrimSlice and TrimUnique pin it down fully) |
| `JsString.TrimSlice` | todo_backend/server.js:69 | `trim(s)` is a slice `s[a..b]` with only whitespace outside it and non-whitespace at both of its ends |
| `JsString.TrimUnique` | todo_backend/server.js:69 | any slice with those properties equals `trim(s)`, so they define trim |
| `JsString.TrimIdempotent` | todo_backend/server.js:72 | trimming twice is trimming once |
| `JsString.TrimEmptyIff` | todo_backend/server.js:69 | `s.trim().length === 0` exactly when every character of `s` is whitespace |
| `JsString.TrimmedForm` | todo_backend/server.js:72 | a non-empty trimmed string has no whitespace at either end and is its own trim |
| `JsString.TrimOfTrimmed` | todo_backend/server.js:72 | a non-empty string with no whitespace at either end is left alone by trim |
| `TodoServer.Truthy` | todo_backend/server.js:69 | the `!task` test: the falsy values of a JSON body are exactly `undefined`, `null`, `false`, `0` and `""` |
| `TodoServer.ErrorHandler` | todo_backend/server.js:58-64 | every forwarded error gives status 500 with error "Internal Server Error"; the driver's message is shown only in development, otherwise "Something went wrong" |
| `TodoServer.Validate` | todo_backend/server.js:67-74 | accepts exactly when the task is a string that is not all whitespace (missing, falsy and non-string values are rejected); an accepted task is its trimmed form, non-empty, with no whitespace at either end, and trimming it again changes nothing |
| `TodoServer.ValidateTodoInput` | todo_backend/server.js:67-74 | `next` is called exactly when the task is valid, and `req.body.task` is then replaced by the trimmed text; otherwise the response is 400 with the fixed message and the request is untouched |
| `TodoServer.Apply` | todo_backend/server.js:98-102 | the `{done: true}` update sets `done` and keeps the task; the `{task}` update sets the task and keeps `done` |
| `TodoServer.Updated` | todo_backend/server.js:115-119 | an update by id changes only that document, keeps the set of ids, and is a no-op for an unknown id |
| `TodoServer.UpdateIdempotent` | todo_backend/server.js:95-105 | applying the same update twice gives the collection that applying it once gives |
| `TodoServer.UpdatedKeepsTrimmed` | todo_backend/server.js:112-119 | an update with a trimmed task, or a `done` update, keeps every stored task trimmed and non-empty |
| `TodoServer.InsertKeepsTrimmed` | todo_backend/server.js:77-79 | inserting a todo with a trimmed task keeps every stored task trimmed and non-empty |
| `TodoServer.TodoStore.Create` | todo_backend/server.js:79 | a throwing driver or a reused id gives an error and leaves the collection as it was; otherwise the new document is added under its id and returned |
| `TodoServer.TodoStore.Find` | todo_backend/server.js:88 | returns every document, or the driver's error |
| `TodoServer.TodoStore.FindByIdAndUpdate` | todo_backend/server.js:98-102 | returns the updated document (`new: true`), or null for an unknown id; nothing else changes; a throw changes nothing |
| `TodoServer.TodoStore.FindByIdAndDelete` | todo_backend/server.js:132 | removes exactly that id and returns the removed document, or null for an unknown id; a throw changes nothing |
| `TodoServer.AddRoute` | todo_backend/server.js:77-84 | invalid input gives 400 and an unchanged collection; valid input adds one document with the trimmed task under the new id and answers 201 with it; a driver error gives 500 with nothing added; all stored tasks stay trimmed |
| `TodoServer.GetRoute` | todo_backend/server.js:86-93 | answers 200 with every stored document and changes nothing; a driver error gives 500 |
| `TodoServer.EditRoute` | todo_backend/server.js:95-110 | for a known id it sets `done` to true on that document only, keeps its task, and answers 200 with the updated document; an unknown id gives 404; a driver error gives 500; an unsuccessful call changes nothing |
| `TodoServer.UpdateRoute` | todo_backend/server.js:112-127 | invalid text gives 400 whatever the id, with nothing changed; valid text with an unknown id gives 404; with a known id only that document's task changes, to the trimmed text, and `done` and every other document stay as they were |
| `TodoServer.DeleteRoute` | todo_backend/server.js:129-140 | for a known id it removes exactly that document, leaves the others as they were, and answers 200 with the removed document; an unknown id gives 404 and changes nothing |
| `TodoServer.EditTwice` | todo_backend/server.js:95-110 | two `/edit` calls on a known id leave the collection as one call does, and both answer 200 with the same document |
| `TestRunner.NewRunner` | testcases/run-tests.js:7-10 | the runner's test directory is `<scriptDir>/test` and its timeout is 30000 |
| `TestRunner.DecimalString` | testcases/run-tests.js:17 | the timeout's `toString()` is a non-empty string of decimal digits |
| `TestRunner.DecimalStringRoundTrip` | testcases/run-tests.js:17 | those digits denote the timeout they were made from |
| `TestRunner.RunTestsArgs` | testcases/run-tests.js:15-20 | six arguments: the joined test path, `--timeout`, digits that denote the runner's timeout, then `--reporter`, `spec`, `--recursive` |
| `TestRunner.SpawnCommand` | testcases/run-tests.js:22-25 | the child's command line is `npx mocha` followed by exactly the mocha arguments |
| `TestRunner.DefaultRunTestsArgs` | testcases/run-tests.js:8-20 | the run-all mocha arguments are exactly `[<dir>/test/*.test.js, --timeout, 30000, --reporter, spec, --recursive]` |
| `TestRunner.RunSingleTestArgs` | testcases/run-tests.js:45-52 | the single-test arguments are the run-all arguments for that file without `--recursive`; an undefined file spawns nothing |
| `TestRunner.Settle` | testcases/run-tests.js:27-42 | the run resolves exactly when the child closes with code 0. A non-zero code, a null code (killed by a signal) or a spawn error rejects it |
| `TestRunner.ExitStatus` | testcases/run-tests.js:125-127 | the exit status is 0 exactly when the run resolved, and 1 otherwise |
| `TestRunner.IndexOf` | testcases/run-tests.js:120 | `args.indexOf('--single')` is the position of the first occurrence |
| `TestRunner.At` | testcases/run-tests.js:120 | reading past the end of `args` gives `undefined` |
| `TestRunner.Dispatch` | testcases/run-tests.js:113-124 | usage exactly when `--help` or `-h` occurs anywhere. Otherwise the single-test path exactly when `--single` occurs and there is more than one argument, with the element after the first `--single` (undefined when it is last). Otherwise run all |
| `TestRunner.Main` | testcases/run-tests.js:109-129 | usage spawns nothing and exits 0; the run-all and single-test paths spawn `npx mocha` with their arguments; the exit status is 0 exactly when usage was printed or a spawned child closed with 0, and 1 otherwise |
| `TestRunner.HelpTakesPrecedence` | testcases/run-tests.js:113-116 | with `--help` or `-h` anywhere, only usage is printed, even beside `--single` |
| `TestRunner.SingleFlagAloneRunsAll` | testcases/run-tests.js:119-123 | `['--single']` alone runs all tests with pattern `*.test.js` |
| `TestRunner.SingleFlagLast` | testcases/run-tests.js:119-121 | `[x, '--single']` takes the single-test path with an undefined file, spawns nothing and exits with status 1 |
| `TestConfig.GetConfig` | testcases/config/test.config.js:86-93 | `currentEnv` is the name passed (`local` when none is), `urls` is that environment's entry or else `local`'s, every other top-level field is the table's, and the timeouts are 10000/30000/30000/30000 |
| `TestConfig.DefaultIsLocal` | testcases/config/test.config.js:86 | no argument is the same as `local` |
| `TestConfig.UnknownNameFallsBack` | testcases/config/test.config.js:90-91 | an unknown name keeps its own name in `currentEnv` while `urls` falls back to `local`'s |

## Left out

- Mongoose connection, `connectWithRetry`, `app.listen`, SIGTERM shutdown and the `MONGODB_URI` check: I/O and timers.
- `helmet`, `express-rate-limit` and `cors`: configuration of foreign libraries. The 429 and CORS answers they can give are not modelled.
- `express.json`: parsing the body is not modelled. A body over 10kb or malformed JSON is passed by the parser to `next(err)`, so `errorHandler` answers it with 500 (not 413 or 400), as `ErrorHandler` states for any error.
- The `models/Todo` schema is not part of this model. The default of `done` on create is the store field `defaultDone`, and nothing is claimed about its value. Fields such as `_id` and `__v` in responses collapse to `Document(id, todo)`.
- Route ids are matched against the stored ids as strings. Mongoose's cast of `req.params.id` to an ObjectId is not modelled. That cast accepts a 24-digit hex id in either case, so `ABCDEFABCDEFABCDEFABCDEF` finds the document stored as `abcdefabcdefabcdefabcdef`, where the model answers 404.
- The conditions under which the driver throws (which ids fail to cast, connection loss) are an input, `thrown`. The text of the duplicate-key error is a placeholder.
- `TodoServer.GetRoute`: the order of documents returned by `find()` is not modelled; the body is the collection as a map.
- `TestRunner.Join`: `path.join` is plain concatenation with one `/`; its normalisation of `..`, `.` and repeated separators is not modelled.
- Spawning `npx mocha`, `shell: true` (which joins the arguments into one shell command line without quoting), console output, the usage text and the rejection messages: I/O. The child's outcome is an input.
- `TestRunner.Settle`: when both `error` and `close` fire, the first event settles the promise. The model takes one event as the child's outcome.
- `getConfig` called with a non-string argument, and names that hit the object prototype chain (`toString`, `__proto__`): JavaScript object semantics are not modelled.
- The `getConfig` function that the spread also copies into its result is not a field of `EnvConfig`.
- JavaScript strings are UTF-16; the model's strings are sequences of Unicode scalar values. This makes no difference to trimming, since every whitespace code point is in the Basic Multilingual Plane.
- `testcases/helpers/TodoTestHelper.js`, `testcases/setup.js` and `testcases/test/*.test.js`: Selenium browser automation, environment checks and test scenarios against a live browser, with no logic of their own to state. In particular, the helper's `/health` probe has no counterpart route in `server.js`.
