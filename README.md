# Task-tracker request handling, modelled in Dafny

This project models the request-handling core of a small task-tracking web
service (an Express backend):

- the five task handlers of `TaskController`: list tasks, create a task,
  change a task's status, start a timer and stop a timer;
- the login handler of `AuthController`;
- the process-wide `Logger`, which keeps a request counter, appends rows to
  the `request_logs` audit table and writes leveled console lines.

Each handler has two parts in the model.

- A pure decision function (`GetTasksOutcome`, `CreateTaskOutcome`, ...)
  takes the request fields and the service. The service is a function
  parameter that says what it returns or throws for the argument it is given.
  The result is a `Handled` value:
  - the argument passed to the service (`None` when the service is not
    called);
  - the reply: status code and JSON body;
  - the one audit call handed to `logRequest`;
  - the console levels written after that call.
- An imperative method (`GetTasks`, `CreateTask`, ...) works on a `Logger`
  object. It increments the counter and writes the entry line, then performs
  the decided path through `Http.Complete`:
  - one `logRequest`;
  - the path's warn, info or error lines;
  - the reply.

`Http.Consistent` is the invariant every path keeps:
- the audit status equals the reply status;
- an error message is audited exactly on non-2xx paths;
- a 4xx reply shows the audited message;
- a 500 reply shows the generic "Internal server error".

Files:
- `js.dfy`: JavaScript truthiness and `String.prototype.trim`.
- `logger.dfy`: the Logger.
- `http.dfy`: replies, audit calls, the shared completion step.
- `task_controller.dfy` and `auth_controller.dfy`: the handlers.

Three points of the code's behaviour that the model keeps as written:
- A task name is documented as having a trimmed length of 1 to 200, but the
  code checks the untrimmed name (`name.length > 200`). A name of 199 non-blank
  characters padded with one space on each side is refused as too long;
  `PaddedNameTooLong` proves this.
- The status filter of GET /tasks is passed to the service without checking
  it against the enum.
- The error message stored in `request_logs` is `errorMessage || null`. A 500
  path whose exception message is empty therefore stores NULL, even though the
  handler passed a message.

## Model

| member | source | states |
|---|---|---|
| Js.LeadingSpace | backend/src/controllers/TaskController.ts:59 | the count is the length of the longest white-space prefix: every character before it is white space and the one at it is not |
| Js.TrailingSpace | backend/src/controllers/TaskController.ts:59 | the count is the length of the longest white-space suffix |
| Js.Trim | backend/src/controllers/TaskController.ts:85 | `trim()` gives an infix of the input with only white space around it, and the result neither starts nor ends with white space |
| Js.TrimEmptyIff | backend/src/controllers/TaskController.ts:59 | `name.trim().length === 0` holds exactly when every character of the name is white space |
| Js.TrimPadded | backend/src/controllers/TaskController.ts:85 | trimming strips exactly the white-space padding around a word that has no white space at its ends |
| Logging.NullIfEmpty | backend/src/config/logger.ts:49 | `errorMessage \|\| null`: a message is stored exactly when it is present and non-empty, and then unchanged |
| Logging.Logger.constructor | backend/src/config/logger.ts:13 | the counter starts at 0; no rows have yet been inserted into `request_logs` by this logger and no console lines written by it (the table's earlier rows are not modelled) |
| Logging.Logger.IncrementRequestCount | backend/src/config/logger.ts:15-17 | the counter grows by exactly one and the new value is returned; nothing else changes |
| Logging.Logger.GetRequestCount | backend/src/config/logger.ts:19-21 | returns the current count and changes nothing |
| Logging.Logger.Info | backend/src/config/logger.ts:23-26 | appends one info-level console line; the counter and audit log are unchanged |
| Logging.Logger.Error | backend/src/config/logger.ts:28-31 | appends one error-level console line; the counter and audit log are unchanged |
| Logging.Logger.Warn | backend/src/config/logger.ts:33-36 | appends one warn-level console line; the counter and audit log are unchanged |
| Logging.Logger.LogRequest | backend/src/config/logger.ts:38-54 | appends exactly one row with the route, method, status, duration and normalised message when the insert succeeds; on failure the log is unchanged, one error line is written and nothing propagates |
| Logging.Logger.ConsoleError | backend/src/controllers/TaskController.ts:44 | a handler's own `console.error` appends one error-level line; the counter and audit log are unchanged |
| Logging.Logger.IncrementTimes | backend/src/config/logger.ts:15-17 | `k` successive increments return the next `k` counts, `old + 1` to `old + k`, so they strictly increase and are pairwise distinct, and the counter ends `k` higher |
| Logging.FreshCounterRun | backend/src/config/logger.ts:13-21 | on a fresh logger, `k` increments return exactly 1, 2, ..., k (the first is 1), strictly increasing, and the count then reads `k` |
| Http.StoredRowMatchesReply | backend/src/config/logger.ts:46-50 | the stored row of a consistent path has the reply's status, stores a message only for a non-2xx reply, and stores the audited message on every non-2xx reply whose message is non-empty |
| Http.Complete | backend/src/controllers/TaskController.ts:28-36 | one `logRequest` call with the path's audit data, then the path's console levels, then the decided reply; the counter is untouched |
| TaskController.ParseStatus | backend/src/controllers/TaskController.ts:74-75 | a string is accepted exactly when it names one of `todo`, `in_progress`, `done`, and the status returned names it |
| TaskController.ValidateCreate | backend/src/controllers/TaskController.ts:59-88 | first failing check decides: a falsy or blank name is "Task name is required"; otherwise an untrimmed length over 200 is "Task name is too long"; otherwise a truthy status outside the enum is "Invalid status"; otherwise the input has user 1, the trimmed name (1 to 200 characters), the description or "", and the status or "todo" |
| TaskController.GetTasksOutcome | backend/src/controllers/TaskController.ts:14-46 | filters carry only truthy query values, unchanged; the reply is 200 with the service's list exactly when it returns, else 500 with the exception message audited; the path is consistent |
| TaskController.CreateTaskOutcome | backend/src/controllers/TaskController.ts:56-107 | a refused body is a 400 with the check's message and the service is not called; an accepted one calls the service with the validated input, is 201 with its task, or 500 with the exception message audited |
| TaskController.UpdateTaskStatusOutcome | backend/src/controllers/TaskController.ts:120-165 | falsy status is 400 "Status is required", unknown status 400 "Invalid status", and in both the service is not called; otherwise the service gets the id and the named status, and an absent task is 404 "Task not found", a task 200, an exception 500 |
| TaskController.StartTimerOutcome | backend/src/controllers/TaskController.ts:178-218 | 200 exactly when the service returns; 404 exactly for "Task not found"; 400 exactly for "Timer already running", echoing the message; 500 with the generic body for any other message, which is audited |
| TaskController.StopTimerOutcome | backend/src/controllers/TaskController.ts:231-271 | 200 exactly when the service returns; 404 exactly for "Task not found"; 400 exactly for "Timer not running"; 500 with the generic body for any other message |
| TaskController.RefusedCreateIgnoresService | backend/src/controllers/TaskController.ts:59-80 | when validation refuses a body, the outcome is the same whatever the service would do |
| TaskController.RefusedUpdateIgnoresService | backend/src/controllers/TaskController.ts:124-137 | a missing or unknown status gives the same outcome whatever the service would do |
| TaskController.NameLengthBoundary | backend/src/controllers/TaskController.ts:66-71 | a non-blank name of exactly 200 characters passes, and one of 201 is "Task name is too long" |
| TaskController.PaddedNameTooLong | backend/src/controllers/TaskController.ts:66-71 | the length check sees the untrimmed name: a 199- or 200-character word padded with two spaces is refused although its trimmed form fits |
| TaskController.CreateTrimsPadding | backend/src/controllers/TaskController.ts:83-97 | a padded name reaches the service trimmed, with description "" and status todo, and the reply is 201 with the service's task |
| TaskController.BogusStatusRefused | backend/src/controllers/TaskController.ts:74-80 | the status "bogus" is refused with "Invalid status" once the name passes |
| TaskController.TimerConflictExamples | backend/src/controllers/TaskController.ts:193-217 | each timer route turns its own conflict message into a 400 and the other route's conflict message into a 500; "Task not found" is a 404 on both |
| TaskController.GetTasks | backend/src/controllers/TaskController.ts:7-47 | counter +1 and an info entry line, then the decided path's single audit row (if the sink accepts it) and console lines; the reply does not depend on the sink |
| TaskController.CreateTask | backend/src/controllers/TaskController.ts:49-108 | as for GetTasks, with the create decision |
| TaskController.UpdateTaskStatus | backend/src/controllers/TaskController.ts:110-166 | as for GetTasks, with the status-update decision |
| TaskController.StartTimer | backend/src/controllers/TaskController.ts:168-219 | as for GetTasks, with the start-timer decision |
| TaskController.StopTimer | backend/src/controllers/TaskController.ts:221-272 | as for GetTasks, with the stop-timer decision |
| AuthController.LoginOutcome | backend/src/controllers/AuthController.ts:16-60 | the service is called exactly when both email and password are truthy, with both; a missing one is 400, a falsy result 401 "Invalid credentials", a result 200 with it as body and no audited message, an exception 500 with the generic body and its message audited |
| AuthController.MissingCredentialsIgnoreService | backend/src/controllers/AuthController.ts:19-29 | with a credential missing, the outcome is the same whatever the auth service would do |
| AuthController.Login | backend/src/controllers/AuthController.ts:6-61 | counter +1 at entry before any check, then exactly one `logRequest` whose status is the reply's, then the path's console lines |

## Left out

- Logging.Logger.IncrementRequestCount: the counter is an unbounded `nat`. The source's counter is a JavaScript `number`, exact only below 2^53; from 2^53 on, `++this.requestCount` returns the same value again, so the strict increase and distinctness proved by `IncrementTimes` and `FreshCounterRun` hold of the source only below 2^53. That many requests cannot be reached in practice, and the counter restarts at 0 when the process restarts.
- Handlers are modelled as running one at a time. Each source handler awaits its service and `logRequest`, and other requests can run meanwhile: their increments, audit rows and console lines can fall between this handler's own. The handler methods and `Http.Served` describe an invocation that runs alone.
- Express wiring is not modelled: `server.ts`, the `requestLogger` middleware, routing, CORS, `res.send` interception and its fire-and-forget audit write. That middleware also increments the counter, so the model claims "+1" only per handler invocation.
- `DashboardController` is not modelled. It only passes through to a service with a 200/500 branch.
- Clock readings (`Date.now`) are not modelled. The duration is a natural-number parameter.
- The text of console lines is not modelled: messages, timestamps and the `JSON.stringify` context. Only each line's level is kept.
- The task, auth and dashboard services and the SQL pool are not part of this model. They appear only as what they return or throw, and whether the audit INSERT succeeds is a boolean parameter.
- Timer elapsed-time accumulation lives in the task service, which is not part of this model. Only its error messages are used.
- `parseInt` of the route id is not modelled. The service receives the id string.
- Request fields are modelled as absent or a string. JSON `null` behaves like absent in every check. Numbers, booleans, objects and arrays are not modelled; a truthy non-string name would make `name.trim` throw and give a 500.
- Query values given as arrays (`?status=a&status=b`) are not modelled.
- Lengths are counted in Unicode scalar values, not UTF-16 code units. A name with characters outside the Basic Multilingual Plane can be judged differently from `name.length`.
- Service results are assumed to have the expected shape. In the source, the success paths read `task.id`, `task.time_logged`, `tasks.length` or `result.user.id` after `logRequest`. If such a read threw, the catch block would add a second audit row with status 500; the model does not cover that.
- A thrown value without a `message` (not an `Error`) is not modelled. Exceptions carry a string message.
- In `updateTaskStatus`, a service that threw "Task not found" would get a 500, because the handler detects a missing task only by a falsy result. The model keeps this behaviour.
