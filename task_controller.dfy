/** The task routes: how each handler validates its request, what it asks
    the task service for, and how it turns the service's answer or exception
    into a status code, a body, one audit record and console lines. The task
    service is a function parameter: what it returns or throws for the
    argument it is given. */
module TaskController {
  import opened Js
  import opened Logging
  import opened Http

  datatype TaskStatus = Todo | InProgress | Done

  function StatusName(s: TaskStatus): string
  {
    match s
    case Todo => "todo"
    case InProgress => "in_progress"
    case Done => "done"
  }

  /** `validStatuses.includes(s)`, and which status it names. */
  function ParseStatus(s: string): (r: Option<TaskStatus>)
    ensures r.Some? ==> StatusName(r.value) == s
    ensures r.None? ==> forall st :: StatusName(st) != s
  {
    if s == "todo" then Some(Todo)
    else if s == "in_progress" then Some(InProgress)
    else if s == "done" then Some(Done)
    else None
  }

  const MaxNameLength := 200
  /** The owner every created task gets; there is no authentication. */
  const DefaultUserId := 1

  const NameRequired := "Task name is required"
  const NameTooLong := "Task name is too long"
  const InvalidStatus := "Invalid status"
  const StatusRequired := "Status is required"
  const TaskNotFound := "Task not found"
  const TimerAlreadyRunning := "Timer already running"
  const TimerNotRunning := "Timer not running"

  /** The query string of GET /tasks. */
  datatype TaskQuery = TaskQuery(status: Option<string>, search: Option<string>)
  /** The filters handed to the service: a key is set only for a truthy
      query value, and the status is not checked against the enum. */
  datatype Filters = Filters(status: Option<string>, search: Option<string>)

  /** The fields of a POST /tasks body. */
  datatype CreateTaskBody = CreateTaskBody(name: Option<string>, description: Option<string>,
                                           status: Option<string>)
  /** The argument handed to the service's createTask. */
  datatype CreateTaskInput = CreateTaskInput(userId: nat, name: string, description: string,
                                             status: TaskStatus)

  /** The arguments handed to the service's updateTaskStatus. */
  datatype StatusUpdate = StatusUpdate(id: string, status: TaskStatus)

  datatype Checked = Accepted(input: CreateTaskInput) | Refused(error: string)

  /** The name passes both name checks: it is truthy, not blank, and at most
      200 characters long before trimming. */
  ghost predicate AcceptableName(name: Option<string>)
  {
    Truthy(name) && !AllWhitespace(name.value) && |name.value| <= MaxNameLength
  }

  /** The three checks of POST /tasks in order, then the defaults. */
  function ValidateCreate(body: CreateTaskBody): (c: Checked)
    ensures c == Refused(NameRequired) <==> !Truthy(body.name) || AllWhitespace(body.name.value)
    ensures c == Refused(NameTooLong) <==>
      Truthy(body.name) && !AllWhitespace(body.name.value) && |body.name.value| > MaxNameLength
    ensures c == Refused(InvalidStatus) <==>
      AcceptableName(body.name) && Truthy(body.status) && ParseStatus(body.status.value).None?
    ensures c.Accepted? <==>
      AcceptableName(body.name) && (!Truthy(body.status) || ParseStatus(body.status.value).Some?)
    ensures c.Accepted? ==>
      && c.input.userId == DefaultUserId
      && c.input.name == Trim(body.name.value)
      && 1 <= |c.input.name| <= MaxNameLength
      && c.input.description == (if body.description.Some? then body.description.value else "")
      && StatusName(c.input.status) == (if Truthy(body.status) then body.status.value else "todo")
  {
    TrimEmptyIff(if body.name.Some? then body.name.value else "");
    if !Truthy(body.name) || |Trim(body.name.value)| == 0 then Refused(NameRequired)
    else if |body.name.value| > MaxNameLength then Refused(NameTooLong)
    else if Truthy(body.status) && ParseStatus(body.status.value).None? then Refused(InvalidStatus)
    else
      Accepted(CreateTaskInput(
        DefaultUserId,
        Trim(body.name.value),
        if Truthy(body.description) then body.description.value else "",
        if Truthy(body.status) then ParseStatus(body.status.value).value else Todo))
  }

  function GetTasksOutcome<T>(query: TaskQuery, list: Filters -> Outcome<seq<T>>)
    : (h: Handled<Filters, seq<T>>)
    ensures Consistent(h)
    ensures h.audit.route == "/tasks" && h.audit.httpMethod == "GET"
    ensures h.serviceCall.Some?
    ensures (h.serviceCall.value.status.Some? <==> Truthy(query.status))
         && (h.serviceCall.value.status.Some? ==> h.serviceCall.value.status == query.status)
    ensures (h.serviceCall.value.search.Some? <==> Truthy(query.search))
         && (h.serviceCall.value.search.Some? ==> h.serviceCall.value.search == query.search)
    ensures list(h.serviceCall.value).Returned? <==> h.reply.status == 200
    ensures list(h.serviceCall.value).Returned? ==> h.reply.body == Json(list(h.serviceCall.value).value)
    ensures list(h.serviceCall.value).Threw? ==>
      h.reply.status == 500 && h.audit.errorMessage == Some(list(h.serviceCall.value).message)
  {
    var filters := Filters(if Truthy(query.status) then query.status else None,
                           if Truthy(query.search) then query.search else None);
    match list(filters)
    case Returned(tasks) => Succeeded(Some(filters), "/tasks", "GET", 200, tasks)
    case Threw(m) => Failed(Some(filters), "/tasks", "GET", m)
  }

  function CreateTaskOutcome<T>(body: CreateTaskBody, create: CreateTaskInput -> Outcome<T>)
    : (h: Handled<CreateTaskInput, T>)
    ensures Consistent(h)
    ensures h.audit.route == "/tasks" && h.audit.httpMethod == "POST"
    ensures ValidateCreate(body).Refused? ==>
      h.serviceCall == None && h.reply == Reply(400, ErrorJson(ValidateCreate(body).error))
    ensures ValidateCreate(body).Accepted? ==> h.serviceCall == Some(ValidateCreate(body).input)
    ensures h.serviceCall.Some? && create(h.serviceCall.value).Returned? ==>
      h.reply == Reply(201, Json(create(h.serviceCall.value).value))
    ensures h.serviceCall.Some? && create(h.serviceCall.value).Threw? ==>
      h.reply.status == 500 && h.audit.errorMessage == Some(create(h.serviceCall.value).message)
  {
    match ValidateCreate(body)
    case Refused(e) => Rejected(None, "/tasks", "POST", 400, e)
    case Accepted(input) =>
      match create(input)
      case Returned(task) => Succeeded(Some(input), "/tasks", "POST", 201, task)
      case Threw(m) => Failed(Some(input), "/tasks", "POST", m)
  }

  function UpdateTaskStatusOutcome<T>(id: string, status: Option<string>,
                                      update: StatusUpdate -> Outcome<Option<T>>)
    : (h: Handled<StatusUpdate, T>)
    ensures Consistent(h)
    ensures h.audit.route == "/tasks/" + id + "/status" && h.audit.httpMethod == "PATCH"
    ensures !Truthy(status) ==> h.serviceCall == None && h.reply == Reply(400, ErrorJson(StatusRequired))
    ensures Truthy(status) && ParseStatus(status.value).None? ==>
      h.serviceCall == None && h.reply == Reply(400, ErrorJson(InvalidStatus))
    ensures h.serviceCall.Some? <==> Truthy(status) && ParseStatus(status.value).Some?
    ensures h.serviceCall.Some? ==>
      h.serviceCall.value.id == id && StatusName(h.serviceCall.value.status) == status.value
    ensures h.serviceCall.Some? && update(h.serviceCall.value) == Returned(None) ==>
      h.reply == Reply(404, ErrorJson(TaskNotFound))
    ensures h.serviceCall.Some? && update(h.serviceCall.value).Returned?
            && update(h.serviceCall.value).value.Some? ==>
      h.reply == Reply(200, Json(update(h.serviceCall.value).value.value))
    ensures h.serviceCall.Some? && update(h.serviceCall.value).Threw? ==>
      h.reply.status == 500 && h.audit.errorMessage == Some(update(h.serviceCall.value).message)
  {
    var route := "/tasks/" + id + "/status";
    if !Truthy(status) then Rejected(None, route, "PATCH", 400, StatusRequired)
    else match ParseStatus(status.value)
      case None => Rejected(None, route, "PATCH", 400, InvalidStatus)
      case Some(st) =>
        var call := StatusUpdate(id, st);
        match update(call)
        case Returned(Some(task)) => Succeeded(Some(call), route, "PATCH", 200, task)
        case Returned(None) => Rejected(Some(call), route, "PATCH", 404, TaskNotFound)
        case Threw(m) => Failed(Some(call), route, "PATCH", m)
  }

  /** The catch block shared by the two timer routes: "Task not found" is a
      404, the route's own conflict message a 400, anything else a 500. */
  function TimerOutcome<T>(id: string, route: string, conflict: string, result: Outcome<T>)
    : (h: Handled<string, T>)
    ensures Consistent(h) && h.serviceCall == Some(id)
    ensures h.audit.route == route && h.audit.httpMethod == "POST"
  {
    match result
    case Returned(task) => Succeeded(Some(id), route, "POST", 200, task)
    case Threw(m) =>
      if m == TaskNotFound then Rejected(Some(id), route, "POST", 404, m)
      else if m == conflict then Rejected(Some(id), route, "POST", 400, m)
      else Failed(Some(id), route, "POST", m)
  }

  function StartTimerOutcome<T>(id: string, start: string -> Outcome<T>): (h: Handled<string, T>)
    ensures Consistent(h) && h.serviceCall == Some(id)
    ensures h.audit.route == "/tasks/" + id + "/start" && h.audit.httpMethod == "POST"
    ensures h.reply.status == 200 <==> start(id).Returned?
    ensures h.reply.status == 404 <==> start(id) == Threw(TaskNotFound)
    ensures h.reply.status == 400 <==> start(id) == Threw(TimerAlreadyRunning)
    ensures h.reply.status == 500 <==>
      start(id).Threw? && start(id).message != TaskNotFound && start(id).message != TimerAlreadyRunning
    ensures start(id).Returned? ==> h.reply.body == Json(start(id).value)
    ensures start(id).Threw? ==> h.audit.errorMessage == Some(start(id).message)
  {
    TimerOutcome(id, "/tasks/" + id + "/start", TimerAlreadyRunning, start(id))
  }

  function StopTimerOutcome<T>(id: string, stop: string -> Outcome<T>): (h: Handled<string, T>)
    ensures Consistent(h) && h.serviceCall == Some(id)
    ensures h.audit.route == "/tasks/" + id + "/stop" && h.audit.httpMethod == "POST"
    ensures h.reply.status == 200 <==> stop(id).Returned?
    ensures h.reply.status == 404 <==> stop(id) == Threw(TaskNotFound)
    ensures h.reply.status == 400 <==> stop(id) == Threw(TimerNotRunning)
    ensures h.reply.status == 500 <==>
      stop(id).Threw? && stop(id).message != TaskNotFound && stop(id).message != TimerNotRunning
    ensures stop(id).Returned? ==> h.reply.body == Json(stop(id).value)
    ensures stop(id).Threw? ==> h.audit.errorMessage == Some(stop(id).message)
  {
    TimerOutcome(id, "/tasks/" + id + "/stop", TimerNotRunning, stop(id))
  }

  /** A refused POST /tasks never reaches the service: any two services
      give the same outcome. */
  lemma RefusedCreateIgnoresService<T>(body: CreateTaskBody, create1: CreateTaskInput -> Outcome<T>,
                                       create2: CreateTaskInput -> Outcome<T>)
    requires ValidateCreate(body).Refused?
    ensures CreateTaskOutcome(body, create1) == CreateTaskOutcome(body, create2)
  {
  }

  /** A missing or unknown status never reaches the service in PATCH
      /tasks/:id/status. */
  lemma RefusedUpdateIgnoresService<T>(id: string, status: Option<string>,
                                       update1: StatusUpdate -> Outcome<Option<T>>,
                                       update2: StatusUpdate -> Outcome<Option<T>>)
    requires !Truthy(status) || ParseStatus(status.value).None?
    ensures UpdateTaskStatusOutcome(id, status, update1) == UpdateTaskStatusOutcome(id, status, update2)
  {
  }

  /** The length bound: a non-blank name of 200 characters passes, one of
      201 is too long. */
  lemma {:induction false} NameLengthBoundary(name: string, description: Option<string>,
                                              status: Option<string>)
    requires |name| == 200 || |name| == 201
    requires !IsWhitespace(name[0])
    requires !Truthy(status) || ParseStatus(status.value).Some?
    ensures |name| == 200 ==> ValidateCreate(CreateTaskBody(Some(name), description, status)).Accepted?
    ensures |name| == 201 ==>
      ValidateCreate(CreateTaskBody(Some(name), description, status)) == Refused(NameTooLong)
  {
    assert !AllWhitespace(name);
  }

  /** The length is checked before trimming: a name of 199 or 200
      characters padded with one space on each side is refused, although its
      trimmed form fits. */
  lemma {:induction false} PaddedNameTooLong(name: string)
    requires 199 <= |name| <= 200
    requires !IsWhitespace(name[0]) && !IsWhitespace(name[|name| - 1])
    ensures Trim([' '] + name + [' ']) == name
    ensures ValidateCreate(CreateTaskBody(Some([' '] + name + [' ']), None, None)) == Refused(NameTooLong)
  {
    var padded := [' '] + name + [' '];
    TrimPadded([' '], name, [' ']);
    assert !AllWhitespace(padded) by { assert padded[1] == name[0]; }
  }

  /** A name with white-space padding reaches the service trimmed, with an
      empty description and status "todo" when neither is given, and the
      reply is 201 with the service's task (`{name: "  Write spec "}` is one
      such body). */
  lemma {:induction false} CreateTrimsPadding<T>(pre: string, word: string, post: string,
                                                 create: CreateTaskInput -> Outcome<T>, task: T)
    requires AllWhitespace(pre) && AllWhitespace(post)
    requires word != [] && !IsWhitespace(word[0]) && !IsWhitespace(word[|word| - 1])
    requires |pre + word + post| <= MaxNameLength
    requires create(CreateTaskInput(DefaultUserId, word, "", Todo)) == Returned(task)
    ensures CreateTaskOutcome(CreateTaskBody(Some(pre + word + post), None, None), create).reply
            == Reply(201, Json(task))
  {
    var name := pre + word + post;
    TrimPadded(pre, word, post);
    assert !AllWhitespace(name) by { assert name[|pre|] == word[0]; }
    var v := ValidateCreate(CreateTaskBody(Some(name), None, None));
    assert v.input.status == Todo by { assert StatusName(v.input.status) == "todo"; }
  }

  /** The status "bogus" is refused once the name passes. */
  lemma BogusStatusRefused(name: string, description: Option<string>)
    requires AcceptableName(Some(name))
    ensures ValidateCreate(CreateTaskBody(Some(name), description, Some("bogus"))) == Refused(InvalidStatus)
  {
  }

  /** Starting a running timer is a 400 that shows the service's message,
      and stopping one that is not running likewise; a missing task is a 404
      on both routes, and the other route's conflict message is a 500. */
  lemma TimerConflictExamples<T>(id: string)
    ensures StartTimerOutcome(id, (_: string) => Outcome<T>.Threw(TimerAlreadyRunning)).reply
            == Reply(400, ErrorJson(TimerAlreadyRunning))
    ensures StopTimerOutcome(id, (_: string) => Outcome<T>.Threw(TimerNotRunning)).reply
            == Reply(400, ErrorJson(TimerNotRunning))
    ensures StartTimerOutcome(id, (_: string) => Outcome<T>.Threw(TaskNotFound)).reply.status == 404
    ensures StopTimerOutcome(id, (_: string) => Outcome<T>.Threw(TaskNotFound)).reply.status == 404
    ensures StartTimerOutcome(id, (_: string) => Outcome<T>.Threw(TimerNotRunning)).reply
            == Reply(500, ErrorJson(InternalError))
    ensures StopTimerOutcome(id, (_: string) => Outcome<T>.Threw(TimerAlreadyRunning)).reply
            == Reply(500, ErrorJson(InternalError))
  {
  }

  // The handlers. Each counts the request and writes its entry line before
  // anything else, then follows the path its decision function chose.
  // `durationMs` is the measured time and `sinkAccepts` whether the audit
  // INSERT succeeds; neither changes the reply.

  method GetTasks<T>(logger: Logger, query: TaskQuery, list: Filters -> Outcome<seq<T>>,
                     durationMs: nat, sinkAccepts: bool) returns (reply: Reply<seq<T>>)
    modifies logger
    ensures reply == GetTasksOutcome(query, list).reply
    ensures Served(logger, GetTasksOutcome(query, list), durationMs, sinkAccepts)
  {
    var requestCount := logger.IncrementRequestCount();
    logger.Info();
    reply := Complete(logger, GetTasksOutcome(query, list), durationMs, sinkAccepts);
  }

  method CreateTask<T>(logger: Logger, body: CreateTaskBody, create: CreateTaskInput -> Outcome<T>,
                       durationMs: nat, sinkAccepts: bool) returns (reply: Reply<T>)
    modifies logger
    ensures reply == CreateTaskOutcome(body, create).reply
    ensures Served(logger, CreateTaskOutcome(body, create), durationMs, sinkAccepts)
  {
    var requestCount := logger.IncrementRequestCount();
    logger.Info();
    reply := Complete(logger, CreateTaskOutcome(body, create), durationMs, sinkAccepts);
  }

  method UpdateTaskStatus<T>(logger: Logger, id: string, status: Option<string>,
                             update: StatusUpdate -> Outcome<Option<T>>,
                             durationMs: nat, sinkAccepts: bool) returns (reply: Reply<T>)
    modifies logger
    ensures reply == UpdateTaskStatusOutcome(id, status, update).reply
    ensures Served(logger, UpdateTaskStatusOutcome(id, status, update), durationMs, sinkAccepts)
  {
    var requestCount := logger.IncrementRequestCount();
    logger.Info();
    reply := Complete(logger, UpdateTaskStatusOutcome(id, status, update), durationMs, sinkAccepts);
  }

  method StartTimer<T>(logger: Logger, id: string, start: string -> Outcome<T>,
                       durationMs: nat, sinkAccepts: bool) returns (reply: Reply<T>)
    modifies logger
    ensures reply == StartTimerOutcome(id, start).reply
    ensures Served(logger, StartTimerOutcome(id, start), durationMs, sinkAccepts)
  {
    var requestCount := logger.IncrementRequestCount();
    logger.Info();
    reply := Complete(logger, StartTimerOutcome(id, start), durationMs, sinkAccepts);
  }

  method StopTimer<T>(logger: Logger, id: string, stop: string -> Outcome<T>,
                      durationMs: nat, sinkAccepts: bool) returns (reply: Reply<T>)
    modifies logger
    ensures reply == StopTimerOutcome(id, stop).reply
    ensures Served(logger, StopTimerOutcome(id, stop), durationMs, sinkAccepts)
  {
    var requestCount := logger.IncrementRequestCount();
    logger.Info();
    reply := Complete(logger, StopTimerOutcome(id, stop), durationMs, sinkAccepts);
  }
}
