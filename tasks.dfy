/** `backend/routers/tasks.py`: collection tasks and their status rules. A
    task starts "pending"; giving it a crew moves it to "in-progress"; a
    first move to "completed" stamps the completion time. */
module TasksRouter {
  import opened Common
  import opened Store
  import Sorting

  datatype CreateTaskRequest = CreateTaskRequest(
    id: string,
    title: string,
    description: Option<string>,
    priority: string,
    binId: Option<string>,
    location: Option<string>,
    estimatedTimeMinutes: Option<int>,
    alertId: Option<string>,
    dueDate: Option<Timestamp>)

  /** `UpdateTaskRequest`: every field optional. */
  datatype UpdateTaskRequest = UpdateTaskRequest(
    title: Option<string>,
    description: Option<string>,
    priority: Option<string>,
    status: Option<string>,
    location: Option<string>,
    crewId: Option<string>,
    estimatedTimeMinutes: Option<int>,
    completedAt: Option<Timestamp>)

  const NoChange := UpdateTaskRequest(None, None, None, None, None, None, None, None)

  /** The row `create_task` inserts. */
  function NewTask(req: CreateTaskRequest, now: Timestamp): (t: TaskRow)
    ensures t.id == req.id && t.status == "pending" && t.crewId.None? && t.completedAt.None?
    ensures t.createdAt == now && t.binId == req.binId
  {
    TaskRow(req.id, req.title, req.description, req.priority, "pending", req.binId, req.location,
            req.estimatedTimeMinutes, None, req.alertId, now, req.dueDate, None)
  }

  /** Giving a task a crew: a pending task becomes in progress, any other
      status stays. */
  function WithCrew(t: TaskRow, crewId: string): (r: TaskRow)
    ensures r.crewId == Some(crewId)
    ensures r.status == (if t.status == "pending" then "in-progress" else t.status)
    ensures r.status != "pending"
    ensures r == t.(crewId := r.crewId, status := r.status)
  {
    t.(crewId := Some(crewId), status := if t.status == "pending" then "in-progress" else t.status)
  }

  /** The row after `update_task` (the crew, when supplied, known to exist):
      the fields are applied in the handler's order, so the crew rule sees
      the status just supplied, and an explicit completion time wins over
      the stamp. */
  function UpdatedTask(t: TaskRow, req: UpdateTaskRequest, now: Timestamp): TaskRow {
    var edited := EditedFields(t, req, now);
    TimesSet(if req.crewId.Some? then WithCrew(edited, req.crewId.value) else edited, req)
  }

  /** Title, description, priority, status and location, each when
      supplied; the first move to "completed" stamps the time. */
  function EditedFields(t: TaskRow, req: UpdateTaskRequest, now: Timestamp): TaskRow {
    var t1 := t.(title := if req.title.Some? then req.title.value else t.title,
                 description := if req.description.Some? then req.description else t.description,
                 priority := if req.priority.Some? then req.priority.value else t.priority);
    var t2 :=
      if req.status.Some? then
        t1.(status := req.status.value,
            completedAt := if req.status.value == "completed" && t1.completedAt.None? then Some(now) else t1.completedAt)
      else t1;
    t2.(location := if req.location.Some? then req.location else t2.location)
  }

  /** The estimate and an explicit completion time, each when supplied. */
  function TimesSet(t: TaskRow, req: UpdateTaskRequest): TaskRow {
    t.(estimatedTimeMinutes := if req.estimatedTimeMinutes.Some? then req.estimatedTimeMinutes else t.estimatedTimeMinutes,
       completedAt := if req.completedAt.Some? then req.completedAt else t.completedAt)
  }

  /** An update never touches the task's identity, bin, alert, creation or
      due date, takes every descriptive field it was given and leaves every
      one it was not given alone. */
  lemma UpdateKeepsUnsupplied(t: TaskRow, req: UpdateTaskRequest, now: Timestamp)
    ensures UpdatedTask(t, req, now).id == t.id && UpdatedTask(t, req, now).binId == t.binId
    ensures UpdatedTask(t, req, now).alertId == t.alertId
    ensures UpdatedTask(t, req, now).createdAt == t.createdAt && UpdatedTask(t, req, now).dueDate == t.dueDate
    ensures UpdatedTask(t, req, now).title == if req.title.Some? then req.title.value else t.title
    ensures UpdatedTask(t, req, now).description == if req.description.Some? then req.description else t.description
    ensures UpdatedTask(t, req, now).priority == if req.priority.Some? then req.priority.value else t.priority
    ensures UpdatedTask(t, req, now).location == if req.location.Some? then req.location else t.location
    ensures UpdatedTask(t, req, now).estimatedTimeMinutes
         == if req.estimatedTimeMinutes.Some? then req.estimatedTimeMinutes else t.estimatedTimeMinutes
    ensures req == NoChange ==> UpdatedTask(t, req, now) == t
  {
    var e := EditedFields(t, req, now);
    var w := if req.crewId.Some? then WithCrew(e, req.crewId.value) else e;
    assert UpdatedTask(t, req, now) == TimesSet(w, req);
    assert w.title == e.title && w.description == e.description && w.priority == e.priority;
    assert w.location == e.location && w.estimatedTimeMinutes == e.estimatedTimeMinutes;
  }

  /** With a crew the task is never left pending; without one, its crew is
      kept and its status is exactly the one supplied, if any. */
  lemma UpdateCrewRule(t: TaskRow, req: UpdateTaskRequest, now: Timestamp)
    ensures var r := UpdatedTask(t, req, now);
            && (req.crewId.Some? ==> r.crewId == req.crewId && r.status != "pending")
            && (req.crewId.None? ==> r.crewId == t.crewId && r.status == (if req.status.Some? then req.status.value else t.status))
  {
  }

  /** The completion time: an explicit one wins; otherwise a recorded one is
      kept, and a move to "completed" stamps one only if none was recorded. */
  lemma UpdateCompletionRule(t: TaskRow, req: UpdateTaskRequest, now: Timestamp)
    ensures var r := UpdatedTask(t, req, now);
            && (req.completedAt.Some? ==> r.completedAt == req.completedAt)
            && (req.completedAt.None? && t.completedAt.Some? ==> r.completedAt == t.completedAt)
            && (req.completedAt.None? && req.status == Some("completed") && t.completedAt.None? ==> r.completedAt == Some(now))
            && (req.completedAt.None? && req.status != Some("completed") ==> r.completedAt == t.completedAt)
  {
  }

  /** The crew side of `assign_task`: an available crew becomes active. */
  function ActivatedCrew(c: CrewRow): (r: CrewRow)
    ensures r.status == (if c.status == "available" then "active" else c.status)
    ensures r == c.(status := r.status)
  {
    if c.status == "available" then c.(status := "active") else c
  }

  function TaskCreatedAt(t: TaskRow): real { t.createdAt as real }

  /** `list_tasks`: newest first; tasks created at the same instant keep
      their row order. */
  function ListTasks(rows: seq<TaskRow>): (r: seq<TaskRow>)
    ensures multiset(r) == multiset(rows)
    ensures Sorting.NonIncreasing(r, TaskCreatedAt)
  {
    Sorting.SortDescSorted(rows, TaskCreatedAt);
    Sorting.SortDesc(rows, TaskCreatedAt)
  }

  /** `get_task`: 404 for an unknown id. */
  function GetTask(rows: seq<TaskRow>, taskId: string): (r: Result<TaskRow>)
    ensures r.Ok? <==> IndexOf(rows, TaskKey, taskId).Some?
    ensures r.Ok? ==> r.value in rows && r.value.id == taskId
    ensures r.Err? ==> r.error == NotFound
  {
    match IndexOf(rows, TaskKey, taskId)
    case None => Err(NotFound)
    case Some(k) => Ok(rows[k])
  }

  /** `create_task`: 409 for a known id, 404 for a truthy bin id that names
      no bin, otherwise a pending task without crew is appended. */
  method CreateTask(db: Database, req: CreateTaskRequest, now: Timestamp) returns (r: Result<TaskRow>)
    requires db.Valid()
    modifies db`tasks
    ensures db.Valid()
    ensures IndexOf(old(db.tasks), TaskKey, req.id).Some? ==> r == Err(Conflict) && db.tasks == old(db.tasks)
    ensures IndexOf(old(db.tasks), TaskKey, req.id).None? && TruthyText(req.binId) && IndexOf(db.bins, BinKey, req.binId.value).None? ==>
              r == Err(NotFound) && db.tasks == old(db.tasks)
    ensures r.Ok? ==> r.value == NewTask(req, now) && db.tasks == old(db.tasks) + [r.value]
    ensures IndexOf(old(db.tasks), TaskKey, req.id).None? && !(TruthyText(req.binId) && IndexOf(db.bins, BinKey, req.binId.value).None?) ==>
              r.Ok?
  {
    if IndexOf(db.tasks, TaskKey, req.id).Some? {
      return Err(Conflict);
    }
    if TruthyText(req.binId) {
      if IndexOf(db.bins, BinKey, req.binId.value).None? {
        return Err(NotFound);
      }
    }
    var task := TaskRow(req.id, req.title, req.description, req.priority, "pending", req.binId, req.location,
                        req.estimatedTimeMinutes, None, req.alertId, now, req.dueDate, None);
    UniqueAppend(db.tasks, TaskKey, task);
    db.tasks := db.tasks + [task];
    r := Ok(task);
  }

  /** The first assignments of `update_task`, in the handler's order. */
  method ApplyEdits(t0: TaskRow, req: UpdateTaskRequest, now: Timestamp) returns (t: TaskRow)
    ensures t == EditedFields(t0, req, now)
  {
    t := t0;
    if req.title.Some? {
      t := t.(title := req.title.value);
    }
    if req.description.Some? {
      t := t.(description := req.description);
    }
    if req.priority.Some? {
      t := t.(priority := req.priority.value);
    }
    if req.status.Some? {
      t := t.(status := req.status.value);
      if req.status.value == "completed" && t.completedAt.None? {
        t := t.(completedAt := Some(now));
      }
    }
    if req.location.Some? {
      t := t.(location := req.location);
    }
  }

  /** `update_task`: 404 for an unknown task, and 404 with nothing saved for
      a supplied crew id that names no crew; otherwise only that task
      changes. */
  method UpdateTask(db: Database, taskId: string, req: UpdateTaskRequest, now: Timestamp) returns (r: Result<TaskRow>)
    requires db.Valid()
    modifies db`tasks
    ensures db.Valid()
    ensures r.Err? ==> r.error == NotFound && db.tasks == old(db.tasks)
    ensures r.Err? <==> IndexOf(old(db.tasks), TaskKey, taskId).None? || (req.crewId.Some? && IndexOf(db.crews, CrewKey, req.crewId.value).None?)
    ensures r.Ok? ==>
              var k := IndexOf(old(db.tasks), TaskKey, taskId).value;
              r.value == UpdatedTask(old(db.tasks)[k], req, now) && db.tasks == old(db.tasks)[k := r.value]
  {
    var found := IndexOf(db.tasks, TaskKey, taskId);
    if found.None? {
      return Err(NotFound);
    }
    var k := found.value;
    var t := ApplyEdits(db.tasks[k], req, now);
    if req.crewId.Some? {
      if IndexOf(db.crews, CrewKey, req.crewId.value).None? {
        return Err(NotFound);
      }
      t := t.(crewId := req.crewId);
      if t.status == "pending" {
        t := t.(status := "in-progress");
      }
    }
    if req.estimatedTimeMinutes.Some? {
      t := t.(estimatedTimeMinutes := req.estimatedTimeMinutes);
    }
    if req.completedAt.Some? {
      t := t.(completedAt := req.completedAt);
    }
    UniqueReplace(db.tasks, TaskKey, k, t);
    db.tasks := db.tasks[k := t];
    r := Ok(t);
  }

  /** `assign_task`: 404 for an unknown task or crew, with nothing changed;
      otherwise the task gets the crew (pending becomes in progress) and an
      available crew becomes active. */
  method AssignTask(db: Database, taskId: string, crewId: string) returns (r: Result<TaskRow>)
    requires db.Valid()
    modifies db`tasks, db`crews
    ensures db.Valid()
    ensures r.Err? <==> IndexOf(old(db.tasks), TaskKey, taskId).None? || IndexOf(old(db.crews), CrewKey, crewId).None?
    ensures r.Err? ==> r.error == NotFound && db.tasks == old(db.tasks) && db.crews == old(db.crews)
    ensures r.Ok? ==>
              var k := IndexOf(old(db.tasks), TaskKey, taskId).value;
              var c := IndexOf(old(db.crews), CrewKey, crewId).value;
              && r.value == WithCrew(old(db.tasks)[k], crewId)
              && db.tasks == old(db.tasks)[k := r.value]
              && db.crews == old(db.crews)[c := ActivatedCrew(old(db.crews)[c])]
  {
    var found := IndexOf(db.tasks, TaskKey, taskId);
    if found.None? {
      return Err(NotFound);
    }
    var crewFound := IndexOf(db.crews, CrewKey, crewId);
    if crewFound.None? {
      return Err(NotFound);
    }
    var k, c := found.value, crewFound.value;
    var t := db.tasks[k];
    t := t.(crewId := Some(crewId));
    if t.status == "pending" {
      t := t.(status := "in-progress");
    }
    var crew := db.crews[c];
    if crew.status == "available" {
      crew := crew.(status := "active");
    }
    UniqueReplace(db.tasks, TaskKey, k, t);
    UniqueReplace(db.crews, CrewKey, c, crew);
    db.tasks := db.tasks[k := t];
    db.crews := db.crews[c := crew];
    r := Ok(t);
  }

  /** `delete_task`: 404 for an unknown id; otherwise exactly that row goes. */
  method DeleteTask(db: Database, taskId: string) returns (r: Result<()>)
    requires db.Valid()
    modifies db`tasks
    ensures db.Valid()
    ensures IndexOf(old(db.tasks), TaskKey, taskId).None? ==> r == Err(NotFound) && db.tasks == old(db.tasks)
    ensures IndexOf(old(db.tasks), TaskKey, taskId).Some? ==>
              r == Ok(()) && db.tasks == RemoveAt(old(db.tasks), IndexOf(old(db.tasks), TaskKey, taskId).value)
    ensures IndexOf(db.tasks, TaskKey, taskId).None?
  {
    var found := IndexOf(db.tasks, TaskKey, taskId);
    if found.None? {
      return Err(NotFound);
    }
    UniqueRemove(db.tasks, TaskKey, found.value);
    db.tasks := RemoveAt(db.tasks, found.value);
    r := Ok(());
  }
}
