/** `backend/routers/crews.py`: collection crews. A new crew is always
    "available"; updates change only the supplied fields. */
module CrewsRouter {
  import opened Common
  import opened Store

  datatype CreateCrewRequest = CreateCrewRequest(
    id: string,
    name: string,
    leader: string,
    membersCount: int,
    phone: Option<string>,
    email: Option<string>)

  /** `UpdateCrewRequest`: every field optional. */
  datatype UpdateCrewRequest = UpdateCrewRequest(
    name: Option<string>,
    leader: Option<string>,
    membersCount: Option<int>,
    status: Option<string>,
    phone: Option<string>,
    email: Option<string>,
    currentLocation: Option<string>)

  /** The row `create_crew` inserts: available, with no position yet. */
  function NewCrew(req: CreateCrewRequest, now: Timestamp): (c: CrewRow)
    ensures c.id == req.id && c.status == "available" && c.createdAt == now
    ensures c.currentLocation.None? && c.currentLatitude.None? && c.currentLongitude.None?
  {
    CrewRow(req.id, req.name, req.leader, req.membersCount, "available", req.phone, req.email, None, None, None, now)
  }

  /** The row after `update_crew`. */
  function UpdatedCrew(c: CrewRow, req: UpdateCrewRequest): CrewRow {
    c.(name := if req.name.Some? then req.name.value else c.name,
       leader := if req.leader.Some? then req.leader.value else c.leader,
       membersCount := if req.membersCount.Some? then req.membersCount.value else c.membersCount,
       status := if req.status.Some? then req.status.value else c.status,
       phone := if req.phone.Some? then req.phone else c.phone,
       email := if req.email.Some? then req.email else c.email,
       currentLocation := if req.currentLocation.Some? then req.currentLocation else c.currentLocation)
  }

  /** An update keeps the id, creation time and coordinates, leaves every
      field it was not given alone, and takes every field it was given. */
  lemma UpdateCrewChangesOnlySupplied(c: CrewRow, req: UpdateCrewRequest)
    ensures UpdatedCrew(c, req).id == c.id && UpdatedCrew(c, req).createdAt == c.createdAt
    ensures UpdatedCrew(c, req).currentLatitude == c.currentLatitude
    ensures UpdatedCrew(c, req).currentLongitude == c.currentLongitude
    ensures UpdatedCrew(c, req).name == if req.name.Some? then req.name.value else c.name
    ensures UpdatedCrew(c, req).leader == if req.leader.Some? then req.leader.value else c.leader
    ensures UpdatedCrew(c, req).membersCount == if req.membersCount.Some? then req.membersCount.value else c.membersCount
    ensures UpdatedCrew(c, req).status == if req.status.Some? then req.status.value else c.status
    ensures UpdatedCrew(c, req).phone == if req.phone.Some? then req.phone else c.phone
    ensures UpdatedCrew(c, req).email == if req.email.Some? then req.email else c.email
    ensures UpdatedCrew(c, req).currentLocation
         == if req.currentLocation.Some? then req.currentLocation else c.currentLocation
    ensures req == UpdateCrewRequest(None, None, None, None, None, None, None) ==> UpdatedCrew(c, req) == c
  {
  }

  /** `get_crew`: 404 for an unknown id. */
  function GetCrew(rows: seq<CrewRow>, crewId: string): (r: Result<CrewRow>)
    ensures r.Ok? <==> IndexOf(rows, CrewKey, crewId).Some?
    ensures r.Ok? ==> r.value in rows && r.value.id == crewId
    ensures r.Err? ==> r.error == NotFound
  {
    match IndexOf(rows, CrewKey, crewId)
    case None => Err(NotFound)
    case Some(k) => Ok(rows[k])
  }

  /** The tasks whose crew is `crewId`, in row order. */
  function TasksOfCrew(tasks: seq<TaskRow>, crewId: string): (r: seq<TaskRow>)
    ensures forall t :: t in r <==> t in tasks && t.crewId == Some(crewId)
    ensures |r| <= |tasks|
  {
    if tasks == [] then []
    else
      var rest := TasksOfCrew(tasks[..|tasks| - 1], crewId);
      var t := tasks[|tasks| - 1];
      assert tasks == tasks[..|tasks| - 1] + [t];
      if t.crewId == Some(crewId) then rest + [t] else rest
  }

  /** `get_crew_tasks`: 404 for an unknown crew; otherwise exactly the tasks
      assigned to it. */
  function GetCrewTasks(crews: seq<CrewRow>, tasks: seq<TaskRow>, crewId: string): (r: Result<seq<TaskRow>>)
    ensures r.Err? <==> IndexOf(crews, CrewKey, crewId).None?
    ensures r.Ok? ==> forall t :: t in r.value <==> t in tasks && t.crewId == Some(crewId)
  {
    if IndexOf(crews, CrewKey, crewId).None? then Err(NotFound) else Ok(TasksOfCrew(tasks, crewId))
  }

  /** `create_crew`: 409 and no change for a known id; otherwise an
      available crew is appended. */
  method CreateCrew(db: Database, req: CreateCrewRequest, now: Timestamp) returns (r: Result<CrewRow>)
    requires db.Valid()
    modifies db`crews
    ensures db.Valid()
    ensures IndexOf(old(db.crews), CrewKey, req.id).Some? ==> r == Err(Conflict) && db.crews == old(db.crews)
    ensures IndexOf(old(db.crews), CrewKey, req.id).None? ==>
              r == Ok(NewCrew(req, now)) && db.crews == old(db.crews) + [NewCrew(req, now)]
  {
    if IndexOf(db.crews, CrewKey, req.id).Some? {
      return Err(Conflict);
    }
    var crew := CrewRow(req.id, req.name, req.leader, req.membersCount, "available", req.phone, req.email, None, None, None, now);
    UniqueAppend(db.crews, CrewKey, crew);
    db.crews := db.crews + [crew];
    r := Ok(crew);
  }

  /** The assignments of `update_crew`, one per supplied field. */
  method ApplyCrewEdits(c0: CrewRow, req: UpdateCrewRequest) returns (c: CrewRow)
    ensures c == UpdatedCrew(c0, req)
  {
    c := c0;
    if req.name.Some? {
      c := c.(name := req.name.value);
    }
    if req.leader.Some? {
      c := c.(leader := req.leader.value);
    }
    if req.membersCount.Some? {
      c := c.(membersCount := req.membersCount.value);
    }
    if req.status.Some? {
      c := c.(status := req.status.value);
    }
    if req.phone.Some? {
      c := c.(phone := req.phone);
    }
    if req.email.Some? {
      c := c.(email := req.email);
    }
    if req.currentLocation.Some? {
      c := c.(currentLocation := req.currentLocation);
    }
  }

  /** `update_crew`: 404 for an unknown id; otherwise only that crew
      changes, field by field. */
  method UpdateCrew(db: Database, crewId: string, req: UpdateCrewRequest) returns (r: Result<CrewRow>)
    requires db.Valid()
    modifies db`crews
    ensures db.Valid()
    ensures IndexOf(old(db.crews), CrewKey, crewId).None? ==> r == Err(NotFound) && db.crews == old(db.crews)
    ensures IndexOf(old(db.crews), CrewKey, crewId).Some? ==>
              var k := IndexOf(old(db.crews), CrewKey, crewId).value;
              r == Ok(UpdatedCrew(old(db.crews)[k], req)) && db.crews == old(db.crews)[k := r.value]
  {
    var found := IndexOf(db.crews, CrewKey, crewId);
    if found.None? {
      return Err(NotFound);
    }
    var k := found.value;
    var c := ApplyCrewEdits(db.crews[k], req);
    UniqueReplace(db.crews, CrewKey, k, c);
    db.crews := db.crews[k := c];
    r := Ok(c);
  }

  /** `delete_crew`: 404 for an unknown id; otherwise exactly that row goes.
      Tasks naming the crew keep its id. */
  method DeleteCrew(db: Database, crewId: string) returns (r: Result<()>)
    requires db.Valid()
    modifies db`crews
    ensures db.Valid()
    ensures IndexOf(old(db.crews), CrewKey, crewId).None? ==> r == Err(NotFound) && db.crews == old(db.crews)
    ensures IndexOf(old(db.crews), CrewKey, crewId).Some? ==>
              r == Ok(()) && db.crews == RemoveAt(old(db.crews), IndexOf(old(db.crews), CrewKey, crewId).value)
    ensures IndexOf(db.crews, CrewKey, crewId).None?
  {
    var found := IndexOf(db.crews, CrewKey, crewId);
    if found.None? {
      return Err(NotFound);
    }
    UniqueRemove(db.crews, CrewKey, found.value);
    db.crews := RemoveAt(db.crews, found.value);
    r := Ok(());
  }
}
