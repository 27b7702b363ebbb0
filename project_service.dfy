/** The project commands of the service (project.service.ts): creating and updating a project,
    cancelling it, and assigning its team. */
module ProjectService {
  import opened Wrappers
  import opened Store

  /** The `client` field of a project command, `{ value, label }` as the form sends it: the id of
      an existing client, or empty with the name of a new one. */
  datatype ClientChoice = ClientChoice(value: string, display: string)

  /** The nested relation write the choice is turned into. */
  datatype ClientWrite = ConnectClient(id: string) | CreateClient(name: string)

  /** The body of createProject and updateProject; dates are opaque integers. */
  datatype ProjectData = ProjectData(
    name: string, industry: string, studio: string, features: seq<string>,
    client: ClientChoice, devAmount: int, maxBudget: int, endDate: int)

  /** The failures of the commands: the three `BadRequestException`s of assignTeam, the `TypeError`
      of reading a field of a project that was not found, and the store's "record not found" on an
      update or on a client `connect`. */
  datatype ServiceError = PmNotFound | BadDevIds | BadUnderSelectionIds | ProjectNotFound | RecordNotFound | ClientNotFound

  /** `data.client.value ? { connect: { id: value } } : { create: { name: label } }`. */
  function NormalizeClient(c: ClientChoice): (r: ClientWrite)
    ensures r.ConnectClient? <==> c.value != ""
    ensures r.ConnectClient? ==> r.id == c.value
    ensures r.CreateClient? ==> r.name == c.display
  {
    if c.value != "" then ConnectClient(c.value) else CreateClient(c.display)
  }

  /** The nested client write: `connect` needs an existing client; `create` adds one under a fresh id. */
  function LinkClient(clients: map<string, Client>, c: ClientWrite, newClientId: string): (r: Result<(map<string, Client>, string), ServiceError>)
    requires newClientId !in clients
    ensures c.ConnectClient? ==> (r.Ok? <==> c.id in clients)
    ensures r.Ok? && c.ConnectClient? ==> r.value == (clients, c.id)
    ensures c.CreateClient? ==> r == Ok((clients[newClientId := Client(newClientId, c.name)], newClientId))
    ensures r.Ok? ==> r.value.1 in r.value.0 && clients.Keys <= r.value.0.Keys
    ensures r.Err? ==> r.error == ClientNotFound
  {
    match c
    case ConnectClient(id) => if id in clients then Ok((clients, id)) else Err(ClientNotFound)
    case CreateClient(name) => Ok((clients[newClientId := Client(newClientId, name)], newClientId))
  }

  /** Whatever client a command names, the project ends up linked to the named client when `value` is
      non-empty, and to a new client named `display` (the form's `label`) otherwise. */
  lemma ClientResolution(clients: map<string, Client>, c: ClientChoice, newClientId: string)
    requires newClientId !in clients
    ensures var r := LinkClient(clients, NormalizeClient(c), newClientId);
      && (c.value != "" ==> (r.Ok? <==> c.value in clients) && (r.Ok? ==> r.value == (clients, c.value)))
      && (c.value == "" ==> r.Ok? && r.value.1 == newClientId && r.value.0[newClientId] == Client(newClientId, c.display)
                            && r.value.0 - {newClientId} == clients)
  {
    if c.value == "" {
      var r := LinkClient(clients, NormalizeClient(c), newClientId);
      assert r.value.0 - {newClientId} == clients;
    }
  }

  /** `prisma.pM.findFirst({ where: { id: pmId } })` is non-null. An `undefined` filter is ignored,
      so without a `pmId` any PM is found. */
  predicate PmFound(pms: map<string, RoleRecord>, pmId: Option<string>)
  {
    match pmId
    case None => pms != map[]
    case Some(id) => id in pms
  }

  /** A present, non-empty `pmId`. */
  predicate Given(pmId: Option<string>)
  {
    pmId.Some? && pmId.value != ""
  }

  /** The ids that `findMany({ where: { id: { in: ids } } })` returns: each existing id once. */
  function Found<V>(ids: seq<string>, table: map<string, V>): set<string>
  {
    set x | x in ids && x in table
  }

  predicate Distinct(ids: seq<string>)
  {
    forall i, j :: 0 <= i < j < |ids| ==> ids[i] != ids[j]
  }

  function Elements(ids: seq<string>): set<string>
  {
    set x | x in ids
  }

  lemma {:induction false} ElementsCount(ids: seq<string>)
    ensures |Elements(ids)| <= |ids|
    ensures |Elements(ids)| == |ids| <==> Distinct(ids)
  {
    if |ids| > 0 {
      var rest := ids[1..];
      ElementsCount(rest);
      assert Elements(ids) == {ids[0]} + Elements(rest);
      if ids[0] in rest {
        assert Elements(ids) == Elements(rest);
        var j :| 0 <= j < |rest| && rest[j] == ids[0];
        assert ids[0] == ids[j + 1];
      } else {
        assert |Elements(ids)| == |Elements(rest)| + 1;
        if Distinct(rest) {
          forall i, j | 0 <= i < j < |ids| ensures ids[i] != ids[j] {
            if i == 0 {
              assert ids[j] == rest[j - 1];
            } else {
              assert ids[i] == rest[i - 1] && ids[j] == rest[j - 1];
            }
          }
        } else {
          var i, j :| 0 <= i < j < |rest| && rest[i] == rest[j];
          assert ids[i + 1] == ids[j + 1];
        }
      }
    }
  }

  lemma {:induction false} SubsetCount(a: set<string>, b: set<string>)
    requires a <= b
    ensures |a| <= |b|
    decreases |b|
  {
    if a != {} {
      var x :| x in a;
      SubsetCount(a - {x}, b - {x});
    }
  }

  /** The count check of assignTeam passes exactly when every requested id exists and none is
      repeated: an unknown id or a duplicate makes the found count fall short of the requested count. */
  lemma FoundCount<V>(ids: seq<string>, table: map<string, V>)
    ensures |Found(ids, table)| <= |ids|
    ensures |Found(ids, table)| == |ids| <==> (forall i :: 0 <= i < |ids| ==> ids[i] in table) && Distinct(ids)
  {
    ElementsCount(ids);
    SubsetCount(Found(ids, table), Elements(ids));
    if forall i :: 0 <= i < |ids| ==> ids[i] in table {
      assert Found(ids, table) == Elements(ids);
    } else {
      var i :| 0 <= i < |ids| && ids[i] !in table;
      assert ids[i] in Elements(ids);
      SubsetCount(Found(ids, table), Elements(ids) - {ids[i]});
    }
  }

  /** A value of the assignTeam update body: `undefined`, a PM reference, or a list of found records. */
  datatype BodyValue = Undefined | PmRef(pmId: Option<string>) | Records(ids: set<string>)

  /** A JavaScript object literal, as its keys and values. */
  type Body = map<string, BodyValue>

  /** `{ key: value, ...body }`: every key of `body` is copied over the literal, its own `undefined`s included. */
  function SpreadAfter(key: string, value: BodyValue, body: Body): (r: Body)
    ensures key in body ==> r == body
    ensures key !in body ==> r == body[key := value]
  {
    map[key := value] + body
  }

  /** The store's `update` with a body: `undefined` values are skipped, `pmId` is written. */
  function ApplyBody(p: Project, body: Body): Project
    requires forall k :: k in body && k != "pmId" ==> body[k].Undefined?
    requires "pmId" in body ==> body["pmId"].PmRef? || body["pmId"].Undefined?
  {
    if "pmId" in body && body["pmId"].PmRef? then p.(pmId := body["pmId"].pmId) else p
  }

  /** The project service, over the database. */
  class ProjectService {
    const db: Db

    constructor (db: Db)
      ensures this.db == db
    {
      this.db := db;
    }

    /** createProject: `endDate` becomes `now`, the client is connected or created, and the project
        is stored under the id the database generates (`newId`). */
    method CreateProject(data: ProjectData, now: int, newId: string, newClientId: string) returns (r: Result<Project, ServiceError>)
      requires newId !in db.tables.projects && newClientId !in db.tables.clients
      modifies db
      ensures r.Err? <==> data.client.value != "" && data.client.value !in old(db.tables.clients)
      ensures r.Err? ==> r.error == ClientNotFound && db.tables == old(db.tables)
      ensures r.Ok? ==>
        r.value == Project(newId, data.name, data.industry, data.studio, data.features, r.value.clientId,
                           data.devAmount, data.maxBudget, now, Open, None)
        && db.tables == old(db.tables).(projects := old(db.tables.projects)[newId := r.value],
                                       clients := db.tables.clients)
      ensures r.Ok? && data.client.value != "" ==>
        r.value.clientId == data.client.value && db.tables.clients == old(db.tables.clients)
      ensures r.Ok? && data.client.value == "" ==>
        r.value.clientId == newClientId
        && db.tables.clients == old(db.tables.clients)[newClientId := Client(newClientId, data.client.display)]
    {
      var d := data;
      d := d.(endDate := now);
      var client := NormalizeClient(d.client);
      var link := LinkClient(db.tables.clients, client, newClientId);
      if link.Err? {
        return Err(link.error);
      }
      var (clients, clientId) := link.value;
      var p := Project(newId, d.name, d.industry, d.studio, d.features, clientId, d.devAmount, d.maxBudget, d.endDate, Open, None);
      db.tables := db.tables.(projects := db.tables.projects[newId := p], clients := clients);
      return Ok(p);
    }

    /** updateProject: the project `id` gets the body's fields with `endDate := now` and the
        connected or created client; its state and PM are left as they were. */
    method UpdateProject(id: string, data: ProjectData, now: int, newClientId: string) returns (r: Result<Project, ServiceError>)
      requires newClientId !in db.tables.clients
      modifies db
      ensures id !in old(db.tables.projects) ==> r == Err(RecordNotFound)
      ensures id in old(db.tables.projects) && data.client.value != "" && data.client.value !in old(db.tables.clients)
              ==> r == Err(ClientNotFound)
      ensures r.Ok? <==>
        id in old(db.tables.projects) && (data.client.value == "" || data.client.value in old(db.tables.clients))
      ensures r.Err? ==> db.tables == old(db.tables)
      ensures r.Ok? ==>
        id in old(db.tables.projects)
        && r.value == old(db.tables.projects[id]).(name := data.name, industry := data.industry, studio := data.studio,
                                                   features := data.features, clientId := r.value.clientId,
                                                   devAmount := data.devAmount, maxBudget := data.maxBudget, endDate := now)
        && db.tables == old(db.tables).(projects := old(db.tables.projects)[id := r.value], clients := db.tables.clients)
      ensures r.Ok? && data.client.value != "" ==>
        r.value.clientId == data.client.value && db.tables.clients == old(db.tables.clients)
      ensures r.Ok? && data.client.value == "" ==>
        r.value.clientId == newClientId
        && db.tables.clients == old(db.tables.clients)[newClientId := Client(newClientId, data.client.display)]
    {
      var d := data;
      d := d.(endDate := now);
      var client := NormalizeClient(d.client);
      if id !in db.tables.projects {
        return Err(RecordNotFound);
      }
      var link := LinkClient(db.tables.clients, client, newClientId);
      if link.Err? {
        return Err(link.error);
      }
      var (clients, clientId) := link.value;
      var p := db.tables.projects[id].(name := d.name, industry := d.industry, studio := d.studio, features := d.features,
                                       clientId := clientId, devAmount := d.devAmount, maxBudget := d.maxBudget,
                                       endDate := d.endDate);
      db.tables := db.tables.(projects := db.tables.projects[id := p], clients := clients);
      return Ok(p);
    }

    /** cancelProject: the loaded project is written back with `state := CANCELLED` and every other
        field as loaded; a project that is already cancelled is written back unchanged. */
    method CancelProject(id: string) returns (r: Result<Project, ServiceError>)
      modifies db
      ensures r.Ok? <==> id in old(db.tables.projects)
      ensures r.Err? ==> r.error == ProjectNotFound && db.tables == old(db.tables)
      ensures r.Ok? ==>
        r.value.state == Cancelled && r.value.(state := old(db.tables.projects[id].state)) == old(db.tables.projects[id])
        && db.tables == old(db.tables).(projects := old(db.tables.projects)[id := r.value])
      ensures id in old(db.tables.projects) && old(db.tables.projects[id].state) == Cancelled ==> db.tables == old(db.tables)
    {
      var found := if id in db.tables.projects then Some(db.tables.projects[id]) else None;
      if found.None? {
        return Err(ProjectNotFound);
      }
      var project := found.value;
      project := project.(state := Cancelled);
      db.tables := db.tables.(projects := db.tables.projects[id := project]);
      return Ok(project);
    }

    /** assignTeam: the PM lookup, then the developer and under-selection count checks, then one
        project update whose body carries the PM only. Nothing is written unless every check passes. */
    method AssignTeam(projectId: string, pmId: Option<string>, devIds: seq<string>, underSelectionIds: seq<string>)
      returns (r: Result<Project, ServiceError>)
      modifies db
      ensures !PmFound(old(db.tables.pms), pmId) ==> r == Err(PmNotFound)
      ensures PmFound(old(db.tables.pms), pmId) && !Given(pmId) && projectId !in old(db.tables.projects)
              ==> r == Err(ProjectNotFound)
      ensures (PmFound(old(db.tables.pms), pmId) && (Given(pmId) || projectId in old(db.tables.projects))
               && |Found(devIds, old(db.tables.devs))| != |devIds|) ==> r == Err(BadDevIds)
      ensures (PmFound(old(db.tables.pms), pmId) && (Given(pmId) || projectId in old(db.tables.projects))
               && |Found(devIds, old(db.tables.devs))| == |devIds|
               && |Found(underSelectionIds, old(db.tables.underSelection))| != |underSelectionIds|)
              ==> r == Err(BadUnderSelectionIds)
      ensures (PmFound(old(db.tables.pms), pmId) && Given(pmId) && projectId !in old(db.tables.projects)
               && |Found(devIds, old(db.tables.devs))| == |devIds|
               && |Found(underSelectionIds, old(db.tables.underSelection))| == |underSelectionIds|)
              ==> r == Err(RecordNotFound)
      ensures r.Ok? <==>
        PmFound(old(db.tables.pms), pmId) && projectId in old(db.tables.projects)
        && |Found(devIds, old(db.tables.devs))| == |devIds|
        && |Found(underSelectionIds, old(db.tables.underSelection))| == |underSelectionIds|
      ensures r.Err? ==> db.tables == old(db.tables)
      ensures r.Ok? ==>
        (forall i :: 0 <= i < |devIds| ==> devIds[i] in old(db.tables.devs)) && Distinct(devIds)
        && (forall i :: 0 <= i < |underSelectionIds| ==> underSelectionIds[i] in old(db.tables.underSelection))
        && Distinct(underSelectionIds)
      ensures r.Ok? ==>
        r.value == old(db.tables.projects[projectId]).(pmId := if Given(pmId) then pmId else old(db.tables.projects[projectId].pmId))
        && db.tables == old(db.tables).(projects := old(db.tables.projects)[projectId := r.value])
    {
      var project := if projectId in db.tables.projects then Some(db.tables.projects[projectId]) else None;
      if !PmFound(db.tables.pms, pmId) {
        return Err(PmNotFound);
      }
      var devs := Found(devIds, db.tables.devs);
      var chosen: Option<string>;
      if Given(pmId) {
        chosen := pmId;
      } else if project.None? {
        return Err(ProjectNotFound);
      } else {
        chosen := project.value.pmId;
      }
      var body: Body := map["pmId" := PmRef(chosen), "devs" := Undefined, "underSelection" := Undefined];
      if |devs| != |devIds| {
        return Err(BadDevIds);
      }
      body := SpreadAfter("devs", Records(devs), body);
      var underSelection := Found(underSelectionIds, db.tables.underSelection);
      if |underSelection| != |underSelectionIds| {
        return Err(BadUnderSelectionIds);
      }
      body := SpreadAfter("underSelection", Records(underSelection), body);
      if projectId !in db.tables.projects {
        return Err(RecordNotFound);
      }
      FoundCount(devIds, db.tables.devs);
      FoundCount(underSelectionIds, db.tables.underSelection);
      var updated := ApplyBody(db.tables.projects[projectId], body);
      db.tables := db.tables.(projects := db.tables.projects[projectId := updated]);
      return Ok(updated);
    }
  }
}
