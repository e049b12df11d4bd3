/** The project table and `ProjectsService`: every read and write is checked against the
    owner. */
module Projects {
  import opened Common
  import opened Strings
  import opened Tables

  /** A row of the `projects` table (timestamps are left out: rows are in creation order). */
  datatype Project = Project(id: string, userId: string, name: string, description: Option<string>, isActive: bool)

  /** `CreateProjectDto` after validation. */
  datatype NewProject = NewProject(name: string, description: Option<string>)

  /** `UpdateProjectDto` after validation: `None` for a property the body left out;
      `Some(None)` is an explicit `null` description. */
  datatype ProjectChanges = ProjectChanges(name: Option<string>, description: Option<Option<string>>, isActive: Option<bool>)

  const ForbiddenMessage := "Vous n'avez pas accès à ce projet"

  function NotFoundMessage(id: string): string {
    "Projet avec l'ID " + id + " non trouvé"
  }

  function IdOf(p: Project): string { p.id }

  /** `Object.assign(project, dto)`: the properties present overwrite, all else is kept. */
  function ApplyChanges(p: Project, c: ProjectChanges): (r: Project)
    ensures r.id == p.id && r.userId == p.userId
    ensures r.name == (if c.name.Some? then c.name.value else p.name)
    ensures r.description == (if c.description.Some? then c.description.value else p.description)
    ensures r.isActive == (if c.isActive.Some? then c.isActive.value else p.isActive)
  {
    Project(p.id, p.userId,
            if c.name.Some? then c.name.value else p.name,
            if c.description.Some? then c.description.value else p.description,
            if c.isActive.Some? then c.isActive.value else p.isActive)
  }

  /** The projects of `userId`, oldest first. */
  function Owned(rows: seq<Project>, userId: string): (r: seq<Project>)
    ensures forall p :: p in r <==> p in rows && p.userId == userId
  {
    Where(rows, (p: Project) => p.userId == userId)
  }

  /** One page of a list: `limit` items after skipping `skip`. */
  function Page<T>(items: seq<T>, skip: nat, limit: nat): (r: seq<T>)
    ensures |r| <= limit
    ensures forall i :: 0 <= i < |r| ==> skip + i < |items| && r[i] == items[skip + i]
    ensures |r| == if skip + limit <= |items| then limit else if skip <= |items| then |items| - skip else 0
  {
    Take(Drop(items, skip), limit)
  }

  /** Consecutive pages put together are the page spanning both. */
  lemma ConsecutivePages<T>(items: seq<T>, skip: nat, first: nat, second: nat)
    ensures Page(items, skip, first) + Page(items, skip + first, second) == Page(items, skip, first + second)
  {
    var a := Page(items, skip, first);
    var b := Page(items, skip + first, second);
    var c := Page(items, skip, first + second);
    if skip + first <= |items| {
      assert |a| == first;
    } else {
      assert |b| == 0;
    }
    assert |a + b| == |c|;
    forall i | 0 <= i < |c|
      ensures (a + b)[i] == c[i]
    {
      if i >= |a| {
        assert b[i - |a|] == items[skip + first + (i - |a|)];
      }
    }
  }

  class ProjectsService {
    var rows: seq<Project>
    var nextId: nat

    ghost predicate Valid()
      reads this
    {
      && DistinctBy(rows, IdOf)
      && forall i :: 0 <= i < |rows| ==> rows[i].id in IssuedKeys(nextId)
    }

    constructor()
      ensures rows == [] && nextId == 0 && Valid()
    {
      rows := [];
      nextId := 0;
    }

    /** `create`: the new project belongs to the caller and starts active. */
    method Create(userId: string, dto: NewProject) returns (p: Project)
      requires Valid()
      modifies this
      ensures Valid()
      ensures p == Project(NatToString(old(nextId)), userId, dto.name, dto.description, true)
      ensures rows == old(rows) + [p] && nextId == old(nextId) + 1
      ensures forall i :: 0 <= i < |old(rows)| ==> old(rows)[i].id != p.id
    {
      p := Project(NatToString(nextId), userId, dto.name, dto.description, true);
      NextKeyFresh(nextId);
      DistinctAppend(rows, p, IdOf);
      rows := rows + [p];
      nextId := nextId + 1;
    }

    /** `findAll`: a page of the caller's projects, newest first, and how many there are. */
    function FindAll(userId: string, skip: nat, limit: nat): (r: (seq<Project>, nat))
      reads this
      ensures r.1 == |Owned(rows, userId)|
      ensures r.0 == Page(Reversed(Owned(rows, userId)), skip, limit)
      ensures |r.0| <= limit && forall p :: p in r.0 ==> p in rows && p.userId == userId
    {
      var owned := Owned(rows, userId);
      var page := Page(Reversed(owned), skip, limit);
      assert forall p :: p in page ==> p in owned;
      (page, |owned|)
    }

    /** `findOne`: NotFound for an unknown id, then Forbidden for someone else's project. */
    function FindOne(id: string, userId: string): (r: Result<Project, HttpError>)
      reads this
      ensures r == Err(HttpError(NotFound, NotFoundMessage(id))) <==> forall i :: 0 <= i < |rows| ==> rows[i].id != id
      ensures r == Err(HttpError(Forbidden, ForbiddenMessage)) <==>
        FirstWith(rows, IdOf, id).Some? && rows[FirstWith(rows, IdOf, id).value].userId != userId
      ensures r.Ok? ==> r.value in rows && r.value.id == id && r.value.userId == userId
      ensures r.Err? ==> r.error.kind in {NotFound, Forbidden}
    {
      match FirstWith(rows, IdOf, id)
      case None => Err(HttpError(NotFound, NotFoundMessage(id)))
      case Some(i) =>
        if rows[i].userId != userId then Err(HttpError(Forbidden, ForbiddenMessage)) else Ok(rows[i])
    }

    /** `update`: the changes reach the owner's project only; every other row is kept. */
    method Update(id: string, userId: string, changes: ProjectChanges) returns (r: Result<Project, HttpError>)
      requires Valid()
      modifies this
      ensures Valid() && nextId == old(nextId)
      ensures old(FindOne(id, userId)).Err? ==> r == old(FindOne(id, userId)) && rows == old(rows)
      ensures old(FindOne(id, userId)).Ok? ==> r == Ok(ApplyChanges(old(FindOne(id, userId)).value, changes))
      ensures |rows| == |old(rows)|
      ensures forall i :: 0 <= i < |rows| ==>
        rows[i] == if old(FindOne(id, userId)).Ok? && old(rows)[i].id == id
                   then ApplyChanges(old(rows)[i], changes) else old(rows)[i]
    {
      var found := FindOne(id, userId);
      if found.Err? {
        return found;
      }
      var k := FirstWith(rows, IdOf, id).value;
      OnlyRowWithKey(rows, IdOf, id);
      var p := ApplyChanges(rows[k], changes);
      DistinctUpdate(rows, k, p, IdOf);
      rows := rows[k := p];
      r := Ok(p);
    }

    /** `remove`: deletes the owner's project, after the same checks as `findOne`. */
    method Remove(id: string, userId: string) returns (r: Result<(), HttpError>)
      requires Valid()
      modifies this
      ensures Valid() && nextId == old(nextId)
      ensures r.Err? <==> old(FindOne(id, userId)).Err?
      ensures r.Err? ==> r.error == old(FindOne(id, userId)).error && rows == old(rows)
      ensures r.Ok? ==> forall p :: p in rows <==> p in old(rows) && p.id != id
    {
      var found := FindOne(id, userId);
      if found.Err? {
        return Err(found.error);
      }
      var k := FirstWith(rows, IdOf, id).value;
      RemoveByKey(rows, k, IdOf);
      var rest := RemoveAt(rows, k);
      assert forall i :: 0 <= i < |rest| ==> rest[i] in rows;
      rows := rest;
      r := Ok(());
    }
  }
}
