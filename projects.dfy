/**
 * The project repository (`useProjects`): the in-memory list of saved projects, mirrored to
 * localStorage under the raw key "simpliquote_projects" after every change. Clock readings
 * (`Date.now()` and the ISO timestamp) are parameters.
 */
module Projects {
  import opened Wrappers
  import opened Records
  import Seqs

  const ProjectsKey := "simpliquote_projects"

  /** What `JSON.parse` makes of the text stored under the projects key. */
  datatype Stored =
    | ProjectsJson(projects: seq<Project>)  // an array of project records
    | OtherJson                             // valid JSON that is not an array
    | Malformed                             // text that does not parse
    | EmptyText                             // "", which is falsy

  /**
   * The list the mount effect leaves in state: the stored array, or the empty list when the
   * entry is absent, empty, not an array or not JSON.
   */
  function LoadedProjects(store: map<string, Stored>): (r: seq<Project>)
    ensures r != [] ==> ProjectsKey in store && store[ProjectsKey] == ProjectsJson(r)
    ensures ProjectsKey in store && store[ProjectsKey].ProjectsJson? ==> r == store[ProjectsKey].projects
  {
    if ProjectsKey in store && store[ProjectsKey].ProjectsJson? then store[ProjectsKey].projects else []
  }

  /** The record `saveProject` builds from the submitted data. */
  function NewRecord(data: Project, nowMillis: int, nowIso: string): (r: Project)
    requires nowIso != ""
    ensures r.id.Some?
    ensures data.id.Some? ==> r.id == data.id
    ensures data.id.None? ==> r.id == Some(nowMillis)
    ensures r.createdAt != "" && (data.createdAt != "" ==> r.createdAt == data.createdAt)
    ensures r.updatedAt == nowIso
    ensures r.(id := data.id, createdAt := data.createdAt, updatedAt := data.updatedAt) == data
  {
    data.(id := if data.id.Some? then data.id else Some(nowMillis),
          createdAt := if data.createdAt != "" then data.createdAt else nowIso,
          updatedAt := nowIso)
  }

  /**
   * `{...project, ...data, quoteNumber: project.quoteNumber, createdAt: project.createdAt,
   * updatedAt: now}`. The submitted form data carries every field of the record, except `id`
   * for a form that was never saved; an absent `id` leaves the old one.
   */
  function Merged(p: Project, data: Project, nowIso: string): (r: Project)
    ensures r.quoteNumber == p.quoteNumber && r.createdAt == p.createdAt && r.updatedAt == nowIso
    ensures r.id == if data.id.Some? then data.id else p.id
    ensures r.(id := data.id, quoteNumber := data.quoteNumber, createdAt := data.createdAt,
               updatedAt := data.updatedAt) == data
  {
    data.(id := if data.id.Some? then data.id else p.id,
          quoteNumber := p.quoteNumber,
          createdAt := p.createdAt,
          updatedAt := nowIso)
  }

  /** `prevProjects.map(...)` in `updateProject`: merge into every record whose id matches. */
  function UpdatedList(ps: seq<Project>, id: Option<int>, data: Project, nowIso: string): (r: seq<Project>)
    ensures |r| == |ps|
    ensures forall i :: 0 <= i < |ps| && ps[i].id == id ==> r[i] == Merged(ps[i], data, nowIso)
    ensures forall i :: 0 <= i < |ps| && ps[i].id != id ==> r[i] == ps[i]
  {
    Seqs.Map(ps, (p: Project) => if p.id == id then Merged(p, data, nowIso) else p)
  }

  /** `prevProjects.filter(p => p.id !== id)`. */
  function WithoutId(ps: seq<Project>, id: Option<int>): (r: seq<Project>)
    ensures forall i :: 0 <= i < |r| ==> r[i].id != id && r[i] in ps
    ensures forall i :: 0 <= i < |ps| && ps[i].id != id ==> ps[i] in r
    ensures |r| <= |ps|
  {
    Seqs.Filter(ps, (p: Project) => p.id != id)
  }

  /** The repository state: the `projects` list and the localStorage entries it writes. */
  class ProjectStore {
    var projects: seq<Project>
    var store: map<string, Stored>

    /** Reloading the page shows exactly the list held in state. */
    predicate Synced()
      reads this
    {
      LoadedProjects(store) == projects
    }

    /** The hook's mount: the list starts empty and the effect loads what is stored. */
    constructor(store: map<string, Stored>)
      ensures this.store == store
      ensures projects == LoadedProjects(store)
      ensures Synced()
    {
      this.store := store;
      projects := LoadedProjects(store);
    }

    /** Writes the whole list to the projects key, as `localStorage.setItem` does. */
    method Persist(ps: seq<Project>)
      modifies this
      ensures projects == ps && store == old(store)[ProjectsKey := ProjectsJson(ps)]
      ensures Synced()
    {
      projects := ps;
      store := store[ProjectsKey := ProjectsJson(ps)];
    }

    /**
     * `saveProject(data)`: builds the record; when no stored project has its id, appends it
     * and writes the list; in every case returns the record.
     */
    method SaveProject(data: Project, nowMillis: int, nowIso: string) returns (r: Project)
      requires nowIso != ""
      modifies this
      ensures r == NewRecord(data, nowMillis, nowIso)
      ensures Seqs.Any(old(projects), (p: Project) => p.id == r.id) ==>
                projects == old(projects) && store == old(store)
      ensures !Seqs.Any(old(projects), (p: Project) => p.id == r.id) ==>
                projects == old(projects) + [r] && store == old(store)[ProjectsKey := ProjectsJson(projects)]
      ensures old(Synced()) ==> Synced()
    {
      r := NewRecord(data, nowMillis, nowIso);
      var id := r.id;
      if Seqs.Any(projects, (p: Project) => p.id == id) {
        return;
      }
      Persist(projects + [r]);
    }

    /** `updateProject(id, data)`: merges into the matching records and writes the list. */
    method UpdateProject(id: Option<int>, data: Project, nowIso: string)
      modifies this
      ensures projects == UpdatedList(old(projects), id, data, nowIso)
      ensures store == old(store)[ProjectsKey := ProjectsJson(projects)]
      ensures Synced()
    {
      Persist(UpdatedList(projects, id, data, nowIso));
    }

    /** `deleteProject(id)`: drops every record with the id and writes the list. */
    method DeleteProject(id: Option<int>)
      modifies this
      ensures projects == WithoutId(old(projects), id)
      ensures store == old(store)[ProjectsKey := ProjectsJson(projects)]
      ensures Synced()
    {
      Persist(WithoutId(projects, id));
    }

    /** `getProject(id)`: the first record with the id, or `undefined`. */
    function GetProject(id: Option<int>): (r: Option<Project>)
      reads this
      ensures r.None? <==> forall i :: 0 <= i < |projects| ==> projects[i].id != id
      ensures r.Some? ==> exists i :: 0 <= i < |projects| && projects[i] == r.value && r.value.id == id
                                     && forall j :: 0 <= j < i ==> projects[j].id != id
    {
      Seqs.Find(projects, (p: Project) => p.id == id)
    }
  }

  // ---- Properties -------------------------------------------------------------------------

  /** Writing a list and loading it again gives the same list, whatever was stored before. */
  lemma PersistThenLoad(store: map<string, Stored>, ps: seq<Project>)
    ensures LoadedProjects(store[ProjectsKey := ProjectsJson(ps)]) == ps
  {
  }

  /** A stored value that is not a project array loads as the empty list. */
  lemma UnusableStoreLoadsEmpty(store: map<string, Stored>)
    requires ProjectsKey in store ==> !store[ProjectsKey].ProjectsJson?
    ensures LoadedProjects(store) == []
  {
  }

  /** A freshly saved project is what `getProject` finds under its id. */
  lemma SavedProjectIsFound(ps: seq<Project>, r: Project)
    requires !Seqs.Any(ps, (p: Project) => p.id == r.id)
    ensures Seqs.Find(ps + [r], (p: Project) => p.id == r.id) == Some(r)
  {
    Seqs.FindAppended(ps, r, (p: Project) => p.id == r.id);
  }

  /** After `deleteProject(id)`, nothing with that id is left to find. */
  lemma DeletedProjectIsGone(ps: seq<Project>, id: Option<int>)
    ensures Seqs.Find(WithoutId(ps, id), (p: Project) => p.id == id).None?
  {
  }

  /** `deleteProject` keeps the surviving records in their order. */
  lemma DeleteKeepsOrder(a: seq<Project>, b: seq<Project>, id: Option<int>)
    ensures WithoutId(a + b, id) == WithoutId(a, id) + WithoutId(b, id)
  {
    Seqs.FilterConcat(a, b, (p: Project) => p.id != id);
  }

  /**
   * `updateProject` preserves a record's quote number and creation time, but a submitted `id`
   * replaces the stored one: updating record 1 with data carrying id 2 leaves no record 1.
   */
  lemma UpdateCanChangeId(p: Project, data: Project, nowIso: string)
    requires p.id == Some(1) && data.id == Some(2)
    ensures UpdatedList([p], Some(1), data, nowIso)[0].id == Some(2)
    ensures UpdatedList([p], Some(1), data, nowIso)[0].quoteNumber == p.quoteNumber
  {
  }

  /** Saving twice with the same explicit id stores the project once. */
  method SaveTwice(s: ProjectStore, data: Project, nowMillis: int, nowIso: string)
    requires data.id.Some? && nowIso != ""
    requires forall i :: 0 <= i < |s.projects| ==> s.projects[i].id != data.id
    modifies s
    ensures s.projects == old(s.projects) + [NewRecord(data, nowMillis, nowIso)]
    ensures s.store == old(s.store)[ProjectsKey := ProjectsJson(s.projects)]
  {
    var r1 := s.SaveProject(data, nowMillis, nowIso);
    assert s.projects[|s.projects| - 1] == r1;
    var r2 := s.SaveProject(data, nowMillis, nowIso);
  }
}
