/**
 * `FileStorage` of the generator service: the five JSON files written per world and the two
 * index files kept beside them. The file system is a set of maps from paths to the JSON
 * documents they hold; directories, encodings and `os.path.abspath` are not modelled, and the
 * timestamp (`datetime.now().strftime(...)`) is a parameter.
 */
module FileStorage {
  import opened Wrappers
  import opened Json
  import opened Strings
  import opened Seqs

  /** `os.path.join(a, b)` for a relative `b`. */
  function PathJoin(a: string, b: string): string
  {
    a + "/" + b
  }

  const DefaultProject := "default_project"

  /** The five files of a world, in the order `save_world_data` writes them. */
  const FileNames: seq<string> := ["基础信息.json", "地理环境.json", "文明发展.json", "历史事件.json", "完整数据.json"]

  /** `project_name or "default_project"`: a missing or empty name falls back to the default project. */
  function ProjectName(projectName: Option<string>): (r: string)
    ensures r != ""
    ensures projectName.Some? && projectName.value != "" ==> r == projectName.value
    ensures projectName.None? || projectName.value == "" ==> r == DefaultProject
  {
    if projectName.Some? && projectName.value != "" then projectName.value else DefaultProject
  }

  /**
   * The keys `save_world_data` reads from `world_data`; a missing one raises `KeyError`, and an `id`
   * that is not a string or a `data` that is not an object raise `TypeError`.
   */
  predicate WorldShape(world: map<string, Json>)
  {
    && "id" in world && world["id"].JStr?
    && "seed" in world && "version" in world && "timestamp" in world
    && "data" in world && world["data"].JObj?
    && "geography" in world["data"].fields
    && "civilization" in world["data"].fields
    && "history" in world["data"].fields
  }

  /** How `save_world_data` fails: a key it reads is missing (or of the wrong kind). */
  datatype SaveError = MissingKey

  /** The content of each of the five files, by file name. */
  function WorldFileContent(world: map<string, Json>, project: string, name: string): (doc: Json)
    requires WorldShape(world) && name in FileNames
    ensures name == "完整数据.json" ==> doc == JObj(world)
    ensures name == "地理环境.json" ==> doc == world["data"].fields["geography"]
    ensures name == "文明发展.json" ==> doc == world["data"].fields["civilization"]
    ensures name == "历史事件.json" ==> doc == world["data"].fields["history"]
    ensures name == "基础信息.json" ==> doc.JObj? && doc.fields.Keys == {"id", "seed", "version", "timestamp", "project"}
    ensures name == "基础信息.json" ==> doc.fields["project"] == JStr(project) && doc.fields["id"] == world["id"]
  {
    if name == "基础信息.json" then
      JObj(map[
        "id" := world["id"],
        "seed" := world["seed"],
        "version" := world["version"],
        "timestamp" := world["timestamp"],
        "project" := JStr(project)])
    else if name == "地理环境.json" then world["data"].fields["geography"]
    else if name == "文明发展.json" then world["data"].fields["civilization"]
    else if name == "历史事件.json" then world["data"].fields["history"]
    else JObj(world)
  }

  /** The five documents of a world directory, by file name. */
  function WorldFiles(world: map<string, Json>, project: string): (files: map<string, Json>)
    requires WorldShape(world)
    ensures files.Keys == set name | name in FileNames
    ensures forall name :: name in files ==> files[name] == WorldFileContent(world, project, name)
  {
    map name | name in FileNames :: WorldFileContent(world, project, name)
  }

  /** The project index's record of one world. */
  datatype WorldEntry = WorldEntry(createdAt: string, seed: Json, path: string, name: Json, description: Json, tags: Json)

  /** The per-world record of `_update_project_index`, with its `dict.get` defaults. */
  function NewWorldEntry(world: map<string, Json>, worldId: string, timestamp: string, worldPath: string): (e: WorldEntry)
    requires "seed" in world
    ensures e.createdAt == timestamp && e.seed == world["seed"] && e.path == worldPath
    ensures e.name == if "name" in world then world["name"] else JStr("世界-" + worldId)
    ensures e.description == if "description" in world then world["description"] else JStr("")
    ensures e.tags == if "tags" in world then world["tags"] else JArr([])
  {
    WorldEntry(
      timestamp, world["seed"], worldPath,
      if "name" in world then world["name"] else JStr("世界-" + worldId),
      if "description" in world then world["description"] else JStr(""),
      if "tags" in world then world["tags"] else JArr([]))
  }

  /** A reference to a world in the global index. */
  datatype WorldRef = WorldRef(id: string, createdAt: string, seed: Json)

  /** A project of the global index. */
  datatype ProjectEntry = ProjectEntry(createdAt: string, worlds: seq<WorldRef>)

  /** `if world_ref not in worlds: worlds.append(world_ref)` */
  function AddWorldRef(refs: seq<WorldRef>, r: WorldRef): (out: seq<WorldRef>)
    ensures r in out
    ensures r in refs ==> out == refs
    ensures r !in refs ==> out == refs + [r]
  {
    if r in refs then refs else refs + [r]
  }

  /** Appending only absent references keeps a duplicate-free list duplicate-free. */
  lemma AddWorldRefDistinct(refs: seq<WorldRef>, r: WorldRef)
    requires Distinct(refs)
    ensures Distinct(AddWorldRef(refs, r))
  {
    if r !in refs {
      var out := refs + [r];
      forall i, j | 0 <= i < j < |out| ensures out[i] != out[j] {
        if j == |refs| {
          assert out[i] in refs;
        }
      }
    }
  }

  /** Adding the same reference twice is the same as adding it once. */
  lemma AddWorldRefIdempotent(refs: seq<WorldRef>, r: WorldRef)
    ensures AddWorldRef(AddWorldRef(refs, r), r) == AddWorldRef(refs, r)
  {
  }

  /** The `projects` step of `_update_global_index`: a project entry is created only when absent. */
  function RegisterProject(projects: map<string, ProjectEntry>, project: string, timestamp: string): (r: map<string, ProjectEntry>)
    ensures project in r && r.Keys == projects.Keys + {project}
    ensures project in projects ==> r == projects
    ensures project !in projects ==> r[project] == ProjectEntry(timestamp, [])
    ensures forall p :: p in projects && p != project ==> r[p] == projects[p]
  {
    if project in projects then projects else projects[project := ProjectEntry(timestamp, [])]
  }

  /**
   * `_load_or_create_index`: the document stored at `path`, or the empty index when there is
   * no file there.
   */
  function LoadOrCreate<V>(files: map<string, map<string, V>>, path: string): (index: map<string, V>)
    ensures path !in files ==> index == map[]
    ensures path in files ==> index == files[path]
  {
    if path in files then files[path] else map[]
  }

  /** The paths of the first `k` files. */
  ghost function SavedPaths(worldPath: string, k: nat): map<string, string>
    requires k <= |FileNames|
  {
    map name | name in FileNames[..k] :: PathJoin(worldPath, name)
  }

  /** The documents of the first `k` files. */
  ghost function Written(world: map<string, Json>, project: string, k: nat): map<string, Json>
    requires WorldShape(world) && k <= |FileNames|
  {
    map name | name in FileNames[..k] :: WorldFileContent(world, project, name)
  }

  lemma Written0(world: map<string, Json>, project: string, worldPath: string, dir: map<string, Json>)
    requires WorldShape(world)
    ensures SavedPaths(worldPath, 0) == map[] && dir + Written(world, project, 0) == dir
  {
  }

  lemma WrittenStep(world: map<string, Json>, project: string, worldPath: string, dir: map<string, Json>, k: nat)
    requires WorldShape(world) && k < |FileNames|
    ensures SavedPaths(worldPath, k + 1) == SavedPaths(worldPath, k)[FileNames[k] := PathJoin(worldPath, FileNames[k])]
    ensures dir + Written(world, project, k + 1) == (dir + Written(world, project, k))[FileNames[k] := WorldFileContent(world, project, FileNames[k])]
  {
    SavedPathsStep(worldPath, k);
    WrittenOneMore(world, project, k);
  }

  lemma SavedPathsStep(worldPath: string, k: nat)
    requires k < |FileNames|
    ensures SavedPaths(worldPath, k + 1) == SavedPaths(worldPath, k)[FileNames[k] := PathJoin(worldPath, FileNames[k])]
  {
    TakeSnoc(FileNames, k);
  }

  lemma WrittenOneMore(world: map<string, Json>, project: string, k: nat)
    requires WorldShape(world) && k < |FileNames|
    ensures Written(world, project, k + 1) == Written(world, project, k)[FileNames[k] := WorldFileContent(world, project, FileNames[k])]
  {
    TakeSnoc(FileNames, k);
  }

  lemma WrittenAll(world: map<string, Json>, project: string, worldPath: string)
    requires WorldShape(world)
    ensures SavedPaths(worldPath, |FileNames|) == (map name | name in FileNames :: PathJoin(worldPath, name))
    ensures Written(world, project, |FileNames|) == WorldFiles(world, project)
  {
    assert FileNames[..|FileNames|] == FileNames;
  }

  class FileStorage {
    /** `self.base_path` */
    const basePath: string
    /** The JSON documents of each world directory, by directory path and file name. */
    var dataFiles: map<string, map<string, Json>>
    /** The `worlds` dicts of the `project_index.json` files, by path. */
    var projectIndexes: map<string, map<string, WorldEntry>>
    /** The `projects` dicts of the `worlds_index.json` files, by path. */
    var globalIndexes: map<string, map<string, ProjectEntry>>

    /** `FileStorage(base_path)` over the files already on disk. */
    constructor (basePath: string, dataFiles: map<string, map<string, Json>>,
                 projectIndexes: map<string, map<string, WorldEntry>>,
                 globalIndexes: map<string, map<string, ProjectEntry>>)
      ensures this.basePath == basePath && this.dataFiles == dataFiles
      ensures this.projectIndexes == projectIndexes && this.globalIndexes == globalIndexes
    {
      this.basePath := basePath;
      this.dataFiles := dataFiles;
      this.projectIndexes := projectIndexes;
      this.globalIndexes := globalIndexes;
    }

    /** No project of any global index lists a world reference twice. */
    ghost predicate RefsDistinct()
      reads this
    {
      forall path, p :: path in globalIndexes && p in globalIndexes[path] ==> Distinct(globalIndexes[path][p].worlds)
    }

    function GlobalIndexPath(): string
      reads this
    {
      PathJoin(basePath, "worlds_index.json")
    }

    function ProjectIndexPath(project: string): string
      reads this
    {
      PathJoin(PathJoin(basePath, project), "project_index.json")
    }

    /** `_update_project_index`: `worlds[world_id]` is set and every other world entry is kept. */
    method UpdateProjectIndex(project: string, worldId: string, world: map<string, Json>, timestamp: string, worldPath: string)
      requires "seed" in world
      modifies this
      ensures var path := ProjectIndexPath(project);
        projectIndexes == old(projectIndexes)[path := LoadOrCreate(old(projectIndexes), path)[worldId := NewWorldEntry(world, worldId, timestamp, worldPath)]]
      ensures dataFiles == old(dataFiles) && globalIndexes == old(globalIndexes)
    {
      var path := ProjectIndexPath(project);
      var worlds := LoadOrCreate(projectIndexes, path);
      worlds := worlds[worldId := NewWorldEntry(world, worldId, timestamp, worldPath)];
      projectIndexes := projectIndexes[path := worlds];
    }

    /** `_update_global_index`: register the project if needed, then add the world reference if absent. */
    method UpdateGlobalIndex(project: string, worldId: string, world: map<string, Json>, timestamp: string)
      requires "seed" in world
      modifies this
      ensures var path := GlobalIndexPath();
        var projects := RegisterProject(LoadOrCreate(old(globalIndexes), path), project, timestamp);
        globalIndexes == old(globalIndexes)[path := projects[project := projects[project].(
          worlds := AddWorldRef(projects[project].worlds, WorldRef(worldId, timestamp, world["seed"])))]]
      ensures dataFiles == old(dataFiles) && projectIndexes == old(projectIndexes)
      ensures old(RefsDistinct()) ==> RefsDistinct()
    {
      var path := GlobalIndexPath();
      var projects := LoadOrCreate(globalIndexes, path);
      projects := RegisterProject(projects, project, timestamp);
      var worldRef := WorldRef(worldId, timestamp, world["seed"]);
      var entry := projects[project];
      if RefsDistinct() {
        assert Distinct(entry.worlds);
        AddWorldRefDistinct(entry.worlds, worldRef);
      }
      projects := projects[project := entry.(worlds := AddWorldRef(entry.worlds, worldRef))];
      globalIndexes := globalIndexes[path := projects];
    }

    /** The loop of `save_world_data` writing the five documents into the world directory. */
    method WriteWorldFiles(world: map<string, Json>, project: string, worldPath: string)
      returns (saved: map<string, string>)
      requires WorldShape(world)
      modifies this
      ensures saved == (map name | name in FileNames :: PathJoin(worldPath, name))
      ensures dataFiles == old(dataFiles)[worldPath := LoadOrCreate(old(dataFiles), worldPath) + WorldFiles(world, project)]
      ensures projectIndexes == old(projectIndexes) && globalIndexes == old(globalIndexes)
    {
      var dir := LoadOrCreate(dataFiles, worldPath);
      saved := map[];
      var i := 0;
      Written0(world, project, worldPath, dir);
      while i < |FileNames|
        invariant 0 <= i <= |FileNames|
        invariant saved == SavedPaths(worldPath, i)
        invariant dir == LoadOrCreate(dataFiles, worldPath) + Written(world, project, i)
        modifies {}
      {
        var name := FileNames[i];
        WrittenStep(world, project, worldPath, LoadOrCreate(dataFiles, worldPath), i);
        dir := dir[name := WorldFileContent(world, project, name)];
        saved := saved[name := PathJoin(worldPath, name)];
        i := i + 1;
      }
      WrittenAll(world, project, worldPath);
      dataFiles := dataFiles[worldPath := dir];
    }

    /**
     * `save_world_data`: write the five files into `<base>/<project>/worlds/<id>/`, then update the
     * project index and the global index. Returns the path written for each file name. A world
     * without one of the keys it reads raises before anything is written.
     */
    method SaveWorldData(world: map<string, Json>, projectName: Option<string>, timestamp: string)
      returns (r: Result<map<string, string>, SaveError>)
      modifies this
      ensures !WorldShape(world) ==>
        r == Err(MissingKey) && dataFiles == old(dataFiles) && projectIndexes == old(projectIndexes) && globalIndexes == old(globalIndexes)
      ensures WorldShape(world) ==> r.Ok? && r.value.Keys == set name | name in FileNames
      ensures WorldShape(world) ==>
        var project := ProjectName(projectName);
        var worldPath := PathJoin(PathJoin(PathJoin(basePath, project), "worlds"), world["id"].s);
        && r == Ok(map name | name in FileNames :: PathJoin(worldPath, name))
        && dataFiles == old(dataFiles)[worldPath := LoadOrCreate(old(dataFiles), worldPath) + WorldFiles(world, project)]
      ensures WorldShape(world) ==>
        var project := ProjectName(projectName);
        var worldId := world["id"].s;
        var worldPath := PathJoin(PathJoin(PathJoin(basePath, project), "worlds"), worldId);
        var path := ProjectIndexPath(project);
        projectIndexes == old(projectIndexes)[path := LoadOrCreate(old(projectIndexes), path)[worldId := NewWorldEntry(world, worldId, timestamp, worldPath)]]
      ensures WorldShape(world) ==>
        var project := ProjectName(projectName);
        var path := GlobalIndexPath();
        var projects := RegisterProject(LoadOrCreate(old(globalIndexes), path), project, timestamp);
        globalIndexes == old(globalIndexes)[path := projects[project := projects[project].(
          worlds := AddWorldRef(projects[project].worlds, WorldRef(world["id"].s, timestamp, world["seed"])))]]
      ensures old(RefsDistinct()) ==> RefsDistinct()
    {
      if !WorldShape(world) {
        return Err(MissingKey);
      }
      var worldId := world["id"].s;
      var project := ProjectName(projectName);
      var projectPath := PathJoin(basePath, project);
      var worldPath := PathJoin(PathJoin(projectPath, "worlds"), worldId);
      var saved := WriteWorldFiles(world, project, worldPath);
      UpdateProjectIndex(project, worldId, world, timestamp, worldPath);
      UpdateGlobalIndex(project, worldId, world, timestamp);
      r := Ok(saved);
    }
  }
}
