/** The project manager: it owns the groups model and the optional attached
    application, and saves and opens projects. A project is a directory with
    the suffix ".ksp" holding the study as `salome_study.hdf` and the plugin's
    own data as `plugin_data.json`. */
module ProjectManagement {
  import opened Runtime
  import opened Paths
  import opened JsonValues
  import opened Files
  import opened SalomeStudy

  const ProjectSuffix := ".ksp"
  const StudyFileName := "salome_study.hdf"
  const PluginDataFileName := "plugin_data.json"

  function StudyPath(dir: Path): Path {
    dir + [StudyFileName]
  }

  function PluginDataPath(dir: Path): Path {
    dir + [PluginDataFileName]
  }

  /** Every entry of `before` outside `changed` is kept, and every new entry
      is a directory on the way to `dir` or one of `changed`. */
  ghost predicate ChangedAtMostBelow(before: Entries, after: Entries, dir: Path, changed: set<Path>) {
    && (forall q :: q in before && q !in changed ==> q in after && after[q] == before[q])
    && (forall q :: q in after && q !in before ==> q <= dir || q in changed)
  }

  /** Whether saving the study into the existing directory `dir` writes its
      file: the host writes it, and the path is not a directory. */
  predicate StudyWritten(e: Entries, dir: Path, host: Host) {
    host.SaveAs(StudyPath(dir)).writesFile && !DirIn(e, StudyPath(dir))
  }

  /** The filesystem after the study file of `dir` was or was not written. */
  function WithStudy(e: Entries, dir: Path, written: bool): Entries {
    if written then e[StudyPath(dir) := File(HostDocument)] else e
  }

  /** The two files of a project are distinct, lie directly in `dir` and are
      not on the way to it. */
  lemma ProjectFilesDistinct(dir: Path)
    ensures StudyPath(dir) != PluginDataPath(dir)
    ensures Parent(StudyPath(dir)) == dir && Parent(PluginDataPath(dir)) == dir
    ensures !(StudyPath(dir) <= dir) && !(PluginDataPath(dir) <= dir)
  {
    assert StudyPath(dir)[|dir|] != PluginDataPath(dir)[|dir|];
  }

  /** Writing the plugin data after the study file leaves the study file and
      the directory as they were. */
  lemma PluginDataKeepsStudy(mid: Entries, dir: Path, x: Node)
    ensures FileIn(mid[PluginDataPath(dir) := x], StudyPath(dir)) <==> FileIn(mid, StudyPath(dir))
    ensures DirIn(mid, dir) ==> DirIn(mid[PluginDataPath(dir) := x], dir)
  {
    ProjectFilesDistinct(dir);
    assert PluginDataPath(dir) != dir;
  }

  /** Creating the directories up to `dir`, then saving the study and writing
      the plugin data, changes nothing but those directories and the two files;
      without the write, nothing but the directories and the study file. */
  lemma FrameAfterMakeDirs(before: Entries, mid: Entries, after: Entries, dir: Path, studyWritten: bool, x: Node)
    requires forall q :: q in before ==> q in mid && mid[q] == before[q]
    requires forall q :: q in mid && q !in before ==> q <= dir
    requires after == WithStudy(mid, dir, studyWritten) || after == WithStudy(mid, dir, studyWritten)[PluginDataPath(dir) := x]
    ensures ChangedAtMostBelow(before, after, dir, {StudyPath(dir), PluginDataPath(dir)})
    ensures after == WithStudy(mid, dir, studyWritten) ==> ChangedAtMostBelow(before, after, dir, {StudyPath(dir)})
    ensures DirIn(mid, StudyPath(dir)) <==> DirIn(before, StudyPath(dir))
    ensures DirIn(mid, PluginDataPath(dir)) <==> DirIn(before, PluginDataPath(dir))
    ensures FileIn(after, StudyPath(dir)) <==> studyWritten || FileIn(before, StudyPath(dir))
  {
    ProjectFilesDistinct(dir);
  }

  /** The three checks `OpenProject` makes before it changes anything. */
  predicate IsProject(e: Entries, dir: Path) {
    DirIn(e, dir) && FileIn(e, StudyPath(dir)) && FileIn(e, PluginDataPath(dir))
  }

  /** The project directory `SaveProject` writes into is the same for `p` and
      for `p` with the suffix already in place. */
  lemma ProjectTargetIdempotent(p: Path)
    ensures WithSuffix(p, ProjectSuffix).Some? ==>
      WithSuffix(WithSuffix(p, ProjectSuffix).value, ProjectSuffix) == WithSuffix(p, ProjectSuffix)
  {
    assert SimpleSuffix(ProjectSuffix) by {
      assert ProjectSuffix == ['.', 'k', 's', 'p'];
    }
    WithSuffixIdempotent(p, ProjectSuffix);
  }

  /** The study file of a project already has the study suffix, so `SaveStudy`
      saves it under exactly that path. */
  lemma StudyPathNormalised(dir: Path)
    ensures WithSuffix(StudyPath(dir), StudySuffix) == Some(StudyPath(dir))
  {
    assert SimpleSuffix(StudySuffix) by {
      assert StudySuffix == ['.', 'h', 'd', 'f'];
    }
    var name := StudyFileName;
    assert name[12] == '.';
    var i := LastDot(name);
    assert i == 12 || i == 13 || i == 14 || i == 15;
    assert i == 12;
    assert name[12..] == StudySuffix;
    assert Name(StudyPath(dir)) == name;
    WithSuffixKeepsMatching(StudyPath(dir), StudySuffix);
  }

  // ---------------------------------------------------------------------------
  // The record stored in plugin_data.json

  /** Informational fields: plugin version, host version, creation time and
      operating system. They are written on save and only logged on open. */
  datatype General = General(versionPlugin: Json, versionSalome: Json, creationTime: Json, operatingSystem: Json)

  datatype AppSection = AppSection(moduleName: string, data: Json)

  datatype ProjectRecord = ProjectRecord(general: General, groups: Json, application: Option<AppSection>)

  function EncodeGeneral(g: General): Json {
    JObj(map[
      "version_plugin" := g.versionPlugin,
      "version_salome" := g.versionSalome,
      "creation_time" := g.creationTime,
      "operating_system" := g.operatingSystem])
  }

  /** The dict `SaveProject` dumps; the "application" key is there only when
      an application is attached. */
  function Encode(r: ProjectRecord): Json {
    var base := map["general" := EncodeGeneral(r.general), "groups" := r.groups];
    match r.application
    case None => JObj(base)
    case Some(app) =>
      JObj(base["application" := JObj(map["application_module" := JStr(app.moduleName), "application_data" := app.data])])
  }

  /** The shape of the saved record: "general" with its four fields, "groups",
      and "application" exactly when an application is attached. */
  lemma EncodeShape(r: ProjectRecord)
    ensures Encode(r).JObj? && EncodeGeneral(r.general).JObj?
    ensures Encode(r).members.Keys == {"general", "groups"} + (if r.application.Some? then {"application"} else {})
    ensures Encode(r).members["general"].members.Keys == {"version_plugin", "version_salome", "creation_time", "operating_system"}
    ensures Encode(r).members["groups"] == r.groups
    ensures HasKey(Encode(r), "application") <==> r.application.Some?
  {
  }

  /** The general section, as `OpenProject` reads it for logging: each of its
      four fields must be present. */
  function ReadGeneral(doc: Json): Result<General> {
    var g :- Subscript(doc, "general");
    var versionPlugin :- Subscript(g, "version_plugin");
    var versionSalome :- Subscript(g, "version_salome");
    var creationTime :- Subscript(g, "creation_time");
    var operatingSystem :- Subscript(g, "operating_system");
    Ok(General(versionPlugin, versionSalome, creationTime, operatingSystem))
  }

  /** What `OpenProject` reads before it restores the groups: the file must hold
      JSON, the general section must be complete, and "groups" must be there. */
  function ReadHead(c: Content, path: Path): Result<Json> {
    if !c.JsonText? then Raise(JsonDecodeError(path))
    else
      var _ :- ReadGeneral(c.doc);
      Subscript(c.doc, "groups")
  }

  /** The application section: the module to load, and the section itself, from
      which the data is taken later. */
  datatype AppEntry = AppEntry(moduleName: string, section: Json)

  /** What `OpenProject` reads after it restored the groups: nothing when there
      is no "application" key, otherwise the name of the module to load. */
  function ReadApplication(c: Content): Result<Option<AppEntry>> {
    if !c.JsonText? || !HasKey(c.doc, "application") then Ok(None)
    else
      var section := c.doc.members["application"];
      var name :- Subscript(section, "application_module");
      if name.JStr? then Ok(Some(AppEntry(name.s, section))) else Raise(TypeError)
  }

  // ---------------------------------------------------------------------------
  // Collaborators

  /** The groups model: not part of this model beyond its serialised form,
      which is what `Serialize` returns and `Deserialize` restores;
      `restoredFrom` is the data last handed to `Deserialize`. */
  class GroupsModel {
    var data: Json
    var restoredFrom: Option<Json>

    constructor()
      ensures data == FreshGroups && restoredFrom == None
    {
      data := FreshGroups;
      restoredFrom := None;
    }

    function Serialize(): Json
      reads this
    {
      data
    }

    method Deserialize(d: Json)
      modifies this
      ensures data == d && restoredFrom == Some(d)
    {
      data := d;
      restoredFrom := Some(d);
    }
  }

  /** The serialised form of a freshly created groups model. */
  const FreshGroups: Json := JObj(map[])

  /** What an application module's code reports: whether its `Serialize`
      succeeds, and which data its `Deserialize` accepts. */
  datatype Behaviour = Behaviour(serializes: bool, accepts: Json -> bool)

  /** An application created by a module's `Create()`. Its state is what it
      serialises; `deserializedFrom` is the data last handed to `Deserialize`. */
  class Application {
    const moduleName: string
    const behaviour: Behaviour
    var state: Json
    var deserializedFrom: Option<Json>

    constructor Create(moduleName: string, behaviour: Behaviour)
      ensures this.moduleName == moduleName && this.behaviour == behaviour
      ensures state == JNull && deserializedFrom == None
    {
      this.moduleName := moduleName;
      this.behaviour := behaviour;
      state := JNull;
      deserializedFrom := None;
    }

    method Serialize() returns (ok: bool, payload: Json)
      ensures ok == behaviour.serializes && payload == state
    {
      return behaviour.serializes, state;
    }

    method Deserialize(d: Json) returns (ok: bool)
      modifies this
      ensures ok == behaviour.accepts(d)
      ensures deserializedFrom == Some(d) && state == old(state)
    {
      deserializedFrom := Some(d);
      return behaviour.accepts(d);
    }
  }

  /** The application section as the source builds it: the module name comes
      from `mod(self.application)`, but `mod` is neither defined nor imported,
      so the call raises NameError after the application has serialised. */
  function ApplicationSectionAsWritten(app: Application, payload: Json): Result<AppSection> {
    Raise(NameError("mod"))
  }

  /** The application section as intended ("necessary for deserialization"):
      the name of the module `OpenProject` imports to recreate the application,
      with the serialised data. */
  function ApplicationSection(app: Application, payload: Json): AppSection {
    AppSection(app.moduleName, payload)
  }

  // ---------------------------------------------------------------------------
  // Opening, as a function of what is on disk

  /** What `OpenProject` returns once the three checks have passed, given the
      content of plugin_data.json, whether the study opened, and the modules
      that can be loaded. The application data is looked up and handed to
      `Deserialize` only when the study opened. */
  function OpenOutcome(c: Content, path: Path, studyOpened: bool, registry: map<string, Behaviour>): Result<bool> {
    var _ :- ReadHead(c, path);
    var app :- ReadApplication(c);
    match app
    case None => Ok(studyOpened)
    case Some(e) =>
      if e.moduleName !in registry then Raise(ModuleNotFoundError(e.moduleName))
      else if !studyOpened then Ok(false)
      else
        var d :- Subscript(e.section, "application_data");
        Ok(registry[e.moduleName].accepts(d))
  }

  /** The module of the application `OpenProject` leaves attached, if any. */
  function AttachedModule(c: Content, path: Path, registry: map<string, Behaviour>): Option<string> {
    if ReadHead(c, path).Raise? then None
    else match ReadApplication(c)
      case Ok(Some(e)) => if e.moduleName in registry then Some(e.moduleName) else None
      case _ => None
  }

  /** The data `OpenProject` hands to the new application's `Deserialize`:
      none when the study did not open. */
  function DeserializedPayload(c: Content, studyOpened: bool): Option<Json> {
    if !studyOpened then None
    else match ReadApplication(c)
      case Ok(Some(e)) =>
        (match Subscript(e.section, "application_data")
         case Ok(d) => Some(d)
         case Raise(_) => None)
      case _ => None
  }

  /** Opening reports success only when the study opened. */
  lemma OpenSucceedsOnlyWithStudy(c: Content, path: Path, studyOpened: bool, registry: map<string, Behaviour>)
    ensures OpenOutcome(c, path, studyOpened, registry) == Ok(true) ==> studyOpened
    ensures DeserializedPayload(c, studyOpened).Some? ==> studyOpened
  {
  }

  /** Without an application section, opening reports exactly whether the
      study studyOpened, and no application is attached. */
  lemma OpenWithoutApplication(c: Content, path: Path, studyOpened: bool, registry: map<string, Behaviour>)
    requires ReadHead(c, path).Ok? && !HasKey(c.doc, "application")
    ensures OpenOutcome(c, path, studyOpened, registry) == Ok(studyOpened)
    ensures AttachedModule(c, path, registry) == None
  {
  }

  /** Reading back a saved record: the head reads without error and yields the
      saved groups, and the application section names the saved module and
      carries the saved data. */
  lemma ReadEncoded(r: ProjectRecord)
    ensures ReadGeneral(Encode(r)) == Ok(r.general)
    ensures ReadHead(JsonText(Encode(r)), []).Ok?
    ensures forall path :: ReadHead(JsonText(Encode(r)), path) == Ok(r.groups)
    ensures ReadApplication(JsonText(Encode(r))).Ok?
    ensures ReadApplication(JsonText(Encode(r))).value.Some? <==> r.application.Some?
    ensures r.application.Some? ==>
      var e := ReadApplication(JsonText(Encode(r))).value.value;
      e.moduleName == r.application.value.moduleName && Subscript(e.section, "application_data") == Ok(r.application.value.data)
  {
  }

  /** Opening what was saved: the result is the study's open result AND, when
      an application was saved, what the registered module's `Deserialize`
      says of the saved data; the saved module is attached again. */
  lemma {:induction false} OpenSavedRecord(r: ProjectRecord, path: Path, studyOpened: bool, registry: map<string, Behaviour>)
    requires r.application.Some? ==> r.application.value.moduleName in registry
    ensures OpenOutcome(JsonText(Encode(r)), path, studyOpened, registry) ==
      Ok(studyOpened && (r.application.None? || registry[r.application.value.moduleName].accepts(r.application.value.data)))
    ensures AttachedModule(JsonText(Encode(r)), path, registry) ==
      (if r.application.Some? then Some(r.application.value.moduleName) else None)
    ensures DeserializedPayload(JsonText(Encode(r)), studyOpened) ==
      (if studyOpened && r.application.Some? then Some(r.application.value.data) else None)
  {
    ReadEncoded(r);
    assert ReadHead(JsonText(Encode(r)), path) == Ok(r.groups);
  }

  /** The intended section reads back as the application's own module, which
      is what `OpenProject` imports, and its data. */
  lemma ApplicationSectionReadsBack(general: General, groups: Json, app: Application, payload: Json)
    ensures var c := JsonText(Encode(ProjectRecord(general, groups, Some(ApplicationSection(app, payload)))));
      && ReadApplication(c).Ok? && ReadApplication(c).value.Some?
      && ReadApplication(c).value.value.moduleName == app.moduleName
      && Subscript(ReadApplication(c).value.value.section, "application_data") == Ok(payload)
  {
    ReadEncoded(ProjectRecord(general, groups, Some(ApplicationSection(app, payload))));
  }

  /** The first step of `SaveProject` once the directory exists: the study is
      saved as salome_study.hdf in it; nothing else in the directory changes. */
  method SaveProjectStudy(fs: FileSystem, dir: Path, host: Host) returns (saved: bool)
    requires fs.Valid() && fs.IsDir(dir)
    modifies fs
    ensures fs.Valid() && fs.IsDir(dir)
    ensures saved <==> Reported(host.SaveAs(StudyPath(dir)).result) && fs.IsFile(StudyPath(dir))
    ensures fs.entries == WithStudy(old(fs.entries), dir, StudyWritten(old(fs.entries), dir, host))
  {
    var studyPath := StudyPath(dir);
    StudyPathNormalised(dir);
    assert Parent(studyPath) == dir;
    var r := SaveStudy(fs, studyPath, host);
    saved := r.value;
  }

  /** The last step of `SaveProject`: dumping the record to plugin_data.json
      in the project directory; the save's result passes through. */
  method WritePluginData(fs: FileSystem, dir: Path, record: ProjectRecord, saveSuccessful: bool) returns (r: Result<bool>)
    requires fs.Valid() && fs.IsDir(dir)
    modifies fs
    ensures fs.Valid()
    ensures r.Raise? <==> DirIn(old(fs.entries), PluginDataPath(dir))
    ensures r.Raise? ==> r.error == IsADirectoryError(PluginDataPath(dir)) && fs.entries == old(fs.entries)
    ensures r.Ok? ==> r.value == saveSuccessful
    ensures r.Ok? ==> fs.entries == old(fs.entries)[PluginDataPath(dir) := File(JsonText(Encode(record)))]
  {
    assert Parent(PluginDataPath(dir)) == dir;
    var written := fs.WriteFile(PluginDataPath(dir), JsonText(Encode(record)));
    if written.Raise? {
      return Raise(written.error);
    }
    return Ok(saveSuccessful);
  }

  // ---------------------------------------------------------------------------
  // The manager

  class ProjectManager {
    var groupsModel: GroupsModel
    var application: Application?

    /** The same reset as `InitializeMembers`. */
    constructor()
      ensures fresh(groupsModel) && groupsModel.data == FreshGroups && groupsModel.restoredFrom == None
      ensures application == null
    {
      groupsModel := new GroupsModel();
      application := null;
    }

    /** The record `SaveProject` builds from the current members. */
    function Record(general: General): ProjectRecord
      reads this, groupsModel, application
    {
      ProjectRecord(general, groupsModel.Serialize(),
        if application == null then None else Some(ApplicationSection(application, application.state)))
    }

    /** `__InitializeMembers`: a fresh groups model and no application. */
    method InitializeMembers()
      modifies this
      ensures fresh(groupsModel) && groupsModel.data == FreshGroups && groupsModel.restoredFrom == None
      ensures application == null
    {
      groupsModel := new GroupsModel();
      application := null;
    }

    /** `ProjectHasUnsavedChanges`: a stub that always answers no. */
    method ProjectHasUnsavedChanges() returns (r: bool)
      ensures !r
    {
      return false;
    }

    /** `SaveProject`: saves into `savePath` with its suffix replaced by ".ksp",
        creating the directory when missing (an existing one is written into).
        The study is saved first; plugin_data.json is written whatever the
        study save or the application's serialisation reported. The result is
        the study save's result AND, with an application attached, its
        serialisation's result. The members are not reassigned. With an
        application attached, the module name is recorded as line 75 intends
        (see `SaveIntoAsWritten` for the line as written). */
    method SaveProject(fs: FileSystem, savePath: Path, host: Host, general: General) returns (r: Result<bool>)
      requires fs.Valid()
      modifies fs
      ensures fs.Valid()
      ensures groupsModel == old(groupsModel) && application == old(application)
      ensures WithSuffix(savePath, ProjectSuffix).None? ==> r == Raise(ValueError) && fs.entries == old(fs.entries)
      ensures WithSuffix(savePath, ProjectSuffix).Some? ==>
        var dir := WithSuffix(savePath, ProjectSuffix).value;
        && (!DirIn(old(fs.entries), dir) && !CanMakeDirs(old(fs.entries), dir) ==> r.Raise? && fs.entries == old(fs.entries))
        && (r.Raise? <==> (!DirIn(old(fs.entries), dir) && !CanMakeDirs(old(fs.entries), dir)) || DirIn(old(fs.entries), PluginDataPath(dir)))
        && (r.Ok? ==> fs.IsDir(dir) && fs.IsFile(PluginDataPath(dir)))
        && (r.Ok? ==> fs.entries[PluginDataPath(dir)] == File(JsonText(Encode(Record(general)))))
        && (r.Ok? ==> (r.value <==> Reported(host.SaveAs(StudyPath(dir)).result) && fs.IsFile(StudyPath(dir))
                                    && (application == null || application.behaviour.serializes)))
        && (r == Ok(true) ==> IsProject(fs.entries, dir))
        && ChangedAtMostBelow(old(fs.entries), fs.entries, dir, {StudyPath(dir), PluginDataPath(dir)})
        && (r.Raise? ==> ChangedAtMostBelow(old(fs.entries), fs.entries, dir, {StudyPath(dir)}))
        && (DirIn(old(fs.entries), PluginDataPath(dir)) ==> r == Raise(IsADirectoryError(PluginDataPath(dir))))
        && (DirIn(old(fs.entries), PluginDataPath(dir)) ==>
              (host.SaveAs(StudyPath(dir)).writesFile && !DirIn(old(fs.entries), StudyPath(dir)) ==> fs.IsFile(StudyPath(dir))))
        && (!DirIn(old(fs.entries), dir) && CanMakeDirs(old(fs.entries), dir) ==> r.Ok?)
        && (DirIn(old(fs.entries), dir) || CanMakeDirs(old(fs.entries), dir) ==>
              (fs.IsFile(StudyPath(dir)) <==> StudyWritten(old(fs.entries), dir, host) || FileIn(old(fs.entries), StudyPath(dir))))
        && (DirIn(old(fs.entries), dir) ==>
              fs.entries == if r.Raise? then WithStudy(old(fs.entries), dir, StudyWritten(old(fs.entries), dir, host))
                            else WithStudy(old(fs.entries), dir, StudyWritten(old(fs.entries), dir, host))
                                   [PluginDataPath(dir) := File(JsonText(Encode(Record(general))))])
    {
      var normalised := WithSuffix(savePath, ProjectSuffix);
      if normalised.None? {
        return Raise(ValueError);
      }
      var dir := normalised.value;
      // an existing project directory is written into
      if !fs.IsDir(dir) {
        assert !DirIn(fs.entries, PluginDataPath(dir)) by {
          assert Parent(PluginDataPath(dir)) == dir;
        }
        var made := fs.MakeDirs(dir);
        if made.Raise? {
          return Raise(made.error);
        }
      }
      ProjectFilesDistinct(dir);
      ghost var mid := fs.entries;
      r := SaveInto(fs, dir, host, general);
      FrameAfterMakeDirs(old(fs.entries), mid, fs.entries, dir, StudyWritten(mid, dir, host),
                         File(JsonText(Encode(Record(general)))));
    }

    /** The record `SaveProject` dumps: the general information, the groups
        model's serialised form and, with an application attached, the
        application's section; `serialized` is what its `Serialize` reported
        (true without an application). */
    method BuildRecord(general: General) returns (record: ProjectRecord, serialized: bool)
      ensures record == Record(general)
      ensures record.groups == groupsModel.data && record.general == general
      ensures record.application.Some? <==> application != null
      ensures application != null ==> record.application.value == AppSection(application.moduleName, application.state)
      ensures serialized <==> application == null || application.behaviour.serializes
    {
      var appSection: Option<AppSection> := None;
      serialized := true;
      if application != null {
        var serializingSuccessful, serializedApp := application.Serialize();
        serialized := serializingSuccessful;
        appSection := Some(ApplicationSection(application, serializedApp));
      }
      record := ProjectRecord(general, groupsModel.Serialize(), appSection);
    }

    /** The part of `SaveProject` after the project directory exists: the study
        file, then plugin_data.json, with the application's module name recorded
        as line 75 intends. */
    method SaveInto(fs: FileSystem, dir: Path, host: Host, general: General) returns (r: Result<bool>)
      requires fs.Valid() && fs.IsDir(dir)
      modifies fs
      ensures fs.Valid()
      ensures r.Raise? <==> DirIn(old(fs.entries), PluginDataPath(dir))
      ensures r.Raise? ==> r.error == IsADirectoryError(PluginDataPath(dir))
      ensures r.Ok? ==> fs.IsDir(dir) && fs.IsFile(PluginDataPath(dir))
      ensures r.Ok? ==> fs.entries[PluginDataPath(dir)] == File(JsonText(Encode(Record(general))))
      ensures r.Ok? ==> (r.value <==> Reported(host.SaveAs(StudyPath(dir)).result) && fs.IsFile(StudyPath(dir))
                                      && (application == null || application.behaviour.serializes))
      ensures r == Ok(true) ==> IsProject(fs.entries, dir)
      ensures r.Raise? ==> fs.entries == WithStudy(old(fs.entries), dir, StudyWritten(old(fs.entries), dir, host))
      ensures r.Ok? ==> fs.entries == WithStudy(old(fs.entries), dir, StudyWritten(old(fs.entries), dir, host))
                                      [PluginDataPath(dir) := File(JsonText(Encode(Record(general))))]
    {
      var saveSuccessful := SaveProjectStudy(fs, dir, host);
      ghost var afterStudy := fs.entries;

      var record, serialized := BuildRecord(general);
      saveSuccessful := saveSuccessful && serialized;

      r := WritePluginData(fs, dir, record, saveSuccessful);
      PluginDataKeepsStudy(afterStudy, dir, File(JsonText(Encode(record))));
    }

    /** `SaveInto` as the source writes it: with an application attached, the
        section's module name raises NameError after the study was saved and
        the application serialised, so plugin_data.json is never written and a
        directory that did not hold it before is no project afterwards.
        Without an application it saves as `SaveInto` does. */
    method SaveIntoAsWritten(fs: FileSystem, dir: Path, host: Host, general: General) returns (r: Result<bool>)
      requires fs.Valid() && fs.IsDir(dir)
      modifies fs
      ensures fs.Valid()
      ensures application != null ==> r == Raise(NameError("mod"))
      ensures application != null ==> fs.entries == WithStudy(old(fs.entries), dir, StudyWritten(old(fs.entries), dir, host))
      ensures application != null && PluginDataPath(dir) !in old(fs.entries) ==> !IsProject(fs.entries, dir)
      ensures application == null ==>
        && (r.Raise? <==> DirIn(old(fs.entries), PluginDataPath(dir)))
        && (r.Ok? ==> PluginDataPath(dir) in fs.entries && fs.entries[PluginDataPath(dir)] == File(JsonText(Encode(Record(general)))))
        && (r.Ok? ==> (r.value <==> Reported(host.SaveAs(StudyPath(dir)).result) && fs.IsFile(StudyPath(dir))))
        && (r == Ok(true) ==> IsProject(fs.entries, dir))
        && (r.Raise? ==> fs.entries == WithStudy(old(fs.entries), dir, StudyWritten(old(fs.entries), dir, host)))
        && (r.Ok? ==> fs.entries == WithStudy(old(fs.entries), dir, StudyWritten(old(fs.entries), dir, host))
                                    [PluginDataPath(dir) := File(JsonText(Encode(Record(general))))])
    {
      var saveSuccessful := SaveProjectStudy(fs, dir, host);
      ghost var afterStudy := fs.entries;
      ProjectFilesDistinct(dir);

      if application != null {
        var serializingSuccessful, serializedApp := application.Serialize();
        var section := ApplicationSectionAsWritten(application, serializedApp);
        return Raise(section.error);
      }
      var record := ProjectRecord(general, groupsModel.Serialize(), None);
      r := WritePluginData(fs, dir, record, saveSuccessful);
      PluginDataKeepsStudy(afterStudy, dir, File(JsonText(Encode(record))));
    }

    /** `OpenProject`: opens the project directory `openPath` as given. It
        raises NotADirectoryError, then FileNotFoundError for the study file,
        then for the plugin data, all before anything changes. Then it resets
        the members, opens the study, restores the groups and, when the data
        has an application section, creates that module's application and,
        if the study opened, deserialises it. */
    method OpenProject(fs: FileSystem, study: Study, openPath: Path, host: Host, registry: map<string, Behaviour>)
      returns (r: Result<bool>)
      modifies this, study
      ensures !fs.IsDir(openPath) ==> r == Raise(NotADirectoryError(openPath))
      ensures fs.IsDir(openPath) && !fs.IsFile(StudyPath(openPath)) ==> r == Raise(FileNotFoundError(StudyPath(openPath)))
      ensures fs.IsDir(openPath) && fs.IsFile(StudyPath(openPath)) && !fs.IsFile(PluginDataPath(openPath)) ==>
        r == Raise(FileNotFoundError(PluginDataPath(openPath)))
      ensures !IsProject(fs.entries, openPath) ==>
        groupsModel == old(groupsModel) && application == old(application) && study.components == old(study.components)
      ensures IsProject(fs.entries, openPath) ==>
        var c := fs.entries[PluginDataPath(openPath)].content;
        var studyOpened := Reported(host.Open(StudyPath(openPath)).result);
        && fresh(groupsModel)
        && study.components == host.Open(StudyPath(openPath)).loaded
        && r == OpenOutcome(c, PluginDataPath(openPath), studyOpened, registry)
        && groupsModel.data == (if ReadHead(c, PluginDataPath(openPath)).Ok? then ReadHead(c, PluginDataPath(openPath)).value else FreshGroups)
        && groupsModel.restoredFrom == (if ReadHead(c, PluginDataPath(openPath)).Ok? then Some(ReadHead(c, PluginDataPath(openPath)).value) else None)
        && (application == null <==> AttachedModule(c, PluginDataPath(openPath), registry).None?)
        && (application != null ==>
              && fresh(application)
              && application.moduleName == AttachedModule(c, PluginDataPath(openPath), registry).value
              && application.behaviour == registry[application.moduleName]
              && application.deserializedFrom == DeserializedPayload(c, studyOpened))
    {
      if !fs.IsDir(openPath) {
        return Raise(NotADirectoryError(openPath));
      }
      var studyPath := StudyPath(openPath);
      var pluginDataPath := PluginDataPath(openPath);
      if !fs.IsFile(studyPath) {
        return Raise(FileNotFoundError(studyPath));
      }
      if !fs.IsFile(pluginDataPath) {
        return Raise(FileNotFoundError(pluginDataPath));
      }

      InitializeMembers();

      // the study file was checked above, so opening it does not raise
      var studyResult := OpenStudy(fs, study, studyPath, host);
      var openSuccessful := studyResult.value;

      var content := fs.entries[pluginDataPath].content;
      var groups :- ReadHead(content, pluginDataPath);
      groupsModel.Deserialize(groups);

      var app :- ReadApplication(content);
      if app.Some? {
        var entry := app.value;
        if entry.moduleName !in registry {
          return Raise(ModuleNotFoundError(entry.moduleName));
        }
        application := new Application.Create(entry.moduleName, registry[entry.moduleName]);
        if openSuccessful {
          var data :- Subscript(entry.section, "application_data");
          openSuccessful := application.Deserialize(data);
        }
      }
      return Ok(openSuccessful);
    }
  }

  /** Saving and then opening the saved directory. When the save reports
      success, the open passes its checks and does not raise, the new groups
      model is handed what the old one serialised, and an attached application is recreated
      from its module and handed the data it serialised (if the study opened). */
  method SaveThenOpen(pm: ProjectManager, fs: FileSystem, study: Study, savePath: Path, host: Host,
                      general: General, registry: map<string, Behaviour>)
    returns (saved: Result<bool>, reopened: Result<bool>)
    requires fs.Valid()
    requires pm.application != null ==> pm.application.moduleName in registry
    requires WithSuffix(savePath, ProjectSuffix).Some?
    modifies fs, pm, study
    ensures saved == Ok(true) ==> reopened.Ok?
    ensures saved == Ok(true) ==> pm.groupsModel.restoredFrom == Some(old(pm.groupsModel.Serialize()))
    ensures saved == Ok(true) ==> pm.groupsModel.data == old(pm.groupsModel.data)
    ensures saved == Ok(true) ==> (pm.application == null <==> old(pm.application) == null)
    ensures saved == Ok(true) && old(pm.application) != null ==>
      && pm.application.moduleName == old(pm.application.moduleName)
      && pm.application.deserializedFrom ==
           (if Reported(host.Open(StudyPath(WithSuffix(savePath, ProjectSuffix).value)).result)
            then Some(old(pm.application.state)) else None)
  {
    saved := pm.SaveProject(fs, savePath, host, general);
    var dir := WithSuffix(savePath, ProjectSuffix).value;
    ghost var record := pm.Record(general);
    reopened := pm.OpenProject(fs, study, dir, host, registry);
    if saved == Ok(true) {
      OpenSavedRecord(record, PluginDataPath(dir), Reported(host.Open(StudyPath(dir)).result), registry);
      ReadEncoded(record);
    }
  }
}
