# KratosSalomePlugin: project manager and study persistence, in Dafny

This project models the part of the KratosSalomePlugin that saves and opens
projects. A project is a directory with the suffix `.ksp`. It holds two files:

- the host platform's study (the SALOME study), as `salome_study.hdf`;
- the plugin's own data, as `plugin_data.json`: general information, the
  serialised groups model and, optionally, the attached application with the
  name of the module that recreates it.

The model has two parts:

- `SalomeStudy` covers the study helpers: counting the objects published in
  the study, saving it to a single `.hdf` file, opening it, and resetting it.
- `ProjectManagement` covers the `ProjectManager` class: its members (the
  groups model and the optional application), saving, opening, and the stub
  that reports unsaved changes.

Both are imperative in the source, so both are classes with state here:

- The filesystem is a `FileSystem` object (`Files`). It has pathlib's
  `is_dir` and `is_file`, `os.makedirs`, and writing a file. Each raises
  the exception Python raises on POSIX for a missing path, an existing path,
  a directory, or a file where a directory is expected. Permission errors
  are not modelled.
- The study the host holds in memory is a `Study` object.
- The manager is a `ProjectManager` object.
- The counting loops are `while` loops. They are proved against the
  recursive count `Descendants` and `ObjectsInStudy`.

The host's study calls (`SaveAs`, `Open`, `IsModified`) cannot be seen from
the plugin. They are given as a `Host` value, which says per path what the
call reports and what it does. An exception from `SaveAs` or `Open` is read
as failure, exactly as the plugin's `except BaseException` does. The other
host calls (`IsModified`, the child and component iterators, `Clear` and
`Init`) are taken not to raise; see "## Left out".

Modules and files:

- `runtime.dfy` (`Runtime`): `Option`, `Result`, and the Python exception
  kinds.
- `paths.dfy` (`Paths`): paths as component sequences, pathlib's `name`,
  `parent`, `suffix`, `stem` and `with_suffix`.
- `json.dfy` (`JsonValues`): parsed JSON values and dict subscripts.
- `files.dfy` (`Files`): the filesystem.
- `salome_study_utilities.dfy` (`SalomeStudy`).
- `project_manager.dfy` (`ProjectManagement`).

## Model

| member | source | states |
|---|---|---|
| Paths.WithSuffix | kratos_salome_plugin/gui/project_manager.py:41 | `with_suffix` fails (ValueError) exactly when the name is empty or the suffix is refused; otherwise the path keeps its length and its parent |
| Paths.WithSuffixSetsSuffix | kratos_salome_plugin/gui/project_manager.py:41 | with a one-dot suffix, the new name has exactly that suffix and keeps the old stem and parent |
| Paths.WithSuffixKeepsMatching | kratos_salome_plugin/salome_study_utilities.py:69 | a path that already has the suffix is left unchanged |
| Paths.WithSuffixIdempotent | kratos_salome_plugin/gui/project_manager.py:41 | normalising twice gives the same as normalising once, so `p` and `p.ksp` save to the same place |
| Paths.WithSuffixAppends | kratos_salome_plugin/gui/project_manager.py:41 | a name without a dot gets the suffix appended (`proj` becomes `proj.ksp`) |
| Paths.WithSuffixReplaces | kratos_salome_plugin/salome_study_utilities.py:69 | an existing suffix is replaced (`study.txt` becomes `study.hdf`, in the same directory) |
| Paths.WithSuffixOuterDots | kratos_salome_plugin/gui/project_manager.py:41 | a leading dot (`.bashrc`) or a trailing dot (`foo.`) is not a suffix, so `.ksp` is appended |
| JsonValues.Subscript | kratos_salome_plugin/gui/project_manager.py:117-130 | `value[key]` succeeds exactly on a dict holding the key and yields that member; a dict without it raises KeyError, anything else raises TypeError |
| Files.FileSystem.MakeDirs | kratos_salome_plugin/gui/project_manager.py:48 | `os.makedirs` succeeds exactly when the path is missing and no component above it is a file; an existing path raises FileExistsError; a file on the way raises NotADirectoryError for a prefix of the path whose parent is that file; a failure changes nothing; success leaves the path a directory, keeps every old entry and adds only directories on the way to the path |
| Files.FileSystem.FirstFileAbove | kratos_salome_plugin/gui/project_manager.py:48 | finds the shortest proper prefix that is a file, or reports that none is |
| Files.FileSystem.CreateMissingDirs | kratos_salome_plugin/salome_study_utilities.py:77 | after the checks, creating the missing components makes the path a directory, keeps the tree well formed and adds only directories above or at the path |
| Files.FileSystem.WriteFile | kratos_salome_plugin/gui/project_manager.py:80-81 | `open(p, "w")` and write succeed exactly when `p` is not a directory and its parent is; on a directory it raises IsADirectoryError; with a file on the way it raises NotADirectoryError; with a missing component it raises FileNotFoundError; a failure changes nothing; success replaces or creates exactly that file |
| Files.AboveEntryIsDir | kratos_salome_plugin/gui/project_manager.py:80-81 | in a well-formed tree, every proper prefix of an existing path is a directory |
| Files.FileAboveBlocksParent | kratos_salome_plugin/gui/project_manager.py:80-81 | a file on the way to a path means its parent is not a directory, so the write cannot succeed |
| SalomeStudy.GetNumberOfObjectsInComponent | kratos_salome_plugin/salome_study_utilities.py:30-40 | the child loop with its recursive calls returns the number of objects below the component |
| SalomeStudy.DescendantsCountsWalk | kratos_salome_plugin/salome_study_utilities.py:30-40 | the count equals the number of objects a depth-first walk with the child iterator visits |
| SalomeStudy.ForestCountCountsWalk | kratos_salome_plugin/salome_study_utilities.py:36-39 | the same for a run of siblings: each counts itself and everything below it |
| SalomeStudy.NoDescendantsIffLeaf | kratos_salome_plugin/salome_study_utilities.py:30-40 | a component counts zero exactly when nothing is published below it |
| SalomeStudy.GetNumberOfObjectsInStudy | kratos_salome_plugin/salome_study_utilities.py:42-54 | the component loop returns the study's object count, which is the sum of the component counts |
| SalomeStudy.ObjectsInStudyAppend | kratos_salome_plugin/salome_study_utilities.py:48-54 | the study count is additive over the components |
| SalomeStudy.EmptyStudyIffBareComponents | kratos_salome_plugin/salome_study_utilities.py:42-54 | a study counts zero exactly when no component has anything below it; the components themselves are not counted |
| SalomeStudy.TwoComponentStudy | tests/test_salome_study_utilities.py:86-101 | components with 13 and 67 objects below them make a study of 80 objects |
| SalomeStudy.SaveStudy | kratos_salome_plugin/salome_study_utilities.py:62-93 | saves under the path with suffix `.hdf`; a bad name raises ValueError; it raises only when a missing directory cannot be created, and then nothing changes; on return the directory exists; the result is true exactly when the host reported success and the file exists; no other file changes; new entries lie on the way to the target; when the directory already exists, the only change is the study file, written exactly when the host writes it and the path is not a directory |
| SalomeStudy.OpenStudy | kratos_salome_plugin/salome_study_utilities.py:95-122 | a missing file raises FileNotFoundError before the study is touched; otherwise the study is what the host loaded, and the result is what the host reported (an exception counts as false) |
| SalomeStudy.ResetStudy | kratos_salome_plugin/salome_study_utilities.py:124-130 | afterwards the study is empty and counts zero objects |
| ProjectManagement.ProjectTargetIdempotent | kratos_salome_plugin/gui/project_manager.py:41 | saving to `p` and to `p.with_suffix(".ksp")` targets the same directory |
| ProjectManagement.StudyPathNormalised | kratos_salome_plugin/gui/project_manager.py:51-52 | the project's study file already ends in `.hdf`, so `SaveStudy` saves it under exactly `salome_study.hdf` |
| ProjectManagement.EncodeShape | kratos_salome_plugin/gui/project_manager.py:55-76 | the dumped dict has "general" (with its four fields) and "groups", plus "application" exactly when an application is attached |
| ProjectManagement.ReadEncoded | kratos_salome_plugin/gui/project_manager.py:112-130 | reading back a dumped record gives its general section and its groups without error, and gives its application module and data |
| ProjectManagement.ApplicationSectionReadsBack | kratos_salome_plugin/gui/project_manager.py:125-130 | a dumped application section reads back as the module `OpenProject` imports, with the saved data |
| ProjectManagement.OpenSucceedsOnlyWithStudy | kratos_salome_plugin/gui/project_manager.py:110-134 | opening reports success only if the study opened, and the application is deserialised only then |
| ProjectManagement.OpenWithoutApplication | kratos_salome_plugin/gui/project_manager.py:125-134 | without an "application" key the result is the study's open result and no application is attached |
| ProjectManagement.OpenSavedRecord | kratos_salome_plugin/gui/project_manager.py:112-134 | opening a dumped record gives the study's result AND what the module's `Deserialize` says of the saved data; the saved module is attached again and gets exactly the saved data if the study opened |
| ProjectManagement.ProjectManager.constructor | kratos_salome_plugin/gui/project_manager.py:34-35 | a new manager has a fresh groups model and no application |
| ProjectManagement.ProjectManager.InitializeMembers | kratos_salome_plugin/gui/project_manager.py:151-153 | the members are reset to a fresh groups model and no application |
| ProjectManagement.ProjectManager.ProjectHasUnsavedChanges | kratos_salome_plugin/gui/project_manager.py:136-149 | the stub always answers false |
| ProjectManagement.ProjectManager.BuildRecord | kratos_salome_plugin/gui/project_manager.py:55-76 | the record holds the general information, the groups' serialised form and, exactly when an application is attached, its module and state; the flag is false exactly when the application's `Serialize` failed |
| ProjectManagement.SaveProjectStudy | kratos_salome_plugin/gui/project_manager.py:50-52 | the study is saved as `salome_study.hdf` in the project directory; the result is the host's report AND the file's existence; the project directory stays a directory; the only change is the study file, written exactly when the host writes it and the path is not a directory |
| ProjectManagement.WritePluginData | kratos_salome_plugin/gui/project_manager.py:78-81 | `plugin_data.json` gets the dumped record, or IsADirectoryError when that path is a directory; the save result passes through |
| ProjectManagement.ProjectManager.SaveInto | kratos_salome_plugin/gui/project_manager.py:50-85 | with line 75 as intended (see "## Findings"), in an existing directory: the study is saved, then the record is dumped; this fails (IsADirectoryError) exactly when the plugin-data path is a directory; the result is the study's result AND the application's serialisation result; the new filesystem is the old one with the study file (when written) and, on success, the dumped record, and nothing else changes, also when it raises |
| ProjectManagement.ProjectManager.SaveIntoAsWritten | kratos_salome_plugin/gui/project_manager.py:50-76 | as the source is written, with an application attached the save raises NameError for `mod` after the study was saved; only the study file changes, so a directory without plugin data is still no project; without an application it saves like `SaveInto`: the same error case, result, exact new filesystem on both outcomes, and `Ok(true)` leaving a project |
| ProjectManagement.ProjectManager.SaveProject | kratos_salome_plugin/gui/project_manager.py:37-85 | with line 75 as intended (see "## Findings"), saves into `savePath.with_suffix(".ksp")`, creating it if missing; a bad name raises ValueError; it raises exactly when the directory cannot be created or the plugin-data path is a directory; the JSON file holds the current record whatever the result; the result is the study save's result AND the application's `Serialize` result; `Ok(true)` leaves a directory that passes every check of `OpenProject`; every old entry other than the two project files is kept and new entries are only directories on the way to the project or those files (only the study file when it raises); a directory it creates is always saved into without raising, and wherever the directory exists or can be created the study file exists afterwards exactly when the host wrote it or it was a file before; in an existing directory the new filesystem is stated exactly, including after IsADirectoryError |
| ProjectManagement.ProjectManager.OpenProject | kratos_salome_plugin/gui/project_manager.py:87-134 | raises NotADirectoryError, then FileNotFoundError for the study, then for the plugin data, in that order and before anything changes; otherwise it resets the members, loads the study, returns `OpenOutcome` of the file, hands the groups model the file's "groups" value, attaches exactly the registered module's new application, and hands that application the saved data only if the study opened |
| ProjectManagement.SaveThenOpen | kratos_salome_plugin/gui/project_manager.py:37-134 | after a save that returned true, opening the saved directory does not raise, hands the new groups model exactly what the old one serialised, and recreates the same application module with its serialised state, which is handed to it exactly when the study opened |

## Left out

- `PathCheck` (kratos_salome_plugin/utilities.py) is not part of this model. Every path is taken to pass it.
- Logging is not modelled. This covers the suffix warning of `OpenStudy`, the modified-study warning and the debug messages. The count that `OpenStudy` computes only for the modified-study warning is still computed.
- `IsStudyModified` is not a member of the model. It is the host's property, given as `Host.IsModified`.
- The version strings, the creation time and the operating system are not computed. They are `SaveProject`'s `general` parameter, because they come from the clock, the platform and other modules.
- JSON text is not modelled: no indentation, no escaping, no floating-point numbers. A file holds the value it parses to, and one that holds no JSON raises JsonDecodeError when read.
- The groups model's own code (kratos_salome_plugin/gui/groups_model.py) is not part of this model. It is represented by its serialised form. `Deserialize` records the data it is handed (`restoredFrom`), and that it restores exactly that data is assumed of the groups model's code.
- JSON encoding is taken to succeed, and to survive dump and load unchanged. What `GroupsModel.Serialize` and `Application.Serialize` return is a `Json` value here. In the source (kratos_salome_plugin/gui/project_manager.py:68, 72, 76, 80-81), a payload that `json` cannot encode (a set, an arbitrary object, a tuple key) makes `json.dump` raise TypeError. That happens after `open(..., "w")` has truncated `plugin_data.json`, so the file can be left empty or partial. A later `OpenProject` then passes its three checks, resets the members and opens the study, and only then raises JSONDecodeError. This TypeError path is not modelled. Tuples and integer keys, which come back as lists and string keys, are not modelled either. `SaveThenOpen`'s promise that the groups get back exactly what was serialised rests on this.
- The application modules' `Create`, `Serialize` and `Deserialize` are not part of this model. They are represented by a `Behaviour` per module: whether serialising succeeds, and which data deserialising accepts.
- `__import__` is represented by a registry that maps a module name to its `Behaviour`. A name missing from it raises ModuleNotFoundError. Two behaviours of the real `__import__` are not modelled. A dotted name `a.b` returns the top-level package `a`, so `Create` would be looked up on the wrong module. An empty name raises ValueError rather than ModuleNotFoundError.
- ProjectManagement.ProjectManager.ProjectHasUnsavedChanges: the source's body is a stub that returns false, and it is modelled as written. The fuller check described in its comments (study, groups, application) is not implemented in the source and not modelled.
- SalomeStudy.SaveStudy: the host's `SaveAs` is modelled as either writing a file at the target or not, and the `writesFile` flag says which. Other side effects of the host are not modelled.
- Files.FileSystem.MakeDirs: when a component on the way is a file, the error is NotADirectoryError for that component's child, as on POSIX. Permission errors are not modelled.
- `if self.application:` (kratos_salome_plugin/gui/project_manager.py:71) tests truthiness, and the model tests `application != null`. An application object whose `__bool__` or `__len__` gives false would be skipped by the source, but saved by the model.
- `IsStudyModified`, the SALOME child and component iterators used by the counters (kratos_salome_plugin/salome_study_utilities.py:35-39, 48-53), and `Clear`/`Init` are taken not to raise. In the source, `OpenStudy` calls the first two outside its `try` (line 108). So an exception there would leave `OpenStudy` uncaught, and `OpenProject` with its members already reset. The model's `OpenStudy` cannot raise once the file exists, and `OpenProject` and `SaveThenOpen` rely on that. `Clear` followed by `Init` (lines 129-130) is taken to leave a study with no components, as the docstring says.
- Concurrent changes to the filesystem between checks and writes are not modelled.

## Findings

| source | as written | input that shows it | evidently intended | confidence | as-written member | corrected member |
|---|---|---|---|---|---|---|
| kratos_salome_plugin/gui/project_manager.py:75 | the module name is `mod(self.application)`, but `mod` is neither defined nor imported, so it raises NameError after the application has serialised and before `plugin_data.json` is opened | any `SaveProject` call with an application attached | record the name of the application's module, which `OpenProject` imports at line 128 to recreate it | not executed; the name cannot resolve in this file | ProjectManagement.ProjectManager.SaveIntoAsWritten | ProjectManagement.ApplicationSectionReadsBack |
