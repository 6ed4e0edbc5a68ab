# Projects and tasks with persistence, modelled in Dafny

The system is a small Dutch-language task manager written in Python. A user keeps
**projects**, each holding **tasks**. A task moves one way through NIEUW → BEZIG →
AFGEROND and records the moment it was finished. A project is ACTIEF until it is closed,
and it can be closed only once all of its tasks are finished. Projects are saved to disk,
one folder per project. The folder name is the project name with the characters that are
invalid in file names replaced and the surrounding whitespace stripped. It holds
`project.json` and `tasks.json`.

The model follows the source file by file:

- `Models.dfy` covers `AI/Models.py`.
  - The three enums, with their on-disk values.
  - The task and project state machines, as value functions (`NaStatuswijziging`,
    `NaSluiten`).
  - The `Task` and `Project` classes, whose methods update their fields in place and are
    proved against those functions. `View()` gives the value an object holds at a moment.
- `Validators.dfy` covers `AI/Validators.py`. Each validator is a pure function returning
  `Gelukt` or `Mislukt(<message>)`, and each message text becomes one constructor of
  `Melding`.
- `Storage.dfy` covers `AI/Storage.py`.
  - The folder-name sanitiser, both as the source's loop and as a function.
  - The JSON records and the encode/decode round trip.
  - The `StorageManager` class over a map from folder name to folder contents.
    - Whether `mkdir`, a file write or `rmtree` succeeds is chosen nondeterministically.
      A failed save can therefore leave a partly written folder, as the Python can.
    - The folder name `""` stands for the base directory itself, which is what
      `base_path / ""` denotes.
- `TaskManagement.dfy` and `ProjectManagement.dfy` cover `AI/Task_manager.py` and
  `AI/Project_manager.py`. These façades validate, then change the in-memory objects,
  then persist. When a save fails they roll back creation, but not status changes,
  closures or deletions.
- `Basis.dfy` holds the pieces of Python the core relies on:
  - `str.strip()` over Python's full `isspace` set;
  - `str.lower()` restricted to ASCII;
  - the first-match search `next(..., None)`;
  - `list.remove`.

Clock readings (`datetime.now()`) are parameters `nu` of type `int`. JSON text and ISO
timestamps are abstracted to records.

Notable behaviours of the source that the model proves:

- Closing validation checks "already closed" before "all tasks done". An empty project is
  never "all done", so the separate "no tasks" message is never returned
  (`ValideerProjectsluiting`).
- `sluit_project` on the object does not check whether the project is already closed.
  The manager's validator prevents a second closure (`NaSluiten`, `SluitProject`).
- Folder names are not injective: `"a/b"` and `"a_b"` share a folder
  (`SaniteerNietInjectief`).
- On a case-sensitive file system, deleting a project removes the folder of the name *as
  typed*. It does not remove the folder of the project found case-insensitively
  (`VerwijderenOpGetypteNaam`, `AndereHoofdlettersAndereMap`).
- A name made only of whitespace sanitises to `""`, and its folder is the base directory.
  Deleting it removes every project on disk (`BlancoNaamIsBasismap`).
- Deleting a finished task needs no open project. Deleting the only task of a closed
  project leaves a closed project without tasks, a state that closing itself can never
  produce (`VerwijderenUitGeslotenProject`).
- A project saved and then loaded again comes back field for field (`LadenNaOpslaan`).
  Conversely, a complete folder that loads is exactly what saving the loaded project
  writes (`OpslaanNaLaden`).

## Model

| member | source | states |
|---|---|---|
| Basis.BlankIffAllSpace | AI/Validators.py:16 | `not s or not s.strip()` holds exactly when every character of `s` is whitespace |
| Basis.TrimLeftSuffix | AI/Validators.py:16 | `lstrip` keeps a suffix of its input |
| Basis.TrimLeftSpaties | AI/Validators.py:16 | `lstrip` drops only whitespace |
| Basis.TrimLeftRand | AI/Validators.py:16 | `lstrip` drops all leading whitespace |
| Basis.TrimRightPrefix | AI/Storage.py:26 | `rstrip` keeps a prefix of its input |
| Basis.TrimRightSpaties | AI/Storage.py:26 | `rstrip` drops only whitespace |
| Basis.TrimRightRand | AI/Storage.py:26 | `rstrip` drops all trailing whitespace |
| Basis.StripIsSlice | AI/Storage.py:26 | `strip()` returns a contiguous slice of its input |
| Basis.StripRanden | AI/Storage.py:26 | a non-empty stripped string neither starts nor ends with whitespace |
| Basis.StripIdempotent | AI/Storage.py:26 | stripping an already stripped name changes nothing |
| Basis.Lower | AI/Validators.py:20-21 | `lower()` keeps the length of the string |
| Basis.LowerIdempotent | AI/Validators.py:65 | lower-casing twice is lower-casing once |
| Basis.ZoekEerste | AI/Project_manager.py:56-59 | the result is the first index whose name equals the searched one up to case, and `None` exactly when no name does |
| Basis.ToegevoegdeNaamVindbaar | AI/Validators.py:20-24 | appending a name that matches no existing one keeps names unique up to case, and a search for it then finds the new last position |
| Basis.VerwijderdeNaamOnvindbaar | AI/Project_manager.py:112 | removing one of a list of case-unique names keeps them unique, and the removed name is no longer found |
| Basis.RemoveFirst | AI/Project_manager.py:43 | `list.remove` of a present element shortens the list by exactly one |
| Basis.RemoveFirstAt | AI/Task_manager.py:141 | removing the first occurrence of the element at position `i` removes exactly that position and keeps the order of the rest |
| Basis.RemoveAppended | AI/Project_manager.py:36-43 | appending a new element and removing it again restores the list: the rollback is exact |
| Models.PriorityFromValue | AI/Models.py:6-10 | `TaskPriority(v)` yields member `p` exactly when `v` is the value of `p`, and fails on any other string |
| Models.TaskStatusFromValue | AI/Models.py:13-17 | `TaskStatus(v)` yields member `s` exactly when `v` is the value of `s` |
| Models.ProjectStatusFromValue | AI/Models.py:20-23 | `ProjectStatus(v)` yields member `s` exactly when `v` is the value of `s` |
| Models.EnumValuesRoundTrip | AI/Models.py:6-23 | reading back the value of any enum member gives that member |
| Models.OvergangIsStapVooruit | AI/Models.py:43-47 | the transition table allows exactly one step forward on NIEUW → BEZIG → AFGEROND: no self-transition, no skip, no way back |
| Models.NaStatuswijziging | AI/Models.py:38-57 | a status change succeeds exactly for a one-step-forward target. It then sets the status, records `nu` as the completion moment when the target is AFGEROND, and keeps every other field |
| Models.DoorloopBlijftConsistent | AI/Models.py:49-55 | from a task whose completion moment is set exactly when it is AFGEROND, every sequence of status changes keeps that so |
| Models.NieuweTaakBlijftConsistent | AI/Models.py:29-57 | every task created by the constructor stays consistent under any sequence of status changes |
| Models.AfgerondIsEindtoestand | AI/Models.py:43-50 | a finished task is unchanged by any sequence of status changes |
| Models.DoorloopGaatVooruit | AI/Models.py:38-57 | the status never moves backwards, and title, description, priority and creation time never change |
| Models.Task.constructor | AI/Models.py:29-36 | a new task is NIEUW, has no completion moment, and was created at `nu` |
| Models.Task.WijzigStatus | AI/Models.py:38-57 | the in-place method returns whether the move is allowed, and leaves the task holding exactly `NaStatuswijziging` of its old value (unchanged when refused) |
| Models.Task.IsAfgerond | AI/Models.py:59-61 | a task is done exactly when its status has no allowed transition left |
| Models.Task.KanAangepastWorden | AI/Models.py:63-65 | a task may be changed exactly when some transition from its status is allowed |
| Models.NaSluiten | AI/Models.py:100-110 | closing succeeds exactly when the project has tasks and all are AFGEROND. It then sets GESLOTEN and the closing date, whatever the previous status |
| Models.SluitenGeeftGeslotenIsAfgerond | AI/Models.py:100-110 | a project closed by `sluit_project` holds only AFGEROND tasks, and at least one |
| Models.SluitenBlijftConsistent | AI/Models.py:100-110 | closing keeps "closing date set exactly when closed", and a closable project holds only tasks that carry a completion moment |
| Models.Project.constructor | AI/Models.py:75-81 | a new project is ACTIEF, without tasks and closing date, created at `nu` |
| Models.Project.VoegTaakToe | AI/Models.py:83-92 | adding is refused exactly on a closed project. Otherwise the task is appended at the end, and status and dates are unchanged either way |
| Models.Project.AlleTakenAfgerond | AI/Models.py:94-98 | the object-level check agrees with the value-level one; an empty project is not "all done" |
| Models.Project.SluitProject | AI/Models.py:100-110 | the in-place method returns whether closing is allowed, leaves the project holding exactly `NaSluiten` of its old value, and does not touch the tasks |
| Models.Project.IsGesloten | AI/Models.py:112-114 | a project is closed exactly when the status of its value is not ACTIEF |
| Models.Project.AantalTaken | AI/Models.py:116-118 | the count is the number of tasks the project's value holds |
| Models.GescheidenErbij | AI/Storage.py:100-130 | appending a project that is new to the list, with distinct tasks that no listed project holds, keeps every task in exactly one project |
| Validators.KomtVoorZonderHoofdletters | AI/Validators.py:20-21 | membership of the lowered name in the lowered list holds exactly when some name equals it up to case |
| Validators.ValideerProjectnaam | AI/Validators.py:5-24 | a blank name (all whitespace) is refused first. Then a name equal to an existing name up to case (untrimmed) is refused. Otherwise it succeeds, and no other message occurs |
| Validators.ValideerTaaktitel | AI/Validators.py:27-46 | the same rules, against the tasks of one project only |
| Validators.ValideerPrioriteit | AI/Validators.py:49-70 | it yields priority `p` exactly when the lowered input is the value of `p`; everything else, including the empty string, is refused |
| Validators.PrioriteitNegeertHoofdletters | AI/Validators.py:65-70 | the outcome does not depend on the case of the input |
| Validators.PrioriteitWaardenGeldig | AI/Validators.py:59-70 | "laag", "NORMAAL" and "Hoog" are accepted as their priorities and "" is refused |
| Validators.ValideerProjectsluiting | AI/Validators.py:73-92 | it succeeds exactly for an ACTIEF project with tasks that are all AFGEROND. It gives "already closed" exactly for a closed project and "not all done" for an open one that is empty or has an unfinished task, and never "no tasks" |
| Validators.ValideSluitingSluit | AI/Project_manager.py:80-92 | a project that passes closure validation is closed by `sluit_project`, so "could not close" is unreachable |
| Validators.ValideNaamNietGevonden | AI/Validators.py:20-24 | for a non-blank name, validation succeeds exactly when the managers' case-insensitive lookup finds no project |
| Storage.VervangOngeldigGeldig | AI/Storage.py:22-25 | after the replacements none of `<>:"/\|?*` remains |
| Storage.SaniteerGeldig | AI/Storage.py:20-26 | a folder name holds none of the invalid characters and has no surrounding whitespace |
| Storage.GesaniteerdVast | AI/Storage.py:20-26 | a name is left unchanged by sanitising exactly when it has no invalid character and no surrounding whitespace |
| Storage.SaniteerIdempotent | AI/Storage.py:155 | re-sanitising a folder name, as loading all projects does, gives the same folder |
| Storage.SaniteerNietInjectief | AI/Storage.py:20-26 | distinct project names such as "a/b" and "a_b" map to the same folder |
| Storage.ProjectNaarRecord | AI/Storage.py:43-49 | the `project.json` record carries name, description and both dates unchanged, and its status string reads back as the project's status |
| Storage.TaakNaarRecord | AI/Storage.py:57-64 | a task record reads back as exactly the task it was written from |
| Storage.RecordNaarTaak | AI/Storage.py:117-128 | a record gives a task exactly when both its priority and its status string parse. The task then carries the record's fields, and its enum values are the record's strings |
| Storage.MapNaarProject | AI/Storage.py:91-132 | a folder loads only from a readable `project.json` whose record is what saving the result writes. Without `tasks.json` the task list is empty and the load succeeds exactly when the status parses. An unreadable `tasks.json` fails the load |
| Storage.Laad | AI/Storage.py:75-136 | a project loads by name only from the folder of the sanitised name, which then holds a readable `project.json` whose record is what saving the result writes |
| Storage.TakenRoundTrip | AI/Storage.py:55-64 | decoding the written task records gives back the tasks in order, field for field |
| Storage.LadenNaOpslaan | AI/Storage.py:28-136 | loading a project right after saving it gives back exactly the saved value, whatever the folder held before |
| Storage.OpslaanNaLaden | AI/Storage.py:75-136 | a folder with both files that loads is exactly the folder saving the loaded project writes |
| Storage.HalfOpgeslagenNieuwProject | AI/Storage.py:43-67 | a save of a new project that stopped after `project.json` leaves a folder that loads as the project without tasks |
| Storage.OpslaanHoudtSleutelsGesaniteerd | AI/Storage.py:38-40 | a save attempt, complete or partial, keeps every folder name in sanitised form |
| Storage.LaadbaarBijGesaniteerdeSleutels | AI/Storage.py:138-159 | when every folder name is sanitised, the folders that load all projects picks up are exactly those that load by their own name |
| Storage.VerwijderdBestaatNiet | AI/Storage.py:171-177 | after removing the folder of a name, that name has no folder and does not load; for the base directory everything is gone |
| Storage.BlancoNaamIsBasismap | AI/Storage.py:16-18 | a name made only of whitespace sanitises to the base directory, and deleting its folder leaves no folder and nothing that loads |
| Storage.StorageManager.constructor | AI/Storage.py:12-14 | the manager opens the given folders, and the base directory exists |
| Storage.StorageManager.SaniteerMapnaam | AI/Storage.py:20-26 | the replace loop over the nine characters followed by `strip()` computes `Saniteer` |
| Storage.StorageManager.ProjectFolder | AI/Storage.py:16-18 | the folder of a project name is its sanitised name |
| Storage.StorageManager.SlaProjectOp | AI/Storage.py:28-73 | on success exactly the project's folder is replaced by both files of its current value, and it then loads back as that value. On failure the store is unchanged, or has the folder created, or also `project.json` written. The base directory exists afterwards exactly when it existed before or the attempt created something |
| Storage.StorageManager.LaadTaak | AI/Storage.py:117-130 | one record gives a new task holding it, or nothing when an enum value does not parse |
| Storage.StorageManager.LaadTaken | AI/Storage.py:111-130 | the records give new, distinct task objects holding the decoded list, or nothing when any record fails |
| Storage.StorageManager.LaadProject | AI/Storage.py:75-136 | the result is a new project with new tasks holding `Laad` of the sanitised name, and none exactly when that folder does not load |
| Storage.StorageManager.LaadErbij | AI/Storage.py:151-157 | one folder of the loop: its project is appended exactly when the folder loads, as a new object whose new tasks belong to no earlier project; the projects already loaded keep their values |
| Storage.StorageManager.LaadAlleProjecten | AI/Storage.py:138-159 | without a base directory nothing is loaded. Otherwise each real folder (not the base directory itself) whose project file loads under its re-sanitised name gives one new project, each exactly once, in some order; nothing else is returned. The projects are distinct new objects, each holding distinct new task objects, and no task object belongs to two projects |
| Storage.StorageManager.VerwijderProject | AI/Storage.py:161-183 | success needs an existing folder of the sanitised name and removes exactly that folder. When the name sanitises to `""` it removes the base directory and every project in it. A missing folder always fails, and failure changes nothing |
| Storage.StorageManager.ProjectBestaat | AI/Storage.py:185-196 | true exactly when the folder of the sanitised name has a project file, readable or not |
| Storage.StorageManager.ListProjectmappen | AI/Storage.py:198-221 | without a base directory the list is empty. Otherwise it holds the names recorded in the readable project files of the real folders, one per folder, in some order; unreadable files are skipped |
| TaskManagement.StatusUitTekst | AI/Task_manager.py:95-106 | a status word yields status `s` exactly when its lowered form is the value of `s` |
| TaskManagement.StatusNegeertHoofdletters | AI/Task_manager.py:101-106 | the status a word yields does not depend on its case |
| TaskManagement.StatusWoordenGeldig | AI/Task_manager.py:95-106 | examples: "nieuw", "Bezig" and "AFGEROND" are accepted as their statuses and "klaar" is refused |
| TaskManagement.ControleerNieuweTaak | AI/Task_manager.py:26-37 | creation is allowed exactly for an open project with a valid title and priority. The refusal is the first failing check in the order closed project, title, priority |
| TaskManagement.NieuweTaakVindbaar | AI/Task_manager.py:30-43 | a task added after title validation keeps titles unique up to case, and is the task a search for its title finds |
| TaskManagement.VerwijderdeTaakOnvindbaar | AI/Task_manager.py:141 | deleting a task keeps titles unique, and its title is then not found |
| TaskManagement.VerwijderenUitGeslotenProject | AI/Task_manager.py:122-147 | closing a one-task project leaves it holding only finished tasks, yet deleting that task leaves it closed with no tasks at all |
| TaskManagement.TaskManager.constructor | AI/Task_manager.py:9-10 | the manager keeps the given storage, possibly none |
| TaskManagement.TaskManager.ZoekTaak | AI/Task_manager.py:56-70 | the first task whose title equals the searched one up to case, or null exactly when there is none |
| TaskManagement.TaskManager.VoegToeEnBewaar | AI/Task_manager.py:43-52 | the task is appended and the project saved. A failed save takes the task out again, leaving the list as before and the disk in a partial-save state. The base directory exists afterwards exactly when it existed before or the save created something |
| TaskManagement.TaskManager.MaakTaakAan | AI/Task_manager.py:12-54 | a refused check changes neither project nor disk, base directory included, and reports the first failing check. Otherwise a new NIEUW task is appended and saved, and a failed save removes it again and reports it |
| TaskManagement.TaskManager.WijzigTaakstatus | AI/Task_manager.py:72-120 | the checks come in the order not found, finished, unknown word, refused move. Only the task found changes, to `NaStatuswijziging` of its value. Only a change is followed by a save attempt, and its failure is not reported; every other path leaves the disk, base directory included, unchanged |
| TaskManagement.TaskManager.VerwijderTaak | AI/Task_manager.py:122-147 | only a found, finished task is removed, exactly at its position and with the order of the rest kept. Only then is a save attempted; every other path leaves the disk, base directory included, unchanged |
| ProjectManagement.NieuwProjectVindbaar | AI/Project_manager.py:30-36 | a project added after name validation keeps names unique up to case, and is the project a search for its name finds |
| ProjectManagement.VerwijderdProjectOnvindbaar | AI/Project_manager.py:104-112 | deleting a project keeps names unique, and its name is then not found |
| ProjectManagement.VerwijderenOpGetypteNaam | AI/Project_manager.py:104-115 | deleting by a typed name whose folder differs from another name's folder, and is not the base directory, leaves that other folder loadable and its load unchanged |
| ProjectManagement.AndereHoofdlettersAndereMap | AI/Project_manager.py:104-115 | "a" and "A" are the same name to the search but sanitise to different folders |
| ProjectManagement.ProjectManager.constructor | AI/Project_manager.py:10-17 | the list holds one new project per folder that loads, each exactly once, each equal to what loading its folder gives. The projects are distinct, their task objects are new, and no task object belongs to two projects |
| ProjectManagement.ProjectManager.ZoekProject | AI/Project_manager.py:46-59 | the first project whose name equals the searched one up to case, or null exactly when there is none |
| ProjectManagement.ProjectManager.HaalAlleProjectenOp | AI/Project_manager.py:61-63 | a list with the same projects in the same order |
| ProjectManagement.ProjectManager.MaakProjectAan | AI/Project_manager.py:19-44 | an invalid name changes nothing, on disk or in memory, and reports the validator's message. Otherwise a new project is appended and saved, and a failed save removes it again and reports it |
| ProjectManagement.ProjectManager.SluitProject | AI/Project_manager.py:65-92 | unknown or invalid projects change nothing, on disk or in memory. A valid one is closed at `nu` and saved, and it stays closed in memory when the save fails, which is reported. No project's task list is replaced: every project keeps the same Task objects |
| ProjectManagement.ProjectManager.VerwijderProject | AI/Project_manager.py:94-118 | only a found, closed project is taken out of the list, at its position, before the folder of the typed name is deleted; a blank typed name deletes the whole store, base directory included, and only a successful delete does so. A failed delete is reported but the project stays out of the list, and the disk is unchanged |

## Left out

- User interface, printing and formatting are not modelled. This covers `Main.py`,
  `Utils.py`, the `__str__` methods and the `toon_*` overviews of both managers. They only
  render state.
- `str.lower()` is modelled for ASCII letters only. Unicode case mapping of other scripts
  is not modelled.
- `datetime.now()`, `isoformat` and `fromisoformat` are left out. Timestamps are opaque
  integers handed in as `nu`, and a malformed timestamp on disk is not distinguished from
  other unreadable data.
- JSON text is abstracted to records. A file is either a parsed record or unreadable, and
  truncated or corrupt writes are not produced by saving.
- Only the success or failure of each I/O step is modelled; the exception messages are
  not. The `print` in each `except` is left out.
- `rmtree` is all-or-nothing in the model. A removal that fails halfway and leaves part of
  a folder is not modelled.
- Non-directory entries under the base directory are not modelled. The store holds
  folders, plus the files of the base directory itself under the name `""`.
- The store models a case-sensitive file system. On a case-insensitive one, such as the
  Windows file system the program evidently targets, "a" and "A" share one folder. The
  model then differs from the source for names that differ only in case.
- Names that sanitise to `"."` or `".."` are not modelled as the base directory or its
  parent. The model treats them as ordinary folder names.
- `mkdir(parents=True)` succeeds or fails as a whole. A failure after the base directory
  was created but before the project folder was created is not modelled.
- The order of `iterdir()` is not modelled. Loading all projects and listing folders
  return their results in an unspecified order.
- `ProjectManager`: that projects and tasks are separate objects (`Gescheiden`) is proved
  for the list built at start-up. That the later operations keep it is not stated.
- `ProjectManager.constructor`: the storage is required. The source's default
  `StorageManager()` on the "projects" directory is not modelled, because it opens a
  real directory.
- `ValideerPrioriteit` takes a string. `None` is folded into the empty string, because the
  source treats both alike. A valid priority is returned as the enum member rather than
  the source's `(True, member)` tuple.
- The default arguments (`prioriteit_str="normaal"`, `beschrijving=None`) are not
  modelled. Callers pass every argument.
- Message texts are modelled as constructors of `Melding`; the formatted text itself is
  presentation.
- The "could not close" branch of `sluit_project` and the "could not add" branch of
  `maak_taak_aan` are unreachable, as `ValideSluitingSluit` and `Project.VoegTaakToe`
  show. Their messages exist in `Melding` but are never produced.
