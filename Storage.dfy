/** Persistence of projects (AI/Storage.py). The directory tree under the base path is
    modelled as a map from folder name to the two files a project folder can hold:
    `project.json` with the project's fields and `tasks.json` with the list of its tasks.
    A file is either a record that parses or unreadable (bad JSON, or the key the
    reader needs missing); enum values stay raw strings in a record, so a record can be
    listed yet fail to load. A name that sanitises to the empty string is the base
    directory itself (pathlib drops an empty path segment): the key `""` holds the files
    written directly into the base directory, which is not one of its own entries.
    Whether a write or a delete on disk succeeds is not known in advance and is chosen
    nondeterministically. */
module Storage {
  import opened Basis
  import opened Models

  // ---------------------------------------------------------------- folder names

  /** The characters `_saniteer_mapnaam` replaces, in the order it replaces them. */
  const OngeldigeTekens: string := "<>:\"/\\|?*"

  /** `naam.replace(teken, '_')` for a single character. */
  function Vervang(naam: string, teken: char): string {
    seq(|naam|, i requires 0 <= i < |naam| => if naam[i] == teken then '_' else naam[i])
  }

  /** All nine replacements at once. */
  function VervangOngeldig(naam: string): string {
    seq(|naam|, i requires 0 <= i < |naam| => if naam[i] in OngeldigeTekens then '_' else naam[i])
  }

  /** The folder name a project name is stored under: the replacements, then `strip()`. */
  function Saniteer(naam: string): string {
    Strip(VervangOngeldig(naam))
  }

  /** A name in the form `Saniteer` produces: none of the replaced characters and no
      surrounding whitespace. */
  predicate Gesaniteerd(k: string) {
    && (forall i :: 0 <= i < |k| ==> k[i] !in OngeldigeTekens)
    && (k != [] ==> !IsSpace(k[0]) && !IsSpace(k[|k| - 1]))
  }

  /** After the replacements none of the nine characters is left. */
  lemma VervangOngeldigGeldig(naam: string)
    ensures forall i :: 0 <= i < |naam| ==> VervangOngeldig(naam)[i] !in OngeldigeTekens
  {
    assert '_' !in OngeldigeTekens;
  }

  /** A folder name holds none of the replaced characters and has no surrounding
      whitespace. */
  lemma SaniteerGeldig(naam: string)
    ensures Gesaniteerd(Saniteer(naam))
  {
    var v := VervangOngeldig(naam);
    var r := Strip(v);
    VervangOngeldigGeldig(naam);
    StripIsSlice(v);
    StripRanden(v);
  }

  /** Sanitising leaves a name in sanitised form unchanged, and every name in that form
      is the folder name of itself. */
  lemma GesaniteerdVast(k: string)
    ensures Gesaniteerd(k) <==> Saniteer(k) == k
  {
    SaniteerGeldig(k);
    if Gesaniteerd(k) {
      var v := VervangOngeldig(k);
      assert v == k by {
        forall i | 0 <= i < |k|
          ensures v[i] == k[i]
        {
          assert k[i] !in OngeldigeTekens;
        }
      }
      if k != [] {
        assert TrimLeft(k) == k by { assert !IsSpace(k[0]); }
        assert TrimRight(k) == k by { assert !IsSpace(k[|k| - 1]); }
      }
    }
  }

  /** Sanitising a folder name again changes nothing; loading every project relies on
      this, because it sanitises each folder name a second time. */
  lemma SaniteerIdempotent(naam: string)
    ensures Saniteer(Saniteer(naam)) == Saniteer(naam)
  {
    SaniteerGeldig(naam);
    GesaniteerdVast(Saniteer(naam));
  }

  /** Different project names can share a folder: the names are not validated against
      this, and the later save overwrites the earlier project on disk. */
  lemma SaniteerNietInjectief()
    ensures Saniteer("a/b") == Saniteer("a_b") && "a/b" != "a_b"
    ensures Saniteer("a?") == Saniteer("a*") && "a?" != "a*"
  {
    assert VervangOngeldig("a/b") == "a_b" == VervangOngeldig("a_b");
    assert VervangOngeldig("a?") == "a_" == VervangOngeldig("a*");
  }

  // ---------------------------------------------------------------- records

  datatype ProjectRecord = ProjectRecord(
    naam: string,
    beschrijving: Option<string>,
    status: string,
    aanmaakdatum: int,
    sluitdatum: Option<int>)

  datatype TaskRecord = TaskRecord(
    titel: string,
    beschrijving: Option<string>,
    prioriteit: string,
    status: string,
    aanmaakdatum: int,
    afrondmoment: Option<int>)

  datatype ProjectBestand = ProjectJson(record: ProjectRecord) | OnleesbaarProject
  datatype TakenBestand = TakenJson(records: seq<TaskRecord>) | OnleesbareTaken

  /** A project folder; `None` is a file that does not exist. */
  datatype Projectmap = Projectmap(project: Option<ProjectBestand>, taken: Option<TakenBestand>)

  /** The `project_data` dictionary `sla_project_op` writes: the project's fields, with
      a status string that reads back as the status. */
  function ProjectNaarRecord(p: ProjectGegevens): (r: ProjectRecord)
    ensures r.naam == p.naam && r.beschrijving == p.beschrijving
    ensures r.aanmaakdatum == p.aanmaakdatum && r.sluitdatum == p.sluitdatum
    ensures ProjectStatusFromValue(r.status) == Some(p.status)
  {
    EnumValuesRoundTrip(Laag, Nieuw, p.status);
    ProjectRecord(p.naam, p.beschrijving, ProjectStatusValue(p.status), p.aanmaakdatum, p.sluitdatum)
  }

  /** One entry of `taken_data`: a record that reads back as the task. */
  function TaakNaarRecord(t: TaakGegevens): (r: TaskRecord)
    ensures RecordNaarTaak(r) == Some(t)
  {
    EnumValuesRoundTrip(t.prioriteit, t.status, Actief);
    TaskRecord(t.titel, t.beschrijving, PriorityValue(t.prioriteit), TaskStatusValue(t.status),
               t.aanmaakdatum, t.afrondmoment)
  }

  function TakenNaarRecords(ts: seq<TaakGegevens>): (r: seq<TaskRecord>)
    ensures |r| == |ts|
  {
    seq(|ts|, i requires 0 <= i < |ts| => TaakNaarRecord(ts[i]))
  }

  /** The folder as a successful `sla_project_op` leaves it. */
  function OpgeslagenMap(p: ProjectGegevens): Projectmap {
    Projectmap(Some(ProjectJson(ProjectNaarRecord(p))), Some(TakenJson(TakenNaarRecords(p.taken))))
  }

  /** The task `laad_project` rebuilds from one record; `None` where an enum value does
      not parse and Python raises. A task read back carries the record's fields, and its
      enum values are written as the record's strings. */
  function RecordNaarTaak(r: TaskRecord): (t: Option<TaakGegevens>)
    ensures t.Some? <==> PriorityFromValue(r.prioriteit).Some? && TaskStatusFromValue(r.status).Some?
    ensures t.Some? ==> && t.value.titel == r.titel && t.value.beschrijving == r.beschrijving
                        && PriorityValue(t.value.prioriteit) == r.prioriteit
                        && TaskStatusValue(t.value.status) == r.status
                        && t.value.aanmaakdatum == r.aanmaakdatum && t.value.afrondmoment == r.afrondmoment
  {
    var prioriteit := PriorityFromValue(r.prioriteit);
    var status := TaskStatusFromValue(r.status);
    if prioriteit.None? || status.None? then None
    else Some(TaakGegevens(r.titel, r.beschrijving, prioriteit.value, status.value, r.aanmaakdatum, r.afrondmoment))
  }

  /** The task list: one bad record makes the whole load fail. */
  function RecordsNaarTaken(rs: seq<TaskRecord>): (r: Option<seq<TaakGegevens>>)
    ensures r.Some? ==> |r.value| == |rs|
  {
    if forall i :: 0 <= i < |rs| ==> RecordNaarTaak(rs[i]).Some? then
      Some(seq(|rs|, i requires 0 <= i < |rs| && RecordNaarTaak(rs[i]).Some? => RecordNaarTaak(rs[i]).value))
    else None
  }

  /** What `laad_project` makes of one folder: nothing without a readable project
      record with a known status or with an unreadable task file; a missing task file
      is an empty task list. */
  function MapNaarProject(m: Projectmap): (r: Option<ProjectGegevens>)
    ensures r.Some? ==> m.project.Some? && m.project.value.ProjectJson?
                        && ProjectNaarRecord(r.value) == m.project.value.record
    ensures r.Some? && m.taken.None? ==> r.value.taken == []
    ensures m.project.Some? && m.project.value.ProjectJson? && m.taken.None? ==>
              (r.Some? <==> ProjectStatusFromValue(m.project.value.record.status).Some?)
    ensures m.taken.Some? && m.taken.value.OnleesbareTaken? ==> r.None?
  {
    match m.project
    case None => None
    case Some(OnleesbaarProject) => None
    case Some(ProjectJson(rec)) =>
      var status := ProjectStatusFromValue(rec.status);
      var taken :=
        match m.taken
        case None => Some([])
        case Some(OnleesbareTaken) => None
        case Some(TakenJson(rs)) => RecordsNaarTaken(rs);
      if status.None? || taken.None? then None
      else Some(ProjectGegevens(rec.naam, rec.beschrijving, status.value, rec.aanmaakdatum, rec.sluitdatum, taken.value))
  }

  /** `laad_project(naam)` over the folders `mappen`: what loads is what the project file
      in the folder of the sanitised name records. */
  function Laad(mappen: map<string, Projectmap>, naam: string): (r: Option<ProjectGegevens>)
    ensures r.Some? ==> Saniteer(naam) in mappen && mappen[Saniteer(naam)].project.Some?
                        && mappen[Saniteer(naam)].project.value.ProjectJson?
                        && ProjectNaarRecord(r.value) == mappen[Saniteer(naam)].project.value.record
  {
    var sleutel := Saniteer(naam);
    if sleutel in mappen then MapNaarProject(mappen[sleutel]) else None
  }

  /** Reading a written task list gives back the tasks, in order, field for field. */
  lemma TakenRoundTrip(ts: seq<TaakGegevens>)
    ensures RecordsNaarTaken(TakenNaarRecords(ts)) == Some(ts)
  {
    var rs := TakenNaarRecords(ts);
    forall i | 0 <= i < |ts|
      ensures RecordNaarTaak(rs[i]) == Some(ts[i])
    {
      EnumValuesRoundTrip(ts[i].prioriteit, ts[i].status, Actief);
    }
    var r := RecordsNaarTaken(rs);
    assert r.Some?;
    assert r.value == ts by {
      forall i | 0 <= i < |ts|
        ensures r.value[i] == ts[i]
      {
        assert RecordNaarTaak(rs[i]) == Some(ts[i]);
      }
    }
  }

  /** Loading a project right after saving it reproduces every saved field and the task
      list in order, whatever the folder held before. */
  lemma LadenNaOpslaan(mappen: map<string, Projectmap>, p: ProjectGegevens)
    ensures Laad(mappen[Saniteer(p.naam) := OpgeslagenMap(p)], p.naam) == Some(p)
  {
    TakenRoundTrip(p.taken);
    EnumValuesRoundTrip(Laag, Nieuw, p.status);
  }

  /** Conversely, a folder with both files that loads is exactly what saving the loaded
      project writes: the record format holds nothing the model drops. */
  lemma OpslaanNaLaden(m: Projectmap)
    requires m.taken.Some? && MapNaarProject(m).Some?
    ensures OpgeslagenMap(MapNaarProject(m).value) == m
  {
    var p := MapNaarProject(m).value;
    var rs := m.taken.value.records;
    assert TakenNaarRecords(p.taken) == rs by {
      forall i | 0 <= i < |rs|
        ensures TakenNaarRecords(p.taken)[i] == rs[i]
      {
        assert RecordNaarTaak(rs[i]).Some?;
      }
    }
  }

  /** A save that stopped after `project.json` of a project that was not on disk leaves
      a folder that loads as the project with no tasks. */
  lemma HalfOpgeslagenNieuwProject(mappen: map<string, Projectmap>, p: ProjectGegevens)
    requires Saniteer(p.naam) !in mappen
    ensures Laad(mappen[Saniteer(p.naam) := Projectmap(Some(ProjectJson(ProjectNaarRecord(p))), None)], p.naam)
            == Some(p.(taken := []))
  {
    EnumValuesRoundTrip(Laag, Nieuw, p.status);
  }

  /** The states a failed `sla_project_op` can leave: it stopped before creating the
      folder, after creating it, or after writing `project.json` but not `tasks.json`. */
  predicate NaMislukteOpslag(oud: map<string, Projectmap>, nieuw: map<string, Projectmap>,
                             sleutel: string, p: ProjectGegevens)
  {
    var leeg := if sleutel in oud then oud[sleutel] else Projectmap(None, None);
    || nieuw == oud
    || nieuw == oud[sleutel := leeg]
    || nieuw == oud[sleutel := leeg.(project := Some(ProjectJson(ProjectNaarRecord(p))))]
  }

  /** What one call of `sla_project_op` for the project value `p` may leave: the folder
      fully written, or one of the partial states. */
  predicate NaOpslagpoging(oud: map<string, Projectmap>, nieuw: map<string, Projectmap>, p: ProjectGegevens) {
    || nieuw == oud[Saniteer(p.naam) := OpgeslagenMap(p)]
    || NaMislukteOpslag(oud, nieuw, Saniteer(p.naam), p)
  }

  /** Every folder name is already sanitised, as it is for every folder the program
      itself creates. */
  predicate AlleSleutelsGesaniteerd(mappen: map<string, Projectmap>) {
    forall k :: k in mappen ==> Gesaniteerd(k)
  }

  /** Saving, completely or not, keeps every folder name sanitised. */
  lemma OpslaanHoudtSleutelsGesaniteerd(oud: map<string, Projectmap>, nieuw: map<string, Projectmap>,
                                         p: ProjectGegevens)
    requires AlleSleutelsGesaniteerd(oud)
    requires NaOpslagpoging(oud, nieuw, p)
    ensures AlleSleutelsGesaniteerd(nieuw)
  {
    SaniteerGeldig(p.naam);
    assert nieuw.Keys <= oud.Keys + {Saniteer(p.naam)};
  }

  /** The folders `laad_alle_projecten` turns into projects: the entries of the base
      directory (every key but `""`) with a project file whose name, sanitised again,
      leads to a folder that loads. */
  predicate Laadbaar(mappen: map<string, Projectmap>, k: string) {
    k in mappen && k != "" && mappen[k].project.Some? && Laad(mappen, k).Some?
  }

  function LaadbareMappen(mappen: map<string, Projectmap>): set<string> {
    set k | k in mappen && Laadbaar(mappen, k)
  }

  /** When every folder name is sanitised, the loadable folders are exactly those that
      load by their own name, and each is read from itself. */
  lemma LaadbaarBijGesaniteerdeSleutels(mappen: map<string, Projectmap>)
    requires AlleSleutelsGesaniteerd(mappen)
    ensures forall k :: k in LaadbareMappen(mappen) <==> k in mappen && k != "" && MapNaarProject(mappen[k]).Some?
    ensures forall k :: k in LaadbareMappen(mappen) ==> Laad(mappen, k) == MapNaarProject(mappen[k])
  {
    forall k | k in mappen
      ensures Laad(mappen, k) == MapNaarProject(mappen[k])
    {
      GesaniteerdVast(k);
    }
  }

  /** The folders `list_projectmappen` reports: the entries of the base directory whose
      project file is readable. */
  function LeesbareMappen(mappen: map<string, Projectmap>): set<string> {
    set k | k in mappen && k != "" && mappen[k].project.Some? && mappen[k].project.value.ProjectJson?
  }

  /** The folders left after `shutil.rmtree` of the folder of `sleutel`; for `""` that is
      the base directory, and every project goes with it. */
  function NaVerwijderen(mappen: map<string, Projectmap>, sleutel: string): map<string, Projectmap> {
    if sleutel == "" then map[] else mappen - {sleutel}
  }

  class StorageManager {
    /** The project folders under the base path, by folder name. */
    var mappen: map<string, Projectmap>
    /** Whether the base directory exists; only deleting the folder of `""` removes it. */
    var basisBestaat: bool

    /** Without a base directory there are no folders. */
    predicate Valid()
      reads this
    {
      !basisBestaat ==> mappen == map[]
    }

    /** `StorageManager(base_path)`: `mkdir(exist_ok=True)` on a base directory that holds
        `mappen`. */
    constructor (mappen: map<string, Projectmap>)
      ensures this.mappen == mappen && basisBestaat && Valid()
    {
      this.mappen := mappen;
      basisBestaat := true;
    }

    /** Whether `exists()` holds for the folder of `sleutel`. */
    predicate MapBestaat(sleutel: string)
      reads this
    {
      if sleutel == "" then basisBestaat else sleutel in mappen
    }

    /** `_saniteer_mapnaam` */
    static method SaniteerMapnaam(naam: string) returns (r: string)
      ensures r == Saniteer(naam)
    {
      r := naam;
      assert '_' !in OngeldigeTekens;
      for i := 0 to |OngeldigeTekens|
        invariant |r| == |naam|
        invariant forall k :: 0 <= k < |naam| ==>
                    r[k] == if naam[k] in OngeldigeTekens[..i] then '_' else naam[k]
      {
        assert OngeldigeTekens[..i + 1] == OngeldigeTekens[..i] + [OngeldigeTekens[i]];
        r := Vervang(r, OngeldigeTekens[i]);
      }
      assert OngeldigeTekens[..|OngeldigeTekens|] == OngeldigeTekens;
      assert r == VervangOngeldig(naam);
      r := Strip(r);
    }

    /** `_project_folder`: the folder a project name maps to. */
    static method ProjectFolder(projectNaam: string) returns (sleutel: string)
      ensures sleutel == Saniteer(projectNaam)
    {
      sleutel := SaniteerMapnaam(projectNaam);
    }

    /** `sla_project_op(project)`: both files of the project's folder are overwritten
        with the project's current value. */
    method SlaProjectOp(project: Project) returns (ok: bool)
      requires Valid()
      modifies this
      ensures Valid() && basisBestaat == (old(basisBestaat) || mappen != old(mappen))
      ensures ok ==> mappen == old(mappen)[Saniteer(project.naam) := OpgeslagenMap(project.View())]
      ensures ok ==> Laad(mappen, project.naam) == Some(project.View())
      ensures !ok ==> NaMislukteOpslag(old(mappen), mappen, Saniteer(project.naam), project.View())
    {
      var sleutel := ProjectFolder(project.naam);
      var v := project.View();
      var mkdirGelukt: bool :| true;
      if !mkdirGelukt {
        return false;
      }
      // `mkdir(parents=True, exist_ok=True)`: the base directory is created too, and an
      // existing folder keeps its files
      basisBestaat := true;
      var opgeslagen := if sleutel in mappen then mappen[sleutel] else Projectmap(None, None);
      mappen := mappen[sleutel := opgeslagen];
      var projectGeschreven: bool :| true;
      if !projectGeschreven {
        return false;
      }
      opgeslagen := opgeslagen.(project := Some(ProjectJson(ProjectNaarRecord(v))));
      mappen := mappen[sleutel := opgeslagen];
      var takenGeschreven: bool :| true;
      if !takenGeschreven {
        return false;
      }
      opgeslagen := opgeslagen.(taken := Some(TakenJson(TakenNaarRecords(v.taken))));
      assert opgeslagen == OpgeslagenMap(v);
      mappen := mappen[sleutel := opgeslagen];
      assert v == project.View();
      LadenNaOpslaan(old(mappen), v);
      return true;
    }

    /** One iteration of the task loop of `laad_project`: a new task object holding the
        record, or `null` where an enum value does not parse. */
    static method LaadTaak(r: TaskRecord) returns (t: Task?)
      ensures t == null <==> RecordNaarTaak(r).None?
      ensures t != null ==> fresh(t) && t.View() == RecordNaarTaak(r).value
    {
      var prioriteit := PriorityFromValue(r.prioriteit);
      if prioriteit.None? {
        return null;
      }
      t := new Task(r.titel, r.beschrijving, prioriteit.value, r.aanmaakdatum);
      var status := TaskStatusFromValue(r.status);
      if status.None? {
        return null;
      }
      t.status := status.value;
      if r.afrondmoment.Some? {
        t.afrondmoment := r.afrondmoment;
      }
    }

    /** The task loop of `laad_project`: new task objects for all records, in order, or
        `None` as soon as one record does not load. */
    static method LaadTaken(rs: seq<TaskRecord>) returns (taken: Option<seq<Task>>)
      ensures taken.None? <==> RecordsNaarTaken(rs).None?
      ensures taken.Some? ==> Views(taken.value) == RecordsNaarTaken(rs).value
      ensures taken.Some? ==> Uniek(taken.value) && forall t :: t in taken.value ==> fresh(t)
    {
      var ts: seq<Task> := [];
      for i := 0 to |rs|
        invariant |ts| == i && Uniek(ts) && forall t :: t in ts ==> fresh(t)
        invariant forall j :: 0 <= j < i ==> RecordNaarTaak(rs[j]) == Some(ts[j].View())
      {
        var taak := LaadTaak(rs[i]);
        if taak == null {
          return None;
        }
        ts := ts + [taak];
      }
      taken := Some(ts);
      assert Views(ts) == RecordsNaarTaken(rs).value by {
        forall j | 0 <= j < |rs|
          ensures Views(ts)[j] == RecordsNaarTaken(rs).value[j]
        {
          assert RecordNaarTaak(rs[j]) == Some(ts[j].View());
        }
      }
    }

    /** `laad_project(project_naam)`: a new project object, with new task objects, holding
        what the folder of the sanitised name holds; `null` where the source returns `None`. */
    method LaadProject(projectNaam: string) returns (p: Project?)
      ensures p == null <==> Laad(mappen, projectNaam).None?
      ensures p != null ==> fresh(p) && p.View() == Laad(mappen, projectNaam).value
      ensures p != null ==> Uniek(p.tasks) && forall t :: t in p.tasks ==> fresh(t)
    {
      var sleutel := ProjectFolder(projectNaam);
      if sleutel !in mappen || mappen[sleutel].project.None? || mappen[sleutel].project.value.OnleesbaarProject? {
        return null;
      }
      var opgeslagen := mappen[sleutel];
      var rec := opgeslagen.project.value.record;
      var status := ProjectStatusFromValue(rec.status);
      if status.None? {
        return null;
      }
      p := new Project(rec.naam, rec.beschrijving, rec.aanmaakdatum);
      p.status := status.value;
      if rec.sluitdatum.Some? {
        p.sluitdatum := rec.sluitdatum;
      }
      if opgeslagen.taken.Some? {
        if opgeslagen.taken.value.OnleesbareTaken? {
          return null;
        }
        var taken := LaadTaken(opgeslagen.taken.value.records);
        if taken.None? {
          return null;
        }
        p.tasks := taken.value;
      }
    }

    /** One iteration of the folder loop of `laad_alle_projecten`: the project of folder
        `sleutel`, when it loads, is appended to the projects loaded so far. The list stays
        separated, and the projects already in it keep their values. */
    method LaadErbij(sleutel: string, projecten: seq<Project>, ghost gegevens: seq<ProjectGegevens>,
                     ghost taken: set<Task>)
      returns (meer: seq<Project>, ghost meerGegevens: seq<ProjectGegevens>, ghost meerTaken: set<Task>)
      requires Geladen(projecten, gegevens, taken)
      ensures meerGegevens == if Laad(mappen, sleutel).Some? then gegevens + [Laad(mappen, sleutel).value] else gegevens
      ensures Geladen(meer, meerGegevens, meerTaken)
      ensures forall i :: 0 <= i < |meer| ==> if i < |projecten| then meer[i] == projecten[i] else fresh(meer[i])
      ensures forall t :: t in meerTaken ==> t in taken || fresh(t)
    {
      meer, meerGegevens, meerTaken := projecten, gegevens, taken;
      var project := LaadProject(sleutel);
      if project != null {
        // the new project and its tasks are fresh, so they are in no earlier project
        GescheidenErbij(projecten, project);
        meer := projecten + [project];
        meerGegevens := gegevens + [project.View()];
        meerTaken := taken + set t | t in project.tasks;
      }
    }

    /** `laad_alle_projecten()`: folders are visited in no particular order, and each one
        with a project file contributes the project `laad_project(<folder name>)` gives,
        unless that fails. `bronnen[i]` is the folder `projecten[i]` came from. */
    method LaadAlleProjecten() returns (projecten: seq<Project>, ghost bronnen: seq<string>)
      requires Valid()
      ensures |bronnen| == |projecten| && Uniek(bronnen)
      ensures forall k :: k in bronnen <==> k in LaadbareMappen(mappen)
      ensures forall i :: 0 <= i < |projecten| ==>
                fresh(projecten[i]) && Laad(mappen, bronnen[i]).Some?
                && projecten[i].View() == Laad(mappen, bronnen[i]).value
      ensures Gescheiden(projecten)
      ensures forall i, t :: 0 <= i < |projecten| && t in projecten[i].tasks ==> fresh(t)
    {
      projecten, bronnen := [], [];
      if !basisBestaat {
        return;
      }
      var ms := mappen;
      // the values of the loaded projects, and their task objects
      ghost var gegevens: seq<ProjectGegevens> := [];
      ghost var taken: set<Task> := {};
      // `iterdir()`: the entries of the base directory, not its own files
      var rest := ms.Keys - {""};
      while rest != {}
        invariant ms == mappen && rest <= ms.Keys && "" !in rest
        invariant |bronnen| == |projecten| == |gegevens| && Uniek(bronnen)
        invariant forall k :: k in bronnen <==> Laadbaar(ms, k) && k !in rest
        invariant forall i :: 0 <= i < |bronnen| ==> Laad(ms, bronnen[i]) == Some(gegevens[i])
        invariant Geladen(projecten, gegevens, taken)
        invariant forall i :: 0 <= i < |projecten| ==> fresh(projecten[i])
        invariant forall t :: t in taken ==> fresh(t)
        decreases rest
      {
        var sleutel :| sleutel in rest;
        assert sleutel !in bronnen;
        rest := rest - {sleutel};
        if ms[sleutel].project.Some? {
          projecten, gegevens, taken := LaadErbij(sleutel, projecten, gegevens, taken);
          if Laad(ms, sleutel).Some? {
            bronnen := bronnen + [sleutel];
          }
        } else {
          assert !Laadbaar(ms, sleutel);
        }
      }
      forall i, t | 0 <= i < |projecten| && t in projecten[i].tasks
        ensures fresh(t)
      {
        assert t in taken;
      }
    }

    /** `verwijder_project(project_naam)`: removes the whole folder of the sanitised name,
        which for `""` is the base directory; fails when there is none, or when the
        removal itself fails. */
    method VerwijderProject(projectNaam: string) returns (ok: bool)
      requires Valid()
      modifies this
      ensures Valid()
      ensures ok ==> old(MapBestaat(Saniteer(projectNaam)))
                     && mappen == NaVerwijderen(old(mappen), Saniteer(projectNaam))
      ensures !ok ==> mappen == old(mappen)
      ensures basisBestaat == (old(basisBestaat) && !(ok && Saniteer(projectNaam) == ""))
      ensures !old(MapBestaat(Saniteer(projectNaam))) ==> !ok
    {
      var sleutel := ProjectFolder(projectNaam);
      if MapBestaat(sleutel) {
        var verwijderd: bool :| true;
        if verwijderd {
          if sleutel == "" {
            mappen, basisBestaat := map[], false;
          } else {
            mappen := mappen - {sleutel};
          }
          return true;
        }
        return false;
      }
      return false;
    }

    /** `project_bestaat(project_naam)`: the folder of the sanitised name has a project
        file, readable or not. */
    method ProjectBestaat(projectNaam: string) returns (b: bool)
      ensures b <==> Saniteer(projectNaam) in mappen && mappen[Saniteer(projectNaam)].project.Some?
    {
      var sleutel := ProjectFolder(projectNaam);
      b := sleutel in mappen && mappen[sleutel].project.Some?;
    }

    /** `list_projectmappen()`: the names recorded in the readable project files, in no
        particular order; unreadable files are skipped. */
    method ListProjectmappen() returns (namen: seq<string>, ghost bronnen: seq<string>)
      requires Valid()
      ensures |bronnen| == |namen| && Uniek(bronnen)
      ensures forall k :: k in bronnen <==> k in LeesbareMappen(mappen)
      ensures forall i :: 0 <= i < |namen| ==>
                bronnen[i] in LeesbareMappen(mappen) && namen[i] == mappen[bronnen[i]].project.value.record.naam
    {
      namen, bronnen := [], [];
      if !basisBestaat {
        return;
      }
      var rest := mappen.Keys - {""};
      while rest != {}
        invariant rest <= mappen.Keys && "" !in rest
        invariant |bronnen| == |namen| && Uniek(bronnen)
        invariant forall k :: k in bronnen <==> k in LeesbareMappen(mappen) && k !in rest
        invariant forall i :: 0 <= i < |namen| ==>
                    bronnen[i] in LeesbareMappen(mappen) && namen[i] == mappen[bronnen[i]].project.value.record.naam
        decreases rest
      {
        var item :| item in rest;
        rest := rest - {item};
        if mappen[item].project.Some? && mappen[item].project.value.ProjectJson? {
          namen, bronnen := namen + [mappen[item].project.value.record.naam], bronnen + [item];
        }
      }
    }
  }

  /** After a successful delete the project no longer exists on disk under that name. */
  lemma VerwijderdBestaatNiet(mappen: map<string, Projectmap>, naam: string)
    ensures Saniteer(naam) !in NaVerwijderen(mappen, Saniteer(naam))
    ensures Laad(NaVerwijderen(mappen, Saniteer(naam)), naam).None?
  {
  }

  /** A blank name sanitises to the base directory, so deleting its folder removes every
      project. */
  lemma BlancoNaamIsBasismap(mappen: map<string, Projectmap>, naam: string)
    requires forall i :: 0 <= i < |naam| ==> IsSpace(naam[i])
    ensures Saniteer(naam) == ""
    ensures NaVerwijderen(mappen, Saniteer(naam)) == map[]
    ensures LaadbareMappen(NaVerwijderen(mappen, Saniteer(naam))) == {}
  {
    var v := VervangOngeldig(naam);
    forall i | 0 <= i < |v|
      ensures IsSpace(v[i])
    {
      assert !IsSpace('_') && naam[i] !in OngeldigeTekens by {
        assert forall j :: 0 <= j < |OngeldigeTekens| ==> !IsSpace(OngeldigeTekens[j]);
      }
    }
    BlankIffAllSpace(v);
  }
}
