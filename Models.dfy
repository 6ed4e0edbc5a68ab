/** The entities of the task manager: tasks and projects with their two small state
    machines (AI/Models.py). `Task` and `Project` are classes because the source changes
    their fields in place; `View()` gives the value a task or project holds at a moment,
    which is what the storage writes and what the lemmas speak about. Timestamps are
    opaque integers handed in by the caller's clock. */
module Models {
  import opened Basis

  datatype TaskPriority = Laag | Normaal | Hoog
  datatype TaskStatus = Nieuw | Bezig | Afgerond
  datatype ProjectStatus = Actief | Gesloten

  /** The `.value` strings of the three enums, as written to disk. */
  function PriorityValue(p: TaskPriority): string {
    match p
    case Laag => "laag"
    case Normaal => "normaal"
    case Hoog => "hoog"
  }

  function TaskStatusValue(s: TaskStatus): string {
    match s
    case Nieuw => "nieuw"
    case Bezig => "bezig"
    case Afgerond => "afgerond"
  }

  function ProjectStatusValue(s: ProjectStatus): string {
    match s
    case Actief => "actief"
    case Gesloten => "gesloten"
  }

  /** `TaskPriority(value)`: the enum member with that exact value, or `None` where
      Python raises `ValueError`. */
  function PriorityFromValue(v: string): (r: Option<TaskPriority>)
    ensures forall p :: r == Some(p) <==> PriorityValue(p) == v
  {
    if v == "laag" then Some(Laag)
    else if v == "normaal" then Some(Normaal)
    else if v == "hoog" then Some(Hoog)
    else None
  }

  function TaskStatusFromValue(v: string): (r: Option<TaskStatus>)
    ensures forall s :: r == Some(s) <==> TaskStatusValue(s) == v
  {
    if v == "nieuw" then Some(Nieuw)
    else if v == "bezig" then Some(Bezig)
    else if v == "afgerond" then Some(Afgerond)
    else None
  }

  function ProjectStatusFromValue(v: string): (r: Option<ProjectStatus>)
    ensures forall s :: r == Some(s) <==> ProjectStatusValue(s) == v
  {
    if v == "actief" then Some(Actief)
    else if v == "gesloten" then Some(Gesloten)
    else None
  }

  /** Reading back the value of an enum member gives that member. */
  lemma EnumValuesRoundTrip(p: TaskPriority, s: TaskStatus, q: ProjectStatus)
    ensures PriorityFromValue(PriorityValue(p)) == Some(p)
    ensures TaskStatusFromValue(TaskStatusValue(s)) == Some(s)
    ensures ProjectStatusFromValue(ProjectStatusValue(q)) == Some(q)
  {
  }

  // ---------------------------------------------------------------- task lifecycle

  /** `toegestane_overgangen`: the targets each status may move to. */
  function ToegestaneOvergangen(s: TaskStatus): seq<TaskStatus> {
    match s
    case Nieuw => [Bezig]
    case Bezig => [Afgerond]
    case Afgerond => []
  }

  /** Position of a status on the path NIEUW -> BEZIG -> AFGEROND. */
  function Rang(s: TaskStatus): nat {
    match s
    case Nieuw => 0
    case Bezig => 1
    case Afgerond => 2
  }

  /** The transition table allows exactly the moves one step forward on the path: no
      self-transition, no skipping, no way back. */
  lemma OvergangIsStapVooruit(van: TaskStatus, naar: TaskStatus)
    ensures naar in ToegestaneOvergangen(van) <==> Rang(naar) == Rang(van) + 1
  {
  }

  datatype TaakGegevens = TaakGegevens(
    titel: string,
    beschrijving: Option<string>,
    prioriteit: TaskPriority,
    status: TaskStatus,
    aanmaakdatum: int,
    afrondmoment: Option<int>)

  /** The state `Task.__init__` creates. */
  function NieuweTaak(titel: string, beschrijving: Option<string>, prioriteit: TaskPriority, nu: int): TaakGegevens {
    TaakGegevens(titel, beschrijving, prioriteit, Nieuw, nu, None)
  }

  /** The completion moment is recorded exactly when the task is done. */
  predicate TaakConsistent(t: TaakGegevens) {
    t.afrondmoment.Some? <==> t.status == Afgerond
  }

  /** `wijzig_status` on a task value: `None` when the move is refused (the method then
      returns False and changes nothing). */
  function NaStatuswijziging(t: TaakGegevens, doel: TaskStatus, nu: int): (r: Option<TaakGegevens>)
    ensures r.Some? <==> Rang(doel) == Rang(t.status) + 1
    ensures r.Some? ==> r.value.status == doel
    ensures r.Some? ==> (r.value.titel == t.titel && r.value.beschrijving == t.beschrijving
                         && r.value.prioriteit == t.prioriteit && r.value.aanmaakdatum == t.aanmaakdatum)
    ensures r.Some? && doel == Afgerond ==> r.value.afrondmoment == Some(nu)
    ensures r.Some? && doel != Afgerond ==> r.value.afrondmoment == t.afrondmoment
  {
    OvergangIsStapVooruit(t.status, doel);
    if doel !in ToegestaneOvergangen(t.status) then None
    else Some(t.(status := doel, afrondmoment := if doel == Afgerond then Some(nu) else t.afrondmoment))
  }

  /** A task value after a sequence of `wijzig_status(doel)` calls made at the given
      clock readings; refused calls leave it as it was. */
  function Doorloop(t: TaakGegevens, stappen: seq<(TaskStatus, int)>): TaakGegevens
    decreases |stappen|
  {
    if stappen == [] then t
    else
      var volgende := NaStatuswijziging(t, stappen[0].0, stappen[0].1);
      Doorloop(if volgende.Some? then volgende.value else t, stappen[1..])
  }

  /** Starting from a consistent task (in particular a new one), every sequence of status
      changes keeps `afrondmoment` set exactly when the status is AFGEROND. */
  lemma {:induction false} DoorloopBlijftConsistent(t: TaakGegevens, stappen: seq<(TaskStatus, int)>)
    requires TaakConsistent(t)
    ensures TaakConsistent(Doorloop(t, stappen))
    decreases |stappen|
  {
    if stappen != [] {
      var volgende := NaStatuswijziging(t, stappen[0].0, stappen[0].1);
      DoorloopBlijftConsistent(if volgende.Some? then volgende.value else t, stappen[1..]);
    }
  }

  /** The constructor state is consistent, so every task built by the program stays so. */
  lemma NieuweTaakBlijftConsistent(titel: string, beschrijving: Option<string>, prioriteit: TaskPriority,
                                   nu: int, stappen: seq<(TaskStatus, int)>)
    ensures TaakConsistent(Doorloop(NieuweTaak(titel, beschrijving, prioriteit, nu), stappen))
  {
    DoorloopBlijftConsistent(NieuweTaak(titel, beschrijving, prioriteit, nu), stappen);
  }

  /** AFGEROND is terminal: no sequence of calls changes a finished task at all. */
  lemma {:induction false} AfgerondIsEindtoestand(t: TaakGegevens, stappen: seq<(TaskStatus, int)>)
    requires t.status == Afgerond
    ensures Doorloop(t, stappen) == t
    decreases |stappen|
  {
    if stappen != [] {
      assert NaStatuswijziging(t, stappen[0].0, stappen[0].1).None?;
      AfgerondIsEindtoestand(t, stappen[1..]);
    }
  }

  /** Status only moves forward, and the fields fixed at creation never change. */
  lemma {:induction false} DoorloopGaatVooruit(t: TaakGegevens, stappen: seq<(TaskStatus, int)>)
    ensures Rang(Doorloop(t, stappen).status) >= Rang(t.status)
    ensures Doorloop(t, stappen).titel == t.titel && Doorloop(t, stappen).prioriteit == t.prioriteit
    ensures Doorloop(t, stappen).beschrijving == t.beschrijving
    ensures Doorloop(t, stappen).aanmaakdatum == t.aanmaakdatum
    decreases |stappen|
  {
    if stappen != [] {
      var volgende := NaStatuswijziging(t, stappen[0].0, stappen[0].1);
      DoorloopGaatVooruit(if volgende.Some? then volgende.value else t, stappen[1..]);
    }
  }

  class Task {
    const titel: string
    const beschrijving: Option<string>
    const prioriteit: TaskPriority
    var status: TaskStatus
    var aanmaakdatum: int
    var afrondmoment: Option<int>

    /** `Task(titel, beschrijving, prioriteit)` at clock reading `nu`. */
    constructor (titel: string, beschrijving: Option<string>, prioriteit: TaskPriority, nu: int)
      ensures View() == NieuweTaak(titel, beschrijving, prioriteit, nu)
    {
      this.titel := titel;
      this.beschrijving := beschrijving;
      this.prioriteit := prioriteit;
      status := Nieuw;
      aanmaakdatum := nu;
      afrondmoment := None;
    }

    function View(): TaakGegevens
      reads this
    {
      TaakGegevens(titel, beschrijving, prioriteit, status, aanmaakdatum, afrondmoment)
    }

    /** `wijzig_status(nieuwe_status)` at clock reading `nu`. */
    method WijzigStatus(nieuweStatus: TaskStatus, nu: int) returns (ok: bool)
      modifies this
      ensures ok == NaStatuswijziging(old(View()), nieuweStatus, nu).Some?
      ensures View() == if ok then NaStatuswijziging(old(View()), nieuweStatus, nu).value else old(View())
    {
      if nieuweStatus !in ToegestaneOvergangen(status) {
        return false;
      }
      status := nieuweStatus;
      if nieuweStatus == Afgerond {
        afrondmoment := Some(nu);
      }
      return true;
    }

    /** A task is done exactly when its status has no way forward. */
    predicate IsAfgerond()
      reads this
      ensures IsAfgerond() <==> ToegestaneOvergangen(status) == []
    {
      status == Afgerond
    }

    /** A task may still be changed exactly when some status change of it is allowed. */
    predicate KanAangepastWorden()
      reads this
      ensures KanAangepastWorden() <==> exists doel :: doel in ToegestaneOvergangen(status)
    {
      assert status != Afgerond ==> ToegestaneOvergangen(status)[0] in ToegestaneOvergangen(status);
      !IsAfgerond()
    }
  }

  // ---------------------------------------------------------------- projects

  datatype ProjectGegevens = ProjectGegevens(
    naam: string,
    beschrijving: Option<string>,
    status: ProjectStatus,
    aanmaakdatum: int,
    sluitdatum: Option<int>,
    taken: seq<TaakGegevens>)

  /** The state `Project.__init__` creates. */
  function NieuwProject(naam: string, beschrijving: Option<string>, nu: int): ProjectGegevens {
    ProjectGegevens(naam, beschrijving, Actief, nu, None, [])
  }

  /** `alle_taken_afgerond` on a project value: an empty project is never "all done". */
  predicate AlleAfgerond(taken: seq<TaakGegevens>) {
    taken != [] && forall i :: 0 <= i < |taken| ==> taken[i].status == Afgerond
  }

  /** `sluit_project` on a project value; `None` when it returns False. It does not look
      at the project's own status, so a closed project whose tasks are all done is
      closed again with a new date. */
  function NaSluiten(p: ProjectGegevens, nu: int): (r: Option<ProjectGegevens>)
    ensures r.Some? <==> |p.taken| > 0 && forall i :: 0 <= i < |p.taken| ==> p.taken[i].status == Afgerond
    ensures r.Some? ==> r.value == p.(status := Gesloten, sluitdatum := Some(nu))
  {
    if !AlleAfgerond(p.taken) then None
    else Some(p.(status := Gesloten, sluitdatum := Some(nu)))
  }

  /** What closing establishes: a closed project holds tasks, all of them finished. */
  predicate GeslotenIsAfgerond(p: ProjectGegevens) {
    p.status == Gesloten ==> AlleAfgerond(p.taken)
  }

  /** Closing establishes it, whatever the project held before. */
  lemma SluitenGeeftGeslotenIsAfgerond(p: ProjectGegevens, nu: int)
    requires NaSluiten(p, nu).Some?
    ensures GeslotenIsAfgerond(NaSluiten(p, nu).value)
  {
  }

  /** The closing date is recorded exactly when the project is closed, and every task
      is consistent. */
  predicate ProjectConsistent(p: ProjectGegevens) {
    && (p.sluitdatum.Some? <==> p.status == Gesloten)
    && forall i :: 0 <= i < |p.taken| ==> TaakConsistent(p.taken[i])
  }

  /** Closing keeps a project consistent, and a closable project holds only finished
      tasks that each carry their completion moment. */
  lemma SluitenBlijftConsistent(p: ProjectGegevens, nu: int)
    requires ProjectConsistent(p) && NaSluiten(p, nu).Some?
    ensures ProjectConsistent(NaSluiten(p, nu).value)
    ensures forall i :: 0 <= i < |p.taken| ==> p.taken[i].afrondmoment.Some?
  {
  }

  /** The snapshots of a list of tasks, in order. */
  function Views(ts: seq<Task>): (r: seq<TaakGegevens>)
    reads ts
    ensures |r| == |ts| && forall i :: 0 <= i < |ts| ==> r[i] == ts[i].View()
  {
    seq(|ts|, i requires 0 <= i < |ts| reads ts => ts[i].View())
  }

  lemma ViewsAppend(ts: seq<Task>, t: Task)
    ensures Views(ts + [t]) == Views(ts) + [t.View()]
  {
    assert forall i :: 0 <= i < |ts| ==> (ts + [t])[i] == ts[i];
  }

  class Project {
    const naam: string
    const beschrijving: Option<string>
    var status: ProjectStatus
    var aanmaakdatum: int
    var tasks: seq<Task>
    var sluitdatum: Option<int>

    /** `Project(naam, beschrijving)` at clock reading `nu`. */
    constructor (naam: string, beschrijving: Option<string>, nu: int)
      ensures View() == NieuwProject(naam, beschrijving, nu) && tasks == []
    {
      this.naam := naam;
      this.beschrijving := beschrijving;
      status := Actief;
      aanmaakdatum := nu;
      tasks := [];
      sluitdatum := None;
    }

    function View(): ProjectGegevens
      reads this, tasks
    {
      ProjectGegevens(naam, beschrijving, status, aanmaakdatum, sluitdatum, Views(tasks))
    }

    /** `voeg_taak_toe(taak)`: refused on a closed project, otherwise appended at the end. */
    method VoegTaakToe(taak: Task) returns (ok: bool)
      modifies this
      ensures ok <==> old(status) == Actief
      ensures tasks == if ok then old(tasks) + [taak] else old(tasks)
      ensures status == old(status) && sluitdatum == old(sluitdatum) && aanmaakdatum == old(aanmaakdatum)
    {
      if status == Gesloten {
        return false;
      }
      tasks := tasks + [taak];
      return true;
    }

    /** The object-level `alle_taken_afgerond` agrees with the predicate on the project's
        value. */
    predicate AlleTakenAfgerond()
      reads this, tasks
      ensures AlleTakenAfgerond() <==> AlleAfgerond(View().taken)
    {
      tasks != [] && forall i :: 0 <= i < |tasks| ==> tasks[i].IsAfgerond()
    }

    /** `sluit_project()` at clock reading `nu`; the tasks themselves are not touched. */
    method SluitProject(nu: int) returns (ok: bool)
      modifies this
      ensures ok == NaSluiten(old(View()), nu).Some?
      ensures View() == if ok then NaSluiten(old(View()), nu).value else old(View())
      ensures tasks == old(tasks)
    {
      if !AlleTakenAfgerond() {
        return false;
      }
      status := Gesloten;
      sluitdatum := Some(nu);
      return true;
    }

    /** Closed is the one status other than ACTIEF. */
    predicate IsGesloten()
      reads this
      ensures IsGesloten() <==> View().status != Actief
    {
      status == Gesloten
    }

    /** `aantal_taken()`: the number of tasks the project's value holds. */
    function AantalTaken(): (n: nat)
      reads this, tasks
      ensures n == |View().taken|
    {
      |tasks|
    }
  }

  /** Projects that are distinct objects, each holding distinct task objects, with no
      task object held by two projects: every task belongs to exactly one project. */
  predicate Gescheiden(ps: seq<Project>)
    reads ps
  {
    && Uniek(ps)
    && (forall i :: 0 <= i < |ps| ==> Uniek(ps[i].tasks))
    && forall i, j, t :: 0 <= i < j < |ps| && t in ps[j].tasks ==> t !in ps[i].tasks
  }

  /** The projects are separated, hold the values `vs` in order, and all their tasks are
      in `taken`. */
  predicate Geladen(ps: seq<Project>, vs: seq<ProjectGegevens>, taken: set<Task>)
    reads ps, taken
  {
    && |ps| == |vs| && Gescheiden(ps)
    && (forall i, t :: 0 <= i < |ps| && t in ps[i].tasks ==> t in taken)
    && forall i :: 0 <= i < |ps| ==> ps[i].View() == vs[i]
  }

  /** A project that is not in the list, holding distinct tasks none of which the list
      holds, keeps the list separated when it is appended. */
  lemma GescheidenErbij(ps: seq<Project>, p: Project)
    requires Gescheiden(ps) && Uniek(p.tasks) && p !in ps
    requires forall i, t :: 0 <= i < |ps| && t in ps[i].tasks ==> t !in p.tasks
    ensures Gescheiden(ps + [p])
  {
    var qs := ps + [p];
    forall i, j, t | 0 <= i < j < |qs| && t in qs[j].tasks
      ensures t !in qs[i].tasks
    {
      if j == |ps| {
        assert qs[j] == p && qs[i] == ps[i];
      } else {
        assert qs[j] == ps[j] && qs[i] == ps[i];
      }
    }
  }
}
