/** The task façade (AI/Task_manager.py): creating, finding, advancing and deleting the
    tasks of one project, saving the project after each change when a storage manager is
    present. Clock readings are parameters. */
module TaskManagement {
  import opened Basis
  import opened Models
  import opened Validators
  import opened Storage

  /** `status_mapping[nieuwe_status_str.lower()]`: the mapping's keys are exactly the
      values of the three statuses. */
  function StatusUitTekst(s: string): (r: Option<TaskStatus>)
    ensures forall st :: r == Some(st) <==> Lower(s) == TaskStatusValue(st)
  {
    TaskStatusFromValue(Lower(s))
  }

  /** Status words are matched without regard to case. */
  lemma StatusNegeertHoofdletters(s: string)
    ensures StatusUitTekst(s) == StatusUitTekst(Lower(s))
  {
    LowerIdempotent(s);
  }

  /** Examples: each status word in one spelling, and a word that is not a status. */
  lemma StatusWoordenGeldig()
    ensures StatusUitTekst("nieuw") == Some(Nieuw)
    ensures StatusUitTekst("Bezig") == Some(Bezig)
    ensures StatusUitTekst("AFGEROND") == Some(Afgerond)
    ensures StatusUitTekst("klaar") == None
  {
    assert Lower("nieuw") == "nieuw";
    assert Lower("Bezig") == "bezig";
    assert Lower("AFGEROND") == "afgerond";
    assert Lower("klaar") == "klaar";
  }

  /** The outcome of the checks `maak_taak_aan` makes before it creates anything. */
  datatype Controle = Toegestaan(prioriteit: TaskPriority) | Geweigerd(melding: Melding)

  /** The checks of `maak_taak_aan`, in their order: closed project, then title, then
      priority. */
  function ControleerNieuweTaak(status: ProjectStatus, titel: string, bestaande: seq<Task>,
                                prioriteitStr: string): (r: Controle)
    ensures r.Toegestaan? <==>
              status == Actief && ValideerTaaktitel(titel, bestaande).Gelukt? && ValideerPrioriteit(prioriteitStr).Some?
    ensures r.Toegestaan? ==> Lower(prioriteitStr) == PriorityValue(r.prioriteit)
    ensures r.Geweigerd? ==> r.melding in {TaakInGeslotenProject, LegeTaaktitel, TaakBestaatAl(titel), OngeldigePrioriteit}
    ensures status == Gesloten ==> r == Geweigerd(TaakInGeslotenProject)
    ensures status == Actief && ValideerTaaktitel(titel, bestaande).Mislukt? ==>
              r == Geweigerd(ValideerTaaktitel(titel, bestaande).melding)
    ensures status == Actief && ValideerTaaktitel(titel, bestaande).Gelukt? && ValideerPrioriteit(prioriteitStr).None? ==>
              r == Geweigerd(OngeldigePrioriteit)
  {
    if status.Gesloten? then Geweigerd(TaakInGeslotenProject)
    else
      var titelCheck := ValideerTaaktitel(titel, bestaande);
      if titelCheck.Mislukt? then Geweigerd(titelCheck.melding)
      else
        match ValideerPrioriteit(prioriteitStr)
        case None => Geweigerd(OngeldigePrioriteit)
        case Some(p) => Toegestaan(p)
  }

  /** A project value with one more task at the end. */
  function MetTaak(p: ProjectGegevens, t: TaakGegevens): ProjectGegevens {
    p.(taken := p.taken + [t])
  }

  /** The title check keeps the titles of a project unique up to case, and the task
      just added is the one a search for its title finds. */
  lemma NieuweTaakVindbaar(ts: seq<Task>, t: Task)
    requires UniekZonderHoofdletters(Titels(ts)) && ValideerTaaktitel(t.titel, ts).Gelukt?
    ensures UniekZonderHoofdletters(Titels(ts + [t]))
    ensures ZoekEerste(Titels(ts + [t]), t.titel) == Some(|ts|)
  {
    forall i | 0 <= i < |ts|
      ensures Lower(Titels(ts)[i]) != Lower(t.titel)
    {
      assert ts[i] in ts;
    }
    assert Titels(ts + [t]) == Titels(ts) + [t.titel];
    ToegevoegdeNaamVindbaar(Titels(ts), t.titel);
  }

  /** Deleting a task keeps titles unique, and afterwards its title is not found. */
  lemma VerwijderdeTaakOnvindbaar(ts: seq<Task>, i: nat)
    requires UniekZonderHoofdletters(Titels(ts)) && i < |ts|
    ensures UniekZonderHoofdletters(Titels(ts[..i] + ts[i + 1..]))
    ensures ZoekEerste(Titels(ts[..i] + ts[i + 1..]), ts[i].titel).None?
  {
    var namen := Titels(ts);
    assert Titels(ts[..i] + ts[i + 1..]) == namen[..i] + namen[i + 1..];
    VerwijderdeNaamOnvindbaar(namen, i);
  }

  /** `verwijder_taak` does not look at the project's status, so it can delete the only
      task of a closed project: what closing established (tasks, all finished) no longer
      holds afterwards. */
  lemma VerwijderenUitGeslotenProject(p: ProjectGegevens, nu: int)
    requires NaSluiten(p, nu).Some? && |p.taken| == 1
    ensures var gesloten := NaSluiten(p, nu).value;
            && GeslotenIsAfgerond(gesloten)
            && gesloten.taken[0].status == Afgerond
            && var leeg := gesloten.(taken := gesloten.taken[..0] + gesloten.taken[1..]);
               leeg.status == Gesloten && leeg.taken == [] && !GeslotenIsAfgerond(leeg)
  {
    SluitenGeeftGeslotenIsAfgerond(p, nu);
  }

  class TaskManager {
    /** `None` in the source when the manager runs without persistence. */
    const storage: StorageManager?

    constructor (storage: StorageManager?)
      ensures this.storage == storage
    {
      this.storage := storage;
    }

    /** `zoek_taak(project, titel)`: the first task whose title equals `titel` up to case. */
    function ZoekTaak(project: Project, titel: string): (t: Task?)
      reads project
      ensures t == null <==> forall i :: 0 <= i < |project.tasks| ==> Lower(project.tasks[i].titel) != Lower(titel)
      ensures t != null ==> exists i :: 0 <= i < |project.tasks| && project.tasks[i] == t && Lower(t.titel) == Lower(titel)
                                       && forall j :: 0 <= j < i ==> Lower(project.tasks[j].titel) != Lower(titel)
    {
      var z := ZoekEerste(Titels(project.tasks), titel);
      if z.None? then null else project.tasks[z.value]
    }

    /** The second half of `maak_taak_aan`: append the new task to the (open) project
        and save; when saving fails, take the task out again. */
    method VoegToeEnBewaar(project: Project, taak: Task) returns (ok: bool)
      requires project.status == Actief && taak !in project.tasks
      requires storage != null ==> storage.Valid()
      modifies project, storage
      ensures storage != null ==> storage.Valid() && storage.basisBestaat == (old(storage.basisBestaat) || storage.mappen != old(storage.mappen))
      ensures project.tasks == if ok then old(project.tasks) + [taak] else old(project.tasks)
      ensures project.status == old(project.status) && project.sluitdatum == old(project.sluitdatum)
      ensures project.aanmaakdatum == old(project.aanmaakdatum)
      ensures storage == null ==> ok
      ensures storage != null && ok ==>
                storage.mappen == old(storage.mappen)[Saniteer(project.naam) := OpgeslagenMap(project.View())]
      ensures storage != null && !ok ==>
                NaMislukteOpslag(old(storage.mappen), storage.mappen, Saniteer(project.naam), MetTaak(project.View(), taak.View()))
    {
      ghost var oudeTaken := project.tasks;
      var toegevoegd := project.VoegTaakToe(taak);
      if !toegevoegd {
        assert false;
      }
      if storage == null {
        return true;
      }
      ViewsAppend(oudeTaken, taak);
      ghost var metTaak := project.View();
      assert metTaak == MetTaak(old(project.View()), taak.View());
      ok := storage.SlaProjectOp(project);
      if !ok {
        RemoveAppended(oudeTaken, taak);
        project.tasks := RemoveFirst(project.tasks, taak);
        assert project.tasks == oudeTaken;
        assert project.View() == old(project.View());
      }
    }

    /** `maak_taak_aan(project, titel, beschrijving, prioriteit_str)` at clock reading `nu`.
        A refused check changes nothing; otherwise the new task is appended and the
        project saved, and a failed save takes the task out of the project again. */
    method MaakTaakAan(project: Project, titel: string, beschrijving: Option<string>, prioriteitStr: string, nu: int)
      returns (uitkomst: Uitkomst, taak: Task?)
      requires storage != null ==> storage.Valid()
      modifies project, storage
      ensures storage != null ==> storage.Valid() && storage.basisBestaat == (old(storage.basisBestaat) || storage.mappen != old(storage.mappen))
      ensures var c := ControleerNieuweTaak(old(project.status), titel, old(project.tasks), prioriteitStr);
              && (c.Geweigerd? ==> uitkomst == Mislukt(c.melding))
              && (c.Toegestaan? ==> uitkomst == Gelukt || (storage != null && uitkomst == Mislukt(TaakNietOpgeslagen)))
              && (taak != null ==> c.Toegestaan? && fresh(taak)
                                   && taak.View() == NieuweTaak(titel, beschrijving, c.prioriteit, nu))
              && (c.Toegestaan? && storage != null && uitkomst == Mislukt(TaakNietOpgeslagen) ==>
                    NaMislukteOpslag(old(storage.mappen), storage.mappen, Saniteer(project.naam),
                                     MetTaak(project.View(), NieuweTaak(titel, beschrijving, c.prioriteit, nu))))
      ensures uitkomst.Gelukt? <==> taak != null
      ensures project.tasks == if taak != null then old(project.tasks) + [taak] else old(project.tasks)
      ensures project.status == old(project.status) && project.sluitdatum == old(project.sluitdatum)
      ensures project.aanmaakdatum == old(project.aanmaakdatum)
      ensures storage != null && uitkomst.Gelukt? ==>
                storage.mappen == old(storage.mappen)[Saniteer(project.naam) := OpgeslagenMap(project.View())]
      ensures storage != null && ControleerNieuweTaak(old(project.status), titel, old(project.tasks), prioriteitStr).Geweigerd? ==>
                storage.mappen == old(storage.mappen) && storage.basisBestaat == old(storage.basisBestaat)
    {
      var c := ControleerNieuweTaak(project.status, titel, project.tasks, prioriteitStr);
      if c.Geweigerd? {
        return Mislukt(c.melding), null;
      }
      var nieuweTaak := new Task(titel, beschrijving, c.prioriteit, nu);
      var ok := VoegToeEnBewaar(project, nieuweTaak);
      if ok {
        return Gelukt, nieuweTaak;
      }
      return Mislukt(TaakNietOpgeslagen), null;
    }

    /** `wijzig_taakstatus(project, taaktitel, nieuwe_status_str)` at clock reading `nu`.
        The checks come in this order: the task exists, it is not done, the status word
        is known, the move is one step forward. Only the task found changes, and after a
        change the project is saved; a failed save is not reported. */
    method WijzigTaakstatus(project: Project, taaktitel: string, nieuweStatusStr: string, nu: int)
      returns (uitkomst: Uitkomst)
      requires storage != null ==> storage.Valid()
      modifies project.tasks, storage
      ensures storage != null ==> storage.Valid() && storage.basisBestaat == (old(storage.basisBestaat) || storage.mappen != old(storage.mappen))
      ensures var z := ZoekEerste(Titels(project.tasks), taaktitel);
              && (z.None? ==> uitkomst == Mislukt(TaakNietGevonden(taaktitel)))
              && (z.Some? ==>
                    var t := project.tasks[z.value];
                    var doel := StatusUitTekst(nieuweStatusStr);
                    && (old(t.status) == Afgerond ==> uitkomst == Mislukt(AfgerondeTaakOnwijzigbaar))
                    && (old(t.status) != Afgerond && doel.None? ==> uitkomst == Mislukt(OngeldigeStatus))
                    && (old(t.status) != Afgerond && doel.Some? ==>
                          var na := NaStatuswijziging(old(t.View()), doel.value, nu);
                          && (na.Some? ==> uitkomst == Gelukt && t.View() == na.value)
                          && (na.None? ==> uitkomst == Mislukt(OvergangGeweigerd(old(t.status), nieuweStatusStr))))
                    && forall u :: u in project.tasks && u != t ==> u.View() == old(u.View()))
      ensures uitkomst != Gelukt ==> forall u :: u in project.tasks ==> u.View() == old(u.View())
      ensures storage != null && uitkomst.Gelukt? ==> NaOpslagpoging(old(storage.mappen), storage.mappen, project.View())
      ensures storage != null && !uitkomst.Gelukt? ==>
                storage.mappen == old(storage.mappen) && storage.basisBestaat == old(storage.basisBestaat)
    {
      var taak := ZoekTaak(project, taaktitel);
      if taak == null {
        return Mislukt(TaakNietGevonden(taaktitel));
      }
      if !taak.KanAangepastWorden() {
        return Mislukt(AfgerondeTaakOnwijzigbaar);
      }
      var nieuweStatus := StatusUitTekst(nieuweStatusStr);
      if nieuweStatus.None? {
        return Mislukt(OngeldigeStatus);
      }
      var gewijzigd := taak.WijzigStatus(nieuweStatus.value, nu);
      if !gewijzigd {
        return Mislukt(OvergangGeweigerd(taak.status, nieuweStatusStr));
      }
      if storage != null {
        ghost var voor := storage.mappen;
        var opgeslagen := storage.SlaProjectOp(project);
        assert NaOpslagpoging(voor, storage.mappen, project.View());
      }
      return Gelukt;
    }

    /** `verwijder_taak(project, taaktitel)`: only a finished task may go; it is taken out
        of the list, the others keep their order, and the project is saved; a failed save
        is not reported. */
    method VerwijderTaak(project: Project, taaktitel: string) returns (uitkomst: Uitkomst)
      requires storage != null ==> storage.Valid()
      modifies project, storage
      ensures storage != null ==> storage.Valid() && storage.basisBestaat == (old(storage.basisBestaat) || storage.mappen != old(storage.mappen))
      ensures var z := ZoekEerste(Titels(old(project.tasks)), taaktitel);
              && (z.None? ==> uitkomst == Mislukt(TaakNietGevonden(taaktitel)))
              && (z.Some? ==>
                    var t := old(project.tasks)[z.value];
                    && (t.status != Afgerond ==> uitkomst == Mislukt(AlleenAfgerondeTakenVerwijderen))
                    && (t.status == Afgerond ==>
                          (uitkomst == Gelukt
                           && project.tasks == old(project.tasks)[..z.value] + old(project.tasks)[z.value + 1..])))
      ensures !uitkomst.Gelukt? ==> project.tasks == old(project.tasks)
      ensures project.status == old(project.status) && project.sluitdatum == old(project.sluitdatum)
      ensures project.aanmaakdatum == old(project.aanmaakdatum)
      ensures storage != null && uitkomst.Gelukt? ==> NaOpslagpoging(old(storage.mappen), storage.mappen, project.View())
      ensures storage != null && !uitkomst.Gelukt? ==>
                storage.mappen == old(storage.mappen) && storage.basisBestaat == old(storage.basisBestaat)
    {
      ghost var z := ZoekEerste(Titels(project.tasks), taaktitel);
      var taak := ZoekTaak(project, taaktitel);
      if taak == null {
        return Mislukt(TaakNietGevonden(taaktitel));
      }
      if !taak.IsAfgerond() {
        return Mislukt(AlleenAfgerondeTakenVerwijderen);
      }
      assert taak == project.tasks[z.value];
      assert taak !in project.tasks[..z.value] by {
        forall j | 0 <= j < z.value
          ensures project.tasks[j] != taak
        {
          assert Titels(project.tasks)[j] == project.tasks[j].titel;
        }
      }
      RemoveFirstAt(project.tasks, z.value);
      project.tasks := RemoveFirst<Task>(project.tasks, taak);
      if storage != null {
        ghost var voor := storage.mappen;
        var opgeslagen := storage.SlaProjectOp(project);
        assert NaOpslagpoging(voor, storage.mappen, project.View());
      }
      return Gelukt;
    }
  }
}
