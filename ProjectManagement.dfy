/** The project façade (AI/Project_manager.py): the in-memory list of projects, filled
    from storage at start-up and kept in step with it by creating, closing and deleting
    projects. Clock readings are parameters. */
module ProjectManagement {
  import opened Basis
  import opened Models
  import opened Validators
  import opened Storage

  /** The name check keeps project names unique up to case, and the project just added
      is the one a search for its name finds. */
  lemma NieuwProjectVindbaar(ps: seq<Project>, p: Project)
    requires UniekZonderHoofdletters(Namen(ps)) && ValideerProjectnaam(p.naam, ps).Gelukt?
    ensures UniekZonderHoofdletters(Namen(ps + [p]))
    ensures ZoekEerste(Namen(ps + [p]), p.naam) == Some(|ps|)
  {
    forall i | 0 <= i < |ps|
      ensures Lower(Namen(ps)[i]) != Lower(p.naam)
    {
      assert ps[i] in ps;
    }
    assert Namen(ps + [p]) == Namen(ps) + [p.naam];
    ToegevoegdeNaamVindbaar(Namen(ps), p.naam);
  }

  /** Deleting a project keeps names unique, and afterwards its name is not found. */
  lemma VerwijderdProjectOnvindbaar(ps: seq<Project>, i: nat)
    requires UniekZonderHoofdletters(Namen(ps)) && i < |ps|
    ensures UniekZonderHoofdletters(Namen(ps[..i] + ps[i + 1..]))
    ensures ZoekEerste(Namen(ps[..i] + ps[i + 1..]), ps[i].naam).None?
  {
    var namen := Namen(ps);
    assert Namen(ps[..i] + ps[i + 1..]) == namen[..i] + namen[i + 1..];
    VerwijderdeNaamOnvindbaar(namen, i);
  }

  /** Deleting removes the folder of the name as typed. When that is another folder than
      the one of the project found (which the case-insensitive lookup allows), the
      project's own folder stays, loads as before, and is picked up again at the next
      start. A typed name that sanitises to `""` is `BlancoNaamIsBasismap`. */
  lemma VerwijderenOpGetypteNaam(mappen: map<string, Projectmap>, projectnaam: string, naam: string)
    requires Saniteer(projectnaam) != "" && Saniteer(projectnaam) != Saniteer(naam)
    requires Saniteer(naam) in LaadbareMappen(mappen)
    ensures Saniteer(naam) in LaadbareMappen(NaVerwijderen(mappen, Saniteer(projectnaam)))
    ensures Laad(NaVerwijderen(mappen, Saniteer(projectnaam)), naam) == Laad(mappen, naam)
  {
    var k := Saniteer(naam);
    var na := NaVerwijderen(mappen, Saniteer(projectnaam));
    SaniteerIdempotent(naam);
    assert na[k] == mappen[k];
    assert Laadbaar(na, k);
  }

  /** The lookup matches "a" to a project named "A", yet the two names have different
      folders, so `VerwijderenOpGetypteNaam` applies. */
  lemma AndereHoofdlettersAndereMap()
    ensures Lower("a") == Lower("A")
    ensures Saniteer("a") == "a" && Saniteer("A") == "A"
  {
    assert Lower("a") == "a" == Lower("A");
    assert Gesaniteerd("a") && Gesaniteerd("A");
    GesaniteerdVast("a");
    GesaniteerdVast("A");
  }

  class ProjectManager {
    const storage: StorageManager
    var projecten: seq<Project>
    /** The folder each project of the start-up list was loaded from; fixed when the
        manager is built, it says nothing about projects created or deleted later. */
    ghost const herkomst: seq<string>

    /** `ProjectManager(storage)` with `_laad_projecten_van_schijf`: the list holds one new
        project for every folder that loads, in some order. */
    constructor (storage: StorageManager)
      requires storage.Valid()
      ensures this.storage == storage && storage.mappen == old(storage.mappen)
      ensures |herkomst| == |projecten| && Uniek(herkomst)
      ensures forall k :: k in herkomst <==> k in LaadbareMappen(storage.mappen)
      ensures forall i :: 0 <= i < |projecten| ==>
                fresh(projecten[i]) && Laad(storage.mappen, herkomst[i]).Some?
                && projecten[i].View() == Laad(storage.mappen, herkomst[i]).value
      ensures Gescheiden(projecten)
      ensures forall i, t :: 0 <= i < |projecten| && t in projecten[i].tasks ==> fresh(t)
    {
      var geladen;
      ghost var bronnen;
      geladen, bronnen := storage.LaadAlleProjecten();
      this.storage := storage;
      projecten := geladen;
      herkomst := bronnen;
    }

    /** `zoek_project(naam)`: the first project whose name equals `naam` up to case. */
    function ZoekProject(naam: string): (p: Project?)
      reads this
      ensures p == null <==> forall i :: 0 <= i < |projecten| ==> Lower(projecten[i].naam) != Lower(naam)
      ensures p != null ==> exists i :: 0 <= i < |projecten| && projecten[i] == p && Lower(p.naam) == Lower(naam)
                                       && forall j :: 0 <= j < i ==> Lower(projecten[j].naam) != Lower(naam)
    {
      var z := ZoekEerste(Namen(projecten), naam);
      if z.None? then null else projecten[z.value]
    }

    /** `haal_alle_projecten_op()`: a copy of the list; the projects in it are shared. */
    function HaalAlleProjectenOp(): (r: seq<Project>)
      reads this
      ensures |r| == |projecten| && forall i :: 0 <= i < |r| ==> r[i] == projecten[i]
    {
      projecten
    }

    /** `maak_project_aan(naam, beschrijving)` at clock reading `nu`: a refused name
        changes nothing; otherwise a new open project without tasks is appended and saved,
        and a failed save takes it out of the list again. */
    method MaakProjectAan(naam: string, beschrijving: Option<string>, nu: int)
      returns (uitkomst: Uitkomst, project: Project?)
      requires storage.Valid()
      modifies this, storage
      ensures storage.Valid() && storage.basisBestaat == (old(storage.basisBestaat) || storage.mappen != old(storage.mappen))
      ensures var v := ValideerProjectnaam(naam, old(projecten));
              && (v.Mislukt? ==> uitkomst == v && storage.mappen == old(storage.mappen)
                                 && storage.basisBestaat == old(storage.basisBestaat))
              && (v.Gelukt? ==> uitkomst == Gelukt || uitkomst == Mislukt(ProjectNietOpgeslagen(naam)))
      ensures uitkomst.Gelukt? <==> project != null
      ensures project != null ==> fresh(project) && project.View() == NieuwProject(naam, beschrijving, nu)
      ensures projecten == if project != null then old(projecten) + [project] else old(projecten)
      ensures uitkomst.Gelukt? ==>
                storage.mappen == old(storage.mappen)[Saniteer(naam) := OpgeslagenMap(NieuwProject(naam, beschrijving, nu))]
      ensures uitkomst == Mislukt(ProjectNietOpgeslagen(naam)) ==>
                NaMislukteOpslag(old(storage.mappen), storage.mappen, Saniteer(naam), NieuwProject(naam, beschrijving, nu))
    {
      var v := ValideerProjectnaam(naam, projecten);
      if v.Mislukt? {
        return v, null;
      }
      var nieuwProject := new Project(naam, beschrijving, nu);
      ghost var oud := projecten;
      projecten := projecten + [nieuwProject];
      var ok := storage.SlaProjectOp(nieuwProject);
      if ok {
        return Gelukt, nieuwProject;
      }
      RemoveAppended(oud, nieuwProject);
      projecten := RemoveFirst(projecten, nieuwProject);
      return Mislukt(ProjectNietOpgeslagen(naam)), null;
    }

    /** `sluit_project(projectnaam)` at clock reading `nu`: only a project that passes the
        closure check is closed; then it is saved, and a failed save is reported but the
        project stays closed in memory. */
    method SluitProject(projectnaam: string, nu: int) returns (uitkomst: Uitkomst)
      requires storage.Valid()
      modifies projecten, storage
      ensures storage.Valid() && storage.basisBestaat == (old(storage.basisBestaat) || storage.mappen != old(storage.mappen))
      ensures var z := ZoekEerste(Namen(projecten), projectnaam);
              && (z.None? ==> uitkomst == Mislukt(ProjectNietGevonden(projectnaam)))
              && (z.Some? ==>
                    var p := projecten[z.value];
                    var v := ValideerProjectsluiting(old(p.View()));
                    && (v.Mislukt? ==> uitkomst == v && p.View() == old(p.View()))
                    && (v.Gelukt? ==>
                          && p.View() == old(p.View()).(status := Gesloten, sluitdatum := Some(nu))
                          && (uitkomst == Gelukt || uitkomst == Mislukt(SluitingNietOpgeslagen))
                          && (uitkomst == Gelukt ==>
                                storage.mappen == old(storage.mappen)[Saniteer(p.naam) := OpgeslagenMap(p.View())])
                          && (uitkomst == Mislukt(SluitingNietOpgeslagen) ==>
                                NaMislukteOpslag(old(storage.mappen), storage.mappen, Saniteer(p.naam), p.View())))
                    && forall q :: q in projecten && q != p ==> q.View() == old(q.View()))
      ensures !(uitkomst == Gelukt || uitkomst == Mislukt(SluitingNietOpgeslagen)) ==>
                && storage.mappen == old(storage.mappen) && storage.basisBestaat == old(storage.basisBestaat)
                && forall q :: q in projecten ==> q.View() == old(q.View())
      ensures forall q :: q in projecten ==> q.tasks == old(q.tasks)
    {
      var project := ZoekProject(projectnaam);
      if project == null {
        return Mislukt(ProjectNietGevonden(projectnaam));
      }
      var v := ValideerProjectsluiting(project.View());
      if v.Mislukt? {
        return v;
      }
      ValideSluitingSluit(project.View(), nu);
      var gesloten := project.SluitProject(nu);
      if !gesloten {
        assert false;
      }
      var ok := storage.SlaProjectOp(project);
      if ok {
        return Gelukt;
      }
      return Mislukt(SluitingNietOpgeslagen);
    }

    /** `verwijder_project(projectnaam)`: only a closed project may go. It leaves the list
        first; then the folder of the name as typed is removed (the whole store for a
        name that sanitises to `""`), and when that fails the project stays out of the
        list. */
    method VerwijderProject(projectnaam: string) returns (uitkomst: Uitkomst)
      requires storage.Valid()
      modifies this, storage
      ensures storage.Valid()
      ensures var z := ZoekEerste(Namen(old(projecten)), projectnaam);
              && (z.None? ==> uitkomst == Mislukt(ProjectNietGevonden(projectnaam)))
              && (z.Some? ==>
                    var p := old(projecten)[z.value];
                    && (p.status != Gesloten ==> uitkomst == Mislukt(AlleenGeslotenProjectenVerwijderen))
                    && (p.status == Gesloten ==>
                          && projecten == old(projecten)[..z.value] + old(projecten)[z.value + 1..]
                          && (uitkomst == Gelukt || uitkomst == Mislukt(VerwijderenMislukt))))
      ensures uitkomst.Gelukt? ==>
                old(storage.MapBestaat(Saniteer(projectnaam)))
                && storage.mappen == NaVerwijderen(old(storage.mappen), Saniteer(projectnaam))
      ensures !uitkomst.Gelukt? ==> storage.mappen == old(storage.mappen) && storage.basisBestaat == old(storage.basisBestaat)
      ensures storage.basisBestaat == (old(storage.basisBestaat) && !(uitkomst.Gelukt? && Saniteer(projectnaam) == ""))
      ensures uitkomst != Gelukt && uitkomst != Mislukt(VerwijderenMislukt) ==> projecten == old(projecten)
    {
      ghost var z := ZoekEerste(Namen(projecten), projectnaam);
      var project := ZoekProject(projectnaam);
      if project == null {
        return Mislukt(ProjectNietGevonden(projectnaam));
      }
      if !project.IsGesloten() {
        return Mislukt(AlleenGeslotenProjectenVerwijderen);
      }
      assert project == projecten[z.value];
      assert project !in projecten[..z.value] by {
        forall j | 0 <= j < z.value
          ensures projecten[j] != project
        {
          assert Namen(projecten)[j] == projecten[j].naam;
        }
      }
      RemoveFirstAt(projecten, z.value);
      projecten := RemoveFirst<Project>(projecten, project);
      var ok := storage.VerwijderProject(projectnaam);
      if ok {
        return Gelukt;
      }
      return Mislukt(VerwijderenMislukt);
    }
  }
}
