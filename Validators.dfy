/** The checks that run before anything is changed (AI/Validators.py), plus the messages
    the core reports. Each validator returns `Gelukt` for the source's `(True, "")` and
    `Mislukt(m)` for `(False, <message m>)`. */
module Validators {
  import opened Basis
  import opened Models

  /** One constructor per message text of the source; the text itself is presentation. */
  datatype Melding =
    // AI/Validators.py
    | LegeProjectnaam
    | ProjectBestaatAl(naam: string)
    | LegeTaaktitel
    | TaakBestaatAl(titel: string)
    | OngeldigePrioriteit
    | ProjectAlGesloten
    | TakenNietAfgerond
    | GeenTaken
    // AI/Task_manager.py
    | TaakInGeslotenProject
    | TaakNietToegevoegd
    | TaakNietOpgeslagen
    | TaakNietGevonden(titel: string)
    | AfgerondeTaakOnwijzigbaar
    | OngeldigeStatus
    | OvergangGeweigerd(van: TaskStatus, naar: string)
    | AlleenAfgerondeTakenVerwijderen
    // AI/Project_manager.py
    | ProjectNietOpgeslagen(naam: string)
    | ProjectNietGevonden(naam: string)
    | SluitingNietOpgeslagen
    | KonProjectNietSluiten
    | AlleenGeslotenProjectenVerwijderen
    | VerwijderenMislukt

  datatype Uitkomst = Gelukt | Mislukt(melding: Melding)

  /** The names of a list of projects, in order. */
  function Namen(ps: seq<Project>): (r: seq<string>)
    ensures |r| == |ps| && forall i :: 0 <= i < |ps| ==> r[i] == ps[i].naam
  {
    seq(|ps|, i requires 0 <= i < |ps| => ps[i].naam)
  }

  /** The titles of a list of tasks, in order. */
  function Titels(ts: seq<Task>): (r: seq<string>)
    ensures |r| == |ts| && forall i :: 0 <= i < |ts| ==> r[i] == ts[i].titel
  {
    seq(|ts|, i requires 0 <= i < |ts| => ts[i].titel)
  }

  /** `x.lower() in [n.lower() for n in namen]` */
  predicate KomtVoorZonderHoofdletters(x: string, namen: seq<string>)
    ensures KomtVoorZonderHoofdletters(x, namen) <==> exists i :: 0 <= i < |namen| && Lower(namen[i]) == Lower(x)
  {
    var kleine := seq(|namen|, i requires 0 <= i < |namen| => Lower(namen[i]));
    assert forall i :: 0 <= i < |namen| ==> kleine[i] == Lower(namen[i]);
    Lower(x) in kleine
  }

  /** `valideer_projectnaam`: blank names are refused first; then a name that equals an
      existing project's name up to case (no trimming) is refused; otherwise valid. */
  function ValideerProjectnaam(naam: string, bestaande: seq<Project>): (r: Uitkomst)
    ensures r == Mislukt(LegeProjectnaam) <==> forall i :: 0 <= i < |naam| ==> IsSpace(naam[i])
    ensures r == Mislukt(ProjectBestaatAl(naam)) <==>
              !IsBlank(naam) && exists p :: p in bestaande && Lower(p.naam) == Lower(naam)
    ensures r.Gelukt? <==> !IsBlank(naam) && forall p :: p in bestaande ==> Lower(p.naam) != Lower(naam)
    ensures r in {Gelukt, Mislukt(LegeProjectnaam), Mislukt(ProjectBestaatAl(naam))}
  {
    BlankIffAllSpace(naam);
    if IsBlank(naam) then Mislukt(LegeProjectnaam)
    else if KomtVoorZonderHoofdletters(naam, Namen(bestaande)) then
      var namen := Namen(bestaande);
      var i :| 0 <= i < |namen| && Lower(namen[i]) == Lower(naam);
      assert bestaande[i] in bestaande;
      Mislukt(ProjectBestaatAl(naam))
    else
      assert forall i :: 0 <= i < |bestaande| ==> Lower(Namen(bestaande)[i]) != Lower(naam);
      Gelukt
  }

  /** `valideer_taaktitel`: the same two rules, against the tasks of one project only. */
  function ValideerTaaktitel(titel: string, bestaande: seq<Task>): (r: Uitkomst)
    ensures r == Mislukt(LegeTaaktitel) <==> forall i :: 0 <= i < |titel| ==> IsSpace(titel[i])
    ensures r == Mislukt(TaakBestaatAl(titel)) <==>
              !IsBlank(titel) && exists t :: t in bestaande && Lower(t.titel) == Lower(titel)
    ensures r.Gelukt? <==> !IsBlank(titel) && forall t :: t in bestaande ==> Lower(t.titel) != Lower(titel)
    ensures r in {Gelukt, Mislukt(LegeTaaktitel), Mislukt(TaakBestaatAl(titel))}
  {
    BlankIffAllSpace(titel);
    if IsBlank(titel) then Mislukt(LegeTaaktitel)
    else if KomtVoorZonderHoofdletters(titel, Titels(bestaande)) then
      var titels := Titels(bestaande);
      var i :| 0 <= i < |titels| && Lower(titels[i]) == Lower(titel);
      assert bestaande[i] in bestaande;
      Mislukt(TaakBestaatAl(titel))
    else
      assert forall i :: 0 <= i < |bestaande| ==> Lower(Titels(bestaande)[i]) != Lower(titel);
      Gelukt
  }

  /** `valideer_prioriteit`: the dictionary maps the value of each priority to the
      priority, and the input is lower-cased first (`None` and "" become ""). `None`
      here stands for the source's `(False, <message>)`. */
  function ValideerPrioriteit(prioriteit: string): (r: Option<TaskPriority>)
    ensures forall p :: r == Some(p) <==> Lower(prioriteit) == PriorityValue(p)
  {
    PriorityFromValue(Lower(prioriteit))
  }

  /** Priorities are matched without regard to case. */
  lemma PrioriteitNegeertHoofdletters(prioriteit: string)
    ensures ValideerPrioriteit(prioriteit) == ValideerPrioriteit(Lower(prioriteit))
  {
    LowerIdempotent(prioriteit);
  }

  /** Every priority is accepted under its own value and under its upper-case spelling,
      and the empty string is refused. */
  lemma PrioriteitWaardenGeldig()
    ensures ValideerPrioriteit("laag") == Some(Laag)
    ensures ValideerPrioriteit("NORMAAL") == Some(Normaal)
    ensures ValideerPrioriteit("Hoog") == Some(Hoog)
    ensures ValideerPrioriteit("") == None
  {
    assert Lower("laag") == "laag";
    assert Lower("NORMAAL") == "normaal";
    assert Lower("Hoog") == "hoog";
  }

  /** `valideer_projectsluitng`: "already closed" is checked first, then "all tasks done";
      because an empty project is never "all done", the separate no-tasks message can
      never be returned. */
  function ValideerProjectsluiting(p: ProjectGegevens): (r: Uitkomst)
    ensures r.Gelukt? <==> (p.status == Actief && |p.taken| > 0
                            && forall i :: 0 <= i < |p.taken| ==> p.taken[i].status == Afgerond)
    ensures r == Mislukt(ProjectAlGesloten) <==> p.status == Gesloten
    ensures r == Mislukt(TakenNietAfgerond) <==>
              p.status == Actief && (p.taken == [] || exists i :: 0 <= i < |p.taken| && p.taken[i].status != Afgerond)
    ensures r != Mislukt(GeenTaken)
  {
    if p.status.Gesloten? then Mislukt(ProjectAlGesloten)
    else if !AlleAfgerond(p.taken) then Mislukt(TakenNietAfgerond)
    else if p.taken == [] then Mislukt(GeenTaken)
    else Gelukt
  }

  /** A project that passes the closure check can be closed by `sluit_project`, so the
      manager's "could not close" branch is never taken. */
  lemma ValideSluitingSluit(p: ProjectGegevens, nu: int)
    requires ValideerProjectsluiting(p).Gelukt?
    ensures NaSluiten(p, nu) == Some(p.(status := Gesloten, sluitdatum := Some(nu)))
  {
  }

  /** The duplicate check and the managers' lookup agree: a non-blank name passes
      validation exactly when looking it up finds no project. */
  lemma ValideNaamNietGevonden(naam: string, bestaande: seq<Project>)
    requires !IsBlank(naam)
    ensures ValideerProjectnaam(naam, bestaande).Gelukt? <==> ZoekEerste(Namen(bestaande), naam).None?
  {
    var r := ValideerProjectnaam(naam, bestaande);
    var z := ZoekEerste(Namen(bestaande), naam);
    if z.Some? {
      assert bestaande[z.value] in bestaande;
    }
    if !r.Gelukt? {
      var p :| p in bestaande && Lower(p.naam) == Lower(naam);
      var i :| 0 <= i < |bestaande| && bestaande[i] == p;
      assert Lower(Namen(bestaande)[i]) == Lower(naam);
    }
  }
}
