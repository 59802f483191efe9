/**
 * `KnowledgeBaseLoader` (knowledge_base_loader.py, lines 76-433): the loaded
 * knowledge base and the queries over it.
 *
 * Each query is specified by a function of the knowledge base value
 * (`Option<KnowledgeBase>`, `None` when nothing is loaded); the loader's
 * methods build their results with the source's append loops and are
 * proved equal to those functions, and the lemmas state what the
 * functions promise.
 */
module KbLoader {
  import opened Wrappers
  import opened Records
  import opened Text
  import opened Seqs
  import opened Loading
  import opened Sources

  // ---------------------------------------------------------------------------
  // rechercher_metier (lines 279-296): exact case-insensitive match, then substring
  // ---------------------------------------------------------------------------

  /** The name test of either pass: equality of lowered names, or the lowered query inside the lowered name. */
  predicate NameMatches(m: Metier, q: string, exact: bool) {
    if exact then Lower(m.nomMetier) == q else Contains(Lower(m.nomMetier), q)
  }

  /** The index the `for ... return` loop stops at, if any. */
  function FirstMatch(ms: seq<Metier>, q: string, exact: bool): (r: Option<nat>)
    ensures r.Some? ==> r.value < |ms| && NameMatches(ms[r.value], q, exact)
    ensures r.Some? ==> forall j :: 0 <= j < r.value ==> !NameMatches(ms[j], q, exact)
    ensures r.None? ==> forall j :: 0 <= j < |ms| ==> !NameMatches(ms[j], q, exact)
  {
    if ms == [] then None
    else if NameMatches(ms[0], q, exact) then Some(0)
    else match FirstMatch(ms[1..], q, exact)
      case None => None
      case Some(i) => Some(i + 1)
  }

  /** `rechercher_metier`. */
  function RechercherMetier(kb: Option<KnowledgeBase>, nom: string): (r: Option<Metier>)
    ensures kb.None? ==> r.None?
    ensures r.Some? ==> r.value in kb.value.metiers
  {
    if kb.None? then None
    else
      var ms, q := kb.value.metiers, Lower(nom);
      match FirstMatch(ms, q, true)
      case Some(i) => Some(ms[i])
      case None =>
        match FirstMatch(ms, q, false)
        case Some(i) => Some(ms[i])
        case None => None
  }

  /**
   * The lookup returns the first occupation, in list order, whose lowered
   * name equals the lowered query; failing that, the first whose lowered
   * name contains it; failing that, nothing.
   */
  lemma RechercherMetierFindsFirst(kb: KnowledgeBase, nom: string)
    ensures var ms, q, r := kb.metiers, Lower(nom), RechercherMetier(Some(kb), nom);
      && ((exists i :: 0 <= i < |ms| && Lower(ms[i].nomMetier) == q) ==>
            exists i :: 0 <= i < |ms| && r == Some(ms[i]) && Lower(ms[i].nomMetier) == q
                        && forall j :: 0 <= j < i ==> Lower(ms[j].nomMetier) != q)
      && ((forall i :: 0 <= i < |ms| ==> Lower(ms[i].nomMetier) != q) ==>
            (r.None? <==> forall i :: 0 <= i < |ms| ==> !Contains(Lower(ms[i].nomMetier), q))
            && (r.Some? ==>
                  exists i :: 0 <= i < |ms| && r == Some(ms[i]) && Contains(Lower(ms[i].nomMetier), q)
                              && forall j :: 0 <= j < i ==> !Contains(Lower(ms[j].nomMetier), q)))
  {
    var ms, q := kb.metiers, Lower(nom);
    match FirstMatch(ms, q, true)
    case Some(i) =>
      assert NameMatches(ms[i], q, true);
    case None =>
      match FirstMatch(ms, q, false)
      case Some(i) =>
        assert NameMatches(ms[i], q, false);
      case None =>
  }

  /** An exact match is also a substring match, so the lookup fails only when no name contains the query. */
  lemma RechercherMetierNone(kb: KnowledgeBase, nom: string)
    ensures RechercherMetier(Some(kb), nom).None?
            <==> forall m :: m in kb.metiers ==> !Contains(Lower(m.nomMetier), Lower(nom))
  {
    var ms, q := kb.metiers, Lower(nom);
    if RechercherMetier(Some(kb), nom).None? {
      forall m | m in ms ensures !Contains(Lower(m.nomMetier), q) {
        var i :| 0 <= i < |ms| && ms[i] == m;
        assert !NameMatches(ms[i], q, false);
      }
    } else {
      var m := RechercherMetier(Some(kb), nom).value;
      match FirstMatch(ms, q, true)
      case Some(i) =>
        assert Lower(m.nomMetier) == q;
        ContainsTrivial(q);
      case None =>
        assert NameMatches(m, q, false);
    }
  }

  // ---------------------------------------------------------------------------
  // rechercher_metiers_par_secteur (lines 298-310)
  // ---------------------------------------------------------------------------

  /** The filter of the sector loop: the lowered query occurs in the lowered sector. */
  function InSector(q: string): Metier -> bool {
    (m: Metier) => Contains(Lower(m.secteurActivite), q)
  }

  function MetiersParSecteur(kb: Option<KnowledgeBase>, secteur: string): seq<Metier> {
    if kb.None? then [] else Filter(kb.value.metiers, InSector(Lower(secteur)))
  }

  /** An order-preserving filter: an occupation is listed iff its lowered sector contains the lowered query. */
  lemma MetiersParSecteurFilter(kb: KnowledgeBase, secteur: string)
    ensures Subseq(MetiersParSecteur(Some(kb), secteur), kb.metiers)
    ensures forall m :: m in MetiersParSecteur(Some(kb), secteur)
                        <==> m in kb.metiers && Contains(Lower(m.secteurActivite), Lower(secteur))
  {
    var p := InSector(Lower(secteur));
    FilterIsSubseq(kb.metiers, p);
    forall m | m in kb.metiers && p(m) ensures m in Filter(kb.metiers, p) {
      FilterComplete(kb.metiers, p, m);
    }
  }

  // ---------------------------------------------------------------------------
  // rechercher_universites_pour_metier (lines 312-354)
  // ---------------------------------------------------------------------------

  /** A program kept for a university, with the name of the faculty that owns it (`{"faculte": ..., **filiere}`). */
  datatype FiliereRecommandee = FiliereRecommandee(faculte: string, filiere: Filiere)

  /** A university with its kept programs (`{**universite, "filieres_recommandees": [...]}`). */
  datatype UniversiteRecommandee = UniversiteRecommandee(universite: Universite, filieresRecommandees: seq<FiliereRecommandee>)

  /** Some target occupation of the program, lowered, contains the lowered occupation name. */
  predicate TargetsMetier(f: Filiere, q: string) {
    exists v :: v in f.metiersVises && Contains(Lower(v), q)
  }

  /** `serie_bac.split()[0]` when a track is given, `None` otherwise. */
  function TrackLetter(serie: Option<string>): (r: Option<string>)
    requires TrackHasLetter(serie)
    ensures r.Some? <==> IsGiven(serie)
    ensures r.Some? ==> r.value != [] && Contains(serie.value, r.value)
  {
    if IsGiven(serie) then
      var t := FirstToken(serie.value);
      var k :| 0 <= k && k + |t| <= |serie.value| && t <= serie.value[k..];
      assert Contains(serie.value, t);
      Some(t)
    else None
  }

  /**
   * The track filter: it applies only when a track is given and the program
   * lists required tracks; then the track's first token (`lettre`) must
   * occur in one of them, or one of them must contain "Toutes" (which is
   * when "Toutes" occurs in the printed list).
   */
  predicate TrackAccepted(f: Filiere, lettre: Option<string>) {
    || lettre.None?
    || f.seriesBacRequises == []
    || (exists req :: req in f.seriesBacRequises && Contains(req, lettre.value))
    || (exists req :: req in f.seriesBacRequises && Contains(req, "Toutes"))
  }

  predicate Qualifies(f: Filiere, q: string, lettre: Option<string>) {
    TargetsMetier(f, q) && TrackAccepted(f, lettre)
  }

  /** The programs of one faculty that qualify, tagged with the faculty's name. */
  function ProgramsOf(fils: seq<Filiere>, faculte: string, q: string, lettre: Option<string>): seq<FiliereRecommandee>
  {
    if fils == [] then []
    else
      var f := fils[|fils| - 1];
      ProgramsOf(fils[..|fils| - 1], faculte, q, lettre)
        + (if Qualifies(f, q, lettre) then [FiliereRecommandee(faculte, f)] else [])
  }

  /** The qualifying programs of a university, faculty after faculty. */
  function ProgramsOfFaculties(facs: seq<FaculteEcole>, q: string, lettre: Option<string>): seq<FiliereRecommandee>
  {
    if facs == [] then []
    else
      var fac := facs[|facs| - 1];
      ProgramsOfFaculties(facs[..|facs| - 1], q, lettre) + ProgramsOf(fac.filieres, fac.nomFaculte, q, lettre)
  }

  function UniversitesFor(us: seq<Universite>, q: string, lettre: Option<string>): seq<UniversiteRecommandee>
  {
    if us == [] then []
    else
      var u := us[|us| - 1];
      var progs := ProgramsOfFaculties(u.facultes, q, lettre);
      UniversitesFor(us[..|us| - 1], q, lettre) + (if progs != [] then [UniversiteRecommandee(u, progs)] else [])
  }

  /** `rechercher_universites_pour_metier`. */
  function RechercherUniversites(kb: Option<KnowledgeBase>, nom: string, serie: Option<string>): seq<UniversiteRecommandee>
    requires TrackHasLetter(serie)
  {
    if kb.None? then [] else UniversitesFor(kb.value.universites, Lower(nom), TrackLetter(serie))
  }

  function UniversitesOf(rs: seq<UniversiteRecommandee>): (r: seq<Universite>)
    ensures |r| == |rs| && forall i :: 0 <= i < |rs| ==> r[i] == rs[i].universite
  {
    seq(|rs|, i requires 0 <= i < |rs| => rs[i].universite)
  }

  lemma ProgramsOfStep(fils: seq<Filiere>, faculte: string, q: string, lettre: Option<string>, k: nat)
    requires k < |fils|
    ensures ProgramsOf(fils[..k + 1], faculte, q, lettre)
            == ProgramsOf(fils[..k], faculte, q, lettre)
               + (if Qualifies(fils[k], q, lettre) then [FiliereRecommandee(faculte, fils[k])] else [])
  {
    assert fils[..k + 1][..k] == fils[..k];
  }

  lemma ProgramsOfFacultiesStep(facs: seq<FaculteEcole>, q: string, lettre: Option<string>, j: nat)
    requires j < |facs|
    ensures ProgramsOfFaculties(facs[..j + 1], q, lettre)
            == ProgramsOfFaculties(facs[..j], q, lettre) + ProgramsOf(facs[j].filieres, facs[j].nomFaculte, q, lettre)
  {
    assert facs[..j + 1][..j] == facs[..j];
  }

  lemma UniversitesForStep(us: seq<Universite>, q: string, lettre: Option<string>, i: nat)
    requires i < |us|
    ensures var progs := ProgramsOfFaculties(us[i].facultes, q, lettre);
      UniversitesFor(us[..i + 1], q, lettre)
      == UniversitesFor(us[..i], q, lettre) + (if progs != [] then [UniversiteRecommandee(us[i], progs)] else [])
  {
    assert us[..i + 1][..i] == us[..i];
  }

  /** Every kept program qualifies and carries the name of a faculty of `facs` that owns it. */
  lemma {:induction false} ProgramsOfFacultiesSound(facs: seq<FaculteEcole>, q: string, lettre: Option<string>, p: FiliereRecommandee)
    requires p in ProgramsOfFaculties(facs, q, lettre)
    ensures Qualifies(p.filiere, q, lettre)
    ensures exists fac :: fac in facs && p.faculte == fac.nomFaculte && p.filiere in fac.filieres
  {
    var init, fac := facs[..|facs| - 1], facs[|facs| - 1];
    if p in ProgramsOfFaculties(init, q, lettre) {
      ProgramsOfFacultiesSound(init, q, lettre, p);
      var f :| f in init && p.faculte == f.nomFaculte && p.filiere in f.filieres;
      assert f in facs;
    } else {
      ProgramsOfSound(fac.filieres, fac.nomFaculte, q, lettre, p);
    }
  }

  lemma {:induction false} ProgramsOfSound(fils: seq<Filiere>, faculte: string, q: string, lettre: Option<string>, p: FiliereRecommandee)
    requires p in ProgramsOf(fils, faculte, q, lettre)
    ensures Qualifies(p.filiere, q, lettre) && p.faculte == faculte && p.filiere in fils
  {
    var init := fils[..|fils| - 1];
    if p in ProgramsOf(init, faculte, q, lettre) {
      ProgramsOfSound(init, faculte, q, lettre, p);
    }
  }

  /** Every qualifying program of `facs` is kept. */
  lemma {:induction false} ProgramsOfFacultiesComplete(facs: seq<FaculteEcole>, q: string, lettre: Option<string>, fac: FaculteEcole, f: Filiere)
    requires fac in facs && f in fac.filieres && Qualifies(f, q, lettre)
    ensures FiliereRecommandee(fac.nomFaculte, f) in ProgramsOfFaculties(facs, q, lettre)
  {
    var init, last := facs[..|facs| - 1], facs[|facs| - 1];
    if fac == last {
      ProgramsOfComplete(fac.filieres, fac.nomFaculte, q, lettre, f);
    } else {
      assert fac in init by {
        var i :| 0 <= i < |facs| && facs[i] == fac;
        assert init[i] == fac;
      }
      ProgramsOfFacultiesComplete(init, q, lettre, fac, f);
    }
  }

  lemma {:induction false} ProgramsOfComplete(fils: seq<Filiere>, faculte: string, q: string, lettre: Option<string>, f: Filiere)
    requires f in fils && Qualifies(f, q, lettre)
    ensures FiliereRecommandee(faculte, f) in ProgramsOf(fils, faculte, q, lettre)
  {
    var init := fils[..|fils| - 1];
    if f != fils[|fils| - 1] {
      assert f in init by {
        var i :| 0 <= i < |fils| && fils[i] == f;
        assert init[i] == f;
      }
      ProgramsOfComplete(init, faculte, q, lettre, f);
    }
  }

  /** The universities of the result appear in knowledge-base order. */
  lemma {:induction false} UniversitesForOrder(us: seq<Universite>, q: string, lettre: Option<string>)
    ensures Subseq(UniversitesOf(UniversitesFor(us, q, lettre)), us)
  {
    if us != [] {
      var init, u := us[..|us| - 1], us[|us| - 1];
      UniversitesForOrder(init, q, lettre);
      var progs := ProgramsOfFaculties(u.facultes, q, lettre);
      var prev := UniversitesFor(init, q, lettre);
      assert init + [u] == us;
      if progs != [] {
        assert UniversitesFor(us, q, lettre) == prev + [UniversiteRecommandee(u, progs)];
        assert UniversitesOf(prev + [UniversiteRecommandee(u, progs)]) == UniversitesOf(prev) + [u];
        SubseqSnoc(UniversitesOf(prev), init, u);
      } else {
        assert UniversitesFor(us, q, lettre) == prev;
        SubseqExtend(UniversitesOf(prev), init, u);
      }
    }
  }

  /** Each university listed carries the non-empty list of the qualifying programs of its own faculties. */
  lemma {:induction false} UniversitesForPrograms(us: seq<Universite>, q: string, lettre: Option<string>, e: UniversiteRecommandee)
    requires e in UniversitesFor(us, q, lettre)
    ensures e.filieresRecommandees != []
    ensures e.filieresRecommandees == ProgramsOfFaculties(e.universite.facultes, q, lettre)
  {
    var init := us[..|us| - 1];
    if e in UniversitesFor(init, q, lettre) {
      UniversitesForPrograms(init, q, lettre, e);
    }
  }

  /** Every university with at least one qualifying program is listed. */
  lemma {:induction false} UniversitesForComplete(us: seq<Universite>, q: string, lettre: Option<string>, u: Universite)
    requires u in us && ProgramsOfFaculties(u.facultes, q, lettre) != []
    ensures UniversiteRecommandee(u, ProgramsOfFaculties(u.facultes, q, lettre)) in UniversitesFor(us, q, lettre)
  {
    var init := us[..|us| - 1];
    if u != us[|us| - 1] {
      assert u in init by {
        var i :| 0 <= i < |us| && us[i] == u;
        assert init[i] == u;
      }
      UniversitesForComplete(init, q, lettre, u);
    }
  }

  /** The universities of the search result come in knowledge-base order, and each has kept programs. */
  lemma RechercherUniversitesOrder(kb: KnowledgeBase, nom: string, serie: Option<string>)
    requires TrackHasLetter(serie)
    ensures Subseq(UniversitesOf(RechercherUniversites(Some(kb), nom, serie)), kb.universites)
    ensures forall e :: e in RechercherUniversites(Some(kb), nom, serie) ==> e.filieresRecommandees != []
  {
    var q, lettre := Lower(nom), TrackLetter(serie);
    var r := UniversitesFor(kb.universites, q, lettre);
    assert r == RechercherUniversites(Some(kb), nom, serie);
    UniversitesForOrder(kb.universites, q, lettre);
    forall e | e in r ensures e.filieresRecommandees != [] {
      UniversitesForPrograms(kb.universites, q, lettre, e);
    }
  }

  /**
   * Every program kept by the search targets the occupation, passes the
   * track filter and carries the name of the faculty that owns it.
   */
  lemma RechercherUniversitesSound(kb: KnowledgeBase, nom: string, serie: Option<string>, e: UniversiteRecommandee, p: FiliereRecommandee)
    requires TrackHasLetter(serie)
    requires e in RechercherUniversites(Some(kb), nom, serie) && p in e.filieresRecommandees
    ensures TargetsMetier(p.filiere, Lower(nom)) && TrackAccepted(p.filiere, TrackLetter(serie))
    ensures exists fac :: fac in e.universite.facultes && p.faculte == fac.nomFaculte && p.filiere in fac.filieres
  {
    var q, lettre := Lower(nom), TrackLetter(serie);
    UniversitesForPrograms(kb.universites, q, lettre, e);
    ProgramsOfFacultiesSound(e.universite.facultes, q, lettre, p);
  }

  /** Every program of the knowledge base that targets the occupation and passes the track filter is listed under its university. */
  lemma RechercherUniversitesComplete(kb: KnowledgeBase, nom: string, serie: Option<string>)
    requires TrackHasLetter(serie)
    ensures forall u, fac, f :: u in kb.universites && fac in u.facultes && f in fac.filieres
                                && Qualifies(f, Lower(nom), TrackLetter(serie))
              ==> exists e :: e in RechercherUniversites(Some(kb), nom, serie) && e.universite == u
                              && FiliereRecommandee(fac.nomFaculte, f) in e.filieresRecommandees
  {
    var q, lettre := Lower(nom), TrackLetter(serie);
    var r := UniversitesFor(kb.universites, q, lettre);
    assert r == RechercherUniversites(Some(kb), nom, serie);
    forall u, fac, f | u in kb.universites && fac in u.facultes && f in fac.filieres && Qualifies(f, q, lettre)
      ensures exists e :: e in r && e.universite == u && FiliereRecommandee(fac.nomFaculte, f) in e.filieresRecommandees
    {
      QualifyingProgramListed(kb.universites, q, lettre, u, fac, f);
      var e := UniversiteRecommandee(u, ProgramsOfFaculties(u.facultes, q, lettre));
      assert e in r && e.universite == u && FiliereRecommandee(fac.nomFaculte, f) in e.filieresRecommandees;
    }
  }

  /** A qualifying program of `fac` in `u` is listed in `u`'s entry. */
  lemma QualifyingProgramListed(us: seq<Universite>, q: string, lettre: Option<string>, u: Universite, fac: FaculteEcole, f: Filiere)
    requires u in us && fac in u.facultes && f in fac.filieres && Qualifies(f, q, lettre)
    ensures var e := UniversiteRecommandee(u, ProgramsOfFaculties(u.facultes, q, lettre));
      e in UniversitesFor(us, q, lettre) && FiliereRecommandee(fac.nomFaculte, f) in e.filieresRecommandees
  {
    ProgramsOfFacultiesComplete(u.facultes, q, lettre, fac, f);
    UniversitesForComplete(us, q, lettre, u);
  }

  /** A label that starts with the token `s[..n]` followed by whitespace has that token as its first word. */
  lemma FirstTokenOfLabel(s: string, n: nat)
    requires 0 < n < |s| && IsSpace(s[n])
    requires forall i :: 0 <= i < n ==> !IsSpace(s[i])
    ensures HasToken(s) && FirstToken(s) == s[..n]
  {
    assert !IsSpace(s[0]);
    assert LeadingSpaces(s) == 0;
    assert s[0..] == s;
  }

  /** The form's label "D (Mathématiques-Sciences Naturelles)" gives the letter "D". */
  lemma TrackLetterD()
    ensures TrackHasLetter(Some("D (Mathématiques-Sciences Naturelles)"))
    ensures TrackLetter(Some("D (Mathématiques-Sciences Naturelles)")) == Some("D")
  {
    var s := "D (Mathématiques-Sciences Naturelles)";
    assert s[0] == 'D';
    assert s[1] == ' ';
    FirstTokenOfLabel(s, 1);
    assert s[..1] == "D";
  }

  /** The form's label "A1 (Lettres-Langues)" gives the letter "A1". */
  lemma TrackLetterA1()
    ensures TrackHasLetter(Some("A1 (Lettres-Langues)"))
    ensures TrackLetter(Some("A1 (Lettres-Langues)")) == Some("A1")
  {
    var s := "A1 (Lettres-Langues)";
    assert s[0] == 'A';
    assert s[1] == '1';
    assert s[2] == ' ';
    FirstTokenOfLabel(s, 2);
    assert s[..2] == "A1";
  }

  lemma ToutesSeries()
    ensures Contains("Toutes séries", "Toutes")
  {
    var s := "Toutes séries";
    assert s[..6] == "Toutes";
    assert "Toutes" <= s;
    assert s[0..] == s;
  }

  /**
   * The track filter on the program of the example dataset: its list
   * ["D", "C"] accepts track D and rejects track A1, and a list holding
   * "Toutes séries" accepts every track.
   */
  lemma TrackFilterExample()
    ensures TrackAccepted(ExampleDoctorat(), Some("D"))
    ensures !TrackAccepted(ExampleDoctorat(), Some("A1"))
    ensures TrackAccepted(ExampleDoctorat().(seriesBacRequises := ["Toutes séries"]), Some("A1"))
  {
    ContainsTrivial("D");
    forall req | req in ["D", "C"] ensures !Contains(req, "A1") && !Contains(req, "Toutes") {
      NotContainsLonger(req, "A1");
      NotContainsLonger(req, "Toutes");
    }
    ToutesSeries();
    var f := ExampleDoctorat().(seriesBacRequises := ["Toutes séries"]);
    assert "Toutes séries" in f.seriesBacRequises;
  }

  // ---------------------------------------------------------------------------
  // get_metiers_alternatifs (lines 356-383)
  // ---------------------------------------------------------------------------

  /** `set(techniques + transversales)`. */
  function Skills(m: Metier): set<string> {
    set s | s in m.competencesTechniques + m.competencesTransversales
  }

  /** At least two skills in common. */
  predicate SharesSkills(a: Metier, b: Metier) {
    |Skills(a) * Skills(b)| >= 2
  }

  function NamedOtherThan(nom: string): Metier -> bool {
    (m: Metier) => m.nomMetier != nom
  }

  /** The first loop: the same-sector occupations other than the target. */
  function SameSector(kb: KnowledgeBase, cible: Metier): seq<Metier> {
    Filter(MetiersParSecteur(Some(kb), cible.secteurActivite), NamedOtherThan(cible.nomMetier))
  }

  /** The second loop: append each occupation sharing two skills with the target, unless already collected. */
  function AddBySkills(ms: seq<Metier>, cible: Metier, acc: seq<Metier>): seq<Metier> {
    if ms == [] then acc
    else
      var prev := AddBySkills(ms[..|ms| - 1], cible, acc);
      var m := ms[|ms| - 1];
      if m.nomMetier != cible.nomMetier && m !in prev && SharesSkills(cible, m) then prev + [m] else prev
  }

  /** `get_metiers_alternatifs` with a non-negative `limite`. */
  function MetiersAlternatifs(kb: Option<KnowledgeBase>, principal: string, limite: nat): seq<Metier> {
    if kb.None? then []
    else match RechercherMetier(kb, principal)
      case None => []
      case Some(cible) => Take(AddBySkills(kb.value.metiers, cible, SameSector(kb.value, cible)), limite)
  }

  /** The second loop only appends: what it adds shares skills with the target, is new and is not the target. */
  lemma {:induction false} AddBySkillsShape(ms: seq<Metier>, cible: Metier, acc: seq<Metier>)
    ensures var r := AddBySkills(ms, cible, acc);
      && |acc| <= |r| && r[..|acc|] == acc
      && forall k :: |acc| <= k < |r| ==>
           r[k] in ms && r[k].nomMetier != cible.nomMetier && SharesSkills(cible, r[k]) && r[k] !in r[..k]
  {
    if ms != [] {
      var init := ms[..|ms| - 1];
      AddBySkillsShape(init, cible, acc);
      var prev := AddBySkills(init, cible, acc);
      var r := AddBySkills(ms, cible, acc);
      forall k | |acc| <= k < |r|
        ensures r[k] in ms && r[k].nomMetier != cible.nomMetier && SharesSkills(cible, r[k]) && r[k] !in r[..k]
      {
        if k < |prev| {
          assert r[k] == prev[k] && r[..k] == prev[..k];
          assert prev[k] in init;
        } else {
          assert r[..k] == prev;
        }
      }
    }
  }

  /** The second loop misses no occupation that shares two skills with the target and is not named like it. */
  lemma {:induction false} AddBySkillsComplete(ms: seq<Metier>, cible: Metier, acc: seq<Metier>, m: Metier)
    requires m in ms && m.nomMetier != cible.nomMetier && SharesSkills(cible, m)
    ensures m in AddBySkills(ms, cible, acc)
  {
    var init, last := ms[..|ms| - 1], ms[|ms| - 1];
    if m != last {
      assert ms == init + [last];
      AddBySkillsComplete(init, cible, acc, m);
    }
  }

  /** An occupation the second loop would add to `acc`: named otherwise than the target, sharing two skills with it, not collected. */
  function NewSharer(cible: Metier, acc: seq<Metier>): Metier -> bool {
    (m: Metier) => m.nomMetier != cible.nomMetier && SharesSkills(cible, m) && m !in acc
  }

  /**
   * The second loop adds to `acc` the occupations of `ms` that share two
   * skills with the target and are named otherwise and not yet collected,
   * each once, at its first occurrence.
   */
  lemma {:induction false} AddBySkillsFilter(ms: seq<Metier>, cible: Metier, acc: seq<Metier>)
    ensures AddBySkills(ms, cible, acc) == acc + Distinct(Filter(ms, NewSharer(cible, acc)))
  {
    if ms != [] {
      var init, last := ms[..|ms| - 1], ms[|ms| - 1];
      AddBySkillsFilter(init, cible, acc);
      var f := Filter(init, NewSharer(cible, acc));
      if NewSharer(cible, acc)(last) {
        assert Filter(ms, NewSharer(cible, acc)) == f + [last];
        assert (f + [last])[..|f|] == f;
      } else {
        assert Filter(ms, NewSharer(cible, acc)) == f;
      }
    }
  }

  /** The second loop appends in the order of `ms`. */
  lemma {:induction false} AddBySkillsOrder(ms: seq<Metier>, cible: Metier, acc: seq<Metier>)
    ensures var r := AddBySkills(ms, cible, acc);
            |acc| <= |r| && Subseq(r[|acc|..], ms)
  {
    var r := AddBySkills(ms, cible, acc);
    if ms == [] {
      assert r[|acc|..] == [];
    } else {
      var init, last := ms[..|ms| - 1], ms[|ms| - 1];
      assert init + [last] == ms;
      AddBySkillsOrder(init, cible, acc);
      var prev := AddBySkills(init, cible, acc);
      if r == prev + [last] {
        assert r[|acc|..] == prev[|acc|..] + [last];
        SubseqSnoc(prev[|acc|..], init, last);
      } else {
        SubseqExtend(prev[|acc|..], init, last);
      }
    }
  }

  /**
   * What `get_metiers_alternatifs` returns for a target it finds:
   * `limite` occupations, or all it collects when there are fewer, none
   * named like the target; the same-sector ones first and in their order,
   * then, in knowledge-base order, ones that share at least two skills
   * with the target and were not already collected, each at its first
   * occurrence, so the limit keeps the first of them; when the limit cuts
   * nothing, every occupation sharing two skills with the target is there.
   */
  lemma MetiersAlternatifsSpec(kb: KnowledgeBase, principal: string, limite: nat)
    requires RechercherMetier(Some(kb), principal).Some?
    ensures var cible := RechercherMetier(Some(kb), principal).value;
            var r := MetiersAlternatifs(Some(kb), principal, limite);
            var full := AddBySkills(kb.metiers, cible, SameSector(kb, cible));
            var k := |SameSector(kb, cible)|;
            var n := if k < limite then k else limite;
      && |r| == (if |full| < limite then |full| else limite)
      && (forall i :: 0 <= i < |r| ==> r[i] in kb.metiers && r[i].nomMetier != cible.nomMetier)
      && (forall i :: 0 <= i < |r| && i < k ==> Contains(Lower(r[i].secteurActivite), Lower(cible.secteurActivite)))
      && (forall i :: k <= i < |r| ==> SharesSkills(cible, r[i]) && r[i] !in r[..i])
      && n <= |r| && r[..n] == SameSector(kb, cible)[..n]
      && Subseq(r[n..], kb.metiers)
      && r == Take(SameSector(kb, cible) + Distinct(Filter(kb.metiers, NewSharer(cible, SameSector(kb, cible)))), limite)
      && (|full| <= limite ==>
            forall m :: m in kb.metiers && m.nomMetier != cible.nomMetier && SharesSkills(cible, m) ==> m in r)
  {
    var cible := RechercherMetier(Some(kb), principal).value;
    assert MetiersAlternatifs(Some(kb), principal, limite) == Take(AddBySkills(kb.metiers, cible, SameSector(kb, cible)), limite);
    AlternativesOf(kb, cible, limite);
    AlternativesPrefix(kb, cible, limite);
    AlternativesSkillOrder(kb, cible, limite);
    AlternativesComplete(kb, cible, limite);
    AddBySkillsFilter(kb.metiers, cible, SameSector(kb, cible));
  }

  /** `MetiersAlternatifsSpec` for the target once found. */
  lemma AlternativesOf(kb: KnowledgeBase, cible: Metier, limite: nat)
    ensures var sect := SameSector(kb, cible);
            var full := AddBySkills(kb.metiers, cible, sect);
            var r := Take(full, limite);
            var k := |sect|;
      && (forall i :: 0 <= i < |r| ==> r[i] in kb.metiers && r[i].nomMetier != cible.nomMetier)
      && (forall i :: 0 <= i < |r| && i < k ==> Contains(Lower(r[i].secteurActivite), Lower(cible.secteurActivite)))
      && (forall i :: k <= i < |r| ==> SharesSkills(cible, r[i]) && r[i] !in r[..i])
  {
    var sect := SameSector(kb, cible);
    var full := AddBySkills(kb.metiers, cible, sect);
    AddBySkillsShape(kb.metiers, cible, sect);
    MetiersParSecteurFilter(kb, cible.secteurActivite);
    var r := Take(full, limite);
    assert r <= full;
    forall i | 0 <= i < |r| ensures r[i] in kb.metiers && r[i].nomMetier != cible.nomMetier {
      if i < |sect| {
        assert r[i] == sect[i] && sect[i] in sect;
      }
    }
    forall i | 0 <= i < |r| && i < |sect|
      ensures Contains(Lower(r[i].secteurActivite), Lower(cible.secteurActivite))
    {
      assert r[i] == sect[i] && sect[i] in sect;
    }
    forall i | |sect| <= i < |r| ensures SharesSkills(cible, r[i]) && r[i] !in r[..i] {
      assert r[..i] == full[..i];
    }
  }

  /** The same-sector occupations lead, in order. */
  lemma AlternativesPrefix(kb: KnowledgeBase, cible: Metier, limite: nat)
    ensures var sect := SameSector(kb, cible);
            var r := Take(AddBySkills(kb.metiers, cible, sect), limite);
            var n := if |sect| < limite then |sect| else limite;
            n <= |r| && r[..n] == sect[..n]
  {
    var sect := SameSector(kb, cible);
    var full := AddBySkills(kb.metiers, cible, sect);
    AddBySkillsShape(kb.metiers, cible, sect);
    var r := Take(full, limite);
    var n := if |sect| < limite then |sect| else limite;
    assert r[..n] == full[..n] == sect[..n];
  }

  /** After the same-sector ones, the alternatives follow knowledge-base order. */
  lemma AlternativesSkillOrder(kb: KnowledgeBase, cible: Metier, limite: nat)
    ensures var sect := SameSector(kb, cible);
            var r := Take(AddBySkills(kb.metiers, cible, sect), limite);
            var n := if |sect| < limite then |sect| else limite;
            n <= |r| && Subseq(r[n..], kb.metiers)
  {
    var sect := SameSector(kb, cible);
    var full := AddBySkills(kb.metiers, cible, sect);
    AddBySkillsOrder(kb.metiers, cible, sect);
    var r := Take(full, limite);
    if |sect| < limite {
      assert r[|sect|..] <= full[|sect|..];
      PrefixIsSubseq(r[|sect|..], full[|sect|..]);
      SubseqTrans(r[|sect|..], full[|sect|..], kb.metiers);
    } else {
      assert r[limite..] == [];
    }
  }

  /** Nothing sharing two skills with the target is lost unless the limit cuts it. */
  lemma AlternativesComplete(kb: KnowledgeBase, cible: Metier, limite: nat)
    ensures var full := AddBySkills(kb.metiers, cible, SameSector(kb, cible));
            |full| <= limite ==>
              forall m :: m in kb.metiers && m.nomMetier != cible.nomMetier && SharesSkills(cible, m) ==> m in Take(full, limite)
  {
    var sect := SameSector(kb, cible);
    var full := AddBySkills(kb.metiers, cible, sect);
    if |full| <= limite {
      assert Take(full, limite) == full;
      forall m | m in kb.metiers && m.nomMetier != cible.nomMetier && SharesSkills(cible, m) ensures m in full {
        AddBySkillsComplete(kb.metiers, cible, sect, m);
      }
    }
  }

  /** An unknown target, or no knowledge base, gives no alternatives. */
  lemma MetiersAlternatifsNotFound(kb: Option<KnowledgeBase>, principal: string, limite: nat)
    requires RechercherMetier(kb, principal).None?
    ensures MetiersAlternatifs(kb, principal, limite) == []
  {
  }

  // ---------------------------------------------------------------------------
  // get_statistics (lines 385-403)
  // ---------------------------------------------------------------------------

  datatype Statistiques = Statistiques(
    nbMetiers: nat, nbUniversites: nat, nbSecteurs: nat, nbCompetences: nat, nbFormations: nat, nbFilieres: nat)

  /** The programs of a list of faculties, in order. */
  function ProgramsOfAll(facs: seq<FaculteEcole>): seq<Filiere> {
    if facs == [] then [] else ProgramsOfAll(facs[..|facs| - 1]) + facs[|facs| - 1].filieres
  }

  /** Every program of every faculty of every university, in order. */
  function AllPrograms(us: seq<Universite>): seq<Filiere> {
    if us == [] then [] else AllPrograms(us[..|us| - 1]) + ProgramsOfAll(us[|us| - 1].facultes)
  }

  /** `sum(len(f.filieres) for u in universites for f in u.facultes_ecoles)`. */
  function SumPrograms(us: seq<Universite>): nat {
    if us == [] then 0 else SumFacultyPrograms(us[0].facultes) + SumPrograms(us[1..])
  }

  function SumFacultyPrograms(facs: seq<FaculteEcole>): nat {
    if facs == [] then 0 else |facs[0].filieres| + SumFacultyPrograms(facs[1..])
  }

  function GetStatistics(kb: Option<KnowledgeBase>): Option<Statistiques> {
    match kb
    case None => None
    case Some(b) =>
      Some(Statistiques(|b.metiers|, |b.universites|, |b.secteursPorteurs|, |b.competences|,
                        |b.formationsGenerales|, SumPrograms(b.universites)))
  }

  lemma {:induction false} ProgramsOfAllAppend(a: seq<FaculteEcole>, b: seq<FaculteEcole>)
    ensures ProgramsOfAll(a + b) == ProgramsOfAll(a) + ProgramsOfAll(b)
    decreases |b|
  {
    if b == [] {
      assert a + b == a;
    } else {
      ConcatLast(a, b);
      ProgramsOfAllAppend(a, b[..|b| - 1]);
    }
  }

  lemma ProgramsOfAllStep(facs: seq<FaculteEcole>, j: nat)
    requires j < |facs|
    ensures ProgramsOfAll(facs[..j + 1]) == ProgramsOfAll(facs[..j]) + facs[j].filieres
  {
    assert facs[..j + 1][..j] == facs[..j];
  }

  lemma AllProgramsStep(us: seq<Universite>, i: nat)
    requires i < |us|
    ensures AllPrograms(us[..i + 1]) == AllPrograms(us[..i]) + ProgramsOfAll(us[i].facultes)
  {
    assert us[..i + 1][..i] == us[..i];
  }

  lemma {:induction false} AllProgramsAppend(a: seq<Universite>, b: seq<Universite>)
    ensures AllPrograms(a + b) == AllPrograms(a) + AllPrograms(b)
    decreases |b|
  {
    if b == [] {
      assert a + b == a;
    } else {
      ConcatLast(a, b);
      AllProgramsAppend(a, b[..|b| - 1]);
    }
  }

  lemma {:induction false} SumFacultyProgramsCounts(facs: seq<FaculteEcole>)
    ensures SumFacultyPrograms(facs) == |ProgramsOfAll(facs)|
  {
    if facs != [] {
      SumFacultyProgramsCounts(facs[1..]);
      ProgramsOfAllAppend([facs[0]], facs[1..]);
      assert [facs[0]] + facs[1..] == facs;
      assert ProgramsOfAll([facs[0]]) == facs[0].filieres by {
        assert [facs[0]][..0] == [];
      }
    }
  }

  /** `nb_filieres` counts every program of every faculty of every university exactly once. */
  lemma {:induction false} SumProgramsCounts(us: seq<Universite>)
    ensures SumPrograms(us) == |AllPrograms(us)|
  {
    if us != [] {
      SumProgramsCounts(us[1..]);
      SumFacultyProgramsCounts(us[0].facultes);
      AllProgramsAppend([us[0]], us[1..]);
      assert [us[0]] + us[1..] == us;
      assert AllPrograms([us[0]]) == ProgramsOfAll(us[0].facultes) by {
        assert [us[0]][..0] == [];
      }
    }
  }

  /** The statistics are absent exactly when no knowledge base is loaded, and count the collections. */
  lemma GetStatisticsSpec(kb: Option<KnowledgeBase>)
    ensures GetStatistics(kb).None? <==> kb.None?
    ensures kb.Some? ==> var s := GetStatistics(kb).value;
      && s.nbMetiers == |kb.value.metiers| && s.nbUniversites == |kb.value.universites|
      && s.nbSecteurs == |kb.value.secteursPorteurs| && s.nbCompetences == |kb.value.competences|
      && s.nbFormations == |kb.value.formationsGenerales|
      && s.nbFilieres == |AllPrograms(kb.value.universites)|
  {
    if kb.Some? {
      SumProgramsCounts(kb.value.universites);
    }
  }

  // ---------------------------------------------------------------------------
  // valider_base_connaissances (lines 405-433)
  // ---------------------------------------------------------------------------

  /** The warnings, as data rather than their French message text. */
  datatype Avertissement =
    | AucunMetier
    | AucuneUniversite
    | MetierNonDefini(metierVise: string, filiere: string)

  datatype Erreur = BaseNonChargee

  datatype Rapport = Rapport(avertissements: seq<Avertissement>, erreurs: seq<Erreur>)

  /** `{metier.nom_metier for metier in metiers}`. */
  function NomsMetiers(kb: KnowledgeBase): set<string> {
    set m | m in kb.metiers :: m.nomMetier
  }

  /** One warning per target of `vises` that is not an occupation name. */
  function UndefinedTargets(vises: seq<string>, nomFiliere: string, noms: set<string>): seq<Avertissement> {
    if vises == [] then []
    else
      var v := vises[|vises| - 1];
      UndefinedTargets(vises[..|vises| - 1], nomFiliere, noms)
        + (if v !in noms then [MetierNonDefini(v, nomFiliere)] else [])
  }

  /** One warning per (program, target) pair whose target is not an occupation name. */
  function UndefinedReferences(fils: seq<Filiere>, noms: set<string>): seq<Avertissement> {
    if fils == [] then []
    else
      var f := fils[|fils| - 1];
      UndefinedReferences(fils[..|fils| - 1], noms) + UndefinedTargets(f.metiersVises, f.nomFiliere, noms)
  }

  /** A target name is unknown when no occupation carries it. */
  function Unknown(noms: set<string>): string -> bool {
    t => t !in noms
  }

  /** How many (program, target) pairs of `fils` name an unknown target, repetitions included. */
  function UnknownTargetCount(fils: seq<Filiere>, noms: set<string>): nat {
    if fils == [] then 0
    else UnknownTargetCount(fils[..|fils| - 1], noms) + |Filter(fils[|fils| - 1].metiersVises, Unknown(noms))|
  }

  /** How many times the programs named `nomFiliere` list `v` among their targets. */
  function TargetOccurrences(fils: seq<Filiere>, nomFiliere: string, v: string): nat {
    if fils == [] then 0
    else
      var f := fils[|fils| - 1];
      TargetOccurrences(fils[..|fils| - 1], nomFiliere, v)
        + (if f.nomFiliere == nomFiliere then multiset(f.metiersVises)[v] else 0)
  }

  function EmptinessWarnings(kb: KnowledgeBase): seq<Avertissement> {
    (if kb.metiers == [] then [AucunMetier] else []) + (if kb.universites == [] then [AucuneUniversite] else [])
  }

  /** `valider_base_connaissances`. */
  function Valider(kb: Option<KnowledgeBase>): Rapport {
    match kb
    case None => Rapport([], [BaseNonChargee])
    case Some(b) => Rapport(EmptinessWarnings(b) + UndefinedReferences(AllPrograms(b.universites), NomsMetiers(b)), [])
  }

  // One step of each of the four nested loops of the validation, stated
  // on the warnings collected so far (`w`).

  lemma TargetStep(w: seq<Avertissement>, vises: seq<string>, nomFiliere: string, noms: set<string>, l: nat)
    requires l < |vises|
    ensures w + UndefinedTargets(vises[..l], nomFiliere, noms)
              + (if vises[l] !in noms then [MetierNonDefini(vises[l], nomFiliere)] else [])
            == w + UndefinedTargets(vises[..l + 1], nomFiliere, noms)
  {
    assert vises[..l + 1][..l] == vises[..l];
  }

  lemma ProgramStep(w: seq<Avertissement>, fils: seq<Filiere>, noms: set<string>, k: nat)
    requires k < |fils|
    ensures w + UndefinedReferences(fils[..k], noms) + UndefinedTargets(fils[k].metiersVises, fils[k].nomFiliere, noms)
            == w + UndefinedReferences(fils[..k + 1], noms)
  {
    assert fils[..k + 1][..k] == fils[..k];
  }

  lemma FacultyStep(w: seq<Avertissement>, facs: seq<FaculteEcole>, j: nat, noms: set<string>)
    requires j < |facs|
    ensures w + UndefinedReferences(ProgramsOfAll(facs[..j]), noms) + UndefinedReferences(facs[j].filieres, noms)
            == w + UndefinedReferences(ProgramsOfAll(facs[..j + 1]), noms)
  {
    ProgramsOfAllStep(facs, j);
    UndefinedReferencesAppend(ProgramsOfAll(facs[..j]), facs[j].filieres, noms);
  }

  lemma UniversityStep(w: seq<Avertissement>, us: seq<Universite>, i: nat, noms: set<string>)
    requires i < |us|
    ensures w + UndefinedReferences(AllPrograms(us[..i]), noms) + UndefinedReferences(ProgramsOfAll(us[i].facultes), noms)
            == w + UndefinedReferences(AllPrograms(us[..i + 1]), noms)
  {
    AllProgramsStep(us, i);
    UndefinedReferencesAppend(AllPrograms(us[..i]), ProgramsOfAll(us[i].facultes), noms);
  }

  lemma {:induction false} UndefinedReferencesAppend(a: seq<Filiere>, b: seq<Filiere>, noms: set<string>)
    ensures UndefinedReferences(a + b, noms) == UndefinedReferences(a, noms) + UndefinedReferences(b, noms)
    decreases |b|
  {
    if b == [] {
      assert a + b == a;
    } else {
      var init, f := b[..|b| - 1], b[|b| - 1];
      ConcatLast(a, b);
      UndefinedReferencesAppend(a, init, noms);
    }
  }

  lemma {:induction false} UndefinedTargetsSpec(vises: seq<string>, nomFiliere: string, noms: set<string>, w: Avertissement)
    ensures w in UndefinedTargets(vises, nomFiliere, noms)
            <==> w.MetierNonDefini? && w.filiere == nomFiliere && w.metierVise in vises && w.metierVise !in noms
  {
    if vises != [] {
      var init := vises[..|vises| - 1];
      UndefinedTargetsSpec(init, nomFiliere, noms, w);
      assert vises == init + [vises[|vises| - 1]];
    }
  }

  /** One warning per occurrence of an unknown target. */
  lemma {:induction false} UndefinedTargetsLength(vises: seq<string>, nomFiliere: string, noms: set<string>)
    ensures |UndefinedTargets(vises, nomFiliere, noms)| == |Filter(vises, Unknown(noms))|
  {
    if vises != [] {
      UndefinedTargetsLength(vises[..|vises| - 1], nomFiliere, noms);
    }
  }

  /** The warnings about `v` in `n` count the occurrences of `v` when it is unknown and `n` is the program. */
  lemma {:induction false} UndefinedTargetsCount(vises: seq<string>, nomFiliere: string, noms: set<string>, v: string, n: string)
    ensures multiset(UndefinedTargets(vises, nomFiliere, noms))[MetierNonDefini(v, n)]
            == if n == nomFiliere && v !in noms then multiset(vises)[v] else 0
  {
    if vises != [] {
      var init, t := vises[..|vises| - 1], vises[|vises| - 1];
      UndefinedTargetsCount(init, nomFiliere, noms, v, n);
      var prev := UndefinedTargets(init, nomFiliere, noms);
      var extra := if t !in noms then [MetierNonDefini(t, nomFiliere)] else [];
      assert UndefinedTargets(vises, nomFiliere, noms) == prev + extra;
      assert multiset(prev + extra) == multiset(prev) + multiset(extra);
      assert multiset(extra)[MetierNonDefini(v, n)] == if t !in noms && t == v && nomFiliere == n then 1 else 0;
      MultisetSnoc(vises);
    }
  }

  /** Over a list of programs, the warnings count the (program, unknown target) pairs. */
  lemma {:induction false} UndefinedReferencesCount(fils: seq<Filiere>, noms: set<string>, v: string, n: string)
    ensures |UndefinedReferences(fils, noms)| == UnknownTargetCount(fils, noms)
    ensures multiset(UndefinedReferences(fils, noms))[MetierNonDefini(v, n)]
            == if v in noms then 0 else TargetOccurrences(fils, n, v)
  {
    if fils != [] {
      var init, f := fils[..|fils| - 1], fils[|fils| - 1];
      UndefinedReferencesCount(init, noms, v, n);
      UndefinedTargetsLength(f.metiersVises, f.nomFiliere, noms);
      UndefinedTargetsCount(f.metiersVises, f.nomFiliere, noms, v, n);
    }
  }

  lemma {:induction false} UndefinedReferencesSpec(fils: seq<Filiere>, noms: set<string>, v: string, nomFiliere: string)
    ensures MetierNonDefini(v, nomFiliere) in UndefinedReferences(fils, noms)
            <==> v !in noms && exists f :: f in fils && f.nomFiliere == nomFiliere && v in f.metiersVises
  {
    if fils != [] {
      var init, f := fils[..|fils| - 1], fils[|fils| - 1];
      UndefinedReferencesSpec(init, noms, v, nomFiliere);
      UndefinedTargetsSpec(f.metiersVises, f.nomFiliere, noms, MetierNonDefini(v, nomFiliere));
      assert fils == init + [f];
      if exists g :: g in fils && g.nomFiliere == nomFiliere && v in g.metiersVises {
        var g :| g in fils && g.nomFiliere == nomFiliere && v in g.metiersVises;
        if g != f {
          assert g in init;
        }
      }
    }
  }

  lemma {:induction false} ProgramsOfAllMember(facs: seq<FaculteEcole>, f: Filiere)
    ensures f in ProgramsOfAll(facs) <==> exists fac :: fac in facs && f in fac.filieres
  {
    if facs != [] {
      var init, last := facs[..|facs| - 1], facs[|facs| - 1];
      ProgramsOfAllMember(init, f);
      assert facs == init + [last];
      if exists fac :: fac in facs && f in fac.filieres {
        var fac :| fac in facs && f in fac.filieres;
        if fac != last {
          assert fac in init;
        }
      }
    }
  }

  lemma {:induction false} AllProgramsMember(us: seq<Universite>, f: Filiere)
    ensures f in AllPrograms(us) <==> exists u, fac :: u in us && fac in u.facultes && f in fac.filieres
  {
    if us != [] {
      var init, last := us[..|us| - 1], us[|us| - 1];
      AllProgramsMember(init, f);
      ProgramsOfAllMember(last.facultes, f);
      assert us == init + [last];
      if exists u, fac :: u in us && fac in u.facultes && f in fac.filieres {
        var u, fac :| u in us && fac in u.facultes && f in fac.filieres;
        if u != last {
          assert u in init;
        }
      }
    }
  }

  /**
   * Validation of a loaded base reports no error; it warns once about an
   * empty occupation list and once about an empty university list, and
   * warns about a target name of a program exactly when no occupation has
   * that name (compared case-sensitively), once per occurrence of the
   * target in a program of that name. Nothing else is warned about.
   */
  lemma ValiderSpec(kb: KnowledgeBase, v: string, nomFiliere: string)
    ensures Valider(Some(kb)).erreurs == []
    ensures AucunMetier in Valider(Some(kb)).avertissements <==> kb.metiers == []
    ensures AucuneUniversite in Valider(Some(kb)).avertissements <==> kb.universites == []
    ensures MetierNonDefini(v, nomFiliere) in Valider(Some(kb)).avertissements
            <==> && (forall m :: m in kb.metiers ==> m.nomMetier != v)
                 && exists u, fac, f :: u in kb.universites && fac in u.facultes && f in fac.filieres
                                        && f.nomFiliere == nomFiliere && v in f.metiersVises
    ensures var w := multiset(Valider(Some(kb)).avertissements);
            && w[AucunMetier] == (if kb.metiers == [] then 1 else 0)
            && w[AucuneUniversite] == (if kb.universites == [] then 1 else 0)
            && w[MetierNonDefini(v, nomFiliere)]
               == if v in NomsMetiers(kb) then 0 else TargetOccurrences(AllPrograms(kb.universites), nomFiliere, v)
    ensures |Valider(Some(kb)).avertissements|
            == (if kb.metiers == [] then 1 else 0) + (if kb.universites == [] then 1 else 0)
               + UnknownTargetCount(AllPrograms(kb.universites), NomsMetiers(kb))
  {
    var noms := NomsMetiers(kb);
    var undefined := UndefinedReferences(AllPrograms(kb.universites), noms);
    forall w | w in undefined ensures w.MetierNonDefini? {
      UndefinedReferencesKinds(AllPrograms(kb.universites), noms, w);
    }
    assert AucunMetier !in undefined && AucuneUniversite !in undefined;
    UndefinedWarningSpec(kb, v, nomFiliere);
  }

  /**
   * The reference check warns about `v` in `nomFiliere` exactly when a
   * program of that name targets `v` and no occupation is named `v`, as
   * many times as such programs list `v`; it warns once per (program,
   * unknown target) pair in all.
   */
  lemma UndefinedWarningSpec(kb: KnowledgeBase, v: string, nomFiliere: string)
    ensures MetierNonDefini(v, nomFiliere) in UndefinedReferences(AllPrograms(kb.universites), NomsMetiers(kb))
            <==> && (forall m :: m in kb.metiers ==> m.nomMetier != v)
                 && exists u, fac, f :: u in kb.universites && fac in u.facultes && f in fac.filieres
                                        && f.nomFiliere == nomFiliere && v in f.metiersVises
    ensures multiset(UndefinedReferences(AllPrograms(kb.universites), NomsMetiers(kb)))[MetierNonDefini(v, nomFiliere)]
            == if v in NomsMetiers(kb) then 0 else TargetOccurrences(AllPrograms(kb.universites), nomFiliere, v)
    ensures |UndefinedReferences(AllPrograms(kb.universites), NomsMetiers(kb))|
            == UnknownTargetCount(AllPrograms(kb.universites), NomsMetiers(kb))
  {
    var noms := NomsMetiers(kb);
    UndefinedReferencesCount(AllPrograms(kb.universites), noms, v, nomFiliere);
    UndefinedReferencesSpec(AllPrograms(kb.universites), noms, v, nomFiliere);
    assert v !in noms <==> forall m :: m in kb.metiers ==> m.nomMetier != v;
    if exists f :: f in AllPrograms(kb.universites) && f.nomFiliere == nomFiliere && v in f.metiersVises {
      var f :| f in AllPrograms(kb.universites) && f.nomFiliere == nomFiliere && v in f.metiersVises;
      AllProgramsMember(kb.universites, f);
    }
    if exists u, fac, f :: u in kb.universites && fac in u.facultes && f in fac.filieres
                           && f.nomFiliere == nomFiliere && v in f.metiersVises {
      var u, fac, f :| u in kb.universites && fac in u.facultes && f in fac.filieres
                       && f.nomFiliere == nomFiliere && v in f.metiersVises;
      AllProgramsMember(kb.universites, f);
    }
  }

  lemma {:induction false} UndefinedReferencesKinds(fils: seq<Filiere>, noms: set<string>, w: Avertissement)
    requires w in UndefinedReferences(fils, noms)
    ensures w.MetierNonDefini?
  {
    var init, f := fils[..|fils| - 1], fils[|fils| - 1];
    if w in UndefinedReferences(init, noms) {
      UndefinedReferencesKinds(init, noms, w);
    } else {
      UndefinedTargetsSpec(f.metiersVises, f.nomFiliere, noms, w);
    }
  }

  /** Without a knowledge base there is exactly one error and no warning; every query is empty. */
  lemma NotLoaded(nom: string, serie: Option<string>, limite: nat)
    requires TrackHasLetter(serie)
    ensures Valider(None) == Rapport([], [BaseNonChargee])
    ensures RechercherMetier(None, nom).None? && MetiersParSecteur(None, nom) == []
    ensures RechercherUniversites(None, nom, serie) == [] && MetiersAlternatifs(None, nom, limite) == []
    ensures GetStatistics(None).None?
  {
  }

  // ---------------------------------------------------------------------------
  // The loader object
  // ---------------------------------------------------------------------------

  /**
   * The three inner loops of `valider_base_connaissances` (lines 424-431):
   * append a warning for each target of each program of each faculty of
   * one university that is not an occupation name.
   */
  method AppendUndefinedFaculties(w: seq<Avertissement>, facs: seq<FaculteEcole>, noms: set<string>) returns (r: seq<Avertissement>)
    ensures r == w + UndefinedReferences(ProgramsOfAll(facs), noms)
  {
    r := w;
    assert facs[..0] == [];
    var j := 0;
    while j < |facs|
      invariant 0 <= j <= |facs|
      invariant r == w + UndefinedReferences(ProgramsOfAll(facs[..j]), noms)
    {
      r := AppendUndefinedReferences(r, facs[j].filieres, noms);
      FacultyStep(w, facs, j, noms);
      j := j + 1;
    }
    assert facs[..j] == facs;
  }

  /**
   * The two inner loops of `valider_base_connaissances` (lines 425-431):
   * append a warning for each target of each program of one faculty that
   * is not an occupation name.
   */
  method AppendUndefinedReferences(w: seq<Avertissement>, fils: seq<Filiere>, noms: set<string>) returns (r: seq<Avertissement>)
    ensures r == w + UndefinedReferences(fils, noms)
  {
    r := w;
    assert fils[..0] == [];
    var k := 0;
    while k < |fils|
      invariant 0 <= k <= |fils|
      invariant r == w + UndefinedReferences(fils[..k], noms)
    {
      var vises := fils[k].metiersVises;
      ghost var atProgram := r;
      assert vises[..0] == [];
      var l := 0;
      while l < |vises|
        invariant 0 <= l <= |vises|
        invariant r == atProgram + UndefinedTargets(vises[..l], fils[k].nomFiliere, noms)
      {
        if vises[l] !in noms {
          r := r + [MetierNonDefini(vises[l], fils[k].nomFiliere)];
        }
        TargetStep(atProgram, vises, fils[k].nomFiliere, noms, l);
        l := l + 1;
      }
      assert vises[..l] == vises;
      ProgramStep(w, fils, noms, k);
      k := k + 1;
    }
    assert fils[..k] == fils;
  }

  /**
   * The faculty loop of `rechercher_universites_pour_metier` (lines
   * 322-345): the qualifying programs of one university, in order.
   */
  method QualifyingPrograms(facs: seq<FaculteEcole>, q: string, lettre: Option<string>)
    returns (compatibles: seq<FiliereRecommandee>)
    ensures compatibles == ProgramsOfFaculties(facs, q, lettre)
  {
    compatibles := [];
    var j := 0;
    while j < |facs|
      invariant 0 <= j <= |facs|
      invariant compatibles == ProgramsOfFaculties(facs[..j], q, lettre)
    {
      compatibles := AppendQualifyingPrograms(compatibles, facs[j], q, lettre);
      ProgramsOfFacultiesStep(facs, q, lettre, j);
      j := j + 1;
    }
    assert facs[..j] == facs;
  }

  /**
   * The innermost loop of `rechercher_universites_pour_metier` (lines
   * 324-345): append the programs of one faculty that target the
   * occupation and pass the track filter, tagged with the faculty's name.
   */
  method AppendQualifyingPrograms(compatibles: seq<FiliereRecommandee>, fac: FaculteEcole, q: string, lettre: Option<string>)
    returns (r: seq<FiliereRecommandee>)
    ensures r == compatibles + ProgramsOf(fac.filieres, fac.nomFaculte, q, lettre)
  {
    var fils := fac.filieres;
    r := compatibles;
    var k := 0;
    while k < |fils|
      invariant 0 <= k <= |fils|
      invariant r == compatibles + ProgramsOf(fils[..k], fac.nomFaculte, q, lettre)
    {
      var f := fils[k];
      var metierCompatible := exists v :: v in f.metiersVises && Contains(Lower(v), q);
      if metierCompatible {
        var serieCompatible := true;
        if lettre.Some? && f.seriesBacRequises != [] {
          serieCompatible := (exists req :: req in f.seriesBacRequises && Contains(req, lettre.value))
                          || (exists req :: req in f.seriesBacRequises && Contains(req, "Toutes"));
        }
        if serieCompatible {
          r := r + [FiliereRecommandee(fac.nomFaculte, f)];
        }
      }
      ProgramsOfStep(fils, fac.nomFaculte, q, lettre, k);
      k := k + 1;
    }
    assert fils[..k] == fils;
  }

  /**
   * The second loop of `get_metiers_alternatifs` (lines 372-381): append
   * each occupation other than the target that shares at least two skills
   * with it and is not yet collected.
   */
  method AppendBySkills(alternatives: seq<Metier>, ms: seq<Metier>, t: Metier) returns (r: seq<Metier>)
    ensures r == AddBySkills(ms, t, alternatives)
  {
    r := alternatives;
    var j := 0;
    while j < |ms|
      invariant 0 <= j <= |ms|
      invariant r == AddBySkills(ms[..j], t, alternatives)
    {
      var m := ms[j];
      if m.nomMetier != t.nomMetier && m !in r {
        var communes := Skills(t) * Skills(m);
        if |communes| >= 2 {
          r := r + [m];
        }
      }
      assert ms[..j + 1][..j] == ms[..j];
      j := j + 1;
    }
    assert ms[..j] == ms;
  }

  class KnowledgeBaseLoader {
    /** `self.knowledge_base`; `None` stands for a loader whose base was never assigned. */
    var knowledgeBase: Option<KnowledgeBase>

    /** `__init__`: the file has been located and read into `source`; then the base is loaded. */
    constructor (source: Source)
      ensures knowledgeBase == Some(Loaded(source))
    {
      knowledgeBase := None;
      new;
      ChargerBaseConnaissances(source);
    }

    /**
     * `charger_base_connaissances`: an unreadable or undecodable file gives
     * an empty base; a decoded one is validated as a whole and, failing
     * that, loaded entry by entry.
     */
    method ChargerBaseConnaissances(source: Source)
      modifies this
      ensures knowledgeBase == Some(Loaded(source))
    {
      var kb := LoadSource(source);
      knowledgeBase := Some(kb);
    }

    /** `rechercher_metiers_par_secteur`. */
    method RechercherMetiersParSecteur(secteur: string) returns (r: seq<Metier>)
      ensures r == MetiersParSecteur(knowledgeBase, secteur)
    {
      if knowledgeBase.None? {
        return [];
      }
      var q := Lower(secteur);
      var ms := knowledgeBase.value.metiers;
      r := [];
      var i := 0;
      while i < |ms|
        invariant 0 <= i <= |ms|
        invariant r == Filter(ms[..i], InSector(q))
      {
        if Contains(Lower(ms[i].secteurActivite), q) {
          r := r + [ms[i]];
        }
        FilterStep(ms, InSector(q), i);
        i := i + 1;
      }
      assert ms[..i] == ms;
    }

    /** `rechercher_universites_pour_metier`. */
    method RechercherUniversitesPourMetier(nom: string, serie: Option<string>) returns (r: seq<UniversiteRecommandee>)
      requires TrackHasLetter(serie)
      ensures r == RechercherUniversites(knowledgeBase, nom, serie)
    {
      if knowledgeBase.None? {
        return [];
      }
      var q, lettre := Lower(nom), TrackLetter(serie);
      var us := knowledgeBase.value.universites;
      r := [];
      var i := 0;
      while i < |us|
        invariant 0 <= i <= |us|
        invariant r == UniversitesFor(us[..i], q, lettre)
      {
        var compatibles := QualifyingPrograms(us[i].facultes, q, lettre);
        if compatibles != [] {
          r := r + [UniversiteRecommandee(us[i], compatibles)];
        }
        UniversitesForStep(us, q, lettre, i);
        i := i + 1;
      }
      assert us[..i] == us;
    }

    /** `get_metiers_alternatifs`. */
    method GetMetiersAlternatifs(principal: string, limite: nat) returns (r: seq<Metier>)
      ensures r == MetiersAlternatifs(knowledgeBase, principal, limite)
    {
      if knowledgeBase.None? {
        return [];
      }
      var cible := RechercherMetier(knowledgeBase, principal);
      if cible.None? {
        return [];
      }
      var t := cible.value;
      var alternatives: seq<Metier> := [];
      var memeSecteur := RechercherMetiersParSecteur(t.secteurActivite);
      var i := 0;
      while i < |memeSecteur|
        invariant 0 <= i <= |memeSecteur|
        invariant alternatives == Filter(memeSecteur[..i], NamedOtherThan(t.nomMetier))
      {
        if memeSecteur[i].nomMetier != t.nomMetier {
          alternatives := alternatives + [memeSecteur[i]];
        }
        FilterStep(memeSecteur, NamedOtherThan(t.nomMetier), i);
        i := i + 1;
      }
      assert memeSecteur[..i] == memeSecteur;
      alternatives := AppendBySkills(alternatives, knowledgeBase.value.metiers, t);
      r := if |alternatives| <= limite then alternatives else alternatives[..limite];
    }

    /** `valider_base_connaissances`. */
    method ValiderBaseConnaissances() returns (r: Rapport)
      ensures r == Valider(knowledgeBase)
    {
      if knowledgeBase.None? {
        return Rapport([], [BaseNonChargee]);
      }
      var kb := knowledgeBase.value;
      var avertissements: seq<Avertissement> := [];
      if kb.metiers == [] {
        avertissements := avertissements + [AucunMetier];
      }
      if kb.universites == [] {
        avertissements := avertissements + [AucuneUniversite];
      }
      assert avertissements == EmptinessWarnings(kb);
      var noms := NomsMetiers(kb);
      var head := avertissements;
      var us := kb.universites;
      var i := 0;
      while i < |us|
        invariant 0 <= i <= |us|
        invariant avertissements == head + UndefinedReferences(AllPrograms(us[..i]), noms)
      {
        avertissements := AppendUndefinedFaculties(avertissements, us[i].facultes, noms);
        UniversityStep(head, us, i, noms);
        i := i + 1;
      }
      assert us[..i] == us;
      r := Rapport(avertissements, []);
    }
  }
}
