/**
 * The engine on the example dataset the loader writes when the
 * knowledge-base file is missing (one occupation, "Médecin"; one
 * university, UAC, with one medical doctorate accepting tracks D and C):
 * a future bachelor of track D aiming at "Médecin", and one aiming at an
 * occupation the dataset does not know.
 */
module Scenarios {
  import opened Wrappers
  import opened Records
  import opened Text
  import opened Seqs
  import opened KbLoader
  import opened Tracks
  import opened Ranking
  import opened Recommendation

  const SerieD: Option<string> := Some("D (Mathématiques-Sciences Naturelles)")

  /** The entry the search returns for the example dataset: UAC with its doctorate. */
  function UacEntry(): UniversiteRecommandee {
    UniversiteRecommandee(ExampleUac(), [FiliereRecommandee("Faculté des Sciences de la Santé", ExampleDoctorat())])
  }

  // The searches over one program, one faculty and one university.

  lemma ProgramsOfOne(f: Filiere, faculte: string, q: string, lettre: Option<string>)
    ensures ProgramsOf([f], faculte, q, lettre) == if Qualifies(f, q, lettre) then [FiliereRecommandee(faculte, f)] else []
  {
    assert [f][..0] == [];
  }

  lemma ProgramsOfFacultiesOne(fac: FaculteEcole, q: string, lettre: Option<string>)
    ensures ProgramsOfFaculties([fac], q, lettre) == ProgramsOf(fac.filieres, fac.nomFaculte, q, lettre)
  {
    assert [fac][..0] == [];
  }

  lemma UniversitesForOne(u: Universite, q: string, lettre: Option<string>)
    ensures var progs := ProgramsOfFaculties(u.facultes, q, lettre);
      UniversitesFor([u], q, lettre) == if progs != [] then [UniversiteRecommandee(u, progs)] else []
  {
    assert [u][..0] == [];
  }

  /** The two names looked up below, lower-cased, are single words. */
  lemma ExampleWords()
    ensures Lower("Médecin") == "médecin" && Tokens("médecin") == ["médecin"]
    ensures Lower("Boulanger") == "boulanger" && Tokens("boulanger") == ["boulanger"]
  {
    LowerNames();
    TokensOfWord("médecin");
    TokensOfWord("boulanger");
  }

  lemma LowerNames()
    ensures Lower("Médecin") == "médecin" && Lower("Boulanger") == "boulanger"
  {
  }

  /** The lookup finds the example occupation by its own name. */
  lemma FindsMedecin()
    ensures RechercherMetier(Some(ExampleKnowledgeBase()), "Médecin") == Some(ExampleMedecin())
  {
    ExampleWords();
    assert NameMatches(ExampleMedecin(), Lower("Médecin"), true);
  }

  /** The doctorate targets "Médecin généraliste", which contains "médecin" once lowered. */
  lemma DoctoratTargetsMedecin()
    ensures TargetsMetier(ExampleDoctorat(), "médecin")
  {
    var v := "Médecin généraliste";
    assert v in ExampleDoctorat().metiersVises;
    assert Lower(v)[..7] == "médecin";
    ContainsAt(Lower(v), "médecin", 0);
  }

  /** The search for "Médecin" with track D returns UAC with its doctorate. */
  lemma UniversitesMedecinD()
    ensures TrackHasLetter(SerieD)
    ensures RechercherUniversites(Some(ExampleKnowledgeBase()), "Médecin", SerieD) == [UacEntry()]
  {
    TrackLetterD();
    ExampleWords();
    DoctoratTargetsMedecin();
    TrackFilterExample();
    var f := ExampleDoctorat();
    assert Qualifies(f, "médecin", Some("D"));
    ProgramsOfOne(f, "Faculté des Sciences de la Santé", "médecin", Some("D"));
    ProgramsOfFacultiesOne(ExampleFaculte(), "médecin", Some("D"));
    UniversitesForOne(ExampleUac(), "médecin", Some("D"));
  }

  /** "Médecin" is its own only similar name. */
  lemma SimilairesMedecin()
    ensures MetiersSimilaires(Some(ExampleKnowledgeBase()), "Médecin") == ["Médecin"]
  {
    var m := ExampleMedecin();
    ExampleWords();
    assert "médecin" in Tokens(Lower("Médecin"));
    assert SharesWord(Lower("Médecin"), Lower(m.nomMetier));
    assert SimilarTo("Médecin")(m);
    assert Filter([m], SimilarTo("Médecin")) == [m];
    assert Noms([m]) == ["Médecin"];
  }

  /**
   * With one university found, the search is widened by the similar name
   * "Médecin" itself, which finds UAC again; deduplication keeps one
   * entry, and UAC is the whole recommendation.
   */
  lemma RecommandeesMedecinD(p: Profil)
    requires p.carriereEnvisagee == "Médecin" && p.serieBac == SerieD
    ensures TrackHasLetter(p.serieBac)
    ensures UniversitesRecommandees(Some(ExampleKnowledgeBase()), p) == [UacEntry()]
  {
    CandidatsMedecinD(p);
    RankTwice(UacEntry());
  }

  lemma CandidatsMedecinD(p: Profil)
    requires p.carriereEnvisagee == "Médecin" && p.serieBac == SerieD
    ensures TrackHasLetter(p.serieBac)
    ensures Candidats(Some(ExampleKnowledgeBase()), p) == [UacEntry(), UacEntry()]
  {
    var kb := Some(ExampleKnowledgeBase());
    UniversitesMedecinD();
    SimilairesMedecin();
    CandidatsCases(kb, p, ["Médecin"]);
    WidenedOne(kb, "Médecin", SerieD);
  }

  /** Widening by one name is the search for that name. */
  lemma WidenedOne(kb: Option<KnowledgeBase>, nom: string, serie: Option<string>)
    requires TrackHasLetter(serie)
    ensures Widened(kb, [nom], serie) == RechercherUniversites(kb, nom, serie)
  {
    assert [nom][..0] == [];
  }

  /** An entry found twice is ranked once. */
  lemma RankTwice(x: UniversiteRecommandee)
    ensures Rank([x, x]) == [x]
  {
    assert [x, x][..1] == [x];
    assert [x][..0] == [];
    assert Dedup([x]) == [x];
    assert Dedup([x, x]) == [x];
    assert SortByKey([x]) == Insert(x, []);
  }

  /** The only occupation of the dataset has no alternative. */
  lemma AlternativesMedecin(p: Profil)
    requires p.carriereEnvisagee == "Médecin" && TrackHasLetter(p.serieBac)
    ensures CarrieresAlternatives(Some(ExampleKnowledgeBase()), p) == []
  {
    var kb := ExampleKnowledgeBase();
    FindsMedecin();
    var t := ExampleMedecin();
    assert Filter(MetiersParSecteur(Some(kb), t.secteurActivite), NamedOtherThan(t.nomMetier)) == [];
    assert AddBySkills(kb.metiers, t, []) == [];
    assert MetiersAlternatifs(Some(kb), "Médecin", 8) == [];
  }

  /**
   * Track D suits the health sector (0.8), the demand "Très élevé" scores
   * 1.0, and one university out of three scores one third.
   */
  lemma ScoresMedecinD(p: Profil)
    requires p.carriereEnvisagee == "Médecin" && p.serieBac == SerieD
    ensures TrackHasLetter(p.serieBac)
    ensures ScoresCompatibilite(Some(ExampleKnowledgeBase()), p) == Scores(0.8, 1.0, 1.0 / 3.0)
  {
    FindsMedecin();
    UniversitesMedecinD();
    TrackLetterD();
    ScoreSerieSante(ExampleMedecin());
    ScoreMarcheSpec("Très élevé");
  }

  /** The path of a future bachelor aiming at "Médecin": the future-bachelor steps and five of the doctor's skills. */
  lemma ParcoursMedecin(p: Profil)
    requires p.carriereEnvisagee == "Médecin" && p.statut == StatutEleve
    ensures ParcoursSuggere(Some(ExampleKnowledgeBase()), p)
            == Parcours(EtapesEleve, "À déterminer",
                        ["Anatomie", "Physiologie", "Pharmacologie", "Communication", "Empathie"], [])
  {
    FindsMedecin();
  }

  /** The profile analysis of a track-D future bachelor. */
  lemma ProfilEleveD(p: Profil)
    requires p.statut == StatutEleve && p.serieBac == SerieD
    ensures TrackHasLetter(p.serieBac)
    ensures ProfilAnalyse(p) == AnalyseProfil("Élève", Some("Mathématiques-Sciences Naturelles"), Some("scientifique"),
                                              ["Mathématiques", "Sciences", "Logique", "Analyse"], [])
  {
    TrackLetterD();
  }

  /** The whole recommendation for a track-D future bachelor aiming at "Médecin". */
  lemma RecommandationsMedecinD()
    ensures var p := Profil(StatutEleve, SerieD, None, "Médecin");
      && TrackHasLetter(p.serieBac)
      && RecommandationsPour(Some(ExampleKnowledgeBase()), p)
         == Recommandations(
              AnalyseProfil("Élève", Some("Mathématiques-Sciences Naturelles"), Some("scientifique"),
                            ["Mathématiques", "Sciences", "Logique", "Analyse"], []),
              Trouve(ExampleMedecin()),
              [UacEntry()],
              [],
              Scores(0.8, 1.0, 1.0 / 3.0),
              Parcours(EtapesEleve, "À déterminer",
                       ["Anatomie", "Physiologie", "Pharmacologie", "Communication", "Empathie"], []))
  {
    var p := Profil(StatutEleve, SerieD, None, "Médecin");
    TrackLetterD();
    FindsMedecin();
    ProfilEleveD(p);
    RecommandeesMedecinD(p);
    AlternativesMedecin(p);
    ScoresMedecinD(p);
    ParcoursMedecin(p);
  }

  /** "Boulanger" is neither the name of the example occupation nor part of it. */
  lemma BoulangerUnknown()
    ensures RechercherMetier(Some(ExampleKnowledgeBase()), "Boulanger").None?
    ensures MetiersSimilaires(Some(ExampleKnowledgeBase()), "Boulanger") == []
  {
    ExampleWords();
    NotContainsLonger("médecin", "boulanger");
    assert !SharesWord(Lower("Boulanger"), Lower(ExampleMedecin().nomMetier));
    assert Filter([ExampleMedecin()], SimilarTo("Boulanger")) == [];
  }

  /** Neither target label of the example doctorate mentions a baker. */
  lemma TargetsLackBoulanger()
    ensures !Contains(Lower("Médecin généraliste"), "boulanger")
    ensures !Contains(Lower("Médecin spécialiste"), "boulanger")
  {
    assert Lower("Médecin généraliste") == "médecin généraliste";
    NotContainsByFirstChar("médecin généraliste", "boulanger");
    assert Lower("Médecin spécialiste") == "médecin spécialiste";
    NotContainsByFirstChar("médecin spécialiste", "boulanger");
  }

  lemma NoTargetBoulanger()
    ensures !TargetsMetier(ExampleDoctorat(), "boulanger")
  {
    TargetsLackBoulanger();
  }

  /** No program of the example dataset targets a baker. */
  lemma NoProgramForBoulanger(serie: Option<string>)
    requires TrackHasLetter(serie)
    ensures RechercherUniversites(Some(ExampleKnowledgeBase()), "Boulanger", serie) == []
  {
    var lettre := TrackLetter(serie);
    ExampleWords();
    NoTargetBoulanger();
    ProgramsOfOne(ExampleDoctorat(), "Faculté des Sciences de la Santé", "boulanger", lettre);
    ProgramsOfFacultiesOne(ExampleFaculte(), "boulanger", lettre);
    UniversitesForOne(ExampleUac(), "boulanger", lettre);
  }

  /**
   * An occupation the dataset does not know, whatever the track: no
   * occupation found and no similar name, no university, no alternative,
   * every score 0.0 and no skill to develop.
   */
  lemma RecommandationsBoulanger(p: Profil)
    requires p.carriereEnvisagee == "Boulanger" && TrackHasLetter(p.serieBac)
    ensures var r := RecommandationsPour(Some(ExampleKnowledgeBase()), p);
      && r.metierAnalyse == NonTrouve([])
      && r.universitesRecommandees == []
      && r.carrieresAlternatives == []
      && r.compatibiliteScores == Scores(0.0, 0.0, 0.0)
      && r.parcoursSuggere.competencesADevelopper == []
  {
    var kb := Some(ExampleKnowledgeBase());
    BoulangerUnknown();
    NoProgramForBoulanger(p.serieBac);
    assert Candidats(kb, p) == [];
    MetiersAlternatifsNotFound(kb, "Boulanger", 8);
  }
}
