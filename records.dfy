/**
 * The records of the knowledge base (knowledge_base_loader.py, lines 11-74):
 * occupations, growth sectors, skills, general training paths and the
 * universities -> faculties/schools -> programs tree. All of them are
 * values: nothing updates a record once it is loaded, and two records are
 * equal exactly when all their fields are, as for the pydantic models.
 */
module Records {

  /** `perspectives_croissance` is declared `Any`: a boolean, a text, or unset. */
  datatype Perspective = NonRenseignee | Booleen(b: bool) | Texte(t: string)

  /** `Metier`: an occupation. */
  datatype Metier = Metier(
    nomMetier: string,
    description: string,
    secteurActivite: string,
    competencesTechniques: seq<string>,
    competencesTransversales: seq<string>,
    formationsTypiques: seq<string>,
    niveauDemandeMarche: string,
    perspectivesCroissance: Perspective,
    pertinenceBenin: string)

  /** `SecteurPorteur`: a growth sector and the occupation names it lists. */
  datatype SecteurPorteur = SecteurPorteur(
    nomSecteur: string,
    description: string,
    croissancePrevue: string,
    metiersCles: seq<string>)

  /** `Competence`: a skill. */
  datatype Competence = Competence(
    nomCompetence: string,
    description: string,
    typeCompetence: string)

  /** `FormationGenerale`: a general training path. */
  datatype FormationGenerale = FormationGenerale(
    nomFormation: string,
    description: string,
    metiersPrepares: seq<string>,
    typeFormation: string)

  /** `Filiere`: a program of study; `seriesBacRequises` lists the accepted baccalaureate tracks. */
  datatype Filiere = Filiere(
    nomFiliere: string,
    descriptionFiliere: string,
    diplomeDelivre: string,
    dureeEtudesAns: int,
    conditionsAdmission: string,
    seriesBacRequises: seq<string>,
    autresPrerequis: string,
    metiersVises: seq<string>)

  /** `FaculteEcole`: a faculty or school, owning its programs. */
  datatype FaculteEcole = FaculteEcole(nomFaculte: string, filieres: seq<Filiere>)

  /** `Universite`: an institution, owning its faculties; `statut` is "Public" or "Privé Agréé". */
  datatype Universite = Universite(
    nomUniversite: string,
    sigle: string,
    statut: string,
    localisation: string,
    siteWeb: string,
    facultes: seq<FaculteEcole>)

  /** `KnowledgeBase`: the five top-level collections. */
  datatype KnowledgeBase = KnowledgeBase(
    metiers: seq<Metier>,
    secteursPorteurs: seq<SecteurPorteur>,
    competences: seq<Competence>,
    formationsGenerales: seq<FormationGenerale>,
    universites: seq<Universite>)

  /** `KnowledgeBase()`: every collection empty. */
  function EmptyKnowledgeBase(): (kb: KnowledgeBase)
    ensures kb.metiers == [] && kb.secteursPorteurs == [] && kb.competences == []
    ensures kb.formationsGenerales == [] && kb.universites == []
  {
    KnowledgeBase([], [], [], [], [])
  }

  // ---------------------------------------------------------------------------
  // The example dataset written when the knowledge-base file is missing
  // (`creer_fichier_exemple`, knowledge_base_loader.py:209-272)
  // ---------------------------------------------------------------------------

  function ExampleMedecin(): Metier {
    Metier(
      "Médecin",
      "Professionnel de santé qui diagnostique et traite les maladies",
      "Santé",
      ["Anatomie", "Physiologie", "Pharmacologie"],
      ["Communication", "Empathie", "Gestion du stress"],
      ["Doctorat en Médecine"],
      "Très élevé",
      Booleen(true),
      "Très pertinent, forte demande en santé publique")
  }

  function ExampleDoctorat(): Filiere {
    Filiere(
      "Doctorat en Médecine",
      "Formation médicale générale",
      "Doctorat",
      7,
      "BAC série D ou C avec mention",
      ["D", "C"],
      "Concours d'entrée",
      ["Médecin généraliste", "Médecin spécialiste"])
  }

  function ExampleFaculte(): FaculteEcole {
    FaculteEcole("Faculté des Sciences de la Santé", [ExampleDoctorat()])
  }

  function ExampleUac(): Universite {
    Universite(
      "Université d'Abomey-Calavi",
      "UAC",
      "Public",
      "Abomey-Calavi",
      "https://www.uac.bj",
      [ExampleFaculte()])
  }

  function ExampleKnowledgeBase(): KnowledgeBase {
    KnowledgeBase(
      [ExampleMedecin()],
      [SecteurPorteur(
        "Santé",
        "Secteur des soins de santé et services médicaux",
        "Forte croissance",
        ["Médecin", "Infirmier", "Pharmacien"])],
      [Competence(
        "Communication",
        "Capacité à transmettre efficacement des informations",
        "Transversale")],
      [FormationGenerale(
        "Doctorat en Médecine",
        "Formation médicale complète de 7 ans",
        ["Médecin", "Chirurgien"],
        "Universitaire")],
      [ExampleUac()])
  }
}
