/**
 * Turning the parsed JSON document into a knowledge base
 * (knowledge_base_loader.py, `charger_base_connaissances` and `_load_raw_data`,
 * lines 99-205).
 *
 * A JSON entry is either an object, whose required fields may be missing
 * (`Option`) and whose optional fields carry the model's defaults, or
 * something that cannot be read as that record at all (`...Malformed`,
 * which stands for every other validation failure). Whether an entry is
 * valid is decided by the `Parse...` functions below, which play the part
 * of the pydantic constructors.
 *
 * Where a list is expected, the key may be absent, hold something the
 * loops can iterate, or hold something they cannot (`NotIterable`: null, a
 * number, a boolean). A string or an object iterates, over characters or
 * keys, each of which fails validation, so it is written as a list of
 * malformed entries.
 */
module Loading {
  import opened Wrappers
  import opened Records

  // ---------------------------------------------------------------------------
  // The parsed JSON document
  // ---------------------------------------------------------------------------

  /** The value under a key where the source expects a list. */
  datatype RawList<T> = Absent | Items(entries: seq<T>) | NotIterable {

    /** What a `for` loop over the value visits; nothing when the key is absent. */
    function Entries(): seq<T> {
      match this
      case Items(es) => es
      case _ => []
    }
  }

  datatype RawMetier =
    | MetierObject(
        nomMetier: Option<string>,
        description: Option<string>,
        secteurActivite: Option<string>,
        competencesTechniques: seq<string>,
        competencesTransversales: seq<string>,
        formationsTypiques: seq<string>,
        niveauDemandeMarche: string,
        perspectivesCroissance: Perspective,
        pertinenceBenin: string)
    | MetierMalformed

  datatype RawSecteur =
    | SecteurObject(nomSecteur: Option<string>, description: Option<string>, croissancePrevue: string, metiersCles: seq<string>)
    | SecteurMalformed

  datatype RawCompetence =
    | CompetenceObject(nomCompetence: Option<string>, description: Option<string>, typeCompetence: string)
    | CompetenceMalformed

  datatype RawFormation =
    | FormationObject(nomFormation: Option<string>, description: Option<string>, metiersPrepares: seq<string>, typeFormation: string)
    | FormationMalformed

  datatype RawFiliere =
    | FiliereObject(
        nomFiliere: Option<string>,
        descriptionFiliere: string,
        diplomeDelivre: Option<string>,
        dureeEtudesAns: Option<int>,
        conditionsAdmission: string,
        seriesBacRequises: seq<string>,
        autresPrerequis: string,
        metiersVises: seq<string>)
    | FiliereMalformed

  /** A faculty object; `nomFaculte` is `None` when the key is absent. */
  datatype RawFaculte =
    | FaculteObject(nomFaculte: Option<string>, filieres: RawList<RawFiliere>)
    | FaculteMalformed

  /** A university object; every field is `None` when its key is absent. */
  datatype RawUniversite =
    | UniversiteObject(
        nomUniversite: Option<string>,
        sigle: Option<string>,
        statut: Option<string>,
        localisation: Option<string>,
        siteWeb: Option<string>,
        facultes: RawList<RawFaculte>)
    | UniversiteMalformed

  /** The top-level JSON object. */
  datatype RawData = RawData(
    metiers: RawList<RawMetier>,
    secteursPorteurs: RawList<RawSecteur>,
    competences: RawList<RawCompetence>,
    formationsGenerales: RawList<RawFormation>,
    universites: RawList<RawUniversite>)

  /** Some top-level collection cannot be iterated, so `_load_raw_data` raises `TypeError`. */
  predicate TopLevelNotIterable(data: RawData) {
    || data.metiers.NotIterable? || data.secteursPorteurs.NotIterable? || data.competences.NotIterable?
    || data.formationsGenerales.NotIterable? || data.universites.NotIterable?
  }

  // ---------------------------------------------------------------------------
  // Entry validation (the pydantic constructors)
  // ---------------------------------------------------------------------------

  /** `Metier(**data)`: `nom_metier`, `description` and `secteur_activite` are required. */
  function ParseMetier(r: RawMetier): Option<Metier> {
    match r
    case MetierObject(nom, desc, secteur, tech, trans, forms, demande, persp, pert) =>
      if nom.Some? && desc.Some? && secteur.Some?
      then Some(Metier(nom.value, desc.value, secteur.value, tech, trans, forms, demande, persp, pert))
      else None
    case MetierMalformed => None
  }

  /** `SecteurPorteur(**data)`: `nom_secteur` and `description` are required. */
  function ParseSecteur(r: RawSecteur): Option<SecteurPorteur> {
    match r
    case SecteurObject(nom, desc, croissance, cles) =>
      if nom.Some? && desc.Some? then Some(SecteurPorteur(nom.value, desc.value, croissance, cles)) else None
    case SecteurMalformed => None
  }

  /** `Competence(**data)`: `nom_competence` and `description` are required. */
  function ParseCompetence(r: RawCompetence): Option<Competence> {
    match r
    case CompetenceObject(nom, desc, typ) =>
      if nom.Some? && desc.Some? then Some(Competence(nom.value, desc.value, typ)) else None
    case CompetenceMalformed => None
  }

  /** `FormationGenerale(**data)`: `nom_formation_generale` and `description` are required. */
  function ParseFormation(r: RawFormation): Option<FormationGenerale> {
    match r
    case FormationObject(nom, desc, prepares, typ) =>
      if nom.Some? && desc.Some? then Some(FormationGenerale(nom.value, desc.value, prepares, typ)) else None
    case FormationMalformed => None
  }

  /** `Filiere(**data)`: `nom_filiere`, `diplome_delivre` and `duree_etudes_ans` are required. */
  function ParseFiliere(r: RawFiliere): Option<Filiere> {
    match r
    case FiliereObject(nom, desc, diplome, duree, conditions, series, autres, vises) =>
      if nom.Some? && diplome.Some? && duree.Some?
      then Some(Filiere(nom.value, desc, diplome.value, duree.value, conditions, series, autres, vises))
      else None
    case FiliereMalformed => None
  }

  // ---------------------------------------------------------------------------
  // The per-entry partial load (`_load_raw_data`)
  // ---------------------------------------------------------------------------

  /** `for x in raw: try: out.append(parse(x)) except: pass`. */
  function Keep<R, T>(raw: seq<R>, parse: R -> Option<T>): (kept: seq<T>)
    ensures |kept| <= |raw|
  {
    if raw == [] then []
    else
      var last := parse(raw[|raw| - 1]);
      Keep(raw[..|raw| - 1], parse) + (if last.Some? then [last.value] else [])
  }

  /** One step of the append loop. */
  lemma KeepStep<R, T>(raw: seq<R>, parse: R -> Option<T>, i: nat)
    requires i < |raw|
    ensures Keep(raw[..i + 1], parse)
         == Keep(raw[..i], parse) + (if parse(raw[i]).Some? then [parse(raw[i]).value] else [])
  {
    assert raw[..i + 1][..i] == raw[..i];
  }

  /** Entries are parsed independently: the load of a concatenation is the concatenation of the loads. */
  lemma {:induction false} KeepAppend<R, T>(a: seq<R>, b: seq<R>, parse: R -> Option<T>)
    ensures Keep(a + b, parse) == Keep(a, parse) + Keep(b, parse)
    decreases |b|
  {
    if b != [] {
      var b' := b[..|b| - 1];
      assert (a + b)[..|a + b| - 1] == a + b';
      KeepAppend(a, b', parse);
    } else {
      assert a + b == a;
    }
  }

  /**
   * A malformed entry is skipped and the entries around it are kept; a
   * valid entry is kept in its place.
   */
  lemma SkipMalformed<R, T>(a: seq<R>, x: R, b: seq<R>, parse: R -> Option<T>)
    ensures parse(x).None? ==> Keep(a + [x] + b, parse) == Keep(a, parse) + Keep(b, parse)
    ensures parse(x).Some? ==> Keep(a + [x] + b, parse) == Keep(a, parse) + [parse(x).value] + Keep(b, parse)
  {
    KeepAppend(a + [x], b, parse);
    KeepAppend(a, [x], parse);
    assert [x][..0] == [];
  }

  /** Every kept entry is the parse of some raw entry. */
  lemma {:induction false} KeepSound<R, T>(raw: seq<R>, parse: R -> Option<T>, t: T)
    requires t in Keep(raw, parse)
    ensures exists r :: r in raw && parse(r) == Some(t)
  {
    var init, last := raw[..|raw| - 1], raw[|raw| - 1];
    if t in Keep(init, parse) {
      KeepSound(init, parse, t);
      var r :| r in init && parse(r) == Some(t);
      assert r in raw;
    } else {
      assert parse(last) == Some(t);
    }
  }

  /** When every entry is valid, nothing is dropped. */
  lemma {:induction false} KeepAllValid<R, T>(raw: seq<R>, parse: R -> Option<T>)
    requires forall i :: 0 <= i < |raw| ==> parse(raw[i]).Some?
    ensures |Keep(raw, parse)| == |raw|
    ensures forall i :: 0 <= i < |raw| ==> Keep(raw, parse)[i] == parse(raw[i]).value
  {
    if raw != [] {
      KeepAllValid(raw[..|raw| - 1], parse);
    }
  }

  /**
   * The raw faculty path (lines 185-198): a missing name defaults to "";
   * a non-object, or programs that cannot be iterated, raise inside the
   * faculty's `try`, which drops the faculty.
   */
  function LoadFaculte(r: RawFaculte): Option<FaculteEcole> {
    match r
    case FaculteObject(nom, filieres) =>
      if filieres.NotIterable? then None
      else Some(FaculteEcole(nom.GetOr(""), Keep(filieres.Entries(), ParseFiliere)))
    case FaculteMalformed => None
  }

  /** The raw university path (lines 171-203), dropping the university the same way. */
  function LoadUniversite(r: RawUniversite): Option<Universite> {
    match r
    case UniversiteObject(nom, sigle, statut, loc, site, facultes) =>
      if facultes.NotIterable? then None
      else Some(Universite(nom.GetOr(""), sigle.GetOr(""), statut.GetOr(""), loc.GetOr(""), site.GetOr(""),
                           Keep(facultes.Entries(), LoadFaculte)))
    case UniversiteMalformed => None
  }

  /** What `_load_raw_data` builds when it returns: each collection is the in-order list of its valid entries. */
  function LoadRawDataSpec(data: RawData): KnowledgeBase {
    KnowledgeBase(
      Keep(data.metiers.Entries(), ParseMetier),
      Keep(data.secteursPorteurs.Entries(), ParseSecteur),
      Keep(data.competences.Entries(), ParseCompetence),
      Keep(data.formationsGenerales.Entries(), ParseFormation),
      Keep(data.universites.Entries(), LoadUniversite))
  }

  /**
   * The base `charger_base_connaissances` keeps for a decoded document
   * (lines 110-115 and 129-134): the per-entry load, or the empty base when
   * `_load_raw_data` raises and the outer `except` replaces the base.
   */
  function LoadDocument(data: RawData): KnowledgeBase {
    if TopLevelNotIterable(data) then EmptyKnowledgeBase() else LoadRawDataSpec(data)
  }

  /**
   * A top-level collection that cannot be iterated empties the whole base,
   * while one that can keeps the others loading; a university or faculty
   * whose nested list cannot be iterated is dropped on its own.
   */
  lemma NotIterableScope(data: RawData, nom: Option<string>)
    ensures TopLevelNotIterable(data) ==> LoadDocument(data) == EmptyKnowledgeBase()
    ensures !TopLevelNotIterable(data) ==> LoadDocument(data) == LoadRawDataSpec(data)
    ensures LoadFaculte(FaculteObject(nom, NotIterable)) == None
    ensures LoadUniversite(UniversiteObject(nom, nom, nom, nom, nom, NotIterable)) == None
  {
  }

  /**
   * A malformed program is dropped while its faculty and university are
   * kept: every object-shaped university and faculty survives the load,
   * each faculty keeping exactly its valid programs.
   */
  lemma MalformedProgramKeepsFaculty(data: RawData, i: nat, j: nat)
    requires data.universites.Items?
    requires forall k :: 0 <= k < |data.universites.entries| ==>
               data.universites.entries[k].UniversiteObject? && !data.universites.entries[k].facultes.NotIterable?
    requires i < |data.universites.entries|
    requires var u := data.universites.entries[i];
             && u.facultes.Items?
             && (forall k :: 0 <= k < |u.facultes.entries| ==>
                   u.facultes.entries[k].FaculteObject? && !u.facultes.entries[k].filieres.NotIterable?)
             && j < |u.facultes.entries|
    ensures var us := LoadRawDataSpec(data).universites;
            var raw := data.universites.entries[i];
            var f := raw.facultes.entries[j];
            && |us| == |data.universites.entries|
            && |us[i].facultes| == |raw.facultes.entries|
            && us[i].facultes[j].nomFaculte == f.nomFaculte.GetOr("")
            && us[i].facultes[j].filieres == Keep(f.filieres.Entries(), ParseFiliere)
  {
    var raw := data.universites.entries;
    KeepAllValid(raw, LoadUniversite);
    KeepAllValid(raw[i].facultes.entries, LoadFaculte);
  }

  /** The append loop of `_load_raw_data`, shared by the flat collections and the programs. */
  method AppendValid<R, T>(raw: seq<R>, parse: R -> Option<T>) returns (kept: seq<T>)
    ensures kept == Keep(raw, parse)
  {
    kept := [];
    var i := 0;
    while i < |raw|
      invariant 0 <= i <= |raw|
      invariant kept == Keep(raw[..i], parse)
    {
      var parsed := parse(raw[i]);
      if parsed.Some? {
        kept := kept + [parsed.value];
      }
      KeepStep(raw, parse, i);
      i := i + 1;
    }
    assert raw[..i] == raw;
  }

  /**
   * `_load_raw_data`: the per-entry "skip malformed, keep the rest" load;
   * `None` when a top-level collection cannot be iterated and it raises.
   */
  method LoadRawData(data: RawData) returns (kb: Option<KnowledgeBase>)
    ensures kb == if TopLevelNotIterable(data) then None else Some(LoadRawDataSpec(data))
  {
    if TopLevelNotIterable(data) {
      return None;
    }
    var metiers := AppendValid(data.metiers.Entries(), ParseMetier);
    var secteurs := AppendValid(data.secteursPorteurs.Entries(), ParseSecteur);
    var competences := AppendValid(data.competences.Entries(), ParseCompetence);
    var formations := AppendValid(data.formationsGenerales.Entries(), ParseFormation);

    var universites: seq<Universite> := [];
    var rawUnivs := data.universites.Entries();
    var i := 0;
    while i < |rawUnivs|
      invariant 0 <= i <= |rawUnivs|
      invariant universites == Keep(rawUnivs[..i], LoadUniversite)
    {
      KeepStep(rawUnivs, LoadUniversite, i);
      match rawUnivs[i] {
      case UniversiteObject(nom, sigle, statut, loc, site, rawFacs) =>
        if !rawFacs.NotIterable? {
          var facultes: seq<FaculteEcole> := [];
          var facs := rawFacs.Entries();
          var j := 0;
          while j < |facs|
            invariant 0 <= j <= |facs|
            invariant facultes == Keep(facs[..j], LoadFaculte)
          {
            KeepStep(facs, LoadFaculte, j);
            match facs[j] {
              case FaculteObject(nomFac, rawFils) =>
                if !rawFils.NotIterable? {
                  var filieres := AppendValid(rawFils.Entries(), ParseFiliere);
                  facultes := facultes + [FaculteEcole(nomFac.GetOr(""), filieres)];
                }
              case FaculteMalformed =>
            }
            j := j + 1;
          }
          assert facs[..j] == facs;
          universites := universites + [Universite(nom.GetOr(""), sigle.GetOr(""), statut.GetOr(""),
                                                   loc.GetOr(""), site.GetOr(""), facultes)];
        }
      case UniversiteMalformed =>
      }
      i := i + 1;
    }
    assert rawUnivs[..i] == rawUnivs;
    kb := Some(KnowledgeBase(metiers, secteurs, competences, formations, universites));
  }

  // ---------------------------------------------------------------------------
  // The strict parse tried first (`KnowledgeBase(**data)`)
  // ---------------------------------------------------------------------------

  /** The whole list validates, or the constructor raises. */
  function ParseAll<R, T>(raw: seq<R>, parse: R -> Option<T>): (r: Option<seq<T>>)
    ensures r.Some? ==> |r.value| == |raw|
  {
    if raw == [] then Some([])
    else match ParseAll(raw[..|raw| - 1], parse)
      case None => None
      case Some(init) =>
        match parse(raw[|raw| - 1])
        case None => None
        case Some(x) => Some(init + [x])
  }

  /** `FaculteEcole(**data)`: `nom_faculte_ecole` is required and every program must validate. */
  function StrictFaculte(r: RawFaculte): Option<FaculteEcole> {
    match r
    case FaculteObject(nom, filieres) =>
      if nom.None? || filieres.NotIterable? then None
      else (match ParseAll(filieres.Entries(), ParseFiliere)
            case None => None
            case Some(fs) => Some(FaculteEcole(nom.value, fs)))
    case FaculteMalformed => None
  }

  /** `Universite(**data)`: `nom_universite` and `statut` are required and every faculty must validate. */
  function StrictUniversite(r: RawUniversite): Option<Universite> {
    match r
    case UniversiteObject(nom, sigle, statut, loc, site, facultes) =>
      if nom.None? || statut.None? || facultes.NotIterable? then None
      else (match ParseAll(facultes.Entries(), StrictFaculte)
            case None => None
            case Some(fs) => Some(Universite(nom.value, sigle.GetOr(""), statut.value, loc.GetOr(""), site.GetOr(""), fs)))
    case UniversiteMalformed => None
  }

  /** `KnowledgeBase(**data)`: `None` when a collection is not a list or any entry anywhere fails validation. */
  function StrictParse(data: RawData): Option<KnowledgeBase> {
    if TopLevelNotIterable(data) then None
    else match (ParseAll(data.metiers.Entries(), ParseMetier),
                ParseAll(data.secteursPorteurs.Entries(), ParseSecteur),
                ParseAll(data.competences.Entries(), ParseCompetence),
                ParseAll(data.formationsGenerales.Entries(), ParseFormation),
                ParseAll(data.universites.Entries(), StrictUniversite))
      case (Some(m), Some(s), Some(c), Some(f), Some(u)) => Some(KnowledgeBase(m, s, c, f, u))
      case _ => None
  }

  /** A list that validates as a whole is what the per-entry load keeps, provided the two parsers agree where the strict one succeeds. */
  lemma {:induction false} ParseAllAgrees<R, T>(raw: seq<R>, strict: R -> Option<T>, lenient: R -> Option<T>)
    requires ParseAll(raw, strict).Some?
    requires forall i :: 0 <= i < |raw| && strict(raw[i]).Some? ==> lenient(raw[i]) == strict(raw[i])
    ensures Keep(raw, lenient) == ParseAll(raw, strict).value
  {
    if raw != [] {
      var init := raw[..|raw| - 1];
      assert forall i :: 0 <= i < |init| ==> init[i] == raw[i];
      ParseAllAgrees(init, strict, lenient);
    }
  }

  /** Where the strict program parse succeeds, the lenient one agrees. */
  lemma StrictFaculteAgrees(r: RawFaculte)
    requires StrictFaculte(r).Some?
    ensures LoadFaculte(r) == StrictFaculte(r)
  {
    ParseAllAgrees(r.filieres.Entries(), ParseFiliere, ParseFiliere);
  }

  lemma StrictUniversiteAgrees(r: RawUniversite)
    requires StrictUniversite(r).Some?
    ensures LoadUniversite(r) == StrictUniversite(r)
  {
    var facs := r.facultes.Entries();
    forall i | 0 <= i < |facs| && StrictFaculte(facs[i]).Some?
      ensures LoadFaculte(facs[i]) == StrictFaculte(facs[i])
    {
      StrictFaculteAgrees(facs[i]);
    }
    ParseAllAgrees(facs, StrictFaculte, LoadFaculte);
  }

  /**
   * `charger_base_connaissances` tries the strict parse and falls back to
   * `_load_raw_data`; on a document the strict parse accepts, both give the
   * same knowledge base, so the loaded base is always the per-entry load.
   */
  lemma StrictParseAgrees(data: RawData)
    requires StrictParse(data).Some?
    ensures StrictParse(data).value == LoadDocument(data)
  {
    ParseAllAgrees(data.metiers.Entries(), ParseMetier, ParseMetier);
    ParseAllAgrees(data.secteursPorteurs.Entries(), ParseSecteur, ParseSecteur);
    ParseAllAgrees(data.competences.Entries(), ParseCompetence, ParseCompetence);
    ParseAllAgrees(data.formationsGenerales.Entries(), ParseFormation, ParseFormation);
    var us := data.universites.Entries();
    forall i | 0 <= i < |us| && StrictUniversite(us[i]).Some?
      ensures LoadUniversite(us[i]) == StrictUniversite(us[i])
    {
      StrictUniversiteAgrees(us[i]);
    }
    ParseAllAgrees(us, StrictUniversite, LoadUniversite);
  }

  // ---------------------------------------------------------------------------
  // Writing a knowledge base as JSON (`json.dump`, used by `creer_fichier_exemple`)
  // ---------------------------------------------------------------------------

  function DumpMetier(m: Metier): RawMetier {
    MetierObject(Some(m.nomMetier), Some(m.description), Some(m.secteurActivite),
                 m.competencesTechniques, m.competencesTransversales, m.formationsTypiques,
                 m.niveauDemandeMarche, m.perspectivesCroissance, m.pertinenceBenin)
  }

  function DumpSecteur(s: SecteurPorteur): RawSecteur {
    SecteurObject(Some(s.nomSecteur), Some(s.description), s.croissancePrevue, s.metiersCles)
  }

  function DumpCompetence(c: Competence): RawCompetence {
    CompetenceObject(Some(c.nomCompetence), Some(c.description), c.typeCompetence)
  }

  function DumpFormation(f: FormationGenerale): RawFormation {
    FormationObject(Some(f.nomFormation), Some(f.description), f.metiersPrepares, f.typeFormation)
  }

  function DumpFiliere(f: Filiere): RawFiliere {
    FiliereObject(Some(f.nomFiliere), f.descriptionFiliere, Some(f.diplomeDelivre), Some(f.dureeEtudesAns),
                  f.conditionsAdmission, f.seriesBacRequises, f.autresPrerequis, f.metiersVises)
  }

  function DumpFaculte(f: FaculteEcole): RawFaculte {
    FaculteObject(Some(f.nomFaculte), Items(seq(|f.filieres|, i requires 0 <= i < |f.filieres| => DumpFiliere(f.filieres[i]))))
  }

  function DumpUniversite(u: Universite): RawUniversite {
    UniversiteObject(Some(u.nomUniversite), Some(u.sigle), Some(u.statut), Some(u.localisation), Some(u.siteWeb),
                     Items(seq(|u.facultes|, i requires 0 <= i < |u.facultes| => DumpFaculte(u.facultes[i]))))
  }

  function Dump(kb: KnowledgeBase): RawData {
    RawData(
      Items(seq(|kb.metiers|, i requires 0 <= i < |kb.metiers| => DumpMetier(kb.metiers[i]))),
      Items(seq(|kb.secteursPorteurs|, i requires 0 <= i < |kb.secteursPorteurs| => DumpSecteur(kb.secteursPorteurs[i]))),
      Items(seq(|kb.competences|, i requires 0 <= i < |kb.competences| => DumpCompetence(kb.competences[i]))),
      Items(seq(|kb.formationsGenerales|, i requires 0 <= i < |kb.formationsGenerales| => DumpFormation(kb.formationsGenerales[i]))),
      Items(seq(|kb.universites|, i requires 0 <= i < |kb.universites| => DumpUniversite(kb.universites[i]))))
  }

  /** Dumping then loading a list of entries that all validate gives the list back. */
  lemma RoundTripList<R, T>(xs: seq<T>, raw: seq<R>, parse: R -> Option<T>)
    requires |raw| == |xs| && forall i :: 0 <= i < |xs| ==> parse(raw[i]) == Some(xs[i])
    ensures Keep(raw, parse) == xs
  {
    KeepAllValid(raw, parse);
  }

  lemma LoadDumpedFaculte(f: FaculteEcole)
    ensures LoadFaculte(DumpFaculte(f)) == Some(f)
  {
    var raw := DumpFaculte(f).filieres.entries;
    RoundTripList(f.filieres, raw, ParseFiliere);
  }

  lemma LoadDumpedUniversite(u: Universite)
    ensures LoadUniversite(DumpUniversite(u)) == Some(u)
  {
    var raw := DumpUniversite(u).facultes.entries;
    forall i | 0 <= i < |u.facultes| ensures LoadFaculte(raw[i]) == Some(u.facultes[i]) {
      LoadDumpedFaculte(u.facultes[i]);
    }
    RoundTripList(u.facultes, raw, LoadFaculte);
  }

  /** Loading a dumped knowledge base gives it back unchanged. */
  lemma LoadDumpRoundTrip(kb: KnowledgeBase)
    ensures LoadDocument(Dump(kb)) == kb
  {
    var d := Dump(kb);
    RoundTripList(kb.metiers, d.metiers.entries, ParseMetier);
    RoundTripList(kb.secteursPorteurs, d.secteursPorteurs.entries, ParseSecteur);
    RoundTripList(kb.competences, d.competences.entries, ParseCompetence);
    RoundTripList(kb.formationsGenerales, d.formationsGenerales.entries, ParseFormation);
    forall i | 0 <= i < |kb.universites| ensures LoadUniversite(d.universites.entries[i]) == Some(kb.universites[i]) {
      LoadDumpedUniversite(kb.universites[i]);
    }
    RoundTripList(kb.universites, d.universites.entries, LoadUniversite);
  }
}
