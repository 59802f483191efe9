/**
 * The constant tables of `RecommendationEngine`
 * (recommendation_logic_student.py): the baccalaureate tracks, the
 * category/sector keyword compatibility, the market-demand scores and the
 * program-keyword domains, with the pure scoring functions built on them.
 */
module Tracks {
  import opened Wrappers
  import opened Records
  import opened Text

  /** What `series_bac_mapping` records for a track: its domain and its category ("type"). */
  datatype SerieInfo = SerieInfo(domaine: string, typ: string)

  /** `series_bac_mapping` (lines 17-32), keyed by track letter. */
  const SeriesBacMapping: map<string, SerieInfo> := map[
    "A1" := SerieInfo("Lettres-Langues", "littéraire"),
    "A2" := SerieInfo("Lettres-Sciences Sociales", "littéraire"),
    "B" := SerieInfo("Sciences Sociales", "économique"),
    "C" := SerieInfo("Mathématiques-Sciences Physiques", "scientifique"),
    "D" := SerieInfo("Mathématiques-Sciences Naturelles", "scientifique"),
    "E" := SerieInfo("Mathématiques-Techniques", "technique"),
    "EA" := SerieInfo("Économie-Administration", "économique"),
    "F1" := SerieInfo("Électrotechnique", "technique"),
    "F2" := SerieInfo("Mécanique Générale", "technique"),
    "F3" := SerieInfo("Électricité", "technique"),
    "F4" := SerieInfo("Génie Civil", "technique"),
    "G1" := SerieInfo("Secrétariat", "tertiaire"),
    "G2" := SerieInfo("Comptabilité", "tertiaire"),
    "G3" := SerieInfo("Commerce", "tertiaire")
  ]

  /** The sector keywords of each category (`compatibilites`, lines 287-293). */
  const Compatibilites: map<string, seq<string>> := map[
    "scientifique" := ["santé", "sciences", "ingénierie", "technique", "médecine", "recherche"],
    "littéraire" := ["communication", "education", "langues", "culture", "média", "enseignement"],
    "économique" := ["économie", "banque", "finance", "administration", "gestion"],
    "technique" := ["technique", "ingénierie", "industrie", "construction", "technologie"],
    "tertiaire" := ["commerce", "service", "vente", "administration", "secrétariat"]
  ]

  /** `compatibilites.get(serie_type, [])`. */
  function MotsCles(serieType: string): seq<string> {
    if serieType in Compatibilites then Compatibilites[serieType] else []
  }

  /** `series_bac_mapping.get(lettre, {}).get("type", "")`: the category of a track letter, "" when unknown. */
  function TypeOfLetter(lettre: string): string {
    if lettre in SeriesBacMapping then SeriesBacMapping[lettre].typ else ""
  }

  /** Every track of the table has a non-empty category with its own keyword list. */
  lemma TrackTableCategories()
    ensures forall l :: l in SeriesBacMapping ==> SeriesBacMapping[l].typ in Compatibilites && SeriesBacMapping[l].typ != ""
  {
    forall l | l in SeriesBacMapping ensures SeriesBacMapping[l].typ in Compatibilites && SeriesBacMapping[l].typ != "" {
    }
  }

  // ---------------------------------------------------------------------------
  // _verifier_compatibilite_serie_metier (lines 278-296)
  // ---------------------------------------------------------------------------

  /** `_verifier_compatibilite_serie_metier`. */
  predicate VerifierCompatibiliteSerieMetier(serieType: string, m: Metier) {
    serieType == "" || exists mot :: mot in MotsCles(serieType) && Contains(Lower(m.secteurActivite), mot)
  }

  /**
   * An empty category is compatible with everything; an unknown non-empty
   * category with nothing; a known one exactly with the occupations whose
   * lowered sector contains one of its keywords.
   */
  lemma VerifierCompatibiliteSpec(serieType: string, m: Metier)
    ensures serieType == "" ==> VerifierCompatibiliteSerieMetier(serieType, m)
    ensures serieType != "" && serieType !in Compatibilites ==> !VerifierCompatibiliteSerieMetier(serieType, m)
    ensures serieType != "" && serieType in Compatibilites ==>
              (VerifierCompatibiliteSerieMetier(serieType, m)
               <==> exists k :: 0 <= k < |Compatibilites[serieType]| && Contains(Lower(m.secteurActivite), Compatibilites[serieType][k]))
  {
    if serieType != "" && serieType in Compatibilites && VerifierCompatibiliteSerieMetier(serieType, m) {
      var mot :| mot in MotsCles(serieType) && Contains(Lower(m.secteurActivite), mot);
      var k :| 0 <= k < |Compatibilites[serieType]| && Compatibilites[serieType][k] == mot;
    }
  }

  // ---------------------------------------------------------------------------
  // _calculer_score_serie_metier (lines 298-309)
  // ---------------------------------------------------------------------------

  function CalculerScoreSerieMetier(lettre: string, m: Metier): (r: real)
    ensures 0.0 <= r <= 1.0
  {
    if lettre !in SeriesBacMapping then 0.5
    else if VerifierCompatibiliteSerieMetier(SeriesBacMapping[lettre].typ, m) then 0.8
    else 0.3
  }

  /**
   * The track score is 0.5 for a letter outside the table; otherwise 0.8
   * when the track's category has a keyword in the lowered sector, else 0.3.
   */
  lemma ScoreSerieMetierSpec(lettre: string, m: Metier)
    ensures lettre !in SeriesBacMapping ==> CalculerScoreSerieMetier(lettre, m) == 0.5
    ensures lettre in SeriesBacMapping ==>
              (CalculerScoreSerieMetier(lettre, m) == 0.8
               <==> exists mot :: mot in Compatibilites[SeriesBacMapping[lettre].typ] && Contains(Lower(m.secteurActivite), mot))
    ensures lettre in SeriesBacMapping ==>
              (CalculerScoreSerieMetier(lettre, m) == 0.3
               <==> forall mot :: mot in Compatibilites[SeriesBacMapping[lettre].typ] ==> !Contains(Lower(m.secteurActivite), mot))
  {
    TrackTableCategories();
  }

  /** "santé" is a keyword of the scientific category, so a D track scores 0.8 on the health sector. */
  lemma ScoreSerieSante(m: Metier)
    requires m.secteurActivite == "Santé"
    ensures CalculerScoreSerieMetier("D", m) == 0.8
  {
    var s := Lower(m.secteurActivite);
    assert s == "santé";
    ContainsTrivial(s);
    assert "santé" in MotsCles("scientifique");
  }

  // ---------------------------------------------------------------------------
  // The market-demand table (lines 184-190)
  // ---------------------------------------------------------------------------

  const DemandeMapping: map<string, real> := map[
    "Très élevé" := 1.0, "Élevé" := 0.8, "Moyen" := 0.6, "Faible" := 0.4, "Très faible" := 0.2
  ]

  /** `marche_benin`: 0.0 for an empty demand level, the table's value, or 0.5 for an unknown level. */
  function ScoreMarche(niveau: string): (r: real)
    ensures 0.0 <= r <= 1.0
  {
    if niveau == "" then 0.0
    else if niveau in DemandeMapping then DemandeMapping[niveau]
    else 0.5
  }

  /** The demand score takes the five table values, and 0.5 only for a non-empty level outside the table. */
  lemma ScoreMarcheSpec(niveau: string)
    ensures ScoreMarche("Très élevé") == 1.0 && ScoreMarche("Élevé") == 0.8 && ScoreMarche("Moyen") == 0.6
    ensures ScoreMarche("Faible") == 0.4 && ScoreMarche("Très faible") == 0.2
    ensures ScoreMarche(niveau) == 0.5 <==> niveau != "" && niveau !in DemandeMapping
    ensures ScoreMarche(niveau) == 0.0 <==> niveau == ""
  {
    assert forall l :: l in DemandeMapping ==> DemandeMapping[l] != 0.5 && DemandeMapping[l] != 0.0 by {
      assert DemandeMapping.Keys == {"Très élevé", "Élevé", "Moyen", "Faible", "Très faible"};
    }
  }

  // ---------------------------------------------------------------------------
  // _extraire_domaine_filiere (lines 239-255)
  // ---------------------------------------------------------------------------

  /** `domaines`, in the order the loop visits it. */
  const DomainesFilieres: seq<(string, string)> := [
    ("médecine", "Santé"), ("pharmacie", "Santé"), ("infirmier", "Santé"),
    ("informatique", "Technologies"), ("génie", "Ingénierie"), ("math", "Sciences"),
    ("droit", "Juridique"), ("avocat", "Juridique"),
    ("économie", "Économie"), ("gestion", "Gestion"), ("commerce", "Commerce"),
    ("lettres", "Lettres"), ("langue", "Langues"), ("communication", "Communication")
  ]

  /** The domain of the first keyword of `table` found in `texte`, or "Général". */
  function FirstDomain(table: seq<(string, string)>, texte: string): string {
    if table == [] then "Général"
    else if Contains(texte, table[0].0) then table[0].1
    else FirstDomain(table[1..], texte)
  }

  /** `_extraire_domaine_filiere`. */
  function ExtraireDomaineFiliere(filiere: string): string {
    FirstDomain(DomainesFilieres, Lower(filiere))
  }

  lemma {:induction false} FirstDomainSpec(table: seq<(string, string)>, texte: string)
    ensures (forall k :: 0 <= k < |table| ==> !Contains(texte, table[k].0)) ==> FirstDomain(table, texte) == "Général"
    ensures forall k :: 0 <= k < |table| && Contains(texte, table[k].0)
                        && (forall j :: 0 <= j < k ==> !Contains(texte, table[j].0))
                        ==> FirstDomain(table, texte) == table[k].1
  {
    if table != [] {
      FirstDomainSpec(table[1..], texte);
      forall k | 0 <= k < |table| && Contains(texte, table[k].0) && (forall j :: 0 <= j < k ==> !Contains(texte, table[j].0))
        ensures FirstDomain(table, texte) == table[k].1
      {
        if k > 0 {
          assert !Contains(texte, table[0].0);
          assert table[1..][k - 1] == table[k];
          assert forall j :: 0 <= j < k - 1 ==> table[1..][j] == table[j + 1];
        }
      }
    }
  }

  /**
   * The program-domain extraction returns the domain of the first keyword,
   * in table order, that occurs in the lowered program name, and "Général"
   * when none does.
   */
  lemma ExtraireDomaineSpec(filiere: string)
    ensures (forall k :: 0 <= k < |DomainesFilieres| ==> !Contains(Lower(filiere), DomainesFilieres[k].0))
            ==> ExtraireDomaineFiliere(filiere) == "Général"
    ensures forall k :: 0 <= k < |DomainesFilieres| && Contains(Lower(filiere), DomainesFilieres[k].0)
                        && (forall j :: 0 <= j < k ==> !Contains(Lower(filiere), DomainesFilieres[j].0))
                        ==> ExtraireDomaineFiliere(filiere) == DomainesFilieres[k].1
  {
    FirstDomainSpec(DomainesFilieres, Lower(filiere));
  }

  // ---------------------------------------------------------------------------
  // The strengths of each category (lines 66-76)
  // ---------------------------------------------------------------------------

  function Forces(typ: string): (r: seq<string>)
    ensures typ in Compatibilites <==> |r| == 4
    ensures typ !in Compatibilites <==> r == []
  {
    if typ == "scientifique" then ["Mathématiques", "Sciences", "Logique", "Analyse"]
    else if typ == "littéraire" then ["Communication", "Langues", "Rédaction", "Culture générale"]
    else if typ == "économique" then ["Gestion", "Économie", "Sciences sociales", "Administration"]
    else if typ == "technique" then ["Techniques", "Pratique", "Technologies", "Innovation"]
    else if typ == "tertiaire" then ["Commerce", "Services", "Gestion", "Communication"]
    else []
  }
}
