/**
 * `RecommendationEngine` (recommendation_logic_student.py): from a student
 * profile and the loaded knowledge base, the profile analysis, the
 * analysis of the intended occupation, the recommended universities, the
 * alternative careers, the compatibility scores and the suggested path.
 *
 * Each step is specified by a function of the knowledge base value and the
 * profile; the engine's methods compute the steps with the source's loops
 * and calls into the loader and are proved equal to those functions; the
 * lemmas state what the functions promise.
 */
module Recommendation {
  import opened Wrappers
  import opened Records
  import opened Text
  import opened Seqs
  import opened KbLoader
  import opened Tracks
  import opened Ranking

  /** The status that marks a future baccalaureate holder. */
  const StatutEleve := "Élève (Futur Bachelier)"

  /**
   * The profile dictionary: `statut` and `carriere_envisagee` are required
   * keys, `serie_bac` and `filiere_actuelle` may be absent or empty.
   */
  datatype Profil = Profil(
    statut: string,
    serieBac: Option<string>,
    filiereActuelle: Option<string>,
    carriereEnvisagee: string)

  // ---------------------------------------------------------------------------
  // _analyser_profil (lines 48-81)
  // ---------------------------------------------------------------------------

  /** The analysis dictionary; `typeFormation` is `None` when the key is never set. */
  datatype AnalyseProfil = AnalyseProfil(
    typeProfil: string,
    domaineOrigine: Option<string>,
    typeFormation: Option<string>,
    forces: seq<string>,
    recommandationsGenerales: seq<string>)

  /** `_analyser_profil`. */
  function ProfilAnalyse(p: Profil): AnalyseProfil
    requires TrackHasLetter(p.serieBac)
  {
    var base := AnalyseProfil(if p.statut == StatutEleve then "Élève" else "Étudiant", None, None, [], []);
    if IsGiven(p.serieBac) then
      var lettre := TrackLetter(p.serieBac).value;
      if lettre in SeriesBacMapping then
        var info := SeriesBacMapping[lettre];
        base.(domaineOrigine := Some(info.domaine), typeFormation := Some(info.typ), forces := Forces(info.typ))
      else base
    else if IsGiven(p.filiereActuelle) then
      base.(domaineOrigine := Some(ExtraireDomaineFiliere(p.filiereActuelle.value)))
    else base
  }

  /**
   * The profile type is "Élève" exactly for the future-bachelor status. A
   * track whose first word is in the track table gives that track's domain,
   * its category and the category's four strengths; any other given track
   * gives nothing, whatever the current program; only when no track is
   * given does a current program give the domain of its name.
   */
  lemma ProfilAnalyseSpec(p: Profil)
    requires TrackHasLetter(p.serieBac)
    ensures var a := ProfilAnalyse(p);
      && (a.typeProfil == "Élève" <==> p.statut == StatutEleve)
      && (a.typeProfil != "Élève" ==> a.typeProfil == "Étudiant")
      && a.recommandationsGenerales == []
      && (a.typeFormation.Some? <==> IsGiven(p.serieBac) && TrackLetter(p.serieBac).value in SeriesBacMapping)
      && (a.typeFormation.Some? ==>
            var info := SeriesBacMapping[TrackLetter(p.serieBac).value];
            a.domaineOrigine == Some(info.domaine) && a.typeFormation == Some(info.typ)
            && |a.forces| == 4 && a.forces == Forces(info.typ))
      && (a.typeFormation.None? ==> a.forces == [])
      && (IsGiven(p.serieBac) && a.typeFormation.None? ==> a.domaineOrigine.None?)
      && (!IsGiven(p.serieBac) ==>
            a.domaineOrigine == if IsGiven(p.filiereActuelle) then Some(ExtraireDomaineFiliere(p.filiereActuelle.value)) else None)
  {
    TrackTableCategories();
  }

  // ---------------------------------------------------------------------------
  // _chercher_metiers_similaires (lines 257-276)
  // ---------------------------------------------------------------------------

  /** The names of a list of occupations. */
  function Noms(ms: seq<Metier>): (r: seq<string>)
    ensures |r| == |ms| && forall i :: 0 <= i < |ms| ==> r[i] == ms[i].nomMetier
  {
    seq(|ms|, i requires 0 <= i < |ms| => ms[i].nomMetier)
  }

  lemma NomsAppend(a: seq<Metier>, b: seq<Metier>)
    ensures Noms(a + b) == Noms(a) + Noms(b)
  {
  }

  /** The lowered name of the occupation shares a word with the lowered query. */
  function SimilarTo(carriere: string): Metier -> bool {
    (m: Metier) => SharesWord(Lower(carriere), Lower(m.nomMetier))
  }

  /** `_chercher_metiers_similaires`. */
  function MetiersSimilaires(kb: Option<KnowledgeBase>, carriere: string): seq<string> {
    if kb.None? then [] else Take(Noms(Filter(kb.value.metiers, SimilarTo(carriere))), 5)
  }

  /** Dropping elements from a list of occupations drops the same names. */
  lemma {:induction false} NomsSubseq(a: seq<Metier>, b: seq<Metier>)
    requires Subseq(a, b)
    ensures Subseq(Noms(a), Noms(b))
    decreases |b|
  {
    if a != [] {
      var aInit, bInit := a[..|a| - 1], b[..|b| - 1];
      assert Noms(a)[..|a| - 1] == Noms(aInit) && Noms(b)[..|b| - 1] == Noms(bInit);
      if a[|a| - 1] == b[|b| - 1] && Subseq(aInit, bInit) {
        NomsSubseq(aInit, bInit);
      } else {
        NomsSubseq(a, bInit);
      }
    }
  }

  /**
   * Five names come back, or all of them when fewer than five occupations
   * share a word with the query, in knowledge-base order, each the name
   * of such an occupation; a similar occupation preceded by `k < 5`
   * similar ones is the `k`-th name listed, so the ones left out come
   * after the five listed.
   */
  lemma MetiersSimilairesSpec(kb: KnowledgeBase, carriere: string)
    ensures var r := MetiersSimilaires(Some(kb), carriere);
            var n := |Filter(kb.metiers, SimilarTo(carriere))|;
      && |r| == (if n <= 5 then n else 5)
      && Subseq(r, Noms(kb.metiers))
      && (forall j ::
            (0 <= j < |kb.metiers| && SharesWord(Lower(carriere), Lower(kb.metiers[j].nomMetier))
             && |Filter(kb.metiers[..j], SimilarTo(carriere))| < 5)
            ==> var k := |Filter(kb.metiers[..j], SimilarTo(carriere))|; k < |r| && r[k] == kb.metiers[j].nomMetier)
      && (forall n :: n in r ==> exists m :: m in kb.metiers && m.nomMetier == n && SharesWord(Lower(carriere), Lower(n)))
      && (|Filter(kb.metiers, SimilarTo(carriere))| <= 5 ==>
            forall m :: m in kb.metiers && SharesWord(Lower(carriere), Lower(m.nomMetier)) ==> m.nomMetier in r)
  {
    SimilairesOrder(kb, carriere);
    SimilairesNamed(kb, carriere);
    SimilairesEarly(kb, carriere);
    SimilairesAll(kb, carriere);
  }

  /** `MetiersSimilairesSpec`: the count, and knowledge-base order. */
  lemma SimilairesOrder(kb: KnowledgeBase, carriere: string)
    ensures var r := MetiersSimilaires(Some(kb), carriere);
            var n := |Filter(kb.metiers, SimilarTo(carriere))|;
            |r| == (if n <= 5 then n else 5) && Subseq(r, Noms(kb.metiers))
  {
    var f := Filter(kb.metiers, SimilarTo(carriere));
    var r := MetiersSimilaires(Some(kb), carriere);
    FilterIsSubseq(kb.metiers, SimilarTo(carriere));
    NomsSubseq(f, kb.metiers);
    PrefixIsSubseq(r, Noms(f));
    SubseqTrans(r, Noms(f), Noms(kb.metiers));
  }

  /** `MetiersSimilairesSpec`: each name is that of a similar occupation. */
  lemma SimilairesNamed(kb: KnowledgeBase, carriere: string)
    ensures var r := MetiersSimilaires(Some(kb), carriere);
            forall n :: n in r ==> exists m :: m in kb.metiers && m.nomMetier == n && SharesWord(Lower(carriere), Lower(n))
  {
    var f := Filter(kb.metiers, SimilarTo(carriere));
    var r := MetiersSimilaires(Some(kb), carriere);
    forall n | n in r ensures exists m :: m in kb.metiers && m.nomMetier == n && SharesWord(Lower(carriere), Lower(n)) {
      var i :| 0 <= i < |r| && r[i] == n;
      assert f[i] in f;
    }
  }

  /** `MetiersSimilairesSpec`: a similar occupation preceded by `k < 5` similar ones is the `k`-th name listed. */
  lemma SimilairesEarly(kb: KnowledgeBase, carriere: string)
    ensures var r := MetiersSimilaires(Some(kb), carriere);
            forall j ::
              (0 <= j < |kb.metiers| && SharesWord(Lower(carriere), Lower(kb.metiers[j].nomMetier))
               && |Filter(kb.metiers[..j], SimilarTo(carriere))| < 5)
              ==> var k := |Filter(kb.metiers[..j], SimilarTo(carriere))|; k < |r| && r[k] == kb.metiers[j].nomMetier
  {
    var r := MetiersSimilaires(Some(kb), carriere);
    forall j | 0 <= j < |kb.metiers| && SharesWord(Lower(carriere), Lower(kb.metiers[j].nomMetier))
        && |Filter(kb.metiers[..j], SimilarTo(carriere))| < 5
      ensures var k := |Filter(kb.metiers[..j], SimilarTo(carriere))|; k < |r| && r[k] == kb.metiers[j].nomMetier
    {
      FilterPosition(kb.metiers, SimilarTo(carriere), j);
      var k := |Filter(kb.metiers[..j], SimilarTo(carriere))|;
      assert r[k] == kb.metiers[j].nomMetier;
    }
  }

  /** `MetiersSimilairesSpec`: with at most five similar occupations, all are listed. */
  lemma SimilairesAll(kb: KnowledgeBase, carriere: string)
    ensures |Filter(kb.metiers, SimilarTo(carriere))| <= 5 ==>
              forall m :: m in kb.metiers && SharesWord(Lower(carriere), Lower(m.nomMetier)) ==> m.nomMetier in MetiersSimilaires(Some(kb), carriere)
  {
    var f := Filter(kb.metiers, SimilarTo(carriere));
    var r := MetiersSimilaires(Some(kb), carriere);
    if |f| <= 5 {
      forall m | m in kb.metiers && SharesWord(Lower(carriere), Lower(m.nomMetier)) ensures m.nomMetier in r {
        FilterComplete(kb.metiers, SimilarTo(carriere), m);
        var i :| 0 <= i < |f| && f[i] == m;
        assert r[i] == m.nomMetier;
      }
    }
  }

  /** One step of the search loop. */
  lemma SimilairesStep(ms: seq<Metier>, carriere: string, i: nat)
    requires i < |ms|
    ensures Noms(Filter(ms[..i + 1], SimilarTo(carriere)))
            == Noms(Filter(ms[..i], SimilarTo(carriere)))
               + (if SharesWord(Lower(carriere), Lower(ms[i].nomMetier)) then [ms[i].nomMetier] else [])
  {
    FilterStep(ms, SimilarTo(carriere), i);
    NomsAppend(Filter(ms[..i], SimilarTo(carriere)), [ms[i]]);
  }

  /** No knowledge base: no similar names. */
  lemma MetiersSimilairesNotLoaded(carriere: string)
    ensures MetiersSimilaires(None, carriere) == []
  {
  }

  /** The source's test: the two sets of word tokens intersect. */
  lemma SharedTokens(a: string, b: string)
    ensures (set t | t in Tokens(a)) * (set t | t in Tokens(b)) != {} <==> SharesWord(a, b)
  {
    if SharesWord(a, b) {
      var t :| t in Tokens(a) && t in Tokens(b);
      assert t in (set t | t in Tokens(a)) * (set t | t in Tokens(b));
    }
  }

  // ---------------------------------------------------------------------------
  // _analyser_metier_envisage (lines 83-105)
  // ---------------------------------------------------------------------------

  /**
   * The occupation analysis: the occupation found, whose sector, demand,
   * relevance, skills and typical training the source copies out of it, or
   * the similar names.
   */
  datatype AnalyseMetier = Trouve(metier: Metier) | NonTrouve(suggestionsSimilaires: seq<string>)

  /** `_analyser_metier_envisage`. */
  function MetierAnalyse(kb: Option<KnowledgeBase>, carriere: string): AnalyseMetier {
    match RechercherMetier(kb, carriere)
    case Some(m) => Trouve(m)
    case None => NonTrouve(MetiersSimilaires(kb, carriere))
  }

  /** The analysis reports an occupation exactly when the lookup finds one, and then that occupation. */
  lemma MetierAnalyseSpec(kb: Option<KnowledgeBase>, carriere: string)
    ensures MetierAnalyse(kb, carriere).Trouve? <==> RechercherMetier(kb, carriere).Some?
    ensures MetierAnalyse(kb, carriere).Trouve? ==>
              MetierAnalyse(kb, carriere).metier == RechercherMetier(kb, carriere).value
              && MetierAnalyse(kb, carriere).metier in kb.value.metiers
    ensures MetierAnalyse(kb, carriere).NonTrouve? ==>
              MetierAnalyse(kb, carriere).suggestionsSimilaires == MetiersSimilaires(kb, carriere)
              && |MetierAnalyse(kb, carriere).suggestionsSimilaires| <= 5
  {
    if kb.Some? {
      MetiersSimilairesSpec(kb.value, carriere);
    }
  }

  // ---------------------------------------------------------------------------
  // _recommander_universites (lines 107-138)
  // ---------------------------------------------------------------------------

  /** The search results for each name of `noms`, one after the other (the `extend` loop). */
  function Widened(kb: Option<KnowledgeBase>, noms: seq<string>, serie: Option<string>): seq<UniversiteRecommandee>
    requires TrackHasLetter(serie)
  {
    if noms == [] then []
    else Widened(kb, noms[..|noms| - 1], serie) + RechercherUniversites(kb, noms[|noms| - 1], serie)
  }

  /** The list before deduplication: the direct results, widened by up to three similar names when fewer than three. */
  function Candidats(kb: Option<KnowledgeBase>, p: Profil): seq<UniversiteRecommandee>
    requires TrackHasLetter(p.serieBac)
  {
    var directes := RechercherUniversites(kb, p.carriereEnvisagee, p.serieBac);
    if |directes| < 3 then directes + Widened(kb, Take(MetiersSimilaires(kb, p.carriereEnvisagee), 3), p.serieBac)
    else directes
  }

  /** `_recommander_universites`. */
  function UniversitesRecommandees(kb: Option<KnowledgeBase>, p: Profil): seq<UniversiteRecommandee>
    requires TrackHasLetter(p.serieBac)
  {
    Rank(Candidats(kb, p))
  }

  /** One step of the `extend` loop. */
  lemma WidenedStep(kb: Option<KnowledgeBase>, noms: seq<string>, serie: Option<string>, i: nat)
    requires TrackHasLetter(serie) && i < |noms|
    ensures Widened(kb, noms[..i + 1], serie) == Widened(kb, noms[..i], serie) + RechercherUniversites(kb, noms[i], serie)
  {
    assert noms[..i + 1][..i] == noms[..i];
  }

  /** One round of the widening loop, with the accumulated list `r` and the search result `us` for `noms[i]`. */
  lemma WidenedAccumulate(kb: Option<KnowledgeBase>, universites: seq<UniversiteRecommandee>, noms: seq<string>, serie: Option<string>,
                          i: nat, r: seq<UniversiteRecommandee>, us: seq<UniversiteRecommandee>)
    requires TrackHasLetter(serie) && i < |noms|
    requires r == universites + Widened(kb, noms[..i], serie) && us == RechercherUniversites(kb, noms[i], serie)
    ensures r + us == universites + Widened(kb, noms[..i + 1], serie)
  {
    WidenedStep(kb, noms, serie, i);
  }

  /** The two outcomes of the widening step, given the similar names when they are computed. */
  lemma CandidatsCases(kb: Option<KnowledgeBase>, p: Profil, similaires: seq<string>)
    requires TrackHasLetter(p.serieBac)
    requires |RechercherUniversites(kb, p.carriereEnvisagee, p.serieBac)| < 3 ==> similaires == MetiersSimilaires(kb, p.carriereEnvisagee)
    ensures var directes := RechercherUniversites(kb, p.carriereEnvisagee, p.serieBac);
      Candidats(kb, p)
      == if |directes| < 3 then directes + Widened(kb, if |similaires| <= 3 then similaires else similaires[..3], p.serieBac)
         else directes
  {
  }

  /** Every widened result comes from the search for one of the names. */
  lemma {:induction false} WidenedMember(kb: Option<KnowledgeBase>, noms: seq<string>, serie: Option<string>, e: UniversiteRecommandee)
    requires TrackHasLetter(serie)
    requires e in Widened(kb, noms, serie)
    ensures exists n :: n in noms && e in RechercherUniversites(kb, n, serie)
  {
    var init, last := noms[..|noms| - 1], noms[|noms| - 1];
    if e in Widened(kb, init, serie) {
      WidenedMember(kb, init, serie, e);
      var n :| n in init && e in RechercherUniversites(kb, n, serie);
      assert n in noms;
    } else {
      assert last in noms;
    }
  }

  /** Every result of the search for one of the names is among the widened results. */
  lemma {:induction false} WidenedComplete(kb: Option<KnowledgeBase>, noms: seq<string>, serie: Option<string>, n: string, e: UniversiteRecommandee)
    requires TrackHasLetter(serie)
    requires n in noms && e in RechercherUniversites(kb, n, serie)
    ensures e in Widened(kb, noms, serie)
  {
    var init, last := noms[..|noms| - 1], noms[|noms| - 1];
    if n != last {
      assert n in init by {
        var i :| 0 <= i < |noms| && noms[i] == n;
        assert init[i] == n;
      }
      WidenedComplete(kb, init, serie, n, e);
    }
  }

  /**
   * The recommendation holds at most ten universities with distinct names,
   * public ones first and by name within each group.
   */
  lemma UniversitesRecommandeesShape(kb: Option<KnowledgeBase>, p: Profil)
    requires TrackHasLetter(p.serieBac)
    ensures var r := UniversitesRecommandees(kb, p);
      && |r| <= 10
      && DistinctNames(r)
      && Sorted(r)
      && (forall i, j :: 0 <= i < j < |r| && IsPublic(r[j]) ==> IsPublic(r[i]))
  {
    RankShape(Candidats(kb, p));
  }

  /**
   * Every recommended university is the first of its name among the
   * candidates, and comes from the search for the intended occupation or,
   * when that search found fewer than three, from the search for one of
   * the first three similar names.
   */
  lemma UniversitesRecommandeesSound(kb: Option<KnowledgeBase>, p: Profil, e: UniversiteRecommandee)
    requires TrackHasLetter(p.serieBac)
    requires e in UniversitesRecommandees(kb, p)
    ensures var c := Candidats(kb, p);
      exists k :: 0 <= k < |c| && c[k] == e && forall j :: 0 <= j < k ==> NomU(c[j]) != NomU(e)
    ensures var directes := RechercherUniversites(kb, p.carriereEnvisagee, p.serieBac);
      || e in directes
      || (&& |directes| < 3
          && exists n :: n in Take(MetiersSimilaires(kb, p.carriereEnvisagee), 3)
                         && e in RechercherUniversites(kb, n, p.serieBac))
  {
    var c := Candidats(kb, p);
    RankMembers(c);
    var directes := RechercherUniversites(kb, p.carriereEnvisagee, p.serieBac);
    var noms := Take(MetiersSimilaires(kb, p.carriereEnvisagee), 3);
    var k :| 0 <= k < |c| && c[k] == e;
    if e !in directes {
      assert |directes| < 3;
      assert e in Widened(kb, noms, p.serieBac);
      WidenedMember(kb, noms, p.serieBac, e);
    }
  }

  /**
   * One university is recommended per candidate name, up to ten, so when
   * the candidates carry at most ten names none is dropped, and a
   * candidate cut by the limit sorts after every one kept; the direct
   * results are always candidates, and with fewer than three of them so
   * are the results for the first three similar names.
   */
  lemma UniversitesRecommandeesComplete(kb: Option<KnowledgeBase>, p: Profil)
    requires TrackHasLetter(p.serieBac)
    ensures var n := |NomsVus(Candidats(kb, p))|;
            |UniversitesRecommandees(kb, p)| == if n <= 10 then n else 10
    ensures |NomsVus(Candidats(kb, p))| <= 10 ==> NomsVus(UniversitesRecommandees(kb, p)) == NomsVus(Candidats(kb, p))
    ensures var r := UniversitesRecommandees(kb, p);
            forall e, x :: e in Dedup(Candidats(kb, p)) && e !in r && x in r ==> KeyLe(x, e)
    ensures forall e :: e in RechercherUniversites(kb, p.carriereEnvisagee, p.serieBac) ==> e in Candidats(kb, p)
    ensures |RechercherUniversites(kb, p.carriereEnvisagee, p.serieBac)| < 3 ==>
              forall n, e :: (n in Take(MetiersSimilaires(kb, p.carriereEnvisagee), 3)
                              && e in RechercherUniversites(kb, n, p.serieBac)) ==> e in Candidats(kb, p)
  {
    RankMembers(Candidats(kb, p));
    var directes := RechercherUniversites(kb, p.carriereEnvisagee, p.serieBac);
    var noms := Take(MetiersSimilaires(kb, p.carriereEnvisagee), 3);
    if |directes| < 3 {
      forall n, e | n in noms && e in RechercherUniversites(kb, n, p.serieBac) ensures e in Candidats(kb, p) {
        WidenedComplete(kb, noms, p.serieBac, n, e);
      }
    }
  }

  /** No knowledge base: no universities. */
  lemma UniversitesRecommandeesNotLoaded(p: Profil)
    requires TrackHasLetter(p.serieBac)
    ensures UniversitesRecommandees(None, p) == []
  {
    assert Candidats(None, p) == [];
  }

  // ---------------------------------------------------------------------------
  // _proposer_carrieres_alternatives (lines 140-163)
  // ---------------------------------------------------------------------------

  function CompatibleAvec(serieType: string): Metier -> bool {
    (m: Metier) => VerifierCompatibiliteSerieMetier(serieType, m)
  }

  /** The category of the given track, "" for a track outside the table. */
  function SerieType(serie: Option<string>): string
    requires TrackHasLetter(serie) && IsGiven(serie)
  {
    TypeOfLetter(TrackLetter(serie).value)
  }

  /** What `_proposer_carrieres_alternatives` keeps of the loader's alternatives. */
  function ChoisirAlternatives(alternatives: seq<Metier>, serie: Option<string>): seq<Metier>
    requires TrackHasLetter(serie)
  {
    if IsGiven(serie) && Filter(alternatives, CompatibleAvec(SerieType(serie))) != [] then
      Take(Filter(alternatives, CompatibleAvec(SerieType(serie))), 5)
    else Take(alternatives, 5)
  }

  /** `_proposer_carrieres_alternatives`. */
  function CarrieresAlternatives(kb: Option<KnowledgeBase>, p: Profil): seq<Metier>
    requires TrackHasLetter(p.serieBac)
  {
    ChoisirAlternatives(MetiersAlternatifs(kb, p.carriereEnvisagee, 8), p.serieBac)
  }

  /** The two outcomes of `_proposer_carrieres_alternatives`, given the loader's alternatives and the filtered ones. */
  lemma CarrieresAlternativesCases(kb: Option<KnowledgeBase>, p: Profil, alternatives: seq<Metier>, filtrees: seq<Metier>)
    requires TrackHasLetter(p.serieBac)
    requires alternatives == MetiersAlternatifs(kb, p.carriereEnvisagee, 8)
    requires IsGiven(p.serieBac) ==> filtrees == Filter(alternatives, CompatibleAvec(SerieType(p.serieBac)))
    ensures CarrieresAlternatives(kb, p) == if IsGiven(p.serieBac) && filtrees != [] then Take(filtrees, 5) else Take(alternatives, 5)
  {
  }

  /** Some of the loader's alternatives suit the category. */
  predicate AnyCompatible(alternatives: seq<Metier>, serieType: string) {
    exists m :: m in alternatives && VerifierCompatibiliteSerieMetier(serieType, m)
  }

  /** At most five alternatives, in the loader's order, taken from its eight alternatives. */
  lemma CarrieresAlternativesOrder(kb: Option<KnowledgeBase>, p: Profil)
    requires TrackHasLetter(p.serieBac)
    ensures |CarrieresAlternatives(kb, p)| <= 5
    ensures Subseq(CarrieresAlternatives(kb, p), MetiersAlternatifs(kb, p.carriereEnvisagee, 8))
  {
    var alternatives := MetiersAlternatifs(kb, p.carriereEnvisagee, 8);
    var r := CarrieresAlternatives(kb, p);
    if IsGiven(p.serieBac) {
      var f := Filter(alternatives, CompatibleAvec(SerieType(p.serieBac)));
      if f != [] {
        assert r == Take(f, 5);
        FilterIsSubseq(alternatives, CompatibleAvec(SerieType(p.serieBac)));
        PrefixIsSubseq(r, f);
        SubseqTrans(r, f, alternatives);
        return;
      }
    }
    assert r == Take(alternatives, 5);
    PrefixIsSubseq(r, alternatives);
  }

  /**
   * When a track is given and one of the loader's eight alternatives suits
   * its category, the compatible alternatives come back, five of them or
   * all when there are fewer: every one returned suits the category, and a
   * compatible one preceded by `k < 5` compatible ones is the `k`-th returned.
   * Otherwise the first five of the eight come back unfiltered.
   */
  lemma CarrieresAlternativesFilter(kb: Option<KnowledgeBase>, p: Profil)
    requires TrackHasLetter(p.serieBac)
    ensures IsGiven(p.serieBac) && AnyCompatible(MetiersAlternatifs(kb, p.carriereEnvisagee, 8), SerieType(p.serieBac)) ==>
              var alts := MetiersAlternatifs(kb, p.carriereEnvisagee, 8);
              var t := SerieType(p.serieBac);
              var r := CarrieresAlternatives(kb, p);
              var n := |Filter(alts, CompatibleAvec(t))|;
              && 0 < n
              && |r| == (if n < 5 then n else 5)
              && (forall m :: m in r ==> VerifierCompatibiliteSerieMetier(t, m))
              && (forall j ::
                    (0 <= j < |alts| && VerifierCompatibiliteSerieMetier(t, alts[j])
                     && |Filter(alts[..j], CompatibleAvec(t))| < 5)
                    ==> var k := |Filter(alts[..j], CompatibleAvec(t))|; k < |r| && r[k] == alts[j])
              && (n <= 5 ==> forall m :: m in alts && VerifierCompatibiliteSerieMetier(t, m) ==> m in r)
    ensures (!IsGiven(p.serieBac) || !AnyCompatible(MetiersAlternatifs(kb, p.carriereEnvisagee, 8), SerieType(p.serieBac))) ==>
              CarrieresAlternatives(kb, p) == Take(MetiersAlternatifs(kb, p.carriereEnvisagee, 8), 5)
  {
    ChoisirFilter(MetiersAlternatifs(kb, p.carriereEnvisagee, 8), p.serieBac);
  }

  /** `CarrieresAlternativesFilter` for any list of alternatives. */
  lemma ChoisirFilter(alts: seq<Metier>, serie: Option<string>)
    requires TrackHasLetter(serie)
    ensures IsGiven(serie) && AnyCompatible(alts, SerieType(serie)) ==>
              var t := SerieType(serie);
              var r := ChoisirAlternatives(alts, serie);
              var n := |Filter(alts, CompatibleAvec(t))|;
              && 0 < n
              && |r| == (if n < 5 then n else 5)
              && (forall m :: m in r ==> VerifierCompatibiliteSerieMetier(t, m))
              && (forall j ::
                    (0 <= j < |alts| && VerifierCompatibiliteSerieMetier(t, alts[j])
                     && |Filter(alts[..j], CompatibleAvec(t))| < 5)
                    ==> var k := |Filter(alts[..j], CompatibleAvec(t))|; k < |r| && r[k] == alts[j])
              && (n <= 5 ==> forall m :: m in alts && VerifierCompatibiliteSerieMetier(t, m) ==> m in r)
    ensures (!IsGiven(serie) || !AnyCompatible(alts, SerieType(serie))) ==> ChoisirAlternatives(alts, serie) == Take(alts, 5)
  {
    if IsGiven(serie) {
      var t := SerieType(serie);
      if AnyCompatible(alts, t) {
        var m :| m in alts && VerifierCompatibiliteSerieMetier(t, m);
        FilterComplete(alts, CompatibleAvec(t), m);
        CompatibleFirstFive(alts, t);
      } else {
        FilterNone(alts, CompatibleAvec(t));
      }
    }
  }

  /** The compatible branch of `CarrieresAlternativesFilter`, on the loader's alternatives `alts`. */
  lemma CompatibleFirstFive(alts: seq<Metier>, t: string)
    ensures var r := Take(Filter(alts, CompatibleAvec(t)), 5);
            var n := |Filter(alts, CompatibleAvec(t))|;
      && |r| == (if n < 5 then n else 5)
      && (forall m :: m in r ==> VerifierCompatibiliteSerieMetier(t, m))
      && (forall j ::
            (0 <= j < |alts| && VerifierCompatibiliteSerieMetier(t, alts[j])
             && |Filter(alts[..j], CompatibleAvec(t))| < 5)
            ==> var k := |Filter(alts[..j], CompatibleAvec(t))|; k < |r| && r[k] == alts[j])
      && (n <= 5 ==> forall m :: m in alts && VerifierCompatibiliteSerieMetier(t, m) ==> m in r)
  {
    var compat := CompatibleAvec(t);
    var f := Filter(alts, compat);
    var r := Take(f, 5);
    forall x | x in r ensures VerifierCompatibiliteSerieMetier(t, x) {
      assert x in f;
    }
    forall j | 0 <= j < |alts| && VerifierCompatibiliteSerieMetier(t, alts[j]) && |Filter(alts[..j], compat)| < 5
      ensures var k := |Filter(alts[..j], compat)|; k < |r| && r[k] == alts[j]
    {
      FilterPosition(alts, compat, j);
      assert r[|Filter(alts[..j], compat)|] == alts[j];
    }
    if |f| <= 5 {
      forall x | x in alts && VerifierCompatibiliteSerieMetier(t, x) ensures x in r {
        FilterComplete(alts, compat, x);
      }
    }
  }

  /** The alternatives are occupations of the knowledge base other than the intended one, and there are none when it is unknown. */
  lemma CarrieresAlternativesMembers(kb: Option<KnowledgeBase>, p: Profil)
    requires TrackHasLetter(p.serieBac)
    ensures RechercherMetier(kb, p.carriereEnvisagee).None? ==> CarrieresAlternatives(kb, p) == []
    ensures RechercherMetier(kb, p.carriereEnvisagee).Some? ==>
              forall m :: m in CarrieresAlternatives(kb, p) ==>
                m in kb.value.metiers && m.nomMetier != RechercherMetier(kb, p.carriereEnvisagee).value.nomMetier
  {
    var alternatives := MetiersAlternatifs(kb, p.carriereEnvisagee, 8);
    var r := CarrieresAlternatives(kb, p);
    CarrieresAlternativesOrder(kb, p);
    SubseqMember(r, alternatives);
    if RechercherMetier(kb, p.carriereEnvisagee).Some? {
      MetiersAlternatifsSpec(kb.value, p.carriereEnvisagee, 8);
    }
  }

  // ---------------------------------------------------------------------------
  // _calculer_compatibilite (lines 165-199)
  // ---------------------------------------------------------------------------

  datatype Scores = Scores(serieMetier: real, marcheBenin: real, formationDisponible: real)

  /** `min(1.0, n / 3)` for a non-empty list of `n` universities, 0.0 for an empty one. */
  function FormationScore(n: nat): real {
    if n == 0 then 0.0
    else
      var x := n as real / 3.0;
      if 1.0 <= x then 1.0 else x
  }

  /** `_calculer_compatibilite`. */
  function ScoresCompatibilite(kb: Option<KnowledgeBase>, p: Profil): Scores
    requires TrackHasLetter(p.serieBac)
  {
    match RechercherMetier(kb, p.carriereEnvisagee)
    case None => Scores(0.0, 0.0, 0.0)
    case Some(m) =>
      Scores(
        if IsGiven(p.serieBac) then CalculerScoreSerieMetier(TrackLetter(p.serieBac).value, m) else 0.0,
        ScoreMarche(m.niveauDemandeMarche),
        FormationScore(|RechercherUniversites(kb, p.carriereEnvisagee, p.serieBac)|))
  }

  /** The availability score grows with the number of universities, reaching 1.0 at three. */
  lemma FormationScoreSpec(n: nat)
    ensures 0.0 <= FormationScore(n) <= 1.0
    ensures FormationScore(n) == 0.0 <==> n == 0
    ensures FormationScore(n) == 1.0 <==> n >= 3
    ensures n < 3 ==> FormationScore(n) * 3.0 == n as real
    ensures FormationScore(n) <= FormationScore(n + 1)
  {
  }

  /**
   * Every score lies in [0, 1]; all three are 0.0 for an unknown
   * occupation; for a known one, the track score is 0.0 without a track
   * and the track-table score of the track's first word with one, the
   * market score is the demand level's score, and the availability score
   * is `FormationScore` of the number of universities the direct search
   * finds, positive exactly when some university offers a suitable program.
   */
  lemma ScoresCompatibiliteSpec(kb: Option<KnowledgeBase>, p: Profil)
    requires TrackHasLetter(p.serieBac)
    ensures var s := ScoresCompatibilite(kb, p);
      && 0.0 <= s.serieMetier <= 1.0 && 0.0 <= s.marcheBenin <= 1.0 && 0.0 <= s.formationDisponible <= 1.0
      && (RechercherMetier(kb, p.carriereEnvisagee).None? ==> s == Scores(0.0, 0.0, 0.0))
      && (RechercherMetier(kb, p.carriereEnvisagee).Some? ==>
            var m := RechercherMetier(kb, p.carriereEnvisagee).value;
            && (!IsGiven(p.serieBac) ==> s.serieMetier == 0.0)
            && (IsGiven(p.serieBac) ==> s.serieMetier == CalculerScoreSerieMetier(TrackLetter(p.serieBac).value, m)
                                        && (s.serieMetier == 0.3 || s.serieMetier == 0.5 || s.serieMetier == 0.8))
            && s.marcheBenin == ScoreMarche(m.niveauDemandeMarche)
            && s.formationDisponible == FormationScore(|RechercherUniversites(kb, p.carriereEnvisagee, p.serieBac)|)
            && (s.formationDisponible > 0.0 <==> RechercherUniversites(kb, p.carriereEnvisagee, p.serieBac) != []))
  {
    match RechercherMetier(kb, p.carriereEnvisagee)
    case None =>
    case Some(m) =>
      FormationScoreSpec(|RechercherUniversites(kb, p.carriereEnvisagee, p.serieBac)|);
  }

  // ---------------------------------------------------------------------------
  // _suggerer_parcours (lines 201-237)
  // ---------------------------------------------------------------------------

  datatype Parcours = Parcours(
    etapes: seq<string>,
    dureeTotale: string,
    competencesADevelopper: seq<string>,
    conseilsSpecifiques: seq<string>)

  /** The steps for a future bachelor. */
  const EtapesEleve: seq<string> := [
    "1. Réussir le Baccalauréat avec une mention appropriée",
    "2. S'inscrire dans une université/filière recommandée",
    "3. Compléter la formation initiale",
    "4. Effectuer des stages pratiques",
    "5. Obtenir le diplôme et rechercher un emploi/stage professionnel"
  ]

  /** The steps for a student already enrolled. */
  const EtapesEtudiant: seq<string> := [
    "1. Terminer la formation actuelle",
    "2. Évaluer les possibilités de spécialisation",
    "3. Considérer une formation complémentaire si nécessaire",
    "4. Développer l'expérience pratique",
    "5. Rechercher des opportunités dans le domaine visé"
  ]

  /** `_suggerer_parcours`. */
  function ParcoursSuggere(kb: Option<KnowledgeBase>, p: Profil): Parcours {
    Parcours(
      if p.statut == StatutEleve then EtapesEleve else EtapesEtudiant,
      "À déterminer",
      match RechercherMetier(kb, p.carriereEnvisagee)
      case None => []
      case Some(m) => Take(m.competencesTechniques, 3) + Take(m.competencesTransversales, 2),
      [])
  }

  /**
   * Five steps, the future-bachelor ones exactly for that status; the
   * skills to develop are, for a known occupation, its first three
   * technical skills followed by its first two transversal ones (so at most
   * five, all required by the occupation), and none otherwise.
   */
  lemma ParcoursSuggereSpec(kb: Option<KnowledgeBase>, p: Profil)
    ensures var r := ParcoursSuggere(kb, p);
      && |r.etapes| == 5
      && (r.etapes == EtapesEleve <==> p.statut == StatutEleve)
      && r.dureeTotale == "À déterminer" && r.conseilsSpecifiques == []
      && |r.competencesADevelopper| <= 5
      && (RechercherMetier(kb, p.carriereEnvisagee).None? ==> r.competencesADevelopper == [])
      && (RechercherMetier(kb, p.carriereEnvisagee).Some? ==>
            var m := RechercherMetier(kb, p.carriereEnvisagee).value;
            && (forall s :: s in r.competencesADevelopper ==> s in m.competencesTechniques || s in m.competencesTransversales)
            && (|m.competencesTechniques| >= 3 && |m.competencesTransversales| >= 2 ==> |r.competencesADevelopper| == 5)
            && r.competencesADevelopper == Take(m.competencesTechniques, 3) + Take(m.competencesTransversales, 2))
  {
    assert EtapesEleve[0] != EtapesEtudiant[0];
  }

  // ---------------------------------------------------------------------------
  // generer_recommandations (lines 34-46)
  // ---------------------------------------------------------------------------

  datatype Recommandations = Recommandations(
    profilAnalyse: AnalyseProfil,
    metierAnalyse: AnalyseMetier,
    universitesRecommandees: seq<UniversiteRecommandee>,
    carrieresAlternatives: seq<Metier>,
    compatibiliteScores: Scores,
    parcoursSuggere: Parcours)

  /** `generer_recommandations`: the six parts, each computed from the profile. */
  function RecommandationsPour(kb: Option<KnowledgeBase>, p: Profil): Recommandations
    requires TrackHasLetter(p.serieBac)
  {
    Recommandations(
      ProfilAnalyse(p),
      MetierAnalyse(kb, p.carriereEnvisagee),
      UniversitesRecommandees(kb, p),
      CarrieresAlternatives(kb, p),
      ScoresCompatibilite(kb, p),
      ParcoursSuggere(kb, p))
  }

  /**
   * The parts agree with one another: the scores are non-zero only when the
   * occupation analysis found the occupation, the path lists skills only
   * then too, and alternatives exist only then.
   */
  lemma RecommandationsCoherent(kb: Option<KnowledgeBase>, p: Profil)
    requires TrackHasLetter(p.serieBac)
    ensures var r := RecommandationsPour(kb, p);
      && (r.metierAnalyse.NonTrouve? ==> r.compatibiliteScores == Scores(0.0, 0.0, 0.0))
      && (r.metierAnalyse.NonTrouve? ==> r.parcoursSuggere.competencesADevelopper == [] && r.carrieresAlternatives == [])
      && (r.metierAnalyse.Trouve? ==> r.compatibiliteScores.marcheBenin == ScoreMarche(r.metierAnalyse.metier.niveauDemandeMarche))
      && |r.universitesRecommandees| <= 10 && |r.carrieresAlternatives| <= 5
  {
    MetierAnalyseSpec(kb, p.carriereEnvisagee);
    ScoresCompatibiliteSpec(kb, p);
    ParcoursSuggereSpec(kb, p);
    CarrieresAlternativesMembers(kb, p);
    CarrieresAlternativesOrder(kb, p);
    UniversitesRecommandeesShape(kb, p);
  }

  // ---------------------------------------------------------------------------
  // generer_donnees_pour_llm (lines 311-335)
  // ---------------------------------------------------------------------------

  /** One alternative as passed on: its name, sector and demand level. */
  datatype AlternativeResumee = AlternativeResumee(nom: string, secteur: string, demande: string)

  datatype DonneesLlm = DonneesLlm(
    profil: Profil,
    analyseProfil: AnalyseProfil,
    analyseMetier: AnalyseMetier,
    universitesTrouvees: nat,
    universitesDetails: seq<UniversiteRecommandee>,
    carrieresAlternatives: seq<AlternativeResumee>,
    scoresCompatibilite: Scores,
    contexteBenin: bool)

  function Resume(m: Metier): AlternativeResumee {
    AlternativeResumee(m.nomMetier, m.secteurActivite, m.niveauDemandeMarche)
  }

  /** `generer_donnees_pour_llm`. */
  function DonneesPourLlm(p: Profil, rec: Recommandations): DonneesLlm {
    var alternatives := Take(rec.carrieresAlternatives, 3);
    DonneesLlm(
      p, rec.profilAnalyse, rec.metierAnalyse,
      |rec.universitesRecommandees|,
      Take(rec.universitesRecommandees, 3),
      seq(|alternatives|, i requires 0 <= i < |alternatives| => Resume(alternatives[i])),
      rec.compatibiliteScores,
      true)
  }

  /**
   * The data passed on counts every recommended university but details
   * only the first three, and summarises the first three alternatives in
   * order.
   */
  lemma DonneesPourLlmSpec(p: Profil, rec: Recommandations)
    ensures var d := DonneesPourLlm(p, rec);
      && d.universitesTrouvees == |rec.universitesRecommandees|
      && |d.universitesDetails| == (if d.universitesTrouvees < 3 then d.universitesTrouvees else 3)
      && d.universitesDetails <= rec.universitesRecommandees
      && |d.carrieresAlternatives| == (if |rec.carrieresAlternatives| < 3 then |rec.carrieresAlternatives| else 3)
      && (forall i :: 0 <= i < |d.carrieresAlternatives| ==>
            d.carrieresAlternatives[i].nom == rec.carrieresAlternatives[i].nomMetier
            && d.carrieresAlternatives[i].secteur == rec.carrieresAlternatives[i].secteurActivite
            && d.carrieresAlternatives[i].demande == rec.carrieresAlternatives[i].niveauDemandeMarche)
      && d.profil == p && d.analyseProfil == rec.profilAnalyse && d.analyseMetier == rec.metierAnalyse
      && d.scoresCompatibilite == rec.compatibiliteScores
      && d.contexteBenin
  {
  }

  // ---------------------------------------------------------------------------
  // The engine
  // ---------------------------------------------------------------------------

  /** The filtering loop of `_proposer_carrieres_alternatives` (lines 150-158). */
  method FiltrerCompatibles(serieType: string, alternatives: seq<Metier>) returns (alternativesFiltrees: seq<Metier>)
    ensures alternativesFiltrees == Filter(alternatives, CompatibleAvec(serieType))
  {
    alternativesFiltrees := [];
    var i := 0;
    while i < |alternatives|
      invariant 0 <= i <= |alternatives|
      invariant alternativesFiltrees == Filter(alternatives[..i], CompatibleAvec(serieType))
    {
      if VerifierCompatibiliteSerieMetier(serieType, alternatives[i]) {
        alternativesFiltrees := alternativesFiltrees + [alternatives[i]];
      }
      FilterStep(alternatives, CompatibleAvec(serieType), i);
      i := i + 1;
    }
    assert alternatives[..i] == alternatives;
  }

  /** The deduplication loop of `_recommander_universites` (lines 127-133), with its set of names seen. */
  method Dedoublonner(universites: seq<UniversiteRecommandee>) returns (universitesUniques: seq<UniversiteRecommandee>)
    ensures universitesUniques == Dedup(universites)
  {
    universitesUniques := [];
    var nomsVus: set<string> := {};
    var j := 0;
    while j < |universites|
      invariant 0 <= j <= |universites|
      invariant universitesUniques == Dedup(universites[..j])
      invariant nomsVus == NomsVus(universitesUniques)
    {
      var univ := universites[j];
      DedupStep(universites, j);
      if NomU(univ) !in nomsVus {
        assert NomsVus(universitesUniques + [univ]) == nomsVus + {NomU(univ)};
        universitesUniques := universitesUniques + [univ];
        nomsVus := nomsVus + {NomU(univ)};
      }
      j := j + 1;
    }
    assert universites[..j] == universites;
  }

  class RecommendationEngine {
    /** `self.kb_loader`: the engine only reads it. */
    const kbLoader: KnowledgeBaseLoader

    constructor (loader: KnowledgeBaseLoader)
      ensures kbLoader == loader
    {
      kbLoader := loader;
    }

    /** `_chercher_metiers_similaires`. */
    method ChercherMetiersSimilaires(carriere: string) returns (r: seq<string>)
      ensures r == MetiersSimilaires(kbLoader.knowledgeBase, carriere)
    {
      if kbLoader.knowledgeBase.None? {
        return [];
      }
      var carriereLower := Lower(carriere);
      var ms := kbLoader.knowledgeBase.value.metiers;
      var similaires: seq<string> := [];
      var i := 0;
      while i < |ms|
        invariant 0 <= i <= |ms|
        invariant similaires == Noms(Filter(ms[..i], SimilarTo(carriere)))
      {
        var nomMetierLower := Lower(ms[i].nomMetier);
        var motsCarriere := set t | t in Tokens(carriereLower);
        var motsMetier := set t | t in Tokens(nomMetierLower);
        SharedTokens(carriereLower, nomMetierLower);
        SimilairesStep(ms, carriere, i);
        if motsCarriere * motsMetier != {} {
          similaires := similaires + [ms[i].nomMetier];
        }
        i := i + 1;
      }
      assert ms[..i] == ms;
      r := if |similaires| <= 5 then similaires else similaires[..5];
    }

    /** `_analyser_metier_envisage`. */
    method AnalyserMetierEnvisage(carriere: string) returns (r: AnalyseMetier)
      ensures r == MetierAnalyse(kbLoader.knowledgeBase, carriere)
    {
      var metier := RechercherMetier(kbLoader.knowledgeBase, carriere);
      if metier.Some? {
        r := Trouve(metier.value);
      } else {
        var suggestions := ChercherMetiersSimilaires(carriere);
        r := NonTrouve(suggestions);
      }
    }

    /** `_recommander_universites`. */
    method RecommanderUniversites(p: Profil) returns (r: seq<UniversiteRecommandee>)
      requires TrackHasLetter(p.serieBac)
      ensures r == UniversitesRecommandees(kbLoader.knowledgeBase, p)
    {
      var carriere, serieBac := p.carriereEnvisagee, p.serieBac;
      var universitesDirectes := kbLoader.RechercherUniversitesPourMetier(carriere, serieBac);
      var similaires: seq<string> := [];
      if |universitesDirectes| < 3 {
        similaires := ChercherMetiersSimilaires(carriere);
        universitesDirectes := Elargir(universitesDirectes, if |similaires| <= 3 then similaires else similaires[..3], serieBac);
      }
      CandidatsCases(kbLoader.knowledgeBase, p, similaires);
      var universitesUniques := Dedoublonner(universitesDirectes);
      var tries := SortByKey(universitesUniques);
      r := if |tries| <= 10 then tries else tries[..10];
    }

    /** The widening loop of `_recommander_universites` (lines 120-124): extend by the search results for each name. */
    method Elargir(universites: seq<UniversiteRecommandee>, noms: seq<string>, serieBac: Option<string>)
      returns (r: seq<UniversiteRecommandee>)
      requires TrackHasLetter(serieBac)
      ensures r == universites + Widened(kbLoader.knowledgeBase, noms, serieBac)
    {
      r := universites;
      var i := 0;
      while i < |noms|
        invariant 0 <= i <= |noms|
        invariant r == universites + Widened(kbLoader.knowledgeBase, noms[..i], serieBac)
      {
        var universitesSimilaires := kbLoader.RechercherUniversitesPourMetier(noms[i], serieBac);
        WidenedAccumulate(kbLoader.knowledgeBase, universites, noms, serieBac, i, r, universitesSimilaires);
        r := r + universitesSimilaires;
        i := i + 1;
      }
      assert noms[..i] == noms;
    }

    /** `_proposer_carrieres_alternatives`. */
    method ProposerCarrieresAlternatives(p: Profil) returns (r: seq<Metier>)
      requires TrackHasLetter(p.serieBac)
      ensures r == CarrieresAlternatives(kbLoader.knowledgeBase, p)
    {
      var alternatives := kbLoader.GetMetiersAlternatifs(p.carriereEnvisagee, 8);
      var alternativesFiltrees: seq<Metier> := [];
      if IsGiven(p.serieBac) {
        var serieLettre := TrackLetter(p.serieBac).value;
        var serieType := TypeOfLetter(serieLettre);
        alternativesFiltrees := FiltrerCompatibles(serieType, alternatives);
      }
      CarrieresAlternativesCases(kbLoader.knowledgeBase, p, alternatives, alternativesFiltrees);
      if IsGiven(p.serieBac) && alternativesFiltrees != [] {
        return if |alternativesFiltrees| <= 5 then alternativesFiltrees else alternativesFiltrees[..5];
      }
      r := if |alternatives| <= 5 then alternatives else alternatives[..5];
    }

    /** `_calculer_compatibilite`. */
    method CalculerCompatibilite(p: Profil) returns (r: Scores)
      requires TrackHasLetter(p.serieBac)
      ensures r == ScoresCompatibilite(kbLoader.knowledgeBase, p)
    {
      r := Scores(0.0, 0.0, 0.0);
      var metierAnalyse := AnalyserMetierEnvisage(p.carriereEnvisagee);
      if metierAnalyse.Trouve? {
        var metier := metierAnalyse.metier;
        if IsGiven(p.serieBac) {
          var serieLettre := TrackLetter(p.serieBac).value;
          r := r.(serieMetier := CalculerScoreSerieMetier(serieLettre, metier));
        }
        if metier.niveauDemandeMarche != "" {
          var niveau := metier.niveauDemandeMarche;
          r := r.(marcheBenin := if niveau in DemandeMapping then DemandeMapping[niveau] else 0.5);
        }
        var universites := kbLoader.RechercherUniversitesPourMetier(p.carriereEnvisagee, p.serieBac);
        if universites != [] {
          var x := |universites| as real / 3.0;
          r := r.(formationDisponible := if 1.0 <= x then 1.0 else x);
        }
      }
    }

    /** `_suggerer_parcours`. */
    method SuggererParcours(p: Profil) returns (r: Parcours)
      ensures r == ParcoursSuggere(kbLoader.knowledgeBase, p)
    {
      r := Parcours([], "À déterminer", [], []);
      if p.statut == StatutEleve {
        r := r.(etapes := EtapesEleve);
      } else {
        r := r.(etapes := EtapesEtudiant);
      }
      var metierAnalyse := AnalyserMetierEnvisage(p.carriereEnvisagee);
      if metierAnalyse.Trouve? {
        var metier := metierAnalyse.metier;
        r := r.(competencesADevelopper := Take(metier.competencesTechniques, 3) + Take(metier.competencesTransversales, 2));
      }
    }

    /** `generer_recommandations`. */
    method GenererRecommandations(p: Profil) returns (r: Recommandations)
      requires TrackHasLetter(p.serieBac)
      ensures r == RecommandationsPour(kbLoader.knowledgeBase, p)
    {
      var metierAnalyse := AnalyserMetierEnvisage(p.carriereEnvisagee);
      var universites := RecommanderUniversites(p);
      var alternatives := ProposerCarrieresAlternatives(p);
      var scores := CalculerCompatibilite(p);
      var parcours := SuggererParcours(p);
      r := Recommandations(ProfilAnalyse(p), metierAnalyse, universites, alternatives, scores, parcours);
    }
  }
}
