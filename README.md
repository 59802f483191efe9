# Knowledge base and recommendation engine of the Beninese orientation system

This project models, in Dafny, the two core components of the student
orientation system for Benin:

- `KnowledgeBaseLoader` (knowledge_base_loader.py): the records of the knowledge
  base (occupations, growth sectors, skills, general trainings, universities
  with their faculties and programs), the partial load that keeps every valid
  entry and drops the malformed ones, and the queries: occupation lookup,
  occupations of a sector, universities offering a program towards an
  occupation (filtered by baccalaureate track), alternative occupations,
  statistics and the consistency report.
- `RecommendationEngine` (recommendation_logic_student.py): the baccalaureate
  track table, profile analysis, occupation analysis, university
  recommendation (direct matches, widening through similar occupations,
  de-duplication by name, public-first ordering, at most ten), alternative
  careers filtered by track compatibility, compatibility scores, the suggested
  path, the assembled recommendation and the top-three summary passed on to
  the language model.

Layout:

| file | module | contents |
|---|---|---|
| wrappers.dfy | Wrappers | `Option` |
| seqs.dfy | Seqs | `Take` (Python slice `[:n]`), `Filter`, `Subseq` and their lemmas |
| text.dfy | Text | `str.lower`, `in` on strings, `split()[0]`, `re.findall(r'\w+')`, string order |
| records.dfy | Records | the pydantic records, the empty base and the example base written when the file is missing |
| loading.dfy | Loading | raw JSON entries, per-entry validation, `_load_raw_data`, the all-or-nothing parse, dump/load round trip |
| sources.dfy | Sources | the outcome of reading the file and the base `charger_base_connaissances` keeps for it |
| knowledge_base.dfy | KbLoader | the loader's queries as functions, their properties, and the `KnowledgeBaseLoader` class |
| tracks.dfy | Tracks | `series_bac_mapping`, track/sector compatibility, track score, market score, program domain, strengths |
| ranking.dfy | Ranking | de-duplication by university name and the `(statut != "Public", nom)` sort |
| recommendation.dfy | Recommendation | the engine's steps as functions, their properties, and the `RecommendationEngine` class |
| scenarios.dfy | Scenarios | the engine and loader evaluated on the example knowledge base |

Each method of the two classes is proved equal to a specification function
of the current knowledge base, and the properties are lemmas about those
functions.

## Model

| member | source | states |
|---|---|---|
| Records.EmptyKnowledgeBase | knowledge_base_loader.py:68-74 | A default `KnowledgeBase()` has all five collections empty. |
| Text.FirstToken | knowledge_base_loader.py:336 | `split()[0]` is a non-empty run of non-whitespace characters. Only whitespace precedes it in the label, and whitespace or the end of the label follows it. |
| Text.TokensAreWords | recommendation_logic_student.py:269-270 | Every token that `\w+` finds is a non-empty run of word characters occurring in the text. |
| Text.TokensOfWord | recommendation_logic_student.py:269-270 | A non-empty word is its own only token. |
| Text.StrLeTotal | recommendation_logic_student.py:136 | The string order used by the sort key is total. |
| Text.StrLeAntisymmetric | recommendation_logic_student.py:136 | The string order is antisymmetric. |
| Text.StrLeTransitive | recommendation_logic_student.py:136 | The string order is transitive. |
| Loading.Keep | knowledge_base_loader.py:141-147 | The try/append/except-pass loop never keeps more entries than it reads. |
| Loading.KeepAppend | knowledge_base_loader.py:141-147 | Loading a concatenation loads each part in turn. |
| Loading.SkipMalformed | knowledge_base_loader.py:141-147 | An entry that fails validation is dropped and its neighbours are kept. A valid entry is kept in its place. |
| Loading.KeepSound | knowledge_base_loader.py:141-147 | Every kept entry is the validated form of some raw entry. |
| Loading.KeepAllValid | knowledge_base_loader.py:141-147 | When every entry validates, nothing is dropped and the i-th kept entry is the i-th validated one. |
| Loading.AppendValid | knowledge_base_loader.py:141-147 | The append loop returns exactly the in-order list of valid entries. |
| Loading.LoadRawData | knowledge_base_loader.py:136-205 | `_load_raw_data` raises (no result) exactly when a top-level collection cannot be iterated. Otherwise it builds each of the five collections from its valid entries. Missing university fields default to "". A university or faculty whose nested list cannot be iterated is dropped, and each other faculty keeps its valid programs. |
| Loading.NotIterableScope | knowledge_base_loader.py:141-198 | A top-level collection that cannot be iterated empties the whole base. Otherwise the per-entry load stands. A nested list that cannot be iterated drops only its university or faculty. |
| Loading.MalformedProgramKeepsFaculty | knowledge_base_loader.py:171-203 | A malformed program does not drop its faculty or its university. Every object-shaped university and faculty survives, and each faculty keeps exactly its valid programs. |
| Loading.ParseAll | knowledge_base_loader.py:110-111 | A whole-list validation that succeeds yields one entry per raw entry. |
| Loading.StrictFaculteAgrees | knowledge_base_loader.py:54-57 | A faculty that validates strictly loads to the same faculty entry by entry. |
| Loading.StrictUniversiteAgrees | knowledge_base_loader.py:59-66 | A university that validates strictly loads to the same university entry by entry. |
| Loading.StrictParseAgrees | knowledge_base_loader.py:110-115 | When `KnowledgeBase(**data)` succeeds, its base is the one the fallback keeps, so both branches agree. |
| Loading.LoadDumpedFaculte | knowledge_base_loader.py:274-275 | Loading a dumped faculty gives it back. |
| Loading.LoadDumpedUniversite | knowledge_base_loader.py:274-275 | Loading a dumped university gives it back. |
| Loading.LoadDumpRoundTrip | knowledge_base_loader.py:274-275 | Loading the dump of any knowledge base gives that base back. |
| KbLoader.FirstMatch | knowledge_base_loader.py:287-294 | The loop stops at a matching index with no match before it, and finds nothing only when no occupation matches. |
| KbLoader.RechercherMetier | knowledge_base_loader.py:279-296 | Without a base the lookup fails. A found occupation belongs to the base. |
| KbLoader.RechercherMetierFindsFirst | knowledge_base_loader.py:284-296 | An exact (lowered) name match wins, and it is the first one. Otherwise the result is the first occupation whose lowered name contains the lowered query. |
| KbLoader.RechercherMetierNone | knowledge_base_loader.py:284-296 | The lookup fails if and only if no lowered occupation name contains the lowered query. |
| KbLoader.MetiersParSecteurFilter | knowledge_base_loader.py:298-310 | The result keeps the base's order. An occupation is listed if and only if its lowered sector contains the lowered query. |
| KbLoader.KnowledgeBaseLoader.RechercherMetiersParSecteur | knowledge_base_loader.py:298-310 | The loop computes the sector filter. |
| KbLoader.TrackLetter | knowledge_base_loader.py:334-336 | A letter exists exactly when a track is given, and it is a non-empty part of the label. |
| KbLoader.TrackLetterD | knowledge_base_loader.py:336 | The label "D (Mathématiques-Sciences Naturelles)" yields the letter "D". |
| KbLoader.TrackLetterA1 | knowledge_base_loader.py:336 | The label "A1 (Lettres-Langues)" yields the letter "A1". |
| KbLoader.TrackFilterExample | knowledge_base_loader.py:334-340 | A program requiring D or C accepts a D candidate and rejects an A1 one. A requirement "Toutes séries" accepts any track. |
| KbLoader.RechercherUniversitesOrder | knowledge_base_loader.py:320-354 | The universities listed keep the base's order, and each lists at least one program. |
| KbLoader.RechercherUniversitesSound | knowledge_base_loader.py:323-348 | Every listed program targets the occupation, accepts the track and belongs to the named faculty of its university. |
| KbLoader.RechercherUniversitesComplete | knowledge_base_loader.py:320-354 | Every qualifying program of every faculty of every university is listed under that university. |
| KbLoader.QualifyingPrograms | knowledge_base_loader.py:322-345 | The faculty loop collects exactly the university's qualifying programs, faculty by faculty. |
| KbLoader.AppendQualifyingPrograms | knowledge_base_loader.py:324-345 | The inner loop appends exactly the faculty's qualifying programs, in order. |
| KbLoader.KnowledgeBaseLoader.RechercherUniversitesPourMetier | knowledge_base_loader.py:312-354 | The nested loops compute the university search. |
| KbLoader.AddBySkillsShape | knowledge_base_loader.py:373-381 | The skills loop only appends. What it adds is not the target, shares at least two skills with it, and is not already collected. |
| KbLoader.AddBySkillsComplete | knowledge_base_loader.py:373-381 | The skills loop misses no occupation that shares at least two skills with the target and is not named like it. |
| KbLoader.AddBySkillsOrder | knowledge_base_loader.py:373-381 | The skills loop appends occupations in base order. |
| KbLoader.AddBySkillsFilter | knowledge_base_loader.py:373-381 | The skills loop adds the occupations that share two skills, are named otherwise and are not yet collected, each once at its first occurrence. |
| KbLoader.MetiersAlternatifsSpec | knowledge_base_loader.py:356-383 | Exactly `limite` alternatives come back, or all collected ones when fewer. None is named like the target, and all come from the base. The same-sector ones come first, in their order, up to the limit. After them come ones sharing at least two skills, without repeats and in base order. The result is the first `limite` of: the same-sector list, then the filtered skill-sharers not yet collected, each at its first occurrence. When the limit cuts nothing, every occupation sharing two skills with the target is listed. |
| KbLoader.MetiersAlternatifsNotFound | knowledge_base_loader.py:361-363 | An unknown occupation has no alternatives. |
| KbLoader.AppendBySkills | knowledge_base_loader.py:373-381 | The skills loop computes the append-by-shared-skills step. |
| KbLoader.KnowledgeBaseLoader.GetMetiersAlternatifs | knowledge_base_loader.py:356-383 | The two loops and the slice compute the alternatives. |
| KbLoader.SumProgramsCounts | knowledge_base_loader.py:390-394 | The summed program count equals the number of programs of all faculties of all universities. |
| KbLoader.GetStatisticsSpec | knowledge_base_loader.py:385-403 | There are no statistics without a base. Otherwise each of the five counts is the size of its collection, and the program count is the number of programs of all faculties of all universities. |
| KbLoader.ValiderSpec | knowledge_base_loader.py:405-433 | A loaded base has no errors. The empty-occupations and empty-universities warnings appear once if those lists are empty, and never otherwise. An undefined-occupation warning names a target that is no occupation name, for a program that exists. It appears once per occurrence of that target in programs of that name. The report holds nothing else: its length is the empty-list warnings plus the (program, unknown target) pairs. |
| KbLoader.UndefinedWarningSpec | knowledge_base_loader.py:421-431 | The scan over all programs warns exactly for the (target, program) pairs whose target is not an occupation name, once per occurrence, and once per (program, unknown target) pair in all. |
| KbLoader.UndefinedTargetsLength | knowledge_base_loader.py:425-431 | One program gives one warning per occurrence of an unknown target. |
| KbLoader.UndefinedTargetsCount | knowledge_base_loader.py:425-431 | One program warns about a target as often as it lists it, if the target is unknown, and never otherwise. |
| KbLoader.UndefinedReferencesCount | knowledge_base_loader.py:421-431 | Over a list of programs, the warnings about a target count its occurrences in programs of that name, and all the warnings count the (program, unknown target) pairs. |
| KbLoader.AppendUndefinedReferences | knowledge_base_loader.py:425-431 | The program/target loops append exactly the warnings for those programs. |
| KbLoader.AppendUndefinedFaculties | knowledge_base_loader.py:424-431 | The faculty loop appends exactly the warnings for all of that university's programs. |
| KbLoader.KnowledgeBaseLoader.ValiderBaseConnaissances | knowledge_base_loader.py:405-433 | The loops compute the consistency report. |
| KbLoader.NotLoaded | knowledge_base_loader.py:279-411 | Without a base, every query returns its empty answer. The report holds only the not-loaded error. |
| Sources.ParseDocument | knowledge_base_loader.py:108-134 | Strict validation, or the per-entry load when it fails, yields the per-entry base. When the per-entry load raises, the base is empty. |
| Sources.LoadSource | knowledge_base_loader.py:99-134 | Reading a source yields the base that source describes. |
| Sources.LoadedMissingFile | knowledge_base_loader.py:99-115 | A missing file whose example was written loads the example base. |
| Sources.LoadedWithoutDocument | knowledge_base_loader.py:117-134 | A missing file whose example could not be written, an unreadable or undecodable file, or a document that is not an object, leaves an empty base. |
| KbLoader.KnowledgeBaseLoader.constructor | knowledge_base_loader.py:79-98 | A new loader has loaded its source. |
| KbLoader.KnowledgeBaseLoader.ChargerBaseConnaissances | knowledge_base_loader.py:99-134 | After loading, the base is the one the source describes: parsed, the example, or empty. |
| Tracks.TrackTableCategories | recommendation_logic_student.py:17-32 | Every track in the table has a non-empty category that has its own keyword list. |
| Tracks.VerifierCompatibiliteSpec | recommendation_logic_student.py:278-296 | An empty category is compatible with everything, and an unknown one with nothing. A known one is compatible exactly when one of its keywords occurs in the lowered sector. |
| Tracks.CalculerScoreSerieMetier | recommendation_logic_student.py:298-309 | The track score lies in [0, 1]. |
| Tracks.ScoreSerieMetierSpec | recommendation_logic_student.py:298-309 | The track score is 0.5 for an unknown track. For a known track it is 0.8 exactly when a keyword matches, and 0.3 exactly when none does. |
| Tracks.ScoreSerieSante | recommendation_logic_student.py:287-309 | Track D scores 0.8 on the health sector. |
| Tracks.ScoreMarche | recommendation_logic_student.py:185-190 | The market score lies in [0, 1]. |
| Tracks.ScoreMarcheSpec | recommendation_logic_student.py:185-190 | The five demand levels map to 1.0 down to 0.2. The score is 0.5 exactly for an unknown non-empty level, and 0.0 exactly for an empty one. |
| Tracks.FirstDomainSpec | recommendation_logic_student.py:251-255 | The keyword scan returns the domain of the first matching keyword, or "Général" when none matches. |
| Tracks.ExtraireDomaineSpec | recommendation_logic_student.py:239-255 | A program's domain is that of the first table keyword in its lowered name, else "Général". |
| Tracks.Forces | recommendation_logic_student.py:66-76 | A known category has four strengths and any other has none. |
| Ranking.DedupDistinct | recommendation_logic_student.py:126-133 | After de-duplication no two universities share a name. |
| Ranking.DedupNames | recommendation_logic_student.py:126-133 | De-duplication loses no university name. |
| Ranking.DedupOrder | recommendation_logic_student.py:126-133 | De-duplication keeps the input order. |
| Ranking.DedupKeepsFirst | recommendation_logic_student.py:126-133 | The entry kept for a name is its first occurrence. |
| Ranking.KeyLeTotal | recommendation_logic_student.py:136 | The `(statut != "Public", nom)` key order is total. |
| Ranking.KeyLeTransitive | recommendation_logic_student.py:136 | The key order is transitive. |
| Ranking.KeyLeAntisymmetric | recommendation_logic_student.py:136 | Two entries equal in key share their name. |
| Ranking.Insert | recommendation_logic_student.py:136 | Insertion adds exactly one element. |
| Ranking.InsertSorted | recommendation_logic_student.py:136 | Insertion keeps a list sorted. |
| Ranking.SortByKey | recommendation_logic_student.py:136 | The sort is a permutation. |
| Ranking.SortByKeySorted | recommendation_logic_student.py:136 | The sort's result is ordered by the key. |
| Ranking.SortByKeyDistinct | recommendation_logic_student.py:136 | Sorting keeps names distinct. |
| Ranking.SortedUnique | recommendation_logic_student.py:136 | Two sorted permutations of a list with distinct names are equal, so any correct sort by this key gives the modelled result. |
| Ranking.RankShape | recommendation_logic_student.py:126-138 | The ranking holds at most ten distinct-named universities ordered by key, public ones first. |
| Ranking.RankMembers | recommendation_logic_student.py:126-138 | Each ranked university is the first occurrence of its name in the candidates. One university is kept per name, up to ten, so with at most ten names all of them are kept. A first occurrence left out sorts after every one kept. |
| Ranking.RankCount | recommendation_logic_student.py:126-138 | The ranking keeps as many universities as there are names, capped at ten. |
| Ranking.RankKeepsSmallest | recommendation_logic_student.py:136-138 | The entries cut by the ten-entry limit sort after every entry kept. |
| Recommendation.ProfilAnalyseSpec | recommendation_logic_student.py:48-81 | The profile type is "Élève" exactly for a future bachelor. A known track gives its domain, its category and that category's four strengths. Without a track, the domain comes from the current program. |
| Recommendation.MetiersSimilairesSpec | recommendation_logic_student.py:257-276 | Five names come back, or all when fewer than five occupations share a word with the career. They come in base order, and each is such an occupation's name. A similar occupation preceded by `k < 5` similar ones is the `k`-th name, so those cut come after the five. With at most five, all are listed. |
| Recommendation.MetiersSimilairesNotLoaded | recommendation_logic_student.py:259-260 | Without a base there are no similar occupations. |
| Recommendation.SharedTokens | recommendation_logic_student.py:269-273 | The token sets intersect if and only if the two texts share a word. |
| Recommendation.RecommendationEngine.ChercherMetiersSimilaires | recommendation_logic_student.py:257-276 | The loop computes the similar occupations. |
| Recommendation.MetierAnalyseSpec | recommendation_logic_student.py:83-105 | An occupation is reported exactly when the lookup finds one, and it is that occupation. Otherwise the suggestions are the similar names of `_chercher_metiers_similaires`, at most five. |
| Recommendation.RecommendationEngine.AnalyserMetierEnvisage | recommendation_logic_student.py:83-105 | The method computes the occupation analysis. |
| Recommendation.WidenedMember | recommendation_logic_student.py:120-124 | Every university added by widening comes from one of the similar occupations. |
| Recommendation.WidenedComplete | recommendation_logic_student.py:120-124 | Every university of every similar occupation searched is added. |
| Recommendation.RecommendationEngine.Elargir | recommendation_logic_student.py:117-124 | The widening loop appends the universities of each similar occupation, in order. |
| Recommendation.UniversitesRecommandeesShape | recommendation_logic_student.py:107-138 | There are at most ten recommendations, with distinct names, sorted by key and public first. |
| Recommendation.UniversitesRecommandeesSound | recommendation_logic_student.py:107-138 | Each recommendation is the first candidate with its name. It is a direct match, or, when there were fewer than three direct matches, a match of one of the first three similar occupations. |
| Recommendation.UniversitesRecommandeesComplete | recommendation_logic_student.py:107-138 | All direct matches, and with fewer than three of them all widened matches, are candidates. One university is recommended per candidate name, up to ten. With at most ten names, every candidate name is recommended. A candidate cut by the limit sorts after every one recommended. |
| Recommendation.UniversitesRecommandeesNotLoaded | recommendation_logic_student.py:107-124 | Without a base nothing is recommended. |
| Recommendation.Dedoublonner | recommendation_logic_student.py:126-133 | The `noms_vus` loop computes the de-duplication. |
| Recommendation.RecommendationEngine.RecommanderUniversites | recommendation_logic_student.py:107-138 | The method computes the recommended universities. |
| Recommendation.CarrieresAlternativesOrder | recommendation_logic_student.py:140-163 | There are at most five alternative careers, taken in order from the eight alternatives. |
| Recommendation.CarrieresAlternativesFilter | recommendation_logic_student.py:149-163 | With a track and a compatible alternative, five compatible alternatives come back, or all when fewer. Each is compatible, and a compatible one preceded by `k < 5` compatible ones is the `k`-th returned. Otherwise the first five alternatives come back. |
| Recommendation.CarrieresAlternativesMembers | recommendation_logic_student.py:140-163 | An unknown career has no alternatives. Otherwise every alternative is an occupation of the base other than the target. |
| Recommendation.FiltrerCompatibles | recommendation_logic_student.py:150-158 | The loop keeps exactly the compatible alternatives, in order. |
| Recommendation.RecommendationEngine.ProposerCarrieresAlternatives | recommendation_logic_student.py:140-163 | The method computes the alternative careers. |
| Recommendation.FormationScoreSpec | recommendation_logic_student.py:193-197 | The training score lies in [0, 1]. It is 0 exactly without programs, 1 exactly from three programs, n/3 below that, and monotone. |
| Recommendation.ScoresCompatibiliteSpec | recommendation_logic_student.py:165-199 | All scores lie in [0, 1], and all are zero for an unknown career. The track score is the track-table score (0.3, 0.5 or 0.8), or 0 without a track. The market score is the demand score. The training score is `FormationScore` (`min(1, n/3)`) of the number of universities the direct search finds, positive exactly when there is one. |
| Recommendation.RecommendationEngine.CalculerCompatibilite | recommendation_logic_student.py:165-199 | The method computes the compatibility scores. |
| Recommendation.ParcoursSuggereSpec | recommendation_logic_student.py:201-237 | There are five steps, the future-bachelor ones exactly for that status. The skills to develop are the occupation's first three technical and first two transversal skills, or none for an unknown career. |
| Recommendation.RecommendationEngine.SuggererParcours | recommendation_logic_student.py:201-237 | The method computes the suggested path. |
| Recommendation.RecommandationsCoherent | recommendation_logic_student.py:34-46 | The parts agree: an unknown career has zero scores, no skills and no alternatives, and a known one has its own market score. There are at most ten universities and five alternatives. |
| Recommendation.RecommendationEngine.GenererRecommandations | recommendation_logic_student.py:34-46 | The method assembles the six parts. |
| Recommendation.DonneesPourLlmSpec | recommendation_logic_student.py:311-335 | The profile, both analyses and the scores pass through unchanged. Every recommended university is counted, but only the first three are detailed. The first three alternatives, or all when fewer, are summarised in order. |
| Recommendation.RecommendationEngine.constructor | recommendation_logic_student.py:12-14 | The engine queries the loader it was given. |
| Scenarios.FindsMedecin | knowledge_base_loader.py:284-289 | The example base finds "Médecin". |
| Scenarios.DoctoratTargetsMedecin | knowledge_base_loader.py:325-329 | The example medical doctorate targets "médecin". |
| Scenarios.UniversitesMedecinD | knowledge_base_loader.py:312-354 | A D candidate for "Médecin" gets the UAC with its health faculty's doctorate. |
| Scenarios.SimilairesMedecin | recommendation_logic_student.py:257-276 | "Médecin" is similar only to itself in the example base. |
| Scenarios.RecommandeesMedecinD | recommendation_logic_student.py:107-138 | The UAC, found twice (direct and widened), is recommended once. |
| Scenarios.AlternativesMedecin | recommendation_logic_student.py:140-163 | The example base has no alternative to "Médecin". |
| Scenarios.ScoresMedecinD | recommendation_logic_student.py:165-199 | A D candidate for "Médecin" scores 0.8, 1.0 and 1/3. |
| Scenarios.ParcoursMedecin | recommendation_logic_student.py:201-237 | The path of a future bachelor aiming at "Médecin" lists Anatomie, Physiologie, Pharmacologie, Communication and Empathie. |
| Scenarios.ProfilEleveD | recommendation_logic_student.py:48-81 | A D-track future bachelor is a scientific profile with four strengths. |
| Scenarios.RecommandationsMedecinD | recommendation_logic_student.py:34-46 | The full recommendation for a D-track future bachelor aiming at "Médecin". |
| Scenarios.BoulangerUnknown | knowledge_base_loader.py:279-296 | "Boulanger" is not found and has no similar occupation. |
| Scenarios.NoProgramForBoulanger | knowledge_base_loader.py:312-354 | No university offers a program for "Boulanger", whatever the track. |
| Scenarios.RecommandationsBoulanger | recommendation_logic_student.py:34-46 | An unknown career gets no university, no alternative, zero scores and no skills. |

## Left out

- File system and JSON: path resolution (knowledge_base_loader.py:79-98), `os.path.exists`, `open` and `json.load` become the `Source` parameter. The file is missing (with or without the example written), unreadable, decoded to something other than an object, or decoded to an object.
- `creer_fichier_exemple` is modelled only as the example base it writes and the `Dump` it produces. The file write and its failure are the `MissingExampleWritten` and `MissingExampleNotWritten` sources.
- Streamlit messages (`st.warning`, `st.error`, `st.success`, `st.info`) are not modelled; they have no effect on the returned values.
- pydantic is not modelled as a library. Validation is the `Parse*` and `Strict*` functions over raw entries, with optional required fields and a malformed variant for entries of the wrong type.
- A collection whose value is a string or an object is modelled as a list of malformed entries. Iterating it yields characters or keys, none of which validates. Null, numbers and booleans are the `NotIterable` value.
- Text.Lower: covers ASCII, Latin-1 and Œ, not the whole Unicode case mapping of `str.lower`.
- Text.Tokens: the word characters of `\w` are approximated by ASCII letters and digits, `_`, Latin-1 letters and Latin Extended-A.
- A whitespace-only track label, on which `split()[0]` raises `IndexError`, is excluded by the `TrackHasLetter` precondition of the members that split the label.
- KbLoader.MetiersAlternatifs: `limite` is a natural number, so a negative slice bound is not modelled. The engine always passes 8.
- Scores are exact reals rather than floating-point numbers.
- `"Toutes" in str(filiere.series_bac_requises)` is modelled as "some requirement contains Toutes".
- The result dictionaries become datatypes. A recommended university carries the university record itself. The found-occupation analysis carries the `Metier` rather than copies of its fields. Text warnings and errors become `Avertissement` variants.
- The `list.sort` call is modelled as a stable insertion-sort function, `SortByKey`. `SortedUnique` shows that every sort by that key gives the same result here, because the names are distinct.
- `generer_donnees_pour_llm` is modelled only for its counts and its top-three slices. The prompt text it feeds belongs to llm_interface.py, which is not part of this model.
- llm_interface.py and app_student.py (network calls to the language model and the web interface) are not part of this model.
