/**
 * The last three steps of `_recommander_universites`
 * (recommendation_logic_student.py, lines 126-138): keep the first entry
 * of each university name, sort public universities first and then by
 * name, keep ten.
 */
module Ranking {
  import opened Records
  import opened Text
  import opened Seqs
  import opened KbLoader

  function NomU(e: UniversiteRecommandee): string {
    e.universite.nomUniversite
  }

  /** The names already seen (`noms_vus`). */
  function NomsVus(s: seq<UniversiteRecommandee>): set<string> {
    set e | e in s :: NomU(e)
  }

  predicate DistinctNames(s: seq<UniversiteRecommandee>) {
    forall i, j :: 0 <= i < j < |s| ==> NomU(s[i]) != NomU(s[j])
  }

  // ---------------------------------------------------------------------------
  // Deduplication by name, keeping the first occurrence
  // ---------------------------------------------------------------------------

  function Dedup(s: seq<UniversiteRecommandee>): seq<UniversiteRecommandee> {
    if s == [] then []
    else
      var d := Dedup(s[..|s| - 1]);
      var x := s[|s| - 1];
      if NomU(x) in NomsVus(d) then d else d + [x]
  }

  lemma DedupStep(s: seq<UniversiteRecommandee>, i: nat)
    requires i < |s|
    ensures Dedup(s[..i + 1]) == if NomU(s[i]) in NomsVus(Dedup(s[..i])) then Dedup(s[..i]) else Dedup(s[..i]) + [s[i]]
  {
    assert s[..i + 1][..i] == s[..i];
  }

  /** Deduplication leaves no two entries with the same name. */
  lemma {:induction false} DedupDistinct(s: seq<UniversiteRecommandee>)
    ensures DistinctNames(Dedup(s))
  {
    if s != [] {
      var init, x := s[..|s| - 1], s[|s| - 1];
      DedupDistinct(init);
      var d := Dedup(init);
      if NomU(x) !in NomsVus(d) {
        forall i | 0 <= i < |d| ensures NomU(d[i]) != NomU(x) {
          assert d[i] in d;
        }
      }
    }
  }

  /** Deduplication keeps every name of its input, and no other. */
  lemma {:induction false} DedupNames(s: seq<UniversiteRecommandee>)
    ensures NomsVus(Dedup(s)) == NomsVus(s)
  {
    if s != [] {
      var init, x := s[..|s| - 1], s[|s| - 1];
      DedupNames(init);
      assert s == init + [x];
      assert NomsVus(s) == NomsVus(init) + {NomU(x)};
      var d := Dedup(init);
      if NomU(x) !in NomsVus(d) {
        assert NomsVus(d + [x]) == NomsVus(d) + {NomU(x)};
      }
    }
  }

  /** Deduplication keeps the surviving entries in input order. */
  lemma {:induction false} DedupOrder(s: seq<UniversiteRecommandee>)
    ensures Subseq(Dedup(s), s)
  {
    if s != [] {
      var init, x := s[..|s| - 1], s[|s| - 1];
      DedupOrder(init);
      var d := Dedup(init);
      assert s == init + [x];
      if NomU(x) in NomsVus(d) {
        SubseqExtend(d, init, x);
      } else {
        SubseqSnoc(d, init, x);
      }
    }
  }

  /** Each kept entry is the first entry of the input that carries its name. */
  lemma {:induction false} DedupKeepsFirst(s: seq<UniversiteRecommandee>, i: nat)
    requires i < |Dedup(s)|
    ensures exists k :: 0 <= k < |s| && s[k] == Dedup(s)[i] && forall j :: 0 <= j < k ==> NomU(s[j]) != NomU(s[k])
  {
    var init, x := s[..|s| - 1], s[|s| - 1];
    var d := Dedup(init);
    if i < |d| {
      DedupKeepsFirst(init, i);
      var k :| 0 <= k < |init| && init[k] == d[i] && forall j :: 0 <= j < k ==> NomU(init[j]) != NomU(init[k]);
      assert s[k] == init[k];
      assert Dedup(s)[i] == d[i];
    } else {
      assert NomU(x) !in NomsVus(d) && Dedup(s) == d + [x];
      assert s[|s| - 1] == Dedup(s)[i];
      DedupNames(init);
      forall j | 0 <= j < |s| - 1 ensures NomU(s[j]) != NomU(x) {
        assert s[j] == init[j] && init[j] in init;
      }
    }
  }

  // ---------------------------------------------------------------------------
  // The sort key `(statut != "Public", nom_universite)`
  // ---------------------------------------------------------------------------

  predicate IsPublic(e: UniversiteRecommandee) {
    e.universite.statut == "Public"
  }

  /** `key(a) <= key(b)`: `False < True` on the first component, then the names. */
  predicate KeyLe(a: UniversiteRecommandee, b: UniversiteRecommandee) {
    (IsPublic(a) && !IsPublic(b)) || (IsPublic(a) == IsPublic(b) && StrLe(NomU(a), NomU(b)))
  }

  lemma KeyLeTotal(a: UniversiteRecommandee, b: UniversiteRecommandee)
    ensures KeyLe(a, b) || KeyLe(b, a)
  {
    StrLeTotal(NomU(a), NomU(b));
  }

  lemma KeyLeTransitive(a: UniversiteRecommandee, b: UniversiteRecommandee, c: UniversiteRecommandee)
    requires KeyLe(a, b) && KeyLe(b, c)
    ensures KeyLe(a, c)
  {
    if IsPublic(a) == IsPublic(b) && IsPublic(b) == IsPublic(c) {
      StrLeTransitive(NomU(a), NomU(b), NomU(c));
    }
  }

  /** Two entries with equal keys have the same name. */
  lemma KeyLeAntisymmetric(a: UniversiteRecommandee, b: UniversiteRecommandee)
    requires KeyLe(a, b) && KeyLe(b, a)
    ensures NomU(a) == NomU(b)
  {
    StrLeAntisymmetric(NomU(a), NomU(b));
  }

  predicate Sorted(s: seq<UniversiteRecommandee>) {
    forall i, j :: 0 <= i < j < |s| ==> KeyLe(s[i], s[j])
  }

  // ---------------------------------------------------------------------------
  // `list.sort(key=...)`: a stable sort, written as insertion sort
  // ---------------------------------------------------------------------------

  /** Insert `x` after every entry whose key is not greater than its own. */
  function Insert(x: UniversiteRecommandee, s: seq<UniversiteRecommandee>): (r: seq<UniversiteRecommandee>)
    ensures multiset(r) == multiset(s) + multiset{x}
    ensures |r| == |s| + 1
  {
    if s == [] then [x]
    else if KeyLe(s[0], x) then
      assert s == [s[0]] + s[1..];
      [s[0]] + Insert(x, s[1..])
    else [x] + s
  }

  lemma {:induction false} InsertSorted(x: UniversiteRecommandee, s: seq<UniversiteRecommandee>)
    requires Sorted(s)
    ensures Sorted(Insert(x, s))
  {
    if s != [] {
      var r := Insert(x, s);
      if KeyLe(s[0], x) {
        InsertSorted(x, s[1..]);
        var t := Insert(x, s[1..]);
        forall j | 0 <= j < |t| ensures KeyLe(s[0], t[j]) {
          assert t[j] in multiset(t);
          if t[j] != x {
            assert t[j] in multiset(s[1..]);
            var k :| 0 <= k < |s[1..]| && s[1..][k] == t[j];
            assert s[k + 1] == t[j];
          }
        }
        assert r == [s[0]] + t;
      } else {
        KeyLeTotal(s[0], x);
        forall j | 0 < j < |r| ensures KeyLe(x, r[j]) {
          assert r[j] == s[j - 1];
          if j > 1 {
            KeyLeTransitive(x, s[0], s[j - 1]);
          }
        }
      }
    }
  }

  function SortByKey(s: seq<UniversiteRecommandee>): (r: seq<UniversiteRecommandee>)
    ensures multiset(r) == multiset(s)
  {
    if s == [] then []
    else
      assert s == s[..|s| - 1] + [s[|s| - 1]];
      Insert(s[|s| - 1], SortByKey(s[..|s| - 1]))
  }

  lemma {:induction false} SortByKeySorted(s: seq<UniversiteRecommandee>)
    ensures Sorted(SortByKey(s))
  {
    if s != [] {
      SortByKeySorted(s[..|s| - 1]);
      InsertSorted(s[|s| - 1], SortByKey(s[..|s| - 1]));
    }
  }

  lemma {:induction false} InsertDistinct(x: UniversiteRecommandee, s: seq<UniversiteRecommandee>)
    requires DistinctNames(s) && NomU(x) !in NomsVus(s)
    ensures DistinctNames(Insert(x, s))
  {
    if s != [] && KeyLe(s[0], x) {
      assert s[0] in s;
      assert NomsVus(s[1..]) <= NomsVus(s) by {
        forall e | e in s[1..] ensures e in s { }
      }
      InsertDistinct(x, s[1..]);
      var t := Insert(x, s[1..]);
      forall j | 0 <= j < |t| ensures NomU(s[0]) != NomU(t[j]) {
        assert t[j] in multiset(t);
        if t[j] != x {
          assert t[j] in multiset(s[1..]);
          var k :| 0 <= k < |s[1..]| && s[1..][k] == t[j];
          assert s[k + 1] == t[j];
        }
      }
    } else if s != [] {
      forall j | 0 <= j < |s| ensures NomU(x) != NomU(s[j]) {
        assert s[j] in s;
      }
    }
  }

  /** Sorting keeps the entries, hence their names and their distinctness. */
  lemma {:induction false} SortByKeyDistinct(s: seq<UniversiteRecommandee>)
    requires DistinctNames(s)
    ensures DistinctNames(SortByKey(s))
  {
    if s != [] {
      var init, x := s[..|s| - 1], s[|s| - 1];
      assert DistinctNames(init) by {
        forall i, j | 0 <= i < j < |init| ensures NomU(init[i]) != NomU(init[j]) {
          assert init[i] == s[i] && init[j] == s[j];
        }
      }
      SortByKeyDistinct(init);
      assert NomU(x) !in NomsVus(SortByKey(init)) by {
        forall e | e in SortByKey(init) ensures NomU(e) != NomU(x) {
          assert e in multiset(init);
          var j :| 0 <= j < |init| && init[j] == e;
          assert s[j] == e;
        }
      }
      InsertDistinct(x, SortByKey(init));
    }
  }

  /** Two sorted arrangements of the same entries, with distinct names, start with the same entry. */
  lemma SortedSameHead(a: seq<UniversiteRecommandee>, b: seq<UniversiteRecommandee>)
    requires Sorted(a) && Sorted(b) && multiset(a) == multiset(b) && DistinctNames(a) && a != []
    ensures b != [] && a[0] == b[0]
  {
    assert a[0] in multiset(b);
    assert b[0] in multiset(a);
    var k :| 0 <= k < |b| && b[k] == a[0];
    var m :| 0 <= m < |a| && a[m] == b[0];
    if m != 0 {
      if k == 0 {
        assert false;
      } else {
        assert KeyLe(a[0], b[0]) && KeyLe(b[0], a[0]);
        KeyLeAntisymmetric(a[0], b[0]);
        assert false;
      }
    }
  }

  /**
   * A sequence with distinct names has one sorted order only, so the
   * insertion sort agrees with any other correct sort by this key,
   * whatever algorithm it uses.
   */
  lemma {:induction false} SortedUnique(a: seq<UniversiteRecommandee>, b: seq<UniversiteRecommandee>)
    requires Sorted(a) && Sorted(b) && multiset(a) == multiset(b) && DistinctNames(a)
    ensures a == b
    decreases |a|
  {
    if a == [] {
      assert |b| == |multiset(b)| == 0;
    } else {
      SortedSameHead(a, b);
      SameTails(a, b);
      SortedTail(a);
      SortedTail(b);
      SortedUnique(a[1..], b[1..]);
      assert a == [a[0]] + a[1..] && b == [b[0]] + b[1..];
    }
  }

  lemma SortedTail(a: seq<UniversiteRecommandee>)
    requires a != [] && Sorted(a)
    ensures Sorted(a[1..])
    ensures DistinctNames(a) ==> DistinctNames(a[1..])
  {
    forall i, j | 0 <= i < j < |a[1..]| ensures KeyLe(a[1..][i], a[1..][j]) && (DistinctNames(a) ==> NomU(a[1..][i]) != NomU(a[1..][j])) {
      assert a[1..][i] == a[i + 1] && a[1..][j] == a[j + 1];
    }
  }

  lemma SameTails(a: seq<UniversiteRecommandee>, b: seq<UniversiteRecommandee>)
    requires a != [] && b != [] && a[0] == b[0] && multiset(a) == multiset(b)
    ensures multiset(a[1..]) == multiset(b[1..])
  {
    assert a == [a[0]] + a[1..] && b == [b[0]] + b[1..];
    assert multiset(a) == multiset{a[0]} + multiset(a[1..]);
    assert multiset(b) == multiset{b[0]} + multiset(b[1..]);
    assert multiset(a[1..]) == multiset(a) - multiset{a[0]};
    assert multiset(b[1..]) == multiset(b) - multiset{b[0]};
  }

  /** The ranking step: `Take(SortByKey(Dedup(s)), 10)`. */
  function Rank(s: seq<UniversiteRecommandee>): seq<UniversiteRecommandee> {
    Take(SortByKey(Dedup(s)), 10)
  }

  /**
   * The ranking keeps at most ten entries with distinct names, public
   * universities before the others and names in order within each group.
   */
  lemma RankShape(s: seq<UniversiteRecommandee>)
    ensures |Rank(s)| <= 10
    ensures DistinctNames(Rank(s))
    ensures Sorted(Rank(s))
    ensures forall i, j :: 0 <= i < j < |Rank(s)| && IsPublic(Rank(s)[j]) ==> IsPublic(Rank(s)[i])
  {
    var d := Dedup(s);
    DedupDistinct(s);
    SortByKeySorted(d);
    SortByKeyDistinct(d);
    var sorted := SortByKey(d);
    var r := Rank(s);
    assert r <= sorted;
    forall i, j | 0 <= i < j < |r| ensures KeyLe(r[i], r[j]) && NomU(r[i]) != NomU(r[j]) {
      assert r[i] == sorted[i] && r[j] == sorted[j];
    }
  }

  /**
   * Every ranked entry is the first entry of its name in the input; one
   * entry is ranked per name, up to ten, so when the input holds at most
   * ten names every one of them is ranked; and a first entry left out
   * comes, in the sort order, after every entry kept.
   */
  lemma RankMembers(s: seq<UniversiteRecommandee>)
    ensures forall e :: e in Rank(s) ==> exists k :: 0 <= k < |s| && s[k] == e && forall j :: 0 <= j < k ==> NomU(s[j]) != NomU(e)
    ensures |Rank(s)| == if |NomsVus(s)| <= 10 then |NomsVus(s)| else 10
    ensures |NomsVus(s)| <= 10 ==> NomsVus(Rank(s)) == NomsVus(s)
    ensures forall e, x :: e in Dedup(s) && e !in Rank(s) && x in Rank(s) ==> KeyLe(x, e)
  {
    RankCount(s);
    RankKeepsSmallest(s);
    var d := Dedup(s);
    var sorted := SortByKey(d);
    var r := Rank(s);
    forall e | e in r ensures exists k :: 0 <= k < |s| && s[k] == e && forall j :: 0 <= j < k ==> NomU(s[j]) != NomU(e) {
      assert e in multiset(d);
      var i :| 0 <= i < |d| && d[i] == e;
      DedupKeepsFirst(s, i);
    }
    if |NomsVus(s)| <= 10 {
      DedupDistinct(s);
      DedupNames(s);
      DistinctNamesCard(d);
      assert r == sorted;
      forall n | n in NomsVus(d) ensures n in NomsVus(sorted) {
        var e :| e in d && NomU(e) == n;
        assert e in multiset(sorted);
      }
      forall n | n in NomsVus(sorted) ensures n in NomsVus(d) {
        var e :| e in sorted && NomU(e) == n;
        assert e in multiset(d);
      }
    }
  }

  /** One ranked entry per distinct name, at most ten. */
  lemma RankCount(s: seq<UniversiteRecommandee>)
    ensures |Rank(s)| == if |NomsVus(s)| <= 10 then |NomsVus(s)| else 10
  {
    var d := Dedup(s);
    DedupDistinct(s);
    DedupNames(s);
    DistinctNamesCard(d);
    assert |SortByKey(d)| == |multiset(SortByKey(d))| == |multiset(d)| == |d|;
  }

  /** The entries cut by the ten-entry limit sort after every entry kept. */
  lemma RankKeepsSmallest(s: seq<UniversiteRecommandee>)
    ensures forall e, x :: e in Dedup(s) && e !in Rank(s) && x in Rank(s) ==> KeyLe(x, e)
  {
    var d := Dedup(s);
    var sorted := SortByKey(d);
    var r := Rank(s);
    SortByKeySorted(d);
    assert r <= sorted;
    forall e, x | e in d && e !in r && x in r ensures KeyLe(x, e) {
      assert e in multiset(sorted);
      var j :| 0 <= j < |sorted| && sorted[j] == e;
      var i :| 0 <= i < |r| && r[i] == x;
      assert sorted[i] == x;
    }
  }

  lemma {:induction false} DedupMember(s: seq<UniversiteRecommandee>, e: UniversiteRecommandee)
    requires e in Dedup(s)
    ensures e in s
  {
    var init := s[..|s| - 1];
    if e in Dedup(init) {
      DedupMember(init, e);
    }
  }

  /** Distinct names: the sequence is as long as its set of names. */
  lemma {:induction false} DistinctNamesCard(s: seq<UniversiteRecommandee>)
    requires DistinctNames(s)
    ensures |NomsVus(s)| == |s|
  {
    if s != [] {
      var init, x := s[..|s| - 1], s[|s| - 1];
      DistinctNamesCard(init);
      assert NomsVus(s) == NomsVus(init) + {NomU(x)} by {
        assert s == init + [x];
      }
      assert NomU(x) !in NomsVus(init);
    }
  }
}
