/** The deterministic product-name resolver of `chatbot/tools/rag.py`
    (`match_product_name`), the quick exact match of its language-model
    variant (`match_product_name_2`) and the field projection of
    `get_structured_data`.

    The rapidfuzz scorers are collaborators: each is a function into [0, 100]
    that the model does not look inside. `process.extract` is modelled by what
    it returns for a list of choices: the choices scoring at least the cutoff,
    best first, ties in catalog order, at most `limit` of them. */
module Rag {

  import opened Wrappers
  import opened Text
  import opened History

  /** A similarity score as rapidfuzz returns it. */
  type Score = r: real | 0.0 <= r <= 100.0

  /** `fuzz.partial_ratio`, `fuzz.token_set_ratio` and `fuzz.ratio`. */
  datatype Scorers = Scorers(
    partialRatio: (string, string) -> Score,
    tokenSetRatio: (string, string) -> Score,
    ratio: (string, string) -> Score)

  /** One entry of `products_list`: a dict whose "name" and "id" keys may be absent. */
  datatype Product = Product(name: Option<string>, id: Option<string>)

  /** `item.get("name", "")` */
  function NameOf(p: Product): string
  {
    p.name.GetOr("")
  }

  /** `item.get("id", "")` */
  function IdOf(p: Product): string
  {
    p.id.GetOr("")
  }

  /** `valid_names`: one name per product, in catalog order. */
  function ValidNames(ps: seq<Product>): (ns: seq<string>)
    ensures |ns| == |ps|
    ensures forall i | 0 <= i < |ps| :: ns[i] == NameOf(ps[i])
  {
    if ps == [] then [] else [NameOf(ps[0])] + ValidNames(ps[1..])
  }

  /** `name_id_map`: a dict comprehension, so a later product with the same
      name overwrites an earlier one. */
  function NameIdMap(ps: seq<Product>): (m: map<string, string>)
    ensures forall k :: k in m <==> k in ValidNames(ps)
  {
    if ps == [] then map[]
    else
      var init := ps[..|ps| - 1];
      assert ValidNames(ps) == ValidNames(init) + [NameOf(ps[|ps| - 1])];
      NameIdMap(init)[NameOf(ps[|ps| - 1]) := IdOf(ps[|ps| - 1])]
  }

  /** The id a name maps to is that of the LAST product carrying the name. */
  lemma {:induction false} NameIdMapLast(ps: seq<Product>, i: nat)
    requires i < |ps|
    requires forall j | i < j < |ps| :: NameOf(ps[j]) != NameOf(ps[i])
    ensures NameOf(ps[i]) in NameIdMap(ps) && NameIdMap(ps)[NameOf(ps[i])] == IdOf(ps[i])
  {
    if i < |ps| - 1 {
      NameIdMapLast(ps[..|ps| - 1], i);
    }
  }

  /** Every id in the map is the id of a product of the catalog with that name. */
  lemma {:induction false} NameIdMapFromCatalog(ps: seq<Product>, k: string)
    requires k in NameIdMap(ps)
    ensures exists i | 0 <= i < |ps| :: NameOf(ps[i]) == k && IdOf(ps[i]) == NameIdMap(ps)[k]
  {
    var last := |ps| - 1;
    if NameOf(ps[last]) != k {
      NameIdMapFromCatalog(ps[..last], k);
      var i :| 0 <= i < last && NameOf(ps[..last][i]) == k && IdOf(ps[..last][i]) == NameIdMap(ps[..last])[k];
      assert ps[i] == ps[..last][i];
    } else {
      assert NameOf(ps[last]) == k && IdOf(ps[last]) == NameIdMap(ps)[k];
    }
  }

  /** `d.get(k, None)` */
  function Get(m: map<string, string>, k: string): Option<string>
  {
    if k in m then Some(m[k]) else None
  }

  /** The resolver's answer `{"product_name": ..., "product_id": ...}`. */
  datatype MatchResult = MatchResult(productName: Option<string>, productId: Option<string>)

  const NoMatch := MatchResult(None, None)

  /** An exception `match_product_name` lets escape. */
  datatype PyError = IndexError | AttributeError

  /** A call of `match_product_name`: it returns a result or raises. */
  datatype Outcome = Returned(result: MatchResult) | Raised(error: PyError)

  // ---------------------------------------------------------------------------
  // Stage 1: the history short-circuit

  /** The condition tested on one history item (k, v): the normalised predicted
      name or the normalised query is a substring of the lower-cased question
      or answer. */
  predicate HistoryItemHits(k: string, v: string, cleanPredicted: string, cleanQuery: string)
  {
    || Contains(Lower(k), cleanPredicted) || Contains(Lower(v), cleanPredicted)
    || Contains(Lower(k), cleanQuery) || Contains(Lower(v), cleanQuery)
  }

  /** The question of the first item that hits, scanning in order. */
  function HistoryHit(items: seq<(string, string)>, cleanPredicted: string, cleanQuery: string): (r: Option<string>)
    ensures r.Some? <==> exists i | 0 <= i < |items| :: HistoryItemHits(items[i].0, items[i].1, cleanPredicted, cleanQuery)
    ensures r.Some? ==> exists i | 0 <= i < |items| ::
      && items[i].0 == r.value
      && HistoryItemHits(items[i].0, items[i].1, cleanPredicted, cleanQuery)
      && forall j | 0 <= j < i :: !HistoryItemHits(items[j].0, items[j].1, cleanPredicted, cleanQuery)
  {
    if items == [] then None
    else if HistoryItemHits(items[0].0, items[0].1, cleanPredicted, cleanQuery) then
      assert HistoryItemHits(items[0].0, items[0].1, cleanPredicted, cleanQuery);
      Some(items[0].0)
    else
      var r := HistoryHit(items[1..], cleanPredicted, cleanQuery);
      assert forall i | 0 <= i < |items| - 1 :: items[1..][i] == items[i + 1];
      if r.Some? then
        var i :| 0 <= i < |items| - 1 && items[1..][i].0 == r.value
          && HistoryItemHits(items[1..][i].0, items[1..][i].1, cleanPredicted, cleanQuery)
          && forall j | 0 <= j < i :: !HistoryItemHits(items[1..][j].0, items[1..][j].1, cleanPredicted, cleanQuery);
        assert items[i + 1].0 == r.value;
        r
      else r
  }

  /** The empty string is a substring of every string, so an empty (or blank)
      predicted name makes the first item of the most recent non-empty record hit. */
  lemma EmptyPredictedHitsFirstItem(items: seq<(string, string)>, cleanQuery: string)
    requires items != []
    ensures HistoryHit(items, "", cleanQuery) == Some(items[0].0)
  {
    EmptyIsContained(Lower(items[0].0));
  }

  lemma EmptyIsContained(s: string)
    ensures Contains(s, "")
  {
    assert s[..0] == "";
  }

  method ScanHistory(recent: seq<HistoryRecord>, cleanPredicted: string, cleanQuery: string) returns (hit: Option<string>)
    ensures hit == HistoryHit(Items(recent), cleanPredicted, cleanQuery)
  {
    var i := 0;
    while i < |recent|
      invariant 0 <= i <= |recent|
      invariant HistoryHit(Items(recent), cleanPredicted, cleanQuery) == HistoryHit(Items(recent[i..]), cleanPredicted, cleanQuery)
    {
      var record := recent[i];
      assert recent[i..] == [record] + recent[i + 1..];
      ItemsAppend([record], recent[i + 1..]);
      var rest := Items(recent[i + 1..]);
      var j := 0;
      while j < |record|
        invariant 0 <= j <= |record|
        invariant HistoryHit(Items(recent), cleanPredicted, cleanQuery) == HistoryHit(record[j..] + rest, cleanPredicted, cleanQuery)
      {
        var (k, v) := record[j];
        assert (record[j..] + rest)[0] == (k, v);
        if Contains(Lower(k), cleanPredicted) || Contains(Lower(v), cleanPredicted) {
          return Some(k);
        }
        if Contains(Lower(k), cleanQuery) || Contains(Lower(v), cleanQuery) {
          return Some(k);
        }
        assert (record[j..] + rest)[1..] == record[j + 1..] + rest;
        j := j + 1;
      }
      assert record[j..] + rest == rest;
      i := i + 1;
    }
    return None;
  }

  // ---------------------------------------------------------------------------
  // Stages 2 and 4: exact normalised match

  /** The normalised form of every catalog name (`clean_name` in the loops). */
  function CleanNames(names: seq<string>): (cs: seq<string>)
    ensures |cs| == |names|
  {
    seq(|names|, i requires 0 <= i < |names| => Normalize(names[i]))
  }

  /** The index of the first occurrence of `x` (`|xs|` when there is none). */
  function FirstIndexOf(xs: seq<string>, x: string): (i: nat)
    ensures i <= |xs|
    ensures forall j | 0 <= j < i :: xs[j] != x
    ensures i < |xs| ==> xs[i] == x
  {
    if xs == [] || xs[0] == x then 0 else 1 + FirstIndexOf(xs[1..], x)
  }

  /** The exact stage: the first catalog name whose normalised form equals the
      cleaned text. */
  function ExactMatch(names: seq<string>, clean: string): (r: Option<string>)
    ensures r.Some? ==> r.value in names
  {
    var i := FirstIndexOf(CleanNames(names), clean);
    if i < |names| then Some(names[i]) else None
  }

  /** The exact stage finds a name exactly when some catalog name normalises to
      the cleaned text; it is then the first such name. */
  lemma ExactMatchFirst(names: seq<string>, clean: string)
    ensures ExactMatch(names, clean).None? <==> forall j | 0 <= j < |names| :: Normalize(names[j]) != clean
    ensures ExactMatch(names, clean).Some? ==> exists i | 0 <= i < |names| ::
      && names[i] == ExactMatch(names, clean).value && Normalize(names[i]) == clean
      && forall j | 0 <= j < i :: Normalize(names[j]) != clean
  {
    var cs := CleanNames(names);
    var i := FirstIndexOf(cs, clean);
    assert forall j | 0 <= j < |names| :: cs[j] == Normalize(names[j]);
  }

  method FindExact(names: seq<string>, clean: string) returns (r: Option<string>)
    ensures r == ExactMatch(names, clean)
  {
    ghost var cs := CleanNames(names);
    for i := 0 to |names|
      invariant forall j | 0 <= j < i :: cs[j] != clean
    {
      var cleanName := Normalize(names[i]);
      assert cs[i] == cleanName;
      if clean == cleanName {
        return Some(names[i]);
      }
    }
    return None;
  }

  // ---------------------------------------------------------------------------
  // Stable descending sort (Python's `list.sort(key=..., reverse=True)`)

  /** A name with a score: an entry of `process.extract`'s result or of `final_results`. */
  datatype Scored = Scored(name: string, score: real)

  ghost predicate IsDescending(s: seq<Scored>)
  {
    forall i, j | 0 <= i < j < |s| :: s[i].score >= s[j].score
  }

  /** Places `x` after every element that scores at least as high, so equal
      scores keep their input order. */
  function InsertDesc(sorted: seq<Scored>, x: Scored): (r: seq<Scored>)
    ensures multiset(r) == multiset(sorted) + multiset{x}
  {
    if sorted == [] then [x]
    else if sorted[|sorted| - 1].score >= x.score then sorted + [x]
    else
      var init, last := sorted[..|sorted| - 1], sorted[|sorted| - 1];
      assert sorted == init + [last];
      InsertDesc(init, x) + [last]
  }

  /** Insertion into a descending list keeps it descending. */
  lemma {:induction false} InsertDescSorted(sorted: seq<Scored>, x: Scored)
    requires IsDescending(sorted)
    ensures IsDescending(InsertDesc(sorted, x))
  {
    if sorted != [] {
      var init, last := sorted[..|sorted| - 1], sorted[|sorted| - 1];
      assert sorted == init + [last];
      if last.score >= x.score {
        forall y | y in sorted ensures y.score >= x.score {
          var k :| 0 <= k < |sorted| && sorted[k] == y;
        }
        DescendingSnoc(sorted, x);
      } else {
        assert IsDescending(init) by {
          forall i, j | 0 <= i < j < |init| ensures init[i].score >= init[j].score {
            assert init[i] == sorted[i] && init[j] == sorted[j];
          }
        }
        InsertDescSorted(init, x);
        var a := InsertDesc(init, x);
        forall y | y in a ensures y.score >= last.score {
          assert y in multiset(a);
          if y != x {
            assert y in multiset(init);
            var k :| 0 <= k < |init| && init[k] == y;
            assert sorted[k] == y;
          }
        }
        DescendingSnoc(a, last);
      }
    }
  }

  lemma DescendingSnoc(a: seq<Scored>, z: Scored)
    requires IsDescending(a) && forall y | y in a :: y.score >= z.score
    ensures IsDescending(a + [z])
  {
    var r := a + [z];
    forall i, j | 0 <= i < j < |r| ensures r[i].score >= r[j].score {
      assert r[i] == a[i];
      if j < |a| {
        assert r[j] == a[j];
      } else {
        assert a[i] in a;
      }
    }
  }

  /** `list.sort(key=lambda x: x["score"], reverse=True)`: stable, best first. */
  function SortDesc(s: seq<Scored>): (r: seq<Scored>)
    ensures multiset(r) == multiset(s) && |r| == |s|
    ensures IsDescending(r)
  {
    if s == [] then []
    else
      assert s == s[..|s| - 1] + [s[|s| - 1]];
      InsertDescSorted(SortDesc(s[..|s| - 1]), s[|s| - 1]);
      var r := InsertDesc(SortDesc(s[..|s| - 1]), s[|s| - 1]);
      assert |multiset(r)| == |r| && |multiset(s)| == |s|;
      r
  }

  /** The index of the first element with the highest score. */
  function FirstMaxIndex(s: seq<Scored>): (i: nat)
    requires s != []
    ensures i < |s|
    ensures forall j | 0 <= j < |s| :: s[j].score <= s[i].score
    ensures forall j | 0 <= j < i :: s[j].score < s[i].score
  {
    if |s| == 1 then 0
    else
      var m := FirstMaxIndex(s[..|s| - 1]);
      if s[|s| - 1].score > s[m].score then |s| - 1 else m
  }

  lemma {:induction false} InsertDescHead(sorted: seq<Scored>, x: Scored)
    requires sorted != [] && IsDescending(sorted)
    ensures InsertDesc(sorted, x)[0] == if sorted[0].score >= x.score then sorted[0] else x
  {
    var init := sorted[..|sorted| - 1];
    if sorted[|sorted| - 1].score < x.score && init != [] {
      InsertDescHead(init, x);
    }
  }

  /** After the stable sort, the head is the FIRST of the best-scoring entries. */
  lemma {:induction false} SortDescHead(s: seq<Scored>)
    requires s != []
    ensures SortDesc(s)[0] == s[FirstMaxIndex(s)]
  {
    if |s| > 1 {
      var init := s[..|s| - 1];
      SortDescHead(init);
      InsertDescHead(SortDesc(init), s[|s| - 1]);
    }
  }

  /** No element of the list outscores the head of its sort. */
  lemma SortDescHeadIsMax(s: seq<Scored>, x: Scored)
    requires x in s
    ensures SortDesc(s)[0] in s && x.score <= SortDesc(s)[0].score
  {
    var r := SortDesc(s);
    assert r[0] in multiset(s);
    assert x in multiset(r);
    var k :| 0 <= k < |r| && r[k] == x;
  }

  // ---------------------------------------------------------------------------
  // Stages 3 and 5: fuzzy match

  /** How many candidates `process.extract` returns. */
  const Limit := 5

  /** The thresholds of one fuzzy stage: the extract cutoff, the token-set and
      full-ratio floors below both of which a candidate is dropped, and the
      combined score the best candidate needs. */
  datatype FuzzyParams = FuzzyParams(cutoff: real, minTokenSet: real, minRatio: real, accept: real)

  /** rag.py:120-157 */
  const PredictedStage := FuzzyParams(90.0, 75.0, 60.0, 85.0)

  /** rag.py:178-216 */
  const QueryStage := FuzzyParams(85.0, 65.0, 50.0, 75.0)

  /** The catalog names scoring at least `cutoff` against `query`, in catalog order. */
  function AboveCutoff(sc: Scorers, query: string, names: seq<string>, cutoff: real): (r: seq<Scored>)
    ensures forall x | x in r :: x.name in names && x.score == sc.partialRatio(query, x.name) && x.score >= cutoff
    ensures forall n | n in names && sc.partialRatio(query, n) >= cutoff :: Scored(n, sc.partialRatio(query, n)) in r
  {
    if names == [] then []
    else
      var rest := AboveCutoff(sc, query, names[1..], cutoff);
      var p := sc.partialRatio(query, names[0]);
      if p >= cutoff then [Scored(names[0], p)] + rest else rest
  }

  function Take(s: seq<Scored>, n: nat): seq<Scored>
  {
    if |s| <= n then s else s[..n]
  }

  /** `process.extract(query, names, limit=5, scorer=fuzz.partial_ratio, score_cutoff=cutoff)` */
  function Extract(sc: Scorers, query: string, names: seq<string>, cutoff: real): seq<Scored>
  {
    Take(SortDesc(AboveCutoff(sc, query, names, cutoff)), Limit)
  }

  /** Every candidate Extract returns is a catalog name carrying its partial
      ratio, which clears the cutoff. */
  lemma ExtractMember(sc: Scorers, query: string, names: seq<string>, cutoff: real, x: Scored)
    requires x in Extract(sc, query, names, cutoff)
    ensures x.name in names && x.score == sc.partialRatio(query, x.name) && x.score >= cutoff
  {
    assert x in SortDesc(AboveCutoff(sc, query, names, cutoff));
    assert x in multiset(AboveCutoff(sc, query, names, cutoff));
  }

  /** Extract returns at most five candidates, best first; a name that clears
      the cutoff but is not returned was beaten by all five that were. */
  lemma ExtractTop(sc: Scorers, query: string, names: seq<string>, cutoff: real)
    ensures var r := Extract(sc, query, names, cutoff);
      && |r| <= Limit
      && IsDescending(r)
      && (forall n | n in names && sc.partialRatio(query, n) >= cutoff ::
            Scored(n, sc.partialRatio(query, n)) in r
            || (|r| == Limit && forall x | x in r :: x.score >= sc.partialRatio(query, n)))
  {
    var a := AboveCutoff(sc, query, names, cutoff);
    var s := SortDesc(a);
    var r := Extract(sc, query, names, cutoff);
    forall n | n in names && sc.partialRatio(query, n) >= cutoff
      ensures Scored(n, sc.partialRatio(query, n)) in r
        || (|r| == Limit && forall x | x in r :: x.score >= sc.partialRatio(query, n))
    {
      var y := Scored(n, sc.partialRatio(query, n));
      assert y in multiset(s);
      var k :| 0 <= k < |s| && s[k] == y;
      if k >= Limit {
        forall x | x in r ensures x.score >= y.score {
          var i :| 0 <= i < |r| && r[i] == x;
          assert s[i] == x;
        }
      } else {
        assert r[k] == y;
      }
    }
  }

  /** `token_set_ratio(name.lower(), raw.lower())` */
  function TokenScore(sc: Scorers, name: string, raw: string): Score
  {
    sc.tokenSetRatio(Lower(name), Lower(raw))
  }

  /** `ratio(name.lower(), raw.lower())` */
  function FullScore(sc: Scorers, name: string, raw: string): Score
  {
    sc.ratio(Lower(name), Lower(raw))
  }

  /** A candidate survives unless both its token-set and its full ratio are below their floors. */
  predicate Kept(c: Scored, raw: string, prm: FuzzyParams, sc: Scorers)
  {
    !(TokenScore(sc, c.name, raw) < prm.minTokenSet && FullScore(sc, c.name, raw) < prm.minRatio)
  }

  /** `name[0].lower() == raw[0].lower()` */
  predicate FirstLetterMatches(name: string, raw: string)
    requires name != [] && raw != []
  {
    LowerChar(name[0]) == LowerChar(raw[0])
  }

  /** The combined score 0.4 * partial + 0.4 * token-set + 0.2 * full, plus 10
      when the first letters agree. */
  function CombinedScore(c: Scored, raw: string, sc: Scorers): real
    requires c.name != [] && raw != []
  {
    var combined := c.score * 0.4 + TokenScore(sc, c.name, raw) * 0.4 + FullScore(sc, c.name, raw) * 0.2;
    if FirstLetterMatches(c.name, raw) then combined + 10.0 else combined
  }

  /** The `final_results` list built from the extracted candidates, or None when
      `name[0]` or `raw[0]` raises IndexError on an empty string. */
  function Rescore(cands: seq<Scored>, raw: string, prm: FuzzyParams, sc: Scorers): Option<seq<Scored>>
  {
    if cands == [] then Some([])
    else
      var c := cands[0];
      if !Kept(c, raw, prm, sc) then Rescore(cands[1..], raw, prm, sc)
      else if c.name == [] || raw == [] then None
      else match Rescore(cands[1..], raw, prm, sc)
        case None => None
        case Some(rest) => Some([Scored(c.name, CombinedScore(c, raw, sc))] + rest)
  }

  /** Rescoring raises exactly when a surviving candidate (or the raw text) is
      empty; otherwise it keeps exactly the surviving candidates, each with its
      combined score. */
  lemma {:induction false} RescoreKeepsSurvivors(cands: seq<Scored>, raw: string, prm: FuzzyParams, sc: Scorers)
    ensures var r := Rescore(cands, raw, prm, sc);
      && (r.None? <==> exists c | c in cands :: Kept(c, raw, prm, sc) && (c.name == [] || raw == []))
      && (r.Some? ==> forall x | x in r.value :: exists c | c in cands ::
            && Kept(c, raw, prm, sc) && c.name != [] && raw != []
            && x == Scored(c.name, CombinedScore(c, raw, sc)))
      && (r.Some? ==> forall c | c in cands && Kept(c, raw, prm, sc) ::
            c.name != [] && raw != [] && Scored(c.name, CombinedScore(c, raw, sc)) in r.value)
  {
    if cands != [] {
      RescoreKeepsSurvivors(cands[1..], raw, prm, sc);
      assert forall d | d in cands[1..] :: d in cands;
      assert forall d | d in cands :: d == cands[0] || d in cands[1..];
    }
  }

  /** What one fuzzy stage decides. */
  datatype StageOutcome = Hit(name: string) | Miss | StageError

  /** One fuzzy stage: extract, rescore, sort, and accept the head only when it
      reaches the bar. */
  function FuzzyStage(query: string, raw: string, names: seq<string>, prm: FuzzyParams, sc: Scorers): StageOutcome
  {
    match Rescore(Extract(sc, query, names, prm.cutoff), raw, prm, sc)
    case None => StageError
    case Some(fs) =>
      if fs != [] && SortDesc(fs)[0].score >= prm.accept then Hit(SortDesc(fs)[0].name) else Miss
  }

  /** A fuzzy stage accepts a name exactly when some surviving candidate reaches
      the bar; the name it accepts is the first of the best-scoring survivors,
      and every survivor scores at most as much. */
  lemma FuzzyStageDecides(query: string, raw: string, names: seq<string>, prm: FuzzyParams, sc: Scorers)
    requires Rescore(Extract(sc, query, names, prm.cutoff), raw, prm, sc).Some?
    ensures var fs := Rescore(Extract(sc, query, names, prm.cutoff), raw, prm, sc).value;
      var r := FuzzyStage(query, raw, names, prm, sc);
      && (r.Hit? <==> exists x | x in fs :: x.score >= prm.accept)
      && (r.Hit? ==> r.name == fs[FirstMaxIndex(fs)].name && forall x | x in fs :: x.score <= fs[FirstMaxIndex(fs)].score)
      && !r.StageError?
  {
    var fs := Rescore(Extract(sc, query, names, prm.cutoff), raw, prm, sc).value;
    if fs != [] {
      SortDescHead(fs);
      forall x | x in fs ensures x.score <= SortDesc(fs)[0].score {
        SortDescHeadIsMax(fs, x);
      }
    }
  }

  /** The name a fuzzy stage accepts is a catalog name that cleared the extract
      cutoff, survived the drop rule and reached the bar. */
  lemma FuzzyHitQualifies(query: string, raw: string, names: seq<string>, prm: FuzzyParams, sc: Scorers)
    requires FuzzyStage(query, raw, names, prm, sc).Hit?
    ensures var n := FuzzyStage(query, raw, names, prm, sc).name;
      var c := Scored(n, sc.partialRatio(query, n));
      && n in names && n != [] && raw != []
      && sc.partialRatio(query, n) >= prm.cutoff
      && Kept(c, raw, prm, sc)
      && CombinedScore(c, raw, sc) >= prm.accept
  {
    var cands := Extract(sc, query, names, prm.cutoff);
    RescoreKeepsSurvivors(cands, raw, prm, sc);
    var fs := Rescore(cands, raw, prm, sc).value;
    var best := SortDesc(fs)[0];
    assert best in multiset(SortDesc(fs));
    assert best in fs;
    assert FuzzyStage(query, raw, names, prm, sc).name == best.name;
    var c :| c in cands && Kept(c, raw, prm, sc) && c.name != [] && raw != [] && best == Scored(c.name, CombinedScore(c, raw, sc));
    ExtractMember(sc, query, names, prm.cutoff, c);
    assert c == Scored(best.name, sc.partialRatio(query, best.name));
  }

  function PrependTo(prefix: seq<Scored>, rest: Option<seq<Scored>>): Option<seq<Scored>>
  {
    match rest
    case None => None
    case Some(r) => Some(prefix + r)
  }

  method FuzzyMatch(query: string, raw: string, names: seq<string>, prm: FuzzyParams, sc: Scorers) returns (r: StageOutcome)
    ensures r == FuzzyStage(query, raw, names, prm, sc)
  {
    var results := Extract(sc, query, names, prm.cutoff);
    var finalResults: seq<Scored> := [];
    assert results[0..] == results;
    match Rescore(results, raw, prm, sc) {
      case None =>
      case Some(all) => assert [] + all == all;
    }
    for i := 0 to |results|
      invariant Rescore(results, raw, prm, sc) == PrependTo(finalResults, Rescore(results[i..], raw, prm, sc))
    {
      assert results[i..][1..] == results[i + 1..];
      var name := results[i].name;
      var partialScore := results[i].score;
      var tokenScore := sc.tokenSetRatio(Lower(name), Lower(raw));
      var fullScore := sc.ratio(Lower(name), Lower(raw));
      if tokenScore < prm.minTokenSet && fullScore < prm.minRatio {
        continue;
      }
      var combinedScore := partialScore * 0.4 + tokenScore * 0.4 + fullScore * 0.2;
      if name == [] || raw == [] {
        return StageError;
      }
      if LowerChar(name[0]) == LowerChar(raw[0]) {
        combinedScore := combinedScore + 10.0;
      }
      assert combinedScore == CombinedScore(results[i], raw, sc);
      ghost var tail := Rescore(results[i + 1..], raw, prm, sc);
      if tail.Some? {
        assert finalResults + ([Scored(name, combinedScore)] + tail.value) == (finalResults + [Scored(name, combinedScore)]) + tail.value;
      }
      finalResults := finalResults + [Scored(name, combinedScore)];
    }
    assert results[|results|..] == [];
    assert finalResults + [] == finalResults;
    assert Rescore(results, raw, prm, sc) == Some(finalResults);
    if finalResults != [] {
      finalResults := SortDesc(finalResults);
      if finalResults[0].score >= prm.accept {
        return Hit(finalResults[0].name);
      }
    }
    return Miss;
  }

  // ---------------------------------------------------------------------------
  // The resolver

  /** A catalog name resolved by stages 2-5, with `name_id_map[name]`. */
  function CatalogMatch(products: seq<Product>, name: string): (r: Outcome)
    requires name in ValidNames(products)
    ensures r.Returned? && r.result.productName == Some(name)
    ensures r.result.productId == Some(NameIdMap(products)[name])
    ensures IsCatalogAnswer(r, products)
  {
    Returned(MatchResult(Some(name), Some(NameIdMap(products)[name])))
  }

  /** Stages 2 and 3, attempted only for a non-empty predicted name; None when
      both miss and resolution falls through to the query stages. */
  function PredictedStages(predictedName: string, products: seq<Product>, sc: Scorers): Option<Outcome>
  {
    var names := ValidNames(products);
    var cleanPredicted := Normalize(predictedName);
    if predictedName == [] then None
    else
      var exact := ExactMatch(names, cleanPredicted);
      if exact.Some? then
        Some(CatalogMatch(products, exact.value))
      else match FuzzyStage(cleanPredicted, predictedName, names, PredictedStage, sc)
        case StageError => Some(Raised(IndexError))
        case Hit(n) =>
          FuzzyHitQualifies(cleanPredicted, predictedName, names, PredictedStage, sc);
          Some(CatalogMatch(products, n))
        case Miss => None
  }

  /** Stages 4, 5 and 6 on the user query. */
  function QueryStages(userQuery: string, products: seq<Product>, sc: Scorers): Outcome
  {
    var names := ValidNames(products);
    var cleanQuery := Normalize(userQuery);
    var exact := ExactMatch(names, cleanQuery);
    if exact.Some? then
      CatalogMatch(products, exact.value)
    else match FuzzyStage(cleanQuery, userQuery, names, QueryStage, sc)
      case StageError => Raised(IndexError)
      case Hit(n) =>
        FuzzyHitQualifies(cleanQuery, userQuery, names, QueryStage, sc);
        CatalogMatch(products, n)
      case Miss => Returned(NoMatch)
  }

  /** Stage 1: the question of the first recent history item that hits, if any. */
  function HistoryStage(userQuery: string, history: seq<HistoryRecord>, predictedName: string): Option<string>
  {
    if history == [] then None
    else HistoryHit(Items(Recent(history)), Normalize(predictedName), Normalize(userQuery))
  }

  /** `match_product_name(user_query, history, predicted_name, products_list)`,
      with `history` the list of records its body iterates. */
  function Resolve(userQuery: string, history: seq<HistoryRecord>, predictedName: string,
                   products: seq<Product>, sc: Scorers): Outcome
  {
    match HistoryStage(userQuery, history, predictedName)
    case Some(k) => Returned(MatchResult(Some(k), Get(NameIdMap(products), k)))
    case None =>
      match PredictedStages(predictedName, products, sc)
      case Some(o) => o
      case None => QueryStages(userQuery, products, sc)
  }

  /** rag.py:109-162, run for a non-empty predicted name. */
  method TryPredicted(predictedName: string, cleanPredicted: string, validNames: seq<string>,
                      nameIdMap: map<string, string>, productsList: seq<Product>, sc: Scorers)
    returns (r: Option<Outcome>)
    requires cleanPredicted == Normalize(predictedName)
    requires validNames == ValidNames(productsList) && nameIdMap == NameIdMap(productsList)
    ensures r == PredictedStages(predictedName, productsList, sc)
  {
    if predictedName != [] {
      var exact := FindExact(validNames, cleanPredicted);
      if exact.Some? {
        return Some(Returned(MatchResult(exact, Some(nameIdMap[exact.value]))));
      }
      var fuzzy := FuzzyMatch(cleanPredicted, predictedName, validNames, PredictedStage, sc);
      if fuzzy.StageError? {
        return Some(Raised(IndexError));
      }
      if fuzzy.Hit? {
        FuzzyHitQualifies(cleanPredicted, predictedName, validNames, PredictedStage, sc);
        return Some(Returned(MatchResult(Some(fuzzy.name), Some(nameIdMap[fuzzy.name]))));
      }
    }
    return None;
  }

  /** rag.py:169-223 */
  method TryQuery(userQuery: string, cleanQuery: string, validNames: seq<string>,
                  nameIdMap: map<string, string>, productsList: seq<Product>, sc: Scorers)
    returns (r: Outcome)
    requires cleanQuery == Normalize(userQuery)
    requires validNames == ValidNames(productsList) && nameIdMap == NameIdMap(productsList)
    ensures r == QueryStages(userQuery, productsList, sc)
  {
    var exact := FindExact(validNames, cleanQuery);
    if exact.Some? {
      return Returned(MatchResult(exact, Some(nameIdMap[exact.value])));
    }
    var fuzzy := FuzzyMatch(cleanQuery, userQuery, validNames, QueryStage, sc);
    if fuzzy.StageError? {
      return Raised(IndexError);
    }
    if fuzzy.Hit? {
      FuzzyHitQualifies(cleanQuery, userQuery, validNames, QueryStage, sc);
      return Returned(MatchResult(Some(fuzzy.name), Some(nameIdMap[fuzzy.name])));
    }
    return Returned(NoMatch);
  }

  /** `match_product_name`: the stages in priority order, each returning early. */
  method MatchProductName(userQuery: string, history: seq<HistoryRecord>, predictedName: string,
                          productsList: seq<Product>, sc: Scorers) returns (r: Outcome)
    ensures r == Resolve(userQuery, history, predictedName, productsList, sc)
  {
    var nameIdMap := NameIdMap(productsList);
    var validNames := ValidNames(productsList);
    var cleanQuery := Normalize(userQuery);
    var cleanPredicted := Normalize(predictedName);

    if history != [] {
      var hit := ScanHistory(Recent(history), cleanPredicted, cleanQuery);
      if hit.Some? {
        return Returned(MatchResult(hit, Get(nameIdMap, hit.value)));
      }
    }
    var predicted := TryPredicted(predictedName, cleanPredicted, validNames, nameIdMap, productsList, sc);
    if predicted.Some? {
      return predicted.value;
    }
    r := TryQuery(userQuery, cleanQuery, validNames, nameIdMap, productsList, sc);
  }

  // ---------------------------------------------------------------------------
  // What the resolver can answer

  /** A history hit answers with the hit question and whatever id the catalog
      holds for it; otherwise stages 2-5 answer with a catalog name and the id
      the name-to-id map holds for it (the last product listed under the
      name), or with the null result, or the scan raises IndexError. */
  lemma ResolveResults(userQuery: string, history: seq<HistoryRecord>, predictedName: string,
                       products: seq<Product>, sc: Scorers)
    ensures var r := Resolve(userQuery, history, predictedName, products, sc);
      var hit := HistoryStage(userQuery, history, predictedName);
      && (hit.Some? ==> r == Returned(MatchResult(Some(hit.value), Get(NameIdMap(products), hit.value))))
      && (hit.None? ==>
            || r == Returned(NoMatch)
            || r == Raised(IndexError)
            || IsCatalogAnswer(r, products))
  {
    if HistoryStage(userQuery, history, predictedName).None? {
      if PredictedStages(predictedName, products, sc).Some? {
        PredictedStagesResult(predictedName, products, sc);
      } else {
        QueryStagesResult(userQuery, products, sc);
      }
    }
  }

  /** A catalog answer: a catalog name with `name_id_map[name]`. */
  predicate IsCatalogAnswer(r: Outcome, products: seq<Product>)
  {
    && r.Returned? && r.result.productName.Some?
    && r.result.productName.value in ValidNames(products)
    && r.result.productId == Some(NameIdMap(products)[r.result.productName.value])
  }

  lemma PredictedStagesResult(predictedName: string, products: seq<Product>, sc: Scorers)
    requires PredictedStages(predictedName, products, sc).Some?
    ensures var o := PredictedStages(predictedName, products, sc).value;
      o == Raised(IndexError) || IsCatalogAnswer(o, products)
  {
    var names := ValidNames(products);
    var clean := Normalize(predictedName);
    var exact := ExactMatch(names, clean);
    var o := PredictedStages(predictedName, products, sc).value;
    if exact.Some? {
      assert o == CatalogMatch(products, exact.value);
    } else {
      var f := FuzzyStage(clean, predictedName, names, PredictedStage, sc);
      if f.Hit? {
        FuzzyHitQualifies(clean, predictedName, names, PredictedStage, sc);
        assert o == CatalogMatch(products, f.name);
      } else {
        assert o == Raised(IndexError);
      }
    }
  }

  lemma QueryStagesResult(userQuery: string, products: seq<Product>, sc: Scorers)
    ensures var o := QueryStages(userQuery, products, sc);
      o == Returned(NoMatch) || o == Raised(IndexError) || IsCatalogAnswer(o, products)
  {
    var names := ValidNames(products);
    var clean := Normalize(userQuery);
    var exact := ExactMatch(names, clean);
    var o := QueryStages(userQuery, products, sc);
    if exact.Some? {
      assert o == CatalogMatch(products, exact.value);
    } else {
      var f := FuzzyStage(clean, userQuery, names, QueryStage, sc);
      if f.Hit? {
        FuzzyHitQualifies(clean, userQuery, names, QueryStage, sc);
        assert o == CatalogMatch(products, f.name);
      }
    }
  }

  /** The null result comes only after every stage has missed: no history hit,
      no catalog name normalising to the predicted name (when one is given)
      nor to the query, and a fuzzy query stage that found nothing above its
      bar. */
  lemma NoMatchMeansAllStagesMissed(userQuery: string, history: seq<HistoryRecord>, predictedName: string,
                                    products: seq<Product>, sc: Scorers)
    ensures Resolve(userQuery, history, predictedName, products, sc) == Returned(NoMatch) ==>
      && HistoryStage(userQuery, history, predictedName).None?
      && (predictedName != [] ==> forall n | n in ValidNames(products) :: Normalize(n) != Normalize(predictedName))
      && (forall n | n in ValidNames(products) :: Normalize(n) != Normalize(userQuery))
      && FuzzyStage(Normalize(userQuery), userQuery, ValidNames(products), QueryStage, sc) == Miss
  {
    var names := ValidNames(products);
    if HistoryStage(userQuery, history, predictedName).None? {
      if PredictedStages(predictedName, products, sc).Some? {
        PredictedStagesResult(predictedName, products, sc);
      } else {
        assert Resolve(userQuery, history, predictedName, products, sc) == QueryStages(userQuery, products, sc);
        ExactMatchFirst(names, Normalize(userQuery));
        if predictedName != [] {
          ExactMatchFirst(names, Normalize(predictedName));
        }
      }
    }
  }

  /** A non-empty predicted name that differs from some catalog name only in
      case and in the spacing between words is resolved, when the history
      does not answer first, to a catalog name with the same normal form. */
  lemma PredictedSpellingVariantResolves(userQuery: string, history: seq<HistoryRecord>, predictedName: string,
                                         products: seq<Product>, sc: Scorers, n: string)
    requires HistoryStage(userQuery, history, predictedName).None?
    requires predictedName != [] && n in ValidNames(products) && Normalize(n) == Normalize(predictedName)
    ensures var r := Resolve(userQuery, history, predictedName, products, sc);
      && r.Returned? && r.result.productName.Some?
      && r.result.productName.value in ValidNames(products)
      && Normalize(r.result.productName.value) == Normalize(predictedName)
  {
    var names := ValidNames(products);
    ExactMatchFirst(names, Normalize(predictedName));
    var exact := ExactMatch(names, Normalize(predictedName));
    assert exact.Some?;
    assert Resolve(userQuery, history, predictedName, products, sc) == CatalogMatch(products, exact.value);
  }

  /** With a blank predicted name and a non-empty recent history, stage 1
      always answers with the first question of the most recent non-empty
      record. */
  lemma BlankPredictedNameAnswersFromHistory(userQuery: string, history: seq<HistoryRecord>, predictedName: string,
                                             products: seq<Product>, sc: Scorers)
    requires Normalize(predictedName) == [] && Items(Recent(history)) != []
    ensures var k := Items(Recent(history))[0].0;
      Resolve(userQuery, history, predictedName, products, sc) == Returned(MatchResult(Some(k), Get(NameIdMap(products), k)))
  {
    assert history != [];
    EmptyPredictedHitsFirstItem(Items(Recent(history)), Normalize(userQuery));
  }

  // ---------------------------------------------------------------------------
  // The caller's history argument

  /** `match_product_name` as `get_rag_answer` calls it: with the rendered
      history string where the body expects a list of records. A non-empty
      string is truthy, its characters are one-character strings, and
      `record.items()` raises AttributeError on the first of them; an empty
      string skips stage 1. */
  function ResolveWithRenderedHistory(userQuery: string, history: string, predictedName: string,
                                      products: seq<Product>, sc: Scorers): Outcome
  {
    if history != [] then Raised(AttributeError)
    else Resolve(userQuery, [], predictedName, products, sc)
  }

  /** Whenever the recent history holds a question, the call as written raises
      before any stage runs, while the resolver given the records answers from
      the history as intended (shown here for a blank predicted name). */
  lemma RenderedHistoryDefeatsResolver(userQuery: string, history: seq<HistoryRecord>, predictedName: string,
                                       products: seq<Product>, sc: Scorers)
    requires Items(Recent(history)) != []
    ensures ResolveWithRenderedHistory(userQuery, HistoryString(history), predictedName, products, sc) == Raised(AttributeError)
    ensures Normalize(predictedName) == [] ==>
      Resolve(userQuery, history, predictedName, products, sc).Returned?
  {
    assert |HistoryString(history)| >= 20;
    if Normalize(predictedName) == [] {
      BlankPredictedNameAnswersFromHistory(userQuery, history, predictedName, products, sc);
    }
  }

  // ---------------------------------------------------------------------------
  // The quick exact match of `match_product_name_2`

  /** `predicted_name.strip().lower() == name.strip().lower()` */
  predicate QuickEq(predictedName: string, name: string)
  {
    Lower(Strip(predictedName)) == Lower(Strip(name))
  }

  /** A quick match implies equal normal forms, so the exact stage of the
      resolver would accept the same name. */
  lemma QuickEqNormalize(predictedName: string, name: string)
    requires QuickEq(predictedName, name)
    ensures Normalize(predictedName) == Normalize(name)
  {
    StripLowerCommute(predictedName);
    StripLowerCommute(name);
  }

  /** What the quick loop does: return the first product that matches, raise
      KeyError on `record["name"]` or `record["id"]`, or fall through. */
  datatype QuickOutcome = QuickHit(result: MatchResult) | QuickKeyError | QuickMiss

  function QuickMatch(predictedName: string, products: seq<Product>): QuickOutcome
  {
    if products == [] then QuickMiss
    else if products[0].name.None? then QuickKeyError
    else if QuickEq(predictedName, products[0].name.value) then
      if products[0].id.None? then QuickKeyError
      else QuickHit(MatchResult(products[0].name, products[0].id))
    else QuickMatch(predictedName, products[1..])
  }

  /** The loop falls through exactly when every product has a name and none
      matches. */
  lemma {:induction false} QuickMissIff(predictedName: string, products: seq<Product>)
    ensures QuickMatch(predictedName, products).QuickMiss?
      <==> forall i | 0 <= i < |products| :: products[i].name.Some? && !QuickEq(predictedName, products[i].name.value)
  {
    if products != [] {
      QuickMissIff(predictedName, products[1..]);
      assert forall i | 0 < i < |products| :: products[i] == products[1..][i - 1];
    }
  }

  /** A hit is the first product that matches, returned with its own name and
      id, after products that all had names and did not match. */
  lemma {:induction false} QuickHitFirst(predictedName: string, products: seq<Product>) returns (i: nat)
    requires QuickMatch(predictedName, products).QuickHit?
    ensures i < |products|
    ensures var m := QuickMatch(predictedName, products).result;
      && products[i].name == m.productName && products[i].id == m.productId
      && m.productName.Some? && QuickEq(predictedName, m.productName.value)
    ensures forall j | 0 <= j < i :: products[j].name.Some? && !QuickEq(predictedName, products[j].name.value)
  {
    if products[0].name.Some? && QuickEq(predictedName, products[0].name.value) {
      i := 0;
    } else {
      var k := QuickHitFirst(predictedName, products[1..]);
      i := k + 1;
      assert forall j | 0 < j <= i :: products[j] == products[1..][j - 1];
    }
  }

  /** A quick hit names a catalog product whose name has the normal form of the
      predicted name. */
  lemma QuickHitIsCatalogName(predictedName: string, products: seq<Product>)
    requires QuickMatch(predictedName, products).QuickHit?
    ensures var n := QuickMatch(predictedName, products).result.productName;
      n.Some? && n.value in ValidNames(products) && Normalize(n.value) == Normalize(predictedName)
  {
    var i := QuickHitFirst(predictedName, products);
    var n := products[i].name.value;
    assert ValidNames(products)[i] == n;
    QuickEqNormalize(predictedName, n);
  }

  method QuickExactMatch(predictedName: string, productsList: seq<Product>) returns (r: QuickOutcome)
    ensures r == QuickMatch(predictedName, productsList)
  {
    var wanted := Lower(Strip(predictedName));
    for i := 0 to |productsList|
      invariant QuickMatch(predictedName, productsList) == QuickMatch(predictedName, productsList[i..])
    {
      var record := productsList[i];
      assert productsList[i..][1..] == productsList[i + 1..];
      if record.name.None? {
        return QuickKeyError;
      }
      if wanted == Lower(Strip(record.name.value)) {
        if record.id.None? {
          return QuickKeyError;
        }
        return QuickHit(MatchResult(record.name, record.id));
      }
    }
    assert productsList[|productsList|..] == [];
    return QuickMiss;
  }

  // ---------------------------------------------------------------------------
  // `get_structured_data`

  /** `RELEVANT_FIELDS` */
  const RelevantFields: seq<string> :=
    ["product_name", "issuer_name", "issue_date", "product_type", "payout_timeline", "is_on_sale"]

  /** A stored document: its fields in insertion order. */
  type Document = seq<(string, string)>

  predicate IsRelevant(field: (string, string))
  {
    field.0 in RelevantFields
  }

  /** `{k: v for k, v in document.items() if k in RELEVANT_FIELDS}` */
  function Project(doc: Document): (r: Document)
  {
    if doc == [] then []
    else if IsRelevant(doc[0]) then [doc[0]] + Project(doc[1..])
    else Project(doc[1..])
  }

  /** The projection keeps exactly the document's pairs whose field is in
      `RELEVANT_FIELDS`, and takes nothing from elsewhere. */
  lemma {:induction false} ProjectKeepsRelevant(doc: Document)
    ensures forall p | p in Project(doc) :: p in doc && p.0 in RelevantFields
    ensures forall p | p in doc :: p in Project(doc) <==> p.0 in RelevantFields
  {
    if doc != [] {
      ProjectKeepsRelevant(doc[1..]);
      assert forall p | p in doc :: p == doc[0] || p in doc[1..];
      assert forall p | p in doc[1..] :: p in doc;
    }
  }

  /** The projection keeps the fields in document order: it distributes over
      concatenation. */
  lemma {:induction false} ProjectAppend(a: Document, b: Document)
    ensures Project(a + b) == Project(a) + Project(b)
  {
    if a == [] {
      assert a + b == b;
    } else {
      assert (a + b)[0] == a[0];
      assert (a + b)[1..] == a[1..] + b;
      ProjectAppend(a[1..], b);
      if IsRelevant(a[0]) {
        assert Project(a + b) == [a[0]] + (Project(a[1..]) + Project(b));
      }
    }
  }

  /** Which lookup is made: by a non-empty `product_id` in preference to a
      non-empty `product_name`, or none. */
  datatype Lookup = ByProductId(id: string) | ByProductName(name: string) | NoLookup

  function ChooseLookup(productName: Option<string>, productId: Option<string>): (l: Lookup)
    ensures l.ByProductId? <==> productId.Some? && productId.value != []
    ensures l.ByProductName? <==> !(productId.Some? && productId.value != []) && productName.Some? && productName.value != []
    ensures l.ByProductId? ==> l.id == productId.value
    ensures l.ByProductName? ==> l.name == productName.value
  {
    if productId.Some? && productId.value != [] then ByProductId(productId.value)
    else if productName.Some? && productName.value != [] then ByProductName(productName.value)
    else NoLookup
  }

  /** `structured_data_collection.find_one({field: value})`: a matching document, if any. */
  type Finder = (string, string) -> Option<Document>

  /** `get_structured_data`: the relevant fields of the document found, or the
      empty object when there is nothing to look up or nothing is found. */
  function GetStructuredData(productName: Option<string>, productId: Option<string>, find: Finder): (r: Document)
    ensures forall p | p in r :: p.0 in RelevantFields
    ensures ChooseLookup(productName, productId).NoLookup? ==> r == []
    ensures ChooseLookup(productName, productId).ByProductId? ==>
      var doc := find("product_id", productId.value);
      && (doc.None? ==> r == [])
      && (doc.Some? ==> forall p | p in r :: p in doc.value)
      && (doc.Some? ==> forall p | p in doc.value :: p in r <==> p.0 in RelevantFields)
    ensures ChooseLookup(productName, productId).ByProductName? ==>
      var doc := find("product_name", productName.value);
      && (doc.None? ==> r == [])
      && (doc.Some? ==> forall p | p in r :: p in doc.value)
      && (doc.Some? ==> forall p | p in doc.value :: p in r <==> p.0 in RelevantFields)
  {
    var doc := match ChooseLookup(productName, productId)
      case ByProductId(id) => find("product_id", id).GetOr([])
      case ByProductName(n) => find("product_name", n).GetOr([])
      case NoLookup => [];
    ProjectKeepsRelevant(doc);
    Project(doc)
  }

  // ---------------------------------------------------------------------------
  // How `get_rag_answer` uses the resolver's answer

  /** The dict `match_product_name` returns: both keys, always. */
  function ResultDict(m: MatchResult): map<string, Option<string>>
  {
    map["product_name" := m.productName, "product_id" := m.productId]
  }

  /** `get_structured_data(product_id=product_id) if product_id else
      get_structured_data(product_name=product_name)` */
  function RagFacts(m: MatchResult, find: Finder): Document
  {
    if m.productId.Some? && m.productId.value != [] then GetStructuredData(None, m.productId, find)
    else GetStructuredData(m.productName, None, find)
  }

  /** The answer dict is never empty, so `if matched_product_names:` always
      holds and the "could not find any product" prompt is never built; for
      the null answer the facts are the empty object. The caller's two calls
      amount to one call with both arguments. */
  lemma NoMatchBranchUnreachable(m: MatchResult, find: Finder)
    ensures ResultDict(m).Keys == {"product_name", "product_id"} && |ResultDict(m)| == 2
    ensures RagFacts(m, find) == GetStructuredData(m.productName, m.productId, find)
    ensures m == NoMatch ==> RagFacts(m, find) == []
  {
    assert "product_name" != "product_id" by {
      assert "product_name"[8] != "product_id"[8];
    }
    assert ResultDict(m).Keys == {"product_name", "product_id"};
  }
}
