/**
 * The ranking-request logic of the prioritiser REST controller: resolving the
 * prioritiser name, de-duplicating phenotypes, resolving gene identifiers,
 * sorting and truncating the results, and echoing the request parameters.
 * The phenotype scorers themselves are opaque: they enter as a given function.
 */
module Prioritiser {
  import opened Wrappers
  import opened JavaText
  import opened Seqs

  // ---------------------------------------------------------------------------
  // Prioritiser name
  // ---------------------------------------------------------------------------

  datatype PriorityType = PhenixPriority | PhivePriority | HiphivePriority

  /** `parsePrioritserType`: "phenix", "phive", and everything else (including "hiphive") is HiPhive. */
  function ParsePriorityType(name: string): (t: PriorityType)
    ensures t == PhenixPriority <==> name == "phenix"
    ensures t == PhivePriority <==> name == "phive"
    ensures t == HiphivePriority <==> name != "phenix" && name != "phive"
  {
    if name == "phenix" then PhenixPriority
    else if name == "phive" then PhivePriority
    else HiphivePriority
  }

  /** The name is trimmed before it is parsed. */
  function ResolvePriorityType(name: string): PriorityType
  {
    ParsePriorityType(Trim(name))
  }

  lemma {:induction false} TrimStartAppendBlank(s: string, c: char)
    requires IsTrimmable(c)
    ensures TrimStart(s + [c]) == if TrimStart(s) == [] then [] else TrimStart(s) + [c]
  {
    if s == [] {
      assert TrimStart([c]) == TrimStart([c][1..]);
    } else if IsTrimmable(s[0]) {
      assert (s + [c])[1..] == s[1..] + [c];
      TrimStartAppendBlank(s[1..], c);
    } else {
      assert (s + [c])[0] == s[0];
    }
  }

  lemma TrimLeadingBlank(s: string, c: char)
    requires IsTrimmable(c)
    ensures Trim([c] + s) == Trim(s)
  {
    assert ([c] + s)[1..] == s;
  }

  lemma TrimTrailingBlank(s: string, c: char)
    requires IsTrimmable(c)
    ensures Trim(s + [c]) == Trim(s)
  {
    TrimStartAppendBlank(s, c);
    var t := TrimStart(s);
    if t != [] {
      assert (t + [c])[..|t + [c]| - 1] == t;
      assert TrimEnd(t + [c]) == TrimEnd(t);
    }
  }

  /** Resolution never fails: the trimmed name decides, and unknown names resolve to HiPhive. */
  lemma ResolutionIsTotal(name: string)
    ensures ResolvePriorityType(name) == PhenixPriority <==> Trim(name) == "phenix"
    ensures ResolvePriorityType(name) == PhivePriority <==> Trim(name) == "phive"
    ensures Trim(name) != "phenix" && Trim(name) != "phive" ==> ResolvePriorityType(name) == HiphivePriority
  {
  }

  /** Blanks around the name, however many, do not change the resolved type. */
  lemma {:induction false} SurroundingBlanksIgnored(pre: string, name: string, post: string)
    requires forall k :: 0 <= k < |pre| ==> IsTrimmable(pre[k])
    requires forall k :: 0 <= k < |post| ==> IsTrimmable(post[k])
    ensures ResolvePriorityType(pre + name + post) == ResolvePriorityType(name)
    decreases |pre| + |post|
  {
    if pre != [] {
      assert pre + name + post == [pre[0]] + (pre[1..] + name + post);
      TrimLeadingBlank(pre[1..] + name + post, pre[0]);
      SurroundingBlanksIgnored(pre[1..], name, post);
    } else if post != [] {
      var n := |post| - 1;
      var shorter := pre + name + post[..n];
      assert pre + name + post == shorter + [post[n]];
      TrimTrailingBlank(shorter, post[n]);
      assert Trim(pre + name + post) == Trim(shorter);
      SurroundingBlanksIgnored(pre, name, post[..n]);
    } else {
      assert pre + name + post == name;
    }
  }

  // ---------------------------------------------------------------------------
  // Phenotypes
  // ---------------------------------------------------------------------------

  /** `stream().distinct()`: the first occurrence of each element, in order. */
  function Distinct<T(==)>(xs: seq<T>): seq<T>
  {
    if xs == [] then []
    else
      var r := Distinct(xs[..|xs| - 1]);
      if xs[|xs| - 1] in r then r else r + [xs[|xs| - 1]]
  }

  predicate NoDuplicates<T(==)>(xs: seq<T>)
  {
    forall i, j :: 0 <= i < j < |xs| ==> xs[i] != xs[j]
  }

  /**
   * The de-duplicated phenotypes: no duplicates, the same elements, and in
   * the order of their first occurrence.
   */
  lemma {:induction false} DistinctSpec<T>(xs: seq<T>)
    ensures NoDuplicates(Distinct(xs))
    ensures forall x :: x in Distinct(xs) ==> x in xs
    ensures forall x :: x in xs ==> x in Distinct(xs)
    ensures forall i, j :: 0 <= i < j < |Distinct(xs)| ==>
              FirstIndex(xs, Distinct(xs)[i]) < FirstIndex(xs, Distinct(xs)[j])
  {
    if xs != [] {
      var n := |xs| - 1;
      var init, last := xs[..n], xs[n];
      var r := Distinct(init);
      DistinctSpec(init);
      assert xs == init + [last];
      forall x | x in r ensures FirstIndex(init, x) == FirstIndex(xs, x) {
        assert x in init;
        FirstIndexOfPrefix(xs, n, x);
      }
      if last !in r {
        assert last !in init;
        assert FirstIndex(xs, last) == n;
        var r' := r + [last];
        forall i, j | 0 <= i < j < |r'| ensures FirstIndex(xs, r'[i]) < FirstIndex(xs, r'[j]) {
          if j < |r| {
            assert FirstIndex(init, r[i]) < FirstIndex(init, r[j]);
          } else {
            assert r'[i] in r && FirstIndex(xs, r'[i]) == FirstIndex(init, r'[i]);
          }
        }
      } else {
        forall i, j | 0 <= i < j < |r| ensures FirstIndex(xs, r[i]) < FirstIndex(xs, r[j]) {
          assert FirstIndex(init, r[i]) < FirstIndex(init, r[j]);
        }
      }
    }
  }

  /** A repeated term is passed on once. */
  lemma DistinctDropsRepeat(t: string)
    ensures Distinct([t, t]) == [t]
  {
    assert [t][..0] == [];
    assert Distinct([t]) == [t];
    assert [t, t][..1] == [t];
  }

  // ---------------------------------------------------------------------------
  // Genes
  // ---------------------------------------------------------------------------

  /** A gene as the controller builds it: symbol and Entrez id, -1 when unknown. */
  datatype Gene = Gene(symbol: string, entrezId: int)

  /** The known-gene-identifier map (gene id to symbol) as its entries, in iteration order. */
  type GeneIdentifiers = seq<(string, string)>

  predicate UniqueKeys(es: seq<(string, string)>)
  {
    forall i, j :: 0 <= i < j < |es| ==> es[i].0 != es[j].0
  }

  /** Keys that differ from their symbol are Entrez ids, which `Integer.parseInt` reads. */
  predicate NumericIdKeys(es: GeneIdentifiers)
  {
    forall i :: 0 <= i < |es| && es[i].0 != es[i].1 ==> IsDecimal(es[i].0)
  }

  /** `geneIdentifiers.get(key)`. */
  function Lookup(es: GeneIdentifiers, key: string): (r: Option<string>)
    ensures r.None? <==> forall i :: 0 <= i < |es| ==> es[i].0 != key
    ensures r.Some? ==> exists i :: 0 <= i < |es| && es[i] == (key, r.value)
  {
    if es == [] then None
    else if es[0].0 == key then Some(es[0].1)
    else
      Lookup(es[1..], key)
  }

  /** The symbol synthesised for an id with no known symbol. */
  function PlaceholderSymbol(id: int): string
  {
    "GENE:" + IntToString(id)
  }

  /** One gene per known identifier: key equal to symbol means no Entrez id (-1). */
  function GeneOfEntry(key: string, symbol: string): Gene
    requires key != symbol ==> IsDecimal(key)
  {
    if key == symbol then Gene(symbol, -1) else Gene(symbol, ParseInt(key))
  }

  function GenesOfAll(es: GeneIdentifiers): (r: seq<Gene>)
    requires NumericIdKeys(es)
    ensures |r| == |es|
    ensures forall i :: 0 <= i < |es| ==> r[i] == GeneOfEntry(es[i].0, es[i].1)
  {
    if es == [] then [] else [GeneOfEntry(es[0].0, es[0].1)] + GenesOfAll(es[1..])
  }

  /** One gene per requested id, with the known symbol or a placeholder. */
  function GeneOfId(es: GeneIdentifiers, id: int): (g: Gene)
    ensures g.entrezId == id
  {
    match Lookup(es, IntToString(id))
    case Some(symbol) => Gene(symbol, id)
    case None => Gene(PlaceholderSymbol(id), id)
  }

  function GenesOfIds(es: GeneIdentifiers, ids: seq<int>): (r: seq<Gene>)
    ensures |r| == |ids|
    ensures forall i :: 0 <= i < |ids| ==> r[i] == GeneOfId(es, ids[i])
  {
    if ids == [] then [] else [GeneOfId(es, ids[0])] + GenesOfIds(es, ids[1..])
  }

  /** `parseGeneIdentifiers`: every known gene when no ids are given, else one gene per id. */
  function ParseGeneIdentifiers(es: GeneIdentifiers, ids: seq<int>): (r: seq<Gene>)
    requires ids == [] ==> NumericIdKeys(es)
    ensures ids != [] ==> |r| == |ids| && forall i :: 0 <= i < |ids| ==> r[i].entrezId == ids[i]
    ensures ids == [] ==> |r| == |es| && forall i :: 0 <= i < |es| ==> r[i].symbol == es[i].1
  {
    if ids == [] then GenesOfAll(es) else GenesOfIds(es, ids)
  }

  /** A requested id keeps its known symbol, and an unknown one gets "GENE:" and the id, which names it uniquely. */
  lemma RequestedGeneSymbol(es: GeneIdentifiers, ids: seq<int>, i: nat, j: nat)
    requires ids != [] && i < |ids| && j < |ids|
    ensures var r := ParseGeneIdentifiers(es, ids);
      && (Lookup(es, IntToString(ids[i])).Some? ==> r[i].symbol == Lookup(es, IntToString(ids[i])).value)
      && (Lookup(es, IntToString(ids[i])).None? ==> r[i].symbol == PlaceholderSymbol(ids[i]))
    ensures PlaceholderSymbol(ids[i]) == PlaceholderSymbol(ids[j]) ==> ids[i] == ids[j]
  {
    var p, q := PlaceholderSymbol(ids[i]), PlaceholderSymbol(ids[j]);
    if p == q {
      assert p[5..] == IntToString(ids[i]) && q[5..] == IntToString(ids[j]);
      IntToStringIsInjective(ids[i], ids[j]);
    }
  }

  /**
   * The two ways of resolving genes agree: a known gene whose key is the
   * canonical text of its Entrez id resolves, when requested by that id, to
   * the same gene as in the whole-genome list.
   */
  lemma ResolutionPathsAgree(es: GeneIdentifiers, i: nat, id: int)
    requires NumericIdKeys(es) && UniqueKeys(es)
    requires i < |es| && es[i].0 == IntToString(id) && es[i].0 != es[i].1
    ensures ParseGeneIdentifiers(es, [])[i] == ParseGeneIdentifiers(es, [id])[0]
  {
    IntRoundTrip(id);
    var r := Lookup(es, IntToString(id));
    assert r.Some?;
    var k :| 0 <= k < |es| && es[k] == (IntToString(id), r.value);
    assert k == i;
  }

  // ---------------------------------------------------------------------------
  // Results
  // ---------------------------------------------------------------------------

  /** A gene's result from the chosen prioritiser. */
  datatype PriorityResult = PriorityResult(gene: Gene, priorityType: PriorityType, score: real)

  /** `prioritizeGenes` then `getPriorityResult`: the opaque scorer's result for each gene, in gene order. */
  function ScoreGenes(
    genes: seq<Gene>, priorityType: PriorityType, phenotypes: seq<string>, params: string,
    scorer: (PriorityType, seq<string>, string, Gene) -> real): (r: seq<PriorityResult>)
    ensures |r| == |genes|
    ensures forall i :: 0 <= i < |genes| ==>
              r[i] == PriorityResult(genes[i], priorityType, scorer(priorityType, phenotypes, params, genes[i]))
  {
    if genes == [] then []
    else [PriorityResult(genes[0], priorityType, scorer(priorityType, phenotypes, params, genes[0]))]
         + ScoreGenes(genes[1..], priorityType, phenotypes, params, scorer)
  }

  /** The results' natural order: a higher score first. */
  predicate SortedByScore(rs: seq<PriorityResult>)
  {
    forall i, j :: 0 <= i < j < |rs| ==> rs[i].score >= rs[j].score
  }

  /** The results of one score, in order. */
  function WithScore(rs: seq<PriorityResult>, v: real): seq<PriorityResult>
  {
    if rs == [] then []
    else (if rs[0].score == v then [rs[0]] else []) + WithScore(rs[1..], v)
  }

  /** Places `x` ahead of every result it does not rank below, so it keeps its place among equals. */
  function Insert(x: PriorityResult, rs: seq<PriorityResult>): seq<PriorityResult>
  {
    if rs == [] || x.score >= rs[0].score then [x] + rs
    else [rs[0]] + Insert(x, rs[1..])
  }

  /** `sorted(Comparator.naturalOrder())`: a stable sort. */
  function SortResults(rs: seq<PriorityResult>): seq<PriorityResult>
  {
    if rs == [] then [] else Insert(rs[0], SortResults(rs[1..]))
  }

  lemma {:induction false} InsertKeepsElements(x: PriorityResult, rs: seq<PriorityResult>)
    ensures multiset(Insert(x, rs)) == multiset([x] + rs)
  {
    if rs != [] && x.score < rs[0].score {
      InsertKeepsElements(x, rs[1..]);
      assert rs == [rs[0]] + rs[1..];
    }
  }

  lemma {:induction false} InsertKeepsSorted(x: PriorityResult, rs: seq<PriorityResult>)
    requires SortedByScore(rs)
    ensures SortedByScore(Insert(x, rs))
  {
    if rs != [] && x.score < rs[0].score {
      var tail := Insert(x, rs[1..]);
      InsertKeepsSorted(x, rs[1..]);
      InsertKeepsElements(x, rs[1..]);
      forall k | 0 <= k < |tail| ensures rs[0].score >= tail[k].score {
        assert tail[k] in multiset([x] + rs[1..]);
        assert tail[k] == x || tail[k] in rs[1..];
      }
    }
  }

  lemma {:induction false} InsertIsStable(x: PriorityResult, rs: seq<PriorityResult>, v: real)
    ensures WithScore(Insert(x, rs), v) == WithScore([x] + rs, v)
  {
    if rs != [] && x.score < rs[0].score {
      var tail := Insert(x, rs[1..]);
      InsertIsStable(x, rs[1..], v);
      assert ([rs[0]] + tail)[1..] == tail;
      assert ([x] + rs)[1..] == rs;
      assert ([x] + rs[1..])[1..] == rs[1..];
    }
  }

  /**
   * Sorting orders the results by descending score, keeps exactly the same
   * results, and keeps the input order among results of equal score.
   */
  lemma {:induction false} SortResultsSpec(rs: seq<PriorityResult>)
    ensures SortedByScore(SortResults(rs))
    ensures multiset(SortResults(rs)) == multiset(rs)
    ensures forall v :: WithScore(SortResults(rs), v) == WithScore(rs, v)
  {
    if rs != [] {
      var rest := SortResults(rs[1..]);
      SortResultsSpec(rs[1..]);
      InsertKeepsSorted(rs[0], rest);
      InsertKeepsElements(rs[0], rest);
      assert rs == [rs[0]] + rs[1..];
      forall v ensures WithScore(SortResults(rs), v) == WithScore(rs, v) {
        InsertIsStable(rs[0], rest, v);
        assert ([rs[0]] + rest)[1..] == rest;
      }
    }
  }

  datatype IllegalArgument = IllegalArgument(limit: int)

  /**
   * `getPrioritiserResults`: sort, then keep everything when `limit` is 0 and
   * the first `limit` results otherwise; `Stream.limit` rejects a negative limit.
   */
  function PrioritiserResults(limit: int, results: seq<PriorityResult>): (r: Result<seq<PriorityResult>, IllegalArgument>)
    ensures r.Err? <==> limit < 0
  {
    var sorted := SortResults(results);
    if limit == 0 then Ok(sorted)
    else if limit < 0 then Err(IllegalArgument(limit))
    else Ok(sorted[..if limit < |sorted| then limit else |sorted|])
  }

  /** With `limit` 0 the whole result list comes back, sorted, as a permutation of the input. */
  lemma UnlimitedReturnsAll(results: seq<PriorityResult>)
    ensures PrioritiserResults(0, results).Ok?
    ensures var r := PrioritiserResults(0, results).value;
      SortedByScore(r) && multiset(r) == multiset(results) && |r| == |results|
  {
    SortResultsSpec(results);
    assert |multiset(SortResults(results))| == |multiset(results)|;
  }

  /** A positive `limit` keeps the first min(limit, n) sorted results: the cut is by count, never by score. */
  lemma LimitCutsByCount(limit: int, results: seq<PriorityResult>)
    requires limit > 0
    ensures PrioritiserResults(limit, results).Ok?
    ensures var r := PrioritiserResults(limit, results).value;
      var sorted := SortResults(results);
      && |r| == (if limit < |results| then limit else |results|)
      && r == sorted[..|r|]
      && SortedByScore(r)
      && forall i, j :: 0 <= i < |r| <= j < |sorted| ==> r[i].score >= sorted[j].score
  {
    SortResultsSpec(results);
    assert |multiset(SortResults(results))| == |multiset(results)|;
  }

  // ---------------------------------------------------------------------------
  // The request
  // ---------------------------------------------------------------------------

  /** The entries after `put(k, v)`: an existing key keeps its place and takes the new value, a new key goes last. */
  function Updated(es: seq<(string, string)>, k: string, v: string): seq<(string, string)>
  {
    if es == [] then [(k, v)]
    else if es[0].0 == k then [(k, v)] + es[1..]
    else [es[0]] + Updated(es[1..], k, v)
  }

  /** `put` appends a new key, and overwrites an existing one in place. */
  lemma {:induction false} UpdatedSpec(es: seq<(string, string)>, k: string, v: string)
    requires UniqueKeys(es)
    ensures UniqueKeys(Updated(es, k, v))
    ensures (forall i :: 0 <= i < |es| ==> es[i].0 != k) ==> Updated(es, k, v) == es + [(k, v)]
    ensures forall i :: 0 <= i < |es| && es[i].0 == k ==> Updated(es, k, v) == es[i := (k, v)]
  {
    if es != [] {
      UpdatedSpec(es[1..], k, v);
      var r := Updated(es, k, v);
      if es[0].0 != k {
        var t := Updated(es[1..], k, v);
        assert r == [es[0]] + t;
        forall i | 0 <= i < |t| ensures t[i].0 != es[0].0 {
          if (forall j :: 0 <= j < |es[1..]| ==> es[1..][j].0 != k) {
            assert t == es[1..] + [(k, v)];
            if i < |es[1..]| { assert es[1..][i] == es[i + 1]; }
          } else {
            var j :| 0 <= j < |es[1..]| && es[1..][j].0 == k;
            assert t == es[1..][j := (k, v)];
            if i != j { assert t[i] == es[i + 1]; }
          }
        }
        forall i | 0 <= i < |es| && es[i].0 == k ensures r == es[i := (k, v)] {
          assert es[1..][i - 1].0 == k;
        }
      } else {
        forall i | 0 <= i < |es| && es[i].0 == k ensures i == 0 {
        }
      }
    }
  }

  /** A `LinkedHashMap<String, String>`: its entries in first-insertion order. */
  class ParamMap {
    var entries: seq<(string, string)>

    /** A map holds each key once; `Put` relies on it to append or overwrite in place. */
    ghost predicate Valid()
      reads this
    {
      UniqueKeys(entries)
    }

    constructor ()
      ensures Valid() && entries == []
    {
      entries := [];
    }

    method Put(k: string, v: string)
      requires Valid()
      modifies this
      ensures Valid()
      ensures entries == Updated(old(entries), k, v)
      ensures (forall i :: 0 <= i < |old(entries)| ==> old(entries)[i].0 != k) ==> entries == old(entries) + [(k, v)]
      ensures forall i :: 0 <= i < |old(entries)| && old(entries)[i].0 == k ==> entries == old(entries)[i := (k, v)]
    {
      UpdatedSpec(entries, k, v);
      entries := Updated(entries, k, v);
    }
  }

  /** The echoed request: five successive `put`s into a fresh `LinkedHashMap`. */
  method EchoParams(phenotypes: seq<string>, geneIds: seq<int>, prioritiserName: string, prioritiserParams: string, limit: int)
    returns (params: seq<(string, string)>)
    ensures params == [
              ("phenotypes", ListToString(phenotypes)),
              ("genes", ListToString(IntsToStrings(geneIds))),
              ("prioritiser", prioritiserName),
              ("prioritiser-params", prioritiserParams),
              ("limit", IntToString(limit))]
  {
    var e0 := ("phenotypes", ListToString(phenotypes));
    var e1 := ("genes", ListToString(IntsToStrings(geneIds)));
    var e2 := ("prioritiser", prioritiserName);
    var e3 := ("prioritiser-params", prioritiserParams);
    var e4 := ("limit", IntToString(limit));
    // each key is new, so every put appends
    var m := new ParamMap();
    m.Put(e0.0, e0.1);
    m.Put(e1.0, e1.1);
    m.Put(e2.0, e2.1);
    m.Put(e3.0, e3.1);
    m.Put(e4.0, e4.1);
    params := m.entries;
  }

  datatype PrioritiserResultSet = PrioritiserResultSet(params: seq<(string, string)>, results: seq<PriorityResult>)

  /**
   * `prioritise`: resolve the prioritiser, score the resolved genes against
   * the de-duplicated phenotypes, sort and truncate, and echo the request.
   */
  method Prioritise(
    es: GeneIdentifiers, scorer: (PriorityType, seq<string>, string, Gene) -> real,
    phenotypes: seq<string>, geneIds: seq<int>, prioritiserName: string, prioritiserParams: string, limit: int)
    returns (r: Result<PrioritiserResultSet, IllegalArgument>)
    requires geneIds == [] ==> NumericIdKeys(es)
    ensures r.Err? <==> limit < 0
    ensures r.Ok? ==> r.value.params == [
              ("phenotypes", ListToString(phenotypes)),
              ("genes", ListToString(IntsToStrings(geneIds))),
              ("prioritiser", prioritiserName),
              ("prioritiser-params", prioritiserParams),
              ("limit", IntToString(limit))]
    ensures r.Ok? ==>
              var priorityType := ResolvePriorityType(prioritiserName);
              var genes := ParseGeneIdentifiers(es, geneIds);
              var scored := ScoreGenes(genes, priorityType, Distinct(phenotypes), prioritiserParams, scorer);
              r.value.results == PrioritiserResults(limit, scored).value
  {
    var priorityType := ResolvePriorityType(prioritiserName);
    var uniquePhenotypes := Distinct(phenotypes);
    var genes := ParseGeneIdentifiers(es, geneIds);
    var scored := ScoreGenes(genes, priorityType, uniquePhenotypes, prioritiserParams, scorer);
    var results := PrioritiserResults(limit, scored);
    if results.Err? {
      return Err(results.error);
    }
    var params := EchoParams(phenotypes, geneIds, prioritiserName, prioritiserParams, limit);
    r := Ok(PrioritiserResultSet(params, results.value));
  }
}
