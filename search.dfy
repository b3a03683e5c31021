/** `search_cities_in_database`: a linear filter over the city catalog that
    keeps, in insertion order, every entry whose name, country or key contains
    the normalised query. */
module Search {
  import opened Text
  import opened Tables
  import opened Catalog
  import opened Responses

  /** One element of `matches`. */
  datatype SearchMatch = SearchMatch(name: string, country: string, population: nat)

  /** The header line and the one bullet line per match of the report. */
  datatype SearchLine = FoundHeader(count: nat, query: string) | MatchBullet(city: SearchMatch)

  /** The success record: `report`, `matches` and `count`. */
  datatype SearchResult = SearchResult(report: seq<SearchLine>, matches: seq<SearchMatch>, count: nat)

  /** The filter condition of the search loop for the normalised query `q`. */
  predicate EntryMatches(q: string, e: (string, CityInfo)) {
    Contains(q, Lower(e.1.name)) || Contains(q, Lower(e.1.country)) || Contains(q, e.0)
  }

  function Project(e: (string, CityInfo)): SearchMatch {
    SearchMatch(e.1.name, e.1.country, e.1.population)
  }

  /** The matches of the entries of `db`, in the order of `db`. */
  function Filter(db: seq<(string, CityInfo)>, q: string): seq<SearchMatch> {
    if db == [] then []
    else Filter(db[..|db| - 1], q) + (if EntryMatches(q, db[|db| - 1]) then [Project(db[|db| - 1])] else [])
  }

  /** The positions of the matching entries of `db`, in increasing order. */
  function MatchIndices(db: seq<(string, CityInfo)>, q: string): seq<int> {
    if db == [] then []
    else MatchIndices(db[..|db| - 1], q) + (if EntryMatches(q, db[|db| - 1]) then [|db| - 1] else [])
  }

  /** The matching positions are exactly the positions whose entry matches, strictly increasing. */
  lemma {:induction false} MatchIndicesExact(db: seq<(string, CityInfo)>, q: string)
    ensures forall k :: 0 <= k < |MatchIndices(db, q)| ==> 0 <= MatchIndices(db, q)[k] < |db|
    ensures forall a, b :: 0 <= a < b < |MatchIndices(db, q)| ==> MatchIndices(db, q)[a] < MatchIndices(db, q)[b]
    ensures forall i :: 0 <= i < |db| ==> (i in MatchIndices(db, q) <==> EntryMatches(q, db[i]))
  {
    if db != [] {
      var init := db[..|db| - 1];
      MatchIndicesExact(init, q);
      forall i | 0 <= i < |init|
        ensures init[i] == db[i]
      {
      }
    }
  }

  /** `matches` is the projection of the matching entries, position by position. */
  lemma {:induction false} FilterFollowsIndices(db: seq<(string, CityInfo)>, q: string)
    ensures |Filter(db, q)| == |MatchIndices(db, q)|
    ensures forall k :: 0 <= k < |Filter(db, q)| ==>
      0 <= MatchIndices(db, q)[k] < |db| && Filter(db, q)[k] == Project(db[MatchIndices(db, q)[k]])
  {
    if db != [] {
      var init := db[..|db| - 1];
      FilterFollowsIndices(init, q);
      MatchIndicesExact(init, q);
    }
  }

  /** Soundness: every reported match comes from an entry that matches the query. */
  lemma FilterSound(db: seq<(string, CityInfo)>, q: string, m: SearchMatch)
    requires m in Filter(db, q)
    ensures exists i :: 0 <= i < |db| && EntryMatches(q, db[i]) && m == Project(db[i])
  {
    FilterFollowsIndices(db, q);
    MatchIndicesExact(db, q);
    var k :| 0 <= k < |Filter(db, q)| && Filter(db, q)[k] == m;
    var i := MatchIndices(db, q)[k];
    assert i in MatchIndices(db, q);
  }

  /** Completeness: every matching entry is reported. */
  lemma FilterComplete(db: seq<(string, CityInfo)>, q: string, i: int)
    requires 0 <= i < |db| && EntryMatches(q, db[i])
    ensures Project(db[i]) in Filter(db, q)
  {
    FilterFollowsIndices(db, q);
    MatchIndicesExact(db, q);
    var k :| 0 <= k < |MatchIndices(db, q)| && MatchIndices(db, q)[k] == i;
    assert Filter(db, q)[k] == Project(db[i]);
  }

  /** The positions of the entries that match. */
  ghost function MatchingSet(db: seq<(string, CityInfo)>, q: string): set<int> {
    set i | 0 <= i < |db| && EntryMatches(q, db[i])
  }

  /** The number of matches is the number of entries that match. */
  lemma {:induction false} FilterCount(db: seq<(string, CityInfo)>, q: string)
    ensures |Filter(db, q)| == |MatchingSet(db, q)|
  {
    if db != [] {
      var n := |db| - 1;
      var init := db[..n];
      FilterCount(init, q);
      var before, after := MatchingSet(init, q), MatchingSet(db, q);
      assert forall i :: 0 <= i < n ==> init[i] == db[i];
      assert n !in before;
      assert after - {n} == before;
      if EntryMatches(q, db[n]) {
        assert after == before + {n};
      } else {
        assert after == before;
      }
    }
  }

  /** A query that normalises to the empty string matches every city, since `"" in s` holds for every `s`. */
  lemma {:induction false} EmptyQueryMatchesAll(db: seq<(string, CityInfo)>)
    ensures |Filter(db, "")| == |db|
    ensures forall i :: 0 <= i < |db| ==> Filter(db, "")[i] == Project(db[i])
  {
    if db != [] {
      var init := db[..|db| - 1];
      EmptyQueryMatchesAll(init);
      ContainsEmpty(db[|db| - 1].0);
      assert forall i :: 0 <= i < |init| ==> init[i] == db[i];
    }
  }

  /** Searching for a catalog key, in any casing or padding, finds that city. */
  lemma SearchByKeyFinds(db: seq<(string, CityInfo)>, i: int, query: string)
    requires 0 <= i < |db| && Normalize(query) == db[i].0
    ensures Project(db[i]) in Filter(db, Normalize(query))
  {
    assert Contains(db[i].0, db[i].0);
    FilterComplete(db, db[i].0, i);
  }

  /** `search_cities_in_database(query)` over the catalog `db`. */
  method SearchCitiesInDatabase(db: seq<(string, CityInfo)>, query: string) returns (r: Result<SearchResult>)
    ensures r.Success? <==> Filter(db, Normalize(query)) != []
    ensures r.Error? ==> r.message == NoSearchMatches(query)
    ensures r.Success? ==>
      && r.value.matches == Filter(db, Normalize(query))
      && r.value.count == |r.value.matches| >= 1
      && |r.value.report| == 1 + r.value.count
      && r.value.report[0] == FoundHeader(r.value.count, query)
      && forall k :: 0 <= k < r.value.count ==> r.value.report[k + 1] == MatchBullet(r.value.matches[k])
  {
    var q := Normalize(query);
    var matches: seq<SearchMatch> := [];
    for i := 0 to |db|
      invariant matches == Filter(db[..i], q)
    {
      var (key, info) := db[i];
      assert db[..i + 1][..i] == db[..i];
      if Contains(q, Lower(info.name)) || Contains(q, Lower(info.country)) || Contains(q, key) {
        matches := matches + [SearchMatch(info.name, info.country, info.population)];
      }
    }
    assert db[..|db|] == db;
    if matches == [] {
      return Error(NoSearchMatches(query));
    }
    var report := [FoundHeader(|matches|, query)];
    for k := 0 to |matches|
      invariant |report| == 1 + k
      invariant report[0] == FoundHeader(|matches|, query)
      invariant forall j :: 0 <= j < k ==> report[j + 1] == MatchBullet(matches[j])
    {
      report := report + [MatchBullet(matches[k])];
    }
    r := Success(SearchResult(report, matches, |matches|));
  }
}
