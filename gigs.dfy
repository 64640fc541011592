/** The browse page (src/pages/Gigs.tsx): the URL's search parameters as filters,
    the query they produce, and the list of gigs a delete shortens. */
module Gigs {
  import opened Wrappers
  import opened Seqs
  import opened Records

  /** The filters the page reads, in the order the query lists them. */
  const FilterKeys: seq<string> := ["search", "category", "minPrice", "maxPrice", "sort"]

  /** `searchParams.get(key) || ''`: a missing parameter reads as the empty string. */
  function ReadParam(params: map<string, string>, key: string): (v: string)
    ensures key !in params ==> v == ""
    ensures key in params ==> v == params[key]
  {
    if key in params then params[key] else ""
  }

  /** The parameters after `newParams.set(key, value)` or, for an empty value,
      `newParams.delete(key)`. */
  function WithFilter(params: map<string, string>, key: string, value: string): (r: map<string, string>)
    ensures value != "" ==> key in r && r[key] == value
    ensures value == "" ==> key !in r
    ensures forall k :: k != key ==> (k in r <==> k in params)
    ensures forall k :: k != key && k in params ==> r[k] == params[k]
  {
    if value != "" then params[key := value] else params - {key}
  }

  /** Choosing a value and reading the parameter back gives that value, whether it
      was set or, being empty, deleted; no other filter reads differently. */
  lemma ReadAfterWithFilter(params: map<string, string>, key: string, value: string, other: string)
    requires other != key
    ensures ReadParam(WithFilter(params, key, value), key) == value
    ensures ReadParam(WithFilter(params, key, value), other) == ReadParam(params, other)
  {
  }

  /** A query entry carries a value. */
  predicate Filled(entry: (string, string))
  {
    entry.1 != ""
  }

  /** Every filter with what it reads as, in the fixed order. */
  function Candidates(params: map<string, string>): (c: seq<(string, string)>)
    ensures |c| == |FilterKeys|
    ensures forall i :: 0 <= i < |c| ==> c[i] == (FilterKeys[i], ReadParam(params, FilterKeys[i]))
  {
    [ ("search", ReadParam(params, "search")),
      ("category", ReadParam(params, "category")),
      ("minPrice", ReadParam(params, "minPrice")),
      ("maxPrice", ReadParam(params, "maxPrice")),
      ("sort", ReadParam(params, "sort")) ]
  }

  /** The query of `fetchGigs`: the filled filters only, in the fixed order. */
  function Query(params: map<string, string>): seq<(string, string)>
  {
    Filter(Filled, Candidates(params))
  }

  /** The query lists exactly the filters that read as non-empty, each with its value,
      and lists them in the order search, category, minPrice, maxPrice, sort. */
  lemma QueryIsFilledFilters(params: map<string, string>, key: string, value: string)
    ensures (key, value) in Query(params) <==>
      key in FilterKeys && value != "" && ReadParam(params, key) == value
    ensures IsSubsequence(Query(params), Candidates(params))
  {
    var c := Candidates(params);
    FilterIsSubsequence(Filled, c);
    if key in FilterKeys && value != "" && ReadParam(params, key) == value {
      var i :| 0 <= i < |FilterKeys| && FilterKeys[i] == key;
      assert c[i] == (key, value);
    }
    if (key, value) in Query(params) {
      var j :| 0 <= j < |Query(params)| && Query(params)[j] == (key, value);
      assert (key, value) in c;
    }
  }

  /** With no parameters at all the query is empty. */
  lemma EmptyParamsEmptyQuery()
    ensures Query(map[]) == []
  {
    var c := Candidates(map[]);
    assert forall i :: 0 <= i < |c| ==> !Filled(c[i]);
    FilterNoneKept(c);
  }

  lemma {:induction false} FilterNoneKept(c: seq<(string, string)>)
    requires forall i :: 0 <= i < |c| ==> !Filled(c[i])
    ensures Filter(Filled, c) == []
  {
    if c != [] {
      FilterNoneKept(c[1..]);
    }
  }

  /** `prev.filter((gig) => gig._id !== gigId)` */
  predicate NotWithId(id: string, g: Gig)
  {
    g.id != id
  }

  /** The list after a successful delete: every gig with that id is gone and the
      others remain, in their order. */
  function WithoutGig(gigs: seq<Gig>, id: string): (r: seq<Gig>)
    ensures forall i :: 0 <= i < |r| ==> r[i].id != id && r[i] in gigs
    ensures forall i :: 0 <= i < |gigs| && gigs[i].id != id ==> gigs[i] in r
    ensures IsSubsequence(r, gigs)
    ensures forall g | g in gigs :: multiset(r)[g] == if g.id != id then multiset(gigs)[g] else 0
  {
    var keep := (g: Gig) => NotWithId(id, g);
    FilterIsSubsequence(keep, gigs);
    FilterCounts(keep, gigs);
    Filter(keep, gigs)
  }

  /** The component state of the browse page. */
  class GigsPage {
    var params: map<string, string>
    var gigs: seq<Gig>
    var loading: bool

    constructor (initial: map<string, string>)
      ensures params == initial && gigs == [] && loading
    {
      params := initial;
      gigs := [];
      loading := true;
    }

    /** The query string `fetchGigs` builds, one `append` per filled filter. */
    method BuildQuery() returns (query: seq<(string, string)>)
      ensures query == Query(params)
    {
      var search := ReadParam(params, "search");
      var category := ReadParam(params, "category");
      var minPrice := ReadParam(params, "minPrice");
      var maxPrice := ReadParam(params, "maxPrice");
      var sort := ReadParam(params, "sort");
      ghost var p := params;
      query := [];
      if search != "" { query := query + [("search", search)]; }
      assert query == Keep("search", p);
      if category != "" { query := query + [("category", category)]; }
      assert query == Keep("search", p) + Keep("category", p);
      if minPrice != "" { query := query + [("minPrice", minPrice)]; }
      assert query == Keep("search", p) + Keep("category", p) + Keep("minPrice", p);
      if maxPrice != "" { query := query + [("maxPrice", maxPrice)]; }
      assert query == Keep("search", p) + Keep("category", p) + Keep("minPrice", p) + Keep("maxPrice", p);
      if sort != "" { query := query + [("sort", sort)]; }
      QueryUnfolds(p);
    }

    /** `fetchGigs`: the list is replaced on success and kept on failure; loading
        ends either way. */
    method FetchGigs(response: Outcome<seq<Gig>>) returns (query: seq<(string, string)>)
      modifies this
      ensures query == Query(params)
      ensures gigs == if response.Ok? then response.payload else old(gigs)
      ensures !loading && params == old(params)
    {
      loading := true;
      query := BuildQuery();
      if response.Ok? {
        gigs := response.payload;
      }
      loading := false;
    }

    /** `handleSearch`: only the search parameter is set or deleted. */
    method HandleSearch(searchTerm: string)
      modifies this
      ensures params == WithFilter(old(params), "search", searchTerm)
      ensures gigs == old(gigs) && loading == old(loading)
    {
      var newParams := params;
      if searchTerm != "" {
        newParams := newParams["search" := searchTerm];
      } else {
        newParams := newParams - {"search"};
      }
      params := newParams;
    }

    /** `handleFilterChange`: one parameter is set, or deleted when the value is empty. */
    method HandleFilterChange(key: string, value: string)
      modifies this
      ensures params == WithFilter(old(params), key, value)
      ensures gigs == old(gigs) && loading == old(loading)
    {
      var newParams := params;
      if value != "" {
        newParams := newParams[key := value];
      } else {
        newParams := newParams - {key};
      }
      params := newParams;
    }

    /** `clearFilters`: no parameter is left. */
    method ClearFilters()
      modifies this
      ensures params == map[]
      ensures gigs == old(gigs) && loading == old(loading)
    {
      params := map[];
    }

    /** `handleDelete`: a declined confirmation sends nothing; a failed delete keeps
        the list; a successful one removes the gig. */
    method HandleDelete(gigId: string, confirmed: bool, response: Outcome<()>) returns (requested: bool)
      modifies this
      ensures requested == confirmed
      ensures gigs == if confirmed && response.Ok? then WithoutGig(old(gigs), gigId) else old(gigs)
      ensures params == old(params) && loading == old(loading)
    {
      if !confirmed {
        return false;
      }
      requested := true;
      if response.Ok? {
        gigs := WithoutGig(gigs, gigId);
      }
    }
  }

  /** The query is the filled filters appended one by one, as `fetchGigs` does. */
  lemma QueryUnfolds(params: map<string, string>)
    ensures Query(params) ==
      Keep("search", params) + Keep("category", params) + Keep("minPrice", params)
      + Keep("maxPrice", params) + Keep("sort", params)
  {
    var c := Candidates(params);
    assert c[0] == ("search", ReadParam(params, "search"));
    assert c[1] == ("category", ReadParam(params, "category"));
    assert c[2] == ("minPrice", ReadParam(params, "minPrice"));
    assert c[3] == ("maxPrice", ReadParam(params, "maxPrice"));
    assert c[4] == ("sort", ReadParam(params, "sort"));
    var s1 := [c[0]];
    assert s1 == [] + [c[0]];
    QueryEntrySnoc([], c[0]);
    assert Filter(Filled, s1) == Keep("search", params);
    var s2 := s1 + [c[1]];
    QueryEntrySnoc(s1, c[1]);
    assert Filter(Filled, s2) == Keep("search", params) + Keep("category", params);
    var s3 := s2 + [c[2]];
    QueryEntrySnoc(s2, c[2]);
    var s4 := s3 + [c[3]];
    QueryEntrySnoc(s3, c[3]);
    var s5 := s4 + [c[4]];
    QueryEntrySnoc(s4, c[4]);
    assert c == s5;
  }

  /** `Seqs.FilterSnoc` for query entries. */
  lemma QueryEntrySnoc(s: seq<(string, string)>, e: (string, string))
    ensures Filter(Filled, s + [e]) == Filter(Filled, s) + if Filled(e) then [e] else []
  {
    FilterSnoc(Filled, s, e);
  }

  function Keep(key: string, params: map<string, string>): seq<(string, string)>
  {
    if ReadParam(params, key) != "" then [(key, ReadParam(params, key))] else []
  }
}
