/** The incident list page: the search and filter effect, the filter
    handlers, the office choices derived from the loaded incidents, and the
    status cell that asks for "En Progreso". */
module IncidentsPage {
  import opened Js
  import opened ApiClient

  /** The three select filters; the empty string means "any". */
  datatype Filters = Filters(priority: string, office: string, status: string)

  datatype FilterName = PriorityFilter | OfficeFilter | StatusFilter

  const NoFilters: Filters := Filters("", "", "")

  /** `handleFilterChange`: the named filter takes the new value. */
  function WithFilter(f: Filters, name: FilterName, value: string): (r: Filters)
    ensures name == PriorityFilter ==> r == f.(priority := value)
    ensures name == OfficeFilter ==> r == f.(office := value)
    ensures name == StatusFilter ==> r == f.(status := value)
  {
    match name
    case PriorityFilter => f.(priority := value)
    case OfficeFilter => f.(office := value)
    case StatusFilter => f.(status := value)
  }

  // ---------------------------------------------------------------------------
  // What the list shows

  /** The search looks in title, description, name and email (not office),
      each lower-cased, for the already lower-cased term. */
  predicate MatchesTerm(i: ClientIncident, term: string) {
    || Includes(ToLower(i.title), term)
    || Includes(ToLower(i.description), term)
    || Includes(ToLower(i.name), term)
    || Includes(ToLower(i.email), term)
  }

  predicate TermOk(i: ClientIncident, searchTerm: string) {
    searchTerm == "" || MatchesTerm(i, ToLower(searchTerm))
  }

  predicate PriorityOk(i: ClientIncident, f: Filters) {
    f.priority == "" || i.priority == Some(f.priority)
  }

  predicate OfficeOk(i: ClientIncident, f: Filters) {
    f.office == "" || i.office == f.office
  }

  predicate StatusOk(i: ClientIncident, f: Filters) {
    f.status == "" || i.status == Some(f.status)
  }

  /** All active constraints hold together. */
  predicate Selected(i: ClientIncident, searchTerm: string, f: Filters) {
    TermOk(i, searchTerm) && PriorityOk(i, f) && OfficeOk(i, f) && StatusOk(i, f)
  }

  /** The list the page should show. */
  function Visible(incidents: seq<ClientIncident>, searchTerm: string, f: Filters): seq<ClientIncident> {
    Filter(incidents, i => Selected(i, searchTerm, f))
  }

  /** The effect: the search, then each non-empty filter, narrowing `result`
      step by step. */
  method ApplyFilters(incidents: seq<ClientIncident>, searchTerm: string, f: Filters)
    returns (result: seq<ClientIncident>)
    ensures result == Visible(incidents, searchTerm, f)
  {
    var all := (i: ClientIncident) => true;
    var d1 := (i: ClientIncident) => TermOk(i, searchTerm);
    var d2 := (i: ClientIncident) => TermOk(i, searchTerm) && PriorityOk(i, f);
    var d3 := (i: ClientIncident) => TermOk(i, searchTerm) && PriorityOk(i, f) && OfficeOk(i, f);
    var d4 := (i: ClientIncident) => Selected(i, searchTerm, f);

    result := incidents;
    FilterAll(incidents, all);
    if searchTerm != "" {
      var term := ToLower(searchTerm);
      var keep := (i: ClientIncident) => MatchesTerm(i, term);
      FilterThen(incidents, all, keep, d1);
      result := Filter(result, keep);
    } else {
      FilterExt(incidents, all, d1);
    }
    assert result == Filter(incidents, d1);

    if f.priority != "" {
      var keep := (i: ClientIncident) => i.priority == Some(f.priority);
      FilterThen(incidents, d1, keep, d2);
      result := Filter(result, keep);
    } else {
      FilterExt(incidents, d1, d2);
    }
    assert result == Filter(incidents, d2);

    if f.office != "" {
      var keep := (i: ClientIncident) => i.office == f.office;
      FilterThen(incidents, d2, keep, d3);
      result := Filter(result, keep);
    } else {
      FilterExt(incidents, d2, d3);
    }
    assert result == Filter(incidents, d3);

    if f.status != "" {
      var keep := (i: ClientIncident) => i.status == Some(f.status);
      FilterThen(incidents, d3, keep, d4);
      result := Filter(result, keep);
    } else {
      FilterExt(incidents, d3, d4);
    }
  }

  /** The shown list keeps loaded incidents in their order. */
  lemma VisibleIsSubsequence(incidents: seq<ClientIncident>, searchTerm: string, f: Filters)
    ensures Subsequence(Visible(incidents, searchTerm, f), incidents)
  {
    FilterIsSubsequence(incidents, i => Selected(i, searchTerm, f));
  }

  /** With no search term and no filter the whole list is shown. */
  lemma NothingActiveShowsAll(incidents: seq<ClientIncident>)
    ensures Visible(incidents, "", NoFilters) == incidents
  {
    FilterAll(incidents, i => Selected(i, "", NoFilters));
  }

  /** An incident is shown exactly when it was loaded and meets every active
      constraint. */
  lemma VisibleExactly(incidents: seq<ClientIncident>, searchTerm: string, f: Filters, x: ClientIncident)
    ensures x in Visible(incidents, searchTerm, f) <==> x in incidents && Selected(x, searchTerm, f)
  {
    var v := Visible(incidents, searchTerm, f);
    if x in v {
      var k :| 0 <= k < |v| && v[k] == x;
    }
    if x in incidents && Selected(x, searchTerm, f) {
      var k :| 0 <= k < |incidents| && incidents[k] == x;
    }
  }

  /** The office is not searched: changing it never changes the search verdict. */
  lemma OfficeNotSearched(i: ClientIncident, searchTerm: string, office: string)
    ensures TermOk(i.(office := office), searchTerm) == TermOk(i, searchTerm)
  {
  }

  /** Setting two different filters commutes; setting one twice keeps the last. */
  lemma FilterChangesCommute(f: Filters, a: FilterName, b: FilterName, va: string, vb: string)
    ensures a != b ==> WithFilter(WithFilter(f, a, va), b, vb) == WithFilter(WithFilter(f, b, vb), a, va)
    ensures WithFilter(WithFilter(f, a, va), a, vb) == WithFilter(f, a, vb)
  {
  }

  // ---------------------------------------------------------------------------
  // Office choices

  function OfficesOf(incidents: seq<ClientIncident>): (os: seq<string>)
    ensures |os| == |incidents|
    ensures forall k :: 0 <= k < |incidents| ==> os[k] == incidents[k].office
  {
    if incidents == [] then [] else [incidents[0].office] + OfficesOf(incidents[1..])
  }

  /** `[...new Set(incidents.map(i => i.office))]` */
  function Offices(incidents: seq<ClientIncident>): seq<string> {
    Unique(OfficesOf(incidents))
  }

  /** The office choices hold every loaded office once, in order of first
      appearance, and nothing else. */
  lemma OfficeChoices(incidents: seq<ClientIncident>)
    ensures NoDuplicates(Offices(incidents))
    ensures forall k :: 0 <= k < |incidents| ==> incidents[k].office in Offices(incidents)
    ensures forall o :: o in Offices(incidents) ==> exists k :: 0 <= k < |incidents| && incidents[k].office == o
    ensures forall a :: 0 <= a < |Offices(incidents)| ==> Offices(incidents)[a] in OfficesOf(incidents)
    ensures forall a, b :: 0 <= a < b < |Offices(incidents)| ==>
      IndexOf(OfficesOf(incidents), Offices(incidents)[a]) < IndexOf(OfficesOf(incidents), Offices(incidents)[b])
  {
    var os := OfficesOf(incidents);
    UniqueFirstOccurrences(os);
    forall o | o in Offices(incidents)
      ensures exists k :: 0 <= k < |incidents| && incidents[k].office == o
    {
      var k := IndexOf(os, o);
      assert incidents[k].office == o;
    }
    forall k | 0 <= k < |incidents| ensures incidents[k].office in Offices(incidents) {
      assert os[k] == incidents[k].office;
    }
  }

  // ---------------------------------------------------------------------------
  // The status cell

  datatype StatusChange = StatusChange(call: Call, status: string)

  /** Clicking an incident's status cell always asks for "En Progreso",
      whatever the current status. */
  function StatusClick(i: ClientIncident): (r: StatusChange)
    ensures Endpoint(r.call) == Request(Patch, "/incidents/" + i.id, Json)
    ensures r.status == "En Progreso"
  {
    StatusChange(UpdateIncident(i.id), "En Progreso")
  }

  /** The status badge shows "Pendiente" for a missing or empty status. */
  function StatusLabel(i: ClientIncident): (s: string)
    ensures Truthy(i.status) ==> s == i.status.value
    ensures !Truthy(i.status) ==> s == "Pendiente"
  {
    OrElse(i.status, "Pendiente")
  }

  // ---------------------------------------------------------------------------
  // Page state

  class IncidentsPage {
    var incidents: seq<ClientIncident>
    var filteredIncidents: seq<ClientIncident>
    var searchTerm: string
    var filters: Filters

    constructor ()
      ensures incidents == [] && filteredIncidents == [] && searchTerm == "" && filters == NoFilters
    {
      incidents, filteredIncidents := [], [];
      searchTerm, filters := "", NoFilters;
    }

    /** The load effect puts the server's list in both lists. */
    method Loaded(data: seq<ClientIncident>)
      modifies this
      ensures incidents == data && filteredIncidents == data
      ensures searchTerm == old(searchTerm) && filters == old(filters)
    {
      incidents, filteredIncidents := data, data;
    }

    /** The filter effect, run whenever the term, the filters or the list change. */
    method Refilter()
      modifies this
      ensures filteredIncidents == Visible(incidents, searchTerm, filters)
      ensures incidents == old(incidents) && searchTerm == old(searchTerm) && filters == old(filters)
    {
      filteredIncidents := ApplyFilters(incidents, searchTerm, filters);
    }

    method HandleFilterChange(name: FilterName, value: string)
      modifies this
      ensures filters == WithFilter(old(filters), name, value)
      ensures incidents == old(incidents) && filteredIncidents == old(filteredIncidents) && searchTerm == old(searchTerm)
    {
      filters := WithFilter(filters, name, value);
    }

    method ClearFilters()
      modifies this
      ensures filters == NoFilters && searchTerm == ""
      ensures incidents == old(incidents) && filteredIncidents == old(filteredIncidents)
    {
      filters := NoFilters;
      searchTerm := "";
    }
  }

  /** After clearing, the next filter run shows the whole list. */
  method ClearThenRefilterShowsAll(page: IncidentsPage)
    modifies page
    ensures page.filteredIncidents == page.incidents == old(page.incidents)
  {
    page.ClearFilters();
    page.Refilter();
    NothingActiveShowsAll(page.incidents);
  }
}
