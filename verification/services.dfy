/** The public services list (`services`): its query string, the category
    list of the filter, and the filter state with its debounced search. */
module Services {

  import opened Common

  /** The query of `GET /services`: `search`, `category` and `sort` each
      appear only when non-empty, in that order, with their values. The
      length and the three positions determine the whole list. */
  function ServicesQuery(search: string, category: string, sortOrder: string): (ps: Params)
    ensures |ps| == (if search != "" then 1 else 0) + (if category != "" then 1 else 0) +
                    (if sortOrder != "" then 1 else 0)
    ensures search != "" ==> ps[0] == ("search", search)
    ensures category != "" ==> ps[if search != "" then 1 else 0] == ("category", category)
    ensures sortOrder != "" ==> ps[|ps| - 1] == ("sort", sortOrder)
  {
    AppendIf(AppendIf(AppendIf([], search != "", "search", search),
                      category != "", "category", category),
             sortOrder != "", "sort", sortOrder)
  }

  /** `(search || category || sortOrder)`: the "Clear All Filters" button. */
  function ShowClearButton(search: string, category: string, sortOrder: string): (show: bool)
    ensures show <==> search != "" || category != "" || sortOrder != ""
  {
    search != "" || category != "" || sortOrder != ""
  }

  /** The button is shown exactly when the list query filters anything. */
  lemma ClearButtonIffFiltered(search: string, category: string, sortOrder: string)
    ensures ShowClearButton(search, category, sortOrder) <==> |ServicesQuery(search, category, sortOrder)| > 0
  {
  }

  /** The values of the sort select. */
  const SortOptions: seq<string> := ["", "price_asc", "price_desc"]

  /** The position of the first occurrence of `x` in `s`. */
  function FirstIndex<T(==)>(s: seq<T>, x: T): (k: nat)
    requires x in s
    ensures k < |s| && s[k] == x
    ensures forall j :: 0 <= j < k ==> s[j] != x
  {
    if s[0] == x then 0 else 1 + FirstIndex(s[1..], x)
  }

  /** Appending an element leaves earlier first occurrences where they were. */
  lemma FirstIndexSnoc<T>(s: seq<T>, y: T, x: T)
    requires x in s
    ensures FirstIndex(s + [y], x) == FirstIndex(s, x)
  {
    var k := FirstIndex(s, x);
    var t := s + [y];
    assert t[k] == x;
    var k' := FirstIndex(t, x);
    assert k' <= k;
  }

  /** `r` holds the values of `xs` once each, in order of first occurrence. */
  ghost predicate DistinctInFirstOrder<T>(xs: seq<T>, r: seq<T>) {
    (forall i, j :: 0 <= i < j < |r| ==> r[i] != r[j]) &&
    (forall i :: 0 <= i < |xs| ==> xs[i] in r) &&
    (forall i :: 0 <= i < |r| ==> r[i] in xs) &&
    (forall i, j :: 0 <= i < j < |r| ==> FirstIndex(xs, r[i]) < FirstIndex(xs, r[j]))
  }

  /** One more element at the end: kept out when already seen, appended
      otherwise. */
  lemma DistinctSnoc<T>(init: seq<T>, last: T, d: seq<T>)
    requires DistinctInFirstOrder(init, d)
    ensures last in d ==> DistinctInFirstOrder(init + [last], d)
    ensures last !in d ==> DistinctInFirstOrder(init + [last], d + [last])
  {
    var xs := init + [last];
    forall i | 0 <= i < |d| ensures FirstIndex(xs, d[i]) == FirstIndex(init, d[i]) {
      FirstIndexSnoc(init, last, d[i]);
    }
    if last !in d {
      assert last !in init;
      var r := d + [last];
      assert FirstIndex(xs, last) == |init|;
      forall i, j | 0 <= i < j < |r| ensures FirstIndex(xs, r[i]) < FirstIndex(xs, r[j]) {
        assert r[i] == d[i];
        if j == |d| {
          assert FirstIndex(init, d[i]) < |init|;
        } else {
          assert r[j] == d[j];
        }
      }
    }
  }

  /** `[...new Set(xs)]`: each value once, in order of first occurrence. */
  function Dedupe<T(==)>(xs: seq<T>): (r: seq<T>)
    ensures forall i, j :: 0 <= i < j < |r| ==> r[i] != r[j]
    ensures forall i :: 0 <= i < |xs| ==> xs[i] in r
    ensures forall i :: 0 <= i < |r| ==> r[i] in xs
    ensures forall i, j :: 0 <= i < j < |r| ==> FirstIndex(xs, r[i]) < FirstIndex(xs, r[j])
  {
    if xs == [] then []
    else
      var init, last := xs[..|xs| - 1], xs[|xs| - 1];
      var d := Dedupe(init);
      assert xs == init + [last];
      DistinctSnoc(init, last, d);
      if last in d then d else d + [last]
  }

  /** A service as the list returns it; only its category matters here. */
  datatype ServiceSummary = ServiceSummary(id: string, category: string)

  /** `allServices.map(s => s.service_category)`. */
  function Categories(services: seq<ServiceSummary>): (r: seq<string>)
    ensures |r| == |services|
    ensures forall i :: 0 <= i < |r| ==> r[i] == services[i].category
  {
    if services == [] then [] else [services[0].category] + Categories(services[1..])
  }

  /** The category options: every service's category, each once, in the
      order the categories first appear in the list. */
  function UniqueCategories(services: seq<ServiceSummary>): (r: seq<string>)
    ensures forall i, j :: 0 <= i < j < |r| ==> r[i] != r[j]
    ensures forall i :: 0 <= i < |services| ==> services[i].category in r
    ensures forall i :: 0 <= i < |r| ==> exists k :: 0 <= k < |services| && services[k].category == r[i]
    ensures forall i, j :: 0 <= i < j < |r| ==>
              FirstIndex(Categories(services), r[i]) < FirstIndex(Categories(services), r[j])
  {
    var cs := Categories(services);
    var r := Dedupe(cs);
    forall i | 0 <= i < |r| ensures exists k :: 0 <= k < |services| && services[k].category == r[i] {
      var k := FirstIndex(cs, r[i]);
      assert services[k].category == r[i];
    }
    r
  }

  /** The four filter fields, and the value a 500 ms debounce timer is
      armed to copy into `search` (`None` when no timer is pending). The
      effect that arms the timer runs on mount and whenever `searchInput`
      changes; each run first clears the previous timer. */
  class ServiceFilters {
    var searchInput: string
    var search: string
    var category: string
    var sortOrder: string
    var pending: Option<string>

    /** A pending timer always carries the current input, and with no timer
        pending the search has caught up with the input. The sort value is
        one of the select's options. */
    predicate Valid()
      reads this
    {
      (pending.Some? ==> pending.value == searchInput) &&
      (pending.None? ==> search == searchInput) &&
      sortOrder in SortOptions
    }

    /** The page as mounted: empty fields, and the mount effect's timer. */
    constructor ()
      ensures Valid()
      ensures searchInput == "" && search == "" && category == "" && sortOrder == ""
      ensures pending == Some("")
    {
      searchInput, search, category, sortOrder := "", "", "", "";
      pending := Some("");
    }

    /** Typing into the search box. A new value cancels the pending timer
        and arms one for itself; the same value does not re-run the effect.
        The query's `search` is untouched either way. */
    method OnSearchInputChange(value: string)
      requires Valid()
      modifies this`searchInput, this`pending
      ensures Valid()
      ensures searchInput == value && search == old(search)
      ensures value != old(searchInput) ==> pending == Some(value)
      ensures value == old(searchInput) ==> pending == old(pending)
    {
      if value != searchInput {
        searchInput := value;
        pending := Some(value);
      }
    }

    /** The pending timer fires. */
    method TimerFires()
      requires Valid() && pending.Some?
      modifies this`search, this`pending
      ensures Valid()
      ensures search == searchInput && pending.None?
    {
      search := pending.value;
      pending := None;
    }

    /** The category select. */
    method SelectCategory(value: string)
      modifies this`category
      ensures category == value
    {
      category := value;
    }

    /** The sort select, whose values are the three options. */
    method SelectSort(value: string)
      requires Valid() && value in SortOptions
      modifies this`sortOrder
      ensures Valid() && sortOrder == value
    {
      sortOrder := value;
    }

    /** `clearFilters`: all four fields become "". Clearing a non-empty input
        re-runs the effect, which arms a timer for "". */
    method ClearFilters()
      requires Valid()
      modifies this
      ensures Valid()
      ensures searchInput == "" && search == "" && category == "" && sortOrder == ""
      ensures !ShowClearButton(search, category, sortOrder)
      ensures old(searchInput) != "" ==> pending == Some("")
      ensures old(searchInput) == "" ==> pending == old(pending)
    {
      var before := searchInput;
      search, searchInput, category, sortOrder := "", "", "", "";
      if before != "" {
        pending := Some("");
      }
    }

    /** Letting any pending timer fire. */
    method Settle()
      requires Valid()
      modifies this`search, this`pending
      ensures Valid() && pending.None? && search == searchInput
    {
      if pending.Some? {
        TimerFires();
      }
    }

    /** The query the list is fetched with. */
    function Query(): (ps: Params)
      reads this
      ensures search != "" ==> |ps| > 0 && ps[0] == ("search", search)
      ensures ps == [] <==> !ShowClearButton(search, category, sortOrder)
    {
      ServicesQuery(search, category, sortOrder)
    }
  }

  /** Debounce: after a burst of keystrokes, with no timer firing in
      between, only the last value reaches `search`; none of the earlier
      ones ever does. */
  method Burst(inputs: seq<string>) returns (searchAfter: string, searchDuring: seq<string>)
    requires |inputs| > 0
    ensures searchAfter == inputs[|inputs| - 1]
    ensures |searchDuring| == |inputs| && forall i :: 0 <= i < |searchDuring| ==> searchDuring[i] == ""
  {
    var f := new ServiceFilters();
    f.Settle();
    searchDuring := [];
    var i := 0;
    while i < |inputs|
      invariant 0 <= i <= |inputs|
      invariant f.Valid() && f.search == ""
      invariant i > 0 ==> f.searchInput == inputs[i - 1]
      invariant |searchDuring| == i && forall k :: 0 <= k < i ==> searchDuring[k] == ""
    {
      f.OnSearchInputChange(inputs[i]);
      searchDuring := searchDuring + [f.search];
      i := i + 1;
    }
    f.Settle();
    searchAfter := f.search;
  }
}
