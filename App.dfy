/**
 * The application tracker's list view (src/App.jsx): the search filter and
 * date order of the job list, the selection set behind the check boxes, the
 * grouping of the list by country and the interview list.
 *
 * The React component's state is an object whose fields the handlers
 * replace; storage is not part of this model, so the loaded jobs are an input.
 */
module App {
  import opened Text
  import opened Seqs
  import opened Jobs

  // ---------------------------------------------------------------- filtering and ordering

  /** The search: the lowercased query occurs in the lowercased position or company. */
  function MatchesQuery(query: string): Job -> bool {
    (j: Job) => Contains(Lower(j.position), Lower(query)) || Contains(Lower(j.company), Lower(query))
  }

  function CreatedAt(j: Job): int { j.createdAt }

  function NegCreatedAt(j: Job): int { -j.createdAt }

  /** The comparator `b.createdAt - a.createdAt` for 'desc', `a.createdAt - b.createdAt` otherwise. */
  function OrderKey(sortOrder: string): Job -> int {
    if sortOrder == "desc" then NegCreatedAt else CreatedAt
  }

  /** `filteredJobs`: the matching jobs, newest or oldest first. */
  function FilteredJobsOf(jobs: seq<Job>, query: string, sortOrder: string): seq<Job> {
    SortBy(Filter(jobs, MatchesQuery(query)), OrderKey(sortOrder))
  }

  /** The empty string occurs in every string, so an empty query matches every job. */
  lemma EmptyQueryMatchesAll(j: Job)
    ensures MatchesQuery("")(j)
  {
    assert Lower("") == "";
    assert StartsWith(Lower(j.position), "");
  }

  /**
   * The filtered list holds exactly the jobs that match the query, each as
   * often as in the input, ordered by creation time, descending for 'desc'
   * and ascending otherwise.
   */
  lemma FilteredJobsFacts(jobs: seq<Job>, query: string, sortOrder: string)
    ensures multiset(FilteredJobsOf(jobs, query, sortOrder)) == multiset(Filter(jobs, MatchesQuery(query)))
    ensures forall j :: j in FilteredJobsOf(jobs, query, sortOrder) <==> j in jobs && MatchesQuery(query)(j)
    ensures sortOrder == "desc" ==> forall i, k :: 0 <= i < k < |FilteredJobsOf(jobs, query, sortOrder)| ==>
      FilteredJobsOf(jobs, query, sortOrder)[i].createdAt >= FilteredJobsOf(jobs, query, sortOrder)[k].createdAt
    ensures sortOrder != "desc" ==> forall i, k :: 0 <= i < k < |FilteredJobsOf(jobs, query, sortOrder)| ==>
      FilteredJobsOf(jobs, query, sortOrder)[i].createdAt <= FilteredJobsOf(jobs, query, sortOrder)[k].createdAt
  {
    var kept := Filter(jobs, MatchesQuery(query));
    var key := OrderKey(sortOrder);
    SortByFacts(kept, key);
    forall j ensures j in FilteredJobsOf(jobs, query, sortOrder) <==> j in jobs && MatchesQuery(query)(j) {
      SortByMembers(kept, key, j);
      FilterMember(jobs, MatchesQuery(query), j);
    }
    var r := FilteredJobsOf(jobs, query, sortOrder);
    assert forall i, k :: 0 <= i < k < |r| ==> key(r[i]) <= key(r[k]);
  }

  /** With an empty query, the list is every job, only reordered. */
  lemma EmptyQueryKeepsAll(jobs: seq<Job>, sortOrder: string)
    ensures multiset(FilteredJobsOf(jobs, "", sortOrder)) == multiset(jobs)
  {
    forall i | 0 <= i < |jobs| ensures MatchesQuery("")(jobs[i]) {
      EmptyQueryMatchesAll(jobs[i]);
    }
    FilterKeepsAll(jobs, MatchesQuery(""));
    SortByFacts(jobs, OrderKey(sortOrder));
  }

  // ---------------------------------------------------------------- selection

  function IdsOf(jobs: seq<Job>): set<int> {
    set j | j in jobs :: j.id
  }

  predicate DistinctIds(jobs: seq<Job>) {
    forall i, k :: 0 <= i < k < |jobs| ==> jobs[i].id != jobs[k].id
  }

  /** Jobs with distinct ids have as many ids as jobs. */
  lemma {:induction false} IdsOfSize(jobs: seq<Job>)
    requires DistinctIds(jobs)
    ensures |IdsOf(jobs)| == |jobs|
    decreases |jobs|
  {
    if jobs != [] {
      var rest := jobs[1..];
      assert DistinctIds(rest) by {
        forall i, k | 0 <= i < k < |rest| ensures rest[i].id != rest[k].id {
          assert rest[i] == jobs[i + 1] && rest[k] == jobs[k + 1];
        }
      }
      IdsOfSize(rest);
      assert jobs == [jobs[0]] + rest;
      assert IdsOf(jobs) == IdsOf(rest) + {jobs[0].id};
    }
  }

  /** `handleToggleSelect`: add the id when absent, remove it when present. */
  function Toggled(selected: set<int>, id: int): (r: set<int>)
    ensures id in r <==> id !in selected
    ensures forall other :: other != id ==> (other in r <==> other in selected)
  {
    if id in selected then selected - {id} else selected + {id}
  }

  /** Toggling the same id twice restores the selection. */
  lemma ToggleTwice(selected: set<int>, id: int)
    ensures Toggled(Toggled(selected, id), id) == selected
  {
  }

  /** `areAllSelected`: a non-empty list and a selection of the same size. */
  predicate AllSelected(selected: set<int>, filtered: seq<Job>) {
    |filtered| > 0 && |selected| == |filtered|
  }

  /**
   * When the selection holds only ids of listed jobs, and ids are distinct,
   * "all selected" means every listed job is selected.
   */
  lemma AllSelectedMeaning(selected: set<int>, filtered: seq<Job>)
    requires DistinctIds(filtered)
    requires selected <= IdsOf(filtered)
    ensures AllSelected(selected, filtered) <==> |filtered| > 0 && selected == IdsOf(filtered)
  {
    IdsOfSize(filtered);
    var ids := IdsOf(filtered);
    assert ids == selected + (ids - selected);
    assert ids - selected == {} ==> selected == ids;
  }

  /**
   * The test compares sizes only: a selection left over from jobs the search
   * now hides can make a one-job list count as all selected while its job is not.
   */
  lemma AllSelectedBySizeOnly()
    ensures var hidden := Job(1, "Designer", "Acme", "Applied", "", 1, "", "", "");
            var shown := Job(2, "Engineer", "Initech", "Applied", "", 2, "", "", "");
            AllSelected({hidden.id}, [shown]) && shown.id !in {hidden.id}
  {
  }

  /** `handleSelectAll`: clear a full selection, otherwise select every listed job. */
  function SelectAllOf(selected: set<int>, filtered: seq<Job>): (r: set<int>)
    ensures AllSelected(selected, filtered) ==> r == {}
    ensures !AllSelected(selected, filtered) ==> r == IdsOf(filtered)
  {
    if AllSelected(selected, filtered) then {} else IdsOf(filtered)
  }

  /** After selecting all of a non-empty list of distinct ids, the list counts as all selected. */
  lemma SelectAllSelectsAll(selected: set<int>, filtered: seq<Job>)
    requires DistinctIds(filtered) && |filtered| > 0
    requires !AllSelected(selected, filtered)
    ensures AllSelected(SelectAllOf(selected, filtered), filtered)
  {
    IdsOfSize(filtered);
  }

  predicate IsRejected(j: Job) { j.status == "Rejected" }

  /** `handleSelectRejected`: exactly the listed jobs whose status is 'Rejected'. */
  function RejectedIds(filtered: seq<Job>): set<int> {
    IdsOf(Filter(filtered, IsRejected))
  }

  lemma RejectedIdsMeaning(filtered: seq<Job>, id: int)
    ensures id in RejectedIds(filtered) <==> exists j :: j in filtered && j.status == "Rejected" && j.id == id
  {
    forall j ensures j in Filter(filtered, IsRejected) <==> j in filtered && IsRejected(j) {
      FilterMember(filtered, IsRejected, j);
    }
  }

  // ---------------------------------------------------------------- grouping by country

  /** `job.country || 'Unspecified'`. */
  function CountryKey(j: Job): string {
    if j.country == "" then "Unspecified" else j.country
  }

  function InCountry(country: string): Job -> bool {
    j => CountryKey(j) == country
  }

  /** The groups the `reduce` builds, one job at a time. */
  function GroupsOf(jobs: seq<Job>): map<string, seq<Job>>
    decreases |jobs|
  {
    if jobs == [] then map[]
    else
      var groups := GroupsOf(jobs[..|jobs| - 1]);
      var j := jobs[|jobs| - 1];
      var key := CountryKey(j);
      groups[key := (if key in groups then groups[key] else []) + [j]]
  }

  /**
   * Each country key present names a non-empty group holding, in list order,
   * exactly the jobs of that country; a key is present exactly when some job
   * has it.
   */
  lemma {:induction false} GroupsOfMeaning(jobs: seq<Job>)
    ensures forall c :: c in GroupsOf(jobs) <==> exists j :: j in jobs && CountryKey(j) == c
    ensures forall c :: c in GroupsOf(jobs) ==> GroupsOf(jobs)[c] == Filter(jobs, InCountry(c))
    decreases |jobs|
  {
    if jobs != [] {
      var init := jobs[..|jobs| - 1];
      var j := jobs[|jobs| - 1];
      GroupsOfMeaning(init);
      assert jobs == init + [j];
      forall c ensures c in GroupsOf(jobs) ==> GroupsOf(jobs)[c] == Filter(jobs, InCountry(c)) {
        FilterSnoc(init, j, InCountry(c));
        if c != CountryKey(j) && c in GroupsOf(jobs) {
          assert c in GroupsOf(init);
        }
        if c == CountryKey(j) && c !in GroupsOf(init) {
          FilterDropsAll(init, InCountry(c));
          forall i | 0 <= i < |init| ensures !InCountry(c)(init[i]) {
            assert init[i] in init;
          }
        }
      }
      forall c ensures c in GroupsOf(jobs) <==> exists x :: x in jobs && CountryKey(x) == c {
        if c in GroupsOf(jobs) && c != CountryKey(j) {
          var x :| x in init && CountryKey(x) == c;
          assert x in jobs;
        }
        if exists x :: x in jobs && CountryKey(x) == c {
          var x :| x in jobs && CountryKey(x) == c;
          if x != j {
            assert x in init;
          }
        }
      }
    }
  }

  /** Every job lands in the group of its own country and in no other. */
  lemma EachJobInOneGroup(jobs: seq<Job>, j: Job, c: string)
    requires j in jobs
    ensures CountryKey(j) in GroupsOf(jobs) && j in GroupsOf(jobs)[CountryKey(j)]
    ensures c != CountryKey(j) && c in GroupsOf(jobs) ==> j !in GroupsOf(jobs)[c]
  {
    GroupsOfMeaning(jobs);
    FilterMember(jobs, InCountry(CountryKey(j)), j);
    FilterMember(jobs, InCountry(c), j);
  }

  /** The `reduce` over the filtered list: push each job onto its country's array. */
  method GroupByCountry(jobs: seq<Job>) returns (groups: map<string, seq<Job>>)
    ensures groups == GroupsOf(jobs)
  {
    groups := map[];
    var i := 0;
    while i < |jobs|
      invariant 0 <= i <= |jobs|
      invariant groups == GroupsOf(jobs[..i])
    {
      var j := jobs[i];
      var country := CountryKey(j);
      if country !in groups {
        groups := groups[country := []];
      }
      groups := groups[country := groups[country] + [j]];
      assert jobs[..i + 1][..i] == jobs[..i];
      i := i + 1;
    }
    assert jobs[..i] == jobs;
  }

  // ---------------------------------------------------------------- interviews

  predicate HasInterview(j: Job) { j.interviewDate != "" }

  /** The interview list: matching jobs with an interview date (its date order is not modelled). */
  function InterviewsOf(jobs: seq<Job>, query: string): seq<Job> {
    Filter(jobs, (j: Job) => MatchesQuery(query)(j) && HasInterview(j))
  }

  /** Every interview shown belongs to a job of the filtered list and has a date. */
  lemma InterviewsAreListed(jobs: seq<Job>, query: string, sortOrder: string, j: Job)
    requires j in InterviewsOf(jobs, query)
    ensures j in FilteredJobsOf(jobs, query, sortOrder) && j.interviewDate != ""
  {
    FilterMember(jobs, (j: Job) => MatchesQuery(query)(j) && HasInterview(j), j);
    FilteredJobsFacts(jobs, query, sortOrder);
  }

  // ---------------------------------------------------------------- the component state

  class Tracker {
    var jobs: seq<Job>
    var searchQuery: string
    var sortOrder: string
    var selectedJobIds: set<int>

    /** The initial state: no jobs, no query, newest first, nothing selected. */
    constructor ()
      ensures jobs == [] && searchQuery == "" && sortOrder == "desc" && selectedJobIds == {}
    {
      jobs := [];
      searchQuery := "";
      sortOrder := "desc";
      selectedJobIds := {};
    }

    /** The load and refresh steps: the stored jobs, newest first. */
    method Refresh(stored: seq<Job>)
      modifies this
      ensures jobs == SortBy(stored, NegCreatedAt)
      ensures searchQuery == old(searchQuery) && sortOrder == old(sortOrder)
      ensures selectedJobIds == old(selectedJobIds)
    {
      jobs := SortBy(stored, NegCreatedAt);
    }

    /** The search box's `onChange`: the query becomes the typed text. */
    method SetSearchQuery(q: string)
      modifies this
      ensures searchQuery == q
      ensures jobs == old(jobs) && sortOrder == old(sortOrder) && selectedJobIds == old(selectedJobIds)
      ensures FilteredJobs() == FilteredJobsOf(jobs, q, sortOrder)
    {
      searchQuery := q;
    }

    /** The sort selector's `onChange`: "desc" is newest first, "asc" oldest first. */
    method SetSortOrder(o: string)
      modifies this
      ensures sortOrder == o
      ensures jobs == old(jobs) && searchQuery == old(searchQuery) && selectedJobIds == old(selectedJobIds)
      ensures FilteredJobs() == FilteredJobsOf(jobs, searchQuery, o)
    {
      sortOrder := o;
    }

    function FilteredJobs(): seq<Job>
      reads this
    {
      FilteredJobsOf(jobs, searchQuery, sortOrder)
    }

    predicate AreAllSelected()
      reads this
    {
      AllSelected(selectedJobIds, FilteredJobs())
    }

    method ToggleSelect(id: int)
      modifies this
      ensures selectedJobIds == Toggled(old(selectedJobIds), id)
      ensures jobs == old(jobs) && searchQuery == old(searchQuery) && sortOrder == old(sortOrder)
    {
      var newSelected := selectedJobIds;
      if id in newSelected {
        newSelected := newSelected - {id};
      } else {
        newSelected := newSelected + {id};
      }
      selectedJobIds := newSelected;
    }

    method SelectAll()
      modifies this
      ensures selectedJobIds == SelectAllOf(old(selectedJobIds), old(FilteredJobs()))
      ensures jobs == old(jobs) && searchQuery == old(searchQuery) && sortOrder == old(sortOrder)
    {
      if AreAllSelected() {
        selectedJobIds := {};
      } else {
        selectedJobIds := IdsOf(FilteredJobs());
      }
    }

    method SelectRejected()
      modifies this
      ensures selectedJobIds == RejectedIds(old(FilteredJobs()))
      ensures jobs == old(jobs) && searchQuery == old(searchQuery) && sortOrder == old(sortOrder)
    {
      selectedJobIds := RejectedIds(FilteredJobs());
    }
  }
}
