/** The freelance job board: loading sorts the fetched jobs newest first, the search box
    filters them case-insensitively, and the selection screen shows only when the
    navigation came from the home page's "find talent" button. */
module FreelancePage {
  import opened Wrappers
  import opened Types
  import opened Seqs
  import Text

  const FromFindTalent := "HomePageFindTalent"

  datatype PageState = PageState(jobs: seq<Job>, loading: bool, searchTerm: string, showSelection: bool)

  // ---------------------------------------------------------------------------
  // Search

  /** `text.toLowerCase().includes(term.toLowerCase())` */
  predicate MatchesText(text: string, term: string) {
    Text.Includes(Text.ToLower(text), Text.ToLower(term))
  }

  /** The search predicate: the term occurs, ignoring ASCII case, in the title, in the
      description, or in one of the skills. */
  predicate Matches(job: Job, term: string) {
    MatchesText(job.info.title, term) || MatchesText(job.info.description, term)
    || exists k :: 0 <= k < |job.info.skills| && MatchesText(job.info.skills[k], term)
  }

  /** `filteredJobs` */
  function FilteredJobs(jobs: seq<Job>, term: string): (r: seq<Job>)
    ensures forall i :: 0 <= i < |r| ==> r[i] in jobs && Matches(r[i], term)
    ensures forall i :: 0 <= i < |jobs| && Matches(jobs[i], term) ==> jobs[i] in r
  {
    Filter(jobs, (j: Job) => Matches(j, term))
  }

  /** A matching job is kept as many times as it was loaded; any other job is dropped. */
  lemma FilteredJobsCount(jobs: seq<Job>, term: string, j: Job)
    ensures multiset(FilteredJobs(jobs, term))[j] == if Matches(j, term) then multiset(jobs)[j] else 0
  {
    FilterCount(jobs, (x: Job) => Matches(x, term), j);
  }

  /** The filtered list keeps the loaded order, and filtering it again changes nothing. */
  lemma FilteredJobsOrderAndIdempotence(jobs: seq<Job>, term: string)
    ensures IsSubseq(FilteredJobs(jobs, term), jobs)
    ensures FilteredJobs(FilteredJobs(jobs, term), term) == FilteredJobs(jobs, term)
  {
    FilterIsSubseq(jobs, (j: Job) => Matches(j, term));
    FilterIdempotent(jobs, (j: Job) => Matches(j, term));
  }

  /** An empty search keeps every job. */
  lemma EmptySearchKeepsAll(jobs: seq<Job>)
    ensures FilteredJobs(jobs, "") == jobs
  {
    forall i | 0 <= i < |jobs| ensures Matches(jobs[i], "") {
      assert Text.ToLower("") == "";
      assert "" <= Text.ToLower(jobs[i].info.title);
    }
    FilterAll(jobs, (j: Job) => Matches(j, ""));
  }

  /** A job whose title contains the term, in any ASCII case, is kept. */
  lemma TitleMatchKept(jobs: seq<Job>, term: string, i: int)
    requires 0 <= i < |jobs|
    requires Text.Includes(Text.ToLower(jobs[i].info.title), Text.ToLower(term))
    ensures jobs[i] in FilteredJobs(jobs, term)
  {
  }

  // ---------------------------------------------------------------------------
  // Newest-first ordering

  predicate NewestFirst(jobs: seq<Job>) {
    forall i, j :: 0 <= i < j < |jobs| ==> jobs[i].info.createdAt >= jobs[j].info.createdAt
  }

  /** Inserts `x` into a newest-first list before the first job that is not newer than it. */
  function Insert(x: Job, sorted: seq<Job>): (r: seq<Job>)
    requires NewestFirst(sorted)
    ensures NewestFirst(r)
    ensures multiset(r) == multiset(sorted) + multiset{x}
    ensures |r| == |sorted| + 1
    ensures forall k :: 0 <= k < |r| ==> r[k] == x || r[k] in sorted
  {
    if sorted == [] || sorted[0].info.createdAt <= x.info.createdAt then
      InsertFront(x, sorted);
      [x] + sorted
    else
      var rest := Insert(x, sorted[1..]);
      InsertBehind(x, sorted, rest);
      [sorted[0]] + rest
  }

  /** A job at least as new as the head of a newest-first list can go in front of it. */
  lemma InsertFront(x: Job, sorted: seq<Job>)
    requires NewestFirst(sorted)
    requires sorted == [] || sorted[0].info.createdAt <= x.info.createdAt
    ensures NewestFirst([x] + sorted)
  {
    var r := [x] + sorted;
    forall i, j | 0 <= i < j < |r| ensures r[i].info.createdAt >= r[j].info.createdAt {
      if i == 0 {
        assert r[j] == sorted[j - 1];
        assert sorted[0].info.createdAt >= sorted[j - 1].info.createdAt;
      }
    }
  }

  /** An older job inserted into the tail keeps the head first. */
  lemma InsertBehind(x: Job, sorted: seq<Job>, rest: seq<Job>)
    requires sorted != [] && NewestFirst(sorted) && x.info.createdAt < sorted[0].info.createdAt
    requires NewestFirst(rest) && multiset(rest) == multiset(sorted[1..]) + multiset{x}
    requires forall k :: 0 <= k < |rest| ==> rest[k] == x || rest[k] in sorted[1..]
    ensures var r := [sorted[0]] + rest;
      && NewestFirst(r)
      && multiset(r) == multiset(sorted) + multiset{x}
      && forall k :: 0 <= k < |r| ==> r[k] == x || r[k] in sorted
  {
    assert sorted == [sorted[0]] + sorted[1..];
    var r := [sorted[0]] + rest;
    forall i, j | 0 <= i < j < |r| ensures r[i].info.createdAt >= r[j].info.createdAt {
      if i == 0 {
        assert r[j] == rest[j - 1];
        if rest[j - 1] != x {
          var m :| 0 <= m < |sorted[1..]| && sorted[1..][m] == rest[j - 1];
          assert sorted[m + 1] == rest[j - 1];
        }
      } else {
        assert r[i] == rest[i - 1] && r[j] == rest[j - 1];
      }
    }
  }

  /** `data.sort((a, b) => b.createdAt - a.createdAt)`: the same jobs, newest first. */
  function SortNewestFirst(jobs: seq<Job>): (r: seq<Job>)
    ensures NewestFirst(r)
    ensures multiset(r) == multiset(jobs)
    ensures |r| == |jobs|
  {
    if jobs == [] then []
    else
      assert jobs == [jobs[0]] + jobs[1..];
      Insert(jobs[0], SortNewestFirst(jobs[1..]))
  }

  /** A list that is already newest first comes back unchanged. */
  lemma {:induction false} SortKeepsSorted(jobs: seq<Job>)
    requires NewestFirst(jobs)
    ensures SortNewestFirst(jobs) == jobs
    decreases |jobs|
  {
    if jobs != [] {
      SortKeepsSorted(jobs[1..]);
      assert jobs == [jobs[0]] + jobs[1..];
    }
  }

  // ---------------------------------------------------------------------------
  // Page state

  /** `useState(location.state?.from === 'HomePageFindTalent')` */
  function Initial(from: Option<string>): (s: PageState)
    ensures s.showSelection <==> from == Some(FromFindTalent)
    ensures s.loading && s.jobs == [] && s.searchTerm == ""
  {
    PageState([], true, "", from == Some(FromFindTalent))
  }

  /** The navigation effect: the selection screen is forced off when `from` differs. */
  function OnNavigation(s: PageState, from: Option<string>): (r: PageState)
    ensures from != Some(FromFindTalent) ==> !r.showSelection
    ensures from == Some(FromFindTalent) ==> r == s
    ensures r.(showSelection := s.showSelection) == s
  {
    if from != Some(FromFindTalent) then s.(showSelection := false) else s
  }

  /** Once the selection screen is off, no navigation brings it back. */
  lemma SelectionNeverReturns(s: PageState, from: Option<string>)
    requires !s.showSelection
    ensures !OnNavigation(s, from).showSelection
  {
  }

  /** The selection screen is up after a navigation exactly when it was up before and the
      navigation came from the home page's "find talent" button. */
  lemma SelectionAfterNavigation(s: PageState, from: Option<string>)
    ensures OnNavigation(s, from).showSelection <==> s.showSelection && from == Some(FromFindTalent)
  {
  }

  /** On a fresh page the navigation effect agrees with the initial state. */
  lemma InitialStable(from: Option<string>)
    ensures OnNavigation(Initial(from), from) == Initial(from)
  {
  }

  /** The load effect: `fetched` is what `getFreelanceJobs` resolved to. */
  function OnJobsLoaded(s: PageState, fetched: seq<Job>): (r: PageState)
    ensures NewestFirst(r.jobs) && multiset(r.jobs) == multiset(fetched)
    ensures !r.loading
    ensures r.searchTerm == s.searchTerm && r.showSelection == s.showSelection
  {
    s.(jobs := SortNewestFirst(fetched), loading := false)
  }

  /** "No Jobs Found" is shown: the selection screen, which returns early, is not up, loading
      is over, and no job passes the search. */
  predicate ShowsNoJobsFound(s: PageState) {
    !s.showSelection && FilteredJobs(s.jobs, s.searchTerm) == [] && !s.loading
  }

  /** The "Freelance Job" button of the selection screen: it closes the screen and leaves
      everything else as it was. */
  function OnChooseFreelance(s: PageState): (r: PageState)
    ensures !r.showSelection
    ensures r.(showSelection := s.showSelection) == s
  {
    s.(showSelection := false)
  }

  /** After loading, "No Jobs Found" appears exactly when no fetched job matches the search. */
  lemma NoJobsFoundIff(s: PageState, fetched: seq<Job>)
    ensures ShowsNoJobsFound(OnJobsLoaded(s, fetched)) <==>
      !s.showSelection && forall i :: 0 <= i < |fetched| ==> !Matches(fetched[i], s.searchTerm)
  {
    var r := OnJobsLoaded(s, fetched);
    var f := FilteredJobs(r.jobs, s.searchTerm);
    if f == [] {
      forall i | 0 <= i < |fetched| ensures !Matches(fetched[i], s.searchTerm) {
        assert fetched[i] in multiset(r.jobs);
      }
    } else {
      assert f[0] in r.jobs;
      assert f[0] in multiset(fetched);
    }
  }

  /** A visitor who picks "Freelance Job" reaches the board: after loading, "No Jobs Found"
      appears exactly when no fetched job matches the search. */
  lemma ChooseFreelanceThenNoJobsFound(s: PageState, fetched: seq<Job>)
    ensures ShowsNoJobsFound(OnJobsLoaded(OnChooseFreelance(s), fetched)) <==>
      forall i :: 0 <= i < |fetched| ==> !Matches(fetched[i], s.searchTerm)
  {
    NoJobsFoundIff(OnChooseFreelance(s), fetched);
  }
}
