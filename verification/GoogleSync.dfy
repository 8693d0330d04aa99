/**
  Review reconciliation: a cursor walks the pages of each location's listing, one page a job, while
  event jobs fetch single reviews; a cache classifies every observation. One organization is followed,
  and locations are identified within it.
 */
module GoogleSync {
  import opened Wrappers

  datatype Review = Review(id: string, fingerprint: string)

  datatype Change = New | Updated | Unchanged

  datatype Item = Item(review: Review, change: Change)

  // A paged listing: the token that leads to page i + 1 is tokens[i].
  datatype RawListing = RawListing(pages: seq<seq<Review>>, tokens: seq<string>)

  type Listing = l: RawListing | |l.pages| == |l.tokens| + 1 witness RawListing([[]], [])

  // A page and the token of the next one, if any.
  datatype Page = Page(items: seq<Review>, next: Option<string>)

  // Tokens are not empty and tell the pages apart.
  ghost predicate ProperTokens(l: Listing) {
    && (forall i | 0 <= i < |l.tokens| :: l.tokens[i] != "")
    && (forall i, j | 0 <= i < j < |l.tokens| :: l.tokens[i] != l.tokens[j])
  }

  function PageIndex(tokens: seq<string>, token: string): Option<nat> {
    if tokens == [] then None
    else if tokens[|tokens| - 1] == token then Some(|tokens|)
    else PageIndex(tokens[..|tokens| - 1], token)
  }

  // The listing's answer to a token: an absent or empty one asks for the first page, an unknown one fails.
  function ListReviews(l: Listing, token: Option<string>): Option<Page> {
    var page := if token.None? || token.value == "" then Some(0) else PageIndex(l.tokens, token.value);
    if page.None? || page.value >= |l.pages| then None
    else Some(Page(l.pages[page.value], TokenFor(l, NextPage(l, page.value))))
  }

  // The page after this one, the first after the last.
  function NextPage(l: Listing, page: nat): nat {
    if page + 1 < |l.pages| then page + 1 else 0
  }

  function TokenFor(l: Listing, page: nat): Option<string>
    requires page <= |l.tokens|
  {
    if page == 0 then None else Some(l.tokens[page - 1])
  }

  lemma {:induction false} PageIndexFinds(tokens: seq<string>, i: nat)
    requires i < |tokens| && forall j, k | 0 <= j < k < |tokens| :: tokens[j] != tokens[k]
    ensures PageIndex(tokens, tokens[i]) == Some(i + 1)
    decreases |tokens|
  {
    if i < |tokens| - 1 {
      PageIndexFinds(tokens[..|tokens| - 1], i);
    }
  }

  lemma TokenAsksForItsPage(l: Listing, page: nat)
    requires ProperTokens(l) && page < |l.pages|
    ensures ListReviews(l, TokenFor(l, page)) == Some(Page(l.pages[page], TokenFor(l, NextPage(l, page))))
  {
    if page != 0 {
      PageIndexFinds(l.tokens, page - 1);
    }
  }

  /// Observations

  datatype Engine = Engine(cursors: map<string, Option<string>>, cache: map<string, string>,
                           results: map<string, seq<Item>>)

  function Classify(cache: map<string, string>, review: Review): Item {
    Item(review,
         if review.id !in cache then New else if cache[review.id] != review.fingerprint then Updated else Unchanged)
  }

  function ResultsOf(results: map<string, seq<Item>>, id: string): seq<Item> {
    if id in results then results[id] else []
  }

  // One review observed and recorded.
  function Observed(e: Engine, review: Review): Engine {
    e.(cache := e.cache[review.id := review.fingerprint],
       results := e.results[review.id := ResultsOf(e.results, review.id) + [Classify(e.cache, review)]])
  }

  function AllObserved(e: Engine, reviews: seq<Review>): Engine {
    if reviews == [] then e else Observed(AllObserved(e, reviews[..|reviews| - 1]), reviews[|reviews| - 1])
  }

  function StoredToken(e: Engine, location: string): Option<string> {
    if location in e.cursors then e.cursors[location] else None
  }

  /// Jobs and runs

  datatype Job = ReconcileJob(location: string) | EventJob(fetched: Review)

  type Listings = map<string, Listing>

  // The page a reconcile job gets, if its location and token are known.
  function PageOf(listings: Listings, e: Engine, location: string): Option<Page> {
    if location in listings then ListReviews(listings[location], StoredToken(e, location)) else None
  }

  // What the job observes; a job whose page request fails observes nothing.
  function Observes(listings: Listings, e: Engine, job: Job): seq<Review> {
    match job
    case EventJob(fetched) => [fetched]
    case ReconcileJob(location) =>
      var page := PageOf(listings, e, location);
      if page.Some? then page.value.items else []
  }

  function Next(listings: Listings, e: Engine, job: Job): Engine {
    var observed := AllObserved(e, Observes(listings, e, job));
    if job.ReconcileJob? && PageOf(listings, e, job.location).Some?
    then observed.(cursors := e.cursors[job.location := PageOf(listings, e, job.location).value.next])
    else observed
  }

  function Run(listings: Listings, e: Engine, jobs: seq<Job>): Engine
    decreases |jobs|
  {
    if jobs == [] then e else Run(listings, Next(listings, e, jobs[0]), jobs[1..])
  }

  /// The engine as it mutates its tables

  class SyncEngine {
    var cursors: map<string, Option<string>>
    var cache: map<string, string>
    var results: map<string, seq<Item>>

    constructor ()
      ensures Abstract() == Engine(map[], map[], map[])
    {
      cursors, cache, results := map[], map[], map[];
    }

    function Abstract(): Engine
      reads this
    {
      Engine(cursors, cache, results)
    }

    method Observe(review: Review) returns (item: Item)
      modifies this`cache
      ensures item == Classify(old(cache), review) && cache == old(cache)[review.id := review.fingerprint]
    {
      var change :=
        if review.id !in cache then New else if cache[review.id] != review.fingerprint then Updated else Unchanged;
      cache := cache[review.id := review.fingerprint];
      item := Item(review, change);
    }

    method Record(item: Item)
      modifies this`results
      ensures results == old(results)[item.review.id := ResultsOf(old(results), item.review.id) + [item]]
    {
      if item.review.id !in results {
        results := results[item.review.id := []];
      }
      results := results[item.review.id := results[item.review.id] + [item]];
    }

    method HandleEvent(fetched: Review)
      modifies this
      ensures Abstract() == AllObserved(old(Abstract()), [fetched])
      ensures forall listings: Listings :: Next(listings, old(Abstract()), EventJob(fetched)) == Abstract()
    {
      var item := Observe(fetched);
      Record(item);
    }

    // Observes the page's reviews in order, then stores the next token exactly as received.
    method ReconcilePage(location: string, page: Page)
      modifies this
      ensures Abstract() == AllObserved(old(Abstract()), page.items).(cursors := old(cursors)[location := page.next])
    {
      for i := 0 to |page.items|
        invariant Abstract() == AllObserved(old(Abstract()), page.items[..i])
        invariant cursors == old(cursors)
      {
        assert page.items[..i + 1][..i] == page.items[..i];
        HandleEvent(page.items[i]);
      }
      assert page.items[..|page.items|] == page.items;
      cursors := cursors[location := page.next];
    }

    // Serves one page of the location's listing, if the location and the stored token are known to it.
    method HandleReconcile(listings: Listings, location: string) returns (served: bool)
      modifies this
      ensures Abstract() == Next(listings, old(Abstract()), ReconcileJob(location))
      ensures served == PageOf(listings, old(Abstract()), location).Some?
    {
      var token := if location in cursors then cursors[location] else None;
      var page := if location in listings then ListReviews(listings[location], token) else None;
      served := page.Some?;
      if served {
        ReconcilePage(location, page.value);
      }
    }
  }

  /// What runs observe

  // The reviews observed by the reconcile jobs of one location, in order.
  function Reconciled(listings: Listings, e: Engine, jobs: seq<Job>, location: string): seq<Review>
    decreases |jobs|
  {
    if jobs == [] then []
    else
      var first := if jobs[0] == ReconcileJob(location) then Observes(listings, e, jobs[0]) else [];
      first + Reconciled(listings, Next(listings, e, jobs[0]), jobs[1..], location)
  }

  function CountJobs(jobs: seq<Job>, location: string): nat
    decreases |jobs|
  {
    if jobs == [] then 0 else (if jobs[0] == ReconcileJob(location) then 1 else 0) + CountJobs(jobs[1..], location)
  }

  /// The cursor walks the pages

  lemma {:induction false} ObservingKeepsCursors(e: Engine, reviews: seq<Review>)
    ensures AllObserved(e, reviews).cursors == e.cursors
  {
    if reviews != [] {
      ObservingKeepsCursors(e, reviews[..|reviews| - 1]);
    }
  }

  // The reviews of `count` pages from this one on, in order, wrapping after the last.
  function PagesFrom(l: Listing, page: nat, count: nat): seq<Review>
    requires page < |l.pages|
    decreases count
  {
    if count == 0 then [] else l.pages[page] + PagesFrom(l, NextPage(l, page), count - 1)
  }

  function PageAfter(l: Listing, page: nat, count: nat): nat
    decreases count
  {
    if count == 0 then page else PageAfter(l, NextPage(l, page), count - 1)
  }

  lemma ReconcileTurnsThePage(listings: Listings, e: Engine, location: string, page: nat)
    requires location in listings && ProperTokens(listings[location]) && page < |listings[location].pages|
    requires StoredToken(e, location) == TokenFor(listings[location], page)
    ensures Observes(listings, e, ReconcileJob(location)) == listings[location].pages[page]
    ensures StoredToken(Next(listings, e, ReconcileJob(location)), location)
         == TokenFor(listings[location], NextPage(listings[location], page))
  {
    TokenAsksForItsPage(listings[location], page);
  }

  lemma OtherJobsKeepTheCursor(listings: Listings, e: Engine, job: Job, location: string)
    requires job != ReconcileJob(location)
    ensures StoredToken(Next(listings, e, job), location) == StoredToken(e, location)
  {
    ObservingKeepsCursors(e, Observes(listings, e, job));
  }

  // Whatever other jobs come between, a location's reconcile jobs observe its pages one after the other.
  lemma {:induction false} CursorWalksThePages(listings: Listings, e: Engine, jobs: seq<Job>, location: string,
                                               page: nat)
    requires location in listings && ProperTokens(listings[location]) && page < |listings[location].pages|
    requires StoredToken(e, location) == TokenFor(listings[location], page)
    ensures Reconciled(listings, e, jobs, location) == PagesFrom(listings[location], page, CountJobs(jobs, location))
    decreases |jobs|
  {
    if jobs != [] {
      var next := Next(listings, e, jobs[0]);
      if jobs[0] == ReconcileJob(location) {
        ReconcileTurnsThePage(listings, e, location, page);
        CursorWalksThePages(listings, next, jobs[1..], location, NextPage(listings[location], page));
      } else {
        OtherJobsKeepTheCursor(listings, e, jobs[0], location);
        CursorWalksThePages(listings, next, jobs[1..], location, page);
      }
    }
  }

  // The stored token tells how far round the listing the location's jobs have got.
  lemma {:induction false} CursorStandsAtItsPage(listings: Listings, e: Engine, jobs: seq<Job>, location: string,
                                                 page: nat)
    requires location in listings && ProperTokens(listings[location]) && page < |listings[location].pages|
    requires StoredToken(e, location) == TokenFor(listings[location], page)
    ensures PageAfter(listings[location], page, CountJobs(jobs, location)) < |listings[location].pages|
    ensures StoredToken(Run(listings, e, jobs), location)
         == TokenFor(listings[location], PageAfter(listings[location], page, CountJobs(jobs, location)))
    decreases |jobs|
  {
    if jobs != [] {
      var next := Next(listings, e, jobs[0]);
      if jobs[0] == ReconcileJob(location) {
        ReconcileTurnsThePage(listings, e, location, page);
        CursorStandsAtItsPage(listings, next, jobs[1..], location, NextPage(listings[location], page));
      } else {
        OtherJobsKeepTheCursor(listings, e, jobs[0], location);
        CursorStandsAtItsPage(listings, next, jobs[1..], location, page);
      }
    }
  }

  function Flatten(pages: seq<seq<Review>>): seq<Review> {
    if pages == [] then [] else pages[0] + Flatten(pages[1..])
  }

  lemma {:induction false} PagesUpToTheEnd(l: Listing, page: nat)
    requires page < |l.pages|
    ensures PagesFrom(l, page, |l.pages| - page) == Flatten(l.pages[page..])
    ensures PageAfter(l, page, |l.pages| - page) == 0
    decreases |l.pages| - page
  {
    assert l.pages[page..][1..] == l.pages[page + 1..];
    if page + 1 < |l.pages| {
      PagesUpToTheEnd(l, page + 1);
    } else {
      assert PagesFrom(l, 0, 0) == [] && PageAfter(l, 0, 0) == 0;
    }
  }

  // As many reconcile jobs as the listing has pages, starting from an empty cursor and among any other
  // jobs, observe the whole listing once in order and leave the cursor empty again.
  lemma {:induction false} FullCycleRecordsTheListing(listings: Listings, e: Engine, jobs: seq<Job>, location: string)
    requires location in listings && ProperTokens(listings[location])
    requires StoredToken(e, location) == None
    requires CountJobs(jobs, location) == |listings[location].pages|
    ensures Reconciled(listings, e, jobs, location) == Flatten(listings[location].pages)
    ensures StoredToken(Run(listings, e, jobs), location) == None
  {
    var l := listings[location];
    CursorWalksThePages(listings, e, jobs, location, 0);
    CursorStandsAtItsPage(listings, e, jobs, location, 0);
    PagesUpToTheEnd(l, 0);
    assert l.pages[0..] == l.pages;
  }

  /// What is recorded about each review

  // The fingerprints observed for one review, in order.
  function Seen(reviews: seq<Review>, id: string): seq<string> {
    if reviews == [] then []
    else
      var front, last := Seen(reviews[..|reviews| - 1], id), reviews[|reviews| - 1];
      if last.id == id then front + [last.fingerprint] else front
  }

  // The fingerprints observed for one review, in order, once a run has been added to those seen before.
  function SeenInRun(listings: Listings, e: Engine, jobs: seq<Job>, id: string, before: seq<string>): seq<string>
    decreases |jobs|
  {
    if jobs == [] then before
    else
      SeenInRun(listings, Next(listings, e, jobs[0]), jobs[1..], id, before + Seen(Observes(listings, e, jobs[0]), id))
  }

  // How the i-th observation of a review is to be classified: the first is new, a later one is updated
  // exactly when its fingerprint differs from the one before.
  function Expected(fingerprints: seq<string>, i: nat): Change
    requires i < |fingerprints|
  {
    if i == 0 then New else if fingerprints[i] != fingerprints[i - 1] then Updated else Unchanged
  }

  function Items(id: string, fingerprints: seq<string>): seq<Item> {
    if fingerprints == [] then []
    else
      var last := |fingerprints| - 1;
      Items(id, fingerprints[..last]) + [Item(Review(id, fingerprints[last]), Expected(fingerprints, last))]
  }

  lemma {:induction false} ItemAt(id: string, fingerprints: seq<string>, i: nat)
    requires i < |fingerprints|
    ensures |Items(id, fingerprints)| == |fingerprints|
    ensures Items(id, fingerprints)[i] == Item(Review(id, fingerprints[i]), Expected(fingerprints, i))
    decreases |fingerprints|
  {
    var front := fingerprints[..|fingerprints| - 1];
    if front != [] {
      ItemAt(id, front, if i < |front| then i else 0);
      assert i < |front| ==> Expected(front, i) == Expected(fingerprints, i);
    }
  }

  // The tables record exactly these observations.
  ghost predicate Records(e: Engine, id: string, fingerprints: seq<string>) {
    && (id in e.cache <==> fingerprints != [])
    && (fingerprints != [] ==> e.cache[id] == fingerprints[|fingerprints| - 1])
    && ResultsOf(e.results, id) == Items(id, fingerprints)
  }

  lemma ObservationIsRecorded(e: Engine, review: Review, id: string, fingerprints: seq<string>)
    requires Records(e, id, fingerprints)
    ensures Records(Observed(e, review), id,
                    if review.id == id then fingerprints + [review.fingerprint] else fingerprints)
  {
    assert review.id == id ==> (fingerprints + [review.fingerprint])[..|fingerprints|] == fingerprints;
  }

  lemma {:induction false} ObservationsAreRecorded(e: Engine, reviews: seq<Review>, id: string,
                                                   fingerprints: seq<string>)
    requires Records(e, id, fingerprints)
    ensures Records(AllObserved(e, reviews), id, fingerprints + Seen(reviews, id))
  {
    if reviews == [] {
      assert fingerprints + Seen(reviews, id) == fingerprints;
    } else {
      var front, last := reviews[..|reviews| - 1], reviews[|reviews| - 1];
      ObservationsAreRecorded(e, front, id, fingerprints);
      ObservationIsRecorded(AllObserved(e, front), last, id, fingerprints + Seen(front, id));
      if last.id == id {
        assert fingerprints + Seen(front, id) + [last.fingerprint] == fingerprints + Seen(reviews, id);
      }
    }
  }

  lemma {:induction false} JobIsRecorded(listings: Listings, e: Engine, job: Job, id: string, fingerprints: seq<string>)
    requires Records(e, id, fingerprints)
    ensures Records(Next(listings, e, job), id, fingerprints + Seen(Observes(listings, e, job), id))
  {
    ObservationsAreRecorded(e, Observes(listings, e, job), id, fingerprints);
  }

  lemma {:induction false} SeenConcat(a: seq<Review>, b: seq<Review>, id: string)
    ensures Seen(a + b, id) == Seen(a, id) + Seen(b, id)
    decreases |b|
  {
    if b == [] {
      assert a + b == a;
    } else {
      SeenConcat(a, b[..|b| - 1], id);
      assert (a + b)[..|a + b| - 1] == a + b[..|b| - 1];
    }
  }

  // The listing holds the review once, on the given page and nowhere else.
  ghost predicate ListedOnce(pages: seq<seq<Review>>, page: nat, id: string) {
    && page < |pages| && |Seen(pages[page], id)| == 1
    && forall i | 0 <= i < |pages| && i != page :: Seen(pages[i], id) == []
  }

  lemma {:induction false} ListedOnceIsSeenOnce(pages: seq<seq<Review>>, page: nat, id: string)
    requires ListedOnce(pages, page, id)
    ensures |Seen(Flatten(pages), id)| == 1
    decreases |pages|
  {
    SeenConcat(pages[0], Flatten(pages[1..]), id);
    if page == 0 {
      forall i | 0 <= i < |pages[1..]|
        ensures Seen(pages[1..][i], id) == []
      {
      }
      UnlistedIsUnseen(pages[1..], id);
    } else {
      assert pages[1..][page - 1] == pages[page];
      ListedOnceIsSeenOnce(pages[1..], page - 1, id);
    }
  }

  lemma {:induction false} UnlistedIsUnseen(pages: seq<seq<Review>>, id: string)
    requires forall i | 0 <= i < |pages| :: Seen(pages[i], id) == []
    ensures Seen(Flatten(pages), id) == []
    decreases |pages|
  {
    if pages != [] {
      SeenConcat(pages[0], Flatten(pages[1..]), id);
      UnlistedIsUnseen(pages[1..], id);
    }
  }

  // In a full cycle, the location's reconcile jobs record each review that the listing holds once exactly once.
  lemma {:induction false} FullCycleRecordsEachReviewOnce(listings: Listings, e: Engine, jobs: seq<Job>,
                                                          location: string, page: nat, id: string)
    requires location in listings && ProperTokens(listings[location])
    requires StoredToken(e, location) == None && CountJobs(jobs, location) == |listings[location].pages|
    requires ListedOnce(listings[location].pages, page, id)
    ensures |Seen(Reconciled(listings, e, jobs, location), id)| == 1
  {
    FullCycleRecordsTheListing(listings, e, jobs, location);
    ListedOnceIsSeenOnce(listings[location].pages, page, id);
  }

  // Along every run the tables record, for each review, every observation of it once and in order.
  lemma {:induction false} EveryObservationIsRecorded(listings: Listings, e: Engine, jobs: seq<Job>, id: string,
                                                      before: seq<string>)
    requires Records(e, id, before)
    ensures Records(Run(listings, e, jobs), id, SeenInRun(listings, e, jobs, id, before))
    decreases |jobs|
  {
    if jobs != [] {
      JobIsRecorded(listings, e, jobs[0], id, before);
      EveryObservationIsRecorded(listings, Next(listings, e, jobs[0]), jobs[1..], id,
                                 before + Seen(Observes(listings, e, jobs[0]), id));
    }
  }

  // From empty tables, each observation of a review in a run is recorded once and in order, the first as
  // NEW and no other; a later one is UPDATED exactly when the fingerprint changed.
  lemma {:induction false} NewExactlyOnce(listings: Listings, jobs: seq<Job>, id: string, items: seq<Item>,
                                          seen: seq<string>)
    requires items == ResultsOf(Run(listings, Engine(map[], map[], map[]), jobs).results, id)
    requires seen == SeenInRun(listings, Engine(map[], map[], map[]), jobs, id, [])
    ensures |items| == |seen|
    ensures forall i | 0 <= i < |items| :: items[i].review == Review(id, seen[i])
    ensures forall i | 0 <= i < |items| :: items[i].change == New <==> i == 0
    ensures forall i | 0 < i < |items| :: items[i].change == Updated <==> seen[i] != seen[i - 1]
  {
    EveryObservationIsRecorded(listings, Engine(map[], map[], map[]), jobs, id, []);
    assert items == Items(id, seen);
    if seen != [] {
      forall i | 0 <= i < |seen|
        ensures |items| == |seen| && items[i] == Item(Review(id, seen[i]), Expected(seen, i))
      {
        ItemAt(id, seen, i);
      }
      assert items[0].change == New;
    }
  }
}
