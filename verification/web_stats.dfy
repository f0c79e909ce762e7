/**
  The summary counters that the web layer (app.py, `analyze()`) computes
  from the analyzer's three lists: the ranked reels, the ranked posts and
  every collected post.
 */
module WebStats {
  import opened Common
  import opened InstagramClassify
  import opened InstagramScan
  import StableSort

  /** The nine counters of the `stats` object. */
  datatype Stats = Stats(
    totalPosts: nat,
    averageEngagement: int,
    topEngagement: int,
    accountsAnalyzed: nat,
    carouselCount: nat,
    photoCount: nat,
    reelCount: nat,
    videoCount: nat,
    totalViews: int)

  const ZeroStats: Stats := Stats(0, 0, 0, 0, 0, 0, 0, 0, 0)

  /** `sum(1 for x in xs if f(x))`. */
  function Count<T>(xs: seq<T>, f: T -> bool): (n: nat)
    ensures n <= |xs|
  {
    if xs == [] then 0 else Count(xs[..|xs| - 1], f) + (if f(xs[|xs| - 1]) then 1 else 0)
  }

  function Engagements(ps: seq<PostItem>): (r: seq<int>)
    ensures |r| == |ps|
    ensures forall i :: 0 <= i < |ps| ==> r[i] == ps[i].engagement
  {
    seq(|ps|, i requires 0 <= i < |ps| => ps[i].engagement)
  }

  /** Python's `round(a / n)` on the exact quotient: to the nearest integer,
      halves to the even neighbour. */
  function RoundHalfEven(a: int, n: int): int
    requires n > 0
  {
    var q, r := a / n, a % n;
    if 2 * r < n then q
    else if 2 * r > n then q + 1
    else if q % 2 == 0 then q
    else q + 1
  }

  /** What a reel adds to `total_views`: its views when they are truthy. */
  function ViewsTerm(p: PostItem): int
  {
    if p.views.Some? && p.views.value != 0 then p.views.value else 0
  }

  function TotalViews(reels: seq<PostItem>): int
  {
    if reels == [] then 0 else TotalViews(reels[..|reels| - 1]) + ViewsTerm(reels[|reels| - 1])
  }

  /** The highest engagement: the first entry after sorting by engagement,
      highest first. */
  function TopEngagement(all: seq<PostItem>): int
    requires all != []
  {
    StableSort.Sort(all, EngagementKey)[0].engagement
  }

  function Usernames(all: seq<PostItem>): set<string>
  {
    set p | p in all :: p.username
  }

  predicate IsCarouselItem(p: PostItem) { p.isCarousel }
  predicate IsPhotoItem(p: PostItem) { !p.isCarousel && !p.isVideo }
  predicate IsPlainVideo(p: PostItem) { p.isVideo && !p.isReel }

  /** The `stats` object of `analyze()`: all zero without posts; otherwise the
      totals over `all` and the type counts over the two ranked lists. */
  function ComputeStats(reels: seq<PostItem>, posts: seq<PostItem>, all: seq<PostItem>): (s: Stats)
    ensures all == [] ==> s == ZeroStats
    ensures all != [] ==> s.totalPosts == |all| && s.reelCount == |reels|
    ensures s.carouselCount + s.photoCount + s.videoCount <= 3 * |posts|
  {
    if all == [] then ZeroStats
    else
      Stats(
        totalPosts := |all|,
        averageEngagement := RoundHalfEven(Sum(Engagements(all)), |all|),
        topEngagement := TopEngagement(all),
        accountsAnalyzed := |Usernames(all)|,
        carouselCount := Count(posts, IsCarouselItem),
        photoCount := Count(posts, IsPhotoItem),
        reelCount := |reels|,
        videoCount := Count(posts, IsPlainVideo),
        totalViews := TotalViews(reels))
  }

  // ---------------------------------------------------------------------
  // Properties

  /** The rounded average is within half a unit of the exact one, and an
      exact half goes to the even neighbour. */
  lemma {:induction false} RoundHalfEvenNearest(a: int, n: int)
    requires n > 0
    ensures var m := RoundHalfEven(a, n);
      && -n <= 2 * (a - n * m) <= n
      && (2 * (a - n * m) == n || 2 * (a - n * m) == -n ==> m % 2 == 0)
  {
    var q, r := a / n, a % n;
    assert a == n * q + r;
    var m := RoundHalfEven(a, n);
    if 2 * r < n {
      assert a - n * m == r;
    } else {
      if 2 * r > n || q % 2 != 0 {
        assert m == q + 1;
        assert a - n * m == r - n;
      } else {
        assert m == q;
      }
    }
  }

  /** `top_engagement` is the largest engagement in `all`, and some post
      has it. */
  lemma {:induction false} TopEngagementIsMax(all: seq<PostItem>)
    requires all != []
    ensures forall p :: p in all ==> p.engagement <= TopEngagement(all)
    ensures exists p :: p in all && p.engagement == TopEngagement(all)
  {
    var sorted := StableSort.Sort(all, EngagementKey);
    StableSort.SortSorted(all, EngagementKey);
    StableSort.SortMultiset(all, EngagementKey);
    forall p | p in all ensures p.engagement <= TopEngagement(all) {
      assert p in multiset(sorted);
      var j :| 0 <= j < |sorted| && sorted[j] == p;
      if j > 0 {
        assert EngagementKey(sorted[0]) >= EngagementKey(sorted[j]);
      }
    }
    assert sorted[0] in multiset(all);
  }

  lemma {:induction false} CountAppend<T>(a: seq<T>, b: seq<T>, f: T -> bool)
    ensures Count(a + b, f) == Count(a, f) + Count(b, f)
    decreases |b|
  {
    if b == [] {
      assert a + b == a;
    } else {
      var b' := b[..|b| - 1];
      assert (a + b)[..|a + b| - 1] == a + b';
      CountAppend(a, b', f);
    }
  }

  /** A predicate and one that is its negation on every element of `xs`
      together count each element once. */
  lemma {:induction false} CountComplement<T>(xs: seq<T>, f: T -> bool, g: T -> bool)
    requires forall x :: x in xs ==> (g(x) <==> !f(x))
    ensures Count(xs, f) + Count(xs, g) == |xs|
  {
    if xs != [] {
      var init := xs[..|xs| - 1];
      assert forall x :: x in init ==> x in xs;
      CountComplement(init, f, g);
    }
  }

  lemma {:induction false} CountNone<T>(xs: seq<T>, f: T -> bool)
    requires forall x :: x in xs ==> !f(x)
    ensures Count(xs, f) == 0
  {
    if xs != [] {
      var init := xs[..|xs| - 1];
      assert forall x :: x in init ==> x in xs;
      CountNone(init, f);
    }
  }

  /** `total_views` adds up list by list; reels without truthy views add
      nothing. */
  lemma {:induction false} TotalViewsAppend(a: seq<PostItem>, b: seq<PostItem>)
    ensures TotalViews(a + b) == TotalViews(a) + TotalViews(b)
    ensures (forall p :: p in b ==> p.views.None? || p.views == Some(0)) ==> TotalViews(a + b) == TotalViews(a)
    decreases |b|
  {
    if b == [] {
      assert a + b == a;
    } else {
      var b' := b[..|b| - 1];
      assert (a + b)[..|a + b| - 1] == a + b';
      assert forall p :: p in b' ==> p in b;
      TotalViewsAppend(a, b');
    }
  }

  /** `accounts_analyzed` counts the successful accounts (without
      duplicates). */
  lemma {:induction false} UsernamesOfSuccessful(os: seq<Outcome>, start: int, end: int)
    requires Attributed(os, start, end)
    ensures Usernames(AllPosts(os)) == set n | n in Successful(os)
  {
    PostsBelongToSuccessful(os, start, end);
    forall n | n in Successful(os) ensures n in Usernames(AllPosts(os)) {
      var p :| p in AllPosts(os) && p.username == n;
    }
  }

  /** The counters over what `analyze_competitors` returns: at most 10 reels;
      no plain videos among the ranked posts (every video is a reel), so
      carousels and photos together are all of them; one count per
      distinct successful account. */
  lemma {:induction false} StatsOfAnalysis(accounts: seq<AccountInput>, start: int, end: int)
    ensures
      var os := Outcomes(accounts, start, end);
      var all := AllPosts(os);
      var s := ComputeStats(TopReels(all), TopPosts(all), all);
      && s.reelCount <= TopCount
      && s.videoCount == 0
      && s.carouselCount + s.photoCount == |TopPosts(all)|
      && s.accountsAnalyzed == (if all == [] then 0 else |set n | n in Successful(os)|)
      && s.totalPosts == |all|
  {
    var os := Outcomes(accounts, start, end);
    var all := AllPosts(os);
    var posts := TopPosts(all);
    OutcomesAttributed(accounts, start, end);
    PostsBelongToSuccessful(os, start, end);
    RankingSpec(all);
    if all != [] {
      UsernamesOfSuccessful(os, start, end);
      assert forall p :: p in posts ==> !p.isVideo by {
        forall p | p in posts ensures !p.isVideo {
          assert p in all && !p.isReel;
        }
      }
      CountNone(posts, IsPlainVideo);
      CountComplement(posts, IsCarouselItem, IsPhotoItem);
    }
  }
}
