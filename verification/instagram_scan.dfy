/**
  The account loop of the Instagram analyzer (instagram_competitor_analyzer.py):
  the bounded newest-first scan of one account (`fetch_posts_from_account`),
  the aggregation over all accounts with per-account failure isolation and
  the ranking into top reels and top posts (`analyze_competitors`), and the
  account-list filter of `load_accounts`.

  What the scraping library yields for an account is an explicit input: the
  profile lookup either raises or gives a stream of posts, and the stream
  may raise at any position.
 */
module InstagramScan {
  import opened Common
  import opened InstagramClassify
  import StableSort

  /** At most this many posts of one account are processed. */
  const MaxPostsToCheck: nat := 50
  /** Length of each ranked list. */
  const TopCount: nat := 10

  /** One step of `profile.get_posts()`: a post, or an exception raised when
      the scan reaches this position (the iterator or a read of the post). */
  datatype StreamItem = Post(post: RawPost) | Raises(message: string)

  /** `Profile.from_username` raising (not found, private, connection
      failure, ...) or the profile's post stream, newest first. */
  datatype AccountFeed = ProfileError(message: string) | Posts(stream: seq<StreamItem>)

  datatype AccountInput = AccountInput(name: string, feed: AccountFeed)

  /** What `analyze_competitors` builds: the two ranked lists, every
      collected post, and the per-account outcome lists. */
  datatype Analysis = Analysis(
    reels: seq<PostItem>,
    posts: seq<PostItem>,
    all: seq<PostItem>,
    successful: seq<string>,
    failed: seq<string>)

  // ---------------------------------------------------------------------
  // Scan of one account

  /** The scan stops at position `i`: the stream raises there, the budget of
      50 processed posts is used up, or the post is older than `start`. */
  predicate StopsAt(stream: seq<StreamItem>, start: int, i: nat)
    requires i < |stream|
  {
    stream[i].Raises? || i >= MaxPostsToCheck || stream[i].post.date < start
  }

  /** The first position from `i` on at which the scan stops, or `|stream|`. */
  function CutFrom(stream: seq<StreamItem>, start: int, i: nat): (k: nat)
    requires i <= |stream|
    ensures i <= k <= |stream|
    ensures i <= MaxPostsToCheck ==> k <= MaxPostsToCheck
    ensures forall j :: i <= j < k ==> !StopsAt(stream, start, j)
    ensures k < |stream| ==> StopsAt(stream, start, k)
    decreases |stream| - i
  {
    if i == |stream| then i
    else if StopsAt(stream, start, i) then i
    else CutFrom(stream, start, i + 1)
  }

  function Cut(stream: seq<StreamItem>, start: int): nat
  {
    CutFrom(stream, start, 0)
  }

  predicate InWindow(p: RawPost, start: int, end: int)
  {
    start <= p.date <= end
  }

  /** The classified in-window posts of a stream segment, in stream order. */
  function Collect(username: string, s: seq<StreamItem>, start: int, end: int): seq<PostItem>
  {
    if s == [] then []
    else
      var last := s[|s| - 1];
      Collect(username, s[..|s| - 1], start, end)
        + (if last.Post? && InWindow(last.post, start, end) then [Classify(username, last.post)] else [])
  }

  /** Reference result of `fetch_posts_from_account`: the in-window posts
      before the cut, or nothing when the profile lookup raises or the stream
      raises before the scan stops. */
  function AccountPosts(username: string, feed: AccountFeed, start: int, end: int): seq<PostItem>
  {
    match feed
    case ProfileError(_) => []
    case Posts(stream) =>
      var k := Cut(stream, start);
      if k < |stream| && stream[k].Raises? then [] else Collect(username, stream[..k], start, end)
  }

  lemma {:induction false} CollectStep(username: string, s: seq<StreamItem>, i: nat, start: int, end: int)
    requires i < |s|
    ensures Collect(username, s[..i + 1], start, end)
         == Collect(username, s[..i], start, end)
          + (if s[i].Post? && InWindow(s[i].post, start, end) then [Classify(username, s[i].post)] else [])
  {
    assert s[..i + 1][..i] == s[..i];
  }

  /** `fetch_posts_from_account`. The counter of consecutive old posts is
      kept as the analyzer keeps it; it is reset by every in-window or newer
      post and the first older post ends the scan, so it never reaches 10. */
  method FetchPosts(username: string, feed: AccountFeed, start: int, end: int)
    returns (posts: seq<PostItem>)
    ensures posts == AccountPosts(username, feed, start, end)
  {
    if feed.ProfileError? {
      return [];
    }
    var stream := feed.stream;
    ghost var k := Cut(stream, start);
    posts := [];
    var checked := 0;
    var consecutiveOld := 0;
    var i := 0;
    while i < |stream|
      invariant 0 <= i <= k
      invariant checked == i
      invariant consecutiveOld == 0
      invariant posts == Collect(username, stream[..i], start, end)
    {
      if stream[i].Raises? {
        assert StopsAt(stream, start, i);
        assert i == k;
        return [];
      }
      var p := stream[i].post;
      checked := checked + 1;
      if p.date < start {
        consecutiveOld := consecutiveOld + 1;
        if consecutiveOld >= 10 {
          break;
        }
      } else {
        consecutiveOld := 0;
      }
      if checked > MaxPostsToCheck {
        break;
      }
      CollectStep(username, stream, i, start, end);
      if start <= p.date <= end {
        posts := posts + [Classify(username, p)];
      } else if p.date < start {
        break;
      }
      i := i + 1;
    }
    assert i < |stream| ==> i == k;
  }

  /** `ps` as a stream of posts none of which raises. */
  function AsStream(ps: seq<RawPost>): (s: seq<StreamItem>)
    ensures |s| == |ps|
    ensures forall i :: 0 <= i < |ps| ==> s[i] == Post(ps[i])
  {
    if ps == [] then [] else AsStream(ps[..|ps| - 1]) + [Post(ps[|ps| - 1])]
  }

  function ClassifyAll(username: string, ps: seq<RawPost>): (r: seq<PostItem>)
    ensures |r| == |ps|
  {
    if ps == [] then [] else ClassifyAll(username, ps[..|ps| - 1]) + [Classify(username, ps[|ps| - 1])]
  }

  lemma {:induction false} CollectBounds(username: string, s: seq<StreamItem>, start: int, end: int)
    ensures |Collect(username, s, start, end)| <= |s|
    ensures forall r :: r in Collect(username, s, start, end) ==>
      r.username == username && start <= r.date <= end && WellClassified(r)
  {
    if s != [] {
      CollectBounds(username, s[..|s| - 1], start, end);
      var last := s[|s| - 1];
      if last.Post? {
        ClassifyWellClassified(username, last.post);
      }
    }
  }

  /** An account contributes at most 50 posts, each from the window
      `[start, end]`, each carrying the account's name. */
  lemma {:induction false} ScanBounds(username: string, feed: AccountFeed, start: int, end: int)
    ensures |AccountPosts(username, feed, start, end)| <= MaxPostsToCheck
    ensures forall r :: r in AccountPosts(username, feed, start, end) ==>
      r.username == username && start <= r.date <= end && WellClassified(r)
  {
    if feed.Posts? {
      var k := Cut(feed.stream, start);
      CollectBounds(username, feed.stream[..k], start, end);
    }
  }

  lemma {:induction false} CollectAllInWindow(username: string, ps: seq<RawPost>, start: int, end: int)
    requires forall i :: 0 <= i < |ps| ==> InWindow(ps[i], start, end)
    ensures Collect(username, AsStream(ps), start, end) == ClassifyAll(username, ps)
  {
    if ps != [] {
      var init := ps[..|ps| - 1];
      CollectAllInWindow(username, init, start, end);
      var s := AsStream(ps);
      assert s[..|s| - 1] == AsStream(init);
    }
  }

  /** The cut is the first stopping position. */
  lemma {:induction false} CutFromAt(stream: seq<StreamItem>, start: int, i: nat, k: nat)
    requires i <= k <= |stream|
    requires k < |stream| ==> StopsAt(stream, start, k)
    requires forall j :: i <= j < k ==> !StopsAt(stream, start, j)
    ensures CutFrom(stream, start, i) == k
    decreases k - i
  {
    if i < k {
      CutFromAt(stream, start, i + 1, k);
    }
  }

  /** Newest-first scan: a run of in-window posts followed by a post older
      than `start` yields exactly the run; nothing after the older post is
      looked at (so a longer run of older posts changes nothing). */
  lemma {:induction false} OldPostEndsScan(username: string, ps: seq<RawPost>, older: RawPost, rest: seq<StreamItem>, start: int, end: int)
    requires |ps| < MaxPostsToCheck
    requires forall i :: 0 <= i < |ps| ==> InWindow(ps[i], start, end)
    requires older.date < start
    ensures AccountPosts(username, Posts(AsStream(ps) + [Post(older)] + rest), start, end) == ClassifyAll(username, ps)
  {
    var run := AsStream(ps);
    var stream := run + [Post(older)] + rest;
    forall j | 0 <= j < |ps| ensures !StopsAt(stream, start, j) {
      assert stream[j] == run[j];
    }
    assert stream[|ps|] == Post(older);
    CutFromAt(stream, start, 0, |ps|);
    assert stream[..|ps|] == run;
    CollectAllInWindow(username, ps, start, end);
  }

  lemma {:induction false} CollectAfterSkipped(username: string, x: StreamItem, s: seq<StreamItem>, start: int, end: int)
    requires x.Post? && !InWindow(x.post, start, end)
    ensures Collect(username, [x] + s, start, end) == Collect(username, s, start, end)
  {
    var t := [x] + s;
    if s == [] {
      assert t[..0] == [];
    } else {
      assert t[..|t| - 1] == [x] + s[..|s| - 1];
      assert t[|t| - 1] == s[|s| - 1];
      CollectAfterSkipped(username, x, s[..|s| - 1], start, end);
    }
  }

  /** A post newer than `end` is skipped without ending the scan: putting one
      in front of the stream (within the budget) changes nothing. */
  lemma {:induction false} NewerPostSkipped(username: string, newer: RawPost, ps: seq<RawPost>, start: int, end: int)
    requires newer.date > end && end >= start
    requires |ps| < MaxPostsToCheck
    requires forall i :: 0 <= i < |ps| ==> InWindow(ps[i], start, end)
    ensures AccountPosts(username, Posts([Post(newer)] + AsStream(ps)), start, end) == ClassifyAll(username, ps)
  {
    var run := AsStream(ps);
    var stream := [Post(newer)] + run;
    forall j | 0 <= j < |stream| ensures !StopsAt(stream, start, j) {
      if j > 0 {
        assert stream[j] == run[j - 1];
      }
    }
    CutFromAt(stream, start, 0, |stream|);
    assert stream[..|stream|] == stream;
    CollectAfterSkipped(username, Post(newer), run, start, end);
    CollectAllInWindow(username, ps, start, end);
  }

  /** An exception before the scan stops discards everything the account had
      yielded so far, even when it comes in place of the 51st post. */
  lemma {:induction false} FailureDiscardsPartialResults(username: string, ps: seq<RawPost>, msg: string, rest: seq<StreamItem>, start: int, end: int)
    requires |ps| <= MaxPostsToCheck
    requires forall i :: 0 <= i < |ps| ==> ps[i].date >= start
    ensures AccountPosts(username, Posts(AsStream(ps) + [Raises(msg)] + rest), start, end) == []
  {
    var run := AsStream(ps);
    var stream := run + [Raises(msg)] + rest;
    forall j | 0 <= j < |ps| ensures !StopsAt(stream, start, j) {
      assert stream[j] == run[j];
    }
    assert stream[|ps|] == Raises(msg);
    CutFromAt(stream, start, 0, |ps|);
  }

  // ---------------------------------------------------------------------
  // All accounts

  /** What one account contributes: its name, stripped as
      `analyze_competitors` strips it, and the posts fetched for it. */
  datatype Outcome = Outcome(name: string, posts: seq<PostItem>)

  function OutcomeOf(a: AccountInput, start: int, end: int): Outcome
  {
    var name := Strip(a.name);
    Outcome(name, AccountPosts(name, a.feed, start, end))
  }

  function Outcomes(accounts: seq<AccountInput>, start: int, end: int): (r: seq<Outcome>)
    ensures |r| == |accounts|
    ensures forall i :: 0 <= i < |accounts| ==> r[i] == OutcomeOf(accounts[i], start, end)
  {
    seq(|accounts|, i requires 0 <= i < |accounts| => OutcomeOf(accounts[i], start, end))
  }

  /** `all_posts`: every account's posts, in account order. */
  function AllPosts(os: seq<Outcome>): seq<PostItem>
  {
    if os == [] then [] else AllPosts(os[..|os| - 1]) + os[|os| - 1].posts
  }

  /** `successful_accounts`: the accounts that yielded at least one post. */
  function Successful(os: seq<Outcome>): seq<string>
  {
    if os == [] then []
    else Successful(os[..|os| - 1]) + (if os[|os| - 1].posts != [] then [os[|os| - 1].name] else [])
  }

  function FailedEntry(name: string): string
  {
    name + " (no posts found)"
  }

  /** `failed_accounts`: the others, each tagged "(no posts found)". */
  function Failed(os: seq<Outcome>): seq<string>
  {
    if os == [] then []
    else Failed(os[..|os| - 1]) + (if os[|os| - 1].posts == [] then [FailedEntry(os[|os| - 1].name)] else [])
  }

  // ---------------------------------------------------------------------
  // Ranking

  /** The reels among the collected items, in order. */
  function Reels(all: seq<PostItem>): seq<PostItem>
  {
    if all == [] then []
    else Reels(all[..|all| - 1]) + (if all[|all| - 1].isReel then [all[|all| - 1]] else [])
  }

  /** The other collected items, in order. */
  function NonReels(all: seq<PostItem>): seq<PostItem>
  {
    if all == [] then []
    else NonReels(all[..|all| - 1]) + (if !all[|all| - 1].isReel then [all[|all| - 1]] else [])
  }

  /** Sort key for reels: `reel_performance or 0`. */
  function ReelKey(p: PostItem): int
  {
    if p.reelPerformance.Some? then p.reelPerformance.value else 0
  }

  /** Sort key for posts: `engagement`. */
  function EngagementKey(p: PostItem): int
  {
    p.engagement
  }

  function TopReels(all: seq<PostItem>): seq<PostItem>
  {
    Take(StableSort.Sort(Reels(all), ReelKey), TopCount)
  }

  function TopPosts(all: seq<PostItem>): seq<PostItem>
  {
    Take(StableSort.Sort(NonReels(all), EngagementKey), TopCount)
  }

  /** `analyze_competitors`: fetches every account in order, keeps the posts
      of those that yielded any, records the others as failed, then ranks. */
  method AnalyzeCompetitors(accounts: seq<AccountInput>, start: int, end: int)
    returns (result: Analysis)
    ensures result.all == AllPosts(Outcomes(accounts, start, end))
    ensures result.successful == Successful(Outcomes(accounts, start, end))
    ensures result.failed == Failed(Outcomes(accounts, start, end))
    ensures result.reels == TopReels(result.all)
    ensures result.posts == TopPosts(result.all)
  {
    ghost var os := Outcomes(accounts, start, end);
    var allPosts: seq<PostItem> := [];
    var successful: seq<string> := [];
    var failed: seq<string> := [];
    var i := 0;
    while i < |accounts|
      invariant 0 <= i <= |accounts|
      invariant allPosts == AllPosts(os[..i])
      invariant successful == Successful(os[..i])
      invariant failed == Failed(os[..i])
    {
      var account := Strip(accounts[i].name);
      var posts := FetchPosts(account, accounts[i].feed, start, end);
      assert os[i] == Outcome(account, posts);
      assert os[..i + 1][..i] == os[..i];
      if posts != [] {
        allPosts := allPosts + posts;
        successful := successful + [account];
      } else {
        failed := failed + [account + " (no posts found)"];
      }
      i := i + 1;
    }
    assert os[..|accounts|] == os;
    var reels := StableSort.Sort(Reels(allPosts), ReelKey);
    var posts := StableSort.Sort(NonReels(allPosts), EngagementKey);
    result := Analysis(Take(reels, TopCount), Take(posts, TopCount), allPosts, successful, failed);
  }

  // ---------------------------------------------------------------------
  // Properties of the aggregation and the ranking

  /** Every account ends up in exactly one of the two outcome lists. */
  lemma {:induction false} OutcomeCounts(os: seq<Outcome>)
    ensures |Successful(os)| + |Failed(os)| == |os|
  {
    if os != [] {
      OutcomeCounts(os[..|os| - 1]);
    }
  }

  /** An account is listed as failed exactly when it yielded no post, and as
      successful exactly when it yielded some. */
  lemma {:induction false} OutcomeMembership(os: seq<Outcome>)
    ensures forall f :: f in Failed(os) <==> exists o :: o in os && o.posts == [] && f == FailedEntry(o.name)
    ensures forall n :: n in Successful(os) <==> exists o :: o in os && o.posts != [] && n == o.name
  {
    if os != [] {
      var init, last := os[..|os| - 1], os[|os| - 1];
      OutcomeMembership(init);
      assert os == init + [last];
      forall f ensures f in Failed(os) <==> exists o :: o in os && o.posts == [] && f == FailedEntry(o.name) {
        if exists o :: o in os && o.posts == [] && f == FailedEntry(o.name) {
          var o :| o in os && o.posts == [] && f == FailedEntry(o.name);
          if o != last {
            assert o in init;
          }
        }
      }
      forall n ensures n in Successful(os) <==> exists o :: o in os && o.posts != [] && n == o.name {
        if exists o :: o in os && o.posts != [] && n == o.name {
          var o :| o in os && o.posts != [] && n == o.name;
          if o != last {
            assert o in init;
          }
        }
      }
    }
  }

  /** Each outcome's posts carry its account's name, lie in the window and
      are well classified. */
  predicate Attributed(os: seq<Outcome>, start: int, end: int)
  {
    forall o, p :: o in os && p in o.posts ==> p.username == o.name && start <= p.date <= end && WellClassified(p)
  }

  lemma {:induction false} OutcomesAttributed(accounts: seq<AccountInput>, start: int, end: int)
    ensures Attributed(Outcomes(accounts, start, end), start, end)
  {
    var os := Outcomes(accounts, start, end);
    forall o | o in os
      ensures forall p :: p in o.posts ==> p.username == o.name && start <= p.date <= end && WellClassified(p)
    {
      var i :| 0 <= i < |os| && os[i] == o;
      OutcomeOfAttributed(accounts[i], start, end);
    }
  }

  lemma {:induction false} OutcomeOfAttributed(a: AccountInput, start: int, end: int)
    ensures var o := OutcomeOf(a, start, end);
      forall p :: p in o.posts ==> p.username == o.name && start <= p.date <= end && WellClassified(p)
  {
    ScanBounds(Strip(a.name), a.feed, start, end);
  }

  /** The names in `all_posts` are exactly the successful accounts, and every
      collected post lies in the window and is well classified. */
  lemma {:induction false} PostsBelongToSuccessful(os: seq<Outcome>, start: int, end: int)
    requires Attributed(os, start, end)
    ensures forall p :: p in AllPosts(os) ==> p.username in Successful(os) && start <= p.date <= end && WellClassified(p)
    ensures forall n :: n in Successful(os) ==> exists p :: p in AllPosts(os) && p.username == n
  {
    if os != [] {
      var init, last := os[..|os| - 1], os[|os| - 1];
      assert os == init + [last];
      assert Attributed(init, start, end);
      PostsBelongToSuccessful(init, start, end);
      var all := AllPosts(os);
      assert all == AllPosts(init) + last.posts;
      forall n | n in Successful(os) ensures exists p :: p in all && p.username == n {
        if n in Successful(init) {
          var p :| p in AllPosts(init) && p.username == n;
          assert p in all;
        } else {
          assert last.posts[0] in all;
        }
      }
    }
  }

  /** Each collected item lands in exactly one of the two candidate lists,
      chosen by its reel flag. */
  lemma {:induction false} PartitionByReel(all: seq<PostItem>)
    ensures multiset(Reels(all)) + multiset(NonReels(all)) == multiset(all)
    ensures |Reels(all)| + |NonReels(all)| == |all|
    ensures forall p :: p in Reels(all) ==> p.isReel && p in all
    ensures forall p :: p in NonReels(all) ==> !p.isReel && p in all
  {
    PartitionMultiset(all);
    assert |multiset(Reels(all)) + multiset(NonReels(all))| == |multiset(all)|;
    forall p | p in Reels(all) ensures p.isReel && p in all {
      ReelsAreReels(all, p);
    }
    forall p | p in NonReels(all) ensures !p.isReel && p in all {
      NonReelsAreNot(all, p);
    }
  }

  lemma {:induction false} ReelsAreReels(all: seq<PostItem>, p: PostItem)
    requires p in Reels(all)
    ensures p.isReel && p in all
  {
    var init := all[..|all| - 1];
    if p in Reels(init) {
      ReelsAreReels(init, p);
      assert p in init;
    }
  }

  lemma {:induction false} NonReelsAreNot(all: seq<PostItem>, p: PostItem)
    requires p in NonReels(all)
    ensures !p.isReel && p in all
  {
    var init := all[..|all| - 1];
    if p in NonReels(init) {
      NonReelsAreNot(init, p);
      assert p in init;
    }
  }

  lemma {:induction false} PartitionMultiset(all: seq<PostItem>)
    ensures multiset(Reels(all)) + multiset(NonReels(all)) == multiset(all)
  {
    if all != [] {
      var init, x := all[..|all| - 1], all[|all| - 1];
      PartitionMultiset(init);
      assert all == init + [x];
      assert multiset(all) == multiset(init) + multiset{x};
      if x.isReel {
        assert Reels(all) == Reels(init) + [x] && NonReels(all) == NonReels(init);
        assert multiset(Reels(all)) == multiset(Reels(init)) + multiset{x};
      } else {
        assert NonReels(all) == NonReels(init) + [x] && Reels(all) == Reels(init);
        assert multiset(NonReels(all)) == multiset(NonReels(init)) + multiset{x};
      }
    }
  }

  /** The ranked lists: at most 10 entries, non-increasing by their key, drawn
      from the right partition, holding the largest keys of that partition,
      and with ties left in discovery order. */
  lemma {:induction false} RankingSpec(all: seq<PostItem>)
    ensures |TopReels(all)| == Min(TopCount, |Reels(all)|) && |TopPosts(all)| == Min(TopCount, |NonReels(all)|)
    ensures StableSort.SortedDesc(TopReels(all), ReelKey)
    ensures StableSort.SortedDesc(TopPosts(all), EngagementKey)
    ensures forall p :: p in TopReels(all) ==> p.isReel && p in all
    ensures forall p :: p in TopPosts(all) ==> !p.isReel && p in all
    ensures forall p, q :: p in TopReels(all) && q in Reels(all) && q !in TopReels(all) ==> ReelKey(p) >= ReelKey(q)
    ensures forall p, q :: p in TopPosts(all) && q in NonReels(all) && q !in TopPosts(all) ==> EngagementKey(p) >= EngagementKey(q)
    ensures forall k :: StableSort.WithKey(StableSort.Sort(Reels(all), ReelKey), ReelKey, k)
                     == StableSort.WithKey(Reels(all), ReelKey, k)
    ensures forall k :: StableSort.WithKey(StableSort.Sort(NonReels(all), EngagementKey), EngagementKey, k)
                     == StableSort.WithKey(NonReels(all), EngagementKey, k)
    ensures forall k :: StableSort.WithKey(TopReels(all), ReelKey, k) <= StableSort.WithKey(Reels(all), ReelKey, k)
    ensures forall k :: StableSort.WithKey(TopPosts(all), EngagementKey, k) <= StableSort.WithKey(NonReels(all), EngagementKey, k)
  {
    PartitionByReel(all);
    StableSort.PrefixStable(Reels(all), ReelKey, |TopReels(all)|);
    StableSort.PrefixStable(NonReels(all), EngagementKey, |TopPosts(all)|);
    TopOf(Reels(all), ReelKey);
    TopOf(NonReels(all), EngagementKey);
    forall p | p in TopReels(all) ensures p.isReel && p in all {
      assert p in multiset(StableSort.Sort(Reels(all), ReelKey));
    }
    forall p | p in TopPosts(all) ensures !p.isReel && p in all {
      assert p in multiset(StableSort.Sort(NonReels(all), EngagementKey));
    }
  }

  lemma {:induction false} TopOf(s: seq<PostItem>, key: PostItem -> int)
    ensures var top := Take(StableSort.Sort(s, key), TopCount);
      && |top| <= TopCount
      && StableSort.SortedDesc(top, key)
      && multiset(StableSort.Sort(s, key)) == multiset(s)
      && (forall p, q :: p in top && q in s && q !in top ==> key(p) >= key(q))
      && (forall k :: StableSort.WithKey(StableSort.Sort(s, key), key, k) == StableSort.WithKey(s, key, k))
  {
    var sorted := StableSort.Sort(s, key);
    StableSort.SortSpec(s, key);
    var top := Take(sorted, TopCount);
    StableSort.PrefixIsTop(sorted, key, |top|);
    forall j | 0 <= j < |top| ensures sorted[j] in top {
      assert top[j] == sorted[j];
    }
    forall p, q | p in top && q in s && q !in top ensures key(p) >= key(q) {
      assert q in multiset(sorted);
      var i :| 0 <= i < |top| && top[i] == p;
      var j :| 0 <= j < |sorted| && sorted[j] == q;
      assert sorted[i] == p;
    }
  }

  // ---------------------------------------------------------------------
  // load_accounts

  /** The account list after `load_accounts`: each entry stripped, blank
      entries dropped, order kept. */
  function LoadAccounts(raw: seq<string>): seq<string>
  {
    if raw == [] then []
    else
      var name := Strip(raw[|raw| - 1]);
      LoadAccounts(raw[..|raw| - 1]) + (if name != "" then [name] else [])
  }

  /** Every loaded name is non-blank and already stripped; none is invented. */
  lemma {:induction false} LoadAccountsClean(raw: seq<string>)
    ensures |LoadAccounts(raw)| <= |raw|
    ensures forall a :: a in LoadAccounts(raw) ==> a != "" && Strip(a) == a
  {
    if raw != [] {
      LoadAccountsClean(raw[..|raw| - 1]);
      StripIdempotent(raw[|raw| - 1]);
    }
  }

  /** A name is loaded exactly when some entry strips to it and that entry
      is not blank. */
  lemma {:induction false} LoadAccountsMembers(raw: seq<string>)
    ensures forall a :: a in LoadAccounts(raw) <==> exists r :: r in raw && Strip(r) != "" && Strip(r) == a
  {
    if raw != [] {
      var init, last := raw[..|raw| - 1], raw[|raw| - 1];
      LoadAccountsMembers(init);
      assert raw == init + [last];
      assert LoadAccounts(raw) == LoadAccounts(init) + (if Strip(last) != "" then [Strip(last)] else []);
      forall a ensures a in LoadAccounts(raw) <==> exists r :: r in raw && Strip(r) != "" && Strip(r) == a {
        if a in LoadAccounts(raw) {
          if a in LoadAccounts(init) {
            var r :| r in init && Strip(r) != "" && Strip(r) == a;
            assert r in raw;
          } else {
            assert last in raw;
          }
        }
        if exists r :: r in raw && Strip(r) != "" && Strip(r) == a {
          var r :| r in raw && Strip(r) != "" && Strip(r) == a;
          if r != last {
            assert r in init;
          }
        }
      }
    }
  }

  /** The filter goes entry by entry: one entry loads as its stripped name
      unless that is blank. */
  lemma {:induction false} LoadAccountsSingle(x: string)
    ensures LoadAccounts([x]) == if Strip(x) != "" then [Strip(x)] else []
  {
    assert [x][..0] == [];
  }

  /** Loading a concatenation loads each part in turn, so the names keep the
      order of the entries and repeated entries are loaded again. */
  lemma {:induction false} LoadAccountsAppend(a: seq<string>, b: seq<string>)
    ensures LoadAccounts(a + b) == LoadAccounts(a) + LoadAccounts(b)
    decreases |b|
  {
    if b == [] {
      assert a + b == a;
    } else {
      var n := |b| - 1;
      assert (a + b)[..|a + b| - 1] == a + b[..n];
      assert (a + b)[|a + b| - 1] == b[n];
      LoadAccountsAppend(a, b[..n]);
    }
  }

  /** Two entries naming the same account (" a" and "a", say) are both
      loaded, so that account is fetched twice. */
  lemma {:induction false} LoadAccountsKeepsRepeats(x: string, y: string)
    requires Strip(x) == Strip(y) != ""
    ensures LoadAccounts([x, y]) == [Strip(x), Strip(x)]
  {
    var raw := [x, y];
    assert raw[..|raw| - 1] == [x] && raw[|raw| - 1] == y;
    LoadAccountsSingle(x);
    assert LoadAccounts(raw) == LoadAccounts([x]) + [Strip(y)];
  }


}
