/**
  The per-post classification inside `fetch_posts_from_account`
  (instagram_competitor_analyzer.py): from one post yielded by the scraping
  library it derives the carousel, video and reel flags, the engagement, the
  view count, the reel performance metric, the canonical URL and the
  shortened caption.

  The library's post object is an explicit record. Every attribute that the
  analyzer reads with `getattr`/`hasattr`, or inside a `try`, is a `Field`:
  missing, present, or raising when read.
 */
module InstagramClassify {
  import opened Common

  /** One post as the scraping library yields it. `date` is `date_utc` in
      seconds. */
  datatype RawPost = RawPost(
    date: int,
    typename: string,
    shortcode: string,
    likes: int,
    comments: int,
    caption: Option<string>,
    mediacount: Field<int>,
    sidecarNodes: Field<nat>,   // length of `list(post.get_sidecar_nodes())`
    videoViewCount: Field<int>,
    viewCount: Field<int>,
    views: Field<int>,
    isVideo: Field<bool>,
    isReelAttr: Field<bool>,
    videoDuration: Field<int>,
    url: Field<string>)

  /** The `carousel_metrics` record; `hasNote` is whether the explanatory
      "note" entry is present (it is left out on the error path). */
  datatype CarouselMetrics = CarouselMetrics(slideCount: int, totalLikes: int, hasNote: bool)

  /** One entry of the analyzer's result lists (`post_data`). */
  datatype PostItem = PostItem(
    username: string,
    postUrl: string,
    shortcode: string,
    date: int,
    likes: int,
    comments: int,
    engagement: int,
    views: Option<int>,
    reelPerformance: Option<int>,
    caption: string,
    isVideo: bool,
    isReel: bool,
    isCarousel: bool,
    carouselMetrics: Option<CarouselMetrics>)

  const Sidecar: string := "GraphSidecar"
  const CaptionLimit: nat := 100

  // ---------------------------------------------------------------------
  // Carousels

  /** `len(list(post.get_sidecar_nodes())) if sidecar_nodes else 1`, and 1 when
      enumerating the nodes raises. */
  function SidecarSlides(p: RawPost): int
  {
    match p.sidecarNodes
    case Value(n) => if n == 0 then 1 else n
    case _ => 1
  }

  function CarouselMetricsOf(p: RawPost): (m: Option<CarouselMetrics>)
    ensures m.Some? <==> p.typename == Sidecar
    ensures m.Some? ==> m.value.totalLikes == p.likes
  {
    if p.typename != Sidecar then None
    else
      match p.mediacount
      case Fails => Some(CarouselMetrics(1, p.likes, false))
      case Missing => Some(CarouselMetrics(SidecarSlides(p), p.likes, true))
      case Value(n) => Some(CarouselMetrics(if n == 0 then SidecarSlides(p) else n, p.likes, true))
  }

  // ---------------------------------------------------------------------
  // Views

  /** The first of `video_view_count`, `view_count`, `views` that is not
      `None`; `None` when all are absent or a read raises. */
  function ViewsOf(p: RawPost): Option<int>
  {
    match p.videoViewCount
    case Fails => None
    case Value(v) => Some(v)
    case Missing =>
      match p.viewCount
      case Fails => None
      case Value(v) => Some(v)
      case Missing =>
        match p.views
        case Fails => None
        case Value(v) => Some(v)
        case Missing => None
  }

  // ---------------------------------------------------------------------
  // Reel detection

  predicate ReelUrl(u: string)
  {
    u != "" && Contains(Lower(u), "/reel/")
  }

  /** The `is_reel` flag a video post ends with: the typename checks, the view
      count, the `is_reel` attribute, the duration, the final fallback and the
      URL check, in the order the analyzer runs them. An attribute that raises
      while being read sends control to the handler, which marks a video as a
      reel. */
  function VideoReelFlag(p: RawPost, views: Option<int>): bool
  {
    var afterTypename :=
      if p.typename != "" then
        if Contains(Lower(p.typename), "reel") || p.typename == "GraphReel" then true
        else if p.typename == "GraphVideo" then true
        else true
      else false;
    var afterViews := if views.Some? && views.value > 0 && !afterTypename then true else afterTypename;
    match p.isReelAttr
    case Fails => true
    case _ =>
      var afterAttr := if p.isReelAttr == Value(true) then true else afterViews;
      match p.videoDuration
      case Fails => true
      case _ =>
        var afterDuration :=
          if p.videoDuration.Value? && 0 < p.videoDuration.value <= 90 && !afterAttr then true
          else afterAttr;
        var afterFallback := if !afterDuration then true else afterDuration;
        match p.url
        case Fails => true
        case Missing => afterFallback
        case Value(u) => if ReelUrl(u) then true else afterFallback
  }

  /** `(is_video, is_reel)`. If reading `is_video` raises, both stay false.
      A post that is not a video is a reel only through the URL check. */
  function DetectReel(p: RawPost, views: Option<int>): (bool, bool)
  {
    match p.isVideo
    case Fails => (false, false)
    case Missing => (false, p.url.Value? && ReelUrl(p.url.value))
    case Value(isVideo) =>
      if isVideo then (true, VideoReelFlag(p, views))
      else (false, p.url.Value? && ReelUrl(p.url.value))
  }

  // ---------------------------------------------------------------------
  // Derived fields

  function CaptionText(caption: Option<string>): string
  {
    if caption.Some? && caption.value != "" && |caption.value| > CaptionLimit then
      caption.value[..CaptionLimit] + "..."
    else if caption.Some? && caption.value != "" then caption.value
    else "No caption"
  }

  function ReelLink(shortcode: string): string
  {
    "https://www.instagram.com/reel/" + shortcode + "/"
  }

  function PostLink(shortcode: string): string
  {
    "https://www.instagram.com/p/" + shortcode + "/"
  }

  /** The record the analyzer builds for one in-window post. */
  function Classify(username: string, p: RawPost): PostItem
  {
    var views := ViewsOf(p);
    var (isVideo, isReel) := DetectReel(p, views);
    PostItem(
      username := username,
      postUrl := if isReel then ReelLink(p.shortcode) else PostLink(p.shortcode),
      shortcode := p.shortcode,
      date := p.date,
      likes := p.likes,
      comments := p.comments,
      engagement := p.likes + p.comments,
      views := views,
      reelPerformance := if isReel then Some(if views.Some? then views.value else p.likes) else None,
      caption := CaptionText(p.caption),
      isVideo := isVideo,
      isReel := isReel,
      isCarousel := p.typename == Sidecar,
      carouselMetrics := CarouselMetricsOf(p))
  }

  /** What every classified item satisfies, whatever the upstream record. */
  predicate WellClassified(r: PostItem)
  {
    && r.engagement == r.likes + r.comments
    && (r.isVideo ==> r.isReel)
    && (r.isReel <==> r.reelPerformance.Some?)
    && (r.isCarousel <==> r.carouselMetrics.Some?)
  }

  lemma {:induction false} ClassifyWellClassified(username: string, p: RawPost)
    ensures WellClassified(Classify(username, p))
  {
  }

  /** What the analyzer records for one post: the copied fields, engagement
      as likes plus comments, the view count by precedence, the carousel flag
      and its metrics, the reel rules and the canonical URL. */
  lemma {:induction false} ClassifySpec(username: string, p: RawPost)
    ensures var r := Classify(username, p);
      && (r.username == username && r.shortcode == p.shortcode && r.date == p.date)
      && (r.likes == p.likes && r.comments == p.comments)
      && (r.engagement == r.likes + r.comments)
      && (r.views == ViewsOf(p))
      && (r.isCarousel <==> p.typename == Sidecar)
      && (r.isCarousel <==> r.carouselMetrics.Some?)
      && (r.isVideo <==> p.isVideo == Value(true))
      && (r.isVideo ==> r.isReel)
      && (!r.isVideo ==> (r.isReel <==> p.isVideo != Fails && p.url.Value? && ReelUrl(p.url.value)))
      && (r.isReel <==> r.reelPerformance.Some?)
      && (r.isReel ==> r.reelPerformance.value == (if r.views.Some? then r.views.value else r.likes))
      && (r.postUrl == (if r.isReel then ReelLink(p.shortcode) else PostLink(p.shortcode)))
  {
  }

  // ---------------------------------------------------------------------
  // Properties of the individual rules

  /** The view count is the first present attribute in the order
      `video_view_count`, `view_count`, `views`; a raising read gives `None`. */
  lemma {:induction false} ViewsPrecedence(p: RawPost)
    ensures p.videoViewCount.Value? ==> ViewsOf(p) == Some(p.videoViewCount.value)
    ensures p.videoViewCount.Missing? && p.viewCount.Value? ==> ViewsOf(p) == Some(p.viewCount.value)
    ensures p.videoViewCount.Missing? && p.viewCount.Missing? && p.views.Value? ==> ViewsOf(p) == Some(p.views.value)
    ensures ViewsOf(p).None? <==>
      (p.videoViewCount.Fails? || (p.videoViewCount.Missing? && (p.viewCount.Fails? ||
        (p.viewCount.Missing? && !p.views.Value?))))
  {
  }

  /** Slide count: `mediacount` when non-zero, otherwise the number of sidecar
      nodes (1 when there are none or enumerating them raises); 1 when reading
      `mediacount` raises. With non-negative upstream counts a carousel always
      has at least one slide. */
  lemma {:induction false} CarouselSlides(p: RawPost)
    requires p.typename == Sidecar
    ensures var m := CarouselMetricsOf(p).value;
      && (p.mediacount.Value? && p.mediacount.value != 0 ==> m.slideCount == p.mediacount.value)
      && (p.mediacount == Value(0) || p.mediacount.Missing? ==>
            m.slideCount == (if p.sidecarNodes.Value? && p.sidecarNodes.value > 0 then p.sidecarNodes.value else 1))
      && (p.mediacount.Fails? ==> m.slideCount == 1 && !m.hasNote)
      && ((p.mediacount.Value? ==> p.mediacount.value >= 0) ==> m.slideCount >= 1)
  {
  }

  /** A caption longer than 100 characters is cut to its first 100 followed by
      "..."; a shorter non-empty caption is kept; a missing or empty one reads
      "No caption". */
  lemma {:induction false} CaptionRule(caption: Option<string>)
    ensures |CaptionText(caption)| <= CaptionLimit + 3
    ensures caption.Some? && |caption.value| > CaptionLimit ==>
      CaptionText(caption) == caption.value[..CaptionLimit] + "..."
    ensures caption.Some? && 0 < |caption.value| <= CaptionLimit ==> CaptionText(caption) == caption.value
    ensures caption.None? || caption.value == "" ==> CaptionText(caption) == "No caption"
  {
  }

  /** Every video post is a reel: each path through the video branch, the
      fallback and the exception handler sets the flag. */
  lemma {:induction false} VideoIsReel(p: RawPost, views: Option<int>)
    ensures VideoReelFlag(p, views)
  {
  }

  /** A post that is not a video can still be a reel (its URL has "/reel/"),
      and a carousel can be a reel: neither `is_reel ==> is_video` nor
      "carousel excludes reel" holds. */
  lemma {:induction false} ReelWithoutVideo()
    ensures var r := Classify("acc", ExampleSidecarReel());
      r.isReel && !r.isVideo && r.isCarousel
  {
    var u := ExampleReelPath;
    assert Lower(u) == u by {
      forall i | 0 <= i < |u| ensures Lower(u)[i] == u[i] {
        assert !IsUpperAscii(u[i]);
      }
    }
    assert OccursAt(Lower(u), "/reel/", 0);
    assert ReelUrl(u);
  }

  const ExampleReelPath: string := "/reel/"

  function ExampleSidecarReel(): RawPost
  {
    RawPost(0, Sidecar, "abc", 5, 1, None, Value(3), Missing, Missing, Missing, Missing,
            Value(false), Missing, Missing, Value(ExampleReelPath))
  }
}
