/**
  The transcript step of the podcast analyzer (youtube_podcast_analyzer.py,
  `transcribe_video` and `transcribe_with_youtube`): choosing an English
  subtitle track, choosing a subtitle format, and turning every failure into
  the sentinel strings the rest of the pipeline looks for.

  The metadata lookup and the download are inputs: `Extraction` is what the
  metadata call gave back and `Download` what fetching the chosen subtitle
  URL gave back.
 */
module Subtitles {
  import opened Common
  import Vtt

  /** One entry of a track's format list; `url` and `ext` are missing when the
      entry has no such key. */
  datatype SubFormat = SubFormat(ext: Option<string>, url: Option<string>)

  /** The two subtitle dictionaries of the video's metadata, by language;
      a missing dictionary is an empty map. */
  datatype VideoInfo = VideoInfo(
    subtitles: map<string, seq<SubFormat>>,
    automaticCaptions: map<string, seq<SubFormat>>)

  /** What the metadata call gave back: the metadata, nothing (the library
      ignores errors and returns `None`), or an exception with its message. */
  datatype Extraction = Extracted(info: VideoInfo) | NoInfo | ExtractRaised(message: string)

  /** What fetching the subtitle URL gave back: the file's text, an HTTP
      error with its code and reason, or any other exception. */
  datatype Download = Fetched(content: string) | HttpFailure(code: nat, reason: string) | FetchRaised(message: string)

  /** The chosen track: its language and its list of formats. */
  datatype Track = Track(lang: string, formats: seq<SubFormat>)

  const EnglishLangs: seq<string> := ["en", "en-US", "en-GB"]

  const SkipNoEnglish: string := "SKIP_NO_ENGLISH"
  const NotInstalledMessage: string := "yt-dlp not installed. Install it with: pip install yt-dlp"
  const RateLimitedMessage: string := "Error: Rate limited. Please try again later."
  const FailurePrefix: string := "Error extracting transcript with yt-dlp: "
  const NoUrlPrefix: string := "Could not get subtitle URL for video: "
  const SkippedMessage: string := "Transcription skipped."
  /** What reading a subtitle dictionary off a `None` result raises. */
  const NoInfoError: string := "'NoneType' object has no attribute 'get'"

  // ---------------------------------------------------------------------
  // Track selection

  /** The first of `langs` that is a key of `m`. */
  function FirstKey<V>(m: map<string, V>, langs: seq<string>): (r: Option<string>)
    ensures r.Some? ==> r.value in langs && r.value in m
    ensures r.None? <==> forall l :: l in langs ==> l !in m
  {
    if langs == [] then None
    else if langs[0] in m then Some(langs[0])
    else FirstKey(m, langs[1..])
  }

  /** Manual English subtitles first, in the order `en`, `en-US`, `en-GB`;
      then automatic English captions in the same order. */
  function ChooseTrack(info: VideoInfo): (t: Option<Track>)
    ensures t.Some? ==> t.value.lang in EnglishLangs
  {
    match FirstKey(info.subtitles, EnglishLangs)
    case Some(l) => Some(Track(l, info.subtitles[l]))
    case None =>
      match FirstKey(info.automaticCaptions, EnglishLangs)
      case Some(l) => Some(Track(l, info.automaticCaptions[l]))
      case None => None
  }

  // ---------------------------------------------------------------------
  // Format selection

  /** A format counts as WebVTT when its `ext` is "vtt" or its URL holds
      "vtt". */
  predicate IsVtt(f: SubFormat)
  {
    f.ext == Some("vtt") || (f.url.Some? && Contains(f.url.value, "vtt"))
  }

  /** The index of the first WebVTT format at or after `k`. */
  function FirstVttFrom(formats: seq<SubFormat>, k: nat): (r: Option<nat>)
    requires k <= |formats|
    ensures r.Some? ==> k <= r.value < |formats| && IsVtt(formats[r.value])
    ensures r.Some? ==> forall j :: k <= j < r.value ==> !IsVtt(formats[j])
    ensures r.None? ==> forall j :: k <= j < |formats| ==> !IsVtt(formats[j])
    decreases |formats| - k
  {
    if k == |formats| then None
    else if IsVtt(formats[k]) then Some(k)
    else FirstVttFrom(formats, k + 1)
  }

  /** A URL is usable when it is present and not empty. */
  predicate Usable(u: Option<string>)
  {
    u.Some? && u.value != ""
  }

  /** The subtitle URL: the URL of the first WebVTT format; when that is
      missing or empty, the URL of the first format; `None` when the result
      is still missing or empty. */
  function SubtitleUrl(formats: seq<SubFormat>): Option<string>
  {
    var vtt := match FirstVttFrom(formats, 0)
      case Some(i) => formats[i].url
      case None => None;
    var chosen := if !Usable(vtt) && formats != [] then formats[0].url else vtt;
    if Usable(chosen) then chosen else None
  }

  // ---------------------------------------------------------------------
  // Errors

  /** The handler's test for rate limiting. */
  predicate IsRateLimited(message: string)
  {
    || Contains(message, "429")
    || Contains(message, "Too Many Requests")
    || Contains(Lower(message), "rate limit")
    || Contains(message, "403")
    || Contains(message, "Forbidden")
  }

  /** What the handler returns for an exception with message `message`. */
  function FailureMessage(message: string): string
  {
    if IsRateLimited(message) then RateLimitedMessage else FailurePrefix + message
  }

  /** The message of the exception raised for a failed download. */
  function DownloadError(d: Download): string
    requires !d.Fetched?
  {
    match d
    case HttpFailure(code, reason) =>
      if code == 429 then "HTTP Error 429: Too Many Requests"
      else "HTTP Error " + NatToString(code) + ": " + reason
    case FetchRaised(message) => "Error downloading subtitle: " + message
  }

  // ---------------------------------------------------------------------
  // The transcript

  /** `transcribe_with_youtube`: one attempt, every path of which returns. */
  function TranscribeWithYoutube(installed: bool, videoUrl: string, extraction: Extraction, download: Download): string
  {
    if !installed then NotInstalledMessage
    else
      match extraction
      case ExtractRaised(message) => FailureMessage(message)
      case NoInfo => FailureMessage(NoInfoError)
      case Extracted(info) =>
        match ChooseTrack(info)
        case None => SkipNoEnglish
        case Some(track) =>
          if track.formats == [] then SkipNoEnglish
          else
            match SubtitleUrl(track.formats)
            case None => NoUrlPrefix + videoUrl
            case Some(_) =>
              match download
              case Fetched(content) => Vtt.Transcript(content)
              case _ => FailureMessage(DownloadError(download))
  }

  /** `transcribe_video`: the configured method, "youtube" when none is set;
      `whisper` is what the Whisper path returns. */
  function TranscribeVideo(configured: Option<string>, youtube: string, whisper: string): string
  {
    var m := if configured.Some? then configured.value else "youtube";
    if m == "youtube" then youtube
    else if m == "openai_whisper" then whisper
    else if m == "skip" then SkippedMessage
    else youtube
  }

  // ---------------------------------------------------------------------
  // Properties

  /** `FirstKey` is the earliest of `langs` present in `m`. */
  lemma {:induction false} FirstKeyEarliest<V>(m: map<string, V>, langs: seq<string>, i: nat)
    requires i < |langs| && langs[i] in m
    requires forall j :: 0 <= j < i ==> langs[j] !in m
    ensures FirstKey(m, langs) == Some(langs[i])
  {
    if i > 0 {
      assert langs[0] !in m;
      forall j | 0 <= j < i - 1 ensures langs[1..][j] !in m {
        assert langs[1..][j] == langs[j + 1];
      }
      FirstKeyEarliest(m, langs[1..], i - 1);
    }
  }

  /** Manual tracks win over automatic ones, each taken in the order `en`,
      `en-US`, `en-GB`; no other language is ever chosen; there is no track
      exactly when neither dictionary has an English key. */
  lemma {:induction false} TrackSelection(info: VideoInfo, i: nat)
    requires i < |EnglishLangs|
    ensures var t := ChooseTrack(info);
      && (t.None? <==> forall l :: l in EnglishLangs ==> l !in info.subtitles && l !in info.automaticCaptions)
      && (t.Some? ==> t.value.lang in EnglishLangs)
      && (EnglishLangs[i] in info.subtitles && (forall j :: 0 <= j < i ==> EnglishLangs[j] !in info.subtitles) ==>
            t == Some(Track(EnglishLangs[i], info.subtitles[EnglishLangs[i]])))
      && ((forall l :: l in EnglishLangs ==> l !in info.subtitles) &&
          EnglishLangs[i] in info.automaticCaptions &&
          (forall j :: 0 <= j < i ==> EnglishLangs[j] !in info.automaticCaptions) ==>
            t == Some(Track(EnglishLangs[i], info.automaticCaptions[EnglishLangs[i]])))
  {
    if EnglishLangs[i] in info.subtitles && (forall j :: 0 <= j < i ==> EnglishLangs[j] !in info.subtitles) {
      FirstKeyEarliest(info.subtitles, EnglishLangs, i);
    }
    if (forall l :: l in EnglishLangs ==> l !in info.subtitles) &&
       EnglishLangs[i] in info.automaticCaptions &&
       (forall j :: 0 <= j < i ==> EnglishLangs[j] !in info.automaticCaptions) {
      FirstKeyEarliest(info.automaticCaptions, EnglishLangs, i);
    }
  }

  /** The subtitle URL is never empty; it is the first WebVTT format's URL
      when that one is usable, otherwise the first format's URL. */
  lemma {:induction false} FormatChoice(formats: seq<SubFormat>, i: nat)
    ensures var u := SubtitleUrl(formats);
      && (u.Some? ==> u.value != "")
      && (formats == [] ==> u.None?)
      && (i < |formats| && IsVtt(formats[i]) && (forall j :: 0 <= j < i ==> !IsVtt(formats[j])) ==>
            if Usable(formats[i].url) then u == formats[i].url
            else u == (if Usable(formats[0].url) then formats[0].url else None))
      && ((forall j :: 0 <= j < |formats| ==> !IsVtt(formats[j])) && formats != [] ==>
            u == (if Usable(formats[0].url) then formats[0].url else None))
  {
    var r := FirstVttFrom(formats, 0);
    if i < |formats| && IsVtt(formats[i]) && (forall j :: 0 <= j < i ==> !IsVtt(formats[j])) {
      assert r.Some?;
      assert r.value == i;
    }
  }

  /** An error is reported as rate limiting exactly when its message passes
      the handler's test; any other error keeps its message after the
      handler's prefix. */
  lemma {:induction false} FailureClassification(message: string)
    ensures FailureMessage(message) == RateLimitedMessage <==> IsRateLimited(message)
    ensures !IsRateLimited(message) ==> FailureMessage(message) == FailurePrefix + message
  {
    if !IsRateLimited(message) {
      var r := FailurePrefix + message;
      assert r[5] == ' ' && RateLimitedMessage[5] == ':';
    }
  }

  /** HTTP 429 on the subtitle download is reported as rate limiting,
      whatever the reason text. */
  lemma {:induction false} Http429RateLimited(reason: string)
    ensures FailureMessage(DownloadError(HttpFailure(429, reason))) == RateLimitedMessage
  {
    Message429();
    ContainsInfix("HTTP Error ", "429", ": Too Many Requests");
  }

  lemma {:induction false} Message429()
    ensures "HTTP Error 429: Too Many Requests" == "HTTP Error " + "429" + ": Too Many Requests"
  {
  }

  /** So is HTTP 403. */
  lemma {:induction false} Http403RateLimited(reason: string)
    ensures FailureMessage(DownloadError(HttpFailure(403, reason))) == RateLimitedMessage
  {
    assert NatToString(403) == "403";
    ContainsInfix("HTTP Error ", "403", ": " + reason);
    assert "HTTP Error " + "403" + ": " + reason == "HTTP Error " + "403" + (": " + reason);
  }

  /** The skip marker comes out when the metadata has no English track or
      the chosen track has no formats; otherwise only when the downloaded
      subtitles themselves read as the marker. */
  lemma {:induction false} SkipOutcome(installed: bool, videoUrl: string, extraction: Extraction, download: Download)
    ensures var r := TranscribeWithYoutube(installed, videoUrl, extraction, download);
      && (installed && extraction.Extracted? &&
          (ChooseTrack(extraction.info).None? || ChooseTrack(extraction.info).value.formats == []) ==>
            r == SkipNoEnglish)
      && (r == SkipNoEnglish ==>
            (installed && extraction.Extracted? &&
             (ChooseTrack(extraction.info).None? || ChooseTrack(extraction.info).value.formats == []))
            || (download.Fetched? && Vtt.Transcript(download.content) == SkipNoEnglish))
  {
    assert SkipNoEnglish[0] == 'S';
    if !installed {
      assert |NotInstalledMessage| != |SkipNoEnglish|;
    } else if !extraction.Extracted? {
      FailureStartsWithE(if extraction.NoInfo? then NoInfoError else extraction.message);
    } else {
      var t := ChooseTrack(extraction.info);
      if t.Some? && t.value.formats != [] {
        if SubtitleUrl(t.value.formats).None? {
          assert (NoUrlPrefix + videoUrl)[0] == 'C';
        } else if !download.Fetched? {
          FailureStartsWithE(DownloadError(download));
        }
      }
    }
  }

  lemma {:induction false} FailureStartsWithE(message: string)
    ensures |FailureMessage(message)| > 0 && FailureMessage(message)[0] == 'E'
  {
    if !IsRateLimited(message) {
      assert (FailurePrefix + message)[0] == FailurePrefix[0];
    }
  }

  /** With a usable subtitle URL and a successful download, the transcript is
      the text of the WebVTT cues. */
  lemma {:induction false} DownloadedTranscript(videoUrl: string, info: VideoInfo, content: string)
    requires ChooseTrack(info).Some? && SubtitleUrl(ChooseTrack(info).value.formats).Some?
    ensures TranscribeWithYoutube(true, videoUrl, Extracted(info), Fetched(content)) == Vtt.Transcript(content)
  {
  }

  /** The default method and any unknown method go to YouTube; only
      "openai_whisper" and "skip" do not. */
  lemma {:induction false} TranscribeVideoDispatch(configured: Option<string>, youtube: string, whisper: string)
    ensures configured.None? ==> TranscribeVideo(configured, youtube, whisper) == youtube
    ensures configured == Some("openai_whisper") ==> TranscribeVideo(configured, youtube, whisper) == whisper
    ensures configured == Some("skip") ==> TranscribeVideo(configured, youtube, whisper) == SkippedMessage
    ensures configured.Some? && configured.value != "openai_whisper" && configured.value != "skip" ==>
      TranscribeVideo(configured, youtube, whisper) == youtube
  {
  }
}
