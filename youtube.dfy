/**
 * The YouTube module: one pass over the configured channels, downloading
 * every listed video the store does not yet hold with a fixed argument
 * vector.
 */
module YouTube {
  import opened Common
  import opened Process
  import opened Listing
  import Db
  import Poll
  import YtDlp

  /** The module's configuration. */
  datatype YouTubeConfig = YouTubeConfig(
    interval: nat,
    channels: map<string, string>,
    thumbnail_format: Option<string>,
    output_format: Option<string>)
  {
    /** The two options the download command reads, copied unchanged. */
    function Options(): (opt: DownloadOptions)
      ensures opt.thumbnail_format == thumbnail_format && opt.output_format == output_format
    {
      DownloadOptions(thumbnail_format, output_format)
    }
  }

  /** What `download_video` reads from the configuration. */
  datatype DownloadOptions = DownloadOptions(thumbnail_format: Option<string>, output_format: Option<string>)

  /** How many entries a channel listing requests. */
  const PlaylistEnd := "10"

  /** The argument vector of a channel listing. */
  function ListArgs(channel: string): (args: seq<string>)
    ensures args == YtDlp.ListArgs(channel, YtDlp.DefaultLimit)
  {
    YtDlp.DefaultListArgs(channel);
    var args := ["--no-warnings", "--flat-playlist", "--skip-download", "--print", "title,webpage_url",
                 "--playlist-end", PlaylistEnd, channel];
    assert args[5..7] == YtDlp.ListArgs(channel, YtDlp.DefaultLimit)[5..7];
    args
  }

  /** What listing a channel yields: the lister's stderr on failure, else every parsed entry. */
  function LatestChannelVideos(tool: Tool, channel: string): (r: Result<seq<Entry>, string>)
    ensures r.Err? <==> !tool.list(ListArgs(channel)).success
    ensures r.Ok? ==> 2 * |r.value| <= |tool.list(ListArgs(channel)).stdout|
  {
    var run := tool.list(ListArgs(channel));
    if !run.success then Err(run.stderr) else Ok(Pairs(run.stdout))
  }

  /**
   * Lists a channel: runs the lister, fails with its stderr on a failing
   * exit, otherwise pairs its stdout lines, keeping them all.
   */
  method GetLatestChannelVideos(tool: Tool, channel: string) returns (r: Result<seq<Entry>, string>)
    ensures r == LatestChannelVideos(tool, channel)
    ensures var run := tool.list(ListArgs(channel));
            && (r.Err? <==> !run.success)
            && (r.Err? ==> r.error == run.stderr)
            && (r.Ok? ==> r.value == Pairs(run.stdout))
  {
    var output := tool.list(ListArgs(channel));
    if !output.success {
      return Err(output.stderr);
    }
    var videos := ParseLines(output.stdout);
    return Ok(videos);
  }

  /**
   * The channel listing asks for the same as a yt-dlp module with no limit
   * set; the yt-dlp module then also truncates to ten entries, which this
   * module does not, so its entries are a prefix of these, equal when the
   * lister prints at most ten pairs.
   */
  lemma ListingMatchesYtDlpDefault(tool: Tool, channel: string)
    ensures ListArgs(channel) == YtDlp.ListArgs(channel, YtDlp.DefaultLimit)
    ensures var mine, generic := LatestChannelVideos(tool, channel), YtDlp.LatestEntries(tool, channel, YtDlp.DefaultLimit);
            && (mine.Ok? <==> generic.Ok?)
            && (mine.Err? ==> mine == generic)
            && (mine.Ok? ==> generic.value <= mine.value)
            && (mine.Ok? && |mine.value| <= 10 ==> generic.value == mine.value)
  {
    YtDlp.DefaultListArgs(channel);
    assert ListArgs(channel)[5..7] == YtDlp.ListArgs(channel, YtDlp.DefaultLimit)[5..7];
  }

  /** The fixed download argument vector for one video. */
  function VideoArgs(opt: DownloadOptions, videoUrl: string): (args: seq<string>)
    ensures |args| == 11 && args[..2] == YtDlp.CommandPrefix && args[10] == videoUrl
  {
    ["--downloader", "aria2c", "--write-thumbnail",
     "-o", opt.output_format.GetOr("%(title)s.%(ext)s"),
     "--embed-thumbnail", "--embed-chapters", "--embed-info-json",
     "--convert-thumbnails", opt.thumbnail_format.GetOr("jpg"), videoUrl]
  }

  /** The switches the fixed download command always passes. */
  const FixedSwitches: set<YtDlp.Toggle> :=
    {YtDlp.WriteThumbnail, YtDlp.EmbedThumbnail, YtDlp.EmbedChapters, YtDlp.EmbedInfoJson}

  /**
   * The fixed command: it opens with the downloader choice, passes the
   * output template (default "%(title)s.%(ext)s") and the thumbnail format
   * (default "jpg") each after its flag, every fixed switch, and ends with
   * the URL.
   */
  lemma VideoArgsShape(opt: DownloadOptions, videoUrl: string)
    ensures var args := VideoArgs(opt, videoUrl);
            && |args| == 11
            && args[..2] == ["--downloader", "aria2c"]
            && args[3..5] == ["-o", opt.output_format.GetOr("%(title)s.%(ext)s")]
            && args[8..10] == ["--convert-thumbnails", opt.thumbnail_format.GetOr("jpg")]
            && args[|args| - 1] == videoUrl
            && forall t :: t in FixedSwitches ==> YtDlp.ToggleName(t) in args
  {
  }

  /** The yt-dlp configuration with every option unset except metadata embedding, switched off. */
  function AsYtDlpConfig(opt: DownloadOptions): YtDlp.YtDlpConfig {
    YtDlp.YtDlpConfig(None, 0, None, map[], opt.thumbnail_format, opt.output_format,
                      None, None, None, None, None, None, None, None, None, Some(false), None, None, None, None, None)
  }

  /** The switch half of `FixedSwitchesAsYtDlp`, one toggle at a time. */
  lemma FixedSwitchesEnabled(opt: DownloadOptions)
    ensures forall t :: YtDlp.Enabled(AsYtDlpConfig(opt), t) <==> t in FixedSwitches
  {
    forall t ensures YtDlp.Enabled(AsYtDlpConfig(opt), t) <==> t in FixedSwitches {
      match t
      case WriteThumbnail =>
      case WriteDescription =>
      case WriteInfoJson =>
      case WriteComments =>
      case WriteSubs =>
      case ExtractAudio =>
      case EmbedChapters =>
      case EmbedInfoJson =>
      case EmbedMetadata =>
      case EmbedSubs =>
      case EmbedThumbnail =>
      case SplitChapters =>
    }
  }

  /**
   * The fixed switches are exactly the ones a yt-dlp module enables when
   * every option is unset except metadata embedding, switched off; that
   * module's command then also ends with the same thumbnail conversion,
   * template and URL.
   */
  lemma FixedSwitchesAsYtDlp(opt: DownloadOptions, videoUrl: string)
    ensures forall t :: YtDlp.Enabled(AsYtDlpConfig(opt), t) <==> t in FixedSwitches
    ensures var generic := YtDlp.DownloadArgs(AsYtDlpConfig(opt), videoUrl);
            generic[|generic| - 5..] == VideoArgs(opt, videoUrl)[8..10] + VideoArgs(opt, videoUrl)[3..5] + [videoUrl]
  {
    FixedSwitchesEnabled(opt);
    YtDlp.DownloadArgsFrame(AsYtDlpConfig(opt), videoUrl);
    var fixed := VideoArgs(opt, videoUrl);
    assert fixed[8..10] + fixed[3..5] + [videoUrl]
        == ["--convert-thumbnails", opt.thumbnail_format.GetOr("jpg"),
            "-o", opt.output_format.GetOr("%(title)s.%(ext)s"), videoUrl];
  }

  /** A running YouTube module. */
  class YouTubeModule {
    const config: YouTubeConfig
    const db: Db.Database
    const rootDir: Path

    constructor (config: YouTubeConfig, db: Db.Database, rootDir: Path)
      ensures this.config == config && this.db == db && this.rootDir == rootDir
    {
      this.config := config;
      this.db := db;
      this.rootDir := rootDir;
    }

    /** The module's fixed name. */
    function Name(): (name: string)
      ensures name == "YouTube"
    {
      "YouTube"
    }

    /** The listing the pass uses for a channel: an error exactly when the lister fails. */
    static function Lister(tool: Tool): (list: string -> Result<seq<Entry>, string>)
      ensures forall channel :: list(channel).Err? <==> !tool.list(ListArgs(channel)).success
    {
      (channel: string) => LatestChannelVideos(tool, channel)
    }

    /** Whether downloading `url` into `dir` succeeds: the fixed command ran and exited successfully. */
    function Succeeds(tool: Tool): (ok: (Path, string) -> bool)
      ensures forall dir, url :: ok(dir, url) <==> var run := tool.fetch(dir, VideoArgs(config.Options(), url)); run.Exited? && run.success
    {
      var opt := config.Options();
      (dir: Path, url: string) => DownloadOutcome(tool.fetch(dir, VideoArgs(opt, url))).Ok?
    }

    /** What one pass over the channels does, from the store's URL column `stored`. */
    function Pass(tool: Tool, order: seq<string>, stored: seq<string>): (r: Poll.Progress)
      requires Poll.Enumerates(order, config.channels)
      ensures stored <= r.stored
    {
      Poll.ItemsPass(Poll.Progress(stored, []), rootDir, Poll.Items(config.channels, order), Lister(tool), Succeeds(tool))
    }

    /**
     * What a pass downloads: never a URL the store held when it began, never
     * again a URL it downloaded successfully earlier in the pass, and
     * only into `rootDir/channel` for a configured channel whose listing
     * holds the URL; the store only grows.
     */
    lemma PassAttempts(tool: Tool, order: seq<string>, stored: seq<string>)
      requires Poll.Enumerates(order, config.channels)
      ensures var r := Pass(tool, order, stored);
              && stored <= r.stored
              && (forall j, k :: 0 <= j < k < |r.attempts| && r.attempts[j].url == r.attempts[k].url ==>
                    !Succeeds(tool)(r.attempts[j].dir, r.attempts[j].url))
              && forall k :: 0 <= k < |r.attempts| ==>
                   && r.attempts[k].url !in stored
                   && exists channel :: channel in config.channels && r.attempts[k].dir == Join(rootDir, channel)
                        && var listing := LatestChannelVideos(tool, config.channels[channel]);
                           listing.Ok? && exists e :: e in listing.value && e.url == r.attempts[k].url
    {
      var p := Poll.Progress(stored, []);
      var channels := Poll.Items(config.channels, order);
      var r := Pass(tool, order, stored);
      Poll.PassIsSound(p, rootDir, channels, Lister(tool), Succeeds(tool));
      Poll.AttemptsComeFromListings(p, rootDir, channels, Lister(tool), Succeeds(tool));
      Poll.NoDownloadAfterSuccess(p, rootDir, channels, Lister(tool), Succeeds(tool));
      forall k | 0 <= k < |r.attempts|
        ensures exists channel :: channel in config.channels && r.attempts[k].dir == Join(rootDir, channel)
                  && var listing := LatestChannelVideos(tool, config.channels[channel]);
                     listing.Ok? && exists e :: e in listing.value && e.url == r.attempts[k].url
      {
        var i :| 0 <= i < |channels| && r.attempts[k].dir == Join(rootDir, channels[i].name)
                 && Poll.ListedBy(channels[i], Lister(tool), r.attempts[k].url);
        var channel := order[i];
        assert channels[i] == Poll.Item(channel, config.channels[channel]);
      }
    }

    /**
     * Downloads one video into `cwd` with the fixed command, reporting a
     * spawn failure or a failing exit as an error.
     */
    static method DownloadVideo(tool: Tool, videoUrl: string, cwd: Path, opt: DownloadOptions)
      returns (r: Result<(), string>)
      ensures r == DownloadOutcome(tool.fetch(cwd, VideoArgs(opt, videoUrl)))
    {
      var output := tool.fetch(cwd, ["--downloader", "aria2c", "--write-thumbnail",
                                     "-o", opt.output_format.GetOr("%(title)s.%(ext)s"),
                                     "--embed-thumbnail", "--embed-chapters", "--embed-info-json",
                                     "--convert-thumbnails", opt.thumbnail_format.GetOr("jpg"), videoUrl]);
      r := DownloadOutcome(output);
    }

    /** The inner loop: the entries of one channel, in listing order, into `dir`. */
    method VisitVideos(tool: Tool, dir: Path, latestVideos: seq<Entry>, opt: DownloadOptions,
                       attempts: seq<Poll.Attempt>)
      returns (attemptsAfter: seq<Poll.Attempt>)
      requires opt == config.Options()
      modifies db.backend
      ensures old(db.backend.rows) <= db.backend.rows
      ensures Poll.Progress(Db.Urls(db.backend.rows), attemptsAfter)
              == Poll.EntriesPass(Poll.Progress(Db.Urls(old(db.backend.rows)), attempts), dir, latestVideos, Succeeds(tool))
    {
      ghost var before := Poll.Progress(Db.Urls(db.backend.rows), attempts);
      attemptsAfter := attempts;
      var k := 0;
      while k < |latestVideos|
        invariant 0 <= k <= |latestVideos|
        invariant old(db.backend.rows) <= db.backend.rows
        invariant Poll.Progress(Db.Urls(db.backend.rows), attemptsAfter)
                  == Poll.EntriesPass(before, dir, latestVideos[..k], Succeeds(tool))
      {
        var video := latestVideos[k];
        assert latestVideos[..k + 1][..k] == latestVideos[..k];
        var downloaded := db.CheckForUrl(video.url);
        Db.StoredIffListed(db.backend.rows, video.url);
        if !downloaded {
          var result := DownloadVideo(tool, video.url, dir, opt);
          attemptsAfter := attemptsAfter + [Poll.Attempt(dir, video.url)];
          if result.Ok? {
            ghost var rows := db.backend.rows;
            db.InsertUrl(video.url);
            Db.UrlsOfRows(rows);
            Db.UrlsOfRows(db.backend.rows);
            assert Db.Urls(db.backend.rows) == Db.Urls(rows) + [video.url];
          }
        }
        k := k + 1;
      }
      assert latestVideos[..k] == latestVideos;
    }

    /**
     * One channel of the pass: lists it and, unless that fails, visits its
     * videos in `rootDir/channel`. Appends the downloads it started.
     */
    method VisitChannel(tool: Tool, channel: string, channelUrl: string, opt: DownloadOptions,
                        attempts: seq<Poll.Attempt>)
      returns (attemptsAfter: seq<Poll.Attempt>)
      requires opt == config.Options()
      modifies db.backend
      ensures old(db.backend.rows) <= db.backend.rows
      ensures Poll.Progress(Db.Urls(db.backend.rows), attemptsAfter)
              == Poll.ItemPass(Poll.Progress(Db.Urls(old(db.backend.rows)), attempts), rootDir,
                               Poll.Item(channel, channelUrl), Lister(tool), Succeeds(tool))
    {
      var listing := GetLatestChannelVideos(tool, channelUrl);
      assert Lister(tool)(channelUrl) == listing;
      attemptsAfter := attempts;
      if listing.Ok? {
        attemptsAfter := VisitVideos(tool, Join(rootDir, channel), listing.value, opt, attempts);
      }
    }

    /**
     * One pass over the channels in iteration order: a channel whose listing
     * fails is skipped, the videos of any other are visited in
     * `rootDir/channel`. Returns the downloads it started.
     */
    method Run(tool: Tool, order: seq<string>) returns (attempts: seq<Poll.Attempt>)
      requires Poll.Enumerates(order, config.channels)
      modifies db.backend
      ensures old(db.backend.rows) <= db.backend.rows
      ensures Poll.Progress(Db.Urls(db.backend.rows), attempts) == Pass(tool, order, Db.Urls(old(db.backend.rows)))
    {
      var downloadOptions := config.Options();
      attempts := [];
      ghost var start := Poll.Progress(Db.Urls(db.backend.rows), []);
      ghost var channels := Poll.Items(config.channels, order);
      var i := 0;
      while i < |order|
        invariant 0 <= i <= |order|
        invariant old(db.backend.rows) <= db.backend.rows
        invariant Poll.Progress(Db.Urls(db.backend.rows), attempts)
                  == Poll.ItemsPass(start, rootDir, channels[..i], Lister(tool), Succeeds(tool))
      {
        var channel := order[i];
        var channelUrl := config.channels[channel];
        assert channels[i] == Poll.Item(channel, channelUrl);
        Poll.ItemsPassStep(start, rootDir, channels, i, Lister(tool), Succeeds(tool));
        attempts := VisitChannel(tool, channel, channelUrl, downloadOptions, attempts);
        i := i + 1;
      }
      assert channels[..i] == channels;
    }
  }
}
