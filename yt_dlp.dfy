/**
 * The generic yt-dlp module: polls a map of items forever, downloading every
 * listed URL the store does not yet hold, with an argument vector built from
 * its option set.
 */
module YtDlp {
  import opened Common
  import opened Process
  import opened Listing
  import Db
  import Poll

  /** The module's configuration; `u64` counts are unbounded naturals here. */
  datatype YtDlpConfig = YtDlpConfig(
    name: Option<string>,
    interval: nat,
    limit: Option<nat>,
    items: map<string, string>,
    thumbnail_format: Option<string>,
    output_format: Option<string>,
    write_description: Option<bool>,
    write_info_json: Option<bool>,
    write_comments: Option<bool>,
    write_thumbnail: Option<bool>,
    write_subs: Option<bool>,
    audio_only: Option<bool>,
    audio_format: Option<string>,
    embed_subs: Option<bool>,
    embed_thumbnail: Option<bool>,
    embed_metadata: Option<bool>,
    embed_chapters: Option<bool>,
    embed_info_json: Option<bool>,
    split_chapters: Option<bool>,
    format: Option<string>,
    cookie: Option<string>)

  /** How many entries an item lists when the configuration sets no limit. */
  const DefaultLimit: nat := 10

  const DefaultThumbnailFormat := "jpg"
  const DefaultOutputFormat := "%(title)s.%(ext)s"

  /** The argument vector of a listing run: titles and page URLs of the first `limit` entries of `locator`. */
  function ListArgs(locator: string, limit: nat): (args: seq<string>)
    ensures |args| == 8 && args[5] == "--playlist-end" && args[7] == locator
    ensures forall i :: 0 <= i < |args[6]| ==> IsDigit(args[6][i])
    ensures ParseDecimal(args[6]) == limit
  {
    DecimalRoundTrip(limit);
    ["--no-warnings", "--flat-playlist", "--skip-download", "--print", "title,webpage_url",
     "--playlist-end", Decimal(limit), locator]
  }

  /** What listing an item yields: the lister's stderr on failure, else at most `limit` parsed entries. */
  function LatestEntries(tool: Tool, locator: string, limit: nat): (r: Result<seq<Entry>, string>)
    ensures r.Err? <==> !tool.list(ListArgs(locator, limit)).success
    ensures r.Ok? ==> |r.value| <= limit && r.value <= Pairs(tool.list(ListArgs(locator, limit)).stdout)
  {
    var run := tool.list(ListArgs(locator, limit));
    if !run.success then Err(run.stderr) else Ok(Take(Pairs(run.stdout), limit))
  }

  /**
   * Lists an item: runs the lister, fails with its stderr on a failing exit,
   * otherwise pairs its stdout lines and keeps the first `limit` entries.
   */
  method GetLatestEntries(tool: Tool, channel: string, limit: nat) returns (r: Result<seq<Entry>, string>)
    ensures r == LatestEntries(tool, channel, limit)
    ensures var run := tool.list(ListArgs(channel, limit));
            && (r.Err? <==> !run.success)
            && (r.Err? ==> r.error == run.stderr)
            && (r.Ok? ==> |r.value| <= limit && r.value <= Pairs(run.stdout))
            && (r.Ok? && limit <= |Pairs(run.stdout)| ==> |r.value| == limit)
  {
    var output := tool.list(ListArgs(channel, limit));
    if !output.success {
      return Err(output.stderr);
    }
    var videos := ParseLines(output.stdout);
    return Ok(Take(videos, limit));
  }

  /** The download command's boolean switches. */
  datatype Toggle =
    | WriteThumbnail | WriteDescription | WriteInfoJson | WriteComments | WriteSubs | ExtractAudio
    | EmbedChapters | EmbedInfoJson | EmbedMetadata | EmbedSubs | EmbedThumbnail | SplitChapters

  /** The download command's options that carry a value. */
  datatype Setting = AudioFormat | Format | Cookies

  /** One optional group of the download command: a switch, or an option with its value. */
  datatype Arg = Flag(toggle: Toggle) | Valued(setting: Setting, value: string)

  /** The command-line spelling of each switch. */
  function ToggleName(t: Toggle): string {
    match t
    case WriteThumbnail => "--write-thumbnail"
    case WriteDescription => "--write-description"
    case WriteInfoJson => "--write-info-json"
    case WriteComments => "--write-comments"
    case WriteSubs => "--write-subs"
    case ExtractAudio => "--extract-audio"
    case EmbedChapters => "--embed-chapters"
    case EmbedInfoJson => "--embed-info-json"
    case EmbedMetadata => "--embed-metadata"
    case EmbedSubs => "--embed-subs"
    case EmbedThumbnail => "--embed-thumbnail"
    case SplitChapters => "--split-chapters"
  }

  /** The command-line spelling of each valued option. */
  function SettingName(s: Setting): string {
    match s
    case AudioFormat => "--audio-format"
    case Format => "--format"
    case Cookies => "--cookies"
  }

  /** The arguments one slot contributes: none for an absent option. */
  function Words(slot: Option<Arg>): seq<string> {
    match slot
    case None => []
    case Some(Flag(t)) => [ToggleName(t)]
    case Some(Valued(s, v)) => [SettingName(s), v]
  }

  /** A switch, present or not. */
  function Switch(on: bool, t: Toggle): Option<Arg> {
    if on then Some(Flag(t)) else None
  }

  /** A valued option, present with its value when set. */
  function Given(value: Option<string>, s: Setting): Option<Arg> {
    match value
    case Some(v) => Some(Valued(s, v))
    case None => None
  }

  /**
   * The optional part of the download command: one slot per option, in the
   * order the options are added, each switch with its default.
   */
  function OptionArgs(c: YtDlpConfig): seq<Option<Arg>> {
    [Switch(c.write_thumbnail.GetOr(true), WriteThumbnail)]
    + [Switch(c.write_description.GetOr(false), WriteDescription)]
    + [Switch(c.write_info_json.GetOr(false), WriteInfoJson)]
    + [Switch(c.write_comments.GetOr(false), WriteComments)]
    + [Switch(c.write_subs.GetOr(false), WriteSubs)]
    + [Switch(c.audio_only.GetOr(false), ExtractAudio)]
    + [Given(c.audio_format, AudioFormat)]
    + [Switch(c.embed_chapters.GetOr(true), EmbedChapters)]
    + [Switch(c.embed_info_json.GetOr(true), EmbedInfoJson)]
    + [Switch(c.embed_metadata.GetOr(true), EmbedMetadata)]
    + [Switch(c.embed_subs.GetOr(false), EmbedSubs)]
    + [Switch(c.embed_thumbnail.GetOr(true), EmbedThumbnail)]
    + [Switch(c.split_chapters.GetOr(false), SplitChapters)]
    + [Given(c.format, Format)]
    + [Given(c.cookie, Cookies)]
  }

  /** The slots' arguments, one after the other. */
  function Flatten(args: seq<Option<Arg>>): seq<string>
    decreases |args|
  {
    if args == [] then [] else Flatten(args[..|args| - 1]) + Words(args[|args| - 1])
  }

  /** Every download command starts by selecting the aria2c downloader. */
  const CommandPrefix: seq<string> := ["--downloader", "aria2c"]

  /** The full download argument vector for one URL. */
  function DownloadArgs(c: YtDlpConfig, url: string): (args: seq<string>)
    ensures |args| >= 7 && args[|args| - 1] == url
  {
    CommandPrefix + Flatten(OptionArgs(c))
    + ["--convert-thumbnails", c.thumbnail_format.GetOr(DefaultThumbnailFormat),
       "-o", c.output_format.GetOr(DefaultOutputFormat), url]
  }

  /** `command.arg(flag)` when `on`. */
  method AddSwitch(command: seq<string>, ghost args: seq<Option<Arg>>, on: bool, t: Toggle)
    returns (next: seq<string>, ghost nextArgs: seq<Option<Arg>>)
    requires command == CommandPrefix + Flatten(args)
    ensures nextArgs == args + [Switch(on, t)]
    ensures next == CommandPrefix + Flatten(nextArgs)
  {
    nextArgs := args + [Switch(on, t)];
    assert nextArgs[..|nextArgs| - 1] == args;
    next := command;
    if on {
      next := command + [ToggleName(t)];
    }
  }

  /** `command.arg(flag).arg(value)` when the option is set. */
  method AddSetting(command: seq<string>, ghost args: seq<Option<Arg>>, value: Option<string>, s: Setting)
    returns (next: seq<string>, ghost nextArgs: seq<Option<Arg>>)
    requires command == CommandPrefix + Flatten(args)
    ensures nextArgs == args + [Given(value, s)]
    ensures next == CommandPrefix + Flatten(nextArgs)
  {
    nextArgs := args + [Given(value, s)];
    assert nextArgs[..|nextArgs| - 1] == args;
    next := command;
    if value.Some? {
      next := command + [SettingName(s), value.value];
    }
  }

  /**
   * The command opens with the downloader choice and closes with the
   * thumbnail conversion, the output template and the URL.
   */
  lemma DownloadArgsFrame(c: YtDlpConfig, url: string)
    ensures var args := DownloadArgs(c, url);
            && args[..2] == ["--downloader", "aria2c"]
            && args[|args| - 5..] == ["--convert-thumbnails", c.thumbnail_format.GetOr("jpg"),
                                      "-o", c.output_format.GetOr("%(title)s.%(ext)s"), url]
  {
  }

  /**
   * Whether a configuration turns a switch on: the thumbnail-writing and
   * embedding switches other than subtitles are on unless explicitly
   * `false`, every other switch only when explicitly `true`.
   */
  function Enabled(c: YtDlpConfig, t: Toggle): bool {
    match t
    case WriteThumbnail => c.write_thumbnail != Some(false)
    case WriteDescription => c.write_description == Some(true)
    case WriteInfoJson => c.write_info_json == Some(true)
    case WriteComments => c.write_comments == Some(true)
    case WriteSubs => c.write_subs == Some(true)
    case ExtractAudio => c.audio_only == Some(true)
    case EmbedChapters => c.embed_chapters != Some(false)
    case EmbedInfoJson => c.embed_info_json != Some(false)
    case EmbedMetadata => c.embed_metadata != Some(false)
    case EmbedSubs => c.embed_subs == Some(true)
    case EmbedThumbnail => c.embed_thumbnail != Some(false)
    case SplitChapters => c.split_chapters == Some(true)
  }

  /** The configured value of a valued option. */
  function Value(c: YtDlpConfig, s: Setting): Option<string> {
    match s
    case AudioFormat => c.audio_format
    case Format => c.format
    case Cookies => c.cookie
  }

  /** A valued option is in the command, with exactly its value, when it is set. */
  lemma SettingInCommand(c: YtDlpConfig, s: Setting, v: string)
    ensures Some(Valued(s, v)) in OptionArgs(c) <==> Value(c, s) == Some(v)
  {
    if Some(Valued(s, v)) in OptionArgs(c) {
      SettingOnlyWhenSet(c, s, v);
    }
    if Value(c, s) == Some(v) {
      SettingWhenSet(c, s, v);
    }
  }

  lemma SettingOnlyWhenSet(c: YtDlpConfig, s: Setting, v: string)
    requires Some(Valued(s, v)) in OptionArgs(c)
    ensures Value(c, s) == Some(v)
  {
    match s
    case AudioFormat => AudioFormatOnlyWhenSet(c, v);
    case Format => FormatOnlyWhenSet(c, v);
    case Cookies => CookiesOnlyWhenSet(c, v);
  }

  lemma AudioFormatOnlyWhenSet(c: YtDlpConfig, v: string)
    requires Some(Valued(AudioFormat, v)) in OptionArgs(c)
    ensures c.audio_format == Some(v)
  {
  }

  lemma FormatOnlyWhenSet(c: YtDlpConfig, v: string)
    requires Some(Valued(Format, v)) in OptionArgs(c)
    ensures c.format == Some(v)
  {
  }

  lemma CookiesOnlyWhenSet(c: YtDlpConfig, v: string)
    requires Some(Valued(Cookies, v)) in OptionArgs(c)
    ensures c.cookie == Some(v)
  {
  }

  lemma SettingWhenSet(c: YtDlpConfig, s: Setting, v: string)
    requires Value(c, s) == Some(v)
    ensures Some(Valued(s, v)) in OptionArgs(c)
  {
    match s
    case AudioFormat =>
    case Format =>
    case Cookies =>
  }

  /** A switch is in the command exactly when the configuration enables it. */
  lemma SwitchInCommand(c: YtDlpConfig, t: Toggle)
    ensures Some(Flag(t)) in OptionArgs(c) <==> Enabled(c, t)
  {
    if Some(Flag(t)) in OptionArgs(c) {
      SwitchOnlyWhenEnabled(c, t);
    }
    if Enabled(c, t) {
      SwitchWhenEnabled(c, t);
    }
  }

  lemma SwitchOnlyWhenEnabled(c: YtDlpConfig, t: Toggle)
    requires Some(Flag(t)) in OptionArgs(c)
    ensures Enabled(c, t)
  {
    if t.WriteThumbnail? || t.WriteDescription? || t.WriteInfoJson? || t.WriteComments? || t.WriteSubs? || t.ExtractAudio? {
      WriteSwitchOnlyWhenEnabled(c, t);
    } else {
      EmbedSwitchOnlyWhenEnabled(c, t);
    }
  }

  /** The switches added before `--audio-format`. */
  lemma WriteSwitchOnlyWhenEnabled(c: YtDlpConfig, t: Toggle)
    requires t.WriteThumbnail? || t.WriteDescription? || t.WriteInfoJson? || t.WriteComments? || t.WriteSubs? || t.ExtractAudio?
    requires Some(Flag(t)) in OptionArgs(c)
    ensures Enabled(c, t)
  {
    match t
    case WriteThumbnail =>
    case WriteDescription =>
    case WriteInfoJson =>
    case WriteComments =>
    case WriteSubs =>
    case ExtractAudio =>
  }

  /** The switches added after `--audio-format`. */
  lemma EmbedSwitchOnlyWhenEnabled(c: YtDlpConfig, t: Toggle)
    requires t.EmbedChapters? || t.EmbedInfoJson? || t.EmbedMetadata? || t.EmbedSubs? || t.EmbedThumbnail? || t.SplitChapters?
    requires Some(Flag(t)) in OptionArgs(c)
    ensures Enabled(c, t)
  {
    match t
    case EmbedChapters =>
    case EmbedInfoJson =>
    case EmbedMetadata =>
    case EmbedSubs =>
    case EmbedThumbnail =>
    case SplitChapters =>
  }

  lemma SwitchWhenEnabled(c: YtDlpConfig, t: Toggle)
    requires Enabled(c, t)
    ensures Some(Flag(t)) in OptionArgs(c)
  {
    match t
    case WriteThumbnail =>
    case WriteDescription =>
    case WriteInfoJson =>
    case WriteComments =>
    case WriteSubs =>
    case ExtractAudio =>
    case EmbedChapters =>
    case EmbedInfoJson =>
    case EmbedMetadata =>
    case EmbedSubs =>
    case EmbedThumbnail =>
    case SplitChapters =>
  }

  /** `part` occurs in `whole` as a contiguous run. */
  predicate Occurs(part: seq<string>, whole: seq<string>) {
    exists i :: 0 <= i <= |whole| && part <= whole[i..]
  }

  /** The words of a present slot occur, contiguously, in the flattened arguments. */
  lemma {:induction false} SlotInFlatten(slots: seq<Option<Arg>>, slot: Option<Arg>)
    requires slot in slots
    ensures Occurs(Words(slot), Flatten(slots))
    decreases |slots|
  {
    var front := slots[..|slots| - 1];
    var flat := Flatten(slots);
    var j :| 0 <= j < |slots| && slots[j] == slot;
    if j < |slots| - 1 {
      assert front[j] == slot;
      SlotInFlatten(front, slot);
      var i :| 0 <= i <= |Flatten(front)| && Words(slot) <= Flatten(front)[i..];
      assert Words(slot) <= flat[i..];
    } else {
      var i := |Flatten(front)|;
      assert flat[i..] == Words(slot);
    }
  }

  /** A run that occurs in the options occurs in the whole command around them. */
  lemma OccursInCommand(part: seq<string>, options: seq<string>, tail: seq<string>)
    requires Occurs(part, options)
    ensures Occurs(part, CommandPrefix + options + tail)
  {
    var i :| 0 <= i <= |options| && part <= options[i..];
    var command := CommandPrefix + options + tail;
    assert part <= command[i + |CommandPrefix|..];
  }

  /** An enabled switch's flag is in the download argument vector. */
  lemma SwitchInArgs(c: YtDlpConfig, t: Toggle, url: string)
    requires Enabled(c, t)
    ensures ToggleName(t) in DownloadArgs(c, url)
  {
    var args := DownloadArgs(c, url);
    SwitchInCommand(c, t);
    SlotInFlatten(OptionArgs(c), Some(Flag(t)));
    OccursInCommand([ToggleName(t)], Flatten(OptionArgs(c)), args[|args| - 5..]);
    var i :| 0 <= i <= |args| && [ToggleName(t)] <= args[i..];
    assert args[i] == ToggleName(t);
  }

  /** A set valued option is in the download argument vector, its flag immediately followed by its value. */
  lemma SettingInArgs(c: YtDlpConfig, s: Setting, v: string, url: string)
    requires Value(c, s) == Some(v)
    ensures Occurs([SettingName(s), v], DownloadArgs(c, url))
  {
    var args := DownloadArgs(c, url);
    SettingInCommand(c, s, v);
    SlotInFlatten(OptionArgs(c), Some(Valued(s, v)));
    OccursInCommand([SettingName(s), v], Flatten(OptionArgs(c)), args[|args| - 5..]);
  }

  /** With no limit configured, the listing requests exactly ten entries. */
  lemma DefaultListArgs(locator: string)
    ensures ListArgs(locator, DefaultLimit)[5..7] == ["--playlist-end", "10"]
  {
    assert Digit(1) == '1' && Digit(0) == '0';
    assert Decimal(10) == Decimal(1) + [Digit(0)] == "10";
  }

  /** A running yt-dlp module. */
  class YtDlpModule {
    const config: YtDlpConfig
    const db: Db.Database
    const rootDir: Path

    constructor (config: YtDlpConfig, db: Db.Database, rootDir: Path)
      ensures this.config == config && this.db == db && this.rootDir == rootDir
    {
      this.config := config;
      this.db := db;
      this.rootDir := rootDir;
    }

    /** The configured name, or "yt-dlp". */
    function Name(): (name: string)
      ensures config.name.Some? ==> name == config.name.value
      ensures config.name.None? ==> name == "yt-dlp"
    {
      config.name.GetOr("yt-dlp")
    }

    /** How many entries each item lists: the configured limit, else ten. */
    function Limit(): (limit: nat)
      ensures config.limit.Some? ==> limit == config.limit.value
      ensures config.limit.None? ==> limit == 10
    {
      config.limit.GetOr(DefaultLimit)
    }

    /** The listing the pass uses for a locator: never more than `Limit()` entries. */
    function Lister(tool: Tool): (list: string -> Result<seq<Entry>, string>)
      ensures forall locator :: list(locator).Ok? ==> |list(locator).value| <= Limit()
    {
      var limit := Limit();
      (locator: string) => LatestEntries(tool, locator, limit)
    }

    /** Whether downloading `url` into `dir` succeeds: the download process ran and exited successfully. */
    function Succeeds(tool: Tool): (ok: (Path, string) -> bool)
      ensures forall dir, url :: ok(dir, url) <==> var run := tool.fetch(dir, DownloadArgs(config, url)); run.Exited? && run.success
    {
      var c := config;
      (dir: Path, url: string) => DownloadOutcome(tool.fetch(dir, DownloadArgs(c, url))).Ok?
    }

    /** What one pass over the items does, from the store's URL column `stored`. */
    function Pass(tool: Tool, order: seq<string>, stored: seq<string>): (r: Poll.Progress)
      requires Poll.Enumerates(order, config.items)
      ensures stored <= r.stored
    {
      Poll.ItemsPass(Poll.Progress(stored, []), rootDir, Poll.Items(config.items, order), Lister(tool), Succeeds(tool))
    }

    /** The URL column after one pass per oracle, in order. */
    function Cycles(tools: seq<Tool>, order: seq<string>, stored: seq<string>): (r: seq<string>)
      requires Poll.Enumerates(order, config.items)
      ensures stored <= r
      decreases |tools|
    {
      if tools == [] then stored
      else Pass(tools[|tools| - 1], order, Cycles(tools[..|tools| - 1], order, stored)).stored
    }

    /** The downloads each of those passes starts, one sequence per oracle. */
    function CycleAttempts(tools: seq<Tool>, order: seq<string>, stored: seq<string>): (r: seq<seq<Poll.Attempt>>)
      requires Poll.Enumerates(order, config.items)
      ensures |r| == |tools|
      decreases |tools|
    {
      if tools == [] then []
      else
        var front := tools[..|tools| - 1];
        CycleAttempts(front, order, stored) + [Pass(tools[|tools| - 1], order, Cycles(front, order, stored)).attempts]
    }

    /** One more oracle is one more pass, from the store the earlier ones left. */
    lemma CycleStep(tools: seq<Tool>, order: seq<string>, stored: seq<string>, n: nat)
      requires Poll.Enumerates(order, config.items)
      requires n < |tools|
      ensures var done := Cycles(tools[..n], order, stored);
              && Cycles(tools[..n + 1], order, stored) == Pass(tools[n], order, done).stored
              && CycleAttempts(tools[..n + 1], order, stored)
                 == CycleAttempts(tools[..n], order, stored) + [Pass(tools[n], order, done).attempts]
    {
      assert tools[..n + 1][..n] == tools[..n];
    }

    /** The n-th cycle's downloads are those of a pass from the store the first n cycles left. */
    lemma {:induction false} CycleAttemptsArePasses(tools: seq<Tool>, order: seq<string>, stored: seq<string>, n: nat)
      requires Poll.Enumerates(order, config.items)
      requires n < |tools|
      ensures CycleAttempts(tools, order, stored)[n] == Pass(tools[n], order, Cycles(tools[..n], order, stored)).attempts
      decreases |tools|
    {
      var front := tools[..|tools| - 1];
      if n < |front| {
        CycleAttemptsArePasses(front, order, stored, n);
        assert tools[..n] == front[..n];
      } else {
        assert tools[..n] == front;
      }
    }

    /** The store only grows from cycle to cycle: what `a` cycles left, every later cycle keeps. */
    lemma {:induction false} CyclesGrow(tools: seq<Tool>, order: seq<string>, stored: seq<string>, a: nat, b: nat)
      requires Poll.Enumerates(order, config.items)
      requires a <= b <= |tools|
      ensures Cycles(tools[..a], order, stored) <= Cycles(tools[..b], order, stored)
      decreases b - a
    {
      if a < b {
        CyclesGrow(tools, order, stored, a, b - 1);
        CycleStep(tools, order, stored, b - 1);
      }
    }

    /** A URL the store held after `a` cycles is downloaded by none of the later cycles. */
    lemma StoredNeverDownloadedAgain(tools: seq<Tool>, order: seq<string>, stored: seq<string>, a: nat, n: nat, url: string)
      requires Poll.Enumerates(order, config.items)
      requires a <= n < |tools|
      requires url in Cycles(tools[..a], order, stored)
      ensures forall k :: 0 <= k < |CycleAttempts(tools, order, stored)[n]| ==>
                CycleAttempts(tools, order, stored)[n][k].url != url
    {
      var before := Cycles(tools[..n], order, stored);
      CyclesGrow(tools, order, stored, a, n);
      assert url in before by {
        var earlier := Cycles(tools[..a], order, stored);
        var i :| 0 <= i < |earlier| && earlier[i] == url;
        assert before[i] == url;
      }
      CycleAttemptsArePasses(tools, order, stored, n);
      Poll.PassIsSound(Poll.Progress(before, []), rootDir, Poll.Items(config.items, order), Lister(tools[n]), Succeeds(tools[n]));
    }

    /**
     * What a pass downloads: never a URL the store held when it began, never
     * again a URL it downloaded successfully earlier in the pass, and
     * only into `rootDir/name` for a configured item `name` whose listing
     * (of at most `Limit()` entries) holds the URL; the store only grows.
     */
    lemma PassAttempts(tool: Tool, order: seq<string>, stored: seq<string>)
      requires Poll.Enumerates(order, config.items)
      ensures var r := Pass(tool, order, stored);
              && stored <= r.stored
              && (forall j, k :: 0 <= j < k < |r.attempts| && r.attempts[j].url == r.attempts[k].url ==>
                    !Succeeds(tool)(r.attempts[j].dir, r.attempts[j].url))
              && forall k :: 0 <= k < |r.attempts| ==>
                   && r.attempts[k].url !in stored
                   && exists name :: name in config.items && r.attempts[k].dir == Join(rootDir, name)
                        && var listing := LatestEntries(tool, config.items[name], Limit());
                           listing.Ok? && |listing.value| <= Limit()
                           && exists e :: e in listing.value && e.url == r.attempts[k].url
    {
      var p := Poll.Progress(stored, []);
      var items := Poll.Items(config.items, order);
      var r := Pass(tool, order, stored);
      Poll.PassIsSound(p, rootDir, items, Lister(tool), Succeeds(tool));
      Poll.AttemptsComeFromListings(p, rootDir, items, Lister(tool), Succeeds(tool));
      Poll.NoDownloadAfterSuccess(p, rootDir, items, Lister(tool), Succeeds(tool));
      forall k | 0 <= k < |r.attempts|
        ensures exists name :: name in config.items && r.attempts[k].dir == Join(rootDir, name)
                  && var listing := LatestEntries(tool, config.items[name], Limit());
                     listing.Ok? && |listing.value| <= Limit()
                     && exists e :: e in listing.value && e.url == r.attempts[k].url
      {
        var i :| 0 <= i < |items| && r.attempts[k].dir == Join(rootDir, items[i].name)
                 && Poll.ListedBy(items[i], Lister(tool), r.attempts[k].url);
        var name := order[i];
        assert items[i] == Poll.Item(name, config.items[name]);
        assert Lister(tool)(config.items[name]) == LatestEntries(tool, config.items[name], Limit());
      }
    }

    /**
     * Downloads one URL into `cwd`: builds the command option by option and
     * reports a spawn failure or a failing exit as an error.
     */
    method Download(tool: Tool, videoUrl: string, cwd: Path) returns (r: Result<(), string>)
      ensures r == DownloadOutcome(tool.fetch(cwd, DownloadArgs(config, videoUrl)))
    {
      var command := ["--downloader", "aria2c"];
      ghost var args: seq<Option<Arg>> := [];
      command, args := AddSwitch(command, args, config.write_thumbnail.GetOr(true), WriteThumbnail);
      command, args := AddSwitch(command, args, config.write_description.GetOr(false), WriteDescription);
      command, args := AddSwitch(command, args, config.write_info_json.GetOr(false), WriteInfoJson);
      command, args := AddSwitch(command, args, config.write_comments.GetOr(false), WriteComments);
      command, args := AddSwitch(command, args, config.write_subs.GetOr(false), WriteSubs);
      command, args := AddSwitch(command, args, config.audio_only.GetOr(false), ExtractAudio);
      command, args := AddSetting(command, args, config.audio_format, AudioFormat);
      command, args := AddSwitch(command, args, config.embed_chapters.GetOr(true), EmbedChapters);
      command, args := AddSwitch(command, args, config.embed_info_json.GetOr(true), EmbedInfoJson);
      command, args := AddSwitch(command, args, config.embed_metadata.GetOr(true), EmbedMetadata);
      command, args := AddSwitch(command, args, config.embed_subs.GetOr(false), EmbedSubs);
      command, args := AddSwitch(command, args, config.embed_thumbnail.GetOr(true), EmbedThumbnail);
      command, args := AddSwitch(command, args, config.split_chapters.GetOr(false), SplitChapters);
      command, args := AddSetting(command, args, config.format, Format);
      command, args := AddSetting(command, args, config.cookie, Cookies);
      assert args == OptionArgs(config);
      command := command + ["--convert-thumbnails", config.thumbnail_format.GetOr("jpg"),
                            "-o", config.output_format.GetOr("%(title)s.%(ext)s"), videoUrl];
      var output := tool.fetch(cwd, command);
      r := DownloadOutcome(output);
    }

    /**
     * The inner loop of a pass: every listed entry in listing order; a stored
     * URL is skipped, any other is downloaded into `dir` and recorded only
     * when that succeeded. Appends the downloads it started to `attempts`.
     */
    method VisitEntries(tool: Tool, dir: Path, latestVideos: seq<Entry>, attempts: seq<Poll.Attempt>)
      returns (attemptsAfter: seq<Poll.Attempt>)
      modifies db.backend
      ensures old(db.backend.rows) <= db.backend.rows
      ensures Poll.Progress(Db.Urls(db.backend.rows), attemptsAfter)
              == Poll.EntriesPass(Poll.Progress(Db.Urls(old(db.backend.rows)), attempts), dir, latestVideos, Succeeds(tool))
    {
      ghost var before := Poll.Progress(Db.Urls(db.backend.rows), attempts);
      attemptsAfter := attempts;
      var k := 0;
      while k < |latestVideos|
        invariant 0 <= k <= |latestVideos|
        invariant old(db.backend.rows) <= db.backend.rows
        invariant Poll.Progress(Db.Urls(db.backend.rows), attemptsAfter)
                  == Poll.EntriesPass(before, dir, latestVideos[..k], Succeeds(tool))
      {
        var video := latestVideos[k];
        assert latestVideos[..k + 1][..k] == latestVideos[..k];
        var downloaded := db.CheckForUrl(video.url);
        Db.StoredIffListed(db.backend.rows, video.url);
        if !downloaded {
          var result := Download(tool, video.url, dir);
          attemptsAfter := attemptsAfter + [Poll.Attempt(dir, video.url)];
          if result.Ok? {
            ghost var rows := db.backend.rows;
            db.InsertUrl(video.url);
            Db.UrlsOfRows(rows);
            Db.UrlsOfRows(db.backend.rows);
            assert Db.Urls(db.backend.rows) == Db.Urls(rows) + [video.url];
          }
        }
        k := k + 1;
      }
      assert latestVideos[..k] == latestVideos;
    }

    /**
     * One item of a pass: lists it and, unless that fails, visits its
     * entries in `rootDir/name`. Appends the downloads it started.
     */
    method VisitItem(tool: Tool, name: string, locator: string, attempts: seq<Poll.Attempt>)
      returns (attemptsAfter: seq<Poll.Attempt>)
      modifies db.backend
      ensures old(db.backend.rows) <= db.backend.rows
      ensures Poll.Progress(Db.Urls(db.backend.rows), attemptsAfter)
              == Poll.ItemPass(Poll.Progress(Db.Urls(old(db.backend.rows)), attempts), rootDir,
                               Poll.Item(name, locator), Lister(tool), Succeeds(tool))
    {
      var listing := GetLatestEntries(tool, locator, Limit());
      assert Lister(tool)(locator) == listing;
      attemptsAfter := attempts;
      if listing.Ok? {
        attemptsAfter := VisitEntries(tool, Join(rootDir, name), listing.value, attempts);
      }
    }

    /**
     * One pass of the poll loop: every item in iteration order; an item whose
     * listing fails is skipped, the entries of any other are visited in
     * `rootDir/item`. Returns the downloads it started.
     */
    method RunCycle(tool: Tool, order: seq<string>) returns (attempts: seq<Poll.Attempt>)
      requires Poll.Enumerates(order, config.items)
      modifies db.backend
      ensures old(db.backend.rows) <= db.backend.rows
      ensures Poll.Progress(Db.Urls(db.backend.rows), attempts) == Pass(tool, order, Db.Urls(old(db.backend.rows)))
    {
      attempts := [];
      ghost var start := Poll.Progress(Db.Urls(db.backend.rows), []);
      ghost var items := Poll.Items(config.items, order);
      var i := 0;
      while i < |order|
        invariant 0 <= i <= |order|
        invariant old(db.backend.rows) <= db.backend.rows
        invariant Poll.Progress(Db.Urls(db.backend.rows), attempts)
                  == Poll.ItemsPass(start, rootDir, items[..i], Lister(tool), Succeeds(tool))
      {
        var item := order[i];
        var itemUrl := config.items[item];
        assert items[i] == Poll.Item(item, itemUrl);
        Poll.ItemsPassStep(start, rootDir, items, i, Lister(tool), Succeeds(tool));
        attempts := VisitItem(tool, item, itemUrl, attempts);
        i := i + 1;
      }
      assert items[..i] == items;
    }

    /** The poll loop, run for one pass per oracle (the world may change between passes). */
    method Run(tools: seq<Tool>, order: seq<string>) returns (attempts: seq<seq<Poll.Attempt>>)
      requires Poll.Enumerates(order, config.items)
      modifies db.backend
      ensures old(db.backend.rows) <= db.backend.rows
      ensures Db.Urls(db.backend.rows) == Cycles(tools, order, Db.Urls(old(db.backend.rows)))
      ensures attempts == CycleAttempts(tools, order, Db.Urls(old(db.backend.rows)))
      ensures |attempts| == |tools|
    {
      attempts := [];
      ghost var start := Db.Urls(db.backend.rows);
      var n := 0;
      while n < |tools|
        invariant 0 <= n <= |tools|
        invariant old(db.backend.rows) <= db.backend.rows
        invariant Db.Urls(db.backend.rows) == Cycles(tools[..n], order, start)
        invariant attempts == CycleAttempts(tools[..n], order, start)
      {
        CycleStep(tools, order, start, n);
        var passAttempts := RunCycle(tools[n], order);
        attempts := attempts + [passAttempts];
        n := n + 1;
      }
      assert tools[..n] == tools;
    }
  }
}
