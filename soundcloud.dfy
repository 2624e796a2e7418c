/**
 * The SoundCloud module: a yt-dlp module over the configured artists, with
 * an audio-oriented option set fixed or defaulted by the translation of its
 * configuration.
 */
module SoundCloud {
  import opened Common
  import opened Process
  import Db
  import Poll
  import YtDlp

  /** The module's configuration. */
  datatype SoundCloudConfig = SoundCloudConfig(
    interval: nat,
    limit: Option<nat>,
    artists: map<string, string>,
    output_format: Option<string>,
    write_comments: Option<bool>,
    write_description: Option<bool>,
    write_cover: Option<bool>,
    write_subs: Option<bool>,
    audio_format: Option<string>,
    embed_thumbnail: Option<bool>,
    embed_metadata: Option<bool>,
    embed_chapters: Option<bool>,
    embed_info_json: Option<bool>,
    split_chapters: Option<bool>,
    format: Option<string>,
    cookie: Option<string>)

  /** The configuration of the inner yt-dlp module. */
  function Translate(c: SoundCloudConfig): (y: YtDlp.YtDlpConfig)
    ensures y.items == c.artists && y.limit == c.limit && y.interval == c.interval
    ensures y.name == Some("soundcloud") && y.audio_only == Some(true)
  {
    YtDlp.YtDlpConfig(
      name := Some("soundcloud"),
      interval := c.interval,
      limit := c.limit,
      items := c.artists,
      thumbnail_format := Some("jpg"),
      output_format := c.output_format,
      write_description := Some(c.write_description.GetOr(true)),
      write_info_json := Some(false),
      write_comments := c.write_comments,
      write_thumbnail := Some(true),
      write_subs := c.write_subs,
      audio_format := c.audio_format,
      embed_subs := Some(false),
      embed_thumbnail := Some(c.embed_thumbnail.GetOr(true)),
      embed_metadata := Some(c.embed_metadata.GetOr(true)),
      embed_chapters := Some(c.embed_chapters.GetOr(true)),
      embed_info_json := Some(c.embed_info_json.GetOr(true)),
      split_chapters := c.split_chapters,
      format := c.format,
      cookie := c.cookie,
      audio_only := Some(true))
  }

  /**
   * The fields the translation fixes, whatever the configuration says:
   * audio extraction on, thumbnails written and converted to jpg, no
   * info.json file, no embedded subtitles, inner name "soundcloud".
   */
  lemma TranslateFixed(c: SoundCloudConfig)
    ensures var y := Translate(c);
            && y.audio_only == Some(true)
            && y.name == Some("soundcloud")
            && y.thumbnail_format == Some("jpg")
            && y.write_info_json == Some(false)
            && y.write_thumbnail == Some(true)
            && y.embed_subs == Some(false)
  {
  }

  /**
   * The fields it defaults: the description and every embedding option are
   * never unset, keep an explicit value, and are `true` when absent.
   */
  lemma TranslateDefaults(c: SoundCloudConfig)
    ensures var y := Translate(c);
            && y.write_description.Some? && y.embed_thumbnail.Some? && y.embed_metadata.Some?
            && y.embed_chapters.Some? && y.embed_info_json.Some?
            && (y.write_description.value <==> c.write_description != Some(false))
            && (y.embed_thumbnail.value <==> c.embed_thumbnail != Some(false))
            && (y.embed_metadata.value <==> c.embed_metadata != Some(false))
            && (y.embed_chapters.value <==> c.embed_chapters != Some(false))
            && (y.embed_info_json.value <==> c.embed_info_json != Some(false))
  {
  }

  /** The fields it passes through unchanged, unset ones included; the artists become the items. */
  lemma TranslatePassThrough(c: SoundCloudConfig)
    ensures var y := Translate(c);
            && y.interval == c.interval && y.limit == c.limit && y.items == c.artists
            && y.output_format == c.output_format && y.write_comments == c.write_comments
            && y.write_subs == c.write_subs && y.audio_format == c.audio_format
            && y.split_chapters == c.split_chapters && y.format == c.format && y.cookie == c.cookie
  {
  }

  /** The cover option is accepted but changes nothing. */
  lemma WriteCoverIgnored(c: SoundCloudConfig, cover: Option<bool>)
    ensures Translate(c.(write_cover := cover)) == Translate(c)
  {
  }

  /**
   * What the inner module's download command then carries: audio
   * extraction, thumbnail writing and embedding of the switches the
   * configuration does not turn off; never an info.json file or embedded
   * subtitles; the description unless explicitly turned off.
   */
  lemma SoundCloudCommand(c: SoundCloudConfig)
    ensures var y := Translate(c);
            && YtDlp.Enabled(y, YtDlp.ExtractAudio)
            && YtDlp.Enabled(y, YtDlp.WriteThumbnail)
            && !YtDlp.Enabled(y, YtDlp.WriteInfoJson)
            && !YtDlp.Enabled(y, YtDlp.EmbedSubs)
            && (YtDlp.Enabled(y, YtDlp.WriteDescription) <==> c.write_description != Some(false))
            && (YtDlp.Enabled(y, YtDlp.EmbedThumbnail) <==> c.embed_thumbnail != Some(false))
            && (YtDlp.Enabled(y, YtDlp.EmbedMetadata) <==> c.embed_metadata != Some(false))
            && (YtDlp.Enabled(y, YtDlp.EmbedChapters) <==> c.embed_chapters != Some(false))
            && (YtDlp.Enabled(y, YtDlp.EmbedInfoJson) <==> c.embed_info_json != Some(false))
            && YtDlp.Value(y, YtDlp.AudioFormat) == c.audio_format
  {
    TranslateDefaults(c);
  }

  /** A running SoundCloud module: a yt-dlp module with the translated configuration. */
  class SoundCloudModule {
    const ytDlp: YtDlp.YtDlpModule

    constructor (config: SoundCloudConfig, db: Db.Database, rootDir: Path)
      ensures ytDlp.config == Translate(config) && ytDlp.db == db && ytDlp.rootDir == rootDir
    {
      ytDlp := new YtDlp.YtDlpModule(Translate(config), db, rootDir);
    }

    /** The module's own name, which differs from the inner module's. */
    function Name(): (name: string)
      reads this, ytDlp
      ensures name == "SoundCloud"
      ensures ytDlp.config.name == Some("soundcloud") ==> name != ytDlp.Name()
    {
      "SoundCloud"
    }

    /** Running the module runs the inner yt-dlp module's poll loop. */
    method Run(tools: seq<Process.Tool>, order: seq<string>) returns (attempts: seq<seq<Poll.Attempt>>)
      requires Poll.Enumerates(order, ytDlp.config.items)
      modifies ytDlp.db.backend
      ensures old(ytDlp.db.backend.rows) <= ytDlp.db.backend.rows
      ensures Db.Urls(ytDlp.db.backend.rows) == ytDlp.Cycles(tools, order, Db.Urls(old(ytDlp.db.backend.rows)))
      ensures attempts == ytDlp.CycleAttempts(tools, order, Db.Urls(old(ytDlp.db.backend.rows)))
    {
      attempts := ytDlp.Run(tools, order);
    }
  }
}
