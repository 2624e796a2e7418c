# hoard, modelled in Dafny

hoard is a media archiver. Each configured module polls a set of items (channels,
artists, playlists) on an interval. For every item it asks the external `yt-dlp`
executable for the newest entries, as alternating title and URL lines. It downloads
each entry whose URL the store does not hold yet into `root_dir/item`. A URL is
recorded only after a successful download. The store is a SQLite table of
`(url, timestamp)` rows. A single actor thread owns it and answers `InsertUrl` and
`CheckForUrl` jobs in the order it receives them.

This project models that core:

- `db.dfy` (module `Db`): the store and its actor. `DatabaseBackend` is a class whose
  `rows` field is the table. `Run` drains a queue of jobs in order, and its contract
  ties it to the specification functions `After` and `Replies`. `Database` is the
  client handle that turns the actor's answer into a boolean.
- `listing.dfy` (module `Listing`): the stdout parser that pairs lines into
  `(title, url)` entries, and the `take(limit)` truncation.
- `process.dfy` (module `Process`): `yt-dlp` as an oracle. A `Tool` maps a listing
  argument vector to exit status, stdout lines and stderr. It maps a download
  argument vector and working directory to a spawn failure or an exit status. Also
  here: how both download helpers turn that outcome into a `Result`.
- `poll.dfy` (module `Poll`): the meaning of one poll pass, shared by the modules.
  It covers items in map-iteration order, entries in listing order, the dedup check,
  the download and the conditional insert. The lemmas about a pass live here.
- `yt_dlp.dfy` (module `YtDlp`): the generic module. It holds its configuration, the
  listing and download argument vectors with their defaults, and the
  `YtDlpModule` class whose `RunCycle`/`Run` loops are proved against `Poll`.
- `youtube.dfy` (module `YouTube`): the YouTube module. It has a fixed download
  command, an untruncated listing and a single pass per `run`.
- `soundcloud.dfy` (module `SoundCloud`): the translation of a SoundCloud
  configuration into a yt-dlp configuration, and the module that delegates to it.
- `common.dfy` (module `Common`): `Option`, `Result`, paths as component sequences,
  and the decimal rendering of the listing limit.

Modelling choices:
- The store is seen by the poll loops through its URL column `Db.Urls(rows)`.
- Timestamps come from a `clock` function fixed per backend. The row written when
  the table holds `n` rows is stamped `clock(n)`.
- The unspecified `HashMap` iteration order is a parameter `order`. `Poll.Enumerates`
  requires it to list every configured key exactly once.
- `yt-dlp` runs are oracle inputs. The infinite `loop` of the yt-dlp module runs
  once per oracle in a sequence `tools`, so the outside world may change between
  passes.

Points where the code behaves otherwise than one might expect, which the model follows:
- The table has no uniqueness constraint (`src/db.rs:17-25`), and `InsertUrl`
  appends a row every time. `Db.DuplicateInsert` states the consequence.
- `src/youtube/mod.rs:64` and `:74` call `.unwrap()` on the `bool` and `()` that
  `src/db.rs:87-96` returns. The model uses the types `src/db.rs` declares.
- `src/main.rs:51` names the data directory of a yt-dlp module without a
  configured name "yt_dlp"; that name is used only in `data_dir.join(mod_name)`
  (`src/main.rs:55`). The module's own `name()` still defaults to "yt-dlp"
  (`src/yt_dlp/mod.rs:81`), which `YtDlp.YtDlpModule.Name` models.

## Model

| member | source | states |
|---|---|---|
| Common.Decimal | src/yt_dlp/mod.rs:137 | `limit.to_string()`: a non-empty string of decimal digits without a leading zero |
| Common.DecimalRoundTrip | src/yt_dlp/mod.rs:136-137 | the decimal text passed after `--playlist-end` reads back as the limit: nothing is lost in `to_string` |
| Process.DownloadOutcome | src/yt_dlp/mod.rs:223-231 | a download succeeds exactly when the process spawned and exited successfully; a spawn failure gives "yt-dlp command failed", a failing exit gives its stderr |
| Listing.Pair | src/yt_dlp/mod.rs:150-152 | one title/url pair of lines gives one entry exactly when both lines decode, holding the decoded title and URL; otherwise none |
| Listing.Pairs | src/yt_dlp/mod.rs:146-153 | the entries parsed from the stdout lines, two lines per entry in order; there are at most half as many entries as lines |
| Listing.ParseLines | src/yt_dlp/mod.rs:146-153 | the `while let` loop that takes two lines at a time computes exactly `Pairs` of the stdout lines (invariant: the entries so far are `Pairs` of the lines consumed) |
| Listing.PairsAppend | src/yt_dlp/mod.rs:149-153 | lines are consumed in pairs from the front: parsing an even-length block and then the rest is parsing both in sequence |
| Listing.PairsDropsOddLine | src/yt_dlp/mod.rs:149 | an odd trailing line never becomes an entry |
| Listing.PairsSkipsUndecodable | src/yt_dlp/mod.rs:150-152 | a pair in which either line fails to decode is skipped, and parsing continues with the next two lines |
| Listing.PairsMembership | src/yt_dlp/mod.rs:149-152 | an entry is produced iff some even position holds its title as decoded text, with its URL on the next line (title first) |
| Listing.PairsOfDecodedLines | src/yt_dlp/mod.rs:146-153 | when every line decodes there is one entry per pair, in order, the k-th built from lines 2k and 2k+1 |
| Listing.PairsRender | src/yt_dlp/mod.rs:149-151 | printing entries as title/url lines and parsing them back gives the same entries |
| Listing.Take | src/yt_dlp/mod.rs:155 | the kept entries are a prefix of the parsed ones, of length min(limit, number parsed) |
| Db.Count | src/db.rs:53-59 | `SELECT COUNT(*) FROM urls WHERE url = ?`: the number of rows whose URL equals the asked one, never more than the table's size |
| Db.Apply | src/db.rs:43-60 | the table after one job: an `InsertUrl` appends one row holding its URL, a `CheckForUrl` leaves the table as it was; existing rows are kept |
| Db.Answer | src/db.rs:43-60 | the reply to one job: `CheckForUrl(u)` gets `Bool(true)` exactly when `u` is stored, `InsertUrl` gets a non-`Bool` reply |
| Db.After | src/db.rs:41-62 | the table after a queue of jobs handled in order: the old table extended by at most one row per job |
| Db.Replies | src/db.rs:41-62 | the actor gives exactly one reply per job |
| Db.AsBool | src/db.rs:91-96 | the client reads `Bool(b)` as `b` and `Ok` as false |
| Db.CountPositiveIffStored | src/db.rs:53-59 | `COUNT(*) ... WHERE url = ?` is positive iff some row's URL is exactly equal to the asked URL |
| Db.UrlsOfRows | src/db.rs:43-51 | the URL column has one entry per row, in insertion order |
| Db.StoredIffListed | src/db.rs:53-59 | a URL is stored iff it occurs in the URL column the poll loops see |
| Db.CheckAnswersStored | src/db.rs:53-60 | `CheckForUrl` answers `Bool(stored)` and leaves the table unchanged |
| Db.StoreOnlyGrows | src/db.rs:41-62 | processing jobs only appends rows; existing rows are never changed or removed |
| Db.StoredAfterIff | src/db.rs:41-62 | after a queue of jobs a URL is stored iff it was stored before or some job inserted it |
| Db.RepliesInOrder | src/db.rs:41-62 | the i-th reply is the answer to the i-th job against the table left by the jobs before it (jobs handled in receive order) |
| Db.ReplyKinds | src/db.rs:43-59 | `InsertUrl` is answered `Ok`, `CheckForUrl` is answered `Bool` |
| Db.CheckSeesEarlierInserts | src/db.rs:41-60 | a `CheckForUrl(u)` reply is `Bool(true)` iff `u` was stored before the queue or an earlier job inserted it |
| Db.InsertThenCheck | src/db.rs:43-59 | after an `InsertUrl(u)` job, every later `CheckForUrl(u)` job answers `Bool(true)` |
| Db.DuplicateInsert | src/db.rs:17-51 | inserting the same URL twice adds two rows and two to its count, yet a check answers the same as after one insert |
| Db.OtherRowsUntouched | src/db.rs:43-60 | jobs that do not insert `u` leave the rows for `u` unchanged |
| Db.DatabaseBackend.constructor | src/db.rs:13-34 | opening a backend over an existing table keeps its rows (`CREATE TABLE IF NOT EXISTS`) |
| Db.DatabaseBackend.TakeDb | src/db.rs:36-38 | hands out a fresh client bound to this backend |
| Db.DatabaseBackend.Handle | src/db.rs:42-61 | one job: the new table is `Apply` of the old, the reply is `Answer` against the old table |
| Db.DatabaseBackend.Run | src/db.rs:40-63 | draining the queue leaves `After(old rows, jobs)` and returns `Replies(old rows, jobs)`, which the lemmas above characterise |
| Db.Database.constructor | src/db.rs:83-85 | the client wraps the given backend |
| Db.Database.InsertUrl | src/db.rs:87-89 | the backend table gains exactly the row for the URL |
| Db.Database.CheckForUrl | src/db.rs:91-96 | returns true iff the URL is stored, and the table is unchanged |
| Poll.Visit | src/yt_dlp/mod.rs:93-108 | one listed entry: stored URL skipped; otherwise one download started, and the URL recorded only if it succeeded; the store and the started downloads only grow, by at most one each, the store never more than the downloads |
| Poll.EntriesPass | src/yt_dlp/mod.rs:92-111 | the entry loop: every listed entry visited in listing order into the item directory; the store and the started downloads only grow |
| Poll.ItemPass | src/yt_dlp/mod.rs:90-115 | one item: its listing is fetched; a failing listing leaves everything unchanged, otherwise its entries are visited in `root/name`; the store and the downloads only grow |
| Poll.ItemsPass | src/yt_dlp/mod.rs:88-117 | the item loop: every item in map-iteration order, each from where the previous one left the store; the store and the downloads only grow |
| Poll.ItemsPassStep | src/yt_dlp/mod.rs:88-90 | the items are visited one after another: the pass over the first `i + 1` items is one item step after the pass over the first `i` |
| Poll.SoundVisit | src/yt_dlp/mod.rs:93-108 | one entry: a stored URL is skipped; any other is downloaded and recorded only if that succeeded |
| Poll.SoundEntries | src/yt_dlp/mod.rs:92-111 | the entry loop forgets nothing, downloads only unstored URLs and records only successful downloads |
| Poll.SoundItem | src/yt_dlp/mod.rs:90-115 | the same for one item, whether its listing succeeds or fails |
| Poll.PassIsSound | src/yt_dlp/mod.rs:88-117 | a whole pass never forgets a URL, never downloads a URL stored when it began, and records a URL only after a successful download of it |
| Poll.EntriesNoRepeatAfterSuccess | src/yt_dlp/mod.rs:92-108 | within one item's entry loop, a successfully downloaded URL is stored, so a URL listed twice is downloaded the second time only if the first download failed |
| Poll.NoDownloadAfterSuccess | src/yt_dlp/mod.rs:88-108 | a whole pass: every successful download's URL is stored afterwards, and when two downloads of the pass fetch the same URL (from one item or from two) the earlier one failed |
| Poll.EntriesStoredIff | src/yt_dlp/mod.rs:92-111 | after the entry loop a URL is stored iff it was before, or it is listed and its download into the item directory succeeds |
| Poll.StoredAfterPassIff | src/yt_dlp/mod.rs:88-117 | after a pass a URL is stored iff it was before or some item lists it with a download that succeeds |
| Poll.EntriesAttemptListed | src/yt_dlp/mod.rs:92-98 | an unstored listed URL is downloaded by the entry loop |
| Poll.ListedIsAttempted | src/yt_dlp/mod.rs:88-98 | an unstored URL listed by any item is downloaded during the pass |
| Poll.EntriesAttemptsListed | src/yt_dlp/mod.rs:92-98 | every download the entry loop starts runs in the item directory and fetches a listed URL |
| Poll.AttemptsComeFromListings | src/yt_dlp/mod.rs:88-98 | every download a pass starts runs in `root/name` for an item whose successful listing holds that URL |
| Poll.ItemsPassConcat | src/yt_dlp/mod.rs:88-117 | items are processed one after another: a pass over two runs of items is the second run's pass started where the first ended |
| Poll.ListingFailureSkipsItem | src/yt_dlp/mod.rs:113-115 | an item whose listing fails changes nothing: the pass equals the pass over the other items |
| Poll.FailedDownloadIsRetried | src/yt_dlp/mod.rs:98-108 | a URL whose download failed everywhere stays unstored, and the next pass that lists it downloads it again |
| YtDlp.ListArgs | src/yt_dlp/mod.rs:130-138 | the listing arguments: eight words, `--playlist-end` followed by a string of decimal digits that reads back as the limit, and the item's locator last |
| YtDlp.LatestEntries | src/yt_dlp/mod.rs:129-156 | an item's listing is an error exactly when the lister exits with failure; otherwise it has at most `limit` entries and is a prefix of the pairs parsed from stdout |
| YtDlp.GetLatestEntries | src/yt_dlp/mod.rs:129-156 | a failing lister gives `Err(stderr)`; otherwise at most `limit` entries, a prefix of the parsed pairs, exactly `limit` when enough were parsed |
| YtDlp.DefaultListArgs | src/yt_dlp/mod.rs:130-138 | with the default limit the listing asks for `--playlist-end 10` |
| YtDlp.OptionArgs | src/yt_dlp/mod.rs:161-210 | one slot for each of the fifteen optional arguments, in the order `download` adds them, each switch with its default |
| YtDlp.DownloadArgs | src/yt_dlp/mod.rs:158-222 | the download argument vector: the aria2c prefix, the present options, and at least the five closing words, with the URL last |
| YtDlp.AddSwitch | src/yt_dlp/mod.rs:163-203 | adding a switch appends its flag exactly when it is on |
| YtDlp.AddSetting | src/yt_dlp/mod.rs:181-210 | adding a valued option appends flag and value exactly when it is set |
| YtDlp.DownloadArgsFrame | src/yt_dlp/mod.rs:161-222 | the command starts with `--downloader aria2c` and ends with `--convert-thumbnails <format or jpg> -o <template or %(title)s.%(ext)s> <url>` |
| YtDlp.SwitchInCommand | src/yt_dlp/mod.rs:163-203 | a switch is in the command iff enabled: thumbnail writing and the chapter, info.json, metadata and thumbnail embeds unless explicitly false, every other switch only when explicitly true |
| YtDlp.SettingInCommand | src/yt_dlp/mod.rs:181-210 | `--audio-format`, `--format` and `--cookies` appear, with exactly the configured value, iff the option is set |
| YtDlp.SwitchInArgs | src/yt_dlp/mod.rs:163-203 | an enabled switch's flag is one of the words of the download argument vector |
| YtDlp.SettingInArgs | src/yt_dlp/mod.rs:181-210 | a set valued option's flag and value are adjacent words of the download argument vector |
| YtDlp.YtDlpModule.constructor | src/yt_dlp/mod.rs:67-73 | the module keeps its configuration, store client and root directory |
| YtDlp.YtDlpModule.Name | src/yt_dlp/mod.rs:77-82 | the configured name, else "yt-dlp" |
| YtDlp.YtDlpModule.Limit | src/yt_dlp/mod.rs:90 | the configured limit, else 10 |
| YtDlp.YtDlpModule.Lister | src/yt_dlp/mod.rs:90 | the listing call with `limit.unwrap_or(10)`: a successful listing never has more than `Limit()` entries |
| YtDlp.YtDlpModule.Succeeds | src/yt_dlp/mod.rs:98-99 | `download` returns `Ok` exactly when the download process ran and exited successfully |
| YtDlp.YtDlpModule.Pass | src/yt_dlp/mod.rs:88-117 | one pass over the configured items in iteration order, from the store's URL column; the column only grows |
| YtDlp.YtDlpModule.Cycles | src/yt_dlp/mod.rs:85-124 | the URL column the outer `loop` leaves after one pass per oracle, each from where the last left it; it only grows |
| YtDlp.YtDlpModule.PassAttempts | src/yt_dlp/mod.rs:88-108 | a pass never downloads a URL already stored, never downloads again a URL it already downloaded successfully, downloads only into `root_dir/item` for a configured item whose listing of at most `limit` entries holds the URL, and the store only grows |
| YtDlp.YtDlpModule.Download | src/yt_dlp/mod.rs:158-232 | building the command option by option yields `DownloadArgs`, and the result is the run's outcome |
| YtDlp.YtDlpModule.VisitEntries | src/yt_dlp/mod.rs:92-111 | the inner loop over listed entries has exactly the effect of `Poll.EntriesPass` on the URL column and the started downloads |
| YtDlp.YtDlpModule.VisitItem | src/yt_dlp/mod.rs:89-116 | the body of the item loop has exactly the effect of `Poll.ItemPass` with the module's lister and download oracle |
| YtDlp.YtDlpModule.RunCycle | src/yt_dlp/mod.rs:88-117 | one pass over the items has exactly the effect of `Poll.ItemsPass`, with the module's lister and download oracle |
| YtDlp.YtDlpModule.CycleAttempts | src/yt_dlp/mod.rs:84-125 | the downloads of successive cycles: one list per cycle, each cycle's being those of a full pass from the store the earlier cycles left (`CycleAttemptsArePasses`) |
| YtDlp.YtDlpModule.CycleStep | src/yt_dlp/mod.rs:85-124 | one more iteration of the outer `loop` is one more pass, started from the store the earlier iterations left |
| YtDlp.YtDlpModule.CycleAttemptsArePasses | src/yt_dlp/mod.rs:85-124 | the n-th cycle's downloads are exactly those of a pass from the store the first n cycles left |
| YtDlp.YtDlpModule.CyclesGrow | src/yt_dlp/mod.rs:85-124 | what the store held after `a` cycles it still holds after any later number of cycles |
| YtDlp.YtDlpModule.StoredNeverDownloadedAgain | src/yt_dlp/mod.rs:85-98 | a URL stored after `a` cycles is downloaded by no later cycle |
| YtDlp.YtDlpModule.Run | src/yt_dlp/mod.rs:84-125 | each cycle is a full pass started from the store the previous cycle left: the final store is `Cycles` and the downloads are `CycleAttempts`, one list per cycle |
| YouTube.YouTubeConfig.Options | src/youtube/mod.rs:26-31 | the download options copy the thumbnail format and output template unchanged |
| YouTube.ListArgs | src/youtube/mod.rs:96-104 | the channel listing's arguments are exactly those of a yt-dlp module listing with the default limit 10 |
| YouTube.LatestChannelVideos | src/youtube/mod.rs:95-122 | a channel's listing is an error exactly when the lister exits with failure; otherwise every parsed pair, at most half as many as the stdout lines |
| YouTube.GetLatestChannelVideos | src/youtube/mod.rs:95-122 | a failing lister gives `Err(stderr)`; otherwise every parsed pair, untruncated |
| YouTube.ListingMatchesYtDlpDefault | src/youtube/mod.rs:96-121 | the channel listing requests `--playlist-end 10` like a yt-dlp module without a limit; that module's entries are a prefix of these, equal when at most ten pairs are printed |
| YouTube.VideoArgs | src/youtube/mod.rs:126-138 | the fixed download command: eleven words, opening with `--downloader aria2c` and ending with the video URL |
| YouTube.VideoArgsShape | src/youtube/mod.rs:126-138 | the fixed command opens with `--downloader aria2c`, carries the output template after `-o` and the thumbnail format after `--convert-thumbnails` with their defaults, every fixed switch, and ends with the URL |
| YouTube.FixedSwitchesAsYtDlp | src/youtube/mod.rs:126-138 | the fixed switches are exactly those a yt-dlp module enables with every option unset except metadata embedding turned off |
| YouTube.YouTubeModule.constructor | src/youtube/mod.rs:42-48 | the module keeps its configuration, store client and root directory |
| YouTube.YouTubeModule.Name | src/youtube/mod.rs:52-54 | the name is "YouTube" |
| YouTube.YouTubeModule.Lister | src/youtube/mod.rs:61 | the channel listing call: an error exactly when the lister exits with failure |
| YouTube.YouTubeModule.Succeeds | src/youtube/mod.rs:67-72 | `download_video` returns `Ok` exactly when the fixed command ran and exited successfully |
| YouTube.YouTubeModule.Pass | src/youtube/mod.rs:59-89 | one pass over the configured channels in iteration order, from the store's URL column; the column only grows |
| YouTube.YouTubeModule.PassAttempts | src/youtube/mod.rs:59-84 | a pass never downloads a URL already stored, never downloads again a URL it already downloaded successfully, downloads only into `root_dir/channel` for a configured channel whose listing holds the URL, and the store only grows |
| YouTube.YouTubeModule.DownloadVideo | src/youtube/mod.rs:124-148 | runs the fixed command in the channel directory and returns its outcome |
| YouTube.YouTubeModule.VisitVideos | src/youtube/mod.rs:63-83 | the loop over a channel's videos has exactly the effect of `Poll.EntriesPass` |
| YouTube.YouTubeModule.VisitChannel | src/youtube/mod.rs:60-88 | the body of the channel loop has exactly the effect of `Poll.ItemPass` with the module's lister and fixed download command |
| YouTube.YouTubeModule.Run | src/youtube/mod.rs:56-91 | exactly one pass over the channels, with the effect of `Poll.ItemsPass` |
| SoundCloud.Translate | src/soundcloud/mod.rs:55-78 | the inner yt-dlp configuration `new` builds: the artists become its items, limit and interval are kept, it is named "soundcloud" and extracts audio |
| SoundCloud.TranslateFixed | src/soundcloud/mod.rs:56-77 | the inner configuration always extracts audio, writes thumbnails converted to jpg, writes no info.json, embeds no subtitles and is named "soundcloud" |
| SoundCloud.TranslateDefaults | src/soundcloud/mod.rs:63-73 | the description and the four embedding options are never unset: an explicit value is kept, absence becomes true |
| SoundCloud.TranslatePassThrough | src/soundcloud/mod.rs:58-76 | interval, limit, output template, comments, subtitles, audio format, chapter splitting, format and cookie pass through unchanged, and the artists become the items |
| SoundCloud.WriteCoverIgnored | src/soundcloud/mod.rs:26-83 | the `write_cover` option has no effect on the translated configuration |
| SoundCloud.SoundCloudCommand | src/soundcloud/mod.rs:53-83 | the inner download command extracts audio and writes thumbnails, never writes info.json or embeds subtitles, and has description and embedding switches unless explicitly turned off |
| SoundCloud.SoundCloudModule.constructor | src/soundcloud/mod.rs:53-83 | the inner yt-dlp module gets the translated configuration, the store client and the root directory |
| SoundCloud.SoundCloudModule.Name | src/soundcloud/mod.rs:87-89 | the name is "SoundCloud", distinct from the inner module's "soundcloud" |
| SoundCloud.SoundCloudModule.Run | src/soundcloud/mod.rs:91-93 | running the module is running the inner yt-dlp module's poll loop: same final store (`Cycles`) and same downloads (`CycleAttempts`) |

## Left out

- Threads and channels: the `jobdispatcher`/`mpsc` plumbing, blocking, fairness and interleaving between module threads. The actor is modelled as a sequential processor of a job queue.
- Db.DatabaseBackend.Run: the source loop ends only when receiving fails; the model drains a finite queue and ends when it is empty.
- SQLite itself, the second connection opened for each check (`src/db.rs:54`) and the `id` column. A row is its URL and its timestamp.
- `chrono` timestamps: replaced by the backend's `clock` function; their RFC 3339 format is not modelled.
- YtDlp.YtDlpModule.Run: the source loops forever; the model runs one cycle per given oracle, a finite prefix of that loop.
- `thread::sleep` between cycles, the `interval * 60` seconds computation and all logging.
- Panics: `unwrap` on SQLite and UTF-8 errors and `expect` when the lister cannot be spawned are not modelled. A lister run and a download run are both assumed to finish: `.output()` has no time-out (`src/yt_dlp/mod.rs:223`, `src/youtube/mod.rs:139`), and a process that never exits is not modelled. The lister's stderr is taken as already decoded text.
- UTF-8 decoding of stdout lines: each line is given as decoded text or as undecodable. Lossy decoding of a downloader's stderr is likewise taken as given text.
- `ensure_dir_exists` (`src/lib.rs`) and the working directory itself: a directory is a path value passed to the download oracle.
- `PathBuf::join` with an absolute item name (which replaces the root): paths are component sequences and joining always appends.
- `u64` bounds on `interval` and `limit`, and the `limit as usize` cast: both are unbounded naturals.
- `HashMap` iteration order: the order is a parameter that must enumerate the keys once each; no particular order is assumed.
- `src/main.rs` (environment, logging, reading `config.toml`, spawning module threads), `src/config.rs`, `src/yt_dlp/config.rs` and the `Module` interface in `src/lib.rs` are not part of this model: they are wiring and plain data without logic of their own.
- YouTube.FixedSwitchesAsYtDlp: states that the switch sets agree and that both commands end the same way, not that the two argument vectors are permutations of each other.
- Poll.EntriesStoredIff: within one pass the download oracle `ok` is a fixed function, so repeated identical downloads are assumed to give identical outcomes. The source spawns a fresh yt-dlp at every call, so a URL listed twice whose first download fails could have its second download succeed. The iff holds partly because of this assumption, and so does `Poll.NoDownloadAfterSuccess` when read as "a repeated URL failed both times".
- Poll.StoredAfterPassIff: the same assumption for whole passes, and for listings too. Two items with the same locator get one identical listing, and two downloads of the same URL into the same directory get one identical outcome.
