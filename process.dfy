/**
 * The external `yt-dlp` executable, seen from the modules that spawn it.
 * Nothing here runs a process: a run is an oracle from its argument vector
 * (and working directory) to what the process reported.
 */
module Process {
  import opened Common

  /** One item of `BufRead::lines` over the lister's stdout: a decoded line, or a line that is not UTF-8. */
  datatype Line = Text(text: string) | Undecodable

  /** What a finished listing run reports: its exit status, its stdout split into lines, and its stderr. */
  datatype ListerRun = ListerRun(success: bool, stdout: seq<Line>, stderr: string)

  /** What a download run reports: the process could not be spawned, or it exited with a status and stderr. */
  datatype DownloaderRun = SpawnFailed | Exited(success: bool, stderr: string)

  /**
   * The `yt-dlp` executable as an oracle: `list` answers a listing argument
   * vector, `fetch` answers a download argument vector run in a directory.
   */
  datatype Tool = Tool(list: seq<string> -> ListerRun, fetch: (Path, seq<string>) -> DownloaderRun)

  /** The message a download reports when the process cannot be spawned. */
  const SpawnFailure := "yt-dlp command failed"

  /**
   * How both download helpers turn a run into their result: a spawn failure
   * becomes a fixed message, a failing exit carries stderr, success is `Ok`.
   */
  function DownloadOutcome(run: DownloaderRun): (r: Result<(), string>)
    ensures r.Ok? <==> run.Exited? && run.success
    ensures run.SpawnFailed? ==> r == Err(SpawnFailure)
    ensures run.Exited? && !run.success ==> r == Err(run.stderr)
  {
    match run
    case SpawnFailed => Err(SpawnFailure)
    case Exited(success, stderr) => if success then Ok(()) else Err(stderr)
  }
}
