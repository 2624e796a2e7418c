/**
 * Reading the lister's stdout (`--print title,webpage_url`) back into
 * (title, url) entries: lines are taken two at a time, title first.
 */
module Listing {
  import opened Process

  /** One listed video: its title and its page URL. */
  datatype Entry = Entry(title: string, url: string)

  /** The entry one (title, url) line pair yields; a pair with an undecodable line yields none. */
  function Pair(title: Line, url: Line): (r: seq<Entry>)
    ensures |r| <= 1
    ensures |r| == 1 <==> title.Text? && url.Text?
    ensures |r| == 1 ==> r[0].title == title.text && r[0].url == url.text
  {
    if title.Text? && url.Text? then [Entry(title.text, url.text)] else []
  }

  /** The entries a listing's lines hold, in order; an odd trailing line is ignored. */
  function Pairs(lines: seq<Line>): (entries: seq<Entry>)
    ensures 2 * |entries| <= |lines|
    decreases |lines|
  {
    if |lines| < 2 then [] else Pair(lines[0], lines[1]) + Pairs(lines[2..])
  }

  /** What the lister prints for a list of entries: each title line followed by its URL line. */
  function Render(entries: seq<Entry>): (lines: seq<Line>)
    ensures |lines| == 2 * |entries|
  {
    if entries == [] then []
    else [Text(entries[0].title), Text(entries[0].url)] + Render(entries[1..])
  }

  /** `Iterator::take(n)` on a vector of entries: the first `n`, or all when there are fewer. */
  function Take(entries: seq<Entry>, n: nat): (r: seq<Entry>)
    ensures r <= entries
    ensures |r| == if n < |entries| then n else |entries|
  {
    if n < |entries| then entries[..n] else entries
  }

  /**
   * The pairing loop: consumes two lines per round, keeps the pair when both
   * decoded, and stops when fewer than two lines remain.
   */
  method ParseLines(lines: seq<Line>) returns (videos: seq<Entry>)
    ensures videos == Pairs(lines)
  {
    videos := [];
    var i := 0;
    while i + 1 < |lines|
      invariant 0 <= i <= |lines| && i % 2 == 0
      invariant videos == Pairs(lines[..i])
    {
      var title, url := lines[i], lines[i + 1];
      if title.Text? && url.Text? {
        videos := videos + [Entry(title.text, url.text)];
      }
      assert lines[..i + 2] == lines[..i] + [title, url];
      assert Pairs([title, url]) == Pair(title, url) + Pairs([]);
      PairsAppend(lines[..i], [title, url]);
      i := i + 2;
    }
    if i < |lines| {
      assert lines == lines[..i] + [lines[i]];
      PairsDropsOddLine(lines[..i], lines[i]);
    } else {
      assert lines[..i] == lines;
    }
  }

  /** Pairing splits at any even boundary: a skipped pair does not stop the lines after it. */
  lemma {:induction false} PairsAppend(a: seq<Line>, b: seq<Line>)
    requires |a| % 2 == 0
    ensures Pairs(a + b) == Pairs(a) + Pairs(b)
  {
    if a != [] {
      assert (a + b)[2..] == a[2..] + b;
      PairsAppend(a[2..], b);
    } else {
      assert a + b == b;
    }
  }

  /** A trailing line without a partner contributes nothing. */
  lemma {:induction false} PairsDropsOddLine(lines: seq<Line>, last: Line)
    requires |lines| % 2 == 0
    ensures Pairs(lines + [last]) == Pairs(lines)
  {
    PairsAppend(lines, [last]);
  }

  /** A pair with an undecodable line is skipped and pairing goes on with the lines after it. */
  lemma {:induction false} PairsSkipsUndecodable(title: Line, url: Line, rest: seq<Line>)
    requires title.Undecodable? || url.Undecodable?
    ensures Pairs([title, url] + rest) == Pairs(rest)
  {
    PairsAppend([title, url], rest);
  }

  /** An entry is listed exactly when some title line at an even position and the URL line after it decode to it. */
  lemma {:induction false} PairsMembership(lines: seq<Line>, e: Entry)
    ensures e in Pairs(lines) <==>
            exists i :: 0 <= i < |lines| - 1 && i % 2 == 0 && lines[i] == Text(e.title) && lines[i + 1] == Text(e.url)
    decreases |lines|
  {
    if |lines| >= 2 {
      var rest := lines[2..];
      PairsMembership(rest, e);
      if e in Pairs(rest) {
        var j :| 0 <= j < |rest| - 1 && j % 2 == 0 && rest[j] == Text(e.title) && rest[j + 1] == Text(e.url);
        assert lines[j + 2] == rest[j] && lines[j + 3] == rest[j + 1];
      }
      if exists i :: 0 <= i < |lines| - 1 && i % 2 == 0 && lines[i] == Text(e.title) && lines[i + 1] == Text(e.url) {
        var i :| 0 <= i < |lines| - 1 && i % 2 == 0 && lines[i] == Text(e.title) && lines[i + 1] == Text(e.url);
        if i >= 2 {
          assert rest[i - 2] == lines[i] && rest[i - 1] == lines[i + 1];
        }
      }
    }
  }

  /** When every line decodes, the k-th entry is built from lines 2k and 2k+1. */
  lemma {:induction false} PairsOfDecodedLines(lines: seq<Line>)
    requires forall i :: 0 <= i < |lines| ==> lines[i].Text?
    ensures |Pairs(lines)| == |lines| / 2
    ensures forall k :: 0 <= k < |lines| / 2 ==> Pairs(lines)[k] == Entry(lines[2 * k].text, lines[2 * k + 1].text)
    decreases |lines|
  {
    if |lines| >= 2 {
      var rest := lines[2..];
      PairsOfDecodedLines(rest);
      forall k | 1 <= k < |lines| / 2
        ensures Pairs(lines)[k] == Entry(lines[2 * k].text, lines[2 * k + 1].text)
      {
        assert Pairs(lines)[k] == Pairs(rest)[k - 1];
        assert rest[2 * (k - 1)] == lines[2 * k];
      }
    }
  }

  /** Reading back what the lister printed gives the entries it printed, in order. */
  lemma {:induction false} PairsRender(entries: seq<Entry>)
    ensures Pairs(Render(entries)) == entries
    decreases |entries|
  {
    if entries != [] {
      var lines := Render(entries);
      assert lines[2..] == Render(entries[1..]);
      PairsRender(entries[1..]);
    }
  }
}
