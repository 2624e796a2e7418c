/**
 * The meaning of one pass of a module's poll loop, independent of which
 * module runs it: for each configured item, list its entries; for each entry,
 * skip it when its URL is already stored, otherwise download it and record the
 * URL only when the download succeeded; an item whose listing fails is skipped.
 *
 * The store is seen through its URL column (`stored`, in insertion order) and
 * the pass also reports every download it started (`attempts`, in order).
 */
module Poll {
  import opened Common
  import opened Listing

  /** One configured item: its name (the sub-directory) and the locator handed to the lister. */
  datatype Item = Item(name: string, locator: string)

  /** `order` visits every key of the configuration map exactly once (the map's iteration order is unspecified). */
  predicate Enumerates(order: seq<string>, items: map<string, string>) {
    && (forall i :: 0 <= i < |order| ==> order[i] in items)
    && (forall name :: name in items ==> name in order)
    && (forall i, j :: 0 <= i < j < |order| ==> order[i] != order[j])
  }

  /** The configured items in iteration order. */
  function Items(items: map<string, string>, order: seq<string>): (r: seq<Item>)
    requires forall i :: 0 <= i < |order| ==> order[i] in items
    ensures |r| == |order|
    ensures forall i :: 0 <= i < |order| ==> r[i] == Item(order[i], items[order[i]])
  {
    seq(|order|, i requires 0 <= i < |order| => Item(order[i], items[order[i]]))
  }

  /** One started download: the directory it ran in and the URL it fetched. */
  datatype Attempt = Attempt(dir: Path, url: string)

  /** The URL column of the store, and the downloads started so far. */
  datatype Progress = Progress(stored: seq<string>, attempts: seq<Attempt>)

  /** One listed entry: skipped when stored, else downloaded, and recorded only on success. */
  function Visit(p: Progress, dir: Path, url: string, ok: (Path, string) -> bool): (r: Progress)
    ensures p.stored <= r.stored && p.attempts <= r.attempts
    ensures |r.stored| - |p.stored| <= |r.attempts| - |p.attempts| <= 1
  {
    if url in p.stored then p
    else if ok(dir, url) then Progress(p.stored + [url], p.attempts + [Attempt(dir, url)])
    else Progress(p.stored, p.attempts + [Attempt(dir, url)])
  }

  /** The inner loop: every entry of one item's listing, in listing order. */
  function EntriesPass(p: Progress, dir: Path, entries: seq<Entry>, ok: (Path, string) -> bool): (r: Progress)
    ensures p.stored <= r.stored && p.attempts <= r.attempts
    decreases |entries|
  {
    if entries == [] then p
    else Visit(EntriesPass(p, dir, entries[..|entries| - 1], ok), dir, entries[|entries| - 1].url, ok)
  }

  /** One item: list it; on failure skip it, otherwise visit its entries in `root/name`. */
  function ItemPass(p: Progress, root: Path, item: Item, list: string -> Result<seq<Entry>, string>,
                    ok: (Path, string) -> bool): (r: Progress)
    ensures list(item.locator).Err? ==> r == p
    ensures p.stored <= r.stored && p.attempts <= r.attempts
  {
    match list(item.locator)
    case Err(_) => p
    case Ok(entries) => EntriesPass(p, Join(root, item.name), entries, ok)
  }

  /** The outer loop: every item, in the order the configuration map is iterated. */
  function ItemsPass(p: Progress, root: Path, items: seq<Item>, list: string -> Result<seq<Entry>, string>,
                     ok: (Path, string) -> bool): (r: Progress)
    ensures p.stored <= r.stored && p.attempts <= r.attempts
    decreases |items|
  {
    if items == [] then p
    else ItemPass(ItemsPass(p, root, items[..|items| - 1], list, ok), root, items[|items| - 1], list, ok)
  }

  /** One more item is one more item step, from where the earlier items left the pass. */
  lemma ItemsPassStep(p: Progress, root: Path, items: seq<Item>, i: nat, list: string -> Result<seq<Entry>, string>,
                      ok: (Path, string) -> bool)
    requires i < |items|
    ensures ItemsPass(p, root, items[..i + 1], list, ok) == ItemPass(ItemsPass(p, root, items[..i], list, ok), root, items[i], list, ok)
  {
    assert items[..i + 1][..i] == items[..i];
  }

  /** `url` is listed for `item` and downloading it into the item's directory succeeds. */
  ghost predicate OfferedBy(root: Path, item: Item, list: string -> Result<seq<Entry>, string>,
                            ok: (Path, string) -> bool, url: string)
  {
    && list(item.locator).Ok?
    && ok(Join(root, item.name), url)
    && exists e :: e in list(item.locator).value && e.url == url
  }

  /** Some item lists `url` with a download that succeeds. */
  ghost predicate Offered(root: Path, items: seq<Item>, list: string -> Result<seq<Entry>, string>,
                          ok: (Path, string) -> bool, url: string)
  {
    exists i :: 0 <= i < |items| && OfferedBy(root, items[i], list, ok, url)
  }

  /** Some item's successful listing holds an entry for `url`. */
  ghost predicate Listed(items: seq<Item>, list: string -> Result<seq<Entry>, string>, url: string) {
    exists i :: 0 <= i < |items| && ListedBy(items[i], list, url)
  }

  ghost predicate ListedBy(item: Item, list: string -> Result<seq<Entry>, string>, url: string) {
    list(item.locator).Ok? && exists e :: e in list(item.locator).value && e.url == url
  }

  /** A download of `url` was started between progress `p` and progress `r`. */
  ghost predicate AttemptedSince(p: Progress, r: Progress, url: string)
    requires |p.attempts| <= |r.attempts|
  {
    exists k :: |p.attempts| <= k < |r.attempts| && r.attempts[k].url == url
  }

  /**
   * What one entry step guarantees: nothing is forgotten, an attempt is
   * started only for an unstored URL, and a URL is recorded only by a
   * successful attempt of it.
   */
  ghost predicate Sound(p: Progress, r: Progress, ok: (Path, string) -> bool) {
    && p.stored <= r.stored
    && p.attempts <= r.attempts
    && (forall k :: |p.attempts| <= k < |r.attempts| ==> r.attempts[k].url !in p.stored)
    && (forall k :: |p.stored| <= k < |r.stored| ==> SucceededSince(p, r, ok, r.stored[k]))
  }

  /** A download of `url` started between `p` and `r` succeeded. */
  ghost predicate SucceededSince(p: Progress, r: Progress, ok: (Path, string) -> bool, url: string) {
    exists j :: |p.attempts| <= j < |r.attempts| && r.attempts[j].url == url && ok(r.attempts[j].dir, url)
  }

  lemma SoundVisit(p: Progress, dir: Path, url: string, ok: (Path, string) -> bool)
    ensures Sound(p, Visit(p, dir, url, ok), ok)
  {
    var r := Visit(p, dir, url, ok);
    if url !in p.stored && ok(dir, url) {
      assert r.attempts[|p.attempts|].url == r.stored[|p.stored|];
    }
  }

  lemma SoundTrans(p: Progress, q: Progress, r: Progress, ok: (Path, string) -> bool)
    requires Sound(p, q, ok) && Sound(q, r, ok)
    ensures Sound(p, r, ok)
  {
    forall k | |p.attempts| <= k < |r.attempts|
      ensures r.attempts[k].url !in p.stored
    {
      if k < |q.attempts| {
        assert r.attempts[k] == q.attempts[k];
      } else {
        assert r.attempts[k].url !in q.stored;
      }
    }
    forall k | |p.stored| <= k < |r.stored|
      ensures SucceededSince(p, r, ok, r.stored[k])
    {
      if k < |q.stored| {
        assert r.stored[k] == q.stored[k];
        var j :| |p.attempts| <= j < |q.attempts| && q.attempts[j].url == q.stored[k] && ok(q.attempts[j].dir, q.stored[k]);
        assert r.attempts[j] == q.attempts[j];
      } else {
        assert |q.stored| <= k < |r.stored|;
        var j :| |q.attempts| <= j < |r.attempts| && r.attempts[j].url == r.stored[k] && ok(r.attempts[j].dir, r.stored[k]);
        assert |p.attempts| <= |q.attempts|;
      }
    }
  }

  lemma SoundItem(p: Progress, root: Path, item: Item, list: string -> Result<seq<Entry>, string>,
                  ok: (Path, string) -> bool)
    ensures Sound(p, ItemPass(p, root, item, list, ok), ok)
  {
    if list(item.locator).Ok? {
      SoundEntries(p, Join(root, item.name), list(item.locator).value, ok);
    }
  }

  lemma {:induction false} SoundEntries(p: Progress, dir: Path, entries: seq<Entry>, ok: (Path, string) -> bool)
    ensures Sound(p, EntriesPass(p, dir, entries, ok), ok)
    decreases |entries|
  {
    if entries != [] {
      var q := EntriesPass(p, dir, entries[..|entries| - 1], ok);
      SoundEntries(p, dir, entries[..|entries| - 1], ok);
      SoundVisit(q, dir, entries[|entries| - 1].url, ok);
      SoundTrans(p, q, EntriesPass(p, dir, entries, ok), ok);
    }
  }

  /**
   * A pass never forgets a stored URL, never downloads a URL that was stored
   * when it began, and records a URL only after a successful download of it.
   */
  lemma {:induction false} PassIsSound(p: Progress, root: Path, items: seq<Item>,
                                       list: string -> Result<seq<Entry>, string>, ok: (Path, string) -> bool)
    ensures Sound(p, ItemsPass(p, root, items, list, ok), ok)
    decreases |items|
  {
    if items != [] {
      var q := ItemsPass(p, root, items[..|items| - 1], list, ok);
      var item := items[|items| - 1];
      PassIsSound(p, root, items[..|items| - 1], list, ok);
      if list(item.locator).Ok? {
        SoundEntries(q, Join(root, item.name), list(item.locator).value, ok);
        SoundTrans(p, q, ItemsPass(p, root, items, list, ok), ok);
      }
    }
  }

  /**
   * Between `p` and `r`, a successful download's URL is stored in `r`, and so
   * a download that a later one in the same run repeats had failed.
   */
  ghost predicate NoRepeatAfterSuccess(p: Progress, r: Progress, ok: (Path, string) -> bool) {
    && |p.attempts| <= |r.attempts|
    && (forall j :: |p.attempts| <= j < |r.attempts| && ok(r.attempts[j].dir, r.attempts[j].url) ==>
          r.attempts[j].url in r.stored)
    && (forall j, k :: |p.attempts| <= j < k < |r.attempts| && r.attempts[j].url == r.attempts[k].url ==>
          !ok(r.attempts[j].dir, r.attempts[j].url))
  }

  /** The property composes: two stretches of a pass that keep it make one that keeps it. */
  lemma NoRepeatTrans(p: Progress, q: Progress, r: Progress, ok: (Path, string) -> bool)
    requires Sound(p, q, ok) && Sound(q, r, ok)
    requires NoRepeatAfterSuccess(p, q, ok) && NoRepeatAfterSuccess(q, r, ok)
    ensures NoRepeatAfterSuccess(p, r, ok)
  {
    forall j | |p.attempts| <= j < |r.attempts| && ok(r.attempts[j].dir, r.attempts[j].url)
      ensures r.attempts[j].url in r.stored
    {
      if j < |q.attempts| {
        assert r.attempts[j] == q.attempts[j];
      }
    }
    forall j, k | |p.attempts| <= j < k < |r.attempts| && r.attempts[j].url == r.attempts[k].url
      ensures !ok(r.attempts[j].dir, r.attempts[j].url)
    {
      if k < |q.attempts| {
        assert r.attempts[j] == q.attempts[j] && r.attempts[k] == q.attempts[k];
      } else if j < |q.attempts| {
        assert r.attempts[j] == q.attempts[j];
        assert r.attempts[k].url !in q.stored;
      }
    }
  }

  /** Within one item's entry loop, a URL is downloaded again only after its earlier downloads failed. */
  lemma {:induction false} EntriesNoRepeatAfterSuccess(p: Progress, dir: Path, entries: seq<Entry>, ok: (Path, string) -> bool)
    ensures NoRepeatAfterSuccess(p, EntriesPass(p, dir, entries, ok), ok)
    decreases |entries|
  {
    if entries != [] {
      var q := EntriesPass(p, dir, entries[..|entries| - 1], ok);
      var r := EntriesPass(p, dir, entries, ok);
      EntriesNoRepeatAfterSuccess(p, dir, entries[..|entries| - 1], ok);
      SoundEntries(p, dir, entries[..|entries| - 1], ok);
      SoundVisit(q, dir, entries[|entries| - 1].url, ok);
      NoRepeatTrans(p, q, r, ok);
    }
  }

  /**
   * A URL recorded earlier in the same pass is not downloaded again: when
   * two downloads of a pass fetch the same URL, the earlier one failed,
   * whether both came from one item or from two items listing it.
   */
  lemma {:induction false} NoDownloadAfterSuccess(p: Progress, root: Path, items: seq<Item>,
                                                  list: string -> Result<seq<Entry>, string>, ok: (Path, string) -> bool)
    ensures var r := ItemsPass(p, root, items, list, ok);
            && (forall j :: |p.attempts| <= j < |r.attempts| && ok(r.attempts[j].dir, r.attempts[j].url) ==>
                  r.attempts[j].url in r.stored)
            && (forall j, k :: |p.attempts| <= j < k < |r.attempts| && r.attempts[j].url == r.attempts[k].url ==>
                  !ok(r.attempts[j].dir, r.attempts[j].url))
  {
    PassNoRepeatAfterSuccess(p, root, items, list, ok);
  }

  /** `NoDownloadAfterSuccess` in predicate form, by induction over the items. */
  lemma {:induction false} PassNoRepeatAfterSuccess(p: Progress, root: Path, items: seq<Item>,
                                                    list: string -> Result<seq<Entry>, string>, ok: (Path, string) -> bool)
    ensures NoRepeatAfterSuccess(p, ItemsPass(p, root, items, list, ok), ok)
    decreases |items|
  {
    if items != [] {
      var q := ItemsPass(p, root, items[..|items| - 1], list, ok);
      var item := items[|items| - 1];
      PassNoRepeatAfterSuccess(p, root, items[..|items| - 1], list, ok);
      PassIsSound(p, root, items[..|items| - 1], list, ok);
      if list(item.locator).Ok? {
        EntriesNoRepeatAfterSuccess(q, Join(root, item.name), list(item.locator).value, ok);
        SoundEntries(q, Join(root, item.name), list(item.locator).value, ok);
        NoRepeatTrans(p, q, ItemsPass(p, root, items, list, ok), ok);
      }
    }
  }

  lemma {:induction false} EntriesStoredIff(p: Progress, dir: Path, entries: seq<Entry>, ok: (Path, string) -> bool, url: string)
    ensures url in EntriesPass(p, dir, entries, ok).stored <==>
            url in p.stored || (ok(dir, url) && exists e :: e in entries && e.url == url)
    decreases |entries|
  {
    if entries != [] {
      var front := entries[..|entries| - 1];
      var last := entries[|entries| - 1];
      EntriesStoredIff(p, dir, front, ok, url);
      assert entries == front + [last];
    }
  }

  /**
   * Order does not matter for what ends up stored: a URL is stored after a
   * pass exactly when it was stored before or some item lists it with a
   * download that succeeds.
   */
  lemma {:induction false} StoredAfterPassIff(p: Progress, root: Path, items: seq<Item>,
                                              list: string -> Result<seq<Entry>, string>, ok: (Path, string) -> bool,
                                              url: string)
    ensures url in ItemsPass(p, root, items, list, ok).stored <==> url in p.stored || Offered(root, items, list, ok, url)
    decreases |items|
  {
    if items != [] {
      var front := items[..|items| - 1];
      var item := items[|items| - 1];
      var q := ItemsPass(p, root, front, list, ok);
      StoredAfterPassIff(p, root, front, list, ok, url);
      if list(item.locator).Ok? {
        EntriesStoredIff(q, Join(root, item.name), list(item.locator).value, ok, url);
      }
      if Offered(root, front, list, ok, url) {
        var i :| 0 <= i < |front| && OfferedBy(root, front[i], list, ok, url);
        assert items[i] == front[i];
      }
      if Offered(root, items, list, ok, url) {
        var i :| 0 <= i < |items| && OfferedBy(root, items[i], list, ok, url);
        if i < |front| {
          assert front[i] == items[i];
        }
      }
    }
  }

  lemma {:induction false} EntriesAttemptListed(p: Progress, dir: Path, entries: seq<Entry>, ok: (Path, string) -> bool, url: string)
    requires url !in p.stored
    requires exists e :: e in entries && e.url == url
    ensures |p.attempts| <= |EntriesPass(p, dir, entries, ok).attempts|
    ensures AttemptedSince(p, EntriesPass(p, dir, entries, ok), url)
    decreases |entries|
  {
    var front := entries[..|entries| - 1];
    var last := entries[|entries| - 1];
    var q := EntriesPass(p, dir, front, ok);
    var r := EntriesPass(p, dir, entries, ok);
    SoundEntries(p, dir, front, ok);
    SoundVisit(q, dir, last.url, ok);
    assert entries == front + [last];
    if exists e :: e in front && e.url == url {
      EntriesAttemptListed(p, dir, front, ok, url);
      var k :| |p.attempts| <= k < |q.attempts| && q.attempts[k].url == url;
      assert r.attempts[k] == q.attempts[k];
    } else if url in q.stored {
      var k :| 0 <= k < |q.stored| && q.stored[k] == url;
      assert k >= |p.stored|;
      var j :| |p.attempts| <= j < |q.attempts| && q.attempts[j].url == q.stored[k] && ok(q.attempts[j].dir, q.stored[k]);
      assert r.attempts[j] == q.attempts[j];
    } else {
      assert last.url == url;
      assert r.attempts[|q.attempts|].url == url;
    }
  }

  /**
   * A failed download does not stop the pass: every URL some item lists,
   * and that was not stored when the pass began, gets a download started.
   */
  lemma {:induction false} ListedIsAttempted(p: Progress, root: Path, items: seq<Item>,
                                             list: string -> Result<seq<Entry>, string>, ok: (Path, string) -> bool,
                                             url: string)
    requires url !in p.stored && Listed(items, list, url)
    ensures |p.attempts| <= |ItemsPass(p, root, items, list, ok).attempts|
    ensures AttemptedSince(p, ItemsPass(p, root, items, list, ok), url)
    decreases |items|
  {
    var front := items[..|items| - 1];
    var item := items[|items| - 1];
    var q := ItemsPass(p, root, front, list, ok);
    var r := ItemsPass(p, root, items, list, ok);
    PassIsSound(p, root, front, list, ok);
    SoundItem(q, root, item, list, ok);
    if Listed(front, list, url) {
      ListedIsAttempted(p, root, front, list, ok, url);
      var k :| |p.attempts| <= k < |q.attempts| && q.attempts[k].url == url;
      assert r.attempts[k] == q.attempts[k];
    } else {
      var i :| 0 <= i < |items| && ListedBy(items[i], list, url);
      assert i == |front|;
      var dir := Join(root, item.name);
      if url in q.stored {
        var k :| 0 <= k < |q.stored| && q.stored[k] == url;
        assert k >= |p.stored|;
        var j :| |p.attempts| <= j < |q.attempts| && q.attempts[j].url == q.stored[k] && ok(q.attempts[j].dir, q.stored[k]);
        assert r.attempts[j] == q.attempts[j];
      } else {
        EntriesAttemptListed(q, dir, list(item.locator).value, ok, url);
        var k :| |q.attempts| <= k < |r.attempts| && r.attempts[k].url == url;
      }
    }
  }

  /** An attempt ran in the directory of an item whose listing holds its URL. */
  ghost predicate FromListing(root: Path, items: seq<Item>, list: string -> Result<seq<Entry>, string>, a: Attempt) {
    exists i :: 0 <= i < |items| && a.dir == Join(root, items[i].name) && ListedBy(items[i], list, a.url)
  }

  /** Every download the entry loop starts runs in `dir` and fetches one of the entries. */
  lemma {:induction false} EntriesAttemptsListed(p: Progress, dir: Path, entries: seq<Entry>, ok: (Path, string) -> bool)
    ensures var r := EntriesPass(p, dir, entries, ok);
            && p.attempts <= r.attempts
            && forall k :: |p.attempts| <= k < |r.attempts| ==>
                 r.attempts[k].dir == dir && exists e :: e in entries && e.url == r.attempts[k].url
    decreases |entries|
  {
    if entries != [] {
      var front := entries[..|entries| - 1];
      var last := entries[|entries| - 1];
      var q := EntriesPass(p, dir, front, ok);
      var r := EntriesPass(p, dir, entries, ok);
      EntriesAttemptsListed(p, dir, front, ok);
      forall k | |p.attempts| <= k < |r.attempts|
        ensures r.attempts[k].dir == dir && exists e :: e in entries && e.url == r.attempts[k].url
      {
        if k < |q.attempts| {
          assert r.attempts[k] == q.attempts[k];
          var e :| e in front && e.url == q.attempts[k].url;
          assert e in entries;
        } else {
          assert r.attempts[k] == Attempt(dir, last.url);
          assert last in entries;
        }
      }
    }
  }

  /**
   * Every download a pass starts runs in `root/name` for some item `name`
   * whose successful listing holds the URL it fetches.
   */
  lemma {:induction false} AttemptsComeFromListings(p: Progress, root: Path, items: seq<Item>,
                                                    list: string -> Result<seq<Entry>, string>, ok: (Path, string) -> bool)
    ensures var r := ItemsPass(p, root, items, list, ok);
            && p.attempts <= r.attempts
            && forall k :: |p.attempts| <= k < |r.attempts| ==> FromListing(root, items, list, r.attempts[k])
    decreases |items|
  {
    if items != [] {
      var front := items[..|items| - 1];
      var item := items[|items| - 1];
      var q := ItemsPass(p, root, front, list, ok);
      var r := ItemsPass(p, root, items, list, ok);
      AttemptsComeFromListings(p, root, front, list, ok);
      if list(item.locator).Ok? {
        EntriesAttemptsListed(q, Join(root, item.name), list(item.locator).value, ok);
      }
      forall k | |p.attempts| <= k < |r.attempts|
        ensures FromListing(root, items, list, r.attempts[k])
      {
        if k < |q.attempts| {
          assert r.attempts[k] == q.attempts[k];
          var i :| 0 <= i < |front| && q.attempts[k].dir == Join(root, front[i].name) && ListedBy(front[i], list, q.attempts[k].url);
          assert items[i] == front[i];
        } else {
          assert items[|front|] == item;
        }
      }
    }
  }

  /** Running two runs of items one after the other is running their concatenation. */
  lemma {:induction false} ItemsPassConcat(p: Progress, root: Path, a: seq<Item>, b: seq<Item>,
                                           list: string -> Result<seq<Entry>, string>, ok: (Path, string) -> bool)
    ensures ItemsPass(p, root, a + b, list, ok) == ItemsPass(ItemsPass(p, root, a, list, ok), root, b, list, ok)
    decreases |b|
  {
    if b == [] {
      assert a + b == a;
    } else {
      assert (a + b)[..|a + b| - 1] == a + b[..|b| - 1];
      ItemsPassConcat(p, root, a, b[..|b| - 1], list, ok);
    }
  }

  /** An item whose listing fails is skipped: the pass is the pass over the other items. */
  lemma ListingFailureSkipsItem(p: Progress, root: Path, items: seq<Item>, i: nat,
                                list: string -> Result<seq<Entry>, string>, ok: (Path, string) -> bool)
    requires i < |items| && list(items[i].locator).Err?
    ensures ItemsPass(p, root, items, list, ok) == ItemsPass(p, root, items[..i] + items[i + 1..], list, ok)
  {
    assert items == items[..i] + ([items[i]] + items[i + 1..]);
    ItemsPassConcat(p, root, items[..i], [items[i]] + items[i + 1..], list, ok);
    ItemsPassConcat(ItemsPass(p, root, items[..i], list, ok), root, [items[i]], items[i + 1..], list, ok);
    assert [items[i]][..0] == [];
    ItemsPassConcat(p, root, items[..i], items[i + 1..], list, ok);
  }

  /**
   * A download that fails is retried on the next pass: if no item of this
   * pass offered the URL a successful download, it is still unstored
   * afterwards, and the next pass that lists it starts a download of it again.
   */
  lemma FailedDownloadIsRetried(p: Progress, root: Path, items: seq<Item>,
                                list: string -> Result<seq<Entry>, string>, ok: (Path, string) -> bool,
                                nextList: string -> Result<seq<Entry>, string>, nextOk: (Path, string) -> bool,
                                url: string)
    requires url !in p.stored && !Offered(root, items, list, ok, url)
    requires Listed(items, nextList, url)
    ensures url !in ItemsPass(p, root, items, list, ok).stored
    ensures var q := ItemsPass(p, root, items, list, ok);
            var r := ItemsPass(q, root, items, nextList, nextOk);
            |q.attempts| <= |r.attempts| && AttemptedSince(q, r, url)
  {
    var q := ItemsPass(p, root, items, list, ok);
    StoredAfterPassIff(p, root, items, list, ok, url);
    ListedIsAttempted(q, root, items, nextList, nextOk, url);
  }
}
