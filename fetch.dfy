/** Search and Details, the two operations that crawl a paginated listing: the
    query Search sends, the page urls it and Details hand to their crawlers, and
    the list they assemble from the merged records. The HTTP requests are taken as
    given: the pagination links of the first page, the status codes and the events
    the page parsers send are parameters. */
module Fetch {
  import opened Wrappers
  import opened GoStrings
  import opened GoStrconv
  import opened Library
  import opened Irrenhaus
  import opened Torrent
  import opened Details
  import opened Crawl
  import opened Pattern
  import Shoutbox

  // ----- The search query -----

  /** The key of one category flag, `fmt.Sprintf("c%d", cat)`. */
  function FlagKey(c: int): (k: string)
    ensures |k| > 1 && k[0] == 'c' && k[1] != 'a'
  {
    "c" + Itoa(c)
  }

  lemma FlagKeyInjective(a: int, b: int)
    requires FlagKey(a) == FlagKey(b)
    ensures a == b
  {
    assert FlagKey(a)[1..] == Itoa(a);
    assert FlagKey(b)[1..] == Itoa(b);
    ItoaInjective(a, b);
  }

  /** The flag keys of some categories. */
  function FlagKeys(cats: seq<int>): set<string>
  {
    set c | c in cats :: FlagKey(c)
  }

  /** `for _, cat := range categories { data.Add(fmt.Sprintf("c%d", cat), "1") }`. */
  function CategoryFlags(v: Values, cats: seq<int>): Values
  {
    if |cats| == 0 then v
    else Added(CategoryFlags(v, cats[..|cats| - 1]), FlagKey(cats[|cats| - 1]), "1")
  }

  /** n copies of "1". */
  function Ones(n: nat): (r: seq<string>)
    ensures |r| == n && forall i :: 0 <= i < n ==> r[i] == "1"
  {
    seq(n, _ => "1")
  }

  /** Adding the flags adds one key per category. */
  lemma {:induction false} CategoryFlagsKeys(v: Values, cats: seq<int>)
    ensures CategoryFlags(v, cats).Keys == v.Keys + FlagKeys(cats)
    decreases |cats|
  {
    if |cats| > 0 {
      var pre, x := cats[..|cats| - 1], cats[|cats| - 1];
      assert cats == pre + [x];
      CategoryFlagsKeys(v, pre);
      assert FlagKeys(cats) == FlagKeys(pre) + {FlagKey(x)};
    }
  }

  /** Adding the flags leaves the keys that are no flag key of theirs alone. */
  lemma {:induction false} CategoryFlagsOthers(v: Values, cats: seq<int>, k: string)
    requires k in v && k !in FlagKeys(cats)
    ensures k in CategoryFlags(v, cats) && CategoryFlags(v, cats)[k] == v[k]
    decreases |cats|
  {
    if |cats| > 0 {
      var pre, x := cats[..|cats| - 1], cats[|cats| - 1];
      assert x in cats;
      assert k != FlagKey(x);
      assert FlagKeys(pre) <= FlagKeys(cats);
      CategoryFlagsOthers(v, pre, k);
    }
  }

  /** A new flag key gets one "1" per time its category is listed. */
  lemma {:induction false} CategoryFlagCount(v: Values, cats: seq<int>, c: int)
    requires FlagKey(c) !in v
    ensures c in cats ==> FlagKey(c) in CategoryFlags(v, cats) && CategoryFlags(v, cats)[FlagKey(c)] == Ones(multiset(cats)[c])
    ensures c !in cats ==> FlagKey(c) !in CategoryFlags(v, cats)
    decreases |cats|
  {
    if |cats| > 0 {
      var pre, x := cats[..|cats| - 1], cats[|cats| - 1];
      assert cats == pre + [x];
      CategoryFlagCount(v, pre, c);
      if FlagKey(c) == FlagKey(x) {
        FlagKeyInjective(c, x);
      }
      if c == x {
        assert Ones(multiset(pre)[x]) + ["1"] == Ones(multiset(pre)[x] + 1);
      }
    }
  }

  const SearchKeys := {"search", "incldead", "orderby"}

  /** The query Search starts from. */
  function BaseValues(needle: string, dead: bool): Values
  {
    map["search" := [needle], "incldead" := [Itoa(if dead then 1 else 0)], "orderby" := ["added"]]
  }

  /** The values of the search query. */
  function SearchValues(needle: string, categories: seq<int>, dead: bool): Values
  {
    var v := BaseValues(needle, dead);
    if |categories| == 1 then Added(v, "cat", Itoa(categories[0]))
    else CategoryFlags(v, categories)
  }

  /** The search query starts with the needle, incldead as 1 or 0 and orderby=added. */
  lemma BaseValuesShape(needle: string, dead: bool)
    ensures BaseValues(needle, dead).Keys == SearchKeys
    ensures BaseValues(needle, dead)["search"] == [needle] && BaseValues(needle, dead)["orderby"] == ["added"]
    ensures BaseValues(needle, dead)["incldead"] == (if dead then ["1"] else ["0"])
  {
    assert Itoa(1) == "1" && Itoa(0) == "0";
  }

  /** Then it names a single category as cat=<id>, ... */
  lemma OneCategory(needle: string, categories: seq<int>, dead: bool)
    requires |categories| == 1
    ensures SearchValues(needle, categories, dead).Keys == SearchKeys + {"cat"}
    ensures SearchValues(needle, categories, dead)["cat"] == [Itoa(categories[0])]
    ensures forall k :: k in SearchKeys ==> SearchValues(needle, categories, dead)[k] == BaseValues(needle, dead)[k]
  {
    BaseValuesShape(needle, dead);
  }

  /** No flag key is "cat". */
  lemma CatIsNoFlag(cats: seq<int>)
    ensures "cat" !in FlagKeys(cats)
  {
    forall c | c in cats
      ensures FlagKey(c) != "cat"
    {
      assert "cat"[1] == 'a';
    }
  }

  /** ... and any other number of them, none included, as c<id>=1 per category, ... */
  lemma FlagKeysAdded(needle: string, categories: seq<int>, dead: bool)
    requires |categories| != 1
    ensures SearchValues(needle, categories, dead).Keys == SearchKeys + FlagKeys(categories)
    ensures "cat" !in SearchValues(needle, categories, dead)
  {
    BaseValuesShape(needle, dead);
    CategoryFlagsKeys(BaseValues(needle, dead), categories);
    CatIsNoFlag(categories);
  }

  /** ... with one "1" for each time the category is listed, the first three keys
      as they were. */
  lemma CategoryFlagsAdded(needle: string, categories: seq<int>, dead: bool)
    requires |categories| != 1
    ensures forall k :: k in SearchKeys ==>
      k in SearchValues(needle, categories, dead) && SearchValues(needle, categories, dead)[k] == BaseValues(needle, dead)[k]
    ensures forall c :: c in categories ==>
      FlagKey(c) in SearchValues(needle, categories, dead)
      && SearchValues(needle, categories, dead)[FlagKey(c)] == Ones(multiset(categories)[c])
  {
    var base := BaseValues(needle, dead);
    BaseValuesShape(needle, dead);
    forall k | k in SearchKeys
      ensures k in SearchValues(needle, categories, dead) && SearchValues(needle, categories, dead)[k] == base[k]
    {
      CategoryFlagsOthers(base, categories, k);
    }
    forall c | c in categories
      ensures FlagKey(c) in SearchValues(needle, categories, dead)
        && SearchValues(needle, categories, dead)[FlagKey(c)] == Ones(multiset(categories)[c])
    {
      CategoryFlagCount(base, categories, c);
    }
  }

  /** The query building of Search, on the url.Values it fills in place. */
  method BuildSearchQuery(needle: string, categories: seq<int>, dead: bool) returns (q: Query)
    ensures fresh(q) && q.values == SearchValues(needle, categories, dead)
  {
    var deadint := 0;
    if dead {
      deadint := 1;
    }
    q := new Query(map["search" := [needle], "incldead" := [Itoa(deadint)], "orderby" := ["added"]]);
    if |categories| == 1 {
      q.Add("cat", Itoa(categories[0]));
    } else {
      for i := 0 to |categories|
        invariant q.values == CategoryFlags(BaseValues(needle, dead), categories[..i])
      {
        assert categories[..i + 1][..i] == categories[..i];
        q.Add(FlagKey(categories[i]), "1");
      }
      assert categories[..|categories|] == categories;
    }
  }

  // ----- Search -----

  /** What the merge keys torrents and snatches by. */
  function TorrentId(t: TorrentEntry): int
  {
    t.id
  }

  function SnatchName(s: Snatch): string
  {
    s.name
  }

  /** Search, given the pagination links of the first result page (the hrefs of
      `p[align=center] a`) and the events its page parsers send: the url of the
      first page, the urls of the pages crawled after it, and the merged torrents.
      One page parser reads the first page and one is started per page 1..maxpage,
      so the merge waits for maxpage + 1 finished signals. */
  method SearchPages(encode: Values -> string, base: string, needle: string, categories: seq<int>, dead: bool,
                     hrefs: seq<string>, events: seq<Event<TorrentEntry>>)
    returns (first: string, urls: seq<string>, list: seq<TorrentEntry>)
    ensures first == BuildUrl(base, "/browse.php", SearchValues(needle, categories, dead), encode)
    ensures |urls| == MaxPageOf(PageTexts(hrefs))
    ensures forall i :: 0 <= i < |urls| ==>
      urls[i] == BuildUrl(base, "/browse.php", PageQuery(SearchValues(needle, categories, dead), i + 1), encode)
    ensures exists order :: Lists(MergeOf(events, |urls|, TorrentId), order, list)
    ensures forall i, j :: 0 <= i < j < |list| ==> list[i].id != list[j].id
  {
    var q := BuildSearchQuery(needle, categories, dead);
    first := BuildUrl(base, "/browse.php", q.values, encode);
    var maxpage := MaxLinkedPage(hrefs);
    MaxPageIsMax(PageTexts(hrefs));
    urls, list := Paginate(q, base, "/browse.php", maxpage, encode, events, TorrentId);
  }

  /** Search as written: the first page's body is read to the end before
      goquery.NewDocumentFromResponse parses the same response, so the document it
      parses is empty and no pagination link is found. Whatever links the page
      carries, maxpage stays 0, no further page is crawled and the merge stops at
      the first finished signal. */
  method SearchAsWritten(encode: Values -> string, base: string, needle: string, categories: seq<int>, dead: bool,
                         events: seq<Event<TorrentEntry>>)
    returns (first: string, urls: seq<string>, list: seq<TorrentEntry>)
    ensures first == BuildUrl(base, "/browse.php", SearchValues(needle, categories, dead), encode)
    ensures urls == []
    ensures exists order :: Lists(MergeOf(events, 0, TorrentId), order, list)
  {
    first, urls, list := SearchPages(encode, base, needle, categories, dead, [], events);
  }

  /** A link that is just `page=` and a number carries that number. */
  lemma PageLink(d: string)
    requires |d| > 0 && AllDigits(d)
    ensures LinkTexts("page=" + d) == [d]
  {
    var s := "page=" + d;
    MatchLitDigits("page=", d, "");
    assert s + "" == s;
    assert s[0..] == s;
    assert Locate(s, PagePattern, 0) == Some(0);
    assert s[|s|..] == "";
    assert MatchAt(s[0..], PagePattern).value == Match([d], |s|);
    assert Locate(s, PagePattern, |s|) == None;
    assert FindAllFrom(s, PagePattern, |s|) == [];
    assert FindAll(s, PagePattern) == [[d]];
  }

  /** A first page linking to page 3 makes Search crawl three pages, where the code
      as written crawls none. */
  lemma PaginationLost()
    ensures MaxPageOf(PageTexts(["page=3"])) == 3
  {
    var href := "page=3";
    assert AllDigits("3");
    PageLink("3");
    assert href == "page=" + "3";
    assert [href][..0] == [];
    assert PageTexts([href]) == ["3"];
    assert ["3"][..0] == [];
    ParseIntDigits("3", Cutoff32);
    assert DigitsValue("3") == 3;
  }

  // ----- Details -----

  /** Why Details returns no entry. */
  datatype DetailsError = NotFound | Unparsed(e: ParseError) | Transport(text: string)

  /** The snatch part of Details for the entry parseTorrentDetails returned: when
      the snatch list page answers 404 the entry is returned as it is; otherwise
      the highest page number is read off the page's links (pageTexts holds the
      page numbers captured by the link pattern, in order), pages 1..maxpage are
      crawled and the merged snatches, keyed by name, become the entry's list. */
  method AddSnatches(encode: Values -> string, base: string, id: int, te: TorrentEntry,
                     fetchError: Option<string>, status: int, pageTexts: seq<string>, events: seq<Event<Snatch>>)
    returns (r: Result<TorrentEntry, DetailsError>, urls: seq<string>)
    ensures fetchError.Some? ==> r == Err(Transport(fetchError.value)) && urls == []
    ensures fetchError.None? && status == 404 ==> r == Ok(te) && urls == []
    ensures fetchError.None? && status != 404 ==>
      && r.Ok? && r.value == te.(snatches := r.value.snatches)
      && |urls| == MaxPageOf(pageTexts)
      && (forall i :: 0 <= i < |urls| ==>
            urls[i] == BuildUrl(base, "/viewsnatches.php", PageQuery(map["id" := [Itoa(id)]], i + 1), encode))
      && (exists order :: Lists(MergeOf(events, |urls|, SnatchName), order, r.value.snatches))
      && forall i, j :: 0 <= i < j < |r.value.snatches| ==> r.value.snatches[i].name != r.value.snatches[j].name
  {
    if fetchError.Some? {
      return Err(Transport(fetchError.value)), [];
    }
    if status == 404 {
      return Ok(te), [];
    }
    var q := new Query(map["id" := [Itoa(id)]]);
    var maxpage := MaxPage(pageTexts);
    MaxPageIsMax(pageTexts);
    var list;
    urls, list := Paginate(q, base, "/viewsnatches.php", maxpage, encode, events, SnatchName);
    r := Ok(te.(snatches := list));
  }

  /** Details, given the status and the blocks of the details page and, when the
      snatches are asked for, what the snatch list page returned: a 404 is "torrent
      not found", a parse error is returned as it is, and otherwise the parsed
      entry, with its snatches when they are asked for. */
  method FetchDetails(lib: Lib, base: string, id: int, status: int, blocks: seq<Block>,
                      files: bool, peers: bool, snatches: bool,
                      snatchError: Option<string>, snatchStatus: int, pageTexts: seq<string>, events: seq<Event<Snatch>>)
    returns (r: Result<TorrentEntry, DetailsError>)
    requires DetailsShaped(blocks)
    ensures status == 404 ==> r == Err(NotFound)
    ensures status != 404 ==>
      var o := DetailsOf(lib, Shoutbox.Stripper(lib, ""), blocks, files, peers);
      && (o.err.Some? ==> r == Err(Unparsed(o.err.value)))
      && (o.err.None? && !snatches ==> r == Ok(o.entry.value))
      && (o.err.None? && snatches && snatchError.None? && snatchStatus != 404 ==>
            && r.Ok? && r.value == o.entry.value.(snatches := r.value.snatches)
            && (exists order :: Lists(MergeOf(events, MaxPageOf(pageTexts), SnatchName), order, r.value.snatches))
            && forall i, j :: 0 <= i < j < |r.value.snatches| ==> r.value.snatches[i].name != r.value.snatches[j].name)
      && (o.err.None? && snatches && snatchError.None? && snatchStatus == 404 ==> r == Ok(o.entry.value))
      && (o.err.None? && snatches && snatchError.Some? ==> r == Err(Transport(snatchError.value)))
  {
    if status == 404 {
      return Err(NotFound);
    }
    var o := ParseTorrentDetails(lib, blocks, files, peers);
    if o.err.Some? {
      return Err(Unparsed(o.err.value));
    }
    var te := o.entry.value;
    if snatches {
      var urls;
      r, urls := AddSnatches(lib.encode, base, id, te, snatchError, snatchStatus, pageTexts, events);
    } else {
      r := Ok(te);
    }
  }
}
