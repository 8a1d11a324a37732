/** The pagination merge shared by Search and Details: reading the highest page
    number off the pagination links, building one url per page, folding the
    records and "finished" signals the page parsers send into a map, and turning
    that map into a list. The goroutines and channels are not modelled; what the
    merge loop receives is an arbitrary interleaving of their messages, given as a
    sequence of events. */
module Crawl {
  import opened Wrappers
  import opened GoStrconv
  import opened Pattern
  import opened Library
  import opened Irrenhaus

  // ----- The fan-in loop -----

  /** One message on the merge loop's channels: a record from the record channel,
      or one parser's signal on the finished channel. */
  datatype Event<T> = Record(item: T) | Finished

  /** How many finished signals the events hold. */
  function Finishes<T>(ev: seq<Event<T>>): (n: nat)
    ensures n <= |ev|
  {
    if |ev| == 0 then 0
    else Finishes(ev[..|ev| - 1]) + (if ev[|ev| - 1].Finished? then 1 else 0)
  }

  lemma {:induction false} FinishesAppend<T>(a: seq<Event<T>>, b: seq<Event<T>>)
    ensures Finishes(a + b) == Finishes(a) + Finishes(b)
    decreases |b|
  {
    if |b| == 0 {
      assert a + b == a;
    } else {
      var n := |b| - 1;
      assert (a + b)[..|a + b| - 1] == a + b[..n];
      FinishesAppend(a, b[..n]);
    }
  }

  /** How many events the loop `for p := 0; p <= maxpage; { select … }` takes
      before it stops, for need = maxpage + 1: up to and including the need-th
      finished signal, or all of them when fewer arrive (the Go loop would then
      wait for ever). */
  function Taken<T>(ev: seq<Event<T>>, need: nat): (n: nat)
    ensures n <= |ev|
  {
    if need == 0 || |ev| == 0 then 0
    else 1 + Taken(ev[1..], if ev[0].Finished? then need - 1 else need)
  }

  /** The loop stops right after the need-th finished signal, never earlier, and
      only runs out of events when fewer signals arrive. */
  lemma {:induction false} TakenStops<T>(ev: seq<Event<T>>, need: nat)
    ensures Finishes(ev[..Taken(ev, need)]) == if Finishes(ev) < need then Finishes(ev) else need
    ensures Finishes(ev) < need ==> Taken(ev, need) == |ev|
    ensures need > 0 && Finishes(ev) >= need ==> ev[Taken(ev, need) - 1].Finished?
    decreases |ev|
  {
    if need == 0 || |ev| == 0 {
      assert ev[..0] == [];
    } else {
      var rest := if ev[0].Finished? then need - 1 else need;
      TakenStops(ev[1..], rest);
      var t := Taken(ev[1..], rest);
      assert ev[..1 + t] == [ev[0]] + ev[1..][..t];
      assert ev == [ev[0]] + ev[1..];
      FinishesAppend([ev[0]], ev[1..][..t]);
      FinishesAppend([ev[0]], ev[1..]);
      assert Finishes([ev[0]]) == (if ev[0].Finished? then 1 else 0) by {
        assert [ev[0]][..0] == [];
      }
      if rest > 0 && Finishes(ev[1..]) >= rest {
        assert ev[1 + t - 1] == ev[1..][t - 1];
      } else if need > 0 && Finishes(ev) >= need {
        assert rest == 0 && ev[0].Finished?;
        assert t == 0;
      }
    }
  }

  /** The map the loop builds: each record is stored under its key, a later record
      replacing an earlier one with the same key; finished signals change nothing. */
  function Merged<K(==), T(==)>(ev: seq<Event<T>>, key: T -> K): map<K, T>
  {
    if |ev| == 0 then map[]
    else
      var m := Merged(ev[..|ev| - 1], key);
      match ev[|ev| - 1]
      case Record(x) => m[key(x) := x]
      case Finished => m
  }

  /** Event i is a record whose key is k. */
  predicate RecordOf<K(==), T(==)>(ev: seq<Event<T>>, i: int, key: T -> K, k: K)
  {
    0 <= i < |ev| && ev[i].Record? && key(ev[i].item) == k
  }

  /** Last writer wins: a key is in the map exactly when some record carries it,
      and then it maps to the last record that does. */
  lemma {:induction false} MergedLastWins<K, T>(ev: seq<Event<T>>, key: T -> K, k: K)
    ensures k in Merged(ev, key) <==> exists i :: RecordOf(ev, i, key, k)
    ensures k in Merged(ev, key) ==>
      exists i :: (RecordOf(ev, i, key, k) && Merged(ev, key)[k] == ev[i].item
        && forall j :: i < j < |ev| ==> !RecordOf(ev, j, key, k))
    decreases |ev|
  {
    if |ev| > 0 {
      var n := |ev| - 1;
      var pre := ev[..n];
      MergedLastWins(pre, key, k);
      forall i | RecordOf(pre, i, key, k)
        ensures RecordOf(ev, i, key, k)
      {
        assert pre[i] == ev[i];
      }
      if RecordOf(ev, n, key, k) {
        assert Merged(ev, key)[k] == ev[n].item;
      } else {
        assert k in Merged(ev, key) <==> k in Merged(pre, key);
        forall i | RecordOf(ev, i, key, k)
          ensures RecordOf(pre, i, key, k)
        {
          assert pre[i] == ev[i];
        }
        if k in Merged(ev, key) {
          var i :| RecordOf(pre, i, key, k) && Merged(pre, key)[k] == pre[i].item
            && forall j :: i < j < |pre| ==> !RecordOf(pre, j, key, k);
          assert Merged(ev, key)[k] == ev[i].item;
          forall j | i < j < |ev|
            ensures !RecordOf(ev, j, key, k)
          {
            if j < n {
              assert pre[j] == ev[j];
              assert !RecordOf(pre, j, key, k);
            }
          }
        }
      }
    }
  }

  /** What the merge loop holds when it stops, for maxpage = pages. */
  function MergeOf<K(==), T(==)>(events: seq<Event<T>>, pages: nat, key: T -> K): map<K, T>
  {
    Merged(events[..Taken(events, pages + 1)], key)
  }

  /** The fan-in loop of Search and Details: records go into the map under their
      key until maxpage + 1 parsers have said they are done. */
  method FanIn<K(==), T(==)>(events: seq<Event<T>>, maxpage: nat, key: T -> K) returns (found: map<K, T>)
    ensures found == MergeOf(events, maxpage, key)
  {
    found := map[];
    var p := 0;
    var i := 0;
    while p <= maxpage && i < |events|
      invariant 0 <= i <= |events| && p <= maxpage + 1
      invariant i + Taken(events[i..], maxpage + 1 - p) == Taken(events, maxpage + 1)
      invariant found == Merged(events[..i], key)
      decreases |events| - i
    {
      assert events[i..][1..] == events[i + 1..];
      assert events[..i + 1][..i] == events[..i];
      if events[i].Record? {
        found := found[key(events[i].item) := events[i].item];
      } else {
        p := p + 1;
      }
      i := i + 1;
    }
    assert events[i..] == [] || p == maxpage + 1;
  }

  // ----- From the map to the result list -----

  /** order visits every key of m exactly once. */
  predicate IsOrder<K(==), T(==)>(m: map<K, T>, order: seq<K>)
  {
    && (forall i :: 0 <= i < |order| ==> order[i] in m)
    && (forall k :: k in m ==> k in order)
    && (forall i, j :: 0 <= i < j < |order| ==> order[i] != order[j])
  }

  /** list holds the values of m in the key order `order`. */
  predicate Lists<K(==), T(==)>(m: map<K, T>, order: seq<K>, list: seq<T>)
  {
    IsOrder(m, order) && |list| == |order|
    && forall i :: 0 <= i < |list| ==> list[i] == m[order[i]]
  }

  /** `for _, x := range found { list = append(list, x) }`. Go visits the keys in an
      unspecified order, so the list is the map's values in some order of its keys. */
  method ListOf<K(==), T(==)>(m: map<K, T>) returns (list: seq<T>)
    ensures exists order :: Lists(m, order, list)
  {
    list := [];
    var rest := m.Keys;
    ghost var order: seq<K> := [];
    while rest != {}
      invariant rest <= m.Keys
      invariant forall i :: 0 <= i < |order| ==> order[i] in m && order[i] !in rest
      invariant forall k :: k in m && k !in rest ==> k in order
      invariant forall i, j :: 0 <= i < j < |order| ==> order[i] != order[j]
      invariant |list| == |order| && forall i :: 0 <= i < |list| ==> list[i] == m[order[i]]
      decreases |rest|
    {
      var k :| k in rest;
      order := order + [k];
      list := list + [m[k]];
      rest := rest - {k};
    }
    assert Lists(m, order, list);
  }

  /** The result of a merge holds one entry per key that any record carried, no key
      twice, and for each key the last record received with it. */
  lemma OnePerKey<K, T>(ev: seq<Event<T>>, key: T -> K, order: seq<K>, list: seq<T>)
    requires Lists(Merged(ev, key), order, list)
    ensures forall i, j :: 0 <= i < j < |list| ==> key(list[i]) != key(list[j])
    ensures forall i :: 0 <= i < |ev| && ev[i].Record? ==>
      exists j :: 0 <= j < |list| && key(list[j]) == key(ev[i].item)
    ensures forall j :: 0 <= j < |list| ==>
      exists i :: (RecordOf(ev, i, key, key(list[j])) && ev[i].item == list[j]
        && forall i' :: i < i' < |ev| ==> !RecordOf(ev, i', key, key(list[j])))
  {
    var m := Merged(ev, key);
    forall j | 0 <= j < |list|
      ensures key(list[j]) == order[j]
      ensures exists i :: (RecordOf(ev, i, key, key(list[j])) && ev[i].item == list[j]
        && forall i' :: i < i' < |ev| ==> !RecordOf(ev, i', key, key(list[j])))
    {
      MergedLastWins(ev, key, order[j]);
      var i :| RecordOf(ev, i, key, order[j]) && m[order[j]] == ev[i].item
        && forall i' :: i < i' < |ev| ==> !RecordOf(ev, i', key, order[j]);
    }
    forall i | 0 <= i < |ev| && ev[i].Record?
      ensures exists j :: 0 <= j < |list| && key(list[j]) == key(ev[i].item)
    {
      var k := key(ev[i].item);
      MergedLastWins(ev, key, k);
      assert RecordOf(ev, i, key, k);
      var j :| 0 <= j < |order| && order[j] == k;
      assert key(list[j]) == k;
    }
  }

  // ----- The highest page number -----

  /** `page=(\d+)`, the pagination parameter in a link. */
  const PagePattern := LitDigits("page=")

  /** The page number in a captured group. The client drops ParseInt's error, so a
      number past 32 bits counts as 2^31 - 1. */
  function PageNumber(text: string): int
  {
    ParseInt32(text).value
  }

  /** The first group of every match. */
  function FirstGroups(matches: seq<seq<string>>): (r: seq<string>)
    ensures |r| == |matches|
    ensures forall i :: 0 <= i < |r| && |matches[i]| > 0 ==> r[i] == matches[i][0]
  {
    seq(|matches|, i requires 0 <= i < |matches| => if |matches[i]| > 0 then matches[i][0] else "")
  }

  /** The page texts of the pagination links, link by link, match by match. */
  function PageTexts(hrefs: seq<string>): seq<string>
  {
    if |hrefs| == 0 then []
    else PageTexts(hrefs[..|hrefs| - 1]) + LinkTexts(hrefs[|hrefs| - 1])
  }

  /** The maxpage update `if page > maxpage { maxpage = page }` run over the texts
      from a given start. */
  function MaxFrom(start: int, texts: seq<string>): (m: int)
    ensures m >= start
  {
    if |texts| == 0 then start
    else
      var m := MaxFrom(start, texts[..|texts| - 1]);
      var page := PageNumber(texts[|texts| - 1]);
      if page > m then page else m
  }

  /** maxpage: the largest page number, starting from 0. */
  function MaxPageOf(texts: seq<string>): (m: int)
    ensures m >= 0
  {
    MaxFrom(0, texts)
  }

  /** The update run is the maximum of the start and of the page numbers. */
  lemma {:induction false} MaxFromIsMax(start: int, texts: seq<string>)
    ensures MaxFrom(start, texts) >= start
    ensures forall i :: 0 <= i < |texts| ==> PageNumber(texts[i]) <= MaxFrom(start, texts)
    ensures MaxFrom(start, texts) == start || exists i :: 0 <= i < |texts| && PageNumber(texts[i]) == MaxFrom(start, texts)
    decreases |texts|
  {
    if |texts| > 0 {
      var pre := texts[..|texts| - 1];
      MaxFromIsMax(start, pre);
      forall i | 0 <= i < |pre|
        ensures pre[i] == texts[i]
      {
      }
    }
  }

  /** maxpage is the largest page number seen, or 0 when none is positive. */
  lemma MaxPageIsMax(texts: seq<string>)
    ensures MaxPageOf(texts) >= 0
    ensures forall i :: 0 <= i < |texts| ==> PageNumber(texts[i]) <= MaxPageOf(texts)
    ensures MaxPageOf(texts) == 0 || exists i :: 0 <= i < |texts| && PageNumber(texts[i]) == MaxPageOf(texts)
  {
    MaxFromIsMax(0, texts);
  }

  /** Running the update over two runs one after the other is running it over both. */
  lemma {:induction false} MaxFromAppend(start: int, a: seq<string>, b: seq<string>)
    ensures MaxFrom(MaxFrom(start, a), b) == MaxFrom(start, a + b)
    decreases |b|
  {
    if |b| == 0 {
      assert a + b == a;
    } else {
      MaxFromAppend(start, a, b[..|b| - 1]);
      assert (a + b)[..|a + b| - 1] == a + b[..|b| - 1];
    }
  }

  /** The page texts of one link. */
  function LinkTexts(href: string): seq<string>
  {
    FirstGroups(FindAll(href, PagePattern))
  }

  /** The loop `for _, m := range matches { page, _ := ParseInt(…); if page > maxpage
      { maxpage = page } }`. */
  method MaxPageAfter(start: int, texts: seq<string>) returns (maxpage: int)
    ensures maxpage == MaxFrom(start, texts)
  {
    maxpage := start;
    for i := 0 to |texts|
      invariant maxpage == MaxFrom(start, texts[..i])
    {
      assert texts[..i + 1][..i] == texts[..i];
      var page := PageNumber(texts[i]);
      if page > maxpage {
        maxpage := page;
      }
    }
    assert texts[..|texts|] == texts;
  }

  /** The maxpage loop over the captured page texts, as Details runs it. */
  method MaxPage(texts: seq<string>) returns (maxpage: int)
    ensures maxpage == MaxPageOf(texts)
  {
    maxpage := MaxPageAfter(0, texts);
  }

  /** The maxpage loop of Search: every match of `page=(\d+)` in every pagination
      link. */
  method MaxLinkedPage(hrefs: seq<string>) returns (maxpage: int)
    ensures maxpage == MaxPageOf(PageTexts(hrefs))
  {
    maxpage := 0;
    for i := 0 to |hrefs|
      invariant maxpage == MaxPageOf(PageTexts(hrefs[..i]))
    {
      assert hrefs[..i + 1][..i] == hrefs[..i];
      assert PageTexts(hrefs[..i + 1]) == PageTexts(hrefs[..i]) + LinkTexts(hrefs[i]);
      MaxFromAppend(0, PageTexts(hrefs[..i]), LinkTexts(hrefs[i]));
      maxpage := MaxPageAfter(maxpage, LinkTexts(hrefs[i]));
    }
    assert hrefs[..|hrefs|] == hrefs;
  }

  // ----- One crawl per page -----

  /** The query of page p: the base query with page set to p. */
  function PageQuery(v: Values, p: int): Values
  {
    Assigned(v, "page", Itoa(p))
  }

  /** Setting the page again forgets the page set before. */
  lemma PageQueryAgain(v: Values, a: int, b: int)
    ensures Assigned(PageQuery(v, a), "page", Itoa(b)) == PageQuery(v, b)
  {
  }

  /** `for p := 1; p <= maxpage; p++ { data.Set("page", …); go crawl(buildUrl(path, data)) }`:
      the urls handed to the crawlers, in the order they are started. */
  method CrawlUrls(q: Query, base: string, path: string, maxpage: int, encode: Values -> string)
    returns (urls: seq<string>)
    requires |path| > 0
    modifies q
    ensures |urls| == if maxpage > 0 then maxpage else 0
    ensures forall i :: 0 <= i < |urls| ==> urls[i] == BuildUrl(base, path, PageQuery(old(q.values), i + 1), encode)
    ensures q.values == if maxpage > 0 then PageQuery(old(q.values), maxpage) else old(q.values)
  {
    ghost var v := q.values;
    urls := [];
    var p := 1;
    while p <= maxpage
      invariant 1 <= p <= if maxpage > 0 then maxpage + 1 else 1
      invariant |urls| == p - 1
      invariant PageUrls(urls, base, path, v, encode)
      invariant q.values == if p > 1 then PageQuery(v, p - 1) else v
      decreases maxpage + 1 - p
    {
      q.Set("page", Itoa(p));
      assert q.values == PageQuery(v, p) by {
        if p > 1 {
          PageQueryAgain(v, p - 1, p);
        }
      }
      var url := BuildUrl(base, path, q.values, encode);
      PageUrlsStep(urls, base, path, v, encode, url);
      urls := urls + [url];
      p := p + 1;
    }
    assert PageUrls(urls, base, path, v, encode);
  }

  /** url i of the list is the page url of page i + 1. */
  ghost predicate PageUrls(urls: seq<string>, base: string, path: string, v: Values, encode: Values -> string)
    requires |path| > 0
  {
    forall i :: 0 <= i < |urls| ==> urls[i] == BuildUrl(base, path, PageQuery(v, i + 1), encode)
  }

  lemma PageUrlsStep(urls: seq<string>, base: string, path: string, v: Values, encode: Values -> string, url: string)
    requires |path| > 0 && PageUrls(urls, base, path, v, encode)
    requires url == BuildUrl(base, path, PageQuery(v, |urls| + 1), encode)
    ensures PageUrls(urls + [url], base, path, v, encode)
  {
  }

  /** Each page 1..maxpage is crawled exactly once: of the crawls for pages
      1..maxpage, the one for p is the only one whose query asks for page p. */
  lemma PageCrawledOnce(v: Values, maxpage: int, p: int)
    requires 1 <= p <= maxpage
    ensures PageQuery(v, p)["page"] == [Itoa(p)]
    ensures forall n :: 1 <= n <= maxpage ==> (PageQuery(v, n)["page"] == [Itoa(p)] <==> n == p)
  {
    forall n | 1 <= n <= maxpage && PageQuery(v, n)["page"] == [Itoa(p)]
      ensures n == p
    {
      assert [Itoa(n)][0] == [Itoa(p)][0];
      ItoaInjective(n, p);
    }
  }

  // ----- The whole merge -----

  /** The pagination step of Search and Details once maxpage is known: start one
      crawl per page 1..maxpage, fold what the parsers send until maxpage + 1 of
      them are done, and list the merged records, one per key. */
  method Paginate<K(==), T(==)>(q: Query, base: string, path: string, maxpage: nat, encode: Values -> string,
                                events: seq<Event<T>>, key: T -> K)
    returns (urls: seq<string>, list: seq<T>)
    requires |path| > 0
    modifies q
    ensures |urls| == maxpage
    ensures forall i :: 0 <= i < |urls| ==> urls[i] == BuildUrl(base, path, PageQuery(old(q.values), i + 1), encode)
    ensures exists order :: Lists(MergeOf(events, maxpage, key), order, list)
    ensures forall i, j :: 0 <= i < j < |list| ==> key(list[i]) != key(list[j])
    ensures q.values == if maxpage > 0 then PageQuery(old(q.values), maxpage) else old(q.values)
  {
    urls := CrawlUrls(q, base, path, maxpage, encode);
    var found := FanIn(events, maxpage, key);
    list := ListOf(found);
    ghost var order :| Lists(found, order, list);
    OnePerKey(events[..Taken(events, maxpage + 1)], key, order, list);
  }
}
