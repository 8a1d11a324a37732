/** parseTorrentDetails: the details page of one torrent. The page is read as the
    list of its `div.blockinborder` blocks, each with the text of its title and the
    rows of its details table. The fields sit at fixed rows of that table, except
    that the optional file table and the optional seeder table push everything after
    them down by their own number of rows; Go follows this with one row cursor. */
module Details {
  import opened Wrappers
  import opened GoStrings
  import opened GoStrconv
  import opened Pattern
  import opened Library
  import opened Dom
  import opened Torrent
  import Category
  import Shoutbox

  /** A div.blockinborder: its title text and the rows of its details table. */
  datatype Block = Block(title: string, rows: seq<Row>)

  /** What parseTorrentDetails returns: the entry pointer (None for nil) and the error. */
  datatype Outcome = Outcome(entry: Option<TorrentEntry>, err: Option<ParseError>)

  const DetailsTitle := "Details zu"
  const NamePrefix := "Details zu "
  const DownloadLink := "download.php?torrent="

  /** strconv's value, or 0 when it reports an error. */
  function OrZero(p: Parsed): (v: int)
    ensures p.err.None? ==> v == p.value
    ensures p.err.Some? ==> v == 0
  {
    if p.err.Some? then 0 else p.value
  }

  // ----- The details block -----

  /** The first block from `i` on whose title starts with "Details zu". */
  function BlockFrom(blocks: seq<Block>, i: nat): (r: Option<nat>)
    requires i <= |blocks|
    ensures r.Some? ==> i <= r.value < |blocks| && HasPrefix(blocks[r.value].title, DetailsTitle)
    ensures r.Some? ==> forall j :: i <= j < r.value ==> !HasPrefix(blocks[j].title, DetailsTitle)
    ensures r.None? ==> forall j :: i <= j < |blocks| ==> !HasPrefix(blocks[j].title, DetailsTitle)
    decreases |blocks| - i
  {
    if i == |blocks| then None
    else if HasPrefix(blocks[i].title, DetailsTitle) then Some(i)
    else BlockFrom(blocks, i + 1)
  }

  function DetailsBlock(blocks: seq<Block>): Option<nat>
  {
    BlockFrom(blocks, 0)
  }

  /** Row 0: the torrent id from the download link. A row without a link is an error;
      a link of another shape leaves the id 0. */
  function DetailsId(rows: seq<Row>): (r: Result<int, ParseError>)
    ensures RowHref(RowAt(rows, 0).cells).None? ==> r == Err(MissingHref("name"))
    ensures r.Ok? ==> RowHref(RowAt(rows, 0).cells).Some? && Capture(RowHref(RowAt(rows, 0).cells).value, DownloadLink) == Ok(r.value)
    ensures r.Err? && r != Err(MissingHref("name")) ==>
      RowHref(RowAt(rows, 0).cells).Some? && Capture(RowHref(RowAt(rows, 0).cells).value, DownloadLink).Err?
  {
    match RowHref(RowAt(rows, 0).cells)
    case None => Err(MissingHref("name"))
    case Some(href) =>
      match Capture(href, DownloadLink)
      case Err(e) => Err(BadNumber(e))
      case Ok(id) => Ok(id)
  }

  // ----- The single-row fields -----

  /** The size row has a third word; Go indexes it without a check. */
  predicate SizeWords(text: string)
  {
    |Split(text, ' ')| >= 3
  }

  /** "(123,456,789" without its parenthesis and its thousands commas. */
  function ByteWord(w: string): string
  {
    ReplaceAll(ReplaceFirst(w, "(", ""), ",", "")
  }

  /** Row 6 reads "117,73 GB (123,456,789 Bytes)": the third word is the exact byte
      count as a uint64, or 0 when it does not parse. */
  function TotalBytes(text: string): (n: nat)
    requires SizeWords(text)
    ensures n < Limit64
  {
    var p := ParseUint(ByteWord(Split(text, ' ')[2]), Limit64);
    if p.err.Some? then 0 else p.value
  }

  lemma SplitFour(a: string, u: string, w: string, tail: string)
    requires ' ' !in a && ' ' !in u && ' ' !in w
    ensures |Split(a + " " + u + " " + w + " " + tail, ' ')| >= 3
    ensures Split(a + " " + u + " " + w + " " + tail, ' ')[..3] == [a, u, w]
  {
    var s := a + " " + u + " " + w + " " + tail;
    assert s == a + [' '] + (u + [' '] + (w + [' '] + tail));
    SplitAround(w, tail, ' ');
    SplitAround(u, w + [' '] + tail, ' ');
    SplitAround(a, u + [' '] + (w + [' '] + tail), ' ');
  }

  /** A byte count written with thousands commas is that number. */
  lemma TotalBytesDigits(a: string, u: string, w: string, digits: string, tail: string)
    requires ' ' !in a && ' ' !in u && ' ' !in w && '(' !in w
    requires ReplaceAll(w, ",", "") == digits && |digits| > 0 && AllDigits(digits) && DigitsValue(digits) < Limit64
    ensures SizeWords(a + " " + u + " (" + w + " " + tail)
    ensures TotalBytes(a + " " + u + " (" + w + " " + tail) == DigitsValue(digits)
  {
    var text := a + " " + u + " (" + w + " " + tail;
    ThirdWord(a, u, w, tail);
    assert ByteWord(Split(text, ' ')[2]) == digits by {
      assert ReplaceFirst("(" + w, "(", "") == w by {
        assert ("(" + w)[..1] == "(" && ("(" + w)[1..] == w;
      }
    }
  }

  lemma ThirdWord(a: string, u: string, w: string, tail: string)
    requires ' ' !in a && ' ' !in u && ' ' !in w
    ensures SizeWords(a + " " + u + " (" + w + " " + tail)
    ensures Split(a + " " + u + " (" + w + " " + tail, ' ')[2] == "(" + w
  {
    var pw := "(" + w;
    assert a + " " + u + " (" + w + " " + tail == a + " " + u + " " + pw + " " + tail;
    SplitFour(a, u, pw, tail);
    var parts := Split(a + " " + u + " " + pw + " " + tail, ' ');
    assert parts[2] == parts[..3][2];
  }

  /** Row 13 reads "<n> mal". */
  const TimesPattern: Pattern := [Digits, Lit(" mal")]

  lemma TimesGroups()
    ensures Groups(TimesPattern) == 1
  {
    assert TimesPattern[1..] == [Lit(" mal")];
    assert TimesPattern[1..][1..] == [];
  }

  /** The number of completed downloads: the number before " mal", 0 when there is
      none or it is out of range. */
  function SnatchTimes(text: string): (n: int)
    ensures Find(text, TimesPattern).None? ==> n == 0
    ensures -(Cutoff32 as int) <= n < Cutoff32
  {
    match Find(text, TimesPattern)
    case None => 0
    case Some(caps) =>
      TimesGroups();
      OrZero(ParseInt32(caps[0]))
  }

  lemma SnatchTimesDigits(d: string, rest: string)
    requires |d| > 0 && AllDigits(d) && DigitsValue(d) < Cutoff32
    ensures SnatchTimes(d + " mal" + rest) == DigitsValue(d)
  {
    TimesMatch(d, rest);
    FindAtStart(d + " mal" + rest, TimesPattern, Match([d], |d| + 4));
    ParseIntDigits(d, Cutoff32);
  }

  lemma TimesMatch(d: string, rest: string)
    requires |d| > 0 && AllDigits(d)
    ensures MatchAt(d + " mal" + rest, TimesPattern) == Some(Match([d], |d| + 4))
  {
    var tail := [Lit(" mal")];
    assert MatchAt(rest, []) == Some(Match([], 0));
    MatchLitBefore(" mal", rest, [], Match([], 0));
    assert [Lit(" mal")] + [] == tail;
    assert MatchAt(" mal" + rest, tail) == Some(Match([], 4));
    MatchDigitsBefore(d, " mal" + rest, tail, Match([], 4));
    assert [Digits] + tail == TimesPattern && [d] + [] == [d];
    assert d + (" mal" + rest) == d + " mal" + rest;
  }

  /** Row 15 reads "<n> Dateien": the first word, commas removed, as a 32-bit number,
      0 when it does not parse. */
  function FileTotal(text: string): (n: int)
    ensures -(Cutoff32 as int) <= n < Cutoff32
  {
    OrZero(ParseInt32(ReplaceAll(Split(text, ' ')[0], ",", "")))
  }

  lemma FileTotalDigits(w: string, digits: string, tail: string)
    requires ' ' !in w
    requires ReplaceAll(w, ",", "") == digits && |digits| > 0 && AllDigits(digits) && DigitsValue(digits) < Cutoff32
    ensures FileTotal(w + " " + tail) == DigitsValue(digits)
  {
    SplitAround(w, tail, ' ');
    assert w + " " + tail == w + [' '] + tail;
    ParseIntDigits(digits, Cutoff32);
  }

  /** Without the peer list the peer row reads "<s> Seeder, <l> Leecher = <t> Peer(s) gesamt". */
  const TotalsPattern: Pattern :=
    [Digits, Lit(" Seeder, "), Digits, Lit(" Leecher = "), Digits, Lit(" Peer(s) gesamt")]

  lemma TotalsGroups()
    ensures Groups(TotalsPattern) == 3
  {
    var p := TotalsPattern;
    assert p[1..][1..][1..][1..][1..][1..] == [];
  }

  /** The seeder and leecher counts of that row, None when it has another shape. */
  function PeerTotals(text: string): (r: Option<(int, int)>)
    ensures r.None? <==> Find(text, TotalsPattern).None?
  {
    match Find(text, TotalsPattern)
    case None => None
    case Some(caps) =>
      TotalsGroups();
      Some((OrZero(ParseInt32(caps[0])), OrZero(ParseInt32(caps[1]))))
  }

  lemma PeerTotalsDigits(s: string, l: string, t: string, rest: string)
    requires |s| > 0 && AllDigits(s) && DigitsValue(s) < Cutoff32
    requires |l| > 0 && AllDigits(l) && DigitsValue(l) < Cutoff32
    requires |t| > 0 && AllDigits(t)
    ensures PeerTotals(s + " Seeder, " + l + " Leecher = " + t + " Peer(s) gesamt" + rest) == Some((DigitsValue(s), DigitsValue(l)))
  {
    var text := s + " Seeder, " + l + " Leecher = " + t + " Peer(s) gesamt" + rest;
    TotalsFound(s, l, t, rest, TotalsPattern, " Seeder, ", " Leecher = ", " Peer(s) gesamt");
    ParseIntDigits(s, Cutoff32);
    ParseIntDigits(l, Cutoff32);
  }

  /** The summary pattern, with its three literals as parameters, finds its groups at
      the front of the text. */
  lemma TotalsFound(s: string, l: string, t: string, rest: string, p: Pattern, a: string, b: string, c: string)
    requires |s| > 0 && AllDigits(s) && |l| > 0 && AllDigits(l) && |t| > 0 && AllDigits(t)
    requires |a| > 0 && !IsDigit(a[0]) && |b| > 0 && !IsDigit(b[0]) && |c| > 0 && !IsDigit(c[0])
    requires p == [Digits, Lit(a), Digits, Lit(b), Digits, Lit(c)]
    ensures Find(s + a + l + b + t + c + rest, p) == Some([s, l, t])
  {
    var q := [Lit(b), Digits, Lit(c)];
    var x := b + t + c + rest;
    var m := ThreeTail(t, rest, q, b, c);
    assert x[0] == b[0];
    var m0 := TwoHead(s, l, x, a, q, m);
    assert [Digits, Lit(a)] + ([Digits] + q) == p;
    assert s + a + (l + x) == s + a + l + b + t + c + rest;
    FindAtStart(s + a + l + b + t + c + rest, p, m0);
    assert [s] + ([l] + [t]) == [s, l, t];
  }

  lemma ThreeTail(t: string, rest: string, q: Pattern, b: string, c: string) returns (m: Match)
    requires |t| > 0 && AllDigits(t) && |c| > 0 && !IsDigit(c[0])
    requires q == [Lit(b), Digits, Lit(c)]
    ensures MatchAt(b + t + c + rest, q) == Some(m) && m.captures == [t]
  {
    MatchLitBefore(c, rest, [], Match([], 0));
    assert q[2..] == [Lit(c)] + [];
    var m2 := Match([], |c|);
    MatchDigitsBefore(t, c + rest, q[2..], m2);
    assert q[1..] == [Digits] + q[2..];
    var m1 := Match([t] + [], |t| + m2.length);
    MatchLitBefore(b, t + (c + rest), q[1..], m1);
    assert q == [Lit(b)] + q[1..];
    m := Match(m1.captures, |b| + m1.length);
    assert b + (t + (c + rest)) == b + t + c + rest;
    assert [t] + [] == [t];
  }

  lemma TwoHead(s: string, l: string, x: string, a: string, q: Pattern, m: Match) returns (m0: Match)
    requires |s| > 0 && AllDigits(s) && |l| > 0 && AllDigits(l)
    requires |a| > 0 && !IsDigit(a[0]) && |x| > 0 && !IsDigit(x[0])
    requires MatchAt(x, q) == Some(m)
    ensures MatchAt(s + a + (l + x), [Digits, Lit(a)] + ([Digits] + q)) == Some(m0)
    ensures m0.captures == [s] + ([l] + m.captures)
  {
    MatchDigitsBefore(l, x, q, m);
    m0 := DigitsThenLit(s, a, l + x, [Digits] + q, Match([l] + m.captures, |l| + m.length));
  }

  // ----- The sections, at their absolute rows -----

  /** Rows 1 to 15: info hash, description, category, size, date, completions and the
      file count the page states. The description is the cell's HTML through `strip`,
      which the code fixes to ShoutboxStrip with an empty site url. */
  function Head(lib: Lib, strip: string -> string, rows: seq<Row>, te: TorrentEntry): (r: TorrentEntry)
    requires SizeWords(SecondTd(rows, 6).text)
    ensures r.name == te.name && r.id == te.id
  {
    te.(infoHash := SecondTd(rows, 1).text,
        description := strip(SecondTd(rows, 2).html),
        category := Category.IdOf(SecondTd(rows, 4).text).GetOr(0),
        size := TotalBytes(SecondTd(rows, 6).text),
        added := DetailTime(lib, SecondTd(rows, 7).text),
        snatchCount := SnatchTimes(SecondTd(rows, 13).text),
        fileCount := FileTotal(SecondTd(rows, 15).text))
  }

  /** The rows of the tables inside the second cell of row `at`. */
  function TableRows(rows: seq<Row>, at: int): seq<Row>
  {
    NestedRows(SecondTd(rows, at).tables)
  }

  predicate HasTable(rows: seq<Row>, at: int)
  {
    |SecondTd(rows, at).tables| > 0
  }

  /** The file table, in row 16. */
  function FileRows(units: Units, rows: seq<Row>): seq<TorrentFile>
  {
    MapSeq(FileParser(units), Body(TableRows(rows, 16)))
  }

  /** The peers of the table in row `at`, none when the row holds no table. */
  function PeersAt(units: Units, rows: seq<Row>, at: int): (ps: seq<Peer>)
    ensures !HasTable(rows, at) ==> ps == []
  {
    if HasTable(rows, at) then MapSeq(PeerParser(units), Body(TableRows(rows, at))) else []
  }

  /** The row of the peer section: 17, or, after a file table of n files that starts
      in row 16, 19 + n. */
  function PeerRow(files: bool, n: nat): int
  {
    if files then 19 + n else 17
  }

  /** The row of the leecher table: right after the seeder table, which takes its
      header and one row per seeder, or right after row `at` without one. */
  function LeecherRow(units: Units, rows: seq<Row>, at: int): int
  {
    if HasTable(rows, at) then at + |PeersAt(units, rows, at)| + 2 else at + 1
  }

  /** Seeders from row `at`, leechers from the row after them; a missing table leaves
      its count alone, and with neither table the peers stay as they were. */
  function WithPeers(units: Units, rows: seq<Row>, at: int, te: TorrentEntry): TorrentEntry
  {
    var seeders := PeersAt(units, rows, at);
    var lat := LeecherRow(units, rows, at);
    var leechers := PeersAt(units, rows, lat);
    te.(seederCount := if HasTable(rows, at) then |seeders| else te.seederCount,
        leecherCount := if HasTable(rows, lat) then |leechers| else te.leecherCount,
        peers := if HasTable(rows, at) || HasTable(rows, lat) then seeders + leechers else te.peers)
  }

  /** Without the peer list: the two counts of row `at`, when it has the shape. */
  function WithTotals(rows: seq<Row>, at: int, te: TorrentEntry): TorrentEntry
  {
    match PeerTotals(SecondTd(rows, at).text)
    case None => te
    case Some((s, l)) => te.(seederCount := s, leecherCount := l)
  }

  /** Everything after row 15. */
  function Sections(units: Units, rows: seq<Row>, files: bool, peers: bool, te: TorrentEntry): (r: TorrentEntry)
    ensures r.name == te.name && r.id == te.id
  {
    var withFiles := if files then te.(files := FileRows(units, rows), fileCount := |FileRows(units, rows)|) else te;
    var at := PeerRow(files, |FileRows(units, rows)|);
    if peers then WithPeers(units, rows, at, withFiles) else WithTotals(rows, at, withFiles)
  }

  /** Go reaches the size row without a panic: when the details block and its id are
      found, the size cell has three words. */
  predicate DetailsShaped(blocks: seq<Block>)
  {
    DetailsBlock(blocks).Some? && DetailsId(blocks[DetailsBlock(blocks).value].rows).Ok? ==>
      SizeWords(SecondTd(blocks[DetailsBlock(blocks).value].rows, 6).text)
  }

  /** The page as a whole, every field read from its absolute row. */
  function DetailsOf(lib: Lib, strip: string -> string, blocks: seq<Block>, files: bool, peers: bool): (r: Outcome)
    requires DetailsShaped(blocks)
    ensures r.entry.None? <==> forall j :: 0 <= j < |blocks| ==> !HasPrefix(blocks[j].title, DetailsTitle)
    ensures r.entry.None? ==> r.err == Some(NoDetailsTable)
    ensures r.entry.Some? ==>
      DetailsBlock(blocks).Some? && r.entry.value.name == TrimPrefix(blocks[DetailsBlock(blocks).value].title, NamePrefix)
  {
    match DetailsBlock(blocks)
    case None => Outcome(None, Some(NoDetailsTable))
    case Some(b) =>
      var rows := blocks[b].rows;
      var named := EmptyEntry.(name := TrimPrefix(blocks[b].title, NamePrefix));
      match DetailsId(rows)
      case Err(e) => Outcome(Some(named), Some(e))
      case Ok(id) => Outcome(Some(Sections(lib.units, rows, files, peers, Head(lib, strip, rows, named.(id := id)))), None)
  }

  // ----- What the page promises -----

  /** The rows of the details block. */
  function FoundRows(blocks: seq<Block>): seq<Row>
    requires DetailsBlock(blocks).Some?
  {
    blocks[DetailsBlock(blocks).value].rows
  }

  /** The entry as it stands once name and id are read. */
  function Named(blocks: seq<Block>): TorrentEntry
    requires DetailsBlock(blocks).Some? && DetailsId(FoundRows(blocks)).Ok?
  {
    EmptyEntry.(name := TrimPrefix(blocks[DetailsBlock(blocks).value].title, NamePrefix), id := DetailsId(FoundRows(blocks)).value)
  }

  /** A page read without an error went through every section. */
  lemma DetailsSections(lib: Lib, strip: string -> string, blocks: seq<Block>, files: bool, peers: bool)
    requires DetailsShaped(blocks)
    requires DetailsOf(lib, strip, blocks, files, peers).err.None?
    ensures DetailsBlock(blocks).Some? && DetailsId(FoundRows(blocks)).Ok?
    ensures SizeWords(SecondTd(FoundRows(blocks), 6).text)
    ensures DetailsOf(lib, strip, blocks, files, peers).entry ==
      Some(Sections(lib.units, FoundRows(blocks), files, peers, Head(lib, strip, FoundRows(blocks), Named(blocks))))
  {
  }

  /** A page whose block is found but whose first row has no link gives the entry with
      only its name, and the error. */
  lemma DetailsMissingLink(lib: Lib, strip: string -> string, blocks: seq<Block>, files: bool, peers: bool)
    requires DetailsShaped(blocks) && DetailsBlock(blocks).Some?
    requires RowHref(RowAt(FoundRows(blocks), 0).cells).None?
    ensures DetailsOf(lib, strip, blocks, files, peers) ==
      Outcome(Some(EmptyEntry.(name := TrimPrefix(blocks[DetailsBlock(blocks).value].title, NamePrefix))), Some(MissingHref("name")))
  {
  }

  /** With the file list the stated file count is replaced by the number of files read. */
  lemma FileCountOverwritten(lib: Lib, strip: string -> string, blocks: seq<Block>, peers: bool)
    requires DetailsShaped(blocks)
    requires DetailsOf(lib, strip, blocks, true, peers).err.None?
    ensures var te := DetailsOf(lib, strip, blocks, true, peers).entry.value;
      te.fileCount == |te.files| &&
      te.files == MapSeq(FileParser(lib.units), Body(TableRows(FoundRows(blocks), 16)))
  {
    DetailsSections(lib, strip, blocks, true, peers);
  }

  /** Without the file list the page's own count stands and no file is read. */
  lemma FileCountStated(lib: Lib, strip: string -> string, blocks: seq<Block>, peers: bool)
    requires DetailsShaped(blocks)
    requires DetailsOf(lib, strip, blocks, false, peers).err.None?
    ensures var te := DetailsOf(lib, strip, blocks, false, peers).entry.value;
      te.fileCount == FileTotal(SecondTd(FoundRows(blocks), 15).text) && te.files == []
  {
    DetailsSections(lib, strip, blocks, false, peers);
  }

  /** With the peer list the peers are the seeders followed by the leechers, the
      seeder table in row 17 (or 19 + the number of files) and the leecher table after
      it; an absent table adds no peer and leaves its count 0. */
  lemma PeersConcatenated(lib: Lib, strip: string -> string, blocks: seq<Block>, files: bool)
    requires DetailsShaped(blocks)
    requires DetailsOf(lib, strip, blocks, files, true).err.None?
    ensures var te := DetailsOf(lib, strip, blocks, files, true).entry.value;
      var rows := FoundRows(blocks);
      var at := if files then 19 + |te.files| else 17;
      var lat := LeecherRow(lib.units, rows, at);
      && te.peers == PeersAt(lib.units, rows, at) + PeersAt(lib.units, rows, lat)
      && te.seederCount == (if HasTable(rows, at) then |PeersAt(lib.units, rows, at)| else 0)
      && te.leecherCount == (if HasTable(rows, lat) then |PeersAt(lib.units, rows, lat)| else 0)
  {
    DetailsSections(lib, strip, blocks, files, true);
  }

  /** Without the peer list no peer is read; the counts come from the summary row. */
  lemma NoPeersRead(lib: Lib, strip: string -> string, blocks: seq<Block>, files: bool)
    requires DetailsShaped(blocks)
    requires DetailsOf(lib, strip, blocks, files, false).err.None?
    ensures var te := DetailsOf(lib, strip, blocks, files, false).entry.value;
      var at := if files then 19 + |te.files| else 17;
      var totals := PeerTotals(SecondTd(FoundRows(blocks), at).text);
      && te.peers == []
      && (te.seederCount, te.leecherCount) == totals.GetOr((0, 0))
  {
    DetailsSections(lib, strip, blocks, files, false);
    var rows := FoundRows(blocks);
    var h := Head(lib, strip, rows, Named(blocks));
    var f := if files then h.(files := FileRows(lib.units, rows), fileCount := |FileRows(lib.units, rows)|) else h;
    var at := PeerRow(files, |FileRows(lib.units, rows)|);
    assert Sections(lib.units, rows, files, false, h) == WithTotals(rows, at, f);
    TotalsRead(rows, at, f);
    var te := WithTotals(rows, at, f);
    assert at == if files then 19 + |te.files| else 17;
  }

  lemma TotalsRead(rows: seq<Row>, at: int, te: TorrentEntry)
    requires te.peers == [] && te.seederCount == 0 && te.leecherCount == 0
    ensures var r := WithTotals(rows, at, te);
      r.peers == [] && r.files == te.files && (r.seederCount, r.leecherCount) == PeerTotals(SecondTd(rows, at).text).GetOr((0, 0))
  {
  }

  // ----- The cursor walk -----

  /** The loop over the blocks: the first whose title starts with "Details zu". */
  method FindDetailsBlock(blocks: seq<Block>) returns (found: Option<nat>)
    ensures found == DetailsBlock(blocks)
  {
    found := None;
    var i := 0;
    while i < |blocks| && found.None?
      invariant 0 <= i <= |blocks|
      invariant found.None? ==> DetailsBlock(blocks) == BlockFrom(blocks, i)
      invariant found.Some? ==> found == DetailsBlock(blocks)
      decreases |blocks| - i, if found.None? then 1 else 0
    {
      if HasPrefix(blocks[i].title, DetailsTitle) {
        found := Some(i);
      } else {
        i := i + 1;
      }
    }
  }

  /** Rows 1 to 15, the cursor moving from 0 to 15. */
  method ReadHead(lib: Lib, strip: string -> string, rows: seq<Row>, te0: TorrentEntry) returns (te: TorrentEntry, row: int)
    requires SizeWords(SecondTd(rows, 6).text) && te0.snatchCount == 0
    ensures te == Head(lib, strip, rows, te0) && row == 15
  {
    te := te0;
    row := 0;
    row := row + 1;
    te := te.(infoHash := SecondTd(rows, row).text);
    row := row + 1;
    te := te.(description := strip(SecondTd(rows, row).html));
    row := row + 2;
    te := te.(category := Category.IdOf(SecondTd(rows, row).text).GetOr(0));
    row := row + 2;
    te := te.(size := TotalBytes(SecondTd(rows, row).text));
    row := row + 1;
    te := te.(added := DetailTime(lib, SecondTd(rows, row).text));
    row := row + 6;
    var times := Find(SecondTd(rows, row).text, TimesPattern);
    if times.Some? {
      TimesGroups();
      te := te.(snatchCount := OrZero(ParseInt32(times.value[0])));
    } else {
      assert SnatchTimes(SecondTd(rows, row).text) == 0;
    }
    row := row + 2;
    te := te.(fileCount := FileTotal(SecondTd(rows, row).text));
  }

  /** The file table in the row after the cursor; the cursor ends on its last row. */
  method ReadFiles(units: Units, rows: seq<Row>, te0: TorrentEntry, row0: int) returns (te: TorrentEntry, row: int)
    requires row0 == 15
    ensures te == te0.(files := FileRows(units, rows), fileCount := |FileRows(units, rows)|)
    ensures row == PeerRow(true, |FileRows(units, rows)|) - 2
  {
    row := row0 + 1;
    var list := ParseFileList(units, TableRows(rows, row));
    te := te0.(files := list, fileCount := |list|);
    row := row + |list| + 1;
  }

  /** The seeder table two rows after the cursor, then the leecher table. */
  method ReadPeers(units: Units, rows: seq<Row>, te0: TorrentEntry, row0: int) returns (te: TorrentEntry)
    ensures te == WithPeers(units, rows, row0 + 2, te0)
  {
    te := te0;
    var row := row0 + 2;
    var seederTables := SecondTd(rows, row).tables;
    var seeders: seq<Peer> := [];
    if |seederTables| > 0 {
      seeders := ParsePeerList(units, TableRows(rows, row));
      te := te.(seederCount := |seeders|);
      row := row + |seeders| + 1;
    }
    row := row + 1;
    assert row == LeecherRow(units, rows, row0 + 2);
    var leecherTables := SecondTd(rows, row).tables;
    var leechers: seq<Peer> := [];
    if |leecherTables| > 0 {
      leechers := ParsePeerList(units, TableRows(rows, row));
      te := te.(leecherCount := |leechers|);
      row := row + |leechers| + 1;
    }
    if |seederTables| > 0 && |leecherTables| > 0 {
      te := te.(peers := seeders + leechers);
    } else if |seederTables| > 0 {
      assert seeders + leechers == seeders;
      te := te.(peers := seeders);
    } else if |leecherTables| > 0 {
      assert seeders + leechers == leechers;
      te := te.(peers := leechers);
    }
  }

  /** The summary row two rows after the cursor. */
  method ReadTotals(rows: seq<Row>, te0: TorrentEntry, row0: int) returns (te: TorrentEntry)
    ensures te == WithTotals(rows, row0 + 2, te0)
  {
    te := te0;
    var row := row0 + 2;
    var totals := Find(SecondTd(rows, row).text, TotalsPattern);
    if totals.Some? {
      TotalsGroups();
      te := te.(seederCount := OrZero(ParseInt32(totals.value[0])));
      te := te.(leecherCount := OrZero(ParseInt32(totals.value[1])));
    }
  }

  /** parseTorrentDetails as the code runs it: find the block, then walk the rows with
      one cursor. It reads every field from the row DetailsOf names. */
  method ParseTorrentDetails(lib: Lib, blocks: seq<Block>, files: bool, peers: bool) returns (r: Outcome)
    requires DetailsShaped(blocks)
    ensures r == DetailsOf(lib, Shoutbox.Stripper(lib, ""), blocks, files, peers)
  {
    var found := FindDetailsBlock(blocks);
    if found.None? {
      return Outcome(None, Some(NoDetailsTable));
    }
    var te := EmptyEntry.(name := TrimPrefix(blocks[found.value].title, NamePrefix));
    var rows := blocks[found.value].rows;
    var href := RowHref(RowAt(rows, 0).cells);
    if href.None? {
      return Outcome(Some(te), Some(MissingHref("name")));
    }
    var id := Capture(href.value, DownloadLink);
    if id.Err? {
      return Outcome(Some(te), Some(BadNumber(id.error)));
    }
    te := te.(id := id.value);
    var row;
    te, row := ReadHead(lib, Shoutbox.Stripper(lib, ""), rows, te);
    if files {
      te, row := ReadFiles(lib.units, rows, te, row);
    }
    assert row == PeerRow(files, |FileRows(lib.units, rows)|) - 2;
    if peers {
      te := ReadPeers(lib.units, rows, te, row);
    } else {
      te := ReadTotals(rows, te, row);
    }
    return Outcome(Some(te), None);
  }
}
