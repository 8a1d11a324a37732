# irrenhaus-api, modelled in Dafny

irrenhaus-api is a Go client for a German BitTorrent tracker site. The site has no
machine API, so the client logs in with a form, keeps the session cookies, and scrapes
the site's HTML pages into Go records. It also reads and writes the site's shoutbox
through its JSON endpoint.

This project models the client's core:

- **Torrent.go:**
  - `Search`: builds the query, finds the highest page number in the pagination links, crawls pages 1..N concurrently and merges the results by id.
  - `parseTorrentList` / `parseTorrentEntry`: the rows of the result table.
  - `Details` / `parseTorrentDetails`: the details page, read with one row cursor through the optional file table and peer tables.
  - `parsePeerList`, `parseFileList`, `parseSnatches`: the per-table extractors.
  - The text converters `stringToDatasize`, the size column, the ratio column and the connection time.
- **Shoutbox.go:** the tab repair of the JSON body, the decoding of the `[][]string` tuples into messages, their reversal, the post confirmation scan, the message normalizer `ShoutboxStrip`, and the emoji table with `emojify`.
- **Irrenhaus.go:** the `Connection` record and its setters, `buildUrl`, the cookies a request carries, the cookie loop of `Login`, and `keepLines`.
- **Category/Category.go:** the table of 28 category ids and its two lookups.

The model has these modules:

| module | contents |
|---|---|
| `Wrappers` | Option and Result |
| `GoStrings` | Go's strings functions on sequences |
| `GoStrconv` | `ParseInt`/`ParseUint` with Go's error values, `Itoa`, and a decimal `ParseFloat` |
| `Pattern` | the literal-and-`\d+` regular expressions the client uses |
| `Library` | the standard-library and third-party behaviour taken as given |
| `Dom` | the parts of a goquery document the scrapers read |
| `Category`, `Irrenhaus`, `Shoutbox`, `Emoji`, `Torrent`, `Details` | one module per part of the client |
| `Crawl` | the pagination merge shared by Search and Details |
| `Fetch` | Search and Details |

How the source's forms are kept:

- Code that mutates is imperative Dafny. This covers the global category and emoji maps, the `Connection` and `url.Values` objects, the row loops, the reversal swap and the cursor walk.
- Each such method is proved equal to a specification function that has its own lemmas.
- Byte counts are exact: the whole part of an exact decimal times the unit. Go computes them in float64.
- The inputs that come from the network are parameters: the response status, the parsed document, cookies, JSON tuples and channel events.

## Model

| member | source | states |
|---|---|---|
| Category.NamesDomain | Category/Category.go:27-60 | the table has exactly the ids 1..28 |
| Category.NamesDistinct | Category/Category.go:32-59 | no two ids carry the same name, so ToInt's answer does not depend on map order |
| Category.NameOf | Category/Category.go:73-80 | an id has a name exactly when it is 1..28; otherwise the error is "category id not found" |
| Category.IdOf | Category/Category.go:62-71 | a found id names the string; no id is found only when no id carries the name |
| Category.IdRoundTrip | Category/Category.go:62-80 | ToInt(ToString(id)) == id for every id in the table |
| Category.NameRoundTrip | Category/Category.go:62-80 | ToString(ToInt(name)) == name for every name ToInt finds |
| Category.Categories.Init | Category/Category.go:27-60 | initCategories leaves the map as the full table, and a filled map is left alone |
| Category.Categories.ToInt | Category/Category.go:62-71 | the map loop returns the id carrying the name; otherwise the result is 0 with "category name not found" |
| Category.Categories.ToString | Category/Category.go:73-80 | the lookup returns the name, or "" with the id error |
| Irrenhaus.Rooted | Irrenhaus.go:80-82 | the path starts with '/'; a rooted path is kept and any other gets one prefixed |
| Irrenhaus.BuildUrlShape | Irrenhaus.go:79-87 | the url is the site url plus the rooted path, and it ends in "?" plus the encoded query exactly when there are values |
| Irrenhaus.BuildUrlSlash | Irrenhaus.go:79-87 | a path without its leading '/' gives the same url as with it |
| Irrenhaus.RequestCookies | Irrenhaus.go:146-152 | no cookie without a uid; otherwise uid (decimal) and pass, plus passhash exactly when it is set |
| Irrenhaus.AbsorbLastWins | Irrenhaus.go:103-112 | after the cookie loop each field holds the last cookie of its name (uid through ParseInt, whose value is kept on error), or its old value when there is no such cookie |
| Irrenhaus.AbsorbIgnores | Irrenhaus.go:103-112 | a cookie of any other name can be removed without effect |
| Irrenhaus.LastValueIgnores | Irrenhaus.go:103-112 | the last value of a name does not depend on cookies of other names |
| Irrenhaus.CookieRoundTrip | Irrenhaus.go:103-112 | the cookies a request carries, absorbed by Login's loop, give the session back; an unset passhash leaves the other side's own |
| Irrenhaus.KeepLines | Irrenhaus.go:192-198 | text with fewer than three newlines is returned unchanged; otherwise n = 0 gives "" and n >= 1 gives the prefix of the text that ends just before the n-th newline (or at the end), with every '\r' removed: n - 1 newlines, no '\r', no longer than the input |
| Irrenhaus.KeptLines | Irrenhaus.go:196-197 | the join of the first n split lines with '\r' removed is the '\r'-free prefix of the text up to the n-th newline or the end; it has n - 1 newlines, no '\r' and is no longer than the text |
| Irrenhaus.CarriageReturnsRemoved | Irrenhaus.go:197 | removing every '\r' keeps the newlines, leaves no '\r' and never lengthens |
| Irrenhaus.Connection.constructor | Irrenhaus.go:55-65 | NewConnection stores the credentials, no cookies and the default user agent |
| Irrenhaus.Connection.SetUserAgent | Irrenhaus.go:67-69 | only the user agent changes |
| Irrenhaus.Connection.SetCookies | Irrenhaus.go:75-77 | only the cookies change |
| Irrenhaus.Connection.LoginUrl | Irrenhaus.go:91 | Login posts to the site url plus "/takelogin.php", with no query |
| Irrenhaus.Connection.Login | Irrenhaus.go:89-117 | a transport error or the failure notice leaves the cookies alone and returns the error; otherwise the response cookies are absorbed in order; nothing else changes |
| Library.Added | Torrent.go:270-281 | url.Values.Add appends to the key's list and leaves every other key alone |
| Library.Assigned | Torrent.go:326 | url.Values.Set replaces the key's list by one value and leaves every other key alone |
| Library.Query.Add | Torrent.go:270-281 | the in-place Add leaves the values as Added gives them |
| Library.Query.Set | Torrent.go:326 | the in-place Set leaves the values as Assigned gives them |
| Dom.CellAt | Torrent.go:1119-1121 | tds.Eq(i) is the i-th cell, or an empty selection out of range |
| Dom.FirstAnchor | Torrent.go:442 | Find("a").First() is the first link exactly when the cell has one |
| GoStrconv.ParseUint | Torrent.go:888-901 | strconv.ParseUint succeeds exactly on a digit string below the limit and gives its value; a syntax error gives 0 and a range error gives limit - 1 |
| GoStrconv.ParseInt | Torrent.go:442 | strconv.ParseInt's value lies in range on success, is 0 on a syntax error, and on a range error it is -cutoff for text with a leading '-' and cutoff - 1 otherwise |
| GoStrconv.ParseIntDigits | Torrent.go:442 | a digit string parses to its value below the cutoff and to the range error with the bound above it |
| GoStrconv.ParseIntItoa | Irrenhaus.go:106 | the uid formatted with %d parses back to itself |
| GoStrconv.ItoaInjective | Torrent.go:326 | %d of two different numbers differ |
| GoStrconv.ParseDecimalPoint | Torrent.go:1094 | ParseFloat of "whole.frac" is the exact decimal whole+frac scaled by the fraction's length |
| GoStrconv.TruncToNatBounds | Torrent.go:1101 | uint64(x * unit) takes the whole part: the result brackets the exact product |
| GoStrconv.TruncToIntIs | Torrent.go:874-878 | int(x) is n exactly when n <= x < n + 1 |
| GoStrings.JoinSplit | Irrenhaus.go:196 | joining the split parts with the separator gives the text back |
| GoStrings.SplitPrefix | Irrenhaus.go:196 | the join of the first n parts is a prefix of the text with n - 1 separators |
| GoStrings.Split | Torrent.go:1088 | strings.Split gives one more part than there are separators, none containing one |
| Shoutbox.SanitizeJSONFacts | Shoutbox.go:533-541 | no tab is left, each tab adds three bytes and four spaces, other bytes keep their count, and a tab-free body is unchanged |
| Shoutbox.LineBreaksBrNewline | Shoutbox.go:194 | "<br>\n" between plain text becomes a newline |
| Shoutbox.LineBreaksBr | Shoutbox.go:195 | a bare "<br>" is deleted |
| Shoutbox.LineBreaksBrSlashNewline | Shoutbox.go:196 | "<br/>\n" becomes a newline |
| Shoutbox.LineBreaksBrSlash | Shoutbox.go:197 | a bare "<br/>" is deleted |
| Shoutbox.LineBreaksNbsp | Shoutbox.go:198 | "&nbsp;" becomes a space |
| Shoutbox.LineBreaksPlain | Shoutbox.go:194-198 | text without '<' and '&' passes the literal replacements unchanged |
| Shoutbox.StripLineBreak | Shoutbox.go:173-205 | the regular-expression stages run first, then the line breaks, then emojify, then unescaping |
| Shoutbox.EventOf | Shoutbox.go:107-130 | tuple 0 becomes a message carrying only the event: type and id from fields 0 and 1, data from fields 3..6 |
| Shoutbox.MessageOf | Shoutbox.go:135-161 | a kept tuple gives id and uid from fields 0 and 1 (ParseInt's value even on error), the date from field 2 (the zero time when it does not parse), the user from field 4 and the normalized field 5 |
| Shoutbox.CollectedIsEventThenMessages | Shoutbox.go:105-162 | the decoding loop gives the event first and then exactly the tuples with an id and an empty type, in order |
| Shoutbox.MessagesDropped | Shoutbox.go:132-151 | a tuple without an id or with a type contributes nothing |
| Shoutbox.MessagesKept | Shoutbox.go:135-161 | a kept tuple contributes exactly its message, in place |
| Shoutbox.MessagesNoEvent | Shoutbox.go:153-159 | no message after tuple 0 carries an event |
| Shoutbox.DecodeTuples | Shoutbox.go:105-162 | the append loop computes the collected messages |
| Shoutbox.ReversedIndex | Shoutbox.go:165-167 | element i of the reversal is element n - 1 - i |
| Shoutbox.ReversedMultiset | Shoutbox.go:165-167 | the reversal is a permutation |
| Shoutbox.ReversedTwice | Shoutbox.go:165-167 | reversing twice gives the sequence back |
| Shoutbox.ReverseInPlace | Shoutbox.go:165-167 | the two-pointer swap loop leaves the array reversed |
| Shoutbox.ShoutboxRead | Shoutbox.go:85-169 | ShoutboxRead after the request computes ReadResult of the body |
| Shoutbox.ReadEmpty | Shoutbox.go:90-92 | a body of at most one byte is no messages and no error |
| Shoutbox.ReadErrors | Shoutbox.go:96-103 | an undecodable body is "serverload" when it holds the overload notice and the decoder's error otherwise |
| Shoutbox.ReadDecoded | Shoutbox.go:105-169 | a decoded body gives the kept messages newest first with the event record last, and no other event |
| Shoutbox.ConfirmScan | Shoutbox.go:234-249 | the scan is true exactly when some tuple has an id, the session's uid and the sent text |
| Shoutbox.ShoutboxWrite | Shoutbox.go:222-250 | a decode error is returned; otherwise the result says whether some echoed tuple confirms the post |
| Emoji.BuildMap | Shoutbox.go:279-518 | the assignments run in order into a fresh map give Build of them |
| Emoji.BuildLastWins | Shoutbox.go:279-518 | the last assignment to a name is the one that stays |
| Emoji.FlattenLastWins | Shoutbox.go:279-518 | a name's value is the one the last block that assigns it gives |
| Emoji.OverwrittenSmileys | Shoutbox.go:281-501 | smile1.gif, grin.gif and cry.gif first get real emoji, then end as U+FFFD because later lines win |
| Emoji.ZwinkernStays | Shoutbox.go:282 | zwinkern.gif is assigned once and keeps U+1F609 |
| Emoji.Emojis.Init | Shoutbox.go:274-280 | emojiInit leaves the map as the full table, and a filled map is left alone |
| Emoji.ReplaceTokens | Shoutbox.go:525-528 | the replacement loop, in any order the map yields, equals the one left-to-right pass, because tokens never overlap |
| Emoji.Emojify | Shoutbox.go:521-531 | emojify fills the table and computes Scan of the text |
| Emoji.ScanToken | Shoutbox.go:526-527 | the token of a table name becomes its character |
| Emoji.ScanLeavesUnknown | Shoutbox.go:526-527 | "emoji:" followed by no table name is left as it is |
| Emoji.FindTokenIs | Shoutbox.go:525-528 | in the table, the token found at a position is the only one that fits |
| Torrent.StringToDatasize | Torrent.go:1087-1117 | no space gives 0 and an unparseable number gives 0; otherwise the result is the whole part of the number times the unit's factor |
| Torrent.UnknownUnit | Torrent.go:1112-1113 | a unit word other than KB..EB counts single bytes |
| Torrent.DatasizeLocale | Torrent.go:1092-1094 | "<digits with dots>,<f> <unit>" is the digits without dots, scaled down by f's length, times the unit |
| Torrent.DatasizeExample | Torrent.go:1087-1117 | "1.234,56 MB" is 123456 * MB / 100 bytes |
| Torrent.DatasizeNoSpace | Torrent.go:1088-1091 | text without a space is 0 bytes |
| Torrent.SizeCell | Torrent.go:462-494 | the size column is an error exactly when the part before the comma or the two digits after it fail ParseInt |
| Torrent.SizeCellDigits | Torrent.go:462-494 | "I,FFunit" is (I * 100 + FF) * unit / 100 bytes, rounded down |
| Torrent.RatioOf | Torrent.go:852-864 | "Inf." is infinite and "---" is undefined; anything else is the number it spells, or 0 |
| Torrent.RatioNumber | Torrent.go:852-864 | the float stored for a ratio is -1 for infinite and 0 for undefined |
| Torrent.DurationMatch | Torrent.go:815 | `(:?(\d+)d )?([0-9:]+)` matches exactly when the text holds a digit or colon |
| Torrent.DurationAt | Torrent.go:815 | the clock group is never empty, groups 1 and 2 are empty together, group 2 is digits and group 1 ends in "d " |
| Torrent.MatchClockOnly | Torrent.go:815 | a clock without days matches with empty day groups |
| Torrent.MatchWithDays | Torrent.go:815 | "Nd clock" matches with group 1 "Nd ", group 2 "N" and group 3 the clock |
| Torrent.FieldValue | Torrent.go:898-901 | a field is its value when it parses as a 32-bit unsigned number and 0 when it is not digits |
| Torrent.ColonSeconds | Torrent.go:895-904 | the colon loop is the base-60 value of the fields, most significant first |
| Torrent.WeightedStep | Torrent.go:897-904 | field i weighs 60 to the power of the number of fields after it |
| Torrent.ClockExample | Torrent.go:895-904 | "03:04:05" is 11045 seconds |
| Torrent.ConnectedIgnoresClock | Torrent.go:884-906 | as written, the connection time is the day number when there are days and 0 otherwise |
| Torrent.DurationFindingClock | Torrent.go:884-906 | "03:04:05" gives 0 as written and 11045 as intended |
| Torrent.DaysFinding | Torrent.go:884-906 | with days, the code counts the day number as seconds; the intended value is days * 86400 plus the clock |
| Torrent.DurationFindingDays | Torrent.go:884-906 | "2d 03:04:05" gives 2 as written and 183845 as intended |
| Torrent.Body | Torrent.go:385-388 | every row but the header, in order |
| Torrent.CaptureDigits | Torrent.go:420-438 | the number right after the literal of `lit(\d+)` is the one captured |
| Torrent.Uploader | Torrent.go:517-523 | the link's text when there is exactly one link, "anon" otherwise |
| Torrent.EntryHead | Torrent.go:400-460 | no category link is the "typ" error; an entry has category and id captured from the links, name from title or text, file and comment counts and the parsed date |
| Torrent.ParseTorrentEntry | Torrent.go:400-526 | a head error is returned as it is; an entry is the head plus the size column, the three count links and the uploader, each read from its cell |
| Torrent.OkValuesMember | Torrent.go:389-395 | a value is sent exactly when it is the value of an Ok result |
| Torrent.RowEntriesMember | Torrent.go:385-396 | an entry is listed exactly when some row parses to it |
| Torrent.SendOks | Torrent.go:385-396 | the row loop sends the Ok values of the rows in order and skips the errors |
| Torrent.ParseTorrentList | Torrent.go:373-398 | the entries are the parsing rows after the header of every table whose first cell reads "Typ", in document order |
| Torrent.FileOf | Torrent.go:932-951 | a file row is its name cell and its size cell through stringToDatasize |
| Torrent.ParseFileList | Torrent.go:932-951 | one file per row after the header, in order |
| Torrent.Completion | Torrent.go:866-880 | the completion is the div title without its first two '%', or 0 without a title or when it does not parse |
| Torrent.PeerOf | Torrent.go:817-926 | a peer seeds exactly when its completion, truncated, is 100; its connection and idle time stay 0 |
| Torrent.SeederIsComplete | Torrent.go:866-880 | a seeder is a peer whose completion lies in [100, 101) |
| Torrent.ParsePeerRow | Torrent.go:822-926 | the row loop's body computes PeerOf of the cells |
| Torrent.ParsePeerList | Torrent.go:799-930 | one peer per row after the header, in order |
| Torrent.DetailTime | Torrent.go:1034-1056 | time.Parse with the detail layout, or the epoch when it fails |
| Torrent.SnatchOf | Torrent.go:1000-1057 | name, downloaded, uploaded, ratio and completed from their columns; seeding exactly when the font reads "Seedet im Moment", and then stopped is the epoch |
| Torrent.ParseSnatchRow | Torrent.go:1000-1057 | the row loop's body computes SnatchOf of the cells |
| Torrent.ParseSnatches | Torrent.go:973-1060 | one snatch per row after the header of the first table, in order |
| Details.BlockFrom | Torrent.go:638-652 | the first block whose title starts with "Details zu", or none when no block does |
| Details.FindDetailsBlock | Torrent.go:638-652 | the block loop finds that block |
| Details.DetailsId | Torrent.go:657-670 | a row without a link is the "name" error; otherwise the id is captured from the download link |
| Details.TotalBytesDigits | Torrent.go:695-704 | "117,73 GB (123,456,789 Bytes)" gives the exact byte count 123456789 |
| Details.SnatchTimes | Torrent.go:714-724 | the number before " mal", 0 when there is none |
| Details.SnatchTimesDigits | Torrent.go:714-724 | "<n> mal" gives n |
| Details.FileTotalDigits | Torrent.go:726-743 | "<n with commas> Dateien" gives n |
| Details.PeerTotals | Torrent.go:777-794 | the summary row has counts exactly when it has the summary shape |
| Details.PeerTotalsDigits | Torrent.go:777-794 | "s Seeder, l Leecher = t Peer(s) gesamt" gives (s, l) |
| Details.DetailsOf | Torrent.go:630-797 | no entry exactly when no block title starts with "Details zu", and then "no details table"; otherwise the entry is named after the title |
| Details.DetailsSections | Torrent.go:630-797 | a page read without an error went through the head and every section |
| Details.DetailsMissingLink | Torrent.go:657-670 | a missing download link gives the entry with only its name, and the error |
| Details.FileCountOverwritten | Torrent.go:726-743 | with the file list, the file count is the number of files read |
| Details.FileCountStated | Torrent.go:726-743 | without it, the page's own count stands and no file is read |
| Details.PeersConcatenated | Torrent.go:745-776 | with the peer list, the peers are the seeders then the leechers, read from rows that move with the file table; an absent table adds nothing and leaves its count 0 |
| Details.NoPeersRead | Torrent.go:777-794 | without it, no peer is read and the counts come from the summary row |
| Details.ReadHead | Torrent.go:672-724 | the cursor walk over rows 1 to 15 computes Head |
| Details.ReadFiles | Torrent.go:726-743 | the file table sets the files and their count and moves the cursor past them |
| Details.ReadPeers | Torrent.go:745-776 | the seeder and leecher tables are read where WithPeers reads them |
| Details.ReadTotals | Torrent.go:777-794 | the summary row is read where WithTotals reads it |
| Details.ParseTorrentDetails | Torrent.go:630-797 | the block loop and the one-cursor walk compute DetailsOf, with ShoutboxStrip and an empty site url as the description normalizer |
| Crawl.FinishesAppend | Torrent.go:337-338 | the finished signals of two runs add up |
| Crawl.TakenStops | Torrent.go:332-341 | the merge loop stops right after the (maxpage + 1)-th finished signal, never earlier, or runs out of events |
| Crawl.MergedLastWins | Torrent.go:334-335 | a key is in the map exactly when some record carries it, and it holds the last such record |
| Crawl.FanIn | Torrent.go:332-341 | the select loop builds the merge of the events it takes |
| Crawl.ListOf | Torrent.go:346-348 | the list holds the map's values in some order that visits every key once |
| Crawl.OnePerKey | Torrent.go:332-348 | the list holds one record per key, and every key a record carried |
| Crawl.MaxFromIsMax | Torrent.go:316-321 | maxpage is at least the start and every page number, and it is one of them |
| Crawl.MaxPageIsMax | Torrent.go:310-322 | maxpage is the largest page number seen, or 0 when none is positive |
| Crawl.MaxFromAppend | Torrent.go:312-322 | running the update over two runs in sequence is running it over both |
| Crawl.MaxPageAfter | Torrent.go:316-321 | the update loop computes MaxFrom |
| Crawl.MaxPage | Torrent.go:590-595 | Details' loop computes the highest page number |
| Crawl.MaxLinkedPage | Torrent.go:310-322 | Search's loop over every match of every pagination link computes it |
| Crawl.PageQueryAgain | Torrent.go:325-326 | setting the page again replaces the page set before |
| Crawl.CrawlUrls | Torrent.go:324-330 | one url per page 1..maxpage, in order, url i asking for page i + 1 |
| Crawl.PageCrawledOnce | Torrent.go:324-330 | the crawl for page p is the only one of pages 1..maxpage whose query asks for page p |
| Crawl.Paginate | Torrent.go:324-348 | maxpage urls for pages 1..maxpage, the query left asking for page maxpage, and the merged records, one per key |
| Fetch.FlagKey | Torrent.go:277-279 | a category flag key is "c" and the id, never "cat" |
| Fetch.FlagKeyInjective | Torrent.go:277-279 | distinct categories have distinct flag keys |
| Fetch.CategoryFlagsKeys | Torrent.go:276-280 | adding the flags adds exactly one key per category |
| Fetch.CategoryFlagsOthers | Torrent.go:276-280 | the other keys stay as they were |
| Fetch.CategoryFlagCount | Torrent.go:276-280 | a flag key gets one "1" per time its category is listed |
| Fetch.BaseValuesShape | Torrent.go:270-272 | the query starts with the needle, incldead as 1 or 0, and orderby=added |
| Fetch.OneCategory | Torrent.go:273-275 | exactly one category is sent as cat=<id> |
| Fetch.FlagKeysAdded | Torrent.go:276-280 | any other number of categories is sent as c<id> flags, with no cat key |
| Fetch.CategoryFlagsAdded | Torrent.go:276-280 | the flags come with one "1" per listing, and the first three keys are unchanged |
| Fetch.BuildSearchQuery | Torrent.go:270-281 | the in-place query building gives SearchValues |
| Fetch.SearchPages | Torrent.go:266-351 | the first url, one url per page up to the highest page number in the links, and the merged torrents, one per id |
| Fetch.SearchAsWritten | Torrent.go:287-322 | as written, no page after the first is crawled, whatever the links are |
| Fetch.PageLink | Torrent.go:310-315 | a link "page=<digits>" yields those digits |
| Fetch.PaginationLost | Torrent.go:310-322 | a page linking to page 3 should crawl three pages |
| Fetch.AddSnatches | Torrent.go:558-625 | a transport error is returned; a 404 keeps the entry; otherwise the entry gets the merged snatches of pages 1..maxpage, one per name, and nothing else changes |
| Fetch.FetchDetails | Torrent.go:528-628 | 404 is "torrent not found"; a parse error is returned; otherwise the parsed entry; when snatches are asked for, a snatch-page transport error is returned, a 404 keeps the entry, and otherwise the entry's snatches are the merge of pages 1..maxpage keyed by name, one per name, with every other field kept |

## Left out

- HTTP transport, timeouts, redirects and `assureLogin`. `Login`, `ShoutboxRead` and `ShoutboxWrite` receive what the transport returned as parameters: an error, the status or the body. `Search` and `Details` receive the status and the parsed document of each response. The url building of the request for the details page (Torrent.go:532-539) is not modelled; the page comes in as an input.
- The early error returns of Search and Details are not modelled: the failed login check (Torrent.go:529-531), the transport error of the first request (Torrent.go:282-285, 539-542) and goquery's parse error (Torrent.go:305-308). Fetch.SearchPages and Fetch.FetchDetails start from a response that arrived.
- The description cell (Torrent.go:679): `.After("center")` moves every `center` element of the document behind that cell before its HTML is read. `Dom.Cell.html` is the cell's inner HTML after that move; what the move does to the rows read later is not modelled.
- `Upload`, `Thank`, `DownloadTorrent` and Comment.go are not part of this model.
- Goroutines and channels:
  - the fan-in consumes a given sequence of events;
  - the order in which concurrent crawlers deliver their records is arbitrary;
  - Go's map iteration order is modelled by an existential ordering.
- Crawl.FanIn: when fewer finished signals arrive than the loop waits for, Go blocks forever. The model stops at the end of the events.
- The HTML parser, the CSS selectors and html.UnescapeString are abstract:
  - a page is given as its tables, rows, cells and links (module `Dom`);
  - the blocks of the details page are given with their titles.
- These are function fields of `Library.Lib`, taken as given:
  - `json.Unmarshal` into `[][]string`;
  - `url.Values.Encode`;
  - `time.Parse`;
  - the ISO-8859-1 decoding;
  - the fifteen regular-expression stages of `ShoutboxStrip`.
- The snatch-list link regular expression `<a href="(.+&page=(\d+))".*>` (Torrent.go:587). Its captured page numbers are an input of `Fetch.AddSnatches`.
- `datasize` units are an abstract `Units` record. Only their positivity and order are assumed.
- Floating-point arithmetic:
  - byte counts and ratios are exact decimals;
  - `uint64(float)` is the whole part, with no rounding;
  - there is no uint64 overflow or saturation;
  - `ParseFloat` accepts only `[-]digits[.digits]`, so exponents, `inf`, `nan` and hexadecimal count as unparseable.
- Error message texts of strconv and time, and the debug logging.
- Details.DetailsOf, Details.ParseTorrentDetails: the description normalizer is a parameter. The code fixes it to ShoutboxStrip with an empty site url, and `Fetch.FetchDetails` passes exactly that.
- Torrent.DurationMatch: its contract states only when the pattern matches. The groups it picks are stated by MatchClockOnly, MatchWithDays and DurationAt.
- Torrent.PeerOf: its contract states only the seeder flag and the two zero times. The other columns are stated through ParsePeerRow, which is proved equal to it column by column.
- GoStrconv.TruncToNat, GoStrconv.TruncToInt: their contracts give only the sign. The bracketing of the whole part is in TruncToNatBounds and TruncToIntIs.
- Torrent.UnitFactor: its contract states only that a factor is positive. The unknown-unit rule is in UnknownUnit.
- Go panics (an index out of range on a tuple, a size column without its comma, a size row without a third word) are preconditions of the members that would panic.
- Page numbering: the first request carries no page parameter, and the crawls ask for page=1..maxpage (Torrent.go:324-329, 599-603). The model follows the code and assumes nothing about how the site numbers its pages.

## Findings

| source | as written | input that shows it | evidently intended | confidence | as-written member | corrected member |
|---|---|---|---|---|---|---|
| Torrent.go:815, 884-906 | in `(:?(\d+)d )?([0-9:]+)` the `(:?` is a capturing group, so m[1] is "Nd " (which never parses) and m[2] is the day digits, which the colon loop reads as seconds; the clock in m[3] is never counted | "03:04:05" gives 0; "2d 03:04:05" gives 2 | `(?:`: days * 86400 plus the clock in base 60, 11045 and 183845 | not executed | Torrent.ConnectedAsWritten (Torrent.ConnectedIgnoresClock, Torrent.DurationFindingClock, Torrent.DurationFindingDays) | Torrent.Duration (Torrent.DaysFinding, Torrent.ClockExample) |
| Torrent.go:287, 305 | `ioutil.ReadAll(resp.Body)` drains the body before `goquery.NewDocumentFromResponse(resp)` parses the same response, so the document is empty, maxpage stays 0 and only the first page is read | a first page whose pagination links `page=3` | the links are read from the saved body, and pages 1..3 are crawled | not executed | Fetch.SearchAsWritten (Fetch.PaginationLost) | Fetch.SearchPages |
