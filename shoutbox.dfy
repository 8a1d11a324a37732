/** The shoutbox codec of Shoutbox.go: the tab repair of the JSON body, the decoding
    of the `[][]string` tuples into messages, their reversal, the confirmation scan
    after a post, and the normalizer that turns a message's HTML into text. */
module Shoutbox {
  import opened Wrappers
  import opened GoStrings
  import opened GoStrconv
  import opened Library
  import opened Emoji

  // ----- sanitizeJSON -----

  const Tab: byte := 9
  const Space: byte := 32

  /** sanitizeJSON: the site sends raw tabs inside JSON strings; each becomes four
      spaces. */
  function SanitizeJSON(body: seq<byte>): seq<byte>
  {
    ReplaceAll(body, [Tab], [Space, Space, Space, Space])
  }

  /** No tab is left, each tab makes the body three bytes longer, every byte other
      than tab and space keeps its count, and a body without tabs is unchanged. */
  lemma SanitizeJSONFacts(body: seq<byte>)
    ensures Tab !in SanitizeJSON(body)
    ensures |SanitizeJSON(body)| == |body| + 3 * Count(body, Tab)
    ensures Count(SanitizeJSON(body), Space) == Count(body, Space) + 4 * Count(body, Tab)
    ensures forall b: byte :: b != Tab && b != Space ==> Count(SanitizeJSON(body), b) == Count(body, b)
    ensures Tab !in body ==> SanitizeJSON(body) == body
  {
    var rep: seq<byte> := [Space, Space, Space, Space];
    ReplaceOneGone(body, Tab, rep);
    ReplaceOneLength(body, Tab, rep);
    ReplaceOneCount(body, Tab, rep, Space);
    assert Count(rep, Space) == 4 by {
      var one: seq<byte> := [Space];
      var two: seq<byte> := [Space, Space];
      var three: seq<byte> := [Space, Space, Space];
      assert one[1..] == [];
      assert Count(one, Space) == 1;
      assert two[1..] == one;
      assert Count(two, Space) == 2;
      assert three[1..] == two;
      assert Count(three, Space) == 3;
      assert rep[1..] == three;
    }
    forall b: byte | b != Tab && b != Space
      ensures Count(SanitizeJSON(body), b) == Count(body, b)
    {
      ReplaceOneCount(body, Tab, rep, b);
      assert Count(rep, b) == 0 by { CountAbsent(rep, b); }
    }
    if Tab !in body {
      ReplaceOneAbsent(body, Tab, rep);
    }
  }

  // ----- ShoutboxStrip -----

  /** The regular-expression stages, in the order ShoutboxStrip runs them. */
  const StripStages: seq<Stage> :=
    [Center, Bold, Italic, Underline, EmojiImage, Image, Image3, Color,
     Link, Link2, Size, Font, Nfo, Pre, Hxxp]

  function Rewrite(lib: Lib, url: string, stages: seq<Stage>, s: string): string
  {
    if |stages| == 0 then s
    else Rewrite(lib, url, stages[1..], lib.rewrite(stages[0], url, s))
  }

  /** The five literal replacements, in the code's order. */
  function LineBreaks(s: string): string
  {
    var a := ReplaceAll(s, "<br>\n", "\n");
    var b := ReplaceAll(a, "<br>", "");
    var c := ReplaceAll(b, "<br/>\n", "\n");
    var d := ReplaceAll(c, "<br/>", "");
    ReplaceAll(d, "&nbsp;", " ")
  }

  /** ShoutboxStrip: the stages, the literal replacements, emojify, then
      html.UnescapeString. */
  function ShoutboxStrip(lib: Lib, msg: string, url: string): string
  {
    lib.unescape(Scan(LineBreaks(Rewrite(lib, url, StripStages, msg))))
  }

  /** Text with no '<' and no '&' is what the literal replacements leave alone. */
  predicate Plain(s: string)
  {
    '<' !in s && '&' !in s
  }

  lemma PlainUnchanged(a: string, pat: string, rep: string)
    requires Plain(a) && |pat| > 0 && (pat[0] == '<' || pat[0] == '&')
    ensures ReplaceAll(a, pat, rep) == a
  {
    ReplacePlain(a, pat, rep);
  }

  lemma LineBreaksPlain(a: string)
    requires Plain(a)
    ensures LineBreaks(a) == a
  {
    PlainUnchanged(a, "<br>\n", "\n");
    PlainUnchanged(a, "<br>", "");
    PlainUnchanged(a, "<br/>\n", "\n");
    PlainUnchanged(a, "<br/>", "");
    PlainUnchanged(a, "&nbsp;", " ");
  }

  /** One replacement over plain text around a marker: a + t + b becomes a + u + b,
      provided the marker t itself becomes u. */
  lemma AroundMarker(a: string, t: string, b: string, pat: string, rep: string, u: string)
    requires Plain(a) && Plain(b) && |pat| > 0 && (pat[0] == '<' || pat[0] == '&')
    requires ReplaceAll(t + b, pat, rep) == u + ReplaceAll(b, pat, rep)
    ensures ReplaceAll(a + t + b, pat, rep) == a + u + b
  {
    assert a + t + b == a + (t + b);
    ReplacePlainPrefix(a, t + b, pat, rep);
    ReplacePlain(b, pat, rep);
  }

  /** A marker that is not the pattern is copied (a marker holds its special
      character only in front). */
  lemma MarkerKept(t: string, b: string, pat: string, rep: string)
    requires |pat| > 0 && (pat[0] == '<' || pat[0] == '&')
    requires |t| > 0 && Plain(t[1..]) && Plain(b)
    requires !HasPrefix(t + b, pat)
    ensures ReplaceAll(t + b, pat, rep) == t + ReplaceAll(b, pat, rep)
  {
    ReplaceNearMiss(t, b, pat, rep);
  }

  lemma MarkerHit(b: string, pat: string, rep: string)
    requires |pat| > 0
    ensures ReplaceAll(pat + b, pat, rep) == rep + ReplaceAll(b, pat, rep)
  {
    ReplaceAtFront(b, pat, rep);
  }

  /** "<br>\n" becomes a newline. */
  lemma LineBreaksBrNewline(a: string, b: string)
    requires Plain(a) && Plain(b)
    ensures LineBreaks(a + "<br>\n" + b) == a + "\n" + b
  {
    MarkerHit(b, "<br>\n", "\n");
    AroundMarker(a, "<br>\n", b, "<br>\n", "\n", "\n");
    var x := a + "\n" + b;
    assert Plain(x);
    PlainUnchanged(x, "<br>", "");
    PlainUnchanged(x, "<br/>\n", "\n");
    PlainUnchanged(x, "<br/>", "");
    PlainUnchanged(x, "&nbsp;", " ");
  }

  /** A bare "<br>" is deleted, not turned into a newline. */
  lemma LineBreaksBr(a: string, b: string)
    requires Plain(a) && Plain(b) && (|b| == 0 || b[0] != '\n')
    ensures LineBreaks(a + "<br>" + b) == a + b
  {
    assert !HasPrefix("<br>" + b, "<br>\n") by {
      if |b| > 0 { assert ("<br>" + b)[4] == b[0]; }
    }
    MarkerKept("<br>", b, "<br>\n", "\n");
    AroundMarker(a, "<br>", b, "<br>\n", "\n", "<br>");
    MarkerHit(b, "<br>", "");
    AroundMarker(a, "<br>", b, "<br>", "", "");
    assert a + "" + b == a + b;
    LineBreaksPlain(a + b);
    PlainUnchanged(a + b, "<br/>\n", "\n");
    PlainUnchanged(a + b, "<br/>", "");
    PlainUnchanged(a + b, "&nbsp;", " ");
  }

  /** "<br/>\n" becomes a newline. */
  lemma LineBreaksBrSlashNewline(a: string, b: string)
    requires Plain(a) && Plain(b)
    ensures LineBreaks(a + "<br/>\n" + b) == a + "\n" + b
  {
    var t := "<br/>\n";
    assert !HasPrefix(t + b, "<br>\n") by { assert (t + b)[3] == '/'; }
    assert !HasPrefix(t + b, "<br>") by { assert (t + b)[3] == '/'; }
    MarkerKept(t, b, "<br>\n", "\n");
    AroundMarker(a, t, b, "<br>\n", "\n", t);
    MarkerKept(t, b, "<br>", "");
    AroundMarker(a, t, b, "<br>", "", t);
    MarkerHit(b, t, "\n");
    AroundMarker(a, t, b, t, "\n", "\n");
    var x := a + "\n" + b;
    assert Plain(x);
    PlainUnchanged(x, "<br/>", "");
    PlainUnchanged(x, "&nbsp;", " ");
  }

  /** A bare "<br/>" is deleted too. */
  lemma LineBreaksBrSlash(a: string, b: string)
    requires Plain(a) && Plain(b) && (|b| == 0 || b[0] != '\n')
    ensures LineBreaks(a + "<br/>" + b) == a + b
  {
    var t := "<br/>";
    assert !HasPrefix(t + b, "<br>\n") by { assert (t + b)[3] == '/'; }
    assert !HasPrefix(t + b, "<br>") by { assert (t + b)[3] == '/'; }
    assert !HasPrefix(t + b, "<br/>\n") by {
      if |b| > 0 { assert (t + b)[5] == b[0]; }
    }
    MarkerKept(t, b, "<br>\n", "\n");
    AroundMarker(a, t, b, "<br>\n", "\n", t);
    MarkerKept(t, b, "<br>", "");
    AroundMarker(a, t, b, "<br>", "", t);
    MarkerKept(t, b, "<br/>\n", "\n");
    AroundMarker(a, t, b, "<br/>\n", "\n", t);
    MarkerHit(b, t, "");
    AroundMarker(a, t, b, t, "", "");
    assert a + "" + b == a + b;
    PlainUnchanged(a + b, "&nbsp;", " ");
  }

  /** "&nbsp;" becomes a space. */
  lemma LineBreaksNbsp(a: string, b: string)
    requires Plain(a) && Plain(b)
    ensures LineBreaks(a + "&nbsp;" + b) == a + " " + b
  {
    var t := "&nbsp;";
    MarkerKept(t, b, "<br>\n", "\n");
    AroundMarker(a, t, b, "<br>\n", "\n", t);
    MarkerKept(t, b, "<br>", "");
    AroundMarker(a, t, b, "<br>", "", t);
    MarkerKept(t, b, "<br/>\n", "\n");
    AroundMarker(a, t, b, "<br/>\n", "\n", t);
    MarkerKept(t, b, "<br/>", "");
    AroundMarker(a, t, b, "<br/>", "", t);
    MarkerHit(b, t, " ");
    AroundMarker(a, t, b, t, " ", " ");
  }

  /** The stages run first, then the line breaks, then emojify, then unescaping:
      a "<br>\n" the stages leave between plain text reaches emojify as a newline. */
  lemma StripLineBreak(lib: Lib, msg: string, url: string, a: string, b: string)
    requires Plain(a) && Plain(b)
    requires Rewrite(lib, url, StripStages, msg) == a + "<br>\n" + b
    ensures ShoutboxStrip(lib, msg, url) == lib.unescape(Scan(a + "\n" + b))
  {
    LineBreaksBrNewline(a, b);
  }

  // ----- ShoutboxRead -----

  /** The event record carried by the first tuple. */
  datatype Event = Event(kind: int, id: int, data: seq<string>)

  datatype Message = Message(id: int, user: string, userId: int, date: Time, text: string, event: Option<Event>)

  /** Go indexes fields 0..6 of the first tuple, field 0 of every other tuple, and
      fields up to 6 of those whose field 0 is not empty. */
  predicate TupleShaped(t: seq<string>)
  {
    |t| >= 1 && (t[0] != "" ==> |t| >= 7)
  }

  predicate AllShaped(ts: seq<seq<string>>)
  {
    forall i :: 0 <= i < |ts| ==> TupleShaped(ts[i])
  }

  predicate Shaped(ts: seq<seq<string>>)
  {
    |ts| > 0 ==> |ts[0]| >= 7 && AllShaped(ts[1..])
  }

  lemma AllShapedAppend(a: seq<seq<string>>, b: seq<seq<string>>)
    requires AllShaped(a) && AllShaped(b)
    ensures AllShaped(a + b)
  {
    assert forall i :: 0 <= i < |a + b| ==> (a + b)[i] == if i < |a| then a[i] else b[i - |a|];
  }

  lemma AllShapedSlice(a: seq<seq<string>>, i: nat, j: nat)
    requires AllShaped(a) && i <= j <= |a|
    ensures AllShaped(a[i..j])
  {
    assert forall k :: 0 <= k < j - i ==> a[i..j][k] == a[i + k];
  }

  /** Tuple 0: a message that only carries the event (type, id, fields 3..6). */
  function EventOf(t: seq<string>): (m: Message)
    requires |t| >= 7
    ensures m.event.Some? && m.event.value.data == t[3..7]
    ensures m.event.value.kind == ParseInt32(t[0]).value && m.event.value.id == ParseInt32(t[1]).value
  {
    Message(0, "", 0, ZeroTime, "", Some(Event(ParseInt32(t[0]).value, ParseInt32(t[1]).value, t[3..7])))
  }

  /** A later tuple is a message when field 0 (its id) is set and field 6 (its type)
      is empty. */
  predicate Kept(t: seq<string>)
    requires TupleShaped(t)
  {
    t[0] != "" && t[6] == ""
  }

  /** A kept tuple's message: id and uid from fields 0 and 1 (Go keeps the value
      ParseInt returns even on error), the date from field 2 (the zero time when it
      does not parse), the user from field 4 and the normalized field 5. `strip` is
      the normalizer, ShoutboxStrip with the site url. */
  function MessageOf(lib: Lib, strip: string -> string, t: seq<string>): (m: Message)
    requires |t| >= 7
    ensures m.event.None? && m.user == t[4] && m.text == strip(t[5])
    ensures m.id == ParseInt32(t[0]).value && m.userId == ParseInt32(t[1]).value
    ensures m.date == lib.parseTime(ShoutLayout, t[2]).GetOr(ZeroTime)
  {
    Message(ParseInt32(t[0]).value, t[4], ParseInt32(t[1]).value,
      lib.parseTime(ShoutLayout, t[2]).GetOr(ZeroTime), strip(t[5]), None)
  }

  /** The normalizer ShoutboxRead applies to message texts. */
  function Stripper(lib: Lib, url: string): string -> string
  {
    s => ShoutboxStrip(lib, s, url)
  }

  /** What one tuple adds, given its position. */
  function Decoded(lib: Lib, strip: string -> string, i: nat, t: seq<string>): seq<Message>
    requires if i == 0 then |t| >= 7 else TupleShaped(t)
  {
    if i == 0 then [EventOf(t)]
    else if Kept(t) then [MessageOf(lib, strip, t)]
    else []
  }

  lemma ShapedPrefix(ts: seq<seq<string>>, k: nat)
    requires Shaped(ts) && k <= |ts|
    ensures Shaped(ts[..k])
  {
    if k > 0 {
      AllShapedSlice(ts[1..], 0, k - 1);
      assert ts[..k][1..] == ts[1..][0..k - 1];
    }
  }

  /** The messages in the order the loop appends them. */
  function Collected(lib: Lib, strip: string -> string, ts: seq<seq<string>>): seq<Message>
    requires Shaped(ts)
  {
    if |ts| == 0 then []
    else
      ShapedPrefix(ts, |ts| - 1);
      Collected(lib, strip, ts[..|ts| - 1]) + Decoded(lib, strip, |ts| - 1, ts[|ts| - 1])
  }

  /** The independent description: the messages are the kept tuples after the first,
      in order. */
  function Messages(lib: Lib, strip: string -> string, ts: seq<seq<string>>): seq<Message>
    requires AllShaped(ts)
  {
    if |ts| == 0 then []
    else
      AllShapedSlice(ts, 1, |ts|);
      (if Kept(ts[0]) then [MessageOf(lib, strip, ts[0])] else []) + Messages(lib, strip, ts[1..])
  }

  lemma {:induction false} MessagesAppend(lib: Lib, strip: string -> string, a: seq<seq<string>>, b: seq<seq<string>>)
    requires AllShaped(a) && AllShaped(b)
    ensures AllShaped(a + b)
    ensures Messages(lib, strip, a + b) == Messages(lib, strip, a) + Messages(lib, strip, b)
  {
    AllShapedAppend(a, b);
    if |a| == 0 {
      assert a + b == b;
    } else {
      AllShapedSlice(a, 1, |a|);
      assert (a + b)[1..] == a[1..] + b;
      MessagesAppend(lib, strip, a[1..], b);
    }
  }

  /** A single tuple contributes its message exactly when it is kept. */
  lemma MessagesSingle(lib: Lib, strip: string -> string, t: seq<string>)
    requires TupleShaped(t)
    ensures AllShaped([t])
    ensures Messages(lib, strip, [t]) == (if Kept(t) then [MessageOf(lib, strip, t)] else [])
  {
    assert [t][0] == t;
    assert [t][1..] == [];
  }

  /** The event comes first, then exactly the kept messages. */
  lemma {:induction false} CollectedIsEventThenMessages(lib: Lib, strip: string -> string, ts: seq<seq<string>>)
    requires Shaped(ts) && |ts| > 0
    ensures Collected(lib, strip, ts) == [EventOf(ts[0])] + Messages(lib, strip, ts[1..])
  {
    if |ts| == 1 {
      assert ts[..0] == [];
      assert ts[1..] == [];
    } else {
      var init := ts[..|ts| - 1];
      var last := ts[|ts| - 1];
      ShapedPrefix(ts, |ts| - 1);
      CollectedIsEventThenMessages(lib, strip, init);
      assert init[0] == ts[0];
      assert ts[1..] == init[1..] + [last];
      assert ts[1..][|ts| - 2] == last;
      MessagesSingle(lib, strip, last);
      MessagesAppend(lib, strip, init[1..], [last]);
      assert Collected(lib, strip, ts) == Collected(lib, strip, init) + Decoded(lib, strip, |ts| - 1, last);
    }
  }

  /** The messages of a + [t] + b are those of a, then t's own, then those of b. */
  lemma MessagesAround(lib: Lib, strip: string -> string, a: seq<seq<string>>, t: seq<string>, b: seq<seq<string>>)
    requires AllShaped(a) && AllShaped(b) && TupleShaped(t)
    ensures AllShaped(a + [t] + b)
    ensures Messages(lib, strip, a + [t] + b) == Messages(lib, strip, a) + Messages(lib, strip, [t]) + Messages(lib, strip, b)
  {
    AllShapedAppend(a, [t]);
    MessagesAppend(lib, strip, a, [t]);
    MessagesAppend(lib, strip, a + [t], b);
  }

  /** A dropped tuple can be taken out. */
  lemma MessagesDropped(lib: Lib, strip: string -> string, a: seq<seq<string>>, t: seq<string>, b: seq<seq<string>>)
    requires AllShaped(a) && AllShaped(b) && TupleShaped(t) && !Kept(t)
    ensures AllShaped(a + [t] + b)
    ensures Messages(lib, strip, a + [t] + b) == Messages(lib, strip, a) + Messages(lib, strip, b)
  {
    MessagesSingle(lib, strip, t);
    MessagesAround(lib, strip, a, t, b);
  }

  /** A kept tuple contributes exactly its message, in place. */
  lemma MessagesKept(lib: Lib, strip: string -> string, a: seq<seq<string>>, t: seq<string>, b: seq<seq<string>>)
    requires AllShaped(a) && AllShaped(b) && TupleShaped(t) && Kept(t)
    ensures AllShaped(a + [t] + b)
    ensures Messages(lib, strip, a + [t] + b) == Messages(lib, strip, a) + [MessageOf(lib, strip, t)] + Messages(lib, strip, b)
  {
    MessagesSingle(lib, strip, t);
    MessagesAround(lib, strip, a, t, b);
  }

  /** The append loop of ShoutboxRead. */
  method DecodeTuples(lib: Lib, strip: string -> string, ts: seq<seq<string>>) returns (msgs: seq<Message>)
    requires Shaped(ts)
    ensures msgs == Collected(lib, strip, ts)
  {
    msgs := [];
    var i := 0;
    while i < |ts|
      invariant 0 <= i <= |ts|
      invariant Shaped(ts[..i])
      invariant msgs == Collected(lib, strip, ts[..i])
    {
      var t := ts[i];
      assert ts[..i + 1][..i] == ts[..i];
      ShapedPrefix(ts, i + 1);
      if i == 0 {
        var event := Event(ParseInt32(t[0]).value, ParseInt32(t[1]).value, [t[3], t[4], t[5], t[6]]);
        assert [t[3], t[4], t[5], t[6]] == t[3..7];
        msgs := msgs + [Message(0, "", 0, ZeroTime, "", Some(event))];
        i := i + 1;
        continue;
      }
      if t[0] == "" {
        i := i + 1;
        continue;
      }
      var id := ParseInt32(t[0]).value;
      var uid := ParseInt32(t[1]).value;
      var date := lib.parseTime(ShoutLayout, t[2]).GetOr(ZeroTime);
      if t[6] != "" {
        i := i + 1;
        continue;
      }
      msgs := msgs + [Message(id, t[4], uid, date, strip(t[5]), None)];
      i := i + 1;
    }
    assert ts[..i] == ts;
  }

  /** The reverse of a sequence. */
  function Reversed<T>(s: seq<T>): (r: seq<T>)
    ensures |r| == |s|
  {
    if |s| == 0 then [] else Reversed(s[1..]) + [s[0]]
  }

  lemma {:induction false} ReversedIndex<T>(s: seq<T>)
    ensures forall i :: 0 <= i < |s| ==> Reversed(s)[i] == s[|s| - 1 - i]
  {
    if |s| > 0 {
      ReversedIndex(s[1..]);
    }
  }

  lemma {:induction false} ReversedMultiset<T>(s: seq<T>)
    ensures multiset(Reversed(s)) == multiset(s)
  {
    if |s| > 0 {
      ReversedMultiset(s[1..]);
      assert s == [s[0]] + s[1..];
    }
  }

  lemma ReversedTwice<T>(s: seq<T>)
    ensures Reversed(Reversed(s)) == s
  {
    ReversedIndex(s);
    ReversedIndex(Reversed(s));
  }

  /** The two-pointer swap loop. */
  method ReverseInPlace<T>(a: array<T>)
    modifies a
    ensures a[..] == Reversed(old(a[..]))
  {
    ghost var s := a[..];
    var i, j := 0, a.Length - 1;
    while i < j
      invariant 0 <= i <= a.Length && j == a.Length - 1 - i
      invariant i <= j + 1
      invariant forall k :: 0 <= k < i ==> a[k] == s[a.Length - 1 - k]
      invariant forall k :: j < k < a.Length ==> a[k] == s[a.Length - 1 - k]
      invariant forall k :: i <= k <= j ==> a[k] == s[k]
    {
      a[i], a[j] := a[j], a[i];
      i, j := i + 1, j - 1;
    }
    ReversedIndex(s);
  }

  /** The text of the site's overload notice. */
  const ServerLoadNotice: seq<byte> :=
    [68, 105, 101, 32, 83, 101, 114, 118, 101, 114, 108, 97, 115, 116, 32, 105, 115, 116, 32,
     77, 111, 109, 101, 110, 116, 97, 110, 32, 122, 117, 32, 104, 111, 99, 104]

  /** ShoutboxRead after the request: what it returns for a response body. */
  function ReadResult(lib: Lib, strip: string -> string, raw: seq<byte>): Result<seq<Message>, string>
    requires |SanitizeJSON(raw)| > 1 && lib.unmarshal(SanitizeJSON(raw)).Ok? ==> Shaped(lib.unmarshal(SanitizeJSON(raw)).value)
  {
    var body := SanitizeJSON(raw);
    if |body| <= 1 then Ok([])
    else
      match lib.unmarshal(body)
      case Err(e) => if Contains(body, ServerLoadNotice) then Err("serverload") else Err(e)
      case Ok(ts) => Ok(Reversed(Collected(lib, strip, ts)))
  }

  /** The body of ShoutboxRead from the sanitizing on. */
  method ShoutboxRead(lib: Lib, url: string, raw: seq<byte>) returns (r: Result<seq<Message>, string>)
    requires |SanitizeJSON(raw)| > 1 && lib.unmarshal(SanitizeJSON(raw)).Ok? ==> Shaped(lib.unmarshal(SanitizeJSON(raw)).value)
    ensures r == ReadResult(lib, Stripper(lib, url), raw)
  {
    var body := SanitizeJSON(raw);
    if |body| <= 1 {
      return Ok([]);
    }
    var decoded := lib.unmarshal(body);
    if decoded.Err? {
      if Contains(body, ServerLoadNotice) {
        return Err("serverload");
      }
      return Err(decoded.error);
    }
    var msgs := DecodeTuples(lib, Stripper(lib, url), decoded.value);
    var a := new Message[|msgs|](i requires 0 <= i < |msgs| => msgs[i]);
    assert a[..] == msgs;
    ReverseInPlace(a);
    return Ok(a[..]);
  }

  /** A body of at most one byte means no news and no error. */
  lemma ReadEmpty(lib: Lib, strip: string -> string, raw: seq<byte>)
    requires |SanitizeJSON(raw)| <= 1
    ensures ReadResult(lib, strip, raw) == Ok([])
  {
  }

  /** An undecodable body is the overload error when it holds the notice, and the
      decoder's own error otherwise. */
  lemma ReadErrors(lib: Lib, strip: string -> string, raw: seq<byte>)
    requires |SanitizeJSON(raw)| > 1 && lib.unmarshal(SanitizeJSON(raw)).Err?
    ensures Contains(SanitizeJSON(raw), ServerLoadNotice) ==> ReadResult(lib, strip, raw) == Err("serverload")
    ensures !Contains(SanitizeJSON(raw), ServerLoadNotice) ==>
      ReadResult(lib, strip, raw) == Err(lib.unmarshal(SanitizeJSON(raw)).error)
  {
  }

  /** A decoded body gives the messages newest first: the reverse of the kept tuples,
      with the event record at the very end and no other event anywhere. */
  lemma ReadDecoded(lib: Lib, strip: string -> string, raw: seq<byte>)
    requires |SanitizeJSON(raw)| > 1 && lib.unmarshal(SanitizeJSON(raw)).Ok?
    requires Shaped(lib.unmarshal(SanitizeJSON(raw)).value)
    requires |lib.unmarshal(SanitizeJSON(raw)).value| > 0
    ensures ReadResult(lib, strip, raw).Ok?
    ensures var ts := lib.unmarshal(SanitizeJSON(raw)).value;
      var ms := ReadResult(lib, strip, raw).value;
      var kept := Messages(lib, strip, ts[1..]);
      && |ms| == |kept| + 1
      && ms[|ms| - 1] == EventOf(ts[0])
      && (forall i :: 0 <= i < |kept| ==> ms[i] == kept[|kept| - 1 - i])
      && (forall i :: 0 <= i < |ms| - 1 ==> ms[i].event.None?)
  {
    var ts := lib.unmarshal(SanitizeJSON(raw)).value;
    var c := Collected(lib, strip, ts);
    CollectedIsEventThenMessages(lib, strip, ts);
    ReversedIndex(c);
    MessagesNoEvent(lib, strip, ts[1..]);
  }

  lemma {:induction false} MessagesNoEvent(lib: Lib, strip: string -> string, ts: seq<seq<string>>)
    requires AllShaped(ts)
    ensures forall i :: 0 <= i < |Messages(lib, strip, ts)| ==> Messages(lib, strip, ts)[i].event.None?
  {
    if |ts| > 0 {
      AllShapedSlice(ts, 1, |ts|);
      MessagesNoEvent(lib, strip, ts[1..]);
    }
  }

  // ----- ShoutboxWrite -----

  /** A tuple confirms the post: it has an id, its uid field parses (with Go's value
      on error) to the session's uid, and its field 5 is the text sent. */
  predicate Confirms(t: seq<string>, uid: int, message: string)
  {
    |t| >= 2 && t[0] != "" && ParseInt32(t[1]).value == uid && |t| >= 6 && t[5] == message
  }

  /** The fields Go reads of a tuple the scan reaches. */
  predicate Readable(t: seq<string>, uid: int)
  {
    |t| >= 1 && (t[0] != "" ==> |t| >= 2 && (ParseInt32(t[1]).value == uid ==> |t| >= 6))
  }

  /** Every tuple up to the first confirming one is readable. */
  predicate ScanShaped(ts: seq<seq<string>>, uid: int, message: string)
  {
    forall i :: 0 <= i < |ts| && (forall j :: 0 <= j < i ==> !Confirms(ts[j], uid, message)) ==> Readable(ts[i], uid)
  }

  /** The loop of ShoutboxWrite: stops at the first confirming tuple. */
  method ConfirmScan(ts: seq<seq<string>>, uid: int, message: string) returns (found: bool)
    requires ScanShaped(ts, uid, message)
    ensures found <==> exists i :: 0 <= i < |ts| && Confirms(ts[i], uid, message)
  {
    var i := 0;
    while i < |ts|
      invariant 0 <= i <= |ts|
      invariant forall j :: 0 <= j < i ==> !Confirms(ts[j], uid, message)
    {
      var t := ts[i];
      assert Readable(t, uid);
      if t[0] == "" {
        i := i + 1;
        continue;
      }
      var u := ParseInt32(t[1]).value;
      if u == uid {
        if t[5] == message {
          assert Confirms(ts[i], uid, message);
          return true;
        }
      }
      i := i + 1;
    }
    return false;
  }

  /** ShoutboxWrite after the post: a decode error is returned; otherwise the result
      says whether the echoed shoutbox holds the message. */
  method ShoutboxWrite(lib: Lib, uid: int, message: string, raw: seq<byte>) returns (r: Result<bool, string>)
    requires lib.unmarshal(SanitizeJSON(raw)).Ok? ==> ScanShaped(lib.unmarshal(SanitizeJSON(raw)).value, uid, message)
    ensures lib.unmarshal(SanitizeJSON(raw)).Err? ==> r == Err(lib.unmarshal(SanitizeJSON(raw)).error)
    ensures lib.unmarshal(SanitizeJSON(raw)).Ok? ==> r.Ok?
    ensures lib.unmarshal(SanitizeJSON(raw)).Ok? ==>
      var ts := lib.unmarshal(SanitizeJSON(raw)).value;
      (r.value <==> exists i :: 0 <= i < |ts| && Confirms(ts[i], uid, message))
  {
    var body := SanitizeJSON(raw);
    var decoded := lib.unmarshal(body);
    if decoded.Err? {
      return Err(decoded.error);
    }
    var found := ConfirmScan(decoded.value, uid, message);
    return Ok(found);
  }
}
