/** The emoji table of the shoutbox (Shoutbox.go, emojiInit) and the substitution
    emojify performs with it. The message stripper turns every smiley image into the
    text `emoji:<file name>`; emojify replaces each such token by one character. */
module Emoji {
  import opened Wrappers
  import opened GoStrings

  /** One `emojis[name] = code point` line of emojiInit. */
  type Assignment = (string, char)

  /** Lines 281-292 of emojiInit. */
  const Lines281To292: seq<Assignment> := [
    ("smile1.gif", '\U{1F600}'),
    ("zwinkern.gif", '\U{1F609}'),
    ("bf.gif", '\U{1F44C}'),
    ("bw.gif", '\U{1F914}'),
    ("sick.gif", '\U{1F92E}'),
    ("smartass.gif", '\U{1F44B}'),
    ("thx.gif", '\U{1F44D}'),
    ("thumbsup.gif", '\U{1F44E}'),
    ("thumbsup.gif", '\U{1F44E}'),
    ("weep.gif", '\U{1F622}'),
    ("tease.gif", '\U{1F61B}'),
    ("grin.gif", '\U{1F603}')
  ]

  /** Lines 293-304 of emojiInit. */
  const Lines293To304: seq<Assignment> := [
    ("dp.gif", '\U{1F92A}'),
    ("cry.gif", '\U{1F62D}'),
    ("fein.gif", '\U{1F606}'),
    ("dance3.gif", '\U{1F483}'),
    ("vogelzeig.gif", '\U{1F926}'),
    ("blush.gif", '\U{1F605}'),
    ("jippie.gif", '\U{FFFD}'),
    ("abgelehnt.gif", '\U{FFFD}'),
    ("abinsbett.gif", '\U{FFFD}'),
    ("achlass.gif", '\U{FFFD}'),
    ("afk.gif", '\U{FFFD}'),
    ("augen.GIF", '\U{FFFD}')
  ]

  /** Lines 305-316 of emojiInit. */
  const Lines305To316: seq<Assignment> := [
    ("bad.gif", '\U{FFFD}'),
    ("baehh.gif", '\U{FFFD}'),
    ("baehh.gif", '\U{FFFD}'),
    ("bahnhof.gif", '\U{FFFD}'),
    ("banane.gif", '\U{FFFD}'),
    ("binwech.gif", '\U{FFFD}'),
    ("welcome.gif", '\U{FFFD}'),
    ("brille.GIF", '\U{FFFD}'),
    ("ciao.gif", '\U{FFFD}'),
    ("cool.gif", '\U{FFFD}'),
    ("pro.gif", '\U{FFFD}'),
    ("pro.gif", '\U{FFFD}')
  ]

  /** Lines 317-328 of emojiInit. */
  const Lines317To328: seq<Assignment> := [
    ("contra.gif", '\U{FFFD}'),
    ("dance.gif", '\U{FFFD}'),
    ("dance2.gif", '\U{FFFD}'),
    ("danke.gif", '\U{FFFD}'),
    ("denken.gif", '\U{FFFD}'),
    ("desnemma.gif", '\U{FFFD}'),
    ("dudu.gif", '\U{FFFD}'),
    ("er.gif", '\U{FFFD}'),
    ("essen.gif", '\U{FFFD}'),
    ("flieg.gif", '\U{FFFD}'),
    ("whistle.gif", '\U{FFFD}'),
    ("whistle.gif", '\U{FFFD}')
  ]

  /** Lines 329-340 of emojiInit. */
  const Lines329To340: seq<Assignment> := [
    ("fluestern.gif", '\U{FFFD}'),
    ("fluestern.gif", '\U{FFFD}'),
    ("freu.gif", '\U{FFFD}'),
    ("freu2.gif", '\U{FFFD}'),
    ("hupps.gif", '\U{FFFD}'),
    ("ck.gif", '\U{FFFD}'),
    ("gespraech.gif", '\U{FFFD}'),
    ("gespraech.gif", '\U{FFFD}'),
    ("girlsfriends.gif", '\U{FFFD}'),
    ("gutenacht.GIF", '\U{FFFD}'),
    ("habenwill.gif", '\U{FFFD}'),
    ("hallo.gif", '\U{FFFD}')
  ]

  /** Lines 341-352 of emojiInit. */
  const Lines341To352: seq<Assignment> := [
    ("hallo2.gif", '\U{FFFD}'),
    ("hallo3.gif", '\U{FFFD}'),
    ("heul.gif", '\U{FFFD}'),
    ("hi.gif", '\U{FFFD}'),
    ("hi5.gif", '\U{FFFD}'),
    ("hihi.gif", '\U{FFFD}'),
    ("hmmm.GIF", '\U{FFFD}'),
    ("hops.gif", '\U{FFFD}'),
    ("huebsch.gif", '\U{FFFD}'),
    ("huebsch.gif", '\U{FFFD}'),
    ("huhuh.gif", '\U{FFFD}'),
    ("huhu.gif", '\U{FFFD}')
  ]

  /** Lines 353-364 of emojiInit. */
  const Lines353To364: seq<Assignment> := [
    ("huldig.gif", '\U{FFFD}'),
    ("kotz.gif", '\U{FFFD}'),
    ("huepf.gif", '\U{FFFD}'),
    ("huepf.gif", '\U{FFFD}'),
    ("ich.gif", '\U{FFFD}'),
    ("ich neee.gif", '\U{FFFD}'),
    ("ichwarsnet.gif", '\U{FFFD}'),
    ("jaa.gif", '\U{FFFD}'),
    ("jippi.gif", '\U{FFFD}'),
    ("kaffee.gif", '\U{FFFD}'),
    ("klaps.gif", '\U{FFFD}'),
    ("klatschen1.gif", '\U{FFFD}')
  ]

  /** Lines 365-376 of emojiInit. */
  const Lines365To376: seq<Assignment> := [
    ("kukuck.gif", '\U{FFFD}'),
    ("kizz.gif", '\U{FFFD}'),
    ("kuss.gif", '\U{FFFD}'),
    ("langweil.gif", '\U{FFFD}'),
    ("lieb.gif", '\U{FFFD}'),
    ("lieb2.gif", '\U{FFFD}'),
    ("lol.gif", '\U{FFFD}'),
    ("lol2.gif", '\U{FFFD}'),
    ("lol3.gif", '\U{FFFD}'),
    ("lol4.gif", '\U{FFFD}'),
    ("lol.gif", '\U{FFFD}'),
    ("maus.gif", '\U{FFFD}')
  ]

  /** Lines 377-388 of emojiInit. */
  const Lines377To388: seq<Assignment> := [
    ("merci.gif", '\U{FFFD}'),
    ("mist.gif", '\U{FFFD}'),
    ("moin.gif", '\U{FFFD}'),
    ("na.gif", '\U{FFFD}'),
    ("nachti.gif", '\U{FFFD}'),
    ("necken.gif", '\U{FFFD}'),
    ("necken2.gif", '\U{FFFD}'),
    ("nimmdas.gif", '\U{FFFD}'),
    ("nimmdas2.gif", '\U{FFFD}'),
    ("no.gif", '\U{FFFD}'),
    ("nochda.gif", '\U{FFFD}'),
    ("ohnein.gif", '\U{FFFD}')
  ]

  /** Lines 389-400 of emojiInit. */
  const Lines389To400: seq<Assignment> := [
    ("ok.gif", '\U{FFFD}'),
    ("oops.GIF", '\U{FFFD}'),
    ("plem.gif", '\U{FFFD}'),
    ("plot.gif", '\U{FFFD}'),
    ("pn.gif", '\U{FFFD}'),
    ("pssst.GIF", '\U{FFFD}'),
    ("psst.gif", '\U{FFFD}'),
    ("puh.gif", '\U{FFFD}'),
    ("reingefallen.gif", '\U{FFFD}'),
    ("rose.gif", '\U{FFFD}'),
    ("rotwerd.gif", '\U{FFFD}'),
    ("ruf.gif", '\U{FFFD}')
  ]

  /** Lines 401-412 of emojiInit. */
  const Lines401To412: seq<Assignment> := [
    ("schimpfen.gif", '\U{FFFD}'),
    ("schleimer.gif", '\U{FFFD}'),
    ("schmoll.gif", '\U{FFFD}'),
    ("schoki.gif", '\U{FFFD}'),
    ("shifty.gif", '\U{FFFD}'),
    ("sie.gif", '\U{FFFD}'),
    ("siez.gif", '\U{FFFD}'),
    ("smoke.gif", '\U{FFFD}'),
    ("sorry.GIF", '\U{FFFD}'),
    ("spitze.GIF", '\U{FFFD}'),
    ("strike.gif", '\U{FFFD}'),
    ("strip.gif", '\U{FFFD}')
  ]

  /** Lines 413-424 of emojiInit. */
  const Lines413To424: seq<Assignment> := [
    ("tel.gif", '\U{FFFD}'),
    ("totlach.gif", '\U{FFFD}'),
    ("totlach2.gif", '\U{FFFD}'),
    ("troesten.gif", '\U{FFFD}'),
    ("versteck.gif", '\U{FFFD}'),
    ("wanne.gif", '\U{FFFD}'),
    ("warichnet.gif", '\U{FFFD}'),
    ("watt.gif", '\U{FFFD}'),
    ("weissnet.gif", '\U{FFFD}'),
    ("wiegeil.gif", '\U{FFFD}'),
    ("willich.gif", '\U{FFFD}'),
    ("willich2.gif", '\U{FFFD}')
  ]

  /** Lines 425-436 of emojiInit. */
  const Lines425To436: seq<Assignment> := [
    ("wink.gif", '\U{FFFD}'),
    ("wink2.gif", '\U{FFFD}'),
    ("wave.gif", '\U{FFFD}'),
    ("wave2.gif", '\U{FFFD}'),
    ("zocken.gif", '\U{FFFD}'),
    ("zug.gif", '\U{FFFD}'),
    ("zunge1.GIF", '\U{FFFD}'),
    ("zunge2.gif", '\U{FFFD}'),
    ("zunge3.gif", '\U{FFFD}'),
    ("zungeziehn.gif", '\U{FFFD}'),
    ("zwinker.gif", '\U{FFFD}'),
    ("aa.gif", '\U{FFFD}')
  ]

  /** Lines 437-448 of emojiInit. */
  const Lines437To448: seq<Assignment> := [
    ("ahh.gif", '\U{FFFD}'),
    ("angry.gif", '\U{FFFD}'),
    ("angel.gif", '\U{FFFD}'),
    ("ar.gif", '\U{FFFD}'),
    ("as.gif", '\U{FFFD}'),
    ("av.gif", '\U{FFFD}'),
    ("baby.gif", '\U{FFFD}'),
    ("bd.gif", '\U{FFFD}'),
    ("bike.gif", '\U{FFFD}'),
    ("bo.gif", '\U{FFFD}'),
    ("brumm.gif", '\U{FFFD}'),
    ("bu.gif", '\U{FFFD}')
  ]

  /** Lines 449-460 of emojiInit. */
  const Lines449To460: seq<Assignment> := [
    ("bz.gif", '\U{FFFD}'),
    ("chicken.gif", '\U{FFFD}'),
    ("ck.gif", '\U{FFFD}'),
    ("closedeyes.gif", '\U{FFFD}'),
    ("cm.gif", '\U{FFFD}'),
    ("cp.gif", '\U{FFFD}'),
    ("dance4.gif", '\U{FFFD}'),
    ("devil.gif", '\U{FFFD}'),
    ("drunk.gif", '\U{FFFD}'),
    ("Ele.gif", '\U{FFFD}'),
    ("fan.gif", '\U{FFFD}'),
    ("besen.gif", '\U{FFFD}')
  ]

  /** Lines 461-472 of emojiInit. */
  const Lines461To472: seq<Assignment> := [
    ("zwerge.gif", '\U{FFFD}'),
    ("hello.gif", '\U{FFFD}'),
    ("geek.gif", '\U{FFFD}'),
    ("friends.gif", '\U{FFFD}'),
    ("fun.gif", '\U{FFFD}'),
    ("give_rose.gif", '\U{FFFD}'),
    ("greeting.gif", '\U{FFFD}'),
    ("hmmm.gif", '\U{FFFD}'),
    ("icecream.gif", '\U{FFFD}'),
    ("kiss.gif", '\U{FFFD}'),
    ("kissing2.gif", '\U{FFFD}'),
    ("love.gif", '\U{FFFD}')
  ]

  /** Lines 473-484 of emojiInit. */
  const Lines473To484: seq<Assignment> := [
    ("morgen.gif", '\U{FFFD}'),
    ("morning1.gif", '\U{FFFD}'),
    ("nacht.gif", '\U{FFFD}'),
    ("noexpression.gif", '\U{FFFD}'),
    ("ohmy.gif", '\U{FFFD}'),
    ("plane.gif", '\U{FFFD}'),
    ("read.gif", '\U{FFFD}'),
    ("rofl.gif", '\U{FFFD}'),
    ("skate.gif", '\U{FFFD}'),
    ("kasper.gif", '\U{FFFD}'),
    ("smile1.gif", '\U{FFFD}'),
    ("spam.gif", '\U{FFFD}')
  ]

  /** Lines 485-496 of emojiInit. */
  const Lines485To496: seq<Assignment> := [
    ("super.gif", '\U{FFFD}'),
    ("thank you.gif", '\U{FFFD}'),
    ("tongue.gif", '\U{FFFD}'),
    ("wizard.gif", '\U{FFFD}'),
    ("wo.gif", '\U{FFFD}'),
    ("yes.gif", '\U{FFFD}'),
    ("FAQ.gif", '\U{FFFD}'),
    ("bye2.gif", '\U{FFFD}'),
    ("sorry.gif", '\U{FFFD}'),
    ("klopp.gif", '\U{FFFD}'),
    ("pup.gif", '\U{FFFD}'),
    ("welle.gif", '\U{FFFD}')
  ]

  /** Lines 497-508 of emojiInit. */
  const Lines497To508: seq<Assignment> := [
    ("smile1.gif", '\U{FFFD}'),
    ("grin.gif", '\U{FFFD}'),
    ("tongue.gif", '\U{FFFD}'),
    ("sad.gif", '\U{FFFD}'),
    ("cry.gif", '\U{FFFD}'),
    ("noexpression.gif", '\U{FFFD}'),
    ("bbfriends.gif", '\U{FFFD}'),
    ("bbwink.gif", '\U{FFFD}'),
    ("bbgrin.gif", '\U{FFFD}'),
    ("bbhat-sm.gif", '\U{FFFD}'),
    ("bbhat.gif", '\U{FFFD}'),
    ("lol5.gif", '\U{FFFD}')
  ]

  /** Lines 509-518 of emojiInit. */
  const Lines509To518: seq<Assignment> := [
    ("deadhorse.gif", '\U{FFFD}'),
    ("spank.gif", '\U{FFFD}'),
    ("yoji.gif", '\U{FFFD}'),
    ("locked.gif", '\U{FFFD}'),
    ("clown.gif", '\U{FFFD}'),
    ("mml.gif", '\U{FFFD}'),
    ("morepics.gif", '\U{FFFD}'),
    ("rblocked.gif", '\U{FFFD}'),
    ("maxlocked.gif", '\U{FFFD}'),
    ("hslocked.gif", '\U{FFFD}')
  ]

  /** The lines of emojiInit in blocks of twelve, in source order. */
  const Chunks: seq<seq<Assignment>> := [
    Lines281To292,
    Lines293To304,
    Lines305To316,
    Lines317To328,
    Lines329To340,
    Lines341To352,
    Lines353To364,
    Lines365To376,
    Lines377To388,
    Lines389To400,
    Lines401To412,
    Lines413To424,
    Lines425To436,
    Lines437To448,
    Lines449To460,
    Lines461To472,
    Lines473To484,
    Lines485To496,
    Lines497To508,
    Lines509To518
  ]

  /** Every assignment of emojiInit, in source order. */
  const Assignments: seq<Assignment> := Flatten(Chunks)

  function Flatten(cs: seq<seq<Assignment>>): seq<Assignment>
  {
    if |cs| == 0 then [] else cs[0] + Flatten(cs[1..])
  }

  /** The emoji table once emojiInit has run. */
  const Table: map<string, char> := Build(Assignments)

  /** The map a run of assignments leaves behind: a later assignment to a name
      replaces an earlier one. */
  function Build(xs: seq<Assignment>): map<string, char>
  {
    if |xs| == 0 then map[] else Build(xs[..|xs| - 1])[xs[|xs| - 1].0 := xs[|xs| - 1].1]
  }

  /** A file name as the table has them: ASCII without ':', a single '.' that
      starts the three-letter extension, and a last letter 'f' (".gif" or ".GIF"). */
  predicate NameOk(n: string)
  {
    && |n| >= 5
    && (forall j :: 0 <= j < |n| ==> (n[j] == '.' <==> j == |n| - 4))
    && (forall j :: 0 <= j < |n| ==> n[j] != ':' && n[j] < '\U{80}')
    && (n[|n| - 1] == 'f' || n[|n| - 1] == 'F')
  }

  /** Every character the table substitutes lies outside ASCII. */
  predicate EntryOk(a: Assignment)
  {
    NameOk(a.0) && a.1 >= '\U{80}'
  }

  predicate ChunkOk(c: seq<Assignment>)
  {
    forall i :: 0 <= i < |c| ==> EntryOk(c[i])
  }

  predicate Unnamed(c: seq<Assignment>, n: string)
  {
    forall i :: 0 <= i < |c| ==> c[i].0 != n
  }

  lemma ChunkOkAppend(a: seq<Assignment>, b: seq<Assignment>)
    requires ChunkOk(a) && ChunkOk(b)
    ensures ChunkOk(a + b)
  {
    forall i | 0 <= i < |a + b| ensures EntryOk((a + b)[i]) {
      if i < |a| { assert (a + b)[i] == a[i]; } else { assert (a + b)[i] == b[i - |a|]; }
    }
  }

  lemma {:induction false} FlattenOk(cs: seq<seq<Assignment>>)
    requires forall k :: 0 <= k < |cs| ==> ChunkOk(cs[k])
    ensures ChunkOk(Flatten(cs))
  {
    if |cs| > 0 {
      FlattenOk(cs[1..]);
      ChunkOkAppend(cs[0], Flatten(cs[1..]));
    }
  }

  /** Every line of emojiInit assigns a well-shaped name a non-ASCII character. */
  lemma AssignmentsOk()
    ensures ChunkOk(Assignments)
  {
    Lines281To292Ok();
    Lines293To304Ok();
    Lines305To316Ok();
    Lines317To328Ok();
    Lines329To340Ok();
    Lines341To352Ok();
    Lines353To364Ok();
    Lines365To376Ok();
    Lines377To388Ok();
    Lines389To400Ok();
    Lines401To412Ok();
    Lines413To424Ok();
    Lines425To436Ok();
    Lines437To448Ok();
    Lines449To460Ok();
    Lines461To472Ok();
    Lines473To484Ok();
    Lines485To496Ok();
    Lines497To508Ok();
    Lines509To518Ok();
    FlattenOk(Chunks);
  }

  lemma Lines281To292Ok()
    ensures ChunkOk(Lines281To292)
  {
    Lines281To292Part1();
    Lines281To292Part2();
    Lines281To292Part3();
  }

  lemma Lines281To292Part1()
    ensures forall i :: 0 <= i < 4 ==> EntryOk(Lines281To292[i])
  {
  }

  lemma Lines281To292Part2()
    ensures forall i :: 4 <= i < 8 ==> EntryOk(Lines281To292[i])
  {
  }

  lemma Lines281To292Part3()
    ensures forall i :: 8 <= i < 12 ==> EntryOk(Lines281To292[i])
  {
  }

  lemma Lines293To304Ok()
    ensures ChunkOk(Lines293To304)
    ensures Unnamed(Lines293To304, "zwinkern.gif")
  {
    Lines293To304Part1();
    Lines293To304Part2();
    Lines293To304Part3();
  }

  lemma Lines293To304Part1()
    ensures forall i :: 0 <= i < 4 ==> EntryOk(Lines293To304[i]) && Lines293To304[i].0 != "zwinkern.gif"
  {
  }

  lemma Lines293To304Part2()
    ensures forall i :: 4 <= i < 8 ==> EntryOk(Lines293To304[i]) && Lines293To304[i].0 != "zwinkern.gif"
  {
  }

  lemma Lines293To304Part3()
    ensures forall i :: 8 <= i < 12 ==> EntryOk(Lines293To304[i]) && Lines293To304[i].0 != "zwinkern.gif"
  {
  }

  lemma Lines305To316Ok()
    ensures ChunkOk(Lines305To316)
    ensures Unnamed(Lines305To316, "zwinkern.gif")
  {
    Lines305To316Part1();
    Lines305To316Part2();
    Lines305To316Part3();
  }

  lemma Lines305To316Part1()
    ensures forall i :: 0 <= i < 4 ==> EntryOk(Lines305To316[i]) && Lines305To316[i].0 != "zwinkern.gif"
  {
  }

  lemma Lines305To316Part2()
    ensures forall i :: 4 <= i < 8 ==> EntryOk(Lines305To316[i]) && Lines305To316[i].0 != "zwinkern.gif"
  {
  }

  lemma Lines305To316Part3()
    ensures forall i :: 8 <= i < 12 ==> EntryOk(Lines305To316[i]) && Lines305To316[i].0 != "zwinkern.gif"
  {
  }

  lemma Lines317To328Ok()
    ensures ChunkOk(Lines317To328)
    ensures Unnamed(Lines317To328, "zwinkern.gif")
  {
    Lines317To328Part1();
    Lines317To328Part2();
    Lines317To328Part3();
  }

  lemma Lines317To328Part1()
    ensures forall i :: 0 <= i < 4 ==> EntryOk(Lines317To328[i]) && Lines317To328[i].0 != "zwinkern.gif"
  {
  }

  lemma Lines317To328Part2()
    ensures forall i :: 4 <= i < 8 ==> EntryOk(Lines317To328[i]) && Lines317To328[i].0 != "zwinkern.gif"
  {
  }

  lemma Lines317To328Part3()
    ensures forall i :: 8 <= i < 12 ==> EntryOk(Lines317To328[i]) && Lines317To328[i].0 != "zwinkern.gif"
  {
  }

  lemma Lines329To340Ok()
    ensures ChunkOk(Lines329To340)
    ensures Unnamed(Lines329To340, "zwinkern.gif")
  {
    Lines329To340Part1();
    Lines329To340Part2();
    Lines329To340Part3();
  }

  lemma Lines329To340Part1()
    ensures forall i :: 0 <= i < 4 ==> EntryOk(Lines329To340[i]) && Lines329To340[i].0 != "zwinkern.gif"
  {
  }

  lemma Lines329To340Part2()
    ensures forall i :: 4 <= i < 8 ==> EntryOk(Lines329To340[i]) && Lines329To340[i].0 != "zwinkern.gif"
  {
  }

  lemma Lines329To340Part3()
    ensures forall i :: 8 <= i < 12 ==> EntryOk(Lines329To340[i]) && Lines329To340[i].0 != "zwinkern.gif"
  {
  }

  lemma Lines341To352Ok()
    ensures ChunkOk(Lines341To352)
    ensures Unnamed(Lines341To352, "zwinkern.gif")
  {
    Lines341To352Part1();
    Lines341To352Part2();
    Lines341To352Part3();
  }

  lemma Lines341To352Part1()
    ensures forall i :: 0 <= i < 4 ==> EntryOk(Lines341To352[i]) && Lines341To352[i].0 != "zwinkern.gif"
  {
  }

  lemma Lines341To352Part2()
    ensures forall i :: 4 <= i < 8 ==> EntryOk(Lines341To352[i]) && Lines341To352[i].0 != "zwinkern.gif"
  {
  }

  lemma Lines341To352Part3()
    ensures forall i :: 8 <= i < 12 ==> EntryOk(Lines341To352[i]) && Lines341To352[i].0 != "zwinkern.gif"
  {
  }

  lemma Lines353To364Ok()
    ensures ChunkOk(Lines353To364)
    ensures Unnamed(Lines353To364, "zwinkern.gif")
  {
    Lines353To364Part1();
    Lines353To364Part2();
    Lines353To364Part3();
  }

  lemma Lines353To364Part1()
    ensures forall i :: 0 <= i < 4 ==> EntryOk(Lines353To364[i]) && Lines353To364[i].0 != "zwinkern.gif"
  {
  }

  lemma Lines353To364Part2()
    ensures forall i :: 4 <= i < 8 ==> EntryOk(Lines353To364[i]) && Lines353To364[i].0 != "zwinkern.gif"
  {
  }

  lemma Lines353To364Part3()
    ensures forall i :: 8 <= i < 12 ==> EntryOk(Lines353To364[i]) && Lines353To364[i].0 != "zwinkern.gif"
  {
  }

  lemma Lines365To376Ok()
    ensures ChunkOk(Lines365To376)
    ensures Unnamed(Lines365To376, "zwinkern.gif")
  {
    Lines365To376Part1();
    Lines365To376Part2();
    Lines365To376Part3();
  }

  lemma Lines365To376Part1()
    ensures forall i :: 0 <= i < 4 ==> EntryOk(Lines365To376[i]) && Lines365To376[i].0 != "zwinkern.gif"
  {
  }

  lemma Lines365To376Part2()
    ensures forall i :: 4 <= i < 8 ==> EntryOk(Lines365To376[i]) && Lines365To376[i].0 != "zwinkern.gif"
  {
  }

  lemma Lines365To376Part3()
    ensures forall i :: 8 <= i < 12 ==> EntryOk(Lines365To376[i]) && Lines365To376[i].0 != "zwinkern.gif"
  {
  }

  lemma Lines377To388Ok()
    ensures ChunkOk(Lines377To388)
    ensures Unnamed(Lines377To388, "zwinkern.gif")
  {
    Lines377To388Part1();
    Lines377To388Part2();
    Lines377To388Part3();
  }

  lemma Lines377To388Part1()
    ensures forall i :: 0 <= i < 4 ==> EntryOk(Lines377To388[i]) && Lines377To388[i].0 != "zwinkern.gif"
  {
  }

  lemma Lines377To388Part2()
    ensures forall i :: 4 <= i < 8 ==> EntryOk(Lines377To388[i]) && Lines377To388[i].0 != "zwinkern.gif"
  {
  }

  lemma Lines377To388Part3()
    ensures forall i :: 8 <= i < 12 ==> EntryOk(Lines377To388[i]) && Lines377To388[i].0 != "zwinkern.gif"
  {
  }

  lemma Lines389To400Ok()
    ensures ChunkOk(Lines389To400)
    ensures Unnamed(Lines389To400, "zwinkern.gif")
  {
    Lines389To400Part1();
    Lines389To400Part2();
    Lines389To400Part3();
  }

  lemma Lines389To400Part1()
    ensures forall i :: 0 <= i < 4 ==> EntryOk(Lines389To400[i]) && Lines389To400[i].0 != "zwinkern.gif"
  {
  }

  lemma Lines389To400Part2()
    ensures forall i :: 4 <= i < 8 ==> EntryOk(Lines389To400[i]) && Lines389To400[i].0 != "zwinkern.gif"
  {
  }

  lemma Lines389To400Part3()
    ensures forall i :: 8 <= i < 12 ==> EntryOk(Lines389To400[i]) && Lines389To400[i].0 != "zwinkern.gif"
  {
  }

  lemma Lines401To412Ok()
    ensures ChunkOk(Lines401To412)
    ensures Unnamed(Lines401To412, "zwinkern.gif")
  {
    Lines401To412Part1();
    Lines401To412Part2();
    Lines401To412Part3();
  }

  lemma Lines401To412Part1()
    ensures forall i :: 0 <= i < 4 ==> EntryOk(Lines401To412[i]) && Lines401To412[i].0 != "zwinkern.gif"
  {
  }

  lemma Lines401To412Part2()
    ensures forall i :: 4 <= i < 8 ==> EntryOk(Lines401To412[i]) && Lines401To412[i].0 != "zwinkern.gif"
  {
  }

  lemma Lines401To412Part3()
    ensures forall i :: 8 <= i < 12 ==> EntryOk(Lines401To412[i]) && Lines401To412[i].0 != "zwinkern.gif"
  {
  }

  lemma Lines413To424Ok()
    ensures ChunkOk(Lines413To424)
    ensures Unnamed(Lines413To424, "zwinkern.gif")
  {
    Lines413To424Part1();
    Lines413To424Part2();
    Lines413To424Part3();
  }

  lemma Lines413To424Part1()
    ensures forall i :: 0 <= i < 4 ==> EntryOk(Lines413To424[i]) && Lines413To424[i].0 != "zwinkern.gif"
  {
  }

  lemma Lines413To424Part2()
    ensures forall i :: 4 <= i < 8 ==> EntryOk(Lines413To424[i]) && Lines413To424[i].0 != "zwinkern.gif"
  {
  }

  lemma Lines413To424Part3()
    ensures forall i :: 8 <= i < 12 ==> EntryOk(Lines413To424[i]) && Lines413To424[i].0 != "zwinkern.gif"
  {
  }

  lemma Lines425To436Ok()
    ensures ChunkOk(Lines425To436)
    ensures Unnamed(Lines425To436, "zwinkern.gif")
  {
    Lines425To436Part1();
    Lines425To436Part2();
    Lines425To436Part3();
  }

  lemma Lines425To436Part1()
    ensures forall i :: 0 <= i < 4 ==> EntryOk(Lines425To436[i]) && Lines425To436[i].0 != "zwinkern.gif"
  {
  }

  lemma Lines425To436Part2()
    ensures forall i :: 4 <= i < 8 ==> EntryOk(Lines425To436[i]) && Lines425To436[i].0 != "zwinkern.gif"
  {
  }

  lemma Lines425To436Part3()
    ensures forall i :: 8 <= i < 12 ==> EntryOk(Lines425To436[i]) && Lines425To436[i].0 != "zwinkern.gif"
  {
  }

  lemma Lines437To448Ok()
    ensures ChunkOk(Lines437To448)
    ensures Unnamed(Lines437To448, "zwinkern.gif")
  {
    Lines437To448Part1();
    Lines437To448Part2();
    Lines437To448Part3();
  }

  lemma Lines437To448Part1()
    ensures forall i :: 0 <= i < 4 ==> EntryOk(Lines437To448[i]) && Lines437To448[i].0 != "zwinkern.gif"
  {
  }

  lemma Lines437To448Part2()
    ensures forall i :: 4 <= i < 8 ==> EntryOk(Lines437To448[i]) && Lines437To448[i].0 != "zwinkern.gif"
  {
  }

  lemma Lines437To448Part3()
    ensures forall i :: 8 <= i < 12 ==> EntryOk(Lines437To448[i]) && Lines437To448[i].0 != "zwinkern.gif"
  {
  }

  lemma Lines449To460Ok()
    ensures ChunkOk(Lines449To460)
    ensures Unnamed(Lines449To460, "zwinkern.gif")
  {
    Lines449To460Part1();
    Lines449To460Part2();
    Lines449To460Part3();
  }

  lemma Lines449To460Part1()
    ensures forall i :: 0 <= i < 4 ==> EntryOk(Lines449To460[i]) && Lines449To460[i].0 != "zwinkern.gif"
  {
  }

  lemma Lines449To460Part2()
    ensures forall i :: 4 <= i < 8 ==> EntryOk(Lines449To460[i]) && Lines449To460[i].0 != "zwinkern.gif"
  {
  }

  lemma Lines449To460Part3()
    ensures forall i :: 8 <= i < 12 ==> EntryOk(Lines449To460[i]) && Lines449To460[i].0 != "zwinkern.gif"
  {
  }

  lemma Lines461To472Ok()
    ensures ChunkOk(Lines461To472)
    ensures Unnamed(Lines461To472, "zwinkern.gif")
  {
    Lines461To472Part1();
    Lines461To472Part2();
    Lines461To472Part3();
  }

  lemma Lines461To472Part1()
    ensures forall i :: 0 <= i < 4 ==> EntryOk(Lines461To472[i]) && Lines461To472[i].0 != "zwinkern.gif"
  {
  }

  lemma Lines461To472Part2()
    ensures forall i :: 4 <= i < 8 ==> EntryOk(Lines461To472[i]) && Lines461To472[i].0 != "zwinkern.gif"
  {
  }

  lemma Lines461To472Part3()
    ensures forall i :: 8 <= i < 12 ==> EntryOk(Lines461To472[i]) && Lines461To472[i].0 != "zwinkern.gif"
  {
  }

  lemma Lines473To484Ok()
    ensures ChunkOk(Lines473To484)
    ensures Unnamed(Lines473To484, "zwinkern.gif")
  {
    Lines473To484Part1();
    Lines473To484Part2();
    Lines473To484Part3();
  }

  lemma Lines473To484Part1()
    ensures forall i :: 0 <= i < 4 ==> EntryOk(Lines473To484[i]) && Lines473To484[i].0 != "zwinkern.gif"
  {
  }

  lemma Lines473To484Part2()
    ensures forall i :: 4 <= i < 8 ==> EntryOk(Lines473To484[i]) && Lines473To484[i].0 != "zwinkern.gif"
  {
  }

  lemma Lines473To484Part3()
    ensures forall i :: 8 <= i < 12 ==> EntryOk(Lines473To484[i]) && Lines473To484[i].0 != "zwinkern.gif"
  {
  }

  lemma Lines485To496Ok()
    ensures ChunkOk(Lines485To496)
    ensures Unnamed(Lines485To496, "zwinkern.gif")
  {
    Lines485To496Part1();
    Lines485To496Part2();
    Lines485To496Part3();
  }

  lemma Lines485To496Part1()
    ensures forall i :: 0 <= i < 4 ==> EntryOk(Lines485To496[i]) && Lines485To496[i].0 != "zwinkern.gif"
  {
  }

  lemma Lines485To496Part2()
    ensures forall i :: 4 <= i < 8 ==> EntryOk(Lines485To496[i]) && Lines485To496[i].0 != "zwinkern.gif"
  {
  }

  lemma Lines485To496Part3()
    ensures forall i :: 8 <= i < 12 ==> EntryOk(Lines485To496[i]) && Lines485To496[i].0 != "zwinkern.gif"
  {
  }

  lemma Lines497To508Ok()
    ensures ChunkOk(Lines497To508)
    ensures Unnamed(Lines497To508, "zwinkern.gif")
  {
    Lines497To508Part1();
    Lines497To508Part2();
    Lines497To508Part3();
  }

  lemma Lines497To508Part1()
    ensures forall i :: 0 <= i < 4 ==> EntryOk(Lines497To508[i]) && Lines497To508[i].0 != "zwinkern.gif"
  {
  }

  lemma Lines497To508Part2()
    ensures forall i :: 4 <= i < 8 ==> EntryOk(Lines497To508[i]) && Lines497To508[i].0 != "zwinkern.gif"
  {
  }

  lemma Lines497To508Part3()
    ensures forall i :: 8 <= i < 12 ==> EntryOk(Lines497To508[i]) && Lines497To508[i].0 != "zwinkern.gif"
  {
  }

  lemma Lines509To518Ok()
    ensures ChunkOk(Lines509To518)
    ensures Unnamed(Lines509To518, "zwinkern.gif")
    ensures Unnamed(Lines509To518, "smile1.gif")
    ensures Unnamed(Lines509To518, "grin.gif")
    ensures Unnamed(Lines509To518, "cry.gif")
  {
    Lines509To518Part1();
    Lines509To518Part2();
    Lines509To518Part3();
  }

  lemma Lines509To518Part1()
    ensures forall i :: 0 <= i < 4 ==> EntryOk(Lines509To518[i]) && Lines509To518[i].0 != "zwinkern.gif" && Lines509To518[i].0 != "smile1.gif" && Lines509To518[i].0 != "grin.gif" && Lines509To518[i].0 != "cry.gif"
  {
  }

  lemma Lines509To518Part2()
    ensures forall i :: 4 <= i < 8 ==> EntryOk(Lines509To518[i]) && Lines509To518[i].0 != "zwinkern.gif" && Lines509To518[i].0 != "smile1.gif" && Lines509To518[i].0 != "grin.gif" && Lines509To518[i].0 != "cry.gif"
  {
  }

  lemma Lines509To518Part3()
    ensures forall i :: 8 <= i < 10 ==> EntryOk(Lines509To518[i]) && Lines509To518[i].0 != "zwinkern.gif" && Lines509To518[i].0 != "smile1.gif" && Lines509To518[i].0 != "grin.gif" && Lines509To518[i].0 != "cry.gif"
  {
  }

  /** Building from a concatenation: the later part overrides the earlier. */
  lemma {:induction false} BuildAppend(a: seq<Assignment>, b: seq<Assignment>)
    ensures Build(a + b) == Build(a) + Build(b)
    decreases |b|
  {
    if |b| == 0 {
      assert a + b == a;
    } else {
      var b' := b[..|b| - 1];
      assert (a + b)[..|a + b| - 1] == a + b';
      assert (a + b)[|a + b| - 1] == b[|b| - 1];
      BuildAppend(a, b');
    }
  }

  /** The names in the built map are exactly the names assigned. */
  lemma {:induction false} BuildKeys(xs: seq<Assignment>)
    ensures forall n :: n in Build(xs) <==> exists i :: 0 <= i < |xs| && xs[i].0 == n
  {
    if |xs| > 0 {
      var ys := xs[..|xs| - 1];
      BuildKeys(ys);
      forall n ensures n in Build(xs) <==> exists i :: 0 <= i < |xs| && xs[i].0 == n {
        if n in Build(ys) {
          var i :| 0 <= i < |ys| && ys[i].0 == n;
          assert xs[i].0 == n;
        }
        if exists i :: 0 <= i < |xs| && xs[i].0 == n {
          var i :| 0 <= i < |xs| && xs[i].0 == n;
          if i < |xs| - 1 { assert ys[i].0 == n; }
        }
      }
    }
  }

  /** Every entry of the built map comes from one of the assignments. */
  lemma {:induction false} BuildEntries(xs: seq<Assignment>)
    ensures forall n :: n in Build(xs) ==> exists i :: 0 <= i < |xs| && xs[i] == (n, Build(xs)[n])
  {
    if |xs| > 0 {
      var ys := xs[..|xs| - 1];
      BuildEntries(ys);
      forall n | n in Build(xs) ensures exists i :: 0 <= i < |xs| && xs[i] == (n, Build(xs)[n]) {
        if n == xs[|xs| - 1].0 {
          assert xs[|xs| - 1] == (n, Build(xs)[n]);
        } else {
          var i :| 0 <= i < |ys| && ys[i] == (n, Build(ys)[n]);
          assert xs[i] == (n, Build(xs)[n]);
        }
      }
    }
  }

  /** So a well-formed table maps well-shaped names to non-ASCII characters. */
  lemma BuildOk(xs: seq<Assignment>)
    requires ChunkOk(xs)
    ensures forall n :: n in Build(xs) ==> NameOk(n) && Build(xs)[n] >= '\U{80}'
  {
    BuildEntries(xs);
    forall n | n in Build(xs) ensures NameOk(n) && Build(xs)[n] >= '\U{80}' {
      var i :| 0 <= i < |xs| && xs[i] == (n, Build(xs)[n]);
      assert EntryOk(xs[i]);
    }
  }

  /** The last assignment to a name is the one that stays. */
  lemma {:induction false} BuildLastWins(xs: seq<Assignment>, i: nat)
    requires i < |xs|
    requires forall j :: i < j < |xs| ==> xs[j].0 != xs[i].0
    ensures xs[i].0 in Build(xs) && Build(xs)[xs[i].0] == xs[i].1
  {
    if i < |xs| - 1 {
      var ys := xs[..|xs| - 1];
      assert ys[i] == xs[i];
      BuildLastWins(ys, i);
    }
  }

  /** A name a later run never assigns keeps the value of the earlier run. */
  lemma Peel(a: seq<Assignment>, b: seq<Assignment>, n: string)
    requires n in Build(a) && Unnamed(b, n)
    ensures n in Build(a + b) && Build(a + b)[n] == Build(a)[n]
  {
    BuildAppend(a, b);
    BuildKeys(b);
  }

  /** A name a later run assigns takes the value of that run. */
  lemma Override(a: seq<Assignment>, b: seq<Assignment>, n: string)
    requires n in Build(b)
    ensures n in Build(a + b) && Build(a + b)[n] == Build(b)[n]
  {
    BuildAppend(a, b);
  }

  lemma {:induction false} FlattenUnnamed(cs: seq<seq<Assignment>>, n: string)
    requires forall k :: 0 <= k < |cs| ==> Unnamed(cs[k], n)
    ensures Unnamed(Flatten(cs), n)
  {
    if |cs| > 0 {
      FlattenUnnamed(cs[1..], n);
      var a: seq<Assignment>, b: seq<Assignment> := cs[0], Flatten(cs[1..]);
      forall i | 0 <= i < |a + b| ensures (a + b)[i].0 != n {
        if i < |a| { assert (a + b)[i] == a[i]; } else { assert (a + b)[i] == b[i - |a|]; }
      }
    }
  }

  /** The value of a name is the one the last block that assigns it gives. */
  lemma {:induction false} FlattenLastWins(cs: seq<seq<Assignment>>, k: nat, n: string)
    requires k < |cs| && n in Build(cs[k])
    requires forall j :: k < j < |cs| ==> Unnamed(cs[j], n)
    ensures n in Build(Flatten(cs)) && Build(Flatten(cs))[n] == Build(cs[k])[n]
  {
    if k == 0 {
      FlattenUnnamed(cs[1..], n);
      Peel(cs[0], Flatten(cs[1..]), n);
    } else {
      FlattenLastWins(cs[1..], k - 1, n);
      Override(cs[0], Flatten(cs[1..]), n);
    }
  }

  /** smile1.gif, grin.gif and cry.gif are first given real emoji (lines 281, 292,
      294), reassigned U+FFFD later (smile1.gif at line 483 too) and last at lines
      497, 498 and 501; the last lines win. */
  lemma OverwrittenSmileys()
    ensures Lines281To292[0] == ("smile1.gif", '\U{1F600}') && Lines281To292[11] == ("grin.gif", '\U{1F603}')
    ensures Lines293To304[1] == ("cry.gif", '\U{1F62D}')
    ensures "smile1.gif" in Table && Table["smile1.gif"] == '\U{FFFD}'
    ensures "grin.gif" in Table && Table["grin.gif"] == '\U{FFFD}'
    ensures "cry.gif" in Table && Table["cry.gif"] == '\U{FFFD}'
  {
    SmileysLastBlock();
    Lines509To518Ok();
    assert Chunks[18] == Lines497To508 && Chunks[19] == Lines509To518;
    FlattenLastWins(Chunks, 18, "smile1.gif");
    FlattenLastWins(Chunks, 18, "grin.gif");
    FlattenLastWins(Chunks, 18, "cry.gif");
  }

  lemma SmileysLastBlock()
    ensures "smile1.gif" in Build(Lines497To508) && Build(Lines497To508)["smile1.gif"] == '\U{FFFD}'
    ensures "grin.gif" in Build(Lines497To508) && Build(Lines497To508)["grin.gif"] == '\U{FFFD}'
    ensures "cry.gif" in Build(Lines497To508) && Build(Lines497To508)["cry.gif"] == '\U{FFFD}'
  {
    var c := Lines497To508;
    assert c[0] == ("smile1.gif", '\U{FFFD}') && c[1] == ("grin.gif", '\U{FFFD}') && c[4] == ("cry.gif", '\U{FFFD}');
    BuildLastWins(c, 0);
    BuildLastWins(c, 1);
    BuildLastWins(c, 4);
  }

  /** zwinkern.gif is assigned once (line 282) and keeps U+1F609. */
  lemma ZwinkernStays()
    ensures "zwinkern.gif" in Table && Table["zwinkern.gif"] == '\U{1F609}'
  {
    var z := "zwinkern.gif";
    assert Lines281To292[1] == (z, '\U{1F609}');
    BuildLastWins(Lines281To292, 1);
    Lines293To304Ok();
    Lines305To316Ok();
    Lines317To328Ok();
    Lines329To340Ok();
    Lines341To352Ok();
    Lines353To364Ok();
    Lines365To376Ok();
    Lines377To388Ok();
    Lines389To400Ok();
    Lines401To412Ok();
    Lines413To424Ok();
    Lines425To436Ok();
    Lines437To448Ok();
    Lines449To460Ok();
    Lines461To472Ok();
    Lines473To484Ok();
    Lines485To496Ok();
    Lines497To508Ok();
    Lines509To518Ok();
    FlattenLastWins(Chunks, 0, z);
  }

  /** The text emojify looks for. */
  function Token(n: string): string
  {
    "emoji:" + n
  }

  /** Two names whose tokens both start the same text are the same name. */
  lemma TokensPrefixFree(m: string, n: string, s: string)
    requires NameOk(m) && NameOk(n)
    requires HasPrefix(s, Token(m)) && HasPrefix(s, Token(n))
    ensures m == n
  {
    if |m| <= |n| {
      ShorterName(m, n, s);
    } else {
      ShorterName(n, m, s);
    }
  }

  lemma ShorterName(m: string, n: string, s: string)
    requires NameOk(m) && NameOk(n) && |m| <= |n|
    requires HasPrefix(s, Token(m)) && HasPrefix(s, Token(n))
    ensures m == n
  {
    forall j | 0 <= j < |m| ensures m[j] == n[j] {
      assert Token(m)[6 + j] == s[6 + j] == Token(n)[6 + j];
    }
    assert n[|m| - 4] == '.';
  }

  /** No token starts strictly inside another token: the ':' of "emoji:" cannot
      fall inside a name, and the final 'f' of a name is no letter of "emoji:". */
  lemma NoTokenInside(n: string, m: string, rest: string, j: nat)
    requires NameOk(n) && NameOk(m)
    requires 1 <= j < |Token(n)|
    ensures !HasPrefix((Token(n) + rest)[j..], Token(m))
  {
    var t := Token(n) + rest;
    var L := |Token(n)|;
    if |Token(m)| <= |t| - j {
      if j + 5 < L {
        assert t[j + 5] == n[j - 1];
        assert t[j..][5] != Token(m)[5];
      } else {
        var k := L - 1 - j;
        assert t[L - 1] == n[|n| - 1];
        assert Token(m)[k] == "emoji:"[k];
        assert t[j..][k] != Token(m)[k];
      }
    }
  }

  lemma TokenAscii(n: string)
    requires NameOk(n)
    ensures forall i :: 0 <= i < |Token(n)| ==> Token(n)[i] < '\U{80}'
  {
    forall i | 0 <= i < |Token(n)| ensures Token(n)[i] < '\U{80}' {
      if i >= 6 { assert Token(n)[i] == n[i - 6]; }
    }
  }

  /** The first assignment, in table order, whose name is in `keys` and whose token
      starts `s`. */
  function FindToken(xs: seq<Assignment>, s: string, keys: set<string>): (r: Option<string>)
    ensures r.Some? ==> r.value in keys && HasPrefix(s, Token(r.value))
    ensures r.Some? ==> exists i :: 0 <= i < |xs| && xs[i].0 == r.value
    ensures r.None? ==> forall i :: 0 <= i < |xs| && xs[i].0 in keys ==> !HasPrefix(s, Token(xs[i].0))
  {
    if |xs| == 0 then None
    else if xs[0].0 in keys && HasPrefix(s, Token(xs[0].0)) then Some(xs[0].0)
    else
      var r := FindToken(xs[1..], s, keys);
      assert forall i :: 1 <= i < |xs| ==> xs[i] == xs[1..][i - 1];
      r
  }

  /** In a well-formed table the token found is the only one that fits. */
  lemma FindTokenIs(xs: seq<Assignment>, s: string, keys: set<string>, n: string)
    requires ChunkOk(xs)
    requires n in keys && HasPrefix(s, Token(n))
    requires exists i :: 0 <= i < |xs| && xs[i].0 == n
    ensures FindToken(xs, s, keys) == Some(n)
  {
    var i :| 0 <= i < |xs| && xs[i].0 == n;
    var r := FindToken(xs, s, keys);
    assert r.Some?;
    var k :| 0 <= k < |xs| && xs[k].0 == r.value;
    assert EntryOk(xs[k]) && EntryOk(xs[i]);
    TokensPrefixFree(r.value, n, s);
  }

  /** Replaces, in one left-to-right pass, the token of each name in `keys` by the
      name's character; any other character is copied. */
  function ScanIn(xs: seq<Assignment>, s: string, keys: set<string>): string
    requires keys <= Build(xs).Keys
    decreases |s|
  {
    if |s| == 0 then []
    else match FindToken(xs, s, keys)
      case Some(n) => [Build(xs)[n]] + ScanIn(xs, s[|Token(n)|..], keys)
      case None => [s[0]] + ScanIn(xs, s[1..], keys)
  }

  /** What emojify computes: every token of a table name replaced by its character. */
  function Scan(s: string): string
  {
    ScanIn(Assignments, s, Table.Keys)
  }

  /** With no names to look for, the pass copies its input. */
  lemma {:induction false} ScanNothing(xs: seq<Assignment>, s: string)
    ensures ScanIn(xs, s, {}) == s
    decreases |s|
  {
    if |s| > 0 {
      ScanNothing(xs, s[1..]);
    }
  }

  /** Where no token starts, the pass copies. */
  lemma {:induction false} ScanThrough(xs: seq<Assignment>, u: string, rest: string, keys: set<string>)
    requires keys <= Build(xs).Keys
    requires forall j :: 0 <= j < |u| ==> FindToken(xs, (u + rest)[j..], keys).None?
    ensures ScanIn(xs, u + rest, keys) == u + ScanIn(xs, rest, keys)
    decreases |u|
  {
    if |u| > 0 {
      assert (u + rest)[0..] == u + rest;
      assert (u + rest)[1..] == u[1..] + rest;
      forall j | 0 <= j < |u| - 1 ensures FindToken(xs, (u[1..] + rest)[j..], keys).None? {
        assert (u[1..] + rest)[j..] == (u + rest)[j + 1..];
      }
      ScanThrough(xs, u[1..], rest, keys);
    } else {
      assert u + rest == rest;
    }
  }

  /** An ASCII text that starts the output of the pass already started its input:
      the characters the pass puts in are never ASCII. */
  lemma {:induction false} ScanAsciiPrefix(xs: seq<Assignment>, x: string, keys: set<string>, w: string)
    requires ChunkOk(xs) && keys <= Build(xs).Keys
    requires forall i :: 0 <= i < |w| ==> w[i] < '\U{80}'
    requires HasPrefix(ScanIn(xs, x, keys), w)
    ensures HasPrefix(x, w)
    decreases |x|
  {
    if |w| > 0 {
      ScanHead(xs, x, keys);
      assert FindToken(xs, x, keys).None?;
      var tail := ScanIn(xs, x[1..], keys);
      assert ScanIn(xs, x, keys) == [x[0]] + tail;
      assert HasPrefix(tail, w[1..]) by {
        assert tail[..|w| - 1] == ScanIn(xs, x, keys)[1..|w|];
      }
      ScanAsciiPrefix(xs, x[1..], keys, w[1..]);
      assert x[..|w|] == [x[0]] + x[1..][..|w| - 1];
    }
  }

  /** Where a token starts, the pass puts out a non-ASCII character first. */
  lemma ScanHead(xs: seq<Assignment>, x: string, keys: set<string>)
    requires ChunkOk(xs) && keys <= Build(xs).Keys
    ensures FindToken(xs, x, keys).Some? ==> |ScanIn(xs, x, keys)| > 0 && ScanIn(xs, x, keys)[0] >= '\U{80}'
  {
    BuildOk(xs);
  }

  lemma ReplaceAtToken(t: string, x: string, g: string)
    requires |t| > 0
    ensures ReplaceAll(t + x, t, g) == g + ReplaceAll(x, t, g)
  {
    assert (t + x)[..|t|] == t;
    assert (t + x)[|t|..] == x;
  }

  lemma ReplaceCopies(c: char, x: string, t: string, g: string)
    requires |t| > 0 && !HasPrefix([c] + x, t)
    ensures ReplaceAll([c] + x, t, g) == [c] + ReplaceAll(x, t, g)
  {
    assert ([c] + x)[1..] == x;
  }

  /** Replacing the token of one more name in the output of the pass is the same as
      running the pass with that name added. */
  lemma {:induction false} ScanStep(xs: seq<Assignment>, s: string, keys: set<string>, n: string)
    requires ChunkOk(xs) && keys <= Build(xs).Keys
    requires n in Build(xs) && n !in keys
    ensures ReplaceAll(ScanIn(xs, s, keys), Token(n), [Build(xs)[n]]) == ScanIn(xs, s, keys + {n})
    decreases |s|
  {
    if |s| > 0 {
      match FindToken(xs, s, keys)
      case Some(k) =>
        ScanStep(xs, s[|Token(k)|..], keys, n);
        StepAtOther(xs, s, keys, n, k);
      case None =>
        if HasPrefix(s, Token(n)) {
          ScanStep(xs, s[|Token(n)|..], keys, n);
          StepAtToken(xs, s, keys, n);
        } else {
          ScanStep(xs, s[1..], keys, n);
          StepCopy(xs, s, keys, n);
        }
    }
  }

  /** ScanStep where the pass already replaces another name's token. */
  lemma StepAtOther(xs: seq<Assignment>, s: string, keys: set<string>, n: string, k: string)
    requires ChunkOk(xs) && keys <= Build(xs).Keys
    requires n in Build(xs) && n !in keys
    requires FindToken(xs, s, keys) == Some(k)
    requires
      var rest := s[|Token(k)|..];
      ReplaceAll(ScanIn(xs, rest, keys), Token(n), [Build(xs)[n]]) == ScanIn(xs, rest, keys + {n})
    ensures ReplaceAll(ScanIn(xs, s, keys), Token(n), [Build(xs)[n]]) == ScanIn(xs, s, keys + {n})
  {
    BuildOk(xs);
    var i :| 0 <= i < |xs| && xs[i].0 == k;
    FindTokenIs(xs, s, keys + {n}, k);
    var rest := s[|Token(k)|..];
    assert Build(xs)[k] != Token(n)[0];
    ReplaceCopies(Build(xs)[k], ScanIn(xs, rest, keys), Token(n), [Build(xs)[n]]);
  }

  /** ScanStep where the new name's token starts the text. */
  lemma StepAtToken(xs: seq<Assignment>, s: string, keys: set<string>, n: string)
    requires ChunkOk(xs) && keys <= Build(xs).Keys
    requires n in Build(xs) && n !in keys
    requires FindToken(xs, s, keys).None? && HasPrefix(s, Token(n))
    requires
      var rest := s[|Token(n)|..];
      ReplaceAll(ScanIn(xs, rest, keys), Token(n), [Build(xs)[n]]) == ScanIn(xs, rest, keys + {n})
    ensures ReplaceAll(ScanIn(xs, s, keys), Token(n), [Build(xs)[n]]) == ScanIn(xs, s, keys + {n})
  {
    var t := Token(n);
    BuildOk(xs);
    BuildKeys(xs);
    var rest := s[|t|..];
    assert s == t + rest;
    forall j | 0 <= j < |t| ensures FindToken(xs, (t + rest)[j..], keys).None? {
      if j == 0 {
        assert (t + rest)[0..] == s;
      } else {
        var r := FindToken(xs, (t + rest)[j..], keys);
        if r.Some? {
          var i :| 0 <= i < |xs| && xs[i].0 == r.value;
          assert EntryOk(xs[i]);
          NoTokenInside(n, r.value, rest, j);
        }
      }
    }
    ScanThrough(xs, t, rest, keys);
    FindTokenIs(xs, s, keys + {n}, n);
    ReplaceAtToken(t, ScanIn(xs, rest, keys), [Build(xs)[n]]);
  }

  /** ScanStep where no token starts the text. */
  lemma StepCopy(xs: seq<Assignment>, s: string, keys: set<string>, n: string)
    requires ChunkOk(xs) && keys <= Build(xs).Keys
    requires n in Build(xs) && n !in keys
    requires |s| > 0 && FindToken(xs, s, keys).None? && !HasPrefix(s, Token(n))
    requires ReplaceAll(ScanIn(xs, s[1..], keys), Token(n), [Build(xs)[n]]) == ScanIn(xs, s[1..], keys + {n})
    ensures ReplaceAll(ScanIn(xs, s, keys), Token(n), [Build(xs)[n]]) == ScanIn(xs, s, keys + {n})
  {
    FindTokenAdd(xs, s, keys, n);
    ScanCopies(xs, s, keys);
    ScanCopies(xs, s, keys + {n});
    BuildOk(xs);
    CopyBeforeToken(xs, s, keys, n, [Build(xs)[n]]);
  }

  lemma FindTokenAdd(xs: seq<Assignment>, s: string, keys: set<string>, n: string)
    requires FindToken(xs, s, keys).None? && !HasPrefix(s, Token(n))
    ensures FindToken(xs, s, keys + {n}).None?
  {
  }

  lemma ScanCopies(xs: seq<Assignment>, s: string, keys: set<string>)
    requires keys <= Build(xs).Keys
    requires |s| > 0 && FindToken(xs, s, keys).None?
    ensures ScanIn(xs, s, keys) == [s[0]] + ScanIn(xs, s[1..], keys)
  {
  }

  /** Copying a character in front of the scanned rest never creates an ASCII
      text the input did not start with, so a replacement pass copies it too. */
  lemma CopyBeforeToken(xs: seq<Assignment>, s: string, keys: set<string>, n: string, g: string)
    requires ChunkOk(xs) && keys <= Build(xs).Keys
    requires NameOk(n) && |s| > 0 && !HasPrefix(s, Token(n))
    ensures
      var t := Token(n);
      ReplaceAll([s[0]] + ScanIn(xs, s[1..], keys), t, g) == [s[0]] + ReplaceAll(ScanIn(xs, s[1..], keys), t, g)
  {
    var t := Token(n);
    TokenAscii(n);
    var x := ScanIn(xs, s[1..], keys);
    if HasPrefix([s[0]] + x, t) {
      assert HasPrefix(x, t[1..]) by {
        assert x[..|t| - 1] == ([s[0]] + x)[1..|t|];
      }
      ScanAsciiPrefix(xs, s[1..], keys, t[1..]);
    }
    ReplaceCopies(s[0], x, t, g);
  }

  /** In a well-formed table, a lone token becomes its name's character. */
  lemma ScanInToken(xs: seq<Assignment>, n: string)
    requires ChunkOk(xs) && n in Build(xs)
    ensures ScanIn(xs, Token(n), Build(xs).Keys) == [Build(xs)[n]]
  {
    BuildKeys(xs);
    assert HasPrefix(Token(n), Token(n));
    FindTokenIs(xs, Token(n), Build(xs).Keys, n);
    assert Token(n)[|Token(n)|..] == [];
  }

  /** A table name's token becomes the name's character. */
  lemma ScanToken(n: string)
    requires n in Table
    ensures Scan(Token(n)) == [Table[n]]
  {
    AssignmentsOk();
    ScanInToken(Assignments, n);
  }

  lemma ScanInUnknown(xs: seq<Assignment>, u: string)
    requires ChunkOk(xs)
    requires forall n :: n in Build(xs) ==> !HasPrefix(u, n)
    requires !Contains(u, "emoji:")
    ensures ScanIn(xs, "emoji:" + u, Build(xs).Keys) == "emoji:" + u
  {
    var s := "emoji:" + u;
    var keys := Build(xs).Keys;
    BuildKeys(xs);
    ContainsAt(u, "emoji:");
    assert s + [] == s;
    forall j | 0 <= j < |s| ensures FindToken(xs, (s + [])[j..], keys).None? {
      assert (s + [])[j..] == s[j..];
      forall m | m in keys ensures !HasPrefix(s[j..], Token(m)) {
        if j == 0 {
          assert s[0..] == s;
          TokenPrefix(m, u);
        } else if j < 6 {
          assert s[j..][0] != Token(m)[0];
        } else {
          assert s[j..] == u[j - 6..];
          PrefixOfPrefix(s[j..], "emoji:", m);
        }
      }
    }
    ScanThrough(xs, s, [], keys);
  }

  lemma TokenPrefix(m: string, u: string)
    ensures HasPrefix("emoji:" + u, Token(m)) ==> HasPrefix(u, m)
  {
    if HasPrefix("emoji:" + u, Token(m)) {
      assert u[..|m|] == ("emoji:" + u)[..|Token(m)|][6..];
    }
  }

  lemma PrefixOfPrefix(x: string, p: string, q: string)
    ensures HasPrefix(x, p + q) ==> HasPrefix(x, p)
  {
    if HasPrefix(x, p + q) {
      assert x[..|p|] == (p + q)[..|p|];
    }
  }

  /** "emoji:" followed by text that starts with no table name and holds no further
      "emoji:" is left as it is. */
  lemma ScanLeavesUnknown(u: string)
    requires forall n :: n in Table ==> !HasPrefix(u, n)
    requires !Contains(u, "emoji:")
    ensures Scan("emoji:" + u) == "emoji:" + u
  {
    AssignmentsOk();
    ScanInUnknown(Assignments, u);
  }

  /** The global emoji map of the source, filled once by Init. */
  class Emojis {
    var emojis: map<string, char>

    /** Before emojiInit runs, the map is empty. */
    constructor()
      ensures emojis == map[]
    {
      emojis := map[];
    }

    /** The map is empty or it is the full table: emojiInit is its only writer. */
    predicate Valid()
      reads this
    {
      emojis == map[] || emojis == Table
    }

    /** emojiInit: returns at once when the map is already filled, otherwise runs
        every assignment in order. */
    method Init()
      modifies this
      requires Valid()
      ensures emojis == Table
    {
      if |emojis| > 0 {
        return;
      }
      emojis := BuildMap(Assignments);
    }
  }

  /** The assignments of emojiInit, run in order into a fresh map. */
  method BuildMap(xs: seq<Assignment>) returns (m: map<string, char>)
    ensures m == Build(xs)
  {
    m := map[];
    for i := 0 to |xs|
      invariant m == Build(xs[..i])
    {
      assert xs[..i + 1][..i] == xs[..i];
      m := m[xs[i].0 := xs[i].1];
    }
    assert xs[..|xs|] == xs;
  }

  /** emojify: after emojiInit, one strings.Replace per table entry, in whatever
      order the map yields them. */
  method Emojify(e: Emojis, s: string) returns (r: string)
    modifies e
    requires e.Valid()
    ensures e.emojis == Table
    ensures r == Scan(s)
  {
    e.Init();
    AssignmentsOk();
    r := ReplaceTokens(e.emojis, Assignments, s);
  }

  /** The replacement loop of emojify over a well-formed table. Because tokens never
      overlap, every order the map may yield gives the single pass ScanIn. */
  method ReplaceTokens(emojis: map<string, char>, ghost xs: seq<Assignment>, s: string) returns (r: string)
    requires ChunkOk(xs) && emojis == Build(xs)
    ensures r == ScanIn(xs, s, emojis.Keys)
  {
    var pending := emojis.Keys;
    ghost var done: set<string> := {};
    r := s;
    ScanNothing(xs, s);
    while pending != {}
      invariant pending + done == emojis.Keys && pending !! done
      invariant r == ScanIn(xs, s, done)
      decreases |pending|
    {
      var image :| image in pending;
      var search := "emoji:" + image;
      ScanStep(xs, s, done, image);
      r := ReplaceAll(r, search, [emojis[image]]);
      done := done + {image};
      pending := pending - {image};
    }
  }
}
