/** Speech triggers of app.js: the phrases a cache item is registered under
    (`registerMediaTrigger`), the id that names it, and the decoding of the ids of
    the triggers a voice query matched (the start of `processConversation`). */
module Triggers {
  import opened Wrappers
  import opened Builtins
  import opened Media

  /** U+2013 EN DASH, as written in the titles the app cleans up. */
  const EnDash: char := '\U{2013}'

  /** The clean-up applied to a title and to a secondary title: each step is a
      string `replace`, so each touches the FIRST occurrence of its pattern only. */
  function NormalizeTitle(t: string): string
  {
    var t1 := ReplaceFirst(t, "(", "");
    var t2 := ReplaceFirst(t1, ")", "");
    var t3 := ReplaceFirst(t2, "&", "and");
    var t4 := ReplaceFirst(t3, "III", "3");
    var t5 := ReplaceFirst(t4, "II", "2");
    var t6 := ReplaceFirst(t5, [' ', EnDash, ' '], " ");
    ReplaceFirst(t6, [EnDash], " ")
  }

  /** The clean-up applied to an episode title: one that mentions "episode" (in any
      case) is dropped, any other loses its first '(' and ')' and its first '&'
      becomes "and". */
  function NormalizeEpisodeTitle(e: string): string
  {
    if Contains(Lower(e), "episode") then ""
    else if e == "" then e
    else
      var e1 := ReplaceFirst(e, "(", "");
      var e2 := ReplaceFirst(e1, ")", "");
      ReplaceFirst(e2, "&", "and")
  }

  /** The item as `registerMediaTrigger` leaves it: the app cleans the titles of the
      cache item itself, in place. Empty (falsy) titles are left alone. */
  function NormalizedItem(m: MediaItem): MediaItem
  {
    m.(episodeTitle := NormalizeEpisodeTitle(m.episodeTitle),
       title := if m.title != "" then NormalizeTitle(m.title) else m.title,
       secondaryTitle := if m.secondaryTitle.Some? && m.secondaryTitle.value != ""
                         then Some(NormalizeTitle(m.secondaryTitle.value))
                         else m.secondaryTitle)
  }

  /** The id a media trigger is registered under. */
  function TriggerId(m: MediaItem): string
  {
    "media|" + m.mediaType + "|" + m.key
  }

  /** `v` is a present, truthy text. */
  predicate Truthy(v: Option<string>)
  {
    v.Some? && v.value != ""
  }

  /** The phrases of the cleaned item, in the order the app pushes them: the verbose
      episode phrase, title plus episode title, the title, the primary title when it
      differs from the (cleaned) title, the secondary title and the sort title. */
  function PhrasesOf(n: MediaItem): seq<string>
  {
    var verbose := if n.mediaType == "episode" then [n.title + " " + n.season + " " + n.episodeIndex] else [];
    var withEpisode := verbose + if n.episodeTitle != "" then [n.title + " " + n.episodeTitle] else [];
    var withTitle := withEpisode + if n.title != "" then [n.title] else [];
    var withPrimary := withTitle
      + if Truthy(n.primaryTitle) && n.title != n.primaryTitle.value then [n.primaryTitle.value] else [];
    var withSecondary := withPrimary + if Truthy(n.secondaryTitle) then [n.secondaryTitle.value] else [];
    withSecondary + if Truthy(n.titleSort) then [n.titleSort.value] else []
  }

  function TriggerPhrases(m: MediaItem): seq<string>
  {
    PhrasesOf(NormalizedItem(m))
  }

  /** The pushes that build the phrase list of the cleaned item. */
  method PhraseList(item: MediaItem) returns (triggers: seq<string>)
    ensures triggers == PhrasesOf(item)
  {
    triggers := [];
    if item.mediaType == "episode" {
      triggers := triggers + [item.title + " " + item.season + " " + item.episodeIndex];
    }
    assert triggers == if item.mediaType == "episode" then [item.title + " " + item.season + " " + item.episodeIndex] else [];
    ghost var verbose := triggers;
    if item.episodeTitle != "" {
      triggers := triggers + [item.title + " " + item.episodeTitle];
    }
    assert triggers == verbose + if item.episodeTitle != "" then [item.title + " " + item.episodeTitle] else [];
    ghost var withEpisode := triggers;
    if item.title != "" {
      triggers := triggers + [item.title];
    }
    assert triggers == withEpisode + if item.title != "" then [item.title] else [];
    ghost var withTitle := triggers;
    if Truthy(item.primaryTitle) && item.title != item.primaryTitle.value {
      triggers := triggers + [item.primaryTitle.value];
    }
    assert triggers == withTitle
      + if Truthy(item.primaryTitle) && item.title != item.primaryTitle.value then [item.primaryTitle.value] else [];
    ghost var withPrimary := triggers;
    if Truthy(item.secondaryTitle) {
      triggers := triggers + [item.secondaryTitle.value];
    }
    assert triggers == withPrimary + if Truthy(item.secondaryTitle) then [item.secondaryTitle.value] else [];
    ghost var withSecondary := triggers;
    if Truthy(item.titleSort) {
      triggers := triggers + [item.titleSort.value];
    }
    assert triggers == withSecondary + if Truthy(item.titleSort) then [item.titleSort.value] else [];
  }

  /** A trigger as the speech engine registers it. */
  datatype TriggerObject = TriggerObject(id: string, importance: real, triggers: seq<string>)

  /** The speech triggers the app has built up and the ids of its media triggers. */
  class TriggerRegistry {
    var speechTriggers: seq<TriggerObject>
    var mediaTriggerIds: seq<string>

    /** Every media trigger's id is recorded, in registration order. */
    ghost predicate Valid()
      reads this
    {
      && |speechTriggers| == |mediaTriggerIds|
      && forall i :: 0 <= i < |speechTriggers| ==> speechTriggers[i].id == mediaTriggerIds[i]
    }

    constructor()
      ensures Valid()
      ensures speechTriggers == [] && mediaTriggerIds == []
    {
      speechTriggers := [];
      mediaTriggerIds := [];
    }

    /** `registerMediaTrigger(mediaItem)`: cleans the item's titles (returned, as the
        app changes the cache item in place), then records a trigger with importance
        0.7 under the phrases of the cleaned item. */
    method RegisterMediaTrigger(mediaItem: MediaItem) returns (item: MediaItem)
      requires Valid()
      modifies this
      ensures Valid()
      ensures item == NormalizedItem(mediaItem)
      ensures speechTriggers == old(speechTriggers) + [TriggerObject(TriggerId(mediaItem), 0.7, TriggerPhrases(mediaItem))]
      ensures mediaTriggerIds == old(mediaTriggerIds) + [TriggerId(mediaItem)]
    {
      item := mediaItem;
      var id := "media|" + item.mediaType + "|" + item.key;
      if Contains(Lower(item.episodeTitle), "episode") {
        item := item.(episodeTitle := "");
      }
      if item.episodeTitle != "" {
        item := item.(episodeTitle := ReplaceFirst(item.episodeTitle, "(", ""));
        item := item.(episodeTitle := ReplaceFirst(item.episodeTitle, ")", ""));
        item := item.(episodeTitle := ReplaceFirst(item.episodeTitle, "&", "and"));
      }
      if item.title != "" {
        item := item.(title := NormalizeTitle(item.title));
      }
      if Truthy(item.secondaryTitle) {
        item := item.(secondaryTitle := Some(NormalizeTitle(item.secondaryTitle.value)));
      }
      var triggers := PhraseList(item);
      speechTriggers := speechTriggers + [TriggerObject(id, 0.7, triggers)];
      mediaTriggerIds := mediaTriggerIds + [id];
    }
  }

  // ---------------------------------------------------------------------------
  // What the clean-up does

  /** A title none of whose patterns occur. */
  predicate Plain(t: string)
  {
    '(' !in t && ')' !in t && '&' !in t && EnDash !in t && !Contains(t, "II")
  }

  /** A plain title is left exactly as it is. */
  lemma PlainTitleUnchanged(t: string)
    requires Plain(t)
    ensures NormalizeTitle(t) == t
  {
    ReplaceAbsentChar(t, '(', "(", "");
    ReplaceAbsentChar(t, ')', ")", "");
    ReplaceAbsentChar(t, '&', "&", "and");
    ContainsPart(t, "III", 0, 2);
    assert "III"[0..2] == "II";
    ReplaceAbsentChar(t, EnDash, [' ', EnDash, ' '], " ");
    ReplaceAbsentChar(t, EnDash, [EnDash], " ");
  }

  /** A title without '&', 'I' and en dashes only loses its first '(' and first ')'. */
  lemma ParenthesesOnly(t: string, u: string)
    requires u == ReplaceFirst(ReplaceFirst(t, "(", ""), ")", "")
    requires '&' !in u && 'I' !in u && EnDash !in u
    ensures NormalizeTitle(t) == u
  {
    ReplaceAbsentChar(u, '&', "&", "and");
    ReplaceAbsentChar(u, 'I', "III", "3");
    ReplaceAbsentChar(u, 'I', "II", "2");
    ReplaceAbsentChar(u, EnDash, [' ', EnDash, ' '], " ");
    ReplaceAbsentChar(u, EnDash, [EnDash], " ");
  }

  /** A text that none of the clean-up's patterns can touch. */
  predicate Inert(a: string)
  {
    '(' !in a && ')' !in a && '&' !in a && 'I' !in a && EnDash !in a
  }

  /** The clean-up is not idempotent: only the first '(' and ')' go, so a second
      pass changes "((a))" again. */
  lemma {:induction false} NormalizeNotIdempotent(a: string)
    requires Inert(a)
    ensures NormalizeTitle("((" + a + "))") == "(" + a + ")"
    ensures NormalizeTitle(NormalizeTitle("((" + a + "))")) == a
  {
    var s := "((" + a + "))";
    FirstOccurrence(s, "(", 0);
    var s1 := "(" + a + "))";
    assert ReplaceFirst(s, "(", "") == s1 by {
      assert s[..0] + "" + s[1..] == s1;
    }
    assert s1[..|a| + 1] == "(" + a;
    FirstOccurrence(s1, ")", |a| + 1);
    var s2 := "(" + a + ")";
    assert ReplaceFirst(s1, ")", "") == s2 by {
      assert s1[..|a| + 1] + "" + s1[|a| + 2..] == s2;
    }
    ParenthesesOnly(s, s2);
    FirstOccurrence(s2, "(", 0);
    var s3 := a + ")";
    assert ReplaceFirst(s2, "(", "") == s3 by {
      assert s2[..0] + "" + s2[1..] == s3;
    }
    assert s3[..|a|] == a;
    FirstOccurrence(s3, ")", |a|);
    assert ReplaceFirst(s3, ")", "") == a by {
      assert s3[..|a|] + "" + s3[|a| + 1..] == a;
    }
    ParenthesesOnly(s2, a);
  }

  /** The Roman-numeral rules match inside words: the "III" of "VIII" becomes "3". */
  lemma RomanNumeralInsideWord(a: string)
    requires Inert(a)
    ensures NormalizeTitle(a + "VIII") == a + "V3"
  {
    var t := a + "VIII";
    ReplaceAbsentChar(t, '(', "(", "");
    ReplaceAbsentChar(t, ')', ")", "");
    ReplaceAbsentChar(t, '&', "&", "and");
    assert t[|a| + 1..|a| + 4] == "III";
    assert t[..|a| + 1] == a + "V";
    FirstOccurrence(t, "III", |a| + 1);
    var u := a + "V3";
    assert ReplaceFirst(t, "III", "3") == u by {
      assert t[..|a| + 1] + "3" + t[|a| + 4..] == u;
    }
    ReplaceAbsentChar(u, 'I', "II", "2");
    ReplaceAbsentChar(u, EnDash, [' ', EnDash, ' '], " ");
    ReplaceAbsentChar(u, EnDash, [EnDash], " ");
  }

  /** A movie whose title is plain, has no colon and has no sort title is
      registered under its title alone. */
  lemma PlainMovieTriggers(raw: RawItem, machineIdentifier: string)
    requires raw.mediaType == "movie" && raw.title != "" && raw.titleSort == ""
    requires Plain(raw.title) && ':' !in raw.title
    ensures TriggerPhrases(CacheItem(raw, machineIdentifier)) == [raw.title]
  {
    CharIndexOf(raw.title, ':');
    PlainTitleUnchanged(raw.title);
    var e := Lower("");
    assert |e| == 0;
    assert !Contains(e, "episode");
  }

  /** The cleaned title is a phrase of every item that has one, and an episode's
      first phrase is its verbose "title season N episode M" form. */
  lemma TitleIsPhrase(m: MediaItem)
    ensures var n := NormalizedItem(m);
            && (n.title != "" ==> n.title in TriggerPhrases(m))
            && (m.mediaType == "episode" ==> TriggerPhrases(m)[0] == n.title + " " + n.season + " " + n.episodeIndex)
  {
  }

  // ---------------------------------------------------------------------------
  // Decoding the ids of matched triggers

  /** A trigger the speech engine matched: its id and the text it recognised. */
  datatype Trigger = Trigger(id: string, text: string)

  /** The ids of matched triggers, sorted by kind (the app's `speechResults`). */
  datatype SpeechResults = SpeechResults(
    commands: seq<string>, types: seq<string>, media: seq<SpeechMedia>, server: seq<string>)

  /** What one matched trigger adds: an id of one part adds nothing; otherwise its
      first part says where its second part goes. A media candidate also takes the
      recognised text and, when the id has one, the third part as its key. */
  function DecodeOne(acc: SpeechResults, t: Trigger): SpeechResults
  {
    var elems := Split(t.id, '|');
    if |elems| <= 1 then acc
    else if elems[0] == "command" then acc.(commands := acc.commands + [elems[1]])
    else if elems[0] == "type" then acc.(types := acc.types + [elems[1]])
    else if elems[0] == "media" then
      acc.(media := acc.media + [SpeechMedia(t.text, elems[1], if |elems| > 2 then Some(elems[2]) else None)])
    else if elems[0] == "server" then acc.(server := acc.server + [elems[1]])
    else acc
  }

  /** The results of a list of matched triggers, in trigger order. */
  function Decode(triggers: seq<Trigger>): (r: SpeechResults)
    ensures |r.commands| + |r.types| + |r.media| + |r.server| <= |triggers|
  {
    if |triggers| == 0 then SpeechResults([], [], [], [])
    else DecodeOne(Decode(triggers[..|triggers| - 1]), triggers[|triggers| - 1])
  }

  /** The trigger loop at the start of `processConversation`. */
  method DecodeTriggers(triggers: seq<Trigger>) returns (r: SpeechResults)
    ensures r == Decode(triggers)
  {
    r := SpeechResults([], [], [], []);
    for i := 0 to |triggers|
      invariant r == Decode(triggers[..i])
    {
      assert triggers[..i + 1][..i] == triggers[..i];
      r := DecodeTrigger(r, triggers[i]);
    }
    assert triggers[..|triggers|] == triggers;
  }

  /** The body of that loop: routes one trigger's id. */
  method DecodeTrigger(acc: SpeechResults, trigger: Trigger) returns (r: SpeechResults)
    ensures r == DecodeOne(acc, trigger)
  {
    r := acc;
    var elems := Split(trigger.id, '|');
    if |elems| > 1 {
      if elems[0] == "command" {
        r := r.(commands := r.commands + [elems[1]]);
      }
      if elems[0] == "type" {
        r := r.(types := r.types + [elems[1]]);
      }
      if elems[0] == "media" {
        r := r.(media := r.media + [SpeechMedia(trigger.text, elems[1], if |elems| > 2 then Some(elems[2]) else None)]);
      }
      if elems[0] == "server" {
        r := r.(server := r.server + [elems[1]]);
      }
    }
  }

  /** The kinds of results side by side: decoding a concatenation concatenates. */
  function Concat(a: SpeechResults, b: SpeechResults): SpeechResults
  {
    SpeechResults(a.commands + b.commands, a.types + b.types, a.media + b.media, a.server + b.server)
  }

  /** Decoding keeps the order of the triggers within each kind. */
  lemma {:induction false} DecodeAppend(a: seq<Trigger>, b: seq<Trigger>)
    ensures Decode(a + b) == Concat(Decode(a), Decode(b))
    decreases |b|
  {
    if |b| == 0 {
      assert a + b == a;
      var d := Decode(a);
      assert d.commands + [] == d.commands && d.types + [] == d.types;
      assert d.media + [] == d.media && d.server + [] == d.server;
    } else {
      var b' := b[..|b| - 1];
      var t := b[|b| - 1];
      assert (a + b)[..|a + b| - 1] == a + b';
      DecodeAppend(a, b');
      DecodeOneConcat(Decode(a), Decode(b'), t);
    }
  }

  /** One trigger's contribution lands at the end, after everything before it. */
  lemma DecodeOneConcat(x: SpeechResults, y: SpeechResults, t: Trigger)
    ensures DecodeOne(Concat(x, y), t) == Concat(x, DecodeOne(y, t))
  {
  }

  /** A command trigger id decodes to its command, as long as the name holds no '|'. */
  lemma {:induction false} CommandIdRoundTrip(name: string, text: string)
    requires '|' !in name
    ensures Decode([Trigger("command|" + name, text)]) == SpeechResults([name], [], [], [])
  {
    var parts := ["command", name];
    assert Join(parts[1..], "|") == name;
    assert Join(parts, "|") == "command|" + name;
    SplitJoin(parts, '|');
    assert [Trigger("command|" + name, text)][..0] == [];
  }

  /** The id of a registered media trigger decodes back to the item's type and key,
      with the recognised text as the match, as long as neither holds a '|'. */
  lemma {:induction false} MediaIdRoundTrip(m: MediaItem, text: string)
    requires '|' !in m.mediaType && '|' !in m.key
    ensures Decode([Trigger(TriggerId(m), text)]) == SpeechResults([], [], [SpeechMedia(text, m.mediaType, Some(m.key))], [])
  {
    var parts := ["media", m.mediaType, m.key];
    assert Join(parts[2..], "|") == m.key;
    assert Join(parts, "|") == TriggerId(m);
    SplitJoin(parts, '|');
    assert [Trigger(TriggerId(m), text)][..0] == [];
  }
}
