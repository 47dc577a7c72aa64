/** The voice conversation of app.js: `processConversation` turns the triggers the
    speech engine matched into player commands, spoken answers and questions, with
    `getSingleResult` narrowing several candidates down to one and `askQuestion`
    reading the answers to its questions.

    The conversation is a function of a `World`, which holds everything the app
    reads while it runs, to the trace of `Effect`s it causes, in order. The search
    indexes, the spoken answers, the random number and the active sessions are
    part of the world. An error the app raises mid-way (reading a field of
    `undefined`, an index that was never built) ends the trace where it happens,
    as it ends the app's flow. */
module Conversation {
  import opened Wrappers
  import opened Builtins
  import opened Media
  import opened Triggers
  import opened Chromecast

  /** A value of `Math.random()`. */
  type Fraction = r: real | 0.0 <= r < 1.0

  /** The media cache: all items, those on deck and those recently added. */
  datatype MediaCache = MediaCache(items: seq<MediaItem>, onDeck: seq<MediaItem>, recent: seq<MediaItem>)

  /** What the speech input hands back for a question: the recognised text or an error. */
  datatype Reply = Heard(text: string) | AskFailed(err: string)

  /** Everything the conversation reads.
      - `sessions`: the active sessions of the media server, `None` when the server
        never answers;
      - `castSession`: the Chromecast driver's last session;
      - `search(index, query)`: the hits of the named full-text index, `None` when
        that index was never built;
      - `ask(question)`: the reply given to a question;
      - `rand`: the value `Math.random()` returns (one draw per conversation). */
  datatype World = World(
    hasSetup: bool,
    cache: MediaCache,
    installedPlayers: seq<Player>,
    sessions: Option<seq<RawItem>>,
    castSession: Option<MediaItem>,
    search: (string, string) -> Option<seq<SearchHit>>,
    ask: string -> Reply,
    rand: Fraction,
    machineIdentifier: string)

  /** What the speech engine hands over: the matched triggers, the transcript and
      the devices named in the speech. */
  datatype SpeechObject = SpeechObject(triggers: seq<Trigger>, transcript: string, devices: seq<Player>)

  /** What the conversation does: say a sentence, ask a question, send a command
      (with the item to play, if any) to the driver of a device, or rebuild the cache. */
  datatype Effect =
    | Say(text: string)
    | Ask(question: string)
    | Play(command: string, item: Option<MediaItem>, device: Player)
    | RefreshCache

  /** The outcome of `askQuestion`: the promise resolved with an answer or rejected
      with a reason. */
  datatype Answer = Accepted(answer: string) | Rejected(reason: string)

  function PlayItem(item: Option<MediaItem>, device: Player): Effect
  {
    Play("playItem", item, device)
  }

  /** Every cached item: all items, then those on deck, then those recently added. */
  function Catalog(cache: MediaCache): seq<MediaItem>
  {
    cache.items + cache.onDeck + cache.recent
  }

  /** Every command of the trace goes to `device`. */
  predicate PlaysOn(effects: seq<Effect>, device: Player)
  {
    forall e :: e in effects && e.Play? ==> e.device == device
  }

  /** `m` is an entry of `pool`, up to the search score written onto it. */
  predicate Drawn(m: MediaItem, pool: seq<MediaItem>)
  {
    exists x :: x in pool && SameEntry(m, x)
  }

  /** Every item the trace plays is an entry of `pool`. */
  predicate PlaysFrom(effects: seq<Effect>, pool: seq<MediaItem>)
  {
    forall e :: e in effects && e.Play? && e.item.Some? ==> Drawn(e.item.value, pool)
  }

  lemma DrawnMember(m: MediaItem, pool: seq<MediaItem>)
    requires m in pool
    ensures Drawn(m, pool)
  {
    assert SameEntry(m, m);
  }

  lemma DrawnOption(m: Option<MediaItem>, pool: seq<MediaItem>)
    requires m.Some? ==> m.value in pool
    ensures m.Some? ==> Drawn(m.value, pool)
  {
    if m.Some? {
      DrawnMember(m.value, pool);
    }
  }

  /** Items drawn from `p` are drawn from `q` when every entry of `p` is drawn from `q`. */
  lemma PlaysFromWeaken(effects: seq<Effect>, p: seq<MediaItem>, q: seq<MediaItem>)
    requires PlaysFrom(effects, p)
    requires forall x :: x in p ==> Drawn(x, q)
    ensures PlaysFrom(effects, q)
  {
    forall e | e in effects && e.Play? && e.item.Some?
      ensures Drawn(e.item.value, q)
    {
      var x :| x in p && SameEntry(e.item.value, x);
      var y :| y in q && SameEntry(x, y);
      assert SameEntry(e.item.value, y);
    }
  }

  /** A pool can be widened. */
  lemma PlaysFromGrow(effects: seq<Effect>, p: seq<MediaItem>, q: seq<MediaItem>)
    requires PlaysFrom(effects, p)
    requires forall x :: x in p ==> x in q
    ensures PlaysFrom(effects, q)
  {
    forall x | x in p
      ensures Drawn(x, q)
    {
      DrawnMember(x, q);
    }
    PlaysFromWeaken(effects, p, q);
  }

  // ---------------------------------------------------------------------------
  // Random picks

  /** `s[Math.floor(rand * s.length)]`; `None` is the `undefined` of an empty list. */
  function RandomPick(s: seq<MediaItem>, rand: Fraction): (r: Option<MediaItem>)
    ensures r.None? <==> |s| == 0
    ensures r.Some? ==> r.value in s
  {
    if |s| == 0 then None
    else
      FloorBound(rand, |s|);
      Some(s[(rand * |s| as real).Floor])
  }

  lemma FloorBound(rand: Fraction, n: nat)
    requires n > 0
    ensures 0 <= (rand * n as real).Floor < n
  {
    assert rand * n as real < n as real;
  }

  /** Every item of a list is the pick of some random value. */
  lemma RandomPickReaches(s: seq<MediaItem>, i: nat)
    requires i < |s|
    ensures 0.0 <= i as real / |s| as real < 1.0
    ensures RandomPick(s, i as real / |s| as real) == Some(s[i])
  {
    var n := |s| as real;
    assert (i as real / n) * n == i as real;
  }

  // ---------------------------------------------------------------------------
  // askQuestion

  /** The first allowed answer that contains the reply (`allowedAnswer.indexOf(result) != -1`). */
  function FirstContaining(allowed: seq<string>, reply: string): (r: Option<string>)
    ensures r.None? <==> forall a :: a in allowed ==> !Contains(a, reply)
    ensures r.Some? ==> r.value in allowed && Contains(r.value, reply)
  {
    if |allowed| == 0 then None
    else if Contains(allowed[0], reply) then Some(allowed[0])
    else FirstContaining(allowed[1..], reply)
  }

  /** The answer found is the FIRST allowed answer containing the reply. */
  lemma {:induction false} FirstContainingFirst(allowed: seq<string>, reply: string, i: nat)
    requires i < |allowed| && Contains(allowed[i], reply)
    requires forall j :: 0 <= j < i ==> !Contains(allowed[j], reply)
    ensures FirstContaining(allowed, reply) == Some(allowed[i])
  {
    if i > 0 {
      FirstContainingFirst(allowed[1..], reply, i - 1);
    }
  }

  /** An empty reply is contained in every answer, so it picks the first. */
  lemma EmptyReplyPicksFirst(allowed: seq<string>)
    requires |allowed| > 0
    ensures FirstContaining(allowed, "") == Some(allowed[0])
  {
    assert OccursAt(allowed[0], "", 0);
  }

  /** The loop of `askQuestion` over the allowed answers. */
  method MatchAllowed(allowedAnswers: seq<string>, result: string) returns (r: Option<string>)
    ensures r == FirstContaining(allowedAnswers, result)
  {
    for a := 0 to |allowedAnswers|
      invariant forall j :: 0 <= j < a ==> !Contains(allowedAnswers[j], result)
    {
      var allowedAnswer := allowedAnswers[a];
      if IndexOf(allowedAnswer, result) != -1 {
        FirstContainingFirst(allowedAnswers, result, a);
        return Some(allowedAnswer);
      }
    }
    return None;
  }

  /** `askQuestion(question, allowedAnswers)`: an error of the speech input rejects
      with it; otherwise the reply is trimmed and lower-cased; without allowed
      answers it is the answer, with them the first allowed answer containing it
      is, and a reply no allowed answer contains rejects with the reply. */
  function AskQuestion(w: World, question: string, allowed: Option<seq<string>>): (r: Answer)
    ensures w.ask(question).AskFailed? ==> r == Rejected(w.ask(question).err)
    ensures w.ask(question).Heard? && allowed.None? ==> r == Accepted(Lower(Trim(w.ask(question).text)))
    ensures w.ask(question).Heard? && allowed.Some? ==>
              var reply := Lower(Trim(w.ask(question).text));
              && (r.Accepted? ==> r.answer in allowed.value && Contains(r.answer, reply))
              && (r.Rejected? <==> forall a :: a in allowed.value ==> !Contains(a, reply))
              && (r.Rejected? ==> r.reason == reply)
  {
    match w.ask(question)
    case AskFailed(err) => Rejected(err)
    case Heard(text) =>
      var reply := Lower(Trim(text));
      if allowed.None? then Accepted(reply)
      else
        match FirstContaining(allowed.value, reply)
        case Some(a) => Accepted(a)
        case None => Rejected(reply)
  }

  // ---------------------------------------------------------------------------
  // getSingleResult

  /** One of several matches is played: the one there is, or the lowest episode. */
  function PlayLowest(s: seq<MediaItem>, device: Player): (r: seq<Effect>)
    ensures |s| == 0 ==> r == []
    ensures |s| > 0 ==> r == [PlayItem(Some(s[LowestAt(s)]), device)]
  {
    if |s| == 1 then [PlayItem(Some(s[0]), device)]
    else if |s| > 1 then [PlayItem(Some(s[LowestAt(s)]), device)]
    else []
  }

  /** The item a movie answer names: the first with that title, else the first with
      that secondary title (both compared ignoring case). */
  function Chosen(selection: seq<MediaItem>, answer: string): (r: Option<MediaItem>)
    ensures r.Some? ==> r.value in selection
    ensures (exists x :: x in selection && FieldMatches(x, Title, answer)) ==>
              r.Some? && FieldMatches(r.value, Title, answer)
    ensures (forall x :: x in selection ==> !FieldMatches(x, Title, answer)) ==>
              (r.Some? <==> exists x :: x in selection && FieldMatches(x, SecondaryTitle, answer))
              && (r.Some? ==> FieldMatches(r.value, SecondaryTitle, answer))
  {
    var byTitle := FilterBy(Title, answer, selection);
    var selected := if |byTitle| == 0 then FilterBy(SecondaryTitle, answer, selection) else byTitle;
    if |selected| > 0 then
      assert selected[0] in selected;
      Some(selected[0])
    else None
  }

  /** The question `getSingleResult` asks about several movies: how many it found
      for the matched text and their secondary titles. */
  function MovieQuestion(selection: seq<MediaItem>, speechMatch: string): string
  {
    var secondaryTitles := MetaOf(SecondaryTitle, selection) + [speechMatch];
    "I found " + NatToString(|selection|) + " matching results for " + speechMatch
    + ". Which would you like to watch? " + Join(secondaryTitles, ",") + "?"
  }

  /** The answers allowed to that question: the titles (only for fewer than five
      movies), the secondary titles and the matched text, all lower-cased but the last. */
  function MovieAnswers(selection: seq<MediaItem>, speechMatch: string): seq<string>
  {
    var titles := if |selection| < 5 then MetaOf(Title, selection) else [];
    titles + MetaOf(SecondaryTitle, selection) + [speechMatch]
  }

  /** Several movies: ask which one, and play the one the answer names. A rejected
      answer ends the flow without a word (the apology names an undeclared
      variable). */
  function MovieDialog(w: World, selection: seq<MediaItem>, speechMatch: string, device: Player): (r: seq<Effect>)
    ensures PlaysOn(r, device) && PlaysFrom(r, selection)
    ensures 1 <= |r| <= 2 && r[0] == Ask(MovieQuestion(selection, speechMatch))
  {
    var question := MovieQuestion(selection, speechMatch);
    [Ask(question)] + MovieAnswer(selection, device, AskQuestion(w, question, Some(MovieAnswers(selection, speechMatch))))
  }

  /** What the answer to the movie question plays: the movie it names, if any. */
  function MovieAnswer(selection: seq<MediaItem>, device: Player, answer: Answer): (r: seq<Effect>)
    ensures PlaysOn(r, device) && PlaysFrom(r, selection)
    ensures answer.Accepted? ==> r == [PlayItem(Chosen(selection, answer.answer), device)]
    ensures answer.Rejected? ==> r == []
  {
    match answer
    case Accepted(a) =>
      var chosen := Chosen(selection, a);
      DrawnOption(chosen, selection);
      [PlayItem(chosen, device)]
    case Rejected(_) => []
  }

  const EpisodeQuestionStart := "Sorry, I do not have enough information to find what you want to watch. Do you have any more information on what episode of "

  /** The kinds of answer to the open episode question, in the order they are tried. */
  datatype EpisodeReply = OldestReply | NewestReply | RandomReply | SearchReply

  function ReplyKind(reply: string): EpisodeReply
  {
    if Contains(reply, "no") || Contains(reply, "first") then OldestReply
    else if Contains(reply, "newest") || Contains(reply, "latest") then NewestReply
    else if Contains(reply, "random") || Contains(reply, "any") then RandomReply
    else SearchReply
  }

  /** The cached item of the best-scoring hit (the earliest of equally scored ones)
      of the episode index for `query`: there is one exactly when the search
      answers with hits and the cache holds an item with that hit's key. */
  function BestEpisodeHit(w: World, query: string): (r: Option<MediaItem>)
    ensures r.Some? ==>
              && w.search("episode", query).Some?
              && var hits := w.search("episode", query).value;
              && |hits| > 0 && r.value in w.cache.items && r.value.key == hits[BestAt(hits)].ref
    ensures r.None? ==>
              || w.search("episode", query).None?
              || var hits := w.search("episode", query).value;
                 || |hits| == 0
                 || forall x :: x in w.cache.items ==> x.key != hits[BestAt(hits)].ref
  {
    match w.search("episode", query)
    case None => None
    case Some(hits) => if |hits| == 0 then None else Lookup(w.cache.items, hits[BestAt(hits)].ref)
  }

  /** What the answer to the open episode question plays. After "no" or "first"
      the app says it plays the oldest episode but hands the player the unset
      `lowestNeverWatched`, so nothing is named. An answer that leads nowhere ends
      the flow without a word (the apology is said through a missing object). */
  function DialogAnswer(w: World, selection: seq<MediaItem>, speechMatch: string, reply: string, device: Player): (r: seq<Effect>)
    requires |selection| > 0
    ensures PlaysOn(r, device) && PlaysFrom(r, selection + Catalog(w.cache))
    ensures ReplyKind(reply) == OldestReply ==>
              r == [Say("Okay, playing the oldest episode of " + speechMatch), PlayItem(None, device)]
    ensures ReplyKind(reply) == NewestReply ==>
              r == [Say("Okay, playing the most recent episode of " + speechMatch),
                    PlayItem(Some(selection[NewestAt(selection)]), device)]
    ensures ReplyKind(reply) == RandomReply ==>
              r == [Say("Okay, playing a random episode of " + speechMatch), PlayItem(RandomPick(selection, w.rand), device)]
    ensures ReplyKind(reply) == SearchReply ==>
              var found := BestEpisodeHit(w, speechMatch + " " + reply);
              (found.Some? ==> r == [PlayItem(found, device)]) && (found.None? ==> r == [])
  {
    if Contains(reply, "no") || Contains(reply, "first") then
      [Say("Okay, playing the oldest episode of " + speechMatch), PlayItem(None, device)]
    else if Contains(reply, "newest") || Contains(reply, "latest") then
      var newest := selection[NewestAt(selection)];
      DrawnMember(newest, selection + Catalog(w.cache));
      [Say("Okay, playing the most recent episode of " + speechMatch), PlayItem(Some(newest), device)]
    else if Contains(reply, "random") || Contains(reply, "any") then
      var pick := RandomPick(selection, w.rand);
      DrawnOption(pick, selection + Catalog(w.cache));
      [Say("Okay, playing a random episode of " + speechMatch), PlayItem(pick, device)]
    else
      match BestEpisodeHit(w, speechMatch + " " + reply)
      case Some(m) =>
        DrawnMember(m, selection + Catalog(w.cache));
        [PlayItem(Some(m), device)]
      case None => []
  }

  /** The open question about which episode, and what its answer plays. */
  function EpisodeDialog(w: World, selection: seq<MediaItem>, speechMatch: string, device: Player): (r: seq<Effect>)
    requires |selection| > 0
    ensures PlaysOn(r, device) && PlaysFrom(r, selection + Catalog(w.cache))
    ensures |r| >= 1 && r[0] == Ask(EpisodeQuestionStart + speechMatch + " you want to watch?")
  {
    var question := EpisodeQuestionStart + speechMatch + " you want to watch?";
    [Ask(question)] +
      match AskQuestion(w, question, None)
      case Accepted(reply) => DialogAnswer(w, selection, speechMatch, reply, device)
      case Rejected(_) => [Say("I'm sorry master, I failed you. Please start over")]
  }

  /** The never-watched episodes among the selection, by the never-watched index. */
  function NeverWatched(w: World, selection: seq<MediaItem>, speechMatch: string, device: Player): (r: seq<Effect>)
    requires |selection| > 0
    ensures PlaysOn(r, device) && PlaysFrom(r, selection + Catalog(w.cache))
  {
    match w.search("neverwatched", speechMatch)
    case None => []
    case Some(hits) =>
      var neverWatched := if |hits| > 0 then IndexToMedia(HitRefs(hits), selection) else [];
      if |neverWatched| > 0 then
        var m := neverWatched[LowestAt(neverWatched)];
        assert m in neverWatched;
        var y :| y in selection && SameEntry(m, y);
        assert y in selection + Catalog(w.cache);
        PlayLowest(neverWatched, device)
      else EpisodeDialog(w, selection, speechMatch, device)
  }

  /** The episodes of the selection on deck, else those recently added, else the
      never-watched ones, else the question. */
  function Remembered(w: World, selection: seq<MediaItem>, speechMatch: string, device: Player): (r: seq<Effect>)
    requires |selection| > 0
    ensures PlaysOn(r, device) && PlaysFrom(r, selection + Catalog(w.cache))
  {
    var onDeck := MatchingItems(selection, w.cache.onDeck);
    if |onDeck| > 0 then
      DrawnMember(onDeck[LowestAt(onDeck)], selection + Catalog(w.cache));
      PlayLowest(onDeck, device)
    else
      var recent := MatchingItems(selection, w.cache.recent);
      if |recent| > 0 then
        DrawnMember(recent[LowestAt(recent)], selection + Catalog(w.cache));
        PlayLowest(recent, device)
      else NeverWatched(w, selection, speechMatch, device)
  }

  /** Several episodes: "latest" plays the newest, "first" the oldest, "random" a
      random one; otherwise the remembered ones decide. */
  function EpisodeResolution(w: World, commands: seq<string>, selection: seq<MediaItem>,
                             speechMatch: string, device: Player): (r: seq<Effect>)
    requires |selection| > 0
    ensures PlaysOn(r, device) && PlaysFrom(r, selection + Catalog(w.cache))
  {
    if "latest" in commands then
      var newest := selection[NewestAt(selection)];
      DrawnMember(newest, selection + Catalog(w.cache));
      [Say("Okay, playing the most recent episode of " + speechMatch), PlayItem(Some(newest), device)]
    else if "first" in commands then
      var first := selection[LowestAt(selection)];
      DrawnMember(first, selection + Catalog(w.cache));
      [Say("Okay, playing the oldest episode of " + speechMatch), PlayItem(Some(first), device)]
    else if "random" in commands then
      var pick := RandomPick(selection, w.rand);
      DrawnOption(pick, selection + Catalog(w.cache));
      [PlayItem(pick, device)]
    else Remembered(w, selection, speechMatch, device)
  }

  /** `getSingleResult(selection, speechResults)`: nothing for no items, the item for
      one; several movies or episodes go through their own resolution, and items of
      any other type are left alone. */
  function SingleResult(w: World, commands: seq<string>, selection: seq<MediaItem>,
                        speechMatch: string, device: Player): (r: seq<Effect>)
    ensures PlaysOn(r, device) && PlaysFrom(r, selection + Catalog(w.cache))
    ensures |selection| == 0 ==> r == []
  {
    if |selection| == 0 then []
    else if |selection| == 1 then
      DrawnMember(selection[0], selection + Catalog(w.cache));
      [PlayItem(Some(selection[0]), device)]
    else if selection[0].mediaType == "movie" then
      var r := MovieDialog(w, selection, speechMatch, device);
      PlaysFromGrow(r, selection, selection + Catalog(w.cache));
      r
    else if selection[0].mediaType == "episode" then EpisodeResolution(w, commands, selection, speechMatch, device)
    else []
  }

  // ---------------------------------------------------------------------------
  // processConversation

  /** `types[types.length - 1] || null`. */
  function LastType(types: seq<string>): Option<string>
  {
    if |types| > 0 && types[|types| - 1] != "" then Some(types[|types| - 1]) else None
  }

  /** `keyToMediaItem(ref)` of a candidate's key, which may be missing. */
  function LookupRef(items: seq<MediaItem>, ref: Option<string>): (r: Option<MediaItem>)
    ensures r.Some? ==> r.value in items && ref == Some(r.value.key)
  {
    if ref.None? then None else Lookup(items, ref.value)
  }

  const TypeQuestion := "Would you like to watch a movie or a series?"

  /** The answers allowed to the type question. */
  const TypeAnswers: seq<string> := ["movie", "series"]

  /** Movies and episodes both remain and no type was said: ask which. */
  function AskType(w: World, commands: seq<string>, series: seq<MediaItem>, movies: seq<MediaItem>,
                   speechMatch: string, device: Player): (r: seq<Effect>)
    ensures PlaysOn(r, device) && PlaysFrom(r, series + movies + Catalog(w.cache))
    ensures |r| >= 1 && r[0] == Ask(TypeQuestion)
  {
    [Ask(TypeQuestion)] + TypeAnswer(w, commands, series, movies, speechMatch, device,
                                     AskQuestion(w, TypeQuestion, Some(TypeAnswers)))
  }

  /** What the answer to the type question leads to: "movie" goes on with the
      movies, "series" with the episodes; a failed answer is apologised for. */
  function TypeAnswer(w: World, commands: seq<string>, series: seq<MediaItem>, movies: seq<MediaItem>,
                      speechMatch: string, device: Player, answer: Answer): (r: seq<Effect>)
    ensures PlaysOn(r, device) && PlaysFrom(r, series + movies + Catalog(w.cache))
  {
    match answer
    case Rejected(err) => [Say("Sorry... I didn't understand " + err + ". Please try again.")]
    case Accepted(a) =>
      if a == "abort" then []
      else
        var remaining := if a == "movie" then movies else if a == "series" then series else [];
        var r := SingleResult(w, commands, remaining, speechMatch, device);
        PlaysFromGrow(r, remaining + Catalog(w.cache), series + movies + Catalog(w.cache));
        r
  }

  /** Once the type hints are spent: with only one kind left (or a type said) go on
      with that kind, otherwise ask. */
  function Narrow(w: World, commands: seq<string>, series: seq<MediaItem>, movies: seq<MediaItem>,
                  lastType: Option<string>, speechMatch: string, device: Player): (r: seq<Effect>)
    ensures PlaysOn(r, device) && PlaysFrom(r, series + movies + Catalog(w.cache))
  {
    var pool := series + movies + Catalog(w.cache);
    var oneKind := |series| == 0 || |movies| == 0;
    var remaining := if oneKind then (if |series| > 0 then series else movies) else [];
    var kind := if oneKind && lastType.None? then Some(if |series| > 0 then "episode" else "movie") else lastType;
    if |remaining| == 0 && kind.None? then AskType(w, commands, series, movies, speechMatch, device)
    else if kind == Some("movie") then
      var r := SingleResult(w, commands, movies, speechMatch, device);
      PlaysFromGrow(r, movies + Catalog(w.cache), pool);
      r
    else if kind == Some("episode") then
      var r := SingleResult(w, commands, series, speechMatch, device);
      PlaysFromGrow(r, series + Catalog(w.cache), pool);
      r
    else []
  }

  /** The candidates of the selection are cache items up to their score. */
  lemma SelectionDrawn(selection: seq<MediaItem>, series: seq<MediaItem>, movies: seq<MediaItem>, cache: MediaCache)
    requires forall x :: x in selection ==> exists y :: y in cache.items && SameEntry(x, y)
    requires forall x :: x in series ==> x in selection
    requires forall x :: x in movies ==> x in selection
    ensures forall x :: x in series + movies + Catalog(cache) ==> Drawn(x, Catalog(cache))
  {
    forall x | x in series + movies + Catalog(cache)
      ensures Drawn(x, Catalog(cache))
    {
      if x in Catalog(cache) {
        DrawnMember(x, Catalog(cache));
      } else {
        var y :| y in cache.items && SameEntry(x, y);
        assert y in Catalog(cache);
      }
    }
  }

  /** Several candidates: keep the longest matches; one left is played; otherwise
      split the items they name into episodes and movies and use the type hints. */
  function Several(w: World, results: SpeechResults, device: Player): (r: seq<Effect>)
    requires |results.media| > 1
    ensures PlaysOn(r, device) && PlaysFrom(r, Catalog(w.cache))
  {
    var longest := LongestMatches(results.media);
    if |longest| == 1 then
      var found := LookupRef(w.cache.items, longest[0].ref);
      DrawnOption(found, Catalog(w.cache));
      [PlayItem(found, device)]
    else
      var selection := IndexToMedia(SpeechRefs(longest), w.cache.items);
      var series := FilterBy(MediaTypeField, "episode", selection);
      var movies := FilterBy(MediaTypeField, "movie", selection);
      var lastType := LastType(results.types);
      SelectionDrawn(selection, series, movies, w.cache);
      var r := Hinted(w, results.commands, series, movies, lastType, longest[0].matchText, device);
      PlaysFromWeaken(r, series + movies + Catalog(w.cache), Catalog(w.cache));
      r
  }

  /** The type hint decides when it leaves one item of its kind, or with "random"
      a random one of its kind; otherwise the narrowing goes on. */
  function Hinted(w: World, commands: seq<string>, series: seq<MediaItem>, movies: seq<MediaItem>,
                  lastType: Option<string>, speechMatch: string, device: Player): (r: seq<Effect>)
    ensures PlaysOn(r, device) && PlaysFrom(r, series + movies + Catalog(w.cache))
    ensures lastType == Some("movie") && |movies| == 1 ==> r == [PlayItem(Some(movies[0]), device)]
    ensures lastType == Some("episode") && |series| == 1 ==> r == [PlayItem(Some(series[0]), device)]
    ensures lastType == Some("episode") && |series| != 1 && "random" in commands ==>
              r == [PlayItem(RandomPick(series, w.rand), device)]
    ensures lastType == Some("movie") && |movies| != 1 && "random" in commands ==>
              r == [PlayItem(RandomPick(movies, w.rand), device)]
    ensures "random" !in commands && (lastType == Some("movie") ==> |movies| != 1)
            && (lastType == Some("episode") ==> |series| != 1) ==>
              r == Narrow(w, commands, series, movies, lastType, speechMatch, device)
  {
    var pool := series + movies + Catalog(w.cache);
    if lastType == Some("movie") && |movies| == 1 then
      DrawnMember(movies[0], pool);
      [PlayItem(Some(movies[0]), device)]
    else if lastType == Some("episode") && |series| == 1 then
      DrawnMember(series[0], pool);
      [PlayItem(Some(series[0]), device)]
    else if "random" in commands && lastType == Some("episode") then
      var pick := RandomPick(series, w.rand);
      DrawnOption(pick, pool);
      [PlayItem(pick, device)]
    else if "random" in commands && lastType == Some("movie") then
      var pick := RandomPick(movies, w.rand);
      DrawnOption(pick, pool);
      [PlayItem(pick, device)]
    else Narrow(w, commands, series, movies, lastType, speechMatch, device)
  }

  /** The part of "watch" handled at once: a random movie, one candidate, several
      candidates, or the apology for a request with neither candidate nor type. */
  function WatchNow(w: World, results: SpeechResults, transcript: string, device: Player): (r: seq<Effect>)
    ensures PlaysOn(r, device) && PlaysFrom(r, Catalog(w.cache))
  {
    var media := results.media;
    if |media| == 0 && "random" in results.commands && "movie" in results.types then
      var pick := RandomPick(FilterBy(MediaTypeField, "movie", w.cache.items), w.rand);
      DrawnOption(pick, Catalog(w.cache));
      [Say("Playing random movie from your collection!"), PlayItem(pick, device)]
    else if |media| == 1 then
      var found := LookupRef(w.cache.items, media[0].ref);
      if found.Some? then
        DrawnMember(found.value, Catalog(w.cache));
        [PlayItem(found, device)]
      else []
    else if |media| > 1 then Several(w, results, device)
    else if |results.types| == 0 then
      [Say("Sorry, I don't know what you mean with " + Trim(ReplaceFirst(transcript, "watch", "")))]
    else []
  }

  const NoSessionText := "No active watch sessions found. I'm not sure what you want to watch. Please start over"

  /** "Watch the next / previous episode", handled when the active sessions arrive:
      searches the episode index for the show's title and the compound episode
      index moved by `delta`, and plays the item of the first hit. Both directions
      apologise for the NEXT episode. */
  function SessionStep(w: World, device: Player, delta: int): (r: seq<Effect>)
    ensures PlaysOn(r, device) && PlaysFrom(r, w.cache.items)
    ensures |r| <= 1
  {
    match w.sessions
    case None => []
    case Some(current) =>
      if |current| == 0 then [Say(NoSessionText)]
      else
        var m := CacheItem(current[0], w.machineIdentifier);
        if m.mediaType != "episode" then []
        else
          match w.search("episode", m.title + " " + IntToString(m.compoundEpisodeIndex + delta))
          case None => []
          case Some(hits) =>
            if |hits| > 0 then
              var found := Lookup(w.cache.items, hits[0].ref);
              DrawnOption(found, w.cache.items);
              [PlayItem(found, device)]
            else [Say("Sorry, I couldn't find the next episode for " + m.title)]
  }

  /** The "watch" command. The replies about the active sessions come after
      everything handled at once. */
  function Watch(w: World, results: SpeechResults, transcript: string, device: Player): (r: seq<Effect>)
    ensures PlaysOn(r, device) && PlaysFrom(r, Catalog(w.cache))
  {
    var next := if "watchnextepisode" in results.commands then SessionStep(w, device, 1) else [];
    var previous := if "watchpreviousepisode" in results.commands then SessionStep(w, device, -1) else [];
    PlaysFromGrow(next, w.cache.items, Catalog(w.cache));
    PlaysFromGrow(previous, w.cache.items, Catalog(w.cache));
    WatchNow(w, results, transcript, device) + next + previous
  }

  /** "You are watching …" for an item. */
  function Describe(m: MediaItem): string
  {
    if m.mediaType == "episode" then
      "You are watching an episode of " + m.title + " named " + m.episodeTitle + ", " + m.season + ", " + m.episodeIndex
    else "You are watching " + m.title
  }

  /** "What is playing": a Chromecast describes its last session when it has a title;
      a Plex Home Theater player describes the first active session once they arrive. */
  function CurrentlyPlaying(w: World, device: Player): (r: seq<Effect>)
    ensures |r| <= 1
    ensures forall e :: e in r ==> e.Say? && |e.text| >= 17 && e.text[..17] == "You are watching "
    ensures device.driver == "chromecast" ==>
              (|r| == 1 <==> w.castSession.Some? && w.castSession.value.title != "")
              && (|r| == 1 ==> r[0] == Say(Describe(w.castSession.value)))
    ensures device.driver == "pht" ==>
              (|r| == 1 <==> w.sessions.Some? && |w.sessions.value| > 0)
              && (|r| == 1 ==> r[0] == Say(Describe(CacheItem(w.sessions.value[0], w.machineIdentifier))))
    ensures device.driver != "chromecast" && device.driver != "pht" ==> r == []
  {
    var cast :=
      if device.driver == "chromecast" && w.castSession.Some? && w.castSession.value.title != ""
      then [Say(Describe(w.castSession.value))] else [];
    var pht :=
      if device.driver == "pht" && w.sessions.Some? && |w.sessions.value| > 0
      then [Say(Describe(CacheItem(w.sessions.value[0], w.machineIdentifier)))] else [];
    cast + pht
  }

  /** The commands in their order of precedence. */
  function Dispatch(w: World, results: SpeechResults, transcript: string, device: Player): (r: seq<Effect>)
    ensures PlaysOn(r, device) && PlaysFrom(r, Catalog(w.cache))
  {
    var commands := results.commands;
    if "pause" in commands then [Play("pause", None, device)]
    else if "continue" in commands then [Play("play", None, device)]
    else if "stop" in commands then [Play("stop", None, device)]
    else if "refresh" in commands then [RefreshCache]
    else if "currentlyplaying" in commands then CurrentlyPlaying(w, device)
    else if "watch" in commands then Watch(w, results, transcript, device)
    else []
  }

  const NotSetUpText := "You need to register a Plex Media Server first. Go to the settings page"
  const NoMediaText := "I couldn't find any media items"
  const NoPlayersText := "I couldn't find any installed players. Go to the devices page to install one"

  /** `processConversation(speechObject)`. Without a server, media or a player it
      says so; otherwise every command goes to the first device of the speech (or
      the first installed player when it names none), and every item played is an
      entry of the cache: the resolution never plays anything else. */
  function ProcessConversation(w: World, speech: SpeechObject): (r: seq<Effect>)
    ensures !w.hasSetup ==> r == [Say(NotSetUpText)]
    ensures w.hasSetup && |w.cache.items| == 0 ==> r == [Say(NoMediaText)]
    ensures w.hasSetup && |w.cache.items| > 0 && |speech.devices| == 0 && |w.installedPlayers| == 0 ==>
              r == [Say(NoPlayersText)]
    ensures |speech.devices| > 0 ==> PlaysOn(r, speech.devices[0])
    ensures |speech.devices| == 0 && |w.installedPlayers| > 0 ==> PlaysOn(r, w.installedPlayers[0])
    ensures PlaysFrom(r, Catalog(w.cache))
    ensures (&& w.hasSetup && |w.cache.items| > 0 && (|speech.devices| > 0 || |w.installedPlayers| > 0)
             && Decode(speech.triggers).commands == []) ==> r == []
  {
    if !w.hasSetup then [Say(NotSetUpText)]
    else if |w.cache.items| == 0 then [Say(NoMediaText)]
    else if |speech.devices| == 0 && |w.installedPlayers| == 0 then [Say(NoPlayersText)]
    else
      var device := if |speech.devices| > 0 then speech.devices[0] else w.installedPlayers[0];
      var results := Decode(speech.triggers);
      if |results.commands| == 0 then [] else Dispatch(w, results, speech.transcript, device)
  }

  // ---------------------------------------------------------------------------
  // Properties of the resolution

  /** Several episodes and "latest" said: the episode with the highest compound
      index is announced and played (the earliest of equal ones), whatever else
      was said. */
  lemma LatestEpisodeWins(w: World, commands: seq<string>, selection: seq<MediaItem>, speechMatch: string, device: Player)
    requires |selection| >= 2 && selection[0].mediaType == "episode" && "latest" in commands
    ensures exists k :: 0 <= k < |selection|
              && SingleResult(w, commands, selection, speechMatch, device)
                 == [Say("Okay, playing the most recent episode of " + speechMatch), PlayItem(Some(selection[k]), device)]
              && (forall j :: 0 <= j < |selection| ==> selection[j].compoundEpisodeIndex <= selection[k].compoundEpisodeIndex)
              && (forall j :: 0 <= j < k ==> selection[j].compoundEpisodeIndex < selection[k].compoundEpisodeIndex)
  {
    var k := NewestAt(selection);
    assert SingleResult(w, commands, selection, speechMatch, device)
        == [Say("Okay, playing the most recent episode of " + speechMatch), PlayItem(Some(selection[k]), device)];
  }

  /** Several episodes, "first" said and "latest" not: the episode with the lowest
      compound index is announced and played (the earliest of equal ones). */
  lemma FirstEpisodeNext(w: World, commands: seq<string>, selection: seq<MediaItem>, speechMatch: string, device: Player)
    requires |selection| >= 2 && selection[0].mediaType == "episode"
    requires "latest" !in commands && "first" in commands
    ensures exists k :: 0 <= k < |selection|
              && SingleResult(w, commands, selection, speechMatch, device)
                 == [Say("Okay, playing the oldest episode of " + speechMatch), PlayItem(Some(selection[k]), device)]
              && (forall j :: 0 <= j < |selection| ==> selection[k].compoundEpisodeIndex <= selection[j].compoundEpisodeIndex)
              && (forall j :: 0 <= j < k ==> selection[j].compoundEpisodeIndex > selection[k].compoundEpisodeIndex)
  {
    var k := LowestAt(selection);
    assert SingleResult(w, commands, selection, speechMatch, device)
        == [Say("Okay, playing the oldest episode of " + speechMatch), PlayItem(Some(selection[k]), device)];
  }

  /** The lowest-episode rule over the matches of the selection in `media`: the
      play is of a match, and of none with a higher compound index than another. */
  predicate PlaysLowestMatch(r: seq<Effect>, selection: seq<MediaItem>, media: seq<MediaItem>, device: Player)
  {
    exists m :: m in media && m.key in Keys(selection)
      && r == [PlayItem(Some(m), device)]
      && forall x :: x in media && x.key in Keys(selection) ==> m.compoundEpisodeIndex <= x.compoundEpisodeIndex
  }

  lemma PlayLowestMatch(selection: seq<MediaItem>, media: seq<MediaItem>, device: Player)
    requires |MatchingItems(selection, media)| > 0
    ensures PlaysLowestMatch(PlayLowest(MatchingItems(selection, media), device), selection, media, device)
  {
    var matches := MatchingItems(selection, media);
    var m := matches[LowestAt(matches)];
    assert m in matches;
    forall x | x in media && x.key in Keys(selection)
      ensures m.compoundEpisodeIndex <= x.compoundEpisodeIndex
    {
      assert x in matches;
      var j :| 0 <= j < |matches| && matches[j] == x;
    }
  }

  /** Several episodes and none of "latest", "first" or "random": when some are on
      deck, the lowest of those on deck is played. */
  lemma OnDeckEpisodeNext(w: World, commands: seq<string>, selection: seq<MediaItem>, speechMatch: string, device: Player)
    requires |selection| >= 2 && selection[0].mediaType == "episode"
    requires "latest" !in commands && "first" !in commands && "random" !in commands
    requires exists x :: x in w.cache.onDeck && x.key in Keys(selection)
    ensures PlaysLowestMatch(SingleResult(w, commands, selection, speechMatch, device), selection, w.cache.onDeck, device)
  {
    var x :| x in w.cache.onDeck && x.key in Keys(selection);
    var onDeck := MatchingItems(selection, w.cache.onDeck);
    assert x in onDeck;
    assert SingleResult(w, commands, selection, speechMatch, device)
        == EpisodeResolution(w, commands, selection, speechMatch, device);
    assert EpisodeResolution(w, commands, selection, speechMatch, device)
        == Remembered(w, selection, speechMatch, device);
    assert Remembered(w, selection, speechMatch, device) == PlayLowest(onDeck, device);
    PlayLowestMatch(selection, w.cache.onDeck, device);
  }

  /** The same with nothing on deck: the lowest of those recently added is played. */
  lemma RecentEpisodeNext(w: World, commands: seq<string>, selection: seq<MediaItem>, speechMatch: string, device: Player)
    requires |selection| >= 2 && selection[0].mediaType == "episode"
    requires "latest" !in commands && "first" !in commands && "random" !in commands
    requires forall x :: x in w.cache.onDeck ==> x.key !in Keys(selection)
    requires exists x :: x in w.cache.recent && x.key in Keys(selection)
    ensures PlaysLowestMatch(SingleResult(w, commands, selection, speechMatch, device), selection, w.cache.recent, device)
  {
    var x :| x in w.cache.recent && x.key in Keys(selection);
    var recent := MatchingItems(selection, w.cache.recent);
    assert x in recent;
    var onDeck := MatchingItems(selection, w.cache.onDeck);
    NoMatchingItems(selection, w.cache.onDeck);
    assert SingleResult(w, commands, selection, speechMatch, device)
        == EpisodeResolution(w, commands, selection, speechMatch, device);
    assert EpisodeResolution(w, commands, selection, speechMatch, device)
        == Remembered(w, selection, speechMatch, device);
    assert Remembered(w, selection, speechMatch, device) == PlayLowest(recent, device);
    PlayLowestMatch(selection, w.cache.recent, device);
  }

  /** Two episodes of a show, one of them on deck: that one is played. */
  lemma OneOnDeckEpisodePlays(w: World, commands: seq<string>, a: MediaItem, b: MediaItem, speechMatch: string, device: Player)
    requires a.mediaType == "episode" && a.key != b.key
    requires "latest" !in commands && "first" !in commands && "random" !in commands
    requires a in w.cache.onDeck
    requires forall x :: x in w.cache.onDeck && (x.key == a.key || x.key == b.key) ==> x == a
    ensures SingleResult(w, commands, [a, b], speechMatch, device) == [PlayItem(Some(a), device)]
  {
    var selection := [a, b];
    assert Keys(selection) == [a.key, b.key];
    assert a.key in Keys(selection);
    OnDeckEpisodeNext(w, commands, selection, speechMatch, device);
  }

  /** Several longest candidates and no type said: the episodes and movies they
      name go on to the narrowing. */
  lemma SeveralNarrows(w: World, results: SpeechResults, device: Player)
    requires |results.media| > 1 && |LongestMatches(results.media)| > 1 && LastType(results.types) == None
    ensures var longest := LongestMatches(results.media);
            var selection := IndexToMedia(SpeechRefs(longest), w.cache.items);
            Several(w, results, device)
            == Hinted(w, results.commands, FilterBy(MediaTypeField, "episode", selection),
                      FilterBy(MediaTypeField, "movie", selection), None, longest[0].matchText, device)
  {
  }

  /** "series" is found in the second offered answer only. */
  lemma SeriesAnswer()
    ensures FirstContaining(TypeAnswers, "series") == Some("series")
  {
    assert !Contains("movie", "series");
    assert OccursAt("series", "series", 0);
    FirstContainingFirst(TypeAnswers, "series", 1);
  }

  /** Both kinds present and no type said: the type is asked for, and the answer
      "series" goes on with the episodes. */
  lemma MixedKindsAskForType(w: World, commands: seq<string>, series: seq<MediaItem>, movies: seq<MediaItem>,
                             speechMatch: string, device: Player)
    requires |series| > 0 && |movies| > 0
    ensures var r := Hinted(w, commands, series, movies, None, speechMatch, device);
            |r| >= 1 && r[0] == Ask(TypeQuestion)
    ensures w.ask(TypeQuestion).Heard? && Lower(Trim(w.ask(TypeQuestion).text)) == "series" ==>
              Hinted(w, commands, series, movies, None, speechMatch, device)
              == [Ask(TypeQuestion)] + SingleResult(w, commands, series, speechMatch, device)
  {
    assert Hinted(w, commands, series, movies, None, speechMatch, device)
        == Narrow(w, commands, series, movies, None, speechMatch, device);
    assert Narrow(w, commands, series, movies, None, speechMatch, device)
        == AskType(w, commands, series, movies, speechMatch, device);
    if w.ask(TypeQuestion).Heard? && Lower(Trim(w.ask(TypeQuestion).text)) == "series" {
      SeriesAnswer();
      assert AskQuestion(w, TypeQuestion, Some(TypeAnswers)) == Accepted("series");
    }
  }

  /** A lone candidate whose item is in the cache is played at once: "watch" and one
      media trigger (decoded as `MediaIdRoundTrip` shows) naming an item whose key
      no other cached item has. */
  lemma WatchOneCandidate(w: World, speech: SpeechObject, m: MediaItem)
    requires w.hasSetup && |speech.devices| > 0
    requires m in w.cache.items
    requires forall x :: x in w.cache.items && x.key == m.key ==> x == m
    requires Decode(speech.triggers).commands == ["watch"]
    requires |Decode(speech.triggers).media| == 1 && Decode(speech.triggers).media[0].ref == Some(m.key)
    ensures ProcessConversation(w, speech) == [PlayItem(Some(m), speech.devices[0])]
  {
    var results := Decode(speech.triggers);
    var device := speech.devices[0];
    assert Lookup(w.cache.items, m.key) == Some(m);
    assert WatchNow(w, results, speech.transcript, device) == [PlayItem(Some(m), device)];
    WatchOnly(w, results, speech.transcript, device);
  }

  /** With "watch" the only command, the conversation is what is handled at once. */
  lemma WatchOnly(w: World, results: SpeechResults, transcript: string, device: Player)
    requires results.commands == ["watch"]
    ensures Dispatch(w, results, transcript, device) == WatchNow(w, results, transcript, device)
  {
    var now := WatchNow(w, results, transcript, device);
    assert "watchnextepisode" !in results.commands && "watchpreviousepisode" !in results.commands;
    assert Watch(w, results, transcript, device) == now + [] + [];
    assert now + [] + [] == now;
  }

  /** "watch" with neither candidate nor type: the apology repeats the transcript
      without its leading "watch", trimmed. */
  lemma UnknownRequest(w: World, speech: SpeechObject, rest: string)
    requires w.hasSetup && |w.cache.items| > 0 && |speech.devices| > 0
    requires Decode(speech.triggers) == SpeechResults(["watch"], [], [], [])
    requires speech.transcript == "watch" + rest
    ensures ProcessConversation(w, speech) == [Say("Sorry, I don't know what you mean with " + Trim(rest))]
  {
    assert OccursAt(speech.transcript, "watch", 0);
    FirstOccurrence(speech.transcript, "watch", 0);
    assert speech.transcript[5..] == rest;
    assert ReplaceFirst(speech.transcript, "watch", "") == rest;
    var results := Decode(speech.triggers);
    var device := speech.devices[0];
    assert WatchNow(w, results, speech.transcript, device)
        == [Say("Sorry, I don't know what you mean with " + Trim(rest))];
    WatchOnly(w, results, speech.transcript, device);
  }

  /** The answer to the type question is always one of the two offered: "abort"
      never comes back. */
  lemma TypeAnswerOffered(w: World)
    ensures var a := AskQuestion(w, TypeQuestion, Some(TypeAnswers));
            a.Accepted? ==> a.answer == "movie" || a.answer == "series"
  {
  }

  /** After "no" or "first", the oldest episode is announced but the player is
      handed no item. */
  lemma OldestAnswerNamesNothing(w: World, selection: seq<MediaItem>, speechMatch: string, device: Player)
    requires |selection| > 0
    requires var q := EpisodeQuestionStart + speechMatch + " you want to watch?";
             w.ask(q).Heard? && Contains(Lower(Trim(w.ask(q).text)), "first")
    ensures EpisodeDialog(w, selection, speechMatch, device)
            == [Ask(EpisodeQuestionStart + speechMatch + " you want to watch?"),
                Say("Okay, playing the oldest episode of " + speechMatch), PlayItem(None, device)]
  {
  }

  /** An answer to the episode question that names nothing findable ends without
      the apology. */
  lemma UnresolvedAnswerIsSilent(w: World, selection: seq<MediaItem>, speechMatch: string, device: Player)
    requires |selection| > 0
    requires var q := EpisodeQuestionStart + speechMatch + " you want to watch?";
             && w.ask(q).Heard?
             && var reply := Lower(Trim(w.ask(q).text));
             && !Contains(reply, "no") && !Contains(reply, "first") && !Contains(reply, "newest")
             && !Contains(reply, "latest") && !Contains(reply, "random") && !Contains(reply, "any")
             && w.search("episode", speechMatch + " " + reply) == Some([])
    ensures EpisodeDialog(w, selection, speechMatch, device)
            == [Ask(EpisodeQuestionStart + speechMatch + " you want to watch?")]
  {
  }

  /** A failed answer to the movie question, or a reply that no offered answer
      contains, ends without a word. */
  lemma RejectedMovieAnswerIsSilent(w: World, selection: seq<MediaItem>, speechMatch: string, device: Player)
    requires var q := MovieQuestion(selection, speechMatch);
             || w.ask(q).AskFailed?
             || (&& w.ask(q).Heard?
                 && forall a :: a in MovieAnswers(selection, speechMatch) ==> !Contains(a, Lower(Trim(w.ask(q).text))))
    ensures MovieDialog(w, selection, speechMatch, device) == [Ask(MovieQuestion(selection, speechMatch))]
  {
    var q := MovieQuestion(selection, speechMatch);
    assert AskQuestion(w, q, Some(MovieAnswers(selection, speechMatch))).Rejected?;
  }

  /** A reply accepted as the lower-cased title of one of the movies plays a movie
      with that title (ignoring case): the first such one of the selection. */
  lemma MovieTitleAnswerPlays(w: World, selection: seq<MediaItem>, speechMatch: string, device: Player, x: MediaItem)
    requires x in selection && x.title != ""
    requires var q := MovieQuestion(selection, speechMatch);
             AskQuestion(w, q, Some(MovieAnswers(selection, speechMatch))) == Accepted(Lower(x.title))
    ensures exists y :: y in selection && Lower(y.title) == Lower(x.title)
              && MovieDialog(w, selection, speechMatch, device)
                 == [Ask(MovieQuestion(selection, speechMatch)), PlayItem(Some(y), device)]
  {
    var a := Lower(x.title);
    LowerIdempotent(x.title);
    assert FieldMatches(x, Title, a);
    var y := Chosen(selection, a).value;
    assert FieldMatches(y, Title, a);
    assert MovieDialog(w, selection, speechMatch, device)
        == [Ask(MovieQuestion(selection, speechMatch)), PlayItem(Some(y), device)];
  }

  /** One item is played at once; several movies go to the movie question; several
      items of a type other than movie or episode are left alone. */
  lemma SingleResultShortcuts(w: World, commands: seq<string>, selection: seq<MediaItem>, speechMatch: string, device: Player)
    ensures |selection| == 1 ==> SingleResult(w, commands, selection, speechMatch, device) == [PlayItem(Some(selection[0]), device)]
    ensures |selection| > 1 && selection[0].mediaType == "movie" ==>
              SingleResult(w, commands, selection, speechMatch, device) == MovieDialog(w, selection, speechMatch, device)
    ensures |selection| > 1 && selection[0].mediaType != "movie" && selection[0].mediaType != "episode" ==>
              SingleResult(w, commands, selection, speechMatch, device) == []
  {
  }

  /** Several episodes, "random" said and neither "latest" nor "first": a random one
      of them is played, without a word. */
  lemma RandomEpisodePick(w: World, commands: seq<string>, selection: seq<MediaItem>, speechMatch: string, device: Player)
    requires |selection| >= 2 && selection[0].mediaType == "episode"
    requires "latest" !in commands && "first" !in commands && "random" in commands
    ensures SingleResult(w, commands, selection, speechMatch, device) == [PlayItem(RandomPick(selection, w.rand), device)]
  {
  }

  /** Several episodes, none of "latest", "first" or "random", none of them on deck
      or recently added: when the never-watched index names some of them, the one
      of those with the lowest compound index is played. */
  lemma NeverWatchedEpisodeNext(w: World, commands: seq<string>, selection: seq<MediaItem>, speechMatch: string,
                                device: Player, hits: seq<SearchHit>)
    requires |selection| >= 2 && selection[0].mediaType == "episode"
    requires "latest" !in commands && "first" !in commands && "random" !in commands
    requires forall x :: x in w.cache.onDeck ==> x.key !in Keys(selection)
    requires forall x :: x in w.cache.recent ==> x.key !in Keys(selection)
    requires w.search("neverwatched", speechMatch) == Some(hits)
    requires exists i, y :: 0 <= i < |hits| && y in selection && hits[i].ref == y.key
    ensures var neverWatched := IndexToMedia(HitRefs(hits), selection);
            && |neverWatched| > 0
            && SingleResult(w, commands, selection, speechMatch, device)
               == [PlayItem(Some(neverWatched[LowestAt(neverWatched)]), device)]
  {
    NoMatchingItems(selection, w.cache.onDeck);
    NoMatchingItems(selection, w.cache.recent);
    var index := HitRefs(hits);
    var i, y :| 0 <= i < |hits| && y in selection && hits[i].ref == y.key;
    assert Refs(index)[i] == Some(y.key);
    var neverWatched := IndexToMedia(index, selection);
    assert Rescored(y, index) in neverWatched;
    assert SingleResult(w, commands, selection, speechMatch, device)
        == EpisodeResolution(w, commands, selection, speechMatch, device);
    assert EpisodeResolution(w, commands, selection, speechMatch, device)
        == Remembered(w, selection, speechMatch, device);
    assert Remembered(w, selection, speechMatch, device) == NeverWatched(w, selection, speechMatch, device);
    assert NeverWatched(w, selection, speechMatch, device) == PlayLowest(neverWatched, device);
  }

  /** The same when the never-watched index names none of them: the open question
      about the episode is asked. */
  lemma EpisodeQuestionLast(w: World, commands: seq<string>, selection: seq<MediaItem>, speechMatch: string,
                            device: Player, hits: seq<SearchHit>)
    requires |selection| >= 2 && selection[0].mediaType == "episode"
    requires "latest" !in commands && "first" !in commands && "random" !in commands
    requires forall x :: x in w.cache.onDeck ==> x.key !in Keys(selection)
    requires forall x :: x in w.cache.recent ==> x.key !in Keys(selection)
    requires w.search("neverwatched", speechMatch) == Some(hits)
    requires forall i, y :: 0 <= i < |hits| && y in selection ==> hits[i].ref != y.key
    ensures SingleResult(w, commands, selection, speechMatch, device) == EpisodeDialog(w, selection, speechMatch, device)
  {
    NoMatchingItems(selection, w.cache.onDeck);
    NoMatchingItems(selection, w.cache.recent);
    var index := HitRefs(hits);
    forall y | y in selection
      ensures Some(y.key) !in Refs(index)
    {
      assert forall i :: 0 <= i < |Refs(index)| ==> Refs(index)[i] == Some(hits[i].ref) != Some(y.key);
    }
    NoIndexedItems(index, selection);
    assert SingleResult(w, commands, selection, speechMatch, device)
        == EpisodeResolution(w, commands, selection, speechMatch, device);
    assert EpisodeResolution(w, commands, selection, speechMatch, device)
        == Remembered(w, selection, speechMatch, device);
    assert Remembered(w, selection, speechMatch, device) == NeverWatched(w, selection, speechMatch, device);
  }

  /** A single longest candidate is played at once, whatever the type hints. */
  lemma SingleLongestPlays(w: World, results: SpeechResults, device: Player)
    requires |results.media| > 1 && |LongestMatches(results.media)| == 1
    ensures Several(w, results, device)
            == [PlayItem(LookupRef(w.cache.items, LongestMatches(results.media)[0].ref), device)]
  {
  }

  /** "watch random movie" with no candidate: a random movie of the whole cache is
      announced and played; nothing is named only when the cache holds no movie. */
  lemma RandomMovieFromCollection(w: World, results: SpeechResults, transcript: string, device: Player)
    requires |results.media| == 0 && "random" in results.commands && "movie" in results.types
    ensures exists pick ::
              && WatchNow(w, results, transcript, device)
                 == [Say("Playing random movie from your collection!"), PlayItem(pick, device)]
              && (pick.Some? ==> pick.value in w.cache.items && Lower(pick.value.mediaType) == "movie")
              && (pick.None? <==> forall x :: x in w.cache.items ==> !FieldMatches(x, MediaTypeField, "movie"))
  {
    var movies := FilterBy(MediaTypeField, "movie", w.cache.items);
    var pick := RandomPick(movies, w.rand);
    if pick.None? {
      forall x | x in w.cache.items
        ensures !FieldMatches(x, MediaTypeField, "movie")
      {
        assert x !in movies;
      }
    } else {
      assert pick.value in movies;
      assert movies[0] in movies;
    }
  }

  /** "watch the next / previous episode" with an episode playing first: the episode
      index is searched for the show's title and the compound index of the playing
      episode moved by `delta`, and the item of the first hit is played. */
  lemma SessionStepFirstHit(w: World, device: Player, delta: int, raw: RawItem, rest: seq<RawItem>, hits: seq<SearchHit>)
    requires w.sessions == Some([raw] + rest) && raw.mediaType == "episode"
    requires w.search("episode", CacheItem(raw, w.machineIdentifier).title + " "
                                 + IntToString(raw.parentIndex * 1000 + raw.index + delta)) == Some(hits)
    requires |hits| > 0
    ensures SessionStep(w, device, delta) == [PlayItem(Lookup(w.cache.items, hits[0].ref), device)]
  {
    CacheItemEpisodeFields(raw, w.machineIdentifier);
  }

  /** Sessions that arrive empty are answered with the apology for no session. */
  lemma NoSessionApology(w: World, device: Player, delta: int)
    requires w.sessions == Some([])
    ensures SessionStep(w, device, delta) == [Say(NoSessionText)]
  {
  }

  /** The commands in their order of precedence: pause, continue, stop, refresh,
      "what is playing", watch; the first said decides alone. */
  lemma DispatchPrecedence(w: World, results: SpeechResults, transcript: string, device: Player)
    ensures var c := results.commands;
            var r := Dispatch(w, results, transcript, device);
            && ("pause" in c ==> r == [Play("pause", None, device)])
            && ("pause" !in c && "continue" in c ==> r == [Play("play", None, device)])
            && ("pause" !in c && "continue" !in c && "stop" in c ==> r == [Play("stop", None, device)])
            && ("pause" !in c && "continue" !in c && "stop" !in c && "refresh" in c ==> r == [RefreshCache])
            && ("pause" !in c && "continue" !in c && "stop" !in c && "refresh" !in c && "currentlyplaying" in c ==>
                  r == CurrentlyPlaying(w, device))
            && ((&& "pause" !in c && "continue" !in c && "stop" !in c && "refresh" !in c
                 && "currentlyplaying" !in c && "watch" in c) ==> r == Watch(w, results, transcript, device))
  {
  }

  /** Without a hit for the previous episode the apology speaks of the next one. */
  lemma PreviousEpisodeApology(w: World, device: Player, raw: RawItem, rest: seq<RawItem>)
    requires w.sessions == Some([raw] + rest) && raw.mediaType == "episode"
    requires var m := CacheItem(raw, w.machineIdentifier);
             w.search("episode", m.title + " " + IntToString(m.compoundEpisodeIndex - 1)) == Some([])
    ensures SessionStep(w, device, -1)
            == [Say("Sorry, I couldn't find the next episode for " + CacheItem(raw, w.machineIdentifier).title)]
  {
  }
}
