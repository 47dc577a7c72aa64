# Plex for Homey: the voice resolution core in Dafny

This project models the part of the Plex app for the Homey home controller that
turns a voice request into one media item to play. It also models the Chromecast
driver that plays that item.

- **Media cache** (`Media.dfy`): `createMediaCacheItem` turns a library entry of the
  media server into a cache item. It splits the title on its colons, numbers
  episodes by `season * 1000 + episode` and builds the verbose search title. Beside
  it are the selection helpers the conversation uses: `filterMediaItemsBy`,
  `getMetaFromMedia`, `getMatchingItems`, `indexToMediaArray`, `keyToMediaItem`,
  `getLongestItemsInSpeechMedia`, `getLowestEpisode`, `getNewestEpisode` and
  `getBestResult`. Each helper is a loop method proved equal to a specification
  function, and the properties are proved about those functions.
- **Speech triggers** (`Triggers.dfy`):
  - `registerMediaTrigger` cleans an item's titles with first-occurrence
    replacements and records a speech trigger under the item's phrases. It is a
    class whose two lists the method extends.
  - The decoding of matched trigger ids into commands, types, media candidates and
    servers.
- **Servers** (`Servers.dfy`): `storeServers`, which keeps the owned servers in the
  settings, and `getServerTemplate`.
- **The conversation** (`Conversation.dfy`): `processConversation`,
  `getSingleResult` and `askQuestion`.
  - The conversation is a function from a `World` and the speech object to the
    trace of `Effect`s it causes: sentences said, questions asked, commands sent to
    a player, a cache refresh.
  - The `World` holds everything the app reads while it runs: the cache, the
    installed players, the active sessions, the search indexes (as a function from
    index name and query to hits), the spoken replies (as a function from question
    to reply) and the value of `Math.random()`.
  - A JavaScript error raised mid-way ends the trace where it happens, as it ends
    the app's flow.
- **Chromecast driver** (`Chromecast.dfy`): a class holding the installed players,
  the casts discovered on the network and the last session. Its methods are
  `init`, `addInstalledDevice`, `getInstalledPlayers`, `getLastSession`,
  `deleted`, the discovery handler and `process`. Beside the class are the
  `getDevice` lookup and `buildPlexUrl`.
- `Builtins.dfy` states the JavaScript primitives the app relies on:
  - `indexOf`;
  - `replace` with a string pattern, which replaces the first occurrence only;
  - `split` and `join`;
  - `trim` over JavaScript white space;
  - `toLowerCase`;
  - number-to-string conversion.
- `Wrappers.dfy` holds `Option`.

The main results:
- Every command of a conversation goes to the chosen device.
- Every item the conversation plays is an entry of the media cache (up to the
  search score written onto it).
- The episode resolution applies its rules in the app's order: "latest", "first",
  "random", on deck, recently added, never watched, and finally the question.
- The trigger id of an item decodes back to the item's type and key.
- `deleted` removes exactly the player with the id when ids are unique.

Some defects of the source are kept as written, and lemmas show what each does:
- After the answer "no" or "first" to the open episode question, the app announces
  the oldest episode but hands the player the unset `lowestNeverWatched`, so no
  item is named (app.js:1502). See `OldestAnswerNamesNothing`.
- A failed answer to the movie question, or one that no offered answer contains,
  ends silently. The apology names an
  undeclared variable (app.js:1373), so it raises a ReferenceError. See
  `RejectedMovieAnswerIsSilent`.
- An answer that finds no episode also ends silently. The apology is said through
  `Homey.manager['speech-output']`, which is undefined (app.js:1557). See
  `UnresolvedAnswerIsSilent`.
- The previous-episode branch apologises for the *next* episode (app.js:1120). See
  `PreviousEpisodeApology`.
- `deleted` splices the list while walking its indices, so without unique ids a
  player with the id directly after a removed one survives. See
  `DeleteSkipsNeighbour`.
- The title clean-up reads like a canonical form, but it is not idempotent: each
  rule replaces only the first occurrence, so a second pass can change a title
  again. The model follows the code. See `NormalizeNotIdempotent` and
  `RomanNumeralInsideWord`.

## Model

| member | source | states |
|---|---|---|
| Media.CreateMediaCacheItem | app.js:776-812 | building the template and reassigning its fields gives exactly the cache item `CacheItem` describes |
| Media.SplitTitle | app.js:797-803 | the colon handling yields the title parts `TitlePartsOf` describes |
| Media.SplitAtColon | app.js:797-799 | when the title has a colon, `split(':')` has at least two pieces: the text before the first colon and the text from there up to the next colon |
| Media.CacheItemTitles | app.js:797-803 | if the first colon is past index 1: the primary and secondary titles are the trimmed first and second colon pieces, neither holding a colon, and the first ": " becomes " " (no ": " leaves the title unchanged); otherwise the primary title is the title and there is no secondary title |
| Media.CacheItemEpisodeFields | app.js:778-809 | an episode gets compound index season*1000+episode, "season N" / "episode M" fields, its own title as episode title and the verbose title "title season episode"; any other entry keeps index 0, no verbose title and empty episode fields |
| Media.CompoundIndexOrder | app.js:807 | while episode numbers stay below 1000, comparing compound indexes is comparing by season, then by episode |
| Media.FilterBy | app.js:1759-1774 | exactly the items whose field is set and equals the value ignoring case, never more than the input; nothing for an empty value (their order: `FilterByAppend`) |
| Media.FilterByAppend | app.js:1759-1774 | filtering a concatenation filters each part and joins the results, so the items kept keep their order |
| Media.FilterMediaItemsBy | app.js:1759-1774 | the loop computes `FilterBy` |
| Media.MetaOf | app.js:1576-1588 | every non-empty field value appears lower-cased, and nothing else does |
| Media.GetMetaFromMedia | app.js:1576-1588 | the loop computes `MetaOf` |
| Media.MatchingItems | app.js:1590-1608 | exactly the items of `media` whose key is a key of the selection; nothing outside `media` (their order: `MatchingItemsAppend`) |
| Media.MatchingItemsAppend | app.js:1590-1608 | matching against a concatenation matches each part and joins the results, so the matches keep `media`'s order |
| Media.KeysMembership | app.js:1595-1601 | a key is among the collected keys iff some selected item carries it |
| Media.NoMatchingItems | app.js:1599-1604 | when no item of `media` carries a selected key, there are no matches |
| Media.GetMatchingItems | app.js:1590-1608 | the two loops compute `MatchingItems` |
| Media.IndexToMedia | app.js:1654-1671 | every item returned is a selected item, up to its score, that some index entry names; every such selected item is returned with the score of the first entry naming it |
| Media.NoIndexedItems | app.js:1654-1671 | when the index names no item of the selection, nothing is kept |
| Media.IndexToMediaArray | app.js:1654-1671 | the two loops compute `IndexToMedia` |
| Media.Lookup | app.js:1673-1681 | none iff no item has the key; otherwise a cached item with that key |
| Media.LookupFirst | app.js:1675-1679 | the item found is the first with that key |
| Media.KeyToMediaItem | app.js:1673-1681 | the loop computes `Lookup`; a missing key gives `undefined` |
| Media.MaxMatchLength | app.js:1692-1702 | the longest recognised text among the candidates, attained by one of them |
| Media.WithMatchLength | app.js:1692-1702 | exactly the candidates whose text has the given length (their order: `WithMatchLengthAppend`) |
| Media.WithMatchLengthNone | app.js:1692-1702 | when no candidate is as long as the length asked for, none is selected |
| Media.WithMatchLengthAppend | app.js:1692-1702 | selecting from a concatenation selects from each part and joins the results, so the candidates kept keep their order |
| Media.LongestMatches | app.js:1683-1705 | fewer than two candidates are kept as given; otherwise exactly those with the longest text, in their order (the length selection at the maximum), never none |
| Media.LongestStep | app.js:1694-1700 | one step of the running maximum: a longer text restarts the list, an equal one joins it, a shorter one changes nothing |
| Media.GetLongestItemsInSpeechMedia | app.js:1683-1705 | the loop computes `LongestMatches` |
| Media.LowestAt | app.js:1722-1738 | a position of the lowest compound index, the earliest of equal ones |
| Media.NewestAt | app.js:1740-1757 | a position of the highest compound index, the earliest of equal ones |
| Media.BestAt | app.js:1707-1720 | a position of the highest score, the earliest of equal ones |
| Media.GetLowestEpisode | app.js:1722-1738 | `undefined` for no episodes; otherwise the episode at `LowestAt` |
| Media.GetNewestEpisode | app.js:1740-1757 | `undefined` for no episodes; otherwise the episode at `NewestAt` |
| Media.GetBestResult | app.js:1707-1720 | `null` for no hits; otherwise the hit at `BestAt` |
| Triggers.PhraseList | app.js:719-744 | the pushes build the phrase list `PhrasesOf` describes |
| Triggers.TriggerRegistry.constructor | app.js:17-19 | the registry starts with no triggers and no ids |
| Triggers.TriggerRegistry.RegisterMediaTrigger | app.js:684-757 | the item comes back cleaned; one trigger with importance 0.7 is recorded under its id and the cleaned phrases, and the id is recorded |
| Triggers.PlainTitleUnchanged | app.js:699-705 | a title with none of the patterns is left as it is |
| Triggers.ParenthesesOnly | app.js:699-705 | a title with no '&', 'I' or en dash only loses its first '(' and first ')' |
| Triggers.NormalizeNotIdempotent | app.js:699-705 | "((a))" is cleaned to "(a)" and a second pass changes it again, to "a" |
| Triggers.RomanNumeralInsideWord | app.js:702 | the "III" inside "VIII" becomes "3" |
| Triggers.PlainMovieTriggers | app.js:719-744 | a movie with a plain title, no colon and no sort title is registered under its title alone |
| Triggers.TitleIsPhrase | app.js:719-744 | the cleaned title is always a phrase, and an episode's first phrase is its verbose form |
| Triggers.Decode | app.js:915-940 | no more results than triggers |
| Triggers.DecodeTriggers | app.js:915-940 | the trigger loop computes `Decode` |
| Triggers.DecodeTrigger | app.js:917-938 | one trigger's id is routed as `DecodeOne` says |
| Triggers.DecodeAppend | app.js:915-940 | decoding a concatenation concatenates the results of each kind, so trigger order is kept |
| Triggers.DecodeOneConcat | app.js:919-938 | one trigger's contribution lands after everything before it |
| Triggers.CommandIdRoundTrip | app.js:917-922 | an id "command|name" decodes to exactly that command when the name holds no '|' |
| Triggers.MediaIdRoundTrip | app.js:917-934 | an item's trigger id "media|type|key" decodes back to one candidate with the item's type, its key and the recognised text, when neither holds a '|' |
| Servers.OwnedServers | app.js:261-277 | exactly the servers with `owned == "1"`, never more than given |
| Servers.OwnedServersIdempotent | app.js:266-272 | keeping the owned servers twice is keeping them once |
| Servers.OwnedServersAppend | app.js:266-272 | the owned servers of a concatenation are those of each part |
| Servers.Settings.StoreServers | app.js:261-277 | the settings hold the owned servers, in order |
| Servers.GetServerTemplate | app.js:427-440 | the account fields under the app's names; the local address is the part of the comma-separated list before its first comma |
| Chromecast.AddIfAbsentProperties | drivers/chromecast/driver.js:50-64 | adding keeps ids unique, installs the id, drops no player and adds at most one |
| Chromecast.AddIfAbsentIdempotent | drivers/chromecast/driver.js:50-64 | adding the same device twice is adding it once |
| Chromecast.RemoveId | drivers/chromecast/driver.js:105-121 | exactly the players without the id (their order: `RemoveIdAppend`) |
| Chromecast.RemoveIdAppend | drivers/chromecast/driver.js:105-121 | removing from a concatenation removes from each part and joins the results, so the players kept keep their order |
| Chromecast.DeleteSkippingAt | drivers/chromecast/driver.js:108-119 | one visit of the walk: a match is spliced out and its successor is not inspected |
| Chromecast.DeleteSkippingUnique | drivers/chromecast/driver.js:108-119 | with unique ids, deleting removes exactly the player with the id and keeps the others in order |
| Chromecast.NoIdRemoveNothing | drivers/chromecast/driver.js:108-119 | a list without the id is unchanged by removal |
| Chromecast.NoIdDeleteNothing | drivers/chromecast/driver.js:108-119 | a list without the id is unchanged by the walk |
| Chromecast.DeleteSkipsNeighbour | drivers/chromecast/driver.js:108-119 | two adjacent players with the id: the second survives |
| Chromecast.Named | drivers/chromecast/driver.js:166-168 | exactly the casts configured under the name |
| Chromecast.FindDevice | drivers/chromecast/driver.js:165-174 | a cast with that name when there is one; otherwise the error "Sorry, I couldn't find Chromecast device " + name |
| Chromecast.FindDeviceFirst | drivers/chromecast/driver.js:165-174 | the cast found is the first with that name |
| Chromecast.BuildPlexUrl | drivers/chromecast/driver.js:129-143 | the address starts with the transcoder prefix and the encoded item path, and ends with "&X-Plex-Token=" and the token |
| Chromecast.VisitIndex | drivers/chromecast/driver.js:108-119 | one iteration of the `for…in`: the walk state is kept and the player at the index is spliced out when it has the id |
| Chromecast.Driver.Init | drivers/chromecast/driver.js:11-26 | the installed players are those handed over; no cast and no session yet |
| Chromecast.Driver.AddInstalledDevice | drivers/chromecast/driver.js:50-64 | the players become `AddIfAbsent` of the old ones; nothing else changes |
| Chromecast.Driver.GetInstalledPlayers | drivers/chromecast/driver.js:66-68 | the installed players |
| Chromecast.Driver.GetLastSession | drivers/chromecast/driver.js:101-103 | the last session |
| Chromecast.Driver.Deleted | drivers/chromecast/driver.js:105-121 | the players become `DeleteSkipping` of the old ones; nothing else changes |
| Chromecast.Driver.DeviceOn | drivers/chromecast/driver.js:145-163 | the first cast after a rediscovery replaces the list, and every later one is appended |
| Chromecast.Driver.Process | drivers/chromecast/driver.js:70-99 | no cast with the name: its error is said and nothing else happens; otherwise the item's stream is loaded for "playItem" with an item, and "stop" and "pause" stop or pause; only a confirmed load sets the last session and says "Enjoy watching" with the title |
| Conversation.RandomPick | app.js:1140 | `undefined` iff the list is empty; otherwise an element of it |
| Conversation.RandomPickReaches | app.js:1414 | every element is picked by some random value |
| Conversation.FirstContaining | app.js:1630-1641 | none iff no allowed answer contains the reply; otherwise an allowed answer containing it |
| Conversation.FirstContainingFirst | app.js:1630-1638 | the answer chosen is the first allowed answer containing the reply |
| Conversation.EmptyReplyPicksFirst | app.js:1636 | an empty reply is contained in every answer, so it picks the first |
| Conversation.MatchAllowed | app.js:1630-1641 | the loop computes `FirstContaining` |
| Conversation.AskQuestion | app.js:1610-1652 | an input error rejects with it; the reply is trimmed and lower-cased; without allowed answers it is accepted; with them, an accepted answer is allowed and contains the reply, and the reply is rejected iff no allowed answer contains it |
| Conversation.PlayLowest | app.js:1425-1437 | no match plays nothing; one or more play the one with the lowest compound index |
| Conversation.Chosen | app.js:1358-1364 | the movie named is selected; a title match wins; without one, a secondary-title match is chosen if there is one |
| Conversation.MovieDialog | app.js:1334-1372 | the question is asked first, then at most one movie of the selection is played, on the device (which one: `MovieAnswer`, `MovieTitleAnswerPlays`, `RejectedMovieAnswerIsSilent`) |
| Conversation.MovieAnswer | app.js:1356-1372 | an accepted answer plays exactly the movie `Chosen` names for it (a title match, else a secondary-title match, else no item); a rejection plays and says nothing |
| Conversation.BestEpisodeHit | app.js:1535-1552 | an item exactly when the episode search answers with hits and the cache holds the key of the best-scoring hit (the earliest of equal ones); then it is that cached item |
| Conversation.DialogAnswer | app.js:1492-1558 | a reply with "no" or "first" announces the oldest episode and hands over no item; else "newest" or "latest" announces and plays the newest episode of the selection; else "random" or "any" announces and plays a random one; otherwise the cached item of the best search hit for the matched text and the reply plays, or nothing happens; every item played is from the selection or the cache, on the device |
| Conversation.EpisodeDialog | app.js:1490-1564 | the open question comes first; every item played is from the selection or the cache |
| Conversation.NeverWatched | app.js:1467-1486 | every item played is from the selection or the cache, on the device (which one: `NeverWatchedEpisodeNext`, `EpisodeQuestionLast`) |
| Conversation.Remembered | app.js:1419-1456 | every item played is from the selection or the cache, on the device (the order on deck, recently added, never watched: `OnDeckEpisodeNext`, `RecentEpisodeNext`, `NeverWatchedEpisodeNext`) |
| Conversation.EpisodeResolution | app.js:1378-1566 | every item played is from the selection or the cache, on the device (the steps: `LatestEpisodeWins`, `FirstEpisodeNext`, `RandomEpisodePick`, `OnDeckEpisodeNext`, `RecentEpisodeNext`, `NeverWatchedEpisodeNext`, `EpisodeQuestionLast`) |
| Conversation.SingleResult | app.js:1306-1574 | no selection plays nothing; every item played is from the selection or the cache, on the device (each step is stated by a lemma below) |
| Conversation.LookupRef | app.js:1147-1148 | an item found is a cached item with the candidate's key |
| Conversation.AskType | app.js:1228-1253 | the type question comes first; every item played is a candidate or cached |
| Conversation.TypeAnswer | app.js:1231-1253 | every item played after the answer is a candidate or cached, on the device |
| Conversation.Narrow | app.js:1221-1270 | every item played is a candidate or cached, on the device |
| Conversation.SelectionDrawn | app.js:1177-1183 | the candidates taken from the cache are entries of the cache |
| Conversation.Several | app.js:1159-1273 | every item played for several candidates is a cache entry, on the device (the steps: `SingleLongestPlays`, `SeveralNarrows`, `Hinted`) |
| Conversation.Hinted | app.js:1189-1215 | a "movie" hint with one movie left plays it, an "episode" hint with one episode left plays it; otherwise "random" with a hint plays a random item of that kind; without "random" or a deciding hint the narrowing goes on; every item played is a candidate or cached, on the device |
| Conversation.WatchNow | app.js:1131-1290 | every item played is a cache entry, on the device (the branches: `RandomMovieFromCollection`, `WatchOneCandidate`, `Several`, `UnknownRequest`) |
| Conversation.SessionStep | app.js:1043-1080 | at most one effect; any item played is a cached item, on the device (the query and the play: `SessionStepFirstHit`, `NoSessionApology`, `PreviousEpisodeApology`) |
| Conversation.Watch | app.js:1035-1293 | every item played is a cache entry, on the device |
| Conversation.CurrentlyPlaying | app.js:975-1028 | at most one sentence, starting "You are watching "; on a Chromecast it describes the last session and is said exactly when that has a title; on a Plex Home Theater player it describes the first active session and is said exactly when there is one; other players hear nothing |
| Conversation.Dispatch | app.js:955-1030 | every item played is a cache entry, on the device (the order of the commands: `DispatchPrecedence`) |
| Conversation.ProcessConversation | app.js:861-1304 | the three set-up messages; everything goes to the first named device, else the first installed player; every item played is a cache entry; no command means no effect |
| Conversation.LatestEpisodeWins | app.js:1384-1396 | "latest" announces and plays the episode with the highest compound index, the earliest of equal ones |
| Conversation.FirstEpisodeNext | app.js:1399-1411 | "first" without "latest" announces and plays the episode with the lowest compound index |
| Conversation.PlayLowestMatch | app.js:1425-1437 | the play is of a match of the selection, with a lowest compound index among the matches |
| Conversation.OnDeckEpisodeNext | app.js:1419-1437 | with no keyword and an episode on deck, the lowest on-deck match is played |
| Conversation.RecentEpisodeNext | app.js:1440-1455 | with nothing on deck, the lowest recently added match is played |
| Conversation.OneOnDeckEpisodePlays | app.js:1425-1428 | of two episodes with one on deck, that one is played |
| Conversation.SeveralNarrows | app.js:1177-1184 | several longest candidates go on with the episodes and movies they name |
| Conversation.SeriesAnswer | app.js:1231 | the reply "series" is matched only by the answer "series" |
| Conversation.MixedKindsAskForType | app.js:1221-1245 | with both kinds and no type said the type is asked for, and "series" goes on with the episodes |
| Conversation.WatchOneCandidate | app.js:1147-1157 | a single candidate whose key is unique in the cache is played at once, and nothing else happens |
| Conversation.WatchOnly | app.js:1035-1040 | with "watch" the only command, nothing waits for the sessions |
| Conversation.UnknownRequest | app.js:1278-1290 | "watch" with neither candidate nor type says the apology with the rest of the transcript, trimmed |
| Conversation.TypeAnswerOffered | app.js:1231-1236 | the type answer is always "movie" or "series", so the "abort" test never holds |
| Conversation.OldestAnswerNamesNothing | app.js:1494-1502 | after "first" the oldest episode is announced but no item is handed over |
| Conversation.UnresolvedAnswerIsSilent | app.js:1535-1557 | an answer with no search hit ends after the question, without a word |
| Conversation.RejectedMovieAnswerIsSilent | app.js:1356-1373 | a failed answer to the movie question, or a reply that no offered answer contains, ends after the question without a word |
| Conversation.MovieTitleAnswerPlays | app.js:1356-1367 | a reply accepted as a movie's lower-cased title plays a movie of the selection with that title, ignoring case |
| Conversation.SingleResultShortcuts | app.js:1320-1334 | one item is played at once; several movies go to the movie question; several items of another type than movie or episode are left alone |
| Conversation.RandomEpisodePick | app.js:1413-1416 | several episodes with "random" and neither "latest" nor "first": a random one of them plays, without a word |
| Conversation.NeverWatchedEpisodeNext | app.js:1458-1486 | several episodes, no keyword, none on deck or recently added, and the never-watched index names some: the lowest of those plays |
| Conversation.EpisodeQuestionLast | app.js:1467-1490 | the same with no never-watched hit among them: the open question about the episode is asked |
| Conversation.SingleLongestPlays | app.js:1163-1171 | several candidates with one longest match: the cached item with its key plays, whatever the hints |
| Conversation.RandomMovieFromCollection | app.js:1131-1141 | "random" and "movie" with no candidate: the announcement, then a random cached movie; no item exactly when the cache holds no movie |
| Conversation.SessionStepFirstHit | app.js:1043-1080 | with an episode playing, the episode index is searched for its show's title and its compound index moved by the step, and the cached item of the first hit plays |
| Conversation.NoSessionApology | app.js:1048-1052 | no active session: the apology for no session |
| Conversation.DispatchPrecedence | app.js:955-1035 | pause, continue, stop, refresh, "what is playing", watch: the first of these said decides alone |
| Conversation.PreviousEpisodeApology | app.js:1112-1120 | no hit for the previous episode apologises for the next one |

## Left out

- The full-text indexes (lunr) are not modelled. Their construction and scoring are
  a library; the world's `search` function gives the hits, and `None` stands for an
  index that was never built.
- `Math.random()` is one value of the world, drawn once per conversation.
- Homey's speech input and output, flow triggers (`media_start`, `media_stop`,
  `chromecastStatusChanged`), settings storage and the driver registry are not
  modelled. What is said or asked appears in the effect trace instead.
- The media server's API, the PIN and token authentication, `getSessions` and
  `getMedia` are not modelled. The active sessions are a value of the world.
- Promise plumbing and the order of asynchronous replies are not modelled. The
  session replies of "watch next/previous episode" and of "what is playing" on a
  Plex Home Theater player are placed after everything handled at once.
- The cache is not filled: `cacheMediaByType`, `updateMediaCache`,
  `refreshMediaServer`, `autoUpdate`, the `updating` flag, timers,
  `unRegisterMediaTriggers` and the clearing of the trigger lists are not modelled.
- Zones and the speech-driven choice of server are not modelled; the app reads
  zones but never uses them, and server choice is disabled in the source.
- Triggers.TriggerRegistry.RegisterMediaTrigger: the app cleans the cache item in
  place; the model returns the cleaned item instead, so sharing with other
  references to that item is not captured.
- Media.IndexToMediaArray: the app writes the score onto the shared cache object;
  the returned items carry the score, but cached copies are not updated.
- Chromecast.Driver.Process: the cast's actions are returned as values, and
  `encodeURIComponent` is a parameter. Whether the cast confirms a load is a
  parameter. The reply the error callback reaches is the only message modelled.
- Chromecast.Driver.DeviceOn: the browser, the ten-minute rediscovery timer and
  the status listener are not modelled; the method takes the reset flag and
  returns its new value.
- The pairing socket (`list_devices`, `add_device`) is not modelled; `add_device`
  only calls `addInstalledDevice`.
- Media.CacheItemEpisodeFields: `index` and `parentIndex` are naturals, so the
  `parseInt` of a malformed number (NaN) is not modelled.
- `toLowerCase` is modelled for ASCII letters only.
- Media.MaxMatchLength, Media.WithMatchLength, Media.LongestMatches: a JavaScript
  string's `length` counts UTF-16 code units, and the model counts characters
  (Unicode scalar values). A recognised text outside the Basic Multilingual Plane
  (such as "𝔸") counts once here and twice in the app, so the longest match can
  differ for such texts.
- Media.TitlePartsOf, Media.CacheItemTitles: the "colon past index 1" test uses
  `indexOf`, which counts UTF-16 code units; the model counts characters, so a
  title such as "𝔸:b" is split in the app but not here.
- Media.CompoundIndexOrder: holds only for episode numbers below 1000, where the
  compound index does not collide.
