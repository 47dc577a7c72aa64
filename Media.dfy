/** The media cache of app.js: how a library entry becomes a cache item
    (`createMediaCacheItem`) and the helpers that narrow a list of items.
    Each helper is written, as in the app, as a loop over an accumulator and is
    proved equal to a specification function; the contracts and lemmas of those
    functions state what the helpers promise. */
module Media {
  import opened Wrappers
  import opened Builtins

  /** A library entry as the media server returns it, reduced to the fields the
      cache reads. `file` and `container` are those of the entry's first media part;
      `titleSort` and `viewOffset` are "" when the server sends none; `index` and
      `parentIndex` (episode and season numbers) are taken as parsed naturals. */
  datatype RawItem = RawItem(
    mediaType: string, title: string, grandparentTitle: string, key: string,
    file: string, container: string, index: nat, parentIndex: nat,
    titleSort: string, viewOffset: string)

  /** A cache item (the app's `cacheTemplate`). `None` stands for the template's
      `false` / `null`; `score` is the last search relevance written onto the item. */
  datatype MediaItem = MediaItem(
    machineIdentifier: string, mediaType: string, title: string, key: string,
    file: string, container: string, episodeTitle: string, episodeIndex: string,
    season: string, primaryTitle: Option<string>, secondaryTitle: Option<string>,
    titleSort: Option<string>, score: real, compoundEpisodeIndex: int,
    viewOffset: Option<string>, verboseSearchTitle: Option<string>)

  /** A hit of a full-text index: the key of the item it found and its relevance. */
  datatype SearchHit = SearchHit(ref: string, score: real)

  /** A media candidate of a voice query: the recognised text and the type and key
      carried by its trigger id (`ref` is missing when the id has no third part). */
  datatype SpeechMedia = SpeechMedia(matchText: string, mediaType: string, ref: Option<string>)

  // ---------------------------------------------------------------------------
  // createMediaCacheItem

  /** The title an entry is cached under: its own for a movie, its show's otherwise. */
  function BaseTitle(raw: RawItem): string
  {
    if raw.mediaType == "movie" then raw.title else raw.grandparentTitle
  }

  /** The title part of a cache item, stated positionally: when the first colon of
      title `t` sits past index 1, the primary title is the trimmed text before it,
      the secondary title the trimmed text from there up to the next colon, and the
      first ": " of the title becomes " "; otherwise the title is its own primary
      title and there is no secondary title. */
  datatype TitleParts = TitleParts(title: string, primaryTitle: Option<string>, secondaryTitle: Option<string>)

  function TitlePartsOf(t: string): TitleParts
  {
    var c := IndexOf(t, ":");
    if c > 1 then TitleParts(ReplaceFirst(t, ": ", " "), Some(Trim(t[..c])), Some(Trim(UpTo(t[c + 1..], ':'))))
    else TitleParts(t, Some(t), None)
  }

  /** The cache item built from `raw`. */
  function CacheItem(raw: RawItem, machineIdentifier: string): MediaItem
  {
    var isEpisode := raw.mediaType == "episode";
    var season := if isEpisode then "season " + NatToString(raw.parentIndex) else "";
    var episodeIndex := if isEpisode then "episode " + NatToString(raw.index) else "";
    var parts := TitlePartsOf(BaseTitle(raw));
    MediaItem(
      machineIdentifier := machineIdentifier,
      mediaType := raw.mediaType,
      title := parts.title,
      key := raw.key,
      file := raw.file,
      container := raw.container,
      episodeTitle := if isEpisode then raw.title else "",
      episodeIndex := episodeIndex,
      season := season,
      primaryTitle := parts.primaryTitle,
      secondaryTitle := parts.secondaryTitle,
      titleSort := if raw.titleSort != "" then Some(raw.titleSort) else None,
      score := 0.0,
      compoundEpisodeIndex := if isEpisode then raw.parentIndex * 1000 + raw.index else 0,
      viewOffset := if raw.viewOffset != "" then Some(raw.viewOffset) else None,
      verboseSearchTitle := if isEpisode then Some(parts.title + " " + season + " " + episodeIndex) else None)
  }

  /** The colon handling of `createMediaCacheItem`: splits the title on ':' and
      replaces its first ": ". */
  method SplitTitle(t: string) returns (parts: TitleParts)
    ensures parts == TitlePartsOf(t)
  {
    parts := TitleParts(t, None, None);
    if IndexOf(t, ":") > 1 {
      SplitAtColon(t);
      var pieces := Split(t, ':');
      parts := parts.(primaryTitle := Some(Trim(pieces[0])), secondaryTitle := Some(Trim(pieces[1])));
      parts := parts.(title := ReplaceFirst(t, ": ", " "));
    } else {
      parts := parts.(primaryTitle := Some(t));
    }
  }

  /** `createMediaCacheItem`: fills the template, then splits the title on its
      colons and completes the episode fields, reassigning the template's fields. */
  method CreateMediaCacheItem(raw: RawItem, machineIdentifier: string) returns (m: MediaItem)
    ensures m == CacheItem(raw, machineIdentifier)
  {
    var isEpisode := raw.mediaType == "episode";
    m := MediaItem(
      machineIdentifier := machineIdentifier,
      mediaType := raw.mediaType,
      title := if raw.mediaType == "movie" then raw.title else raw.grandparentTitle,
      key := raw.key,
      file := raw.file,
      container := raw.container,
      episodeTitle := if isEpisode then raw.title else "",
      episodeIndex := if isEpisode then "episode " + NatToString(raw.index) else "",
      season := if isEpisode then "season " + NatToString(raw.parentIndex) else "",
      primaryTitle := None,
      secondaryTitle := None,
      titleSort := if raw.titleSort != "" then Some(raw.titleSort) else None,
      score := 0.0,
      compoundEpisodeIndex := 0,
      viewOffset := if raw.viewOffset != "" then Some(raw.viewOffset) else None,
      verboseSearchTitle := None);
    var parts := SplitTitle(m.title);
    m := m.(title := parts.title, primaryTitle := parts.primaryTitle, secondaryTitle := parts.secondaryTitle);
    if isEpisode {
      m := m.(compoundEpisodeIndex := raw.parentIndex * 1000 + raw.index);
      m := m.(verboseSearchTitle := Some(m.title + " " + m.season + " " + m.episodeIndex));
    }
  }

  /** The first two pieces of a title split on ':' are the text before its first
      colon and the text from there up to the next colon. */
  lemma SplitAtColon(t: string)
    requires IndexOf(t, ":") >= 0
    ensures ':' in t
    ensures var c := IndexOf(t, ":");
            var parts := Split(t, ':');
            |parts| >= 2 && parts[0] == t[..c] && parts[1] == UpTo(t[c + 1..], ':')
  {
    CharIndexOf(t, ':');
    SplitParts(t, ':');
  }

  /** What the cache item's titles are: when the title has a colon past index 1, the
      primary and secondary titles are the trimmed pieces before the first colon and
      between the first and second colon, neither holding a colon, and the cached
      title is the original with its first ": " turned into " " (unchanged when it
      has no ": "); otherwise the primary title is the title and there is no
      secondary title. */
  lemma CacheItemTitles(raw: RawItem, machineIdentifier: string)
    ensures var m := CacheItem(raw, machineIdentifier);
            var t := BaseTitle(raw);
            var c := IndexOf(t, ":");
            if c > 1 then
              && ':' in t && c == FirstChar(t, ':')
              && m.primaryTitle.Some? && m.primaryTitle.value == Trim(t[..c])
              && ':' !in m.primaryTitle.value
              && m.secondaryTitle.Some? && ':' !in m.secondaryTitle.value
              && m.secondaryTitle.value == Trim(Split(t, ':')[1])
              && (forall i: nat :: OccursAt(t, ": ", i) && (forall j: nat :: j < i ==> !OccursAt(t, ": ", j))
                    ==> m.title == t[..i] + " " + t[i + 2..])
              && ((forall i: nat :: !OccursAt(t, ": ", i)) ==> m.title == t)
            else
              m.primaryTitle == Some(t) && m.secondaryTitle == None && m.title == t
  {
    var m := CacheItem(raw, machineIdentifier);
    var t := BaseTitle(raw);
    var c := IndexOf(t, ":");
    if c > 1 {
      CharIndexOf(t, ':');
      var p := Trim(t[..c]);
      assert ':' !in t[..c];
      NoCharInTrim(t[..c], ':');
      var rest := UpTo(t[c + 1..], ':');
      assert ':' !in rest by {
        if ':' in t[c + 1..] {
          var k := FirstChar(t[c + 1..], ':');
          assert rest == t[c + 1..][..k];
        }
      }
      NoCharInTrim(rest, ':');
      forall i: nat | OccursAt(t, ": ", i) && (forall j: nat :: j < i ==> !OccursAt(t, ": ", j))
        ensures m.title == t[..i] + " " + t[i + 2..]
      {
        ReplaceFirstAt(t, ": ", " ", i);
      }
    }
  }

  /** Trimming never introduces a character. */
  lemma NoCharInTrim(s: string, c: char)
    requires c !in s
    ensures c !in Trim(s)
  {
    var r := Trim(s);
    var i, j :| 0 <= i <= j <= |s| && r == s[i..j];
    forall k | 0 <= k < |r|
      ensures r[k] != c
    {
      assert r[k] == s[i + k];
    }
  }

  /** The episode fields: an episode gets `compoundEpisodeIndex = season * 1000 +
      episode` and the verbose search title "title season N episode M"; any other
      entry keeps `compoundEpisodeIndex` 0, no verbose search title and empty episode
      fields. */
  lemma CacheItemEpisodeFields(raw: RawItem, machineIdentifier: string)
    ensures var m := CacheItem(raw, machineIdentifier);
            if raw.mediaType == "episode" then
              && m.compoundEpisodeIndex == raw.parentIndex * 1000 + raw.index
              && m.season == "season " + NatToString(raw.parentIndex)
              && m.episodeIndex == "episode " + NatToString(raw.index)
              && m.episodeTitle == raw.title
              && m.verboseSearchTitle == Some(m.title + " " + m.season + " " + m.episodeIndex)
            else
              && m.compoundEpisodeIndex == 0 && m.verboseSearchTitle == None
              && m.season == "" && m.episodeIndex == "" && m.episodeTitle == ""
  {
  }

  /** While episode numbers stay below 1000, ordering episodes by their compound
      index is ordering them by season, then by episode. */
  lemma {:induction false} CompoundIndexOrder(a: RawItem, b: RawItem, machineIdentifier: string)
    requires a.mediaType == "episode" && b.mediaType == "episode"
    requires a.index < 1000 && b.index < 1000
    ensures var x := CacheItem(a, machineIdentifier).compoundEpisodeIndex;
            var y := CacheItem(b, machineIdentifier).compoundEpisodeIndex;
            x < y <==> a.parentIndex < b.parentIndex || (a.parentIndex == b.parentIndex && a.index < b.index)
  {
    var x := a.parentIndex * 1000 + a.index;
    var y := b.parentIndex * 1000 + b.index;
    if a.parentIndex < b.parentIndex {
      assert a.parentIndex * 1000 + 1000 <= b.parentIndex * 1000;
    } else if a.parentIndex > b.parentIndex {
      assert b.parentIndex * 1000 + 1000 <= a.parentIndex * 1000;
    }
  }

  // ---------------------------------------------------------------------------
  // Field look-ups: getMetaFromMedia, filterMediaItemsBy

  /** The fields the helpers read by name (`item[key]`). */
  datatype Field = Title | SecondaryTitle | MediaTypeField

  /** `item[key]`, with "" for a `false` field (both are falsy in the app). */
  function FieldOf(m: MediaItem, f: Field): string
  {
    match f
    case Title => m.title
    case SecondaryTitle => if m.secondaryTitle.Some? then m.secondaryTitle.value else ""
    case MediaTypeField => m.mediaType
  }

  /** `item[key] && value` hold and the two are equal ignoring case. */
  predicate FieldMatches(m: MediaItem, f: Field, value: string)
  {
    FieldOf(m, f) != "" && value != "" && Lower(FieldOf(m, f)) == Lower(value)
  }

  /** The items of `s`, in order, whose field `f` equals `value` ignoring case. */
  function FilterBy(f: Field, value: string, s: seq<MediaItem>): (r: seq<MediaItem>)
    ensures |r| <= |s|
    ensures forall x :: x in r <==> x in s && FieldMatches(x, f, value)
    ensures value == "" ==> r == []
  {
    if |s| == 0 then []
    else
      var last := s[|s| - 1];
      assert s == s[..|s| - 1] + [last];
      FilterBy(f, value, s[..|s| - 1]) + (if FieldMatches(last, f, value) then [last] else [])
  }

  /** Filtering a concatenation filters each part: the items kept stay in their order. */
  lemma {:induction false} FilterByAppend(f: Field, value: string, a: seq<MediaItem>, b: seq<MediaItem>)
    ensures FilterBy(f, value, a + b) == FilterBy(f, value, a) + FilterBy(f, value, b)
    decreases |b|
  {
    if |b| == 0 {
      assert a + b == a;
    } else {
      assert (a + b)[..|a + b| - 1] == a + b[..|b| - 1];
      FilterByAppend(f, value, a, b[..|b| - 1]);
    }
  }

  /** `filterMediaItemsBy(key, value, selection)`. */
  method FilterMediaItemsBy(f: Field, value: string, selection: seq<MediaItem>) returns (result: seq<MediaItem>)
    ensures result == FilterBy(f, value, selection)
  {
    result := [];
    for i := 0 to |selection|
      invariant result == FilterBy(f, value, selection[..i])
    {
      var item := selection[i];
      assert selection[..i + 1][..i] == selection[..i];
      if FieldOf(item, f) != "" && value != "" {
        if Lower(FieldOf(item, f)) == Lower(value) {
          result := result + [item];
        }
      }
    }
    assert selection[..|selection|] == selection;
  }

  /** The lower-cased non-empty values of field `f`, in order (getMetaFromMedia). */
  function MetaOf(f: Field, s: seq<MediaItem>): (r: seq<string>)
    ensures |r| <= |s|
    ensures forall v :: v in r ==> exists x :: x in s && FieldOf(x, f) != "" && v == Lower(FieldOf(x, f))
    ensures forall x :: x in s && FieldOf(x, f) != "" ==> Lower(FieldOf(x, f)) in r
  {
    if |s| == 0 then []
    else
      var last := s[|s| - 1];
      assert s == s[..|s| - 1] + [last];
      MetaOf(f, s[..|s| - 1]) + (if FieldOf(last, f) != "" then [Lower(FieldOf(last, f))] else [])
  }

  /** `getMetaFromMedia(key, selection)`. */
  method GetMetaFromMedia(f: Field, selection: seq<MediaItem>) returns (meta: seq<string>)
    ensures meta == MetaOf(f, selection)
  {
    meta := [];
    for i := 0 to |selection|
      invariant meta == MetaOf(f, selection[..i])
    {
      var item := selection[i];
      assert selection[..i + 1][..i] == selection[..i];
      if FieldOf(item, f) != "" {
        meta := meta + [Lower(FieldOf(item, f))];
      }
    }
    assert selection[..|selection|] == selection;
  }

  // ---------------------------------------------------------------------------
  // Key joins: getMatchingItems, indexToMediaArray, keyToMediaItem

  function Keys(s: seq<MediaItem>): (k: seq<string>)
    ensures |k| == |s| && forall i :: 0 <= i < |s| ==> k[i] == s[i].key
  {
    seq(|s|, i requires 0 <= i < |s| => s[i].key)
  }

  /** The items of `media`, in `media`'s order, whose key is the key of some item of
      `selection`. */
  function MatchingItems(selection: seq<MediaItem>, media: seq<MediaItem>): (r: seq<MediaItem>)
    ensures |r| <= |media|
    ensures forall x :: x in r <==> x in media && x.key in Keys(selection)
  {
    if |media| == 0 then []
    else
      var last := media[|media| - 1];
      assert media == media[..|media| - 1] + [last];
      MatchingItems(selection, media[..|media| - 1]) + (if last.key in Keys(selection) then [last] else [])
  }

  /** Matching a concatenation matches each part: the matches keep `media`'s order. */
  lemma {:induction false} MatchingItemsAppend(selection: seq<MediaItem>, a: seq<MediaItem>, b: seq<MediaItem>)
    ensures MatchingItems(selection, a + b) == MatchingItems(selection, a) + MatchingItems(selection, b)
    decreases |b|
  {
    if |b| == 0 {
      assert a + b == a;
    } else {
      assert (a + b)[..|a + b| - 1] == a + b[..|b| - 1];
      MatchingItemsAppend(selection, a, b[..|b| - 1]);
    }
  }

  /** A key occurs among the selection's keys exactly when an item carries it. */
  lemma KeysMembership(selection: seq<MediaItem>, key: string)
    ensures key in Keys(selection) <==> exists y :: y in selection && y.key == key
  {
    if key in Keys(selection) {
      var i :| 0 <= i < |selection| && Keys(selection)[i] == key;
      assert selection[i] in selection;
    }
  }

  /** No item of `media` carries a key of the selection: nothing matches. */
  lemma {:induction false} NoMatchingItems(selection: seq<MediaItem>, media: seq<MediaItem>)
    requires forall x :: x in media ==> x.key !in Keys(selection)
    ensures MatchingItems(selection, media) == []
  {
    if |media| > 0 {
      assert media[|media| - 1] in media;
      NoMatchingItems(selection, media[..|media| - 1]);
    }
  }

  /** `getMatchingItems(selection, media)`. */
  method GetMatchingItems(selection: seq<MediaItem>, media: seq<MediaItem>) returns (matches: seq<MediaItem>)
    ensures matches == MatchingItems(selection, media)
  {
    var keys := [];
    for i := 0 to |selection|
      invariant keys == Keys(selection[..i])
    {
      keys := keys + [selection[i].key];
    }
    assert selection[..|selection|] == selection;
    matches := [];
    for i := 0 to |media|
      invariant matches == MatchingItems(selection, media[..i])
    {
      var item := media[i];
      assert media[..i + 1][..i] == media[..i];
      if IndexIn(keys, item.key) > -1 {
        matches := matches + [item];
      }
    }
    assert media[..|media|] == media;
  }

  /** What `indexToMediaArray` reads from an entry of its first argument: the `ref`
      and `score` of a search hit, or the `ref` of a speech candidate (no score). */
  datatype IndexRef = IndexRef(ref: Option<string>, score: Option<real>)

  function HitRefs(hits: seq<SearchHit>): seq<IndexRef>
  {
    seq(|hits|, i requires 0 <= i < |hits| => IndexRef(Some(hits[i].ref), Some(hits[i].score)))
  }

  function SpeechRefs(media: seq<SpeechMedia>): seq<IndexRef>
  {
    seq(|media|, i requires 0 <= i < |media| => IndexRef(media[i].ref, None))
  }

  function Refs(index: seq<IndexRef>): (refs: seq<Option<string>>)
    ensures |refs| == |index| && forall i :: 0 <= i < |index| ==> refs[i] == index[i].ref
  {
    seq(|index|, i requires 0 <= i < |index| => index[i].ref)
  }

  /** `score || 0`. */
  function ScoreOrZero(score: Option<real>): real
  {
    if score.Some? then score.value else 0.0
  }

  /** The item with its score overwritten by that of the first index entry naming it. */
  function Rescored(m: MediaItem, index: seq<IndexRef>): MediaItem
    requires Some(m.key) in Refs(index)
  {
    m.(score := ScoreOrZero(index[IndexIn(Refs(index), Some(m.key))].score))
  }

  /** Two items are the same cache entry up to the search score written onto them. */
  predicate SameEntry(a: MediaItem, b: MediaItem)
  {
    a.(score := 0.0) == b.(score := 0.0)
  }

  /** The items of `selection`, in order, that some index entry names, each with its
      score overwritten by that of the first entry naming it. */
  function IndexToMedia(index: seq<IndexRef>, selection: seq<MediaItem>): (r: seq<MediaItem>)
    ensures |r| <= |selection|
    ensures forall x :: x in r ==> Some(x.key) in Refs(index) && exists y :: y in selection && SameEntry(x, y)
    ensures forall y :: y in selection && Some(y.key) in Refs(index) ==> Rescored(y, index) in r
  {
    if |selection| == 0 then []
    else
      var last := selection[|selection| - 1];
      assert selection == selection[..|selection| - 1] + [last];
      var rest := IndexToMedia(index, selection[..|selection| - 1]);
      if Some(last.key) in Refs(index) then
        assert SameEntry(Rescored(last, index), last);
        rest + [Rescored(last, index)]
      else rest
  }

  /** When the index names no item of the selection, nothing is kept. */
  lemma {:induction false} NoIndexedItems(index: seq<IndexRef>, selection: seq<MediaItem>)
    requires forall y :: y in selection ==> Some(y.key) !in Refs(index)
    ensures IndexToMedia(index, selection) == []
  {
    if |selection| > 0 {
      assert selection[|selection| - 1] in selection;
      NoIndexedItems(index, selection[..|selection| - 1]);
    }
  }

  /** `indexToMediaArray(index, selection)`. The app writes the score onto the
      shared item object; here the returned items carry it. */
  method IndexToMediaArray(index: seq<IndexRef>, selection: seq<MediaItem>) returns (tempArray: seq<MediaItem>)
    ensures tempArray == IndexToMedia(index, selection)
  {
    var keys := [];
    for i := 0 to |index|
      invariant keys == Refs(index[..i])
    {
      keys := keys + [index[i].ref];
    }
    assert index[..|index|] == index;
    tempArray := [];
    for i := 0 to |selection|
      invariant tempArray == IndexToMedia(index, selection[..i])
    {
      var item := selection[i];
      assert selection[..i + 1][..i] == selection[..i];
      var keyIndexMatch := IndexIn(keys, Some(item.key));
      if keyIndexMatch > -1 {
        item := item.(score := ScoreOrZero(index[keyIndexMatch].score));
        tempArray := tempArray + [item];
      }
    }
    assert selection[..|selection|] == selection;
  }

  /** The first item of `items` with the given key (keyToMediaItem), if any. */
  function Lookup(items: seq<MediaItem>, key: string): (r: Option<MediaItem>)
    ensures r.None? <==> forall x :: x in items ==> x.key != key
    ensures r.Some? ==> r.value in items && r.value.key == key
  {
    if |items| == 0 then None
    else if items[0].key == key then Some(items[0])
    else Lookup(items[1..], key)
  }

  /** The item found is the FIRST one with that key. */
  lemma {:induction false} LookupFirst(items: seq<MediaItem>, key: string, i: nat)
    requires i < |items| && items[i].key == key
    requires forall j :: 0 <= j < i ==> items[j].key != key
    ensures Lookup(items, key) == Some(items[i])
  {
    if i > 0 {
      LookupFirst(items[1..], key, i - 1);
    }
  }

  /** `keyToMediaItem(key)`: `None` is the app's `undefined`. */
  method KeyToMediaItem(items: seq<MediaItem>, key: string) returns (r: Option<MediaItem>)
    ensures r == Lookup(items, key)
  {
    for a := 0 to |items|
      invariant forall j :: 0 <= j < a ==> items[j].key != key
    {
      if items[a].key == key {
        LookupFirst(items, key, a);
        return Some(items[a]);
      }
    }
    return None;
  }

  // ---------------------------------------------------------------------------
  // getLongestItemsInSpeechMedia

  /** The greatest length of a recognised text in `s` (0 for no candidates). */
  function MaxMatchLength(s: seq<SpeechMedia>): (n: nat)
    ensures forall x :: x in s ==> |x.matchText| <= n
    ensures |s| > 0 ==> exists x :: x in s && |x.matchText| == n
    ensures |s| == 0 ==> n == 0
  {
    if |s| == 0 then 0
    else
      var last := s[|s| - 1];
      assert s == s[..|s| - 1] + [last];
      var m := MaxMatchLength(s[..|s| - 1]);
      if |last.matchText| > m then |last.matchText| else m
  }

  /** The candidates of `s`, in order, whose recognised text has length `n`. */
  function WithMatchLength(s: seq<SpeechMedia>, n: nat): (r: seq<SpeechMedia>)
    ensures forall x :: x in r <==> x in s && |x.matchText| == n
  {
    if |s| == 0 then []
    else
      var last := s[|s| - 1];
      assert s == s[..|s| - 1] + [last];
      WithMatchLength(s[..|s| - 1], n) + (if |last.matchText| == n then [last] else [])
  }

  /** No candidate as long as `n`: none is selected. */
  lemma {:induction false} WithMatchLengthNone(s: seq<SpeechMedia>, n: nat)
    requires forall x :: x in s ==> |x.matchText| < n
    ensures WithMatchLength(s, n) == []
  {
    if |s| > 0 {
      assert s[|s| - 1] in s;
      WithMatchLengthNone(s[..|s| - 1], n);
    }
  }

  /** Selecting by length from a list with one more candidate at its end. */
  lemma WithMatchLengthSnoc(s: seq<SpeechMedia>, last: SpeechMedia, n: nat)
    ensures WithMatchLength(s + [last], n) == WithMatchLength(s, n) + (if |last.matchText| == n then [last] else [])
  {
    assert (s + [last])[..|s + [last]| - 1] == s;
  }

  /** Selecting by length from a concatenation selects from each part, in order. */
  lemma {:induction false} WithMatchLengthAppend(a: seq<SpeechMedia>, b: seq<SpeechMedia>, n: nat)
    ensures WithMatchLength(a + b, n) == WithMatchLength(a, n) + WithMatchLength(b, n)
    decreases |b|
  {
    if |b| == 0 {
      assert a + b == a;
    } else {
      var init, last := b[..|b| - 1], b[|b| - 1];
      assert b == init + [last];
      WithMatchLengthAppend(a, init, n);
      WithMatchLengthAppendStep(a, init, last, n);
    }
  }

  lemma WithMatchLengthAppendStep(a: seq<SpeechMedia>, init: seq<SpeechMedia>, last: SpeechMedia, n: nat)
    requires WithMatchLength(a + init, n) == WithMatchLength(a, n) + WithMatchLength(init, n)
    ensures WithMatchLength(a + (init + [last]), n) == WithMatchLength(a, n) + WithMatchLength(init + [last], n)
  {
    AppendAssociative(a, init, [last]);
    WithMatchLengthSnoc(a + init, last, n);
    WithMatchLengthSnoc(init, last, n);
    AppendAssociative(WithMatchLength(a, n), WithMatchLength(init, n), if |last.matchText| == n then [last] else []);
  }

  lemma AppendAssociative<T>(x: seq<T>, y: seq<T>, z: seq<T>)
    ensures (x + y) + z == x + (y + z)
  {
  }

  /** Longest-match narrowing: fewer than two candidates are kept as they are;
      otherwise exactly the candidates whose text is as long as the longest, in order. */
  function LongestMatches(s: seq<SpeechMedia>): (r: seq<SpeechMedia>)
    ensures |s| < 2 ==> r == s
    ensures |s| >= 2 ==> forall x :: x in r <==> x in s && |x.matchText| == MaxMatchLength(s)
    ensures |s| >= 2 ==> r == WithMatchLength(s, MaxMatchLength(s))
    ensures |s| > 0 ==> |r| > 0
  {
    if |s| < 2 then s
    else
      var r := WithMatchLength(s, MaxMatchLength(s));
      ghost var x :| x in s && |x.matchText| == MaxMatchLength(s);
      assert x in r;
      r
  }

  /** One step of the running maximum over the candidates. */
  lemma LongestStep(s: seq<SpeechMedia>, a: nat)
    requires a < |s|
    ensures var m := MaxMatchLength(s[..a]);
            var n := |s[a].matchText|;
            && MaxMatchLength(s[..a + 1]) == (if n > m then n else m)
            && (n > m ==> WithMatchLength(s[..a + 1], n) == [s[a]])
            && (n == m ==> WithMatchLength(s[..a + 1], m) == WithMatchLength(s[..a], m) + [s[a]])
            && (n < m ==> WithMatchLength(s[..a + 1], m) == WithMatchLength(s[..a], m))
  {
    assert s[..a + 1][..a] == s[..a];
    assert s[..a + 1][a] == s[a];
    if |s[a].matchText| > MaxMatchLength(s[..a]) {
      WithMatchLengthNone(s[..a], |s[a].matchText|);
    }
  }

  /** `getLongestItemsInSpeechMedia(speechMedia)`: a running maximum; a longer text
      empties the accumulator, an equally long one joins it. */
  method GetLongestItemsInSpeechMedia(speechMedia: seq<SpeechMedia>) returns (longestItems: seq<SpeechMedia>)
    ensures longestItems == LongestMatches(speechMedia)
  {
    if |speechMedia| < 2 {
      return speechMedia;
    }
    longestItems := [];
    var controlLength := 0;
    for a := 0 to |speechMedia|
      invariant controlLength == MaxMatchLength(speechMedia[..a])
      invariant longestItems == WithMatchLength(speechMedia[..a], controlLength)
    {
      var item := speechMedia[a];
      LongestStep(speechMedia, a);
      if |item.matchText| > controlLength {
        longestItems := [item];
        controlLength := |item.matchText|;
      } else if |item.matchText| == controlLength {
        longestItems := longestItems + [item];
      }
    }
    assert speechMedia[..|speechMedia|] == speechMedia;
  }

  // ---------------------------------------------------------------------------
  // getLowestEpisode, getNewestEpisode, getBestResult

  /** Where the lowest compound episode index of `s` is; the earliest such place. */
  function LowestAt(s: seq<MediaItem>): (k: nat)
    requires |s| > 0
    ensures k < |s|
    ensures forall j :: 0 <= j < |s| ==> s[k].compoundEpisodeIndex <= s[j].compoundEpisodeIndex
    ensures forall j :: 0 <= j < k ==> s[j].compoundEpisodeIndex > s[k].compoundEpisodeIndex
  {
    if |s| == 1 then 0
    else
      var k := LowestAt(s[..|s| - 1]);
      if s[|s| - 1].compoundEpisodeIndex < s[k].compoundEpisodeIndex then |s| - 1 else k
  }

  /** Where the highest compound episode index of `s` is; the earliest such place. */
  function NewestAt(s: seq<MediaItem>): (k: nat)
    requires |s| > 0
    ensures k < |s|
    ensures forall j :: 0 <= j < |s| ==> s[k].compoundEpisodeIndex >= s[j].compoundEpisodeIndex
    ensures forall j :: 0 <= j < k ==> s[j].compoundEpisodeIndex < s[k].compoundEpisodeIndex
  {
    if |s| == 1 then 0
    else
      var k := NewestAt(s[..|s| - 1]);
      if s[|s| - 1].compoundEpisodeIndex > s[k].compoundEpisodeIndex then |s| - 1 else k
  }

  /** Where the highest score of `hits` is; the earliest such place. */
  function BestAt(hits: seq<SearchHit>): (k: nat)
    requires |hits| > 0
    ensures k < |hits|
    ensures forall j :: 0 <= j < |hits| ==> hits[k].score >= hits[j].score
    ensures forall j :: 0 <= j < k ==> hits[j].score < hits[k].score
  {
    if |hits| == 1 then 0
    else
      var k := BestAt(hits[..|hits| - 1]);
      if hits[|hits| - 1].score > hits[k].score then |hits| - 1 else k
  }

  /** `getLowestEpisode(episodes)`; `None` is the `undefined` it returns for no episodes. */
  method GetLowestEpisode(episodes: seq<MediaItem>) returns (r: Option<MediaItem>)
    ensures |episodes| == 0 ==> r == None
    ensures |episodes| > 0 ==> r == Some(episodes[LowestAt(episodes)])
  {
    if |episodes| == 0 {
      return None;
    }
    var lowestEpisode := episodes[0];
    for a := 0 to |episodes|
      invariant a == 0 ==> lowestEpisode == episodes[0]
      invariant a > 0 ==> lowestEpisode == episodes[LowestAt(episodes[..a])]
    {
      assert episodes[..a + 1][..a] == episodes[..a];
      if episodes[a].compoundEpisodeIndex < lowestEpisode.compoundEpisodeIndex {
        lowestEpisode := episodes[a];
      }
    }
    assert episodes[..|episodes|] == episodes;
    return Some(lowestEpisode);
  }

  /** `getNewestEpisode(episodes)`; `None` is the `undefined` it returns for no episodes. */
  method GetNewestEpisode(episodes: seq<MediaItem>) returns (r: Option<MediaItem>)
    ensures |episodes| == 0 ==> r == None
    ensures |episodes| > 0 ==> r == Some(episodes[NewestAt(episodes)])
  {
    if |episodes| == 0 {
      return None;
    }
    var newestEpisode := episodes[0];
    for a := 0 to |episodes|
      invariant a == 0 ==> newestEpisode == episodes[0]
      invariant a > 0 ==> newestEpisode == episodes[NewestAt(episodes[..a])]
    {
      assert episodes[..a + 1][..a] == episodes[..a];
      if episodes[a].compoundEpisodeIndex > newestEpisode.compoundEpisodeIndex {
        newestEpisode := episodes[a];
      }
    }
    assert episodes[..|episodes|] == episodes;
    return Some(newestEpisode);
  }

  /** `getBestResult(selection)`; `None` is the `null` it returns for no hits. */
  method GetBestResult(selection: seq<SearchHit>) returns (r: Option<SearchHit>)
    ensures |selection| == 0 ==> r == None
    ensures |selection| > 0 ==> r == Some(selection[BestAt(selection)])
  {
    if |selection| == 0 {
      return None;
    }
    var bestResult := selection[0];
    for a := 0 to |selection|
      invariant a == 0 ==> bestResult == selection[0]
      invariant a > 0 ==> bestResult == selection[BestAt(selection[..a])]
    {
      assert selection[..a + 1][..a] == selection[..a];
      if selection[a].score > bestResult.score {
        bestResult := selection[a];
      }
    }
    assert selection[..|selection|] == selection;
    return Some(bestResult);
  }
}
