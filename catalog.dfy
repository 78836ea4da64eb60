/** The catalogue store (src/context/CatalogContext.jsx): the song, artist and achievement
    lists, the shared song filter, and the operations that replace them. */
module Catalog {
  import opened Js
  import opened Collections

  /** What a caller passes as `artistIds` (or `artistId`): nothing (null or undefined), an array, or one scalar. */
  datatype IdList = Absent | List(values: seq<Scalar>) | Single(value: Scalar) {
    /** The field of `{...x, ...update}`. */
    function OverriddenBy(update: IdList): IdList {
      if update.Absent? then this else update
    }
  }

  /** A song's `genres`: an array, or a single string. */
  datatype Genres = GenreList(names: seq<string>) | GenreText(text: string)

  /** A song's streaming links as `Object.entries(song.streaming)` lists them: provider key and url. */
  type Links = seq<(string, string)>

  /** `Boolean(url)` for one streaming entry: the url is non-empty. */
  function HasUrl(): ((string, string)) -> bool {
    (entry: (string, string)) => entry.1 != ""
  }

  /** A song object. `None` (or `Absent`) is a missing key. `kind` is the source's `type` field,
      `price` is in cents. */
  datatype Song = Song(
    id: Option<Scalar>, title: Option<string>, artist: Option<string>,
    artistIds: IdList, artistId: IdList,
    genres: Option<Genres>, streaming: Option<Links>,
    price: Option<int>, duration: Option<string>, kind: Option<string>)

  datatype Artist = Artist(
    id: Option<Scalar>, name: Option<string>, role: Option<string>, bio: Option<string>,
    genres: Option<seq<string>>, honors: Option<seq<string>>, notableWorks: Option<seq<string>>)

  datatype Achievement = Achievement(
    id: Option<Scalar>, title: Option<string>, desc: Option<string>, year: Option<string>, category: Option<string>)

  // ---- normalizeArtistIds ----

  /** `values.map((value) => Number(value))`. */
  function Numbers(values: seq<Scalar>, parse: NumberParse): (r: seq<Number>)
    ensures |r| == |values|
    ensures forall i :: 0 <= i < |values| ==> r[i] == ToNumber(values[i], parse)
  {
    if values == [] then [] else [ToNumber(values[0], parse)] + Numbers(values[1..], parse)
  }

  /** `numbers.filter((value) => Number.isInteger(value))`. */
  function Integers(numbers: seq<Number>): (r: seq<int>)
    ensures forall n :: n in r <==> Int(n) in numbers
    ensures |r| <= |numbers|
  {
    if numbers == [] then []
    else (if numbers[0].Int? then [numbers[0].value] else []) + Integers(numbers[1..])
  }

  /** `filter` keeps order and repetitions: filtering a concatenation filters each part. */
  lemma {:induction false} IntegersAppend(a: seq<Number>, b: seq<Number>)
    ensures Integers(a + b) == Integers(a) + Integers(b)
    decreases |a|
  {
    if a == [] {
      assert a + b == b;
    } else {
      assert (a + b)[1..] == a[1..] + b;
      IntegersAppend(a[1..], b);
    }
  }

  /** One number is kept exactly when it is an integer. */
  lemma IntegersOne(x: Number)
    ensures Integers([x]) == (if x.Int? then [x.value] else [])
  {
    assert [x][1..] == [];
  }

  /** Integers as the numbers JavaScript stores in an `artistIds` array. */
  function IdScalars(ids: seq<int>): (r: seq<Scalar>)
    ensures |r| == |ids|
    ensures forall i :: 0 <= i < |ids| ==> r[i] == IntScalar(ids[i])
  {
    if ids == [] then [] else [IntScalar(ids[0])] + IdScalars(ids[1..])
  }

  /** `normalizeArtistIds(input)`: the integer ids of `input`, each once, in first-occurrence order. */
  function NormalizeArtistIds(input: IdList, parse: NumberParse): (r: seq<int>)
    ensures input.Absent? ==> r == []
    ensures input.Single? ==> r == (if ToNumber(input.value, parse).Int? then [ToNumber(input.value, parse).value] else [])
    ensures input.List? ==>
      && (forall n :: n in r <==> Int(n) in Numbers(input.values, parse))
      && Distinct(r)
      && InFirstOccurrenceOrder(r, Integers(Numbers(input.values, parse)))
  {
    match input
    case List(values) =>
      var ints := Integers(Numbers(values, parse));
      DedupKeepsFirstOccurrenceOrder(ints);
      Dedup(ints)
    case Absent => []
    case Single(value) =>
      var single := ToNumber(value, parse);
      if single.Int? then [single.value] else []
  }

  /** The shape every stored song's `artistIds` has: an array of distinct integers. */
  ghost predicate NormalizedIds(ids: IdList) {
    ids.List? && exists ns: seq<int> {:trigger IdScalars(ns)} :: Distinct(ns) && ids.values == IdScalars(ns)
  }

  lemma {:induction false} IntegersOfIdScalars(ns: seq<int>, parse: NumberParse)
    ensures Integers(Numbers(IdScalars(ns), parse)) == ns
  {
    if ns != [] {
      IntegersOfIdScalars(ns[1..], parse);
      assert IdScalars(ns)[1..] == IdScalars(ns[1..]);
      assert Numbers(IdScalars(ns), parse)[1..] == Numbers(IdScalars(ns[1..]), parse);
    }
  }

  /** Normalising a stored id list gives back the same integers. */
  lemma NormalizeStoredIds(ns: seq<int>, parse: NumberParse)
    requires Distinct(ns)
    ensures NormalizeArtistIds(List(IdScalars(ns)), parse) == ns
  {
    IntegersOfIdScalars(ns, parse);
    DedupOfDistinct(ns);
  }

  lemma IdScalarsDistinct(ns: seq<int>)
    requires Distinct(ns)
    ensures Distinct(IdScalars(ns))
  {
  }

  lemma StoredIdsOf(ns: seq<int>)
    requires Distinct(ns)
    ensures NormalizedIds(List(IdScalars(ns)))
  {
  }

  // ---- enrichSong ----

  /** `artists.find((artist) => artist.id === id)?.name`. */
  function NameOf(artists: seq<Artist>, id: int): (r: Option<string>)
    ensures (forall a :: a in artists ==> a.id != Some(IntScalar(id))) ==> r == None
    ensures r.Some? ==> exists a :: a in artists && a.id == Some(IntScalar(id)) && a.name == r
    ensures forall k :: (0 <= k < |artists| && artists[k].id == Some(IntScalar(id)) &&
      (forall j :: 0 <= j < k ==> artists[j].id != Some(IntScalar(id)))) ==> r == artists[k].name
  {
    if artists == [] then None
    else if artists[0].id == Some(IntScalar(id)) then artists[0].name
    else NameOf(artists[1..], id)
  }

  /** `ids.map(... .name).filter(Boolean)`: the non-empty names of the artists the ids refer to. */
  function ArtistNames(ids: seq<int>, artists: seq<Artist>): (r: seq<string>)
    ensures forall i :: 0 <= i < |r| ==> r[i] != ""
    ensures |r| <= |ids|
  {
    if ids == [] then []
    else
      var name := NameOf(artists, ids[0]);
      (if name.Some? && name.value != "" then [name.value] else []) + ArtistNames(ids[1..], artists)
  }

  /** The names come in the order of the ids, one per id, repetitions included. */
  lemma {:induction false} ArtistNamesAppend(a: seq<int>, b: seq<int>, artists: seq<Artist>)
    ensures ArtistNames(a + b, artists) == ArtistNames(a, artists) + ArtistNames(b, artists)
    decreases |a|
  {
    if a == [] {
      assert a + b == b;
    } else {
      assert (a + b)[1..] == a[1..] + b;
      ArtistNamesAppend(a[1..], b, artists);
    }
  }

  /** One id gives the name of the first artist holding it, unless there is none or it is empty. */
  lemma ArtistNamesOne(id: int, artists: seq<Artist>)
    ensures ArtistNames([id], artists) ==
      (if NameOf(artists, id).Some? && NameOf(artists, id).value != "" then [NameOf(artists, id).value] else [])
  {
    assert [id][1..] == [];
  }

  /** `Array.isArray(genres) ? genres : genres ? [genres].flat() : []`. */
  function GenreNames(genres: Option<Genres>): (r: seq<string>)
    ensures genres.None? ==> r == []
    ensures genres.Some? && genres.value.GenreList? ==> r == genres.value.names
    ensures genres.Some? && genres.value.GenreText? ==> forall g :: g in r <==> g == genres.value.text && g != ""
  {
    match genres
    case None => []
    case Some(GenreList(names)) => names
    case Some(GenreText(text)) => if text != "" then [text] else []
  }

  /** `enrichSong(input)`: the song object the store keeps. The computed `id` and `artist` come
      first and `...rest` last, so an `id` or `artist` already in the input wins. `stamp` is the
      `Date.now()` text that `createId` appends. */
  function EnrichSong(input: Song, artists: seq<Artist>, parse: NumberParse, stamp: string): (r: Song)
    ensures r.id == (if input.id.Some? then input.id else Some(Str("song_" + stamp)))
    ensures input.artist.Some? ==> r.artist == input.artist
    ensures input.artist.None? ==>
      var names := ArtistNames(NormalizeArtistIds(if input.artistIds.Absent? then input.artistId else input.artistIds, parse), artists);
      r.artist == Some(if names != [] then Join(names, " x ") else "Independent artist")
    ensures r.artistIds == List(IdScalars(NormalizeArtistIds(if input.artistIds.Absent? then input.artistId else input.artistIds, parse)))
    ensures NormalizedIds(r.artistIds) && r.artistId.Absent?
    ensures r.title == input.title && r.price == input.price && r.duration == input.duration && r.kind == input.kind
    ensures r.genres == Some(GenreList(GenreNames(input.genres)))
    ensures r.streaming == Some(input.streaming.GetOr([]))
  {
    var requested := if input.artistIds.Absent? then input.artistId else input.artistIds;
    var ids := NormalizeArtistIds(requested, parse);
    StoredIdsOf(ids);
    var names := ArtistNames(ids, artists);
    var computedId := if input.id.Some? then input.id else Some(Str("song_" + stamp));
    var computedArtist :=
      if names != [] then Join(names, " x ")
      else if input.artist.Some? && input.artist.value != "" then input.artist.value
      else "Independent artist";
    Song(
      id := computedId.OverriddenBy(input.id),
      title := input.title,
      artist := Some(computedArtist).OverriddenBy(input.artist),
      artistIds := List(IdScalars(ids)),
      artistId := Absent,
      genres := Some(GenreList(GenreNames(input.genres))),
      streaming := Some(input.streaming.GetOr([])),
      price := input.price, duration := input.duration, kind := input.kind)
  }

  /** `{...song, ...updates}`. */
  function MergeSong(song: Song, updates: Song): Song {
    Song(
      id := song.id.OverriddenBy(updates.id),
      title := song.title.OverriddenBy(updates.title),
      artist := song.artist.OverriddenBy(updates.artist),
      artistIds := song.artistIds.OverriddenBy(updates.artistIds),
      artistId := song.artistId.OverriddenBy(updates.artistId),
      genres := song.genres.OverriddenBy(updates.genres),
      streaming := song.streaming.OverriddenBy(updates.streaming),
      price := song.price.OverriddenBy(updates.price),
      duration := song.duration.OverriddenBy(updates.duration),
      kind := song.kind.OverriddenBy(updates.kind))
  }

  /** `{...artist, ...updates}`. */
  function MergeArtist(artist: Artist, updates: Artist): Artist {
    Artist(
      id := artist.id.OverriddenBy(updates.id),
      name := artist.name.OverriddenBy(updates.name),
      role := artist.role.OverriddenBy(updates.role),
      bio := artist.bio.OverriddenBy(updates.bio),
      genres := artist.genres.OverriddenBy(updates.genres),
      honors := artist.honors.OverriddenBy(updates.honors),
      notableWorks := artist.notableWorks.OverriddenBy(updates.notableWorks))
  }

  /** Spreading the same updates twice is spreading them once, and two spreads in a row are
      one spread of the second updates over the first. */
  lemma MergeSongLaws(song: Song, u: Song, v: Song)
    ensures MergeSong(MergeSong(song, u), u) == MergeSong(song, u)
    ensures MergeSong(MergeSong(song, u), v) == MergeSong(song, MergeSong(u, v))
  {
  }

  lemma MergeArtistLaws(artist: Artist, u: Artist, v: Artist)
    ensures MergeArtist(MergeArtist(artist, u), u) == MergeArtist(artist, u)
    ensures MergeArtist(MergeArtist(artist, u), v) == MergeArtist(artist, MergeArtist(u, v))
  {
  }

  /** `{...achievement, ...updates}`. */
  function MergeAchievement(achievement: Achievement, updates: Achievement): Achievement {
    Achievement(
      id := achievement.id.OverriddenBy(updates.id),
      title := achievement.title.OverriddenBy(updates.title),
      desc := achievement.desc.OverriddenBy(updates.desc),
      year := achievement.year.OverriddenBy(updates.year),
      category := achievement.category.OverriddenBy(updates.category))
  }

  lemma MergeAchievementLaws(achievement: Achievement, u: Achievement, v: Achievement)
    ensures MergeAchievement(MergeAchievement(achievement, u), u) == MergeAchievement(achievement, u)
    ensures MergeAchievement(MergeAchievement(achievement, u), v) == MergeAchievement(achievement, MergeAchievement(u, v))
  {
  }

  // ---- the list updates behind each setState ----

  function SongIdIsNot(id: Scalar): Song -> bool {
    (song: Song) => song.id != Some(id)
  }

  function ArtistIdIsNot(id: Scalar): Artist -> bool {
    (artist: Artist) => artist.id != Some(id)
  }

  function AchievementIdIsNot(id: Scalar): Achievement -> bool {
    (achievement: Achievement) => achievement.id != Some(id)
  }

  /** `prev.map((song) => (song.id === id ? enrichSong({ ...song, ...updates }) : song))`. */
  function UpdatedSongs(songs: seq<Song>, id: Scalar, updates: Song, artists: seq<Artist>, parse: NumberParse, stamp: string): (r: seq<Song>)
    ensures |r| == |songs|
    ensures forall i :: 0 <= i < |songs| && songs[i].id != Some(id) ==> r[i] == songs[i]
    ensures forall i :: 0 <= i < |songs| && songs[i].id == Some(id) ==> r[i] == EnrichSong(MergeSong(songs[i], updates), artists, parse, stamp)
  {
    seq(|songs|, i requires 0 <= i < |songs| =>
      if songs[i].id == Some(id) then EnrichSong(MergeSong(songs[i], updates), artists, parse, stamp) else songs[i])
  }

  /** An update that carries no `id` leaves every song's id where it was. */
  lemma UpdateKeepsIds(songs: seq<Song>, id: Scalar, updates: Song, artists: seq<Artist>, parse: NumberParse, stamp: string)
    requires updates.id.None?
    ensures var r := UpdatedSongs(songs, id, updates, artists, parse, stamp);
      forall i :: 0 <= i < |songs| ==> r[i].id == songs[i].id
  {
  }

  /** `prev.map((artist) => (artist.id === id ? { ...artist, ...updates } : artist))`. */
  function UpdatedArtists(artists: seq<Artist>, id: Scalar, updates: Artist): (r: seq<Artist>)
    ensures |r| == |artists|
    ensures forall i :: 0 <= i < |artists| && artists[i].id != Some(id) ==> r[i] == artists[i]
    ensures forall i :: 0 <= i < |artists| && artists[i].id == Some(id) ==> r[i] == MergeArtist(artists[i], updates)
  {
    seq(|artists|, i requires 0 <= i < |artists| =>
      if artists[i].id == Some(id) then MergeArtist(artists[i], updates) else artists[i])
  }

  /** The same map over achievements. */
  function UpdatedAchievements(achievements: seq<Achievement>, id: Scalar, updates: Achievement): (r: seq<Achievement>)
    ensures |r| == |achievements|
    ensures forall i :: 0 <= i < |achievements| && achievements[i].id != Some(id) ==> r[i] == achievements[i]
    ensures forall i :: 0 <= i < |achievements| && achievements[i].id == Some(id) ==> r[i] == MergeAchievement(achievements[i], updates)
  {
    seq(|achievements|, i requires 0 <= i < |achievements| =>
      if achievements[i].id == Some(id) then MergeAchievement(achievements[i], updates) else achievements[i])
  }

  /** `addArtist`'s new record: `{ id: artist.id || createId('artist'), genres: artist.genres || [], ..., ...artist }`. */
  function NewArtist(artist: Artist, stamp: string): (r: Artist)
    ensures r.id == (if artist.id.Some? then artist.id else Some(Str("artist_" + stamp)))
    ensures r.name == artist.name && r.role == artist.role && r.bio == artist.bio
    ensures r.genres == Some(artist.genres.GetOr([])) && r.honors == Some(artist.honors.GetOr([]))
    ensures r.notableWorks == Some(artist.notableWorks.GetOr([]))
  {
    var defaults := Artist(
      id := if TruthyField(artist.id) then artist.id else Some(Str("artist_" + stamp)),
      name := None, role := None, bio := None,
      genres := Some(artist.genres.GetOr([])),
      honors := Some(artist.honors.GetOr([])),
      notableWorks := Some(artist.notableWorks.GetOr([])));
    MergeArtist(defaults, artist)
  }

  /** `addAchievement`'s new record: `{ id: achievement.id || createId('achievement'), ...achievement }`. */
  function NewAchievement(achievement: Achievement, stamp: string): (r: Achievement)
    ensures r.id == (if achievement.id.Some? then achievement.id else Some(Str("achievement_" + stamp)))
    ensures r.title == achievement.title && r.desc == achievement.desc
    ensures r.year == achievement.year && r.category == achievement.category
  {
    var defaults := Achievement(
      id := if TruthyField(achievement.id) then achievement.id else Some(Str("achievement_" + stamp)),
      title := None, desc := None, year := None, category := None);
    MergeAchievement(defaults, achievement)
  }

  /** One song as `deleteArtist` rewrites it: a song naming the artist is re-enriched without
      that id; every other song is kept as it is. */
  function SongWithoutArtist(song: Song, id: Scalar, artists: seq<Artist>, parse: NumberParse, stamp: string): (r: Song)
    requires !song.artistIds.Single?
    ensures !(song.artistIds.List? && id in song.artistIds.values) ==> r == song
  {
    if song.artistIds.List? && id in song.artistIds.values then
      EnrichSong(song.(artistIds := List(Without(song.artistIds.values, id))), artists, parse, stamp)
    else song
  }

  function SongsWithoutArtist(songs: seq<Song>, id: Scalar, artists: seq<Artist>, parse: NumberParse, stamp: string): (r: seq<Song>)
    requires forall i :: 0 <= i < |songs| ==> !songs[i].artistIds.Single?
    ensures |r| == |songs|
    ensures forall i :: 0 <= i < |songs| ==> r[i] == SongWithoutArtist(songs[i], id, artists, parse, stamp)
  {
    seq(|songs|, i requires 0 <= i < |songs| => SongWithoutArtist(songs[i], id, artists, parse, stamp))
  }

  /** What `deleteArtist` does to a stored song: the id is gone from `artistIds`; a song that
      never named the artist is untouched; one that did keeps its other ids and every other
      field, its display name included when it already had one. */
  lemma {:induction false} DeleteArtistFromSong(song: Song, id: Scalar, artists: seq<Artist>, parse: NumberParse, stamp: string)
    requires NormalizedIds(song.artistIds)
    ensures var r := SongWithoutArtist(song, id, artists, parse, stamp);
      && NormalizedIds(r.artistIds)
      && id !in r.artistIds.values
      && (id !in song.artistIds.values ==> r == song)
      && (id in song.artistIds.values ==>
            && r.artistIds == List(Without(song.artistIds.values, id))
            && r.id.Some? && (song.id.Some? ==> r.id == song.id)
            && (song.artist.Some? ==> r.artist == song.artist)
            && r.title == song.title && r.price == song.price)
  {
    var ns :| Distinct(ns) && song.artistIds.values == IdScalars(ns);
    if id in song.artistIds.values {
      var kept := Without(song.artistIds.values, id);
      var n := id.n.value;
      var ms := Filter(ns, (m: int) => m != n);
      assert kept == IdScalars(ms) by {
        WithoutIsFilter(ns, n);
      }
      assert Distinct(ms) by {
        FilterKeepsDistinctKeys(ns, (m: int) => m != n, (m: int) => m);
      }
      NormalizeStoredIds(ms, parse);
    }
  }

  /** Dropping an id from a stored list is filtering its integers. */
  lemma {:induction false} WithoutIsFilter(ns: seq<int>, n: int)
    ensures Without(IdScalars(ns), IntScalar(n)) == IdScalars(Filter(ns, (m: int) => m != n))
  {
    if ns != [] {
      assert IdScalars(ns)[1..] == IdScalars(ns[1..]);
      WithoutIsFilter(ns[1..], n);
    }
  }

  // ---- the song filter ----

  /** `if (filter?.artistIds)`: an array is truthy even when empty. */
  predicate IdListTruthy(ids: IdList) {
    match ids
    case Absent => false
    case List(_) => true
    case Single(v) => Truthy(v)
  }

  /** The filter `applySongFilter` sets for `filter?.artistIds == requested`: null unless the
      request is truthy and normalises to at least one id. */
  function FilterFor(requested: IdList, parse: NumberParse): (r: Option<seq<int>>)
    ensures requested.Absent? ==> r == None
    ensures r.None? <==> !IdListTruthy(requested) || NormalizeArtistIds(requested, parse) == []
    ensures r.Some? ==> r.value == NormalizeArtistIds(requested, parse)
  {
    if IdListTruthy(requested) then
      var ids := NormalizeArtistIds(requested, parse);
      if |ids| == 0 then None else Some(ids)
    else None
  }

  /** A song filter as the store keeps it: null, or at least one distinct integer id. */
  ghost predicate FilterValid(filter: Option<seq<int>>) {
    filter.Some? ==> |filter.value| > 0 && Distinct(filter.value)
  }

  lemma FilterForValid(requested: IdList, parse: NumberParse)
    ensures FilterValid(FilterFor(requested, parse))
  {
  }

  /** The store's state cells and the callbacks that replace them. */
  class Store {
    var songs: seq<Song>
    var artists: seq<Artist>
    var achievements: seq<Achievement>
    var songFilter: Option<seq<int>>
    const parse: NumberParse

    ghost predicate Valid()
      reads this
    {
      && (forall i :: 0 <= i < |songs| ==> NormalizedIds(songs[i].artistIds))
      && FilterValid(songFilter)
    }

    /** The initial state: the bundled catalogue with normalised `artistIds`, and the filter
        read back from session storage (`stored` is the `artistIds` array found there, if any). */
    constructor (initialSongs: seq<Song>, initialArtists: seq<Artist>, initialAchievements: seq<Achievement>,
                 stored: Option<seq<Scalar>>, parse: NumberParse)
      ensures Valid()
      ensures |songs| == |initialSongs|
      ensures forall i :: 0 <= i < |songs| ==> songs[i] == initialSongs[i].(artistIds := List(IdScalars(NormalizeArtistIds(
                if initialSongs[i].artistIds.Absent? then initialSongs[i].artistId else initialSongs[i].artistIds, parse))))
      ensures artists == initialArtists && achievements == initialAchievements
      ensures songFilter == (if stored.Some? then FilterFor(List(stored.value), parse) else None)
      ensures this.parse == parse
    {
      songs := seq(|initialSongs|, i requires 0 <= i < |initialSongs| =>
        initialSongs[i].(artistIds := List(IdScalars(NormalizeArtistIds(
          if initialSongs[i].artistIds.Absent? then initialSongs[i].artistId else initialSongs[i].artistIds, parse)))));
      artists := initialArtists;
      achievements := initialAchievements;
      songFilter := if stored.Some? then FilterFor(List(stored.value), parse) else None;
      this.parse := parse;
      new;
      forall i | 0 <= i < |songs| ensures NormalizedIds(songs[i].artistIds) {
        var s := initialSongs[i];
        StoredIdsOf(NormalizeArtistIds(if s.artistIds.Absent? then s.artistId else s.artistIds, parse));
      }
      if stored.Some? {
        FilterForValid(List(stored.value), parse);
      }
    }

    /** `addSong`: the enriched song goes first. */
    method AddSong(song: Song, stamp: string)
      requires Valid()
      modifies this`songs
      ensures Valid()
      ensures songs == [EnrichSong(song, artists, parse, stamp)] + old(songs)
    {
      songs := [EnrichSong(song, artists, parse, stamp)] + songs;
    }

    /** `updateSong`: every song with that id is merged with the updates and enriched again. */
    method UpdateSong(id: Scalar, updates: Song, stamp: string)
      requires Valid()
      modifies this`songs
      ensures Valid()
      ensures songs == UpdatedSongs(old(songs), id, updates, artists, parse, stamp)
    {
      songs := UpdatedSongs(songs, id, updates, artists, parse, stamp);
    }

    /** `deleteSong`. */
    method DeleteSong(id: Scalar)
      requires Valid()
      modifies this`songs
      ensures Valid()
      ensures songs == Filter(old(songs), SongIdIsNot(id))
    {
      ghost var before := songs;
      assert forall s :: s in before ==> NormalizedIds(s.artistIds);
      songs := Filter(songs, SongIdIsNot(id));
      assert forall i :: 0 <= i < |songs| ==> songs[i] in before;
    }

    /** `applySongFilter(filter)`, where `requested` is `filter?.artistIds`. */
    method ApplySongFilter(requested: IdList)
      requires Valid()
      modifies this`songFilter
      ensures Valid()
      ensures songFilter == FilterFor(requested, parse)
    {
      FilterForValid(requested, parse);
      songFilter := FilterFor(requested, parse);
    }

    /** `clearSongFilter`. */
    method ClearSongFilter()
      requires Valid()
      modifies this`songFilter
      ensures Valid()
      ensures songFilter == None
    {
      songFilter := None;
    }

    /** `addArtist`: the new record goes first. */
    method AddArtist(artist: Artist, stamp: string)
      requires Valid()
      modifies this`artists
      ensures Valid()
      ensures artists == [NewArtist(artist, stamp)] + old(artists)
    {
      artists := [NewArtist(artist, stamp)] + artists;
    }

    /** `updateArtist`: the songs are not re-enriched, so their display names stay as they were. */
    method UpdateArtist(id: Scalar, updates: Artist)
      requires Valid()
      modifies this`artists
      ensures Valid()
      ensures artists == UpdatedArtists(old(artists), id, updates)
    {
      artists := UpdatedArtists(artists, id, updates);
    }

    /** `deleteArtist`: both cells change; the songs are re-enriched against the artist list
        captured before the deletion. */
    method DeleteArtist(id: Scalar, stamp: string)
      requires Valid()
      modifies this`artists, this`songs
      ensures Valid()
      ensures artists == Filter(old(artists), ArtistIdIsNot(id))
      ensures songs == SongsWithoutArtist(old(songs), id, old(artists), parse, stamp)
      ensures forall a :: a in artists ==> a.id != Some(id)
      ensures forall i :: 0 <= i < |songs| ==> id !in songs[i].artistIds.values
    {
      var before := artists;
      artists := Filter(artists, ArtistIdIsNot(id));
      songs := SongsWithoutArtist(songs, id, before, parse, stamp);
      forall i | 0 <= i < |songs| ensures NormalizedIds(songs[i].artistIds) && id !in songs[i].artistIds.values {
        DeleteArtistFromSong(old(songs)[i], id, before, parse, stamp);
      }
    }

    /** `addAchievement`: the new record goes first. */
    method AddAchievement(achievement: Achievement, stamp: string)
      requires Valid()
      modifies this`achievements
      ensures Valid()
      ensures achievements == [NewAchievement(achievement, stamp)] + old(achievements)
    {
      achievements := [NewAchievement(achievement, stamp)] + achievements;
    }

    /** `updateAchievement`. */
    method UpdateAchievement(id: Scalar, updates: Achievement)
      requires Valid()
      modifies this`achievements
      ensures Valid()
      ensures achievements == UpdatedAchievements(old(achievements), id, updates)
    {
      achievements := UpdatedAchievements(achievements, id, updates);
    }

    /** `deleteAchievement`. */
    method DeleteAchievement(id: Scalar)
      requires Valid()
      modifies this`achievements
      ensures Valid()
      ensures achievements == Filter(old(achievements), AchievementIdIsNot(id))
      ensures forall a :: a in achievements ==> a.id != Some(id)
    {
      achievements := Filter(achievements, AchievementIdIsNot(id));
    }
  }
}
