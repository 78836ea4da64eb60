/** The songs page (src/pages/Songs.jsx): the `?artists=` URL parameter and its two sync
    effects, the filtered views, and the song form with its handlers. */
module SongsPage {
  import opened Js
  import opened Collections
  import opened Catalog

  // ---- the ?artists= parameter ----

  /** `pieces.map((value) => Number(value.trim()))`. */
  function TrimmedNumbers(pieces: seq<string>, parse: NumberParse): (r: seq<Number>)
    ensures |r| == |pieces|
    ensures forall i :: 0 <= i < |pieces| ==> r[i] == parse(Trim(pieces[i]))
  {
    if pieces == [] then [] else [parse(Trim(pieces[0]))] + TrimmedNumbers(pieces[1..], parse)
  }

  lemma TrimmedNumbersMembers(pieces: seq<string>, parse: NumberParse)
    ensures forall n :: Int(n) in TrimmedNumbers(pieces, parse) <==> exists piece :: piece in pieces && parse(Trim(piece)) == Int(n)
  {
    var numbers := TrimmedNumbers(pieces, parse);
    forall n | Int(n) in numbers ensures exists piece :: piece in pieces && parse(Trim(piece)) == Int(n) {
      var i :| 0 <= i < |numbers| && numbers[i] == Int(n);
      assert pieces[i] in pieces;
    }
    forall n | exists piece :: piece in pieces && parse(Trim(piece)) == Int(n) ensures Int(n) in numbers {
      var piece :| piece in pieces && parse(Trim(piece)) == Int(n);
      var i :| 0 <= i < |pieces| && pieces[i] == piece;
      assert numbers[i] == Int(n);
    }
  }

  /** The integer ids an `artists` parameter names: a missing or empty parameter names none;
      otherwise every comma-separated piece is trimmed and converted, and the integers are kept
      in order, duplicates included. */
  function ArtistsFromParam(param: Option<string>, parse: NumberParse): (r: seq<int>)
    ensures param.None? || param == Some("") ==> r == []
    ensures param.Some? && param.value != "" ==>
      forall n :: n in r <==> exists piece :: piece in Split(param.value, ',') && parse(Trim(piece)) == Int(n)
  {
    if param.Some? && param.value != "" then
      var pieces := Split(param.value, ',');
      TrimmedNumbersMembers(pieces, parse);
      Integers(TrimmedNumbers(pieces, parse))
    else []
  }

  /** Reading `a,b` gives the ids read from `a` followed by those read from `b`: the ids keep
      the order of the text, repetitions included. */
  lemma ArtistsFromParamAppend(a: string, b: string, parse: NumberParse)
    requires a != "" && b != ""
    ensures ArtistsFromParam(Some(a + "," + b), parse) ==
      ArtistsFromParam(Some(a), parse) + ArtistsFromParam(Some(b), parse)
  {
    var pa := Split(a, ',');
    var pb := Split(b, ',');
    SplitAppend(a, b, ',');
    TrimmedNumbersAppend(pa, pb, parse);
    IntegersAppend(TrimmedNumbers(pa, parse), TrimmedNumbers(pb, parse));
    PiecesOfParam(a + "," + b, pa + pb, parse);
    PiecesOfParam(a, pa, parse);
    PiecesOfParam(b, pb, parse);
  }

  lemma PiecesOfParam(v: string, pieces: seq<string>, parse: NumberParse)
    requires v != "" && pieces == Split(v, ',')
    ensures ArtistsFromParam(Some(v), parse) == Integers(TrimmedNumbers(pieces, parse))
  {
  }

  lemma {:induction false} TrimmedNumbersAppend(xs: seq<string>, ys: seq<string>, parse: NumberParse)
    ensures TrimmedNumbers(xs + ys, parse) == TrimmedNumbers(xs, parse) + TrimmedNumbers(ys, parse)
  {
  }

  /** A parameter without commas names the one integer its trimmed text reads as, or none. */
  lemma ArtistsFromParamPiece(p: string, parse: NumberParse)
    requires p != "" && ',' !in p
    ensures ArtistsFromParam(Some(p), parse) ==
      (if parse(Trim(p)).Int? then [parse(Trim(p)).value] else [])
  {
    SplitPiece(p, ',');
    assert TrimmedNumbers([p], parse) == [parse(Trim(p))];
    IntegersOne(parse(Trim(p)));
  }

  /** `ids.join(',')`: the parameter a list of integer ids is written as; empty exactly when
      there are no ids. */
  function ParamOf(ids: seq<int>): (r: string)
    ensures r == "" <==> ids == []
  {
    if ids == [] then "" else
      var ds := DecimalStrings(ids);
      JoinNonEmpty(ds, ",");
      Join(ds, ",")
  }

  lemma IntegersOfDecimals(ids: seq<int>, parse: NumberParse)
    requires ParsesDecimals(parse)
    ensures Integers(TrimmedNumbers(DecimalStrings(ids), parse)) == ids
  {
    var ds := DecimalStrings(ids);
    forall i | 0 <= i < |ids| ensures parse(Trim(ds[i])) == Int(ids[i]) {
      DecimalTrimmed(ids[i]);
    }
    IntegersOfPieces(ds, ids, parse);
  }

  lemma DecimalTrimmed(n: int)
    ensures Trim(DecimalString(n)) == DecimalString(n)
  {
    var d := DecimalString(n);
    NumeralNotWhitespace(d[0]);
    NumeralNotWhitespace(d[|d| - 1]);
    assert Trimmed(d);
  }

  lemma NumeralNotWhitespace(c: char)
    requires c == '-' || '0' <= c <= '9'
    ensures !IsWhitespace(c)
  {
  }

  /** Pieces that each read as the matching id give back exactly those ids. */
  lemma {:induction false} IntegersOfPieces(pieces: seq<string>, ids: seq<int>, parse: NumberParse)
    requires |pieces| == |ids|
    requires forall i :: 0 <= i < |ids| ==> parse(Trim(pieces[i])) == Int(ids[i])
    ensures Integers(TrimmedNumbers(pieces, parse)) == ids
  {
    if ids != [] {
      var ns := TrimmedNumbers(pieces, parse);
      assert ns[1..] == TrimmedNumbers(pieces[1..], parse);
      IntegersOfPieces(pieces[1..], ids[1..], parse);
    }
  }

  /** Writing ids into the parameter and reading it back gives the same ids, in the same order. */
  lemma ParamRoundTrip(ids: seq<int>, parse: NumberParse)
    requires ParsesDecimals(parse)
    ensures ArtistsFromParam(Some(ParamOf(ids)), parse) == ids
  {
    if ids != [] {
      var ds := DecimalStrings(ids);
      assert forall i :: 0 <= i < |ds| ==> ',' !in ds[i];
      SplitJoin(ds, ',');
      assert ds[0] != "";
      JoinNonEmpty(ds, ",");
      IntegersOfDecimals(ids, parse);
    }
  }

  lemma JoinNonEmpty(xs: seq<string>, sep: string)
    requires |xs| > 0 && xs[0] != ""
    ensures Join(xs, sep) != ""
  {
  }

  /** The parameter and the filter agree: both effects compare these two texts and do nothing
      when they are equal. */
  ghost predicate InSync(param: Option<string>, filter: Option<seq<int>>, parse: NumberParse) {
    ParamOf(ArtistsFromParam(param, parse)) == ParamOf(filter.GetOr([]))
  }

  /** The first effect: the request it passes to `applySongFilter`, or `None` when it does not call it. */
  function FilterRequestFromUrl(param: Option<string>, filter: Option<seq<int>>, parse: NumberParse): (r: Option<IdList>)
    ensures r.None? <==> InSync(param, filter, parse)
    ensures r.Some? ==>
      (if ArtistsFromParam(param, parse) == [] then r.value == Absent
       else r.value == List(IdScalars(ArtistsFromParam(param, parse))))
  {
    var fromParams := ArtistsFromParam(param, parse);
    if ParamOf(fromParams) != ParamOf(filter.GetOr([])) then
      Some(if |fromParams| > 0 then List(IdScalars(fromParams)) else Absent)
    else None
  }

  /** The second effect: the parameter it writes (`Some(None)` removes it), or `None` when it
      leaves the URL alone. */
  function UrlFromFilter(param: Option<string>, filter: Option<seq<int>>, parse: NumberParse): (r: Option<Option<string>>)
    ensures InSync(param, filter, parse) ==> r.None?
    ensures !InSync(param, filter, parse) && filter.GetOr([]) != [] ==> r == Some(Some(ParamOf(filter.value)))
    ensures !InSync(param, filter, parse) && filter.GetOr([]) == [] ==>
      r == Some(None) && param.Some? && param.value != ""
  {
    var ids := filter.GetOr([]);
    if ParamOf(ids) == ParamOf(ArtistsFromParam(param, parse)) then None
    else if |ids| > 0 then Some(Some(ParamOf(ids)))
    else if param.Some? && param.value != "" then Some(None)
    else None
  }

  /** After the second effect has run, the parameter and the filter agree, so neither effect
      fires again. */
  lemma UrlSyncSettles(param: Option<string>, filter: Option<seq<int>>, parse: NumberParse)
    requires ParsesDecimals(parse)
    ensures var next := UrlFromFilter(param, filter, parse);
      InSync(if next.Some? then next.value else param, filter, parse)
  {
    var ids := filter.GetOr([]);
    ParamRoundTrip(ids, parse);
  }

  // ---- the filtered views ----

  /** `activeIds.includes(id)` for one entry of a song's `artistIds`. */
  predicate IdIn(ids: seq<int>, v: Scalar) {
    v.Num? && v.n.Int? && v.n.value in ids
  }

  /** A song lists at least one of the active ids. Stored songs always hold an array. */
  predicate SharesArtist(ids: seq<int>, song: Song) {
    song.artistIds.List? && exists v :: v in song.artistIds.values && IdIn(ids, v)
  }

  function SharesArtistWith(ids: seq<int>): Song -> bool {
    (song: Song) => SharesArtist(ids, song)
  }

  /** `filteredSongs`: every song without an active filter; otherwise the songs sharing an
      artist with it, in catalogue order. */
  function FilteredSongs(songs: seq<Song>, filter: Option<seq<int>>): (r: seq<Song>)
    ensures filter.None? || filter.value == [] ==> r == songs
    ensures filter.Some? && filter.value != [] ==>
      (forall s :: s in r <==> s in songs && SharesArtist(filter.value, s)) && Subsequence(r, songs)
  {
    if filter.Some? && |filter.value| > 0 then
      FilterIsSubsequence(songs, SharesArtistWith(filter.value));
      Filter(songs, SharesArtistWith(filter.value))
    else songs
  }

  /** `activeIds.includes(artist.id)`. */
  predicate IsActive(ids: seq<int>, artist: Artist) {
    artist.id.Some? && IdIn(ids, artist.id.value)
  }

  function IsActiveIn(ids: seq<int>): Artist -> bool {
    (artist: Artist) => IsActive(ids, artist)
  }

  /** `activeArtists`: none without a filter; otherwise the artists the filter names, in list order. */
  function ActiveArtists(artists: seq<Artist>, filter: Option<seq<int>>): (r: seq<Artist>)
    ensures filter.None? || filter.value == [] ==> r == []
    ensures filter.Some? && filter.value != [] ==>
      (forall a :: a in r <==> a in artists && IsActive(filter.value, a)) && Subsequence(r, artists)
  {
    if filter.Some? && |filter.value| > 0 then
      FilterIsSubsequence(artists, IsActiveIn(filter.value));
      Filter(artists, IsActiveIn(filter.value))
    else []
  }

  // ---- toggling the filter ----

  /** What `toggleFilterArtist(artistId)` passes to `applySongFilter`: the filter's ids with
      `artistId` flipped, or nothing when that leaves none. */
  function ToggleRequest(filter: Option<seq<int>>, artistId: Scalar): (r: IdList)
    ensures r.List? || r.Absent?
    ensures r.List? ==> Distinct(r.values) && |r.values| > 0
    ensures (r.List? && artistId in r.values) <==> artistId !in IdScalars(filter.GetOr([]))
    ensures forall v :: v != artistId ==> ((r.List? && v in r.values) <==> v in IdScalars(filter.GetOr([])))
  {
    var next := Toggle(IdScalars(filter.GetOr([])), artistId);
    if |next| > 0 then List(next) else Absent
  }

  lemma IntInIdScalars(ids: seq<int>, m: int)
    ensures IntScalar(m) in IdScalars(ids) <==> m in ids
  {
    if m in ids {
      var i :| 0 <= i < |ids| && ids[i] == m;
      assert IdScalars(ids)[i] == IntScalar(m);
    }
  }

  lemma NumbersOfIntScalars(values: seq<Scalar>, parse: NumberParse, m: int)
    requires forall v :: v in values ==> v.Num? && v.n.Int?
    ensures Int(m) in Numbers(values, parse) <==> IntScalar(m) in values
  {
    var ns := Numbers(values, parse);
    if Int(m) in ns {
      var i :| 0 <= i < |ns| && ns[i] == Int(m);
      assert values[i] in values;
    }
    if IntScalar(m) in values {
      var i :| 0 <= i < |values| && values[i] == IntScalar(m);
      assert ns[i] == Int(m);
    }
  }

  /** Every id in the toggled list of a filter of integers is an integer. */
  lemma ToggledIdsAreIntegers(ids: seq<int>, n: int)
    ensures forall v :: v in Toggle(IdScalars(ids), IntScalar(n)) ==> v.Num? && v.n.Int?
  {
    forall v | v in Toggle(IdScalars(ids), IntScalar(n)) ensures v.Num? && v.n.Int? {
      if v != IntScalar(n) {
        var i :| 0 <= i < |IdScalars(ids)| && IdScalars(ids)[i] == v;
      }
    }
  }

  /** The integers the toggled list normalises to: `n` flipped, every other id as before. */
  lemma NormalizedToggle(ids: seq<int>, n: int, parse: NumberParse, m: int)
    ensures m in NormalizeArtistIds(List(Toggle(IdScalars(ids), IntScalar(n))), parse) <==>
      (if m == n then n !in ids else m in ids)
  {
    var values := Toggle(IdScalars(ids), IntScalar(n));
    ToggledIdsAreIntegers(ids, n);
    NumbersOfIntScalars(values, parse, m);
    IntInIdScalars(ids, m);
    IntInIdScalars(ids, n);
  }

  /** Toggling an integer id flips its membership in the filter, keeps every other id's, and
      clears the filter exactly when no id is left. */
  lemma ToggleFilterFlips(filter: Option<seq<int>>, n: int, parse: NumberParse)
    ensures var next := FilterFor(ToggleRequest(filter, IntScalar(n)), parse);
      && (n in next.GetOr([]) <==> n !in filter.GetOr([]))
      && (forall m :: m != n ==> (m in next.GetOr([]) <==> m in filter.GetOr([])))
      && (next.None? <==> Toggle(IdScalars(filter.GetOr([])), IntScalar(n)) == [])
  {
    var ids := filter.GetOr([]);
    var values := Toggle(IdScalars(ids), IntScalar(n));
    var next := FilterFor(ToggleRequest(filter, IntScalar(n)), parse);
    if values == [] {
      assert next == None;
      assert IntScalar(n) !in values;
      IntInIdScalars(ids, n);
      forall m | m != n ensures m !in ids {
        IntInIdScalars(ids, m);
        assert IntScalar(m) !in values;
      }
    } else {
      var normalized := NormalizeArtistIds(List(values), parse);
      assert ToggleRequest(filter, IntScalar(n)) == List(values);
      ToggledIdsAreIntegers(ids, n);
      var v := values[0];
      NormalizedToggle(ids, n, parse, v.n.value);
      NumbersOfIntScalars(values, parse, v.n.value);
      assert v.n.value in normalized;
      assert next == Some(normalized);
      forall m ensures m in normalized <==> (if m == n then n !in ids else m in ids) {
        NormalizedToggle(ids, n, parse, m);
      }
    }
  }

  // ---- the song form ----

  /** The form state. `title` comes from the edited song and may be missing; `kind` is the
      `type` field; the price is text. */
  datatype SongForm = SongForm(
    title: Option<string>, artistIds: seq<string>, price: string, duration: string, kind: string,
    genres: string, spotify: string, apple: string, tidal: string, qobuz: string)

  /** `Number(text) || 0` for a price field, in cents; `None` stands for NaN. */
  type PriceParse = string -> Option<int>

  /** The price form text reads back as the price it was written from. */
  ghost predicate PricesRoundTrip(priceOf: PriceParse, priceText: int -> string) {
    forall p: int :: priceOf(priceText(p)) == Some(p)
  }

  /** `String(id)`, where a missing id prints as "undefined". */
  function IdText(id: Option<Scalar>, format: NumberFormat): string {
    if id.Some? then ScalarText(id.value, format) else "undefined"
  }

  /** `{...INITIAL_FORM, artistIds: artists[0] ? [String(artists[0].id)] : []}`. */
  function InitialForm(artists: seq<Artist>, format: NumberFormat): SongForm {
    SongForm(Some(""), if |artists| > 0 then [IdText(artists[0].id, format)] else [], "", "", "", "", "", "", "", "")
  }

  /** `!formData.title || formData.artistIds.length === 0` fails. */
  predicate Submittable(form: SongForm) {
    form.title.Some? && form.title.value != "" && |form.artistIds| > 0
  }

  /** The four provider fields, in the order the form lists them. */
  function FormLinks(form: SongForm): Links {
    [("spotify", form.spotify), ("apple", form.apple), ("tidal", form.tidal), ("qobuz", form.qobuz)]
  }

  /** The `streaming` object of the payload: the providers whose field is filled in, in form order. */
  function StreamingOf(form: SongForm): (r: Links)
    ensures forall e :: e in r <==> e in FormLinks(form) && e.1 != ""
    ensures Subsequence(r, FormLinks(form))
  {
    FilterIsSubsequence(FormLinks(form), HasUrl());
    Filter(FormLinks(form), HasUrl())
  }

  /** The providers the form has a field for. */
  predicate FormProvider(provider: string) {
    provider == "spotify" || provider == "apple" || provider == "tidal" || provider == "qobuz"
  }

  /** The payload's streaming object holds only the form's providers, each with a url: any other
      provider the edited song had is dropped. */
  lemma StreamingProviders(form: SongForm)
    ensures forall e :: e in StreamingOf(form) ==> FormProvider(e.0) && e.1 != ""
  {
    var links := FormLinks(form);
    forall e | e in StreamingOf(form) ensures FormProvider(e.0) {
      assert e in links;
      assert e == links[0] || e == links[1] || e == links[2] || e == links[3];
    }
  }

  /** `formData.artistIds.map((id) => Number(id))`. */
  function ParsedIds(texts: seq<string>, parse: NumberParse): (r: seq<Scalar>)
    ensures |r| == |texts|
    ensures forall i :: 0 <= i < |texts| ==> r[i] == Num(parse(texts[i]))
  {
    if texts == [] then [] else [Num(parse(texts[0]))] + ParsedIds(texts[1..], parse)
  }

  /** The payload `handleSubmit` passes to `addSong` or `updateSong`. */
  function Payload(form: SongForm, parse: NumberParse, priceOf: PriceParse): Song {
    Song(
      id := None, title := form.title, artist := None,
      artistIds := List(ParsedIds(form.artistIds, parse)), artistId := Absent,
      genres := Some(GenreList(CommaList(form.genres))),
      streaming := Some(StreamingOf(form)),
      price := Some(priceOf(form.price).GetOr(0)),
      duration := Some(form.duration), kind := Some(form.kind))
  }

  /** What the payload carries: no id (so an update keeps the song's own), one artist entry per
      selected id, genres that are non-empty, trimmed and comma-free, streaming links only for the
      form's providers and only with a url, and a price that is 0 when the text is not a number. */
  lemma PayloadShape(form: SongForm, parse: NumberParse, priceOf: PriceParse)
    ensures var r := Payload(form, parse, priceOf);
      && r.id.None? && r.artist.None? && r.artistId.Absent?
      && r.title == form.title
      && (priceOf(form.price).None? ==> r.price == Some(0))
      && (priceOf(form.price).Some? ==> r.price == priceOf(form.price))
      && r.duration == Some(form.duration) && r.kind == Some(form.kind)
      && r.artistIds.List? && |r.artistIds.values| == |form.artistIds|
      && (forall i :: 0 <= i < |form.artistIds| ==> r.artistIds.values[i] == Num(parse(form.artistIds[i])))
      && r.genres.Some? && r.genres.value.GenreList?
      && r.genres.value.names == CommaList(form.genres)
      && (forall g :: g in r.genres.value.names ==> g != "" && Trimmed(g) && ',' !in g)
      && r.streaming.Some? && r.streaming.value == StreamingOf(form)
      && (forall e :: e in r.streaming.value ==> FormProvider(e.0) && e.1 != "")
  {
    StreamingProviders(form);
  }

  /** `song.streaming?.[provider] || ''`: the url stored under the provider's key, or "" when
      the song has no streaming object or no entry for the provider. */
  function LinkFor(links: Option<Links>, provider: string): (r: string)
    ensures r != "" ==> links.Some? && (provider, r) in links.value
    ensures links.None? ==> r == ""
    ensures links.Some? && (forall e :: e in links.value ==> e.0 != provider) ==> r == ""
    ensures links.Some? ==> forall k :: (0 <= k < |links.value| && links.value[k].0 == provider &&
      (forall j :: 0 <= j < k ==> links.value[j].0 != provider)) ==> r == links.value[k].1
  {
    if links.None? then ""
    else FirstLink(links.value, provider)
  }

  /** The url of the first entry with the provider's key (an object has at most one). */
  function FirstLink(links: Links, provider: string): (r: string)
    ensures r != "" ==> (provider, r) in links
    ensures (forall e :: e in links ==> e.0 != provider) ==> r == ""
    ensures forall k :: (0 <= k < |links| && links[k].0 == provider &&
      (forall j :: 0 <= j < k ==> links[j].0 != provider)) ==> r == links[k].1
  {
    if links == [] then ""
    else if links[0].0 == provider then links[0].1
    else FirstLink(links[1..], provider)
  }

  /** A song `handleEdit` can load: the source calls `map` on `artistIds` and `join` on
      `genres`, which throws for a scalar or a string. */
  predicate Editable(song: Song) {
    !song.artistIds.Single? && !(song.genres.Some? && song.genres.value.GenreText?)
  }

  /** The form `handleEdit(song)` loads. */
  function FormOf(song: Song, format: NumberFormat, priceText: int -> string): (r: SongForm)
    requires Editable(song)
    ensures r.title == song.title
    ensures song.artistIds.Absent? ==> r.artistIds == []
    ensures song.artistIds.List? ==> r.artistIds == ScalarTexts(song.artistIds.values, format)
    ensures song.price.None? ==> r.price == ""
    ensures song.price.Some? ==> r.price == priceText(song.price.value)
    ensures r.duration == song.duration.GetOr("") && r.kind == song.kind.GetOr("")
    ensures song.genres.None? ==> r.genres == ""
    ensures song.genres.Some? ==> r.genres == Join(song.genres.value.names, ", ")
    ensures r.spotify == LinkFor(song.streaming, "spotify") && r.apple == LinkFor(song.streaming, "apple")
    ensures r.tidal == LinkFor(song.streaming, "tidal") && r.qobuz == LinkFor(song.streaming, "qobuz")
  {
    SongForm(
      title := song.title,
      artistIds := if song.artistIds.List? then ScalarTexts(song.artistIds.values, format) else [],
      price := if song.price.Some? then priceText(song.price.value) else "",
      duration := song.duration.GetOr(""),
      kind := song.kind.GetOr(""),
      genres := if song.genres.Some? then Join(song.genres.value.names, ", ") else "",
      spotify := LinkFor(song.streaming, "spotify"),
      apple := LinkFor(song.streaming, "apple"),
      tidal := LinkFor(song.streaming, "tidal"),
      qobuz := LinkFor(song.streaming, "qobuz"))
  }

  function ScalarTexts(values: seq<Scalar>, format: NumberFormat): (r: seq<string>)
    ensures |r| == |values|
    ensures forall i :: 0 <= i < |values| ==> r[i] == ScalarText(values[i], format)
  {
    if values == [] then [] else [ScalarText(values[0], format)] + ScalarTexts(values[1..], format)
  }

  lemma EditedIdsRoundTrip(ns: seq<int>, parse: NumberParse, format: NumberFormat)
    requires ParsesDecimals(parse) && FormatsDecimals(format)
    ensures ParsedIds(ScalarTexts(IdScalars(ns), format), parse) == IdScalars(ns)
  {
    var texts := ScalarTexts(IdScalars(ns), format);
    var ids := ParsedIds(texts, parse);
    forall i | 0 <= i < |ids| ensures ids[i] == IdScalars(ns)[i] {
      assert texts[i] == DecimalString(ns[i]);
    }
  }

  /** Loading a stored song into the form and submitting it unchanged gives back its title,
      artist ids, genres and (when present) price, duration and type. */
  lemma EditThenSubmit(song: Song, parse: NumberParse, format: NumberFormat, priceOf: PriceParse, priceText: int -> string)
    requires ParsesDecimals(parse) && FormatsDecimals(format) && PricesRoundTrip(priceOf, priceText)
    requires NormalizedIds(song.artistIds)
    requires song.genres.Some? && song.genres.value.GenreList?
    requires forall g :: g in song.genres.value.names ==> g != "" && Trimmed(g) && ',' !in g
    ensures Editable(song)
    ensures song.price.Some? ==> Payload(FormOf(song, format, priceText), parse, priceOf).price == song.price
    ensures var p := Payload(FormOf(song, format, priceText), parse, priceOf);
      && p.title == song.title
      && p.artistIds == song.artistIds
      && p.genres == song.genres
      && (song.duration.Some? ==> p.duration == song.duration)
      && (song.kind.Some? ==> p.kind == song.kind)
  {
    var form := FormOf(song, format, priceText);
    var ns :| Distinct(ns) && song.artistIds.values == IdScalars(ns);
    assert form.artistIds == ScalarTexts(IdScalars(ns), format);
    EditedIdsRoundTrip(ns, parse, format);
    var gs := song.genres.value.names;
    assert form.genres == Join(gs, ", ");
    assert forall i :: 0 <= i < |gs| ==> gs[i] in gs;
    CommaListOfJoin(gs);
    if song.price.Some? {
      EditKeepsPrice(song, parse, format, priceOf, priceText);
    }
  }

  lemma EditKeepsPrice(song: Song, parse: NumberParse, format: NumberFormat, priceOf: PriceParse, priceText: int -> string)
    requires PricesRoundTrip(priceOf, priceText) && Editable(song) && song.price.Some?
    ensures Payload(FormOf(song, format, priceText), parse, priceOf).price == song.price
  {
    PriceReadsBack(priceOf, priceText, song.price.value);
  }

  lemma PriceReadsBack(priceOf: PriceParse, priceText: int -> string, p: int)
    requires PricesRoundTrip(priceOf, priceText)
    ensures priceOf(priceText(p)) == Some(p)
  {
  }

  /** The song list `handleSubmit` leaves in the store: the edited song updated with the
      payload when `editingId` is truthy, otherwise the enriched payload added in front. */
  function SubmittedSongs(songs: seq<Song>, form: SongForm, editingId: Option<Scalar>, artists: seq<Artist>,
                          parse: NumberParse, priceOf: PriceParse, stamp: string): seq<Song> {
    var payload := Payload(form, parse, priceOf);
    if TruthyField(editingId) then UpdatedSongs(songs, editingId.value, payload, artists, parse, stamp)
    else [EnrichSong(payload, artists, parse, stamp)] + songs
  }

  /** Submitting while editing keeps the list's length and every song's id, rewrites only the
      edited song, and gives it the form's title; submitting otherwise puts one new song with a
      fresh `song_` id and the form's title in front of the others. */
  lemma SubmitEffect(songs: seq<Song>, form: SongForm, id: Option<Scalar>, artists: seq<Artist>,
                     parse: NumberParse, priceOf: PriceParse, stamp: string)
    requires form.title.Some?
    ensures var r := SubmittedSongs(songs, form, id, artists, parse, priceOf, stamp);
      && (TruthyField(id) ==>
            && |r| == |songs|
            && (forall i :: 0 <= i < |songs| ==> r[i].id == songs[i].id)
            && (forall i :: 0 <= i < |songs| && songs[i].id != id ==> r[i] == songs[i])
            && (forall i :: 0 <= i < |songs| && songs[i].id == id ==> r[i].title == form.title))
      && (!TruthyField(id) ==>
            && |r| == |songs| + 1 && r[1..] == songs
            && r[0].id == Some(Str("song_" + stamp)) && r[0].title == form.title)
  {
    var payload := Payload(form, parse, priceOf);
    PayloadShape(form, parse, priceOf);
    if TruthyField(id) {
      UpdateKeepsIds(songs, id.value, payload, artists, parse, stamp);
    }
  }

  /** The page's state cells: the form, the id being edited, and the URL's `artists` parameter. */
  class SongsPageState {
    var formData: SongForm
    var editingId: Option<Scalar>
    var artistsParam: Option<string>
    const format: NumberFormat
    const priceOf: PriceParse
    const priceText: int -> string

    constructor (param: Option<string>, format: NumberFormat, priceOf: PriceParse, priceText: int -> string)
      ensures formData == InitialForm([], format) && editingId == None && artistsParam == param
      ensures this.format == format && this.priceOf == priceOf && this.priceText == priceText
    {
      formData := InitialForm([], format);
      editingId := None;
      artistsParam := param;
      this.format := format;
      this.priceOf := priceOf;
      this.priceText := priceText;
    }

    /** The effect that preselects the first artist when the form has none selected. */
    method PreselectArtist(artists: seq<Artist>)
      modifies this`formData
      ensures old(formData.artistIds) == [] && |artists| > 0 ==>
        formData == old(formData).(artistIds := [IdText(artists[0].id, format)])
      ensures !(old(formData.artistIds) == [] && |artists| > 0) ==> formData == old(formData)
    {
      if |formData.artistIds| == 0 && |artists| > 0 {
        formData := formData.(artistIds := [IdText(artists[0].id, format)]);
      }
    }

    /** The effect that carries the URL's `artists` parameter into the store's filter. */
    method SyncFilterFromUrl(store: Store)
      requires store.Valid()
      modifies store`songFilter
      ensures store.Valid()
      ensures var request := FilterRequestFromUrl(artistsParam, old(store.songFilter), store.parse);
        store.songFilter == (if request.Some? then FilterFor(request.value, store.parse) else old(store.songFilter))
    {
      var request := FilterRequestFromUrl(artistsParam, store.songFilter, store.parse);
      if request.Some? {
        store.ApplySongFilter(request.value);
      }
    }

    /** The effect that writes the store's filter back into the URL; afterwards the two agree. */
    method SyncUrlFromFilter(store: Store)
      requires ParsesDecimals(store.parse)
      modifies this`artistsParam
      ensures var next := UrlFromFilter(old(artistsParam), store.songFilter, store.parse);
        artistsParam == (if next.Some? then next.value else old(artistsParam))
      ensures InSync(artistsParam, store.songFilter, store.parse)
    {
      UrlSyncSettles(artistsParam, store.songFilter, store.parse);
      var next := UrlFromFilter(artistsParam, store.songFilter, store.parse);
      if next.Some? {
        artistsParam := next.value;
      }
    }

    /** `toggleArtistSelection(artistId)`: `String(artistId)` flips in the selection, which keeps no duplicates. */
    method ToggleArtistSelection(artistId: Option<Scalar>)
      modifies this`formData
      ensures formData == old(formData).(artistIds := Toggle(old(formData.artistIds), IdText(artistId, format)))
      ensures IdText(artistId, format) in formData.artistIds <==> IdText(artistId, format) !in old(formData.artistIds)
      ensures forall k :: k != IdText(artistId, format) ==> (k in formData.artistIds <==> k in old(formData.artistIds))
      ensures Distinct(formData.artistIds)
    {
      formData := formData.(artistIds := Toggle(formData.artistIds, IdText(artistId, format)));
    }

    /** `toggleFilterArtist(artistId)`. */
    method ToggleFilterArtist(store: Store, artistId: Scalar)
      requires store.Valid()
      modifies store`songFilter
      ensures store.Valid()
      ensures store.songFilter == FilterFor(ToggleRequest(old(store.songFilter), artistId), store.parse)
    {
      store.ApplySongFilter(ToggleRequest(store.songFilter, artistId));
    }

    /** `resetForm`. */
    method ResetForm(artists: seq<Artist>)
      modifies this`formData, this`editingId
      ensures formData == InitialForm(artists, format) && editingId == None
    {
      formData := InitialForm(artists, format);
      editingId := None;
    }

    /** The store update of `handleSubmit` for a given form and edited id. */
    method Submit(store: Store, form: SongForm, id: Option<Scalar>, stamp: string)
      requires store.Valid()
      modifies store`songs
      ensures store.Valid()
      ensures store.songs == SubmittedSongs(old(store.songs), form, id, store.artists, store.parse, priceOf, stamp)
    {
      var payload := Payload(form, store.parse, priceOf);
      if TruthyField(id) {
        store.UpdateSong(id.value, payload, stamp);
      } else {
        store.AddSong(payload, stamp);
      }
    }

    /** `handleSubmit`: nothing without a title and an artist; otherwise update the edited song
        (when `editingId` is truthy) or add a new one, then reset the form. */
    method HandleSubmit(store: Store, stamp: string)
      requires store.Valid()
      modifies store`songs, this`formData, this`editingId
      ensures store.Valid()
      ensures !Submittable(old(formData)) ==>
        store.songs == old(store.songs) && formData == old(formData) && editingId == old(editingId)
      ensures Submittable(old(formData)) ==>
        && store.songs == SubmittedSongs(old(store.songs), old(formData), old(editingId), store.artists, store.parse, priceOf, stamp)
        && formData == InitialForm(store.artists, format) && editingId == None
    {
      if !Submittable(formData) {
        return;
      }
      Submit(store, formData, editingId, stamp);
      ResetForm(store.artists);
    }

    /** `handleEdit(song)`. */
    method HandleEdit(song: Song)
      requires Editable(song)
      modifies this`formData, this`editingId
      ensures editingId == song.id
      ensures formData == FormOf(song, format, priceText)
    {
      editingId := song.id;
      formData := FormOf(song, format, priceText);
    }

    /** `handleDelete(id)`: the form is reset only when the deleted song is the one being edited. */
    method HandleDelete(store: Store, id: Scalar)
      requires store.Valid()
      modifies store`songs, this`formData, this`editingId
      ensures store.Valid()
      ensures store.songs == Filter(old(store.songs), SongIdIsNot(id))
      ensures old(editingId) == Some(id) ==> formData == InitialForm(store.artists, format) && editingId == None
      ensures old(editingId) != Some(id) ==> formData == old(formData) && editingId == old(editingId)
    {
      store.DeleteSong(id);
      if editingId == Some(id) {
        ResetForm(store.artists);
      }
    }
  }
}
