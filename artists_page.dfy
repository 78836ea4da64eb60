/** The artists page (src/pages/Artists.jsx): the artist form, its handlers, and the jump to
    the songs of one artist. */
module ArtistsPage {
  import opened Js
  import opened Collections
  import opened Catalog

  /** The form state. `name`, `role` and `bio` are copied from the edited artist and may be
      missing; the three lists are comma-separated text. */
  datatype ArtistForm = ArtistForm(
    name: Option<string>, role: Option<string>, bio: Option<string>,
    genres: string, honors: string, notableWorks: string)

  /** `INITIAL_FORM`. */
  const InitialForm := ArtistForm(Some(""), Some(""), Some(""), "", "", "")

  /** `!formData.name` fails. */
  predicate Submittable(form: ArtistForm) {
    form.name.Some? && form.name.value != ""
  }

  /** The payload `handleSubmit` passes to `addArtist` or `updateArtist`; every list goes
      through `parseList`. */
  function Payload(form: ArtistForm): (r: Artist)
    ensures r.id.None?
    ensures r.name == form.name && r.role == form.role && r.bio == form.bio
    ensures r.genres == Some(CommaList(form.genres)) && r.honors == Some(CommaList(form.honors))
    ensures r.notableWorks == Some(CommaList(form.notableWorks))
  {
    Artist(
      id := None, name := form.name, role := form.role, bio := form.bio,
      genres := Some(CommaList(form.genres)),
      honors := Some(CommaList(form.honors)),
      notableWorks := Some(CommaList(form.notableWorks)))
  }

  /** A list an artist can hold and the form can show and read back unchanged. */
  predicate CleanList(xs: seq<string>) {
    forall x :: x in xs ==> x != "" && Trimmed(x) && ',' !in x
  }

  /** The payload has no id, so an update keeps the artist's own, and every list entry is
      non-empty, trimmed and comma-free. */
  lemma PayloadShape(form: ArtistForm)
    ensures var r := Payload(form);
      && r.id.None?
      && r.name == form.name && r.role == form.role && r.bio == form.bio
      && r.genres.Some? && CleanList(r.genres.value)
      && r.honors.Some? && CleanList(r.honors.value)
      && r.notableWorks.Some? && CleanList(r.notableWorks.value)
  {
    CommaListClean(form.genres);
    CommaListClean(form.honors);
    CommaListClean(form.notableWorks);
  }

  lemma CommaListClean(value: string)
    ensures CleanList(CommaList(value))
  {
  }

  /** `list?.join(', ') || ''`. */
  function ListText(list: Option<seq<string>>): string {
    if list.Some? then Join(list.value, ", ") else ""
  }

  /** The form `handleEdit(artist)` loads. */
  function FormOf(artist: Artist): (r: ArtistForm)
    ensures r.name == artist.name && r.role == artist.role && r.bio == artist.bio
    ensures artist.genres.None? ==> r.genres == ""
    ensures artist.genres.Some? ==> r.genres == Join(artist.genres.value, ", ")
    ensures artist.honors.None? ==> r.honors == ""
    ensures artist.honors.Some? ==> r.honors == Join(artist.honors.value, ", ")
    ensures artist.notableWorks.None? ==> r.notableWorks == ""
    ensures artist.notableWorks.Some? ==> r.notableWorks == Join(artist.notableWorks.value, ", ")
  {
    ArtistForm(artist.name, artist.role, artist.bio,
      ListText(artist.genres), ListText(artist.honors), ListText(artist.notableWorks))
  }

  /** A clean list shown in the form reads back as the list. */
  lemma JoinReadsBack(xs: seq<string>)
    requires CleanList(xs)
    ensures CommaList(Join(xs, ", ")) == xs
  {
    assert forall i :: 0 <= i < |xs| ==> xs[i] in xs;
    CommaListOfJoin(xs);
  }

  /** An empty list field reads back as the empty list. */
  lemma EmptyReadsBack()
    ensures CommaList("") == []
  {
    assert Split("", ',') == [""];
    assert TrimAll([""]) == [""];
  }

  /** The lists of an artist the form can show and read back: each missing or clean. */
  predicate CleanLists(artist: Artist) {
    && (artist.genres.Some? ==> CleanList(artist.genres.value))
    && (artist.honors.Some? ==> CleanList(artist.honors.value))
    && (artist.notableWorks.Some? ==> CleanList(artist.notableWorks.value))
  }

  /** Editing an artist and submitting the form unchanged leaves the artist as it was, except
      that a missing list becomes an empty one. */
  lemma EditThenSubmit(artist: Artist)
    requires CleanLists(artist)
    ensures MergeArtist(artist, Payload(FormOf(artist))) ==
      artist.(genres := Some(artist.genres.GetOr([])), honors := Some(artist.honors.GetOr([])),
              notableWorks := Some(artist.notableWorks.GetOr([])))
  {
    if artist.genres.Some? { JoinReadsBack(artist.genres.value); } else { EmptyReadsBack(); }
    if artist.honors.Some? { JoinReadsBack(artist.honors.value); } else { EmptyReadsBack(); }
    if artist.notableWorks.Some? { JoinReadsBack(artist.notableWorks.value); } else { EmptyReadsBack(); }
  }

  /** What `handleViewSongs(artist)` passes as `artistIds`: `[artist.id]`. A missing id would
      be `[undefined]`, which normalises to nothing, like the empty list used for it here. */
  function ViewRequest(artist: Artist): (r: IdList)
    ensures r.List? && |r.values| <= 1
    ensures artist.id.Some? ==> r.values == [artist.id.value]
  {
    if artist.id.Some? then List([artist.id.value]) else List([])
  }

  /** Viewing the songs of an artist with an integer id filters by exactly that id; any other
      id (a missing one, or the `artist_` text ids `addArtist` creates whenever `Number` reads
      it as NaN) clears the filter. */
  lemma ViewRequestFilter(artist: Artist, parse: NumberParse)
    ensures artist.id.Some? && artist.id.value.Num? && artist.id.value.n.Int? ==>
      FilterFor(ViewRequest(artist), parse) == Some([artist.id.value.n.value])
    ensures artist.id.None? ==> FilterFor(ViewRequest(artist), parse) == None
    ensures artist.id.Some? && artist.id.value.Str? && parse(artist.id.value.s).NonInteger? ==>
      FilterFor(ViewRequest(artist), parse) == None
  {
    if artist.id.Some? {
      var values := [artist.id.value];
      var ints := Integers(Numbers(values, parse));
      assert Numbers(values, parse) == [ToNumber(artist.id.value, parse)];
      if ToNumber(artist.id.value, parse).Int? {
        assert ints == [ToNumber(artist.id.value, parse).value];
        assert Dedup(ints) == ints by {
          DedupOfDistinct(ints);
        }
      } else {
        assert ints == [];
      }
    } else {
      assert Numbers([], parse) == [];
    }
  }

  /** The page's state cells. */
  class ArtistsPageState {
    var formData: ArtistForm
    var editingId: Option<Scalar>

    constructor ()
      ensures formData == InitialForm && editingId == None
    {
      formData := InitialForm;
      editingId := None;
    }

    /** `resetForm`. */
    method ResetForm()
      modifies this`formData, this`editingId
      ensures formData == InitialForm && editingId == None
    {
      formData := InitialForm;
      editingId := None;
    }

    /** The store update of `handleSubmit`: update the edited artist when `id` is truthy, add a
        new one otherwise. */
    method Submit(store: Store, form: ArtistForm, id: Option<Scalar>, stamp: string)
      requires store.Valid()
      modifies store`artists
      ensures store.Valid()
      ensures TruthyField(id) ==> store.artists == UpdatedArtists(old(store.artists), id.value, Payload(form))
      ensures !TruthyField(id) ==> store.artists == [NewArtist(Payload(form), stamp)] + old(store.artists)
    {
      if TruthyField(id) {
        store.UpdateArtist(id.value, Payload(form));
      } else {
        store.AddArtist(Payload(form), stamp);
      }
    }

    /** `handleSubmit`: nothing without a name; otherwise update or add, then reset the form. */
    method HandleSubmit(store: Store, stamp: string)
      requires store.Valid()
      modifies store`artists, this`formData, this`editingId
      ensures store.Valid()
      ensures !Submittable(old(formData)) ==>
        store.artists == old(store.artists) && formData == old(formData) && editingId == old(editingId)
      ensures Submittable(old(formData)) && TruthyField(old(editingId)) ==>
        store.artists == UpdatedArtists(old(store.artists), old(editingId).value, Payload(old(formData)))
      ensures Submittable(old(formData)) && !TruthyField(old(editingId)) ==>
        store.artists == [NewArtist(Payload(old(formData)), stamp)] + old(store.artists)
      ensures Submittable(old(formData)) ==> formData == InitialForm && editingId == None
    {
      if !Submittable(formData) {
        return;
      }
      Submit(store, formData, editingId, stamp);
      ResetForm();
    }

    /** `handleEdit(artist)`. */
    method HandleEdit(artist: Artist)
      modifies this`formData, this`editingId
      ensures editingId == artist.id && formData == FormOf(artist)
    {
      editingId := artist.id;
      formData := FormOf(artist);
    }

    /** `handleDelete(id)`: the form is reset exactly when the deleted artist is the one being edited. */
    method HandleDelete(store: Store, id: Scalar, stamp: string)
      requires store.Valid()
      modifies store`artists, store`songs, this`formData, this`editingId
      ensures store.Valid()
      ensures store.artists == Filter(old(store.artists), ArtistIdIsNot(id))
      ensures store.songs == SongsWithoutArtist(old(store.songs), id, old(store.artists), store.parse, stamp)
      ensures old(editingId) == Some(id) ==> formData == InitialForm && editingId == None
      ensures old(editingId) != Some(id) ==> formData == old(formData) && editingId == old(editingId)
    {
      store.DeleteArtist(id, stamp);
      if editingId == Some(id) {
        ResetForm();
      }
    }

    /** `handleViewSongs(artist)`: the song filter becomes the artist's id (navigation is not modelled). */
    method HandleViewSongs(store: Store, artist: Artist)
      requires store.Valid()
      modifies store`songFilter
      ensures store.Valid()
      ensures store.songFilter == FilterFor(ViewRequest(artist), store.parse)
      ensures artist.id.Some? && artist.id.value.Num? && artist.id.value.n.Int? ==>
        store.songFilter == Some([artist.id.value.n.value])
    {
      ViewRequestFilter(artist, store.parse);
      store.ApplySongFilter(ViewRequest(artist));
    }
  }
}
