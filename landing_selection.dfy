/** The landing-page curation panel (src/components/admin/LandingSelectionManager.jsx): a draft
    of the featured song, artist and achievement ids, its toggles, the dirty check and the save
    guard. */
module LandingSelection {
  import opened Js
  import opened Collections

  /** The three id lists of a landing selection. */
  datatype Key = SongIds | ArtistIds | AchievementIds

  /** A landing selection: the ids, as strings, of the songs, artists and achievements on show. */
  datatype Selection = Selection(songIds: seq<string>, artistIds: seq<string>, achievementIds: seq<string>) {
    /** `selection[key]`. */
    function Get(key: Key): seq<string> {
      match key
      case SongIds => songIds
      case ArtistIds => artistIds
      case AchievementIds => achievementIds
    }

    /** `{ ...selection, [key]: ids }`. */
    function With(key: Key, ids: seq<string>): (r: Selection)
      ensures r.Get(key) == ids
      ensures forall k :: k != key ==> r.Get(k) == Get(k)
    {
      match key
      case SongIds => this.(songIds := ids)
      case ArtistIds => this.(artistIds := ids)
      case AchievementIds => this.(achievementIds := ids)
    }
  }

  /** The draft after `toggleId(key)(id)`: `id` is removed from `draft[key]` when present and
      added at the end otherwise, duplicates are dropped, and the other lists are untouched. */
  function Toggled(draft: Selection, key: Key, id: string): (r: Selection)
    ensures id in r.Get(key) <==> id !in draft.Get(key)
    ensures forall y :: y != id ==> (y in r.Get(key) <==> y in draft.Get(key))
    ensures Distinct(r.Get(key))
    ensures forall k :: k != key ==> r.Get(k) == draft.Get(k)
  {
    draft.With(key, Toggle(draft.Get(key), id))
  }

  /** Toggling the same id twice restores which ids each list holds (a re-added id moves to the
      end, so the order may differ). */
  lemma ToggledTwice(draft: Selection, key: Key, id: string)
    ensures forall y :: y in Toggled(Toggled(draft, key, id), key, id).Get(key) <==> y in draft.Get(key)
    ensures forall k :: k != key ==> Toggled(Toggled(draft, key, id), key, id).Get(k) == draft.Get(k)
  {
    ToggleTwice(draft.Get(key), id);
  }

  /** `JSON.stringify` of `{ songIds, artistIds, achievementIds }`. */
  type Serializer = Selection -> string

  /** `JSON.stringify` tells apart any two different selections of string arrays. */
  ghost predicate Injective(stringify: Serializer) {
    forall a: Selection, b: Selection {:trigger stringify(a), stringify(b)} :: stringify(a) == stringify(b) ==> a == b
  }

  /** `dirty`: the serialized draft differs from the serialized saved selection. */
  predicate IsDirty(draft: Selection, saved: Selection, stringify: Serializer) {
    stringify(draft) != stringify(saved)
  }

  /** The draft is dirty exactly when one of its three lists differs, as an ordered sequence,
      from the saved one. */
  lemma DirtyIffChanged(draft: Selection, saved: Selection, stringify: Serializer)
    requires Injective(stringify)
    ensures IsDirty(draft, saved, stringify) <==>
      draft.songIds != saved.songIds || draft.artistIds != saved.artistIds || draft.achievementIds != saved.achievementIds
  {
    if stringify(draft) == stringify(saved) {
      assert draft == saved;
    }
  }

  /** The panel's state cells. `landingSelection` is the saved selection the panel reads from
      `useCatalog()`; the catalogue context as written provides none, so here it is given to the
      constructor and to `SelectionChanged`. */
  class LandingSelectionManagerState {
    var landingSelection: Selection
    var draft: Selection
    var saving: bool
    var success: bool

    constructor (landingSelection: Selection)
      ensures this.landingSelection == landingSelection && draft == landingSelection
      ensures !saving && !success
    {
      this.landingSelection := landingSelection;
      draft := landingSelection;
      saving := false;
      success := false;
    }

    /** A new saved selection arrives; the effect on `[landingSelection]` resets the draft to it. */
    method SelectionChanged(selection: Selection)
      modifies this`landingSelection, this`draft
      ensures landingSelection == selection && draft == selection
    {
      landingSelection := selection;
      draft := selection;
    }

    /** `toggleId(key)(id)`. */
    method ToggleId(key: Key, id: string)
      modifies this`draft
      ensures draft == Toggled(old(draft), key, id)
    {
      draft := draft.With(key, Toggle(draft.Get(key), id));
    }

    /** `dirty`. */
    predicate Dirty(stringify: Serializer)
      reads this
    {
      IsDirty(draft, landingSelection, stringify)
    }

    /** `handleSave`: a non-admin gets nothing; otherwise the draft is sent to
        `updateLandingSelection`, whose outcome `saved` decides `success`, and `saving` ends
        false. Returns the selection sent, if any. */
    method HandleSave(isAdmin: bool, saved: bool) returns (sent: Option<Selection>)
      modifies this`saving, this`success
      ensures !isAdmin ==> sent == None && saving == old(saving) && success == old(success)
      ensures isAdmin ==> sent == Some(draft) && !saving && success == saved
    {
      if !isAdmin {
        return None;
      }
      saving := true;
      success := false;
      sent := Some(draft);
      if saved {
        success := true;
      }
      saving := false;
    }
  }
}
