# olive-audio-lab: a Dafny model of the catalogue, cart and page logic

olive-audio-lab is a React site for a music producer. It has a public catalogue of songs, artists
and achievements, a cart with checkout and billing history, admin pages that edit the catalogue,
and a few small rules: sign-up validation, the streaming-links dialog, the landing-page curation
panel and the route guard. This project models the state and list logic behind those features and
proves properties of it. Nothing is rendered, stored or sent over the network.

The model has one module per source file, plus two shared modules:

- `Js` (`js.dfy`) models the JavaScript primitives the code relies on:
  - `Option` fields for keys that may be missing, and object spread;
  - numbers and scalar ids;
  - truthiness;
  - `String.prototype.trim`, `split` and `join`, and UTF-16 length;
  - `parseList`-style comma lists.
- `Collections` (`collections.dfy`) models the array idioms: `filter`, `slice`, first-occurrence
  de-duplication, and the `new Set(...)` add/delete toggle.
- `Catalog` (`catalog.dfy`) models `src/context/CatalogContext.jsx`.
- `Cart` (`cart.dfy`) models `src/context/CartContext.jsx`.
- `SongsPage`, `ArtistsPage`, `AchievementsPage` and `CartPage` model the pages under `src/pages/`.
- `LandingSelection`, `Signup`, `StreamingDialog` and `ProtectedRoute` model the remaining
  components and pages.

React state cells are class fields. Each `setX(prev => ...)` is a method that reassigns the field
and states its new value. The catalogue and the cart are classes (`Catalog.Store`,
`Cart.CartStore`), and page handlers receive them as arguments.

Conventions:

- **Values the code cannot compute are parameters.** These are:
  - `Number(...)` on strings (`NumberParse`) and `String(...)` on numbers (`NumberFormat`);
  - the price text conversions;
  - `encodeURIComponent` and `JSON.stringify`;
  - the `Date.now()` text that `createId` appends (`stamp`);
  - the outcome of an awaited call.
- **Assumptions about those parameters are named predicates.** Lemmas that need an assumption
  require it by name:
  - `ParsesDecimals`: `Number(...)` reads the decimal numeral of an integer back as that integer;
  - `FormatsDecimals`: `String(n)` of an integer is its decimal numeral;
  - `PricesRoundTrip`;
  - `Injective`: for `JSON.stringify`;
  - `Decodes`: for `decodeURIComponent`.
- **Prices are integer cents.**
- **A missing key is `None`.** A key whose value is `null` or `undefined` is treated as missing.

Behaviour of the source that the proofs make visible:

- **Artists added through the artists page get text ids.** Their id is `artist_<ms>`, and `Number`
  turns that into NaN.
  - Viewing such an artist's songs clears the song filter instead of narrowing it
    (`ArtistsPage.ViewRequestFilter`).
  - A song's `artistIds` (integers only) can never refer to such an artist.
- **An `editingId` of `0` is falsy.** Submitting the song, artist or achievement form while
  editing an item with id 0 adds a new item instead of updating it.
- **Editing a song drops some streaming links.** Loading a song into the form and submitting it
  keeps only the four form providers. A `youtube` link is lost. `SongsPage.EditThenSubmit` states
  only what survives.
- **Repeated ids in the URL are rewritten.** A parameter such as `artists=1,1` normalises to the
  filter `[1]`. The second effect then rewrites the parameter to `1`, and after that both effects
  are idle (`SongsPage.UrlSyncSettles`).
- **Display names can go stale.**
  - `updateArtist` does not re-enrich songs, so an existing display name stays.
  - `deleteArtist` re-enriches the affected songs, but their stored `artist` field wins over the
    recomputed name.

## Model

| member | source | states |
|---|---|---|
| Cart.CartStore.constructor | src/context/CartContext.jsx:6-7 | the cart and the billing history start empty |
| Cart.CartStore.AddItem | src/context/CartContext.jsx:9-16 | an item whose id is already in the cart leaves the cart unchanged; otherwise it is appended at the end; ids stay pairwise distinct |
| Cart.CartStore.RemoveItem | src/context/CartContext.jsx:18-20 | exactly the items with that id are removed, the rest keep their order, and the billing history is untouched |
| Cart.CartStore.ClearCart | src/context/CartContext.jsx:22 | the cart becomes empty and the billing history is untouched |
| Cart.CartStore.RecordInvoice | src/context/CartContext.jsx:24-34 | the stamped invoice is put first in the billing history and the cart is left empty |
| Cart.CartStore.RemoveInvoice | src/context/CartContext.jsx:36-38 | only the invoices with that id are removed; none with that id is left; the cart is untouched |
| Cart.Stamped | src/context/CartContext.jsx:25-30 | the generated `inv_` id and timestamp are used only where the invoice has none; every other field is the invoice's own |
| Cart.Total | src/context/CartContext.jsx:49 | the total of no items is 0, of one item its price or 0 when it has none, and never negative when no price is |
| Cart.CartStore.TotalPrice | src/context/CartContext.jsx:49 | the context's `total` is the total of the current items |
| Cart.TotalAppend | src/context/CartContext.jsx:49 | the total of two lists together is the sum of their totals |
| Cart.TotalOfAppended | src/context/CartContext.jsx:49 | adding an item raises the total by its price, or by 0 when it has none |
| Cart.TotalSplitsById | src/context/CartContext.jsx:49 | the total splits into the items with and without a given id |
| Cart.OnlyOneWithId | src/context/CartContext.jsx:11-14 | in a cart with distinct ids, exactly one item carries a given item's id |
| Cart.TotalAfterRemove | src/context/CartContext.jsx:18-20 | removing an item from a cart with distinct ids lowers the total by exactly its price |
| CartPage.Recommendations | src/pages/Cart.jsx:16-19 | at most 3 songs; none shares an id with a cart item; they are the first eligible songs in catalogue order, and all of them when fewer than 3 are eligible |
| CartPage.InvoiceFor | src/pages/Cart.jsx:22-29 | the invoice copies amount, gateway, status, reference and customer from the payment, and the current cart items |
| CartPage.CheckoutPage.constructor | src/pages/Cart.jsx:13 | there is no last invoice at first |
| CartPage.CheckoutPage.HandlePaymentSuccess | src/pages/Cart.jsx:21-33 | the invoice built from the payment and the items at that moment is recorded first in the history, becomes the last invoice, and the cart is left empty |
| Catalog.Numbers | src/context/CatalogContext.jsx:12 | element by element, `Number` of each input value |
| Catalog.Integers | src/context/CatalogContext.jsx:13 | exactly the integers among the numbers, and no more values than numbers |
| Catalog.IntegersAppend | src/context/CatalogContext.jsx:13 | filtering keeps order and repetitions: the integers of a concatenation are those of each part, in turn |
| Catalog.IntegersOne | src/context/CatalogContext.jsx:13 | one number is kept exactly when it is an integer |
| Catalog.NormalizeArtistIds | src/context/CatalogContext.jsx:9-19 | for an array: the integers it converts to, without duplicates, in first-occurrence order; for a missing input: []; for a scalar: [n] when it converts to an integer n, else [] |
| Catalog.IntegersOfIdScalars | src/context/CatalogContext.jsx:11-13 | integer ids pass the conversion and the integer filter unchanged |
| Catalog.NormalizeStoredIds | src/context/CatalogContext.jsx:9-15 | normalising an already normalised list returns it unchanged |
| Catalog.NameOf | src/context/CatalogContext.jsx:64 | the name of the first artist with that id (which may itself be missing); with no such artist there is none |
| Catalog.ArtistNames | src/context/CatalogContext.jsx:63-65 | at most one name per id, and every kept name is non-empty |
| Catalog.ArtistNamesAppend | src/context/CatalogContext.jsx:63-65 | the names follow the order of the ids, repetitions included: the names of a concatenation are those of each part, in turn |
| Catalog.ArtistNamesOne | src/context/CatalogContext.jsx:63-65 | one id gives the name of the first artist holding it, or nothing when there is none or its name is missing or empty |
| Catalog.GenreNames | src/context/CatalogContext.jsx:69 | an array is kept as it is; a missing value gives []; a text gives itself alone, or nothing when it is empty |
| Catalog.EnrichSong | src/context/CatalogContext.jsx:59-77 | an input `id` or `artist` wins over the computed one (`song_<stamp>`, the joined names, the input's artist, or "Independent artist"); `artistIds` is the normalised `artistIds ?? artistId`; genres become a list; a missing `streaming` becomes empty; every other field is the input's |
| Catalog.MergeSong | src/context/CatalogContext.jsx:89 | `{...song, ...updates}`: each key the updates have wins, each other key keeps the song's value |
| Catalog.MergeSongLaws | src/context/CatalogContext.jsx:89 | spreading the same updates twice is spreading them once; two spreads in a row are one spread of the second over the first |
| Catalog.MergeArtist | src/context/CatalogContext.jsx:135 | `{...artist, ...updates}`, key by key as for songs |
| Catalog.MergeArtistLaws | src/context/CatalogContext.jsx:135 | spreading is idempotent and two spreads compose into one |
| Catalog.MergeAchievement | src/context/CatalogContext.jsx:163 | `{...achievement, ...updates}`, key by key as for songs |
| Catalog.MergeAchievementLaws | src/context/CatalogContext.jsx:163 | spreading is idempotent and two spreads compose into one |
| Catalog.UpdatedSongs | src/context/CatalogContext.jsx:89 | same length; songs without the id are unchanged; songs with the id become the enriched merge |
| Catalog.UpdateKeepsIds | src/context/CatalogContext.jsx:89 | an update without an `id` keeps every song's id |
| Catalog.UpdatedArtists | src/context/CatalogContext.jsx:135 | same length; only the artists with the id are merged with the update |
| Catalog.UpdatedAchievements | src/context/CatalogContext.jsx:163 | same length; only the achievements with the id are merged with the update |
| Catalog.NewArtist | src/context/CatalogContext.jsx:123-129 | a given id is kept and a missing one becomes `artist_<stamp>`; missing lists become empty; the other fields are the input's |
| Catalog.NewAchievement | src/context/CatalogContext.jsx:154-157 | a given id is kept and a missing one becomes `achievement_<stamp>`; the other fields are the input's |
| Catalog.SongWithoutArtist | src/context/CatalogContext.jsx:141-146 | a song that does not list the id is returned as it is; one that does is re-enriched without it (`DeleteArtistFromSong` states the rest) |
| Catalog.SongsWithoutArtist | src/context/CatalogContext.jsx:140-148 | every song is mapped through the per-song removal, and the length is kept |
| Catalog.DeleteArtistFromSong | src/context/CatalogContext.jsx:141-146 | the song no longer lists the id; a song that never listed it is unchanged; one that did keeps its other ids in order, its id, title, price and any display name it had |
| Catalog.FilterFor | src/context/CatalogContext.jsx:98-113 | no filter when the argument has no (truthy) `artistIds` or they normalise to []; otherwise the normalised ids |
| Catalog.FilterForValid | src/context/CatalogContext.jsx:98-113 | a filter that is set is a non-empty list of distinct integers |
| Catalog.Store.constructor | src/context/CatalogContext.jsx:52-55 | the bundled songs with normalised `artistIds`, the bundled artists and achievements, and the filter restored from the stored ids |
| Catalog.Store.AddSong | src/context/CatalogContext.jsx:80-85 | exactly one enriched song is put in front |
| Catalog.Store.UpdateSong | src/context/CatalogContext.jsx:87-92 | the songs become the updated list: same length, only the matching id changes |
| Catalog.Store.DeleteSong | src/context/CatalogContext.jsx:94-96 | exactly the songs with another id are kept, in order |
| Catalog.Store.ApplySongFilter | src/context/CatalogContext.jsx:98-113 | the filter becomes the normalised request, or none |
| Catalog.Store.ClearSongFilter | src/context/CatalogContext.jsx:115-118 | the filter becomes none |
| Catalog.Store.AddArtist | src/context/CatalogContext.jsx:121-132 | exactly one new artist is put in front |
| Catalog.Store.UpdateArtist | src/context/CatalogContext.jsx:134-136 | only the artists with the id are merged with the update |
| Catalog.Store.DeleteArtist | src/context/CatalogContext.jsx:138-149 | no artist has the id any more, no song lists it, and every song goes through the per-song removal |
| Catalog.Store.AddAchievement | src/context/CatalogContext.jsx:152-160 | exactly one new achievement is put in front |
| Catalog.Store.UpdateAchievement | src/context/CatalogContext.jsx:162-164 | only the achievements with the id are merged with the update |
| Catalog.Store.DeleteAchievement | src/context/CatalogContext.jsx:166-168 | exactly the achievements with another id are kept, and none has the id |
| Collections.Dedup | src/context/CatalogContext.jsx:14 | the same members as the input, each once |
| Collections.DedupKeepsFirstOccurrenceOrder | src/context/CatalogContext.jsx:14 | the kept values appear in the order of their first occurrence |
| Collections.DedupOfDistinct | src/context/CatalogContext.jsx:14 | de-duplicating a list without duplicates returns it unchanged |
| Collections.Take | src/pages/Cart.jsx:17 | `slice(0, n)`: the first min(n, length) elements |
| Collections.Toggle | src/pages/Songs.jsx:119-126 | the toggled value flips membership, every other value keeps its membership, and there are no duplicates |
| Collections.ToggleTwice | src/components/admin/LandingSelectionManager.jsx:79-85 | toggling the same value twice restores membership |
| Js.Split | src/pages/Songs.jsx:59 | at least one piece, and no piece contains the separator |
| Js.SplitAppend | src/pages/Songs.jsx:59 | splitting `a + sep + b` gives the pieces of `a` followed by those of `b` |
| Js.SplitPiece | src/pages/Songs.jsx:59 | a text without the separator is its own single piece |
| Js.SplitJoin | src/pages/Songs.jsx:56-64 | splitting a join of separator-free pieces gives the pieces back |
| Js.Trim | src/pages/Songs.jsx:60 | the result has no whitespace at either end, is no longer than the input, and a trimmed input is returned unchanged |
| Js.TrimStrips | src/pages/Songs.jsx:60 | the result is a contiguous slice of the input, and everything dropped before and after it is whitespace |
| Js.CommaList | src/pages/Artists.jsx:51-55 | every element is non-empty, trimmed and comma-free |
| Js.CommaListMembers | src/pages/Artists.jsx:51-55 | the elements are exactly the non-empty trimmed pieces between the commas |
| Js.CommaListAppend | src/pages/Artists.jsx:51-55 | reading `a,b` gives the list of `a` followed by the list of `b`, so the pieces keep their order and repetitions |
| Js.CommaListPiece | src/pages/Artists.jsx:51-55 | a text without commas reads as its trimmed self, or as [] when that is empty |
| Js.CommaListOfJoin | src/pages/Artists.jsx:51-55 | the comma list of `xs.join(', ')` is `xs` when every element is non-empty, trimmed and comma-free |
| Js.Utf16Length | src/pages/Signup.jsx:34 | between the number of code points and twice it; one character counts 2 outside the basic plane and 1 inside; equal to the code point count when no character lies outside |
| Js.Utf16LengthAppend | src/pages/Signup.jsx:34 | the length of a concatenation is the sum of the lengths |
| SongsPage.TrimmedNumbers | src/pages/Songs.jsx:60 | element by element, `Number` of each trimmed piece |
| SongsPage.TrimmedNumbersMembers | src/pages/Songs.jsx:59-60 | an integer is among the converted pieces exactly when some piece converts to it |
| SongsPage.ArtistsFromParam | src/pages/Songs.jsx:56-62 | [] for a missing or empty parameter; otherwise exactly the integers that some trimmed comma-separated piece converts to |
| SongsPage.ArtistsFromParamAppend | src/pages/Songs.jsx:56-62 | the ids of `a,b` are the ids of `a` followed by those of `b`: order and repetitions follow the text |
| SongsPage.ArtistsFromParamPiece | src/pages/Songs.jsx:56-62 | a parameter without commas names the one integer its trimmed text converts to, or none |
| SongsPage.ParamOf | src/pages/Songs.jsx:64-65 | `ids.join(',')` is empty exactly when there are no ids |
| SongsPage.IntegersOfDecimals | src/pages/Songs.jsx:56-62 | the decimal texts of integer ids convert back to those ids |
| SongsPage.ParamRoundTrip | src/pages/Songs.jsx:56-64 | a parameter written as `ids.join(',')` parses back to exactly `ids`, in order |
| SongsPage.FilterRequestFromUrl | src/pages/Songs.jsx:55-70 | the first effect calls `applySongFilter` exactly when the parameter and the filter disagree, passing null for no ids and the ids otherwise |
| SongsPage.UrlFromFilter | src/pages/Songs.jsx:72-93 | the second effect does nothing when both agree; otherwise it writes the filter's ids when there are any, and removes the parameter (which is then non-empty) when there are none |
| SongsPage.UrlSyncSettles | src/pages/Songs.jsx:72-93 | after the second effect writes the parameter, the parameter and the filter agree, so neither effect fires again |
| SongsPage.FilteredSongs | src/pages/Songs.jsx:95-104 | without active ids, all songs; otherwise exactly the songs sharing an artist id with the filter, in original order |
| SongsPage.ActiveArtists | src/pages/Songs.jsx:106-110 | without a filter, none; otherwise exactly the artists whose id the filter names, in list order |
| SongsPage.ToggleRequest | src/pages/Songs.jsx:131-143 | the request is a non-empty list without duplicates, or no filter; the toggled id is in it exactly when it was not in the filter, and every other id as before |
| SongsPage.ToggleFilterFlips | src/pages/Songs.jsx:131-143 | toggling an integer id flips its membership in the filter, keeps every other id's membership, and clears the filter exactly when no id is left |
| SongsPage.StreamingOf | src/pages/Songs.jsx:157-165 | exactly the form's provider links with a non-empty url, in form order |
| SongsPage.StreamingProviders | src/pages/Songs.jsx:157-165 | every streaming entry in the payload is one of the four form providers and has a url |
| SongsPage.ParsedIds | src/pages/Songs.jsx:169 | element by element, `Number` of each selected id |
| SongsPage.Payload | src/pages/Songs.jsx:167-178 | the payload object; `PayloadShape` states its fields |
| SongsPage.PayloadShape | src/pages/Songs.jsx:167-178 | the payload has no id and no artist, keeps the title, duration and type, has `Number` of each selected id in order, the comma list of the genres text, exactly the filled-in provider links in form order, and the parsed price or 0 when the text is not a number |
| SongsPage.LinkFor | src/pages/Songs.jsx:198-201 | the url of the song's entry for that provider when there is one; "" without a streaming object or without an entry for the provider |
| SongsPage.FirstLink | src/pages/Songs.jsx:198-201 | the url of the first entry with the provider's key, and "" when no entry has it |
| SongsPage.FormOf | src/pages/Songs.jsx:189-203 | field by field: the title; `String` of each artist id, none when missing; the price text or ""; duration and type or ""; the genres joined with ", " or ""; each provider's link |
| SongsPage.ScalarTexts | src/pages/Songs.jsx:193 | element by element, `String` of each id |
| SongsPage.EditedIdsRoundTrip | src/pages/Songs.jsx:193 | the texts of integer ids convert back to the same ids |
| SongsPage.EditThenSubmit | src/pages/Songs.jsx:167-203 | loading a stored song into the form and submitting it unchanged gives back its title, artist ids, genres and any price, duration and type |
| SongsPage.EditKeepsPrice | src/pages/Songs.jsx:194 | a song's price survives being written into the form and read back |
| SongsPage.SubmittedSongs | src/pages/Songs.jsx:180-184 | the song list after a submit; `SubmitEffect` states it |
| SongsPage.SubmitEffect | src/pages/Songs.jsx:180-186 | while editing: same length and ids, only the edited song changes, and it gets the form's title; otherwise: one new song with a `song_` id and the form's title is put in front |
| SongsPage.SongsPageState.constructor | src/pages/Songs.jsx:40-41 | the initial form with no artist selected, and no edited song |
| SongsPage.SongsPageState.PreselectArtist | src/pages/Songs.jsx:43-47 | with no artist selected and at least one artist, the first artist's id is selected; otherwise the form is unchanged |
| SongsPage.SongsPageState.SyncFilterFromUrl | src/pages/Songs.jsx:55-70 | the filter is set from the parameter's request when the two disagree, and unchanged otherwise |
| SongsPage.SongsPageState.SyncUrlFromFilter | src/pages/Songs.jsx:72-93 | the parameter is rewritten as the second effect decides, and afterwards it agrees with the filter |
| SongsPage.SongsPageState.ToggleArtistSelection | src/pages/Songs.jsx:117-129 | `String(artistId)` flips membership in the selection, other ids keep theirs, and there are no duplicates |
| SongsPage.SongsPageState.ToggleFilterArtist | src/pages/Songs.jsx:131-143 | the filter becomes the store's normalisation of the toggled id list |
| SongsPage.SongsPageState.ResetForm | src/pages/Songs.jsx:145-148 | the initial form with the first artist preselected, and no edited song |
| SongsPage.SongsPageState.Submit | src/pages/Songs.jsx:180-184 | the songs become the update of the edited song or the list with the new song in front |
| SongsPage.SongsPageState.HandleSubmit | src/pages/Songs.jsx:150-187 | without a title or an artist nothing changes; otherwise the songs are updated or extended, and the form is reset |
| SongsPage.SongsPageState.HandleEdit | src/pages/Songs.jsx:189-203 | the edited id becomes the song's id and the form is loaded from the song |
| SongsPage.SongsPageState.HandleDelete | src/pages/Songs.jsx:205-210 | the song is removed; the form is reset exactly when it was the one being edited |
| ArtistsPage.Payload | src/pages/Artists.jsx:61-68 | no id, so an update keeps the artist's own; name, role and bio as in the form; each list field read through `parseList` |
| ArtistsPage.PayloadShape | src/pages/Artists.jsx:61-68 | the payload has no id, keeps name, role and bio, and every list entry is non-empty, trimmed and comma-free |
| ArtistsPage.CommaListClean | src/pages/Artists.jsx:51-55 | every element `parseList` returns is non-empty, trimmed and comma-free |
| ArtistsPage.JoinReadsBack | src/pages/Artists.jsx:85-87 | a clean list shown as `xs.join(', ')` reads back as `xs` |
| ArtistsPage.EmptyReadsBack | src/pages/Artists.jsx:85-87 | a missing list, shown as "", reads back as [] |
| ArtistsPage.FormOf | src/pages/Artists.jsx:79-89 | name, role and bio are copied; each list is joined with ", ", and a missing one becomes "" |
| ArtistsPage.EditThenSubmit | src/pages/Artists.jsx:57-89 | editing an artist with clean lists and submitting unchanged leaves it as it was, except that a missing list becomes empty |
| ArtistsPage.ViewRequest | src/pages/Artists.jsx:36-37 | an id list holding the artist's id, or nothing when it has none |
| ArtistsPage.ViewRequestFilter | src/pages/Artists.jsx:36-37 | an integer id sets the filter to exactly that id; a missing id, or a text id that converts to a non-integer, clears it |
| ArtistsPage.ArtistsPageState.constructor | src/pages/Artists.jsx:29-30 | the initial form and no edited artist |
| ArtistsPage.ArtistsPageState.ResetForm | src/pages/Artists.jsx:46-49 | the form becomes `INITIAL_FORM` and no artist is edited |
| ArtistsPage.ArtistsPageState.Submit | src/pages/Artists.jsx:70-74 | a truthy edited id updates that artist with the payload; otherwise a new artist is put in front |
| ArtistsPage.ArtistsPageState.HandleSubmit | src/pages/Artists.jsx:57-77 | with an empty name nothing changes; otherwise update or add, then reset the form |
| ArtistsPage.ArtistsPageState.HandleEdit | src/pages/Artists.jsx:79-89 | the edited id becomes the artist's id and the form is loaded from the artist |
| ArtistsPage.ArtistsPageState.HandleDelete | src/pages/Artists.jsx:91-96 | the artist is deleted from the store; the form is reset if and only if it was the one being edited |
| ArtistsPage.ArtistsPageState.HandleViewSongs | src/pages/Artists.jsx:36-39 | the filter becomes the normalisation of `[artist.id]`, exactly that id when it is an integer |
| AchievementsPage.Payload | src/pages/Achievements.jsx:33-38 | exactly the four form fields, and no id |
| AchievementsPage.FormOf | src/pages/Achievements.jsx:49-57 | title, desc and year are copied; a missing category becomes "" |
| AchievementsPage.EditThenSubmit | src/pages/Achievements.jsx:33-57 | editing and submitting unchanged leaves the achievement as it was, except that a missing category becomes "" |
| AchievementsPage.AchievementsPageState.constructor | src/pages/Achievements.jsx:16-17 | the initial form and no edited achievement |
| AchievementsPage.AchievementsPageState.ResetForm | src/pages/Achievements.jsx:24-27 | the form becomes `INITIAL_FORM` and no achievement is edited |
| AchievementsPage.AchievementsPageState.Submit | src/pages/Achievements.jsx:40-44 | a truthy edited id updates that achievement; otherwise a new one is put in front |
| AchievementsPage.AchievementsPageState.HandleSubmit | src/pages/Achievements.jsx:29-47 | with an empty title nothing changes; otherwise update or add, then reset the form |
| AchievementsPage.AchievementsPageState.HandleEdit | src/pages/Achievements.jsx:49-57 | the edited id becomes the achievement's id and the form is loaded from it |
| AchievementsPage.AchievementsPageState.HandleDelete | src/pages/Achievements.jsx:59-64 | the achievement is removed; the form is reset exactly when it was the one being edited |
| LandingSelection.Toggled | src/components/admin/LandingSelectionManager.jsx:77-87 | the id flips membership in the chosen list, other ids keep theirs, the list has no duplicates, and the other two lists are unchanged |
| LandingSelection.ToggledTwice | src/components/admin/LandingSelectionManager.jsx:79-85 | toggling the same id twice restores which ids every list holds |
| LandingSelection.IsDirty | src/components/admin/LandingSelectionManager.jsx:135-145 | the two serialised selections differ; `DirtyIffChanged` states what that means |
| LandingSelection.DirtyIffChanged | src/components/admin/LandingSelectionManager.jsx:135-145 | the draft is dirty exactly when one of its three lists differs, as an ordered sequence, from the saved selection |
| LandingSelection.LandingSelectionManagerState.constructor | src/components/admin/LandingSelectionManager.jsx:69-71 | the draft starts as the saved selection, not saving and not succeeded |
| LandingSelection.LandingSelectionManagerState.SelectionChanged | src/components/admin/LandingSelectionManager.jsx:73-75 | a new saved selection resets the draft to it |
| LandingSelection.LandingSelectionManagerState.ToggleId | src/components/admin/LandingSelectionManager.jsx:77-87 | the draft becomes the toggled draft |
| LandingSelection.LandingSelectionManagerState.HandleSave | src/components/admin/LandingSelectionManager.jsx:119-133 | a non-admin sends nothing and changes nothing; an admin sends the draft, `success` reflects the outcome, and `saving` ends false |
| Signup.Validate | src/pages/Signup.jsx:24-42 | the email check comes first, then the password match, then the length of at least 6 UTF-16 units; a form is accepted exactly when all pass, and then with the trimmed email |
| Signup.MismatchBeforeLength | src/pages/Signup.jsx:29-37 | a password that both mismatches and is short gets the mismatch message |
| Signup.EmailFirst | src/pages/Signup.jsx:24-27 | with a bad email the passwords play no part |
| Signup.ErrorMessage | src/pages/Signup.jsx:48-56 | the three known codes get their messages and every other code the generic one |
| Signup.SignupPage.constructor | src/pages/Signup.jsx:12-13 | no error and not loading |
| Signup.SignupPage.HandleSubmit | src/pages/Signup.jsx:20-60 | a rejected form shows its message and registers nothing; an accepted one registers with the trimmed email, then shows no error and navigates, or shows the mapped message; `isLoading` ends false |
| StreamingDialog.Entries | src/components/SongStreamingDialog.jsx:14-15 | nothing without a song; otherwise exactly the streaming entries with a url, and none when `streaming` is missing |
| StreamingDialog.EntriesInOrder | src/components/SongStreamingDialog.jsx:15 | the listed entries keep the song's own order |
| StreamingDialog.Label | src/components/SongStreamingDialog.jsx:32 | the `PROVIDER_LABELS` entry for a known provider, else the provider key |
| StreamingDialog.LabelNonEmpty | src/components/SongStreamingDialog.jsx:32 | a non-empty key always gets a non-empty label |
| ProtectedRoute.Decide | src/components/routing/ProtectedRoute.jsx:9-17 | a signed-out user is sent to `/login?redirect=` and the encoded path and query; a signed-in user without the required role is sent to `/overview` |
| ProtectedRoute.RenderIff | src/components/routing/ProtectedRoute.jsx:9-17 | the children are rendered exactly when the user is signed in and no role is required or the user holds it |
| ProtectedRoute.AuthenticationFirst | src/components/routing/ProtectedRoute.jsx:9-15 | for a signed-out user the role makes no difference |
| ProtectedRoute.RedirectCarriesLocation | src/components/routing/ProtectedRoute.jsx:10 | decoding what follows the login prefix gives back the path and query |

## Left out

- Firebase authentication and Firestore (`src/context/AuthContext.jsx`). `register` and `updateLandingSelection` are reduced to their outcome, which is a parameter.
- Session storage of the song filter. `readStoredSongFilter` is reduced to the `artistIds` it finds, a parameter of `Catalog.Store.constructor`. `persistSongFilter` is a write to the browser and is not modelled.
- JavaScript's `Number(...)` and `String(...)`, `encodeURIComponent`, `JSON.stringify` and `Date.now()` are parameters. Their text formats are not modelled, so `Number("")` being 0 is possible but not fixed.
- Number ids are integers or one `NonInteger` value. That value stands for fractions, NaN and the infinities, which are never integers and never equal a stored id.
- A key present with the value `undefined` is treated as missing. In JavaScript, spreading such a key overwrites the field with `undefined`. On the pages this only happens for a field that the edited record itself lacks, so the model shows no difference.
- React scheduling, re-renders and navigation are not modelled. Effects are methods called explicitly. `navigate(...)` is only reported (`Signup.SignupPage.HandleSubmit`) or omitted (`ArtistsPage.ArtistsPageState.HandleViewSongs`).
- The `setTimeout` that clears `success` three seconds after a save is not modelled, nor are `alert` and `console` output.
- `SongsPage.SongsPageState.HandleEdit`: requires an `Editable` song, one whose `genres` is not a text and whose `artistIds` is not a single scalar. Stored songs always have an `artistIds` array (`Catalog.Store` keeps them normalised), so only the text `genres` case is excluded in practice: bundled songs keep their own `genres`, and for a text value the source's `join` would throw.
- JavaScript numbers are doubles; ids, prices and `Date.now()` stamps are unbounded integers here. `ParsesDecimals` and `FormatsDecimals` are assumptions that a real engine meets only for integers below 2^53 in magnitude (`String(n)` switches to exponent notation from 10^21 on). Proofs that require them say nothing about larger numbers.
- The catalogue context in `src/context/CatalogContext.jsx:170-190` provides neither `landingSelection` nor `updateLandingSelection`, so the landing panel as written would read `songIds` of `undefined` and throw. The model takes the saved selection as a constructor parameter (`LandingSelection.LandingSelectionManagerState.constructor`) and the outcome of the save as a parameter of `HandleSave`. The `loading` flag it also reads is not modelled.
- `SongsPage.EditThenSubmit`: states only the title, artist ids, genres, price, duration and type. Streaming links other than the four form providers, and the order of the kept ones, are not carried through the form.
- `ArtistsPage.EditThenSubmit`: requires every list entry to be non-empty, trimmed and comma-free. The source promises nothing for other entries, since `parseList` changes them.
- `Object.entries` lists integer-like keys first. Provider keys are words, so the model keeps insertion order.
- A `PROVIDER_LABELS` lookup of a key inherited from `Object.prototype` (such as `toString`) is not modelled.
- The option lists of the landing panel (`songOptions`, `artistOptions`, `achievementOptions`) and every rendered element are not modelled. They are rendering.
- Payment dialogs and their floating-point amount conversion are not modelled. Payments arrive as a `CartPage.Payment` value with an amount in cents.
