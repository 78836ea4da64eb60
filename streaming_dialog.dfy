/** The streaming-links dialog (src/components/SongStreamingDialog.jsx): which provider entries it
    lists, and the label shown for each. */
module StreamingDialog {
  import opened Js
  import opened Collections
  import opened Catalog

  /** `PROVIDER_LABELS`. */
  const ProviderLabels: map<string, string> := map[
    "spotify" := "Spotify",
    "apple" := "Apple Music",
    "tidal" := "Tidal",
    "qobuz" := "Qobuz",
    "youtube" := "YouTube Music"]

  /** The entries the dialog lists: `None` when there is no song (nothing is rendered), otherwise
      the song's streaming entries that have a url, in their own order, with a missing
      `streaming` object giving none. */
  function Entries(song: Option<Song>): (r: Option<Links>)
    ensures song.None? <==> r.None?
    ensures song.Some? && song.value.streaming.None? ==> r == Some([])
    ensures song.Some? ==> forall e :: e in r.value <==> e in song.value.streaming.GetOr([]) && e.1 != ""
  {
    if song.None? then None else Some(Filter(song.value.streaming.GetOr([]), HasUrl()))
  }

  /** The listed entries keep the order of the song's own entries. */
  lemma EntriesInOrder(song: Song)
    ensures Subsequence(Entries(Some(song)).value, song.streaming.GetOr([]))
  {
    FilterIsSubsequence(song.streaming.GetOr([]), HasUrl());
  }

  /** `PROVIDER_LABELS[provider] || provider`: the known label, else the key itself. */
  function Label(provider: string): (r: string)
    ensures provider in ProviderLabels ==> r == ProviderLabels[provider]
    ensures provider !in ProviderLabels ==> r == provider
  {
    if provider in ProviderLabels && ProviderLabels[provider] != "" then ProviderLabels[provider] else provider
  }

  /** A provider with a non-empty key always gets a non-empty label. */
  lemma LabelNonEmpty(provider: string)
    requires provider != ""
    ensures Label(provider) != ""
  {
  }
}
