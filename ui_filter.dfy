/**
 * The playlist view's search: which entries a query and the favourites-only
 * switch leave visible, and how a play time is shown.
 */
module UiFilter {
  import opened Common
  import opened Text
  import opened Playlists
  import AppConfig
  import Songlength

  /** `format_duration`: whole minutes, a colon, and the seconds as two digits. */
  function FormatDuration(secs: nat): string
  {
    ShowNat(secs / 60) + ":" + Pad2(secs % 60)
  }

  /** A shown play time reads back, through the song-length parser, as the same number of seconds. */
  lemma DurationReadsBack(secs: nat)
    requires secs / 60 < U32_BOUND
    ensures Songlength.ParseTime(FormatDuration(secs)) == Some(secs)
  {
    var m, sec := secs / 60, secs % 60;
    calc {
      Songlength.ParseTime(FormatDuration(secs));
      { FormatParts(secs, m, sec); }
      Songlength.ParseTime(ShowNat(m) + ":" + Pad2(sec) + []);
      { Songlength.TimeFormats(m, sec, []); }
      Some(m * 60 + sec);
      { FormatParts(secs, m, sec); }
      Some(secs);
    }
  }

  lemma FormatParts(secs: nat, m: nat, sec: nat)
    requires m == secs / 60 && sec == secs % 60
    ensures FormatDuration(secs) == ShowNat(m) + ":" + Pad2(sec) + []
    ensures m * 60 + sec == secs
  {
  }

  /** `PlaylistEntry::format_duration`: the known length, or a dash placeholder. */
  function EntryDuration(e: PlaylistEntry): (r: string)
    ensures e.durationSecs.Some? ==> r == FormatDuration(e.durationSecs.value)
    ensures e.durationSecs.None? ==> r == "—:——"
  {
    match e.durationSecs
    case Some(s) => FormatDuration(s)
    case None => "—:——"
  }

  /** The favourites-only switch: when on, the entry needs an MD5 the favourites hold. */
  predicate PassesFavorites(e: PlaylistEntry, favoritesOnly: bool, favorites: set<string>)
  {
    !favoritesOnly || (e.md5.Some? && AppConfig.InFavorites(favorites, e.md5.value))
  }

  /** The tune format's name as the search sees it. */
  function TypeName(e: PlaylistEntry): string
  {
    if e.isRsid then "rsid" else "psid"
  }

  /** The text search for a lowercased query `q`. */
  predicate PassesQuery(e: PlaylistEntry, q: string)
  {
    || q == []
    || Contains(ToLower(e.title), q)
    || Contains(ToLower(e.author), q)
    || Contains(ToLower(e.released), q)
    || Contains(ToLower(e.path), q)
    || Contains(TypeName(e), q)
  }

  predicate Matches(e: PlaylistEntry, query: string, favoritesOnly: bool, favorites: set<string>)
  {
    PassesFavorites(e, favoritesOnly, favorites) && PassesQuery(e, ToLower(query))
  }

  /** `filter_playlist`: the positions of the entries that pass both filters, in order. */
  function FilterPlaylist(entries: seq<PlaylistEntry>, query: string, favoritesOnly: bool, favorites: set<string>)
    : (r: seq<nat>)
    ensures forall j :: 0 <= j < |r| ==> r[j] < |entries| && Matches(entries[r[j]], query, favoritesOnly, favorites)
    ensures forall i, j :: 0 <= i < j < |r| ==> r[i] < r[j]
    ensures forall i :: 0 <= i < |entries| && Matches(entries[i], query, favoritesOnly, favorites) ==> i in r
  {
    if entries == [] then []
    else
      var n := |entries| - 1;
      var head := FilterPlaylist(entries[..n], query, favoritesOnly, favorites);
      assert forall i :: 0 <= i < n ==> entries[..n][i] == entries[i];
      if Matches(entries[n], query, favoritesOnly, favorites) then head + [n] else head
  }

  /** With the switch on, only entries whose MD5 is a favourite are shown; entries without an MD5 never are. */
  lemma FavoritesOnlyShown(entries: seq<PlaylistEntry>, query: string, favorites: set<string>, i: nat)
    requires i in FilterPlaylist(entries, query, true, favorites)
    ensures i < |entries| && entries[i].md5.Some?
    ensures ToLower(entries[i].md5.value) in favorites
  {
    var r := FilterPlaylist(entries, query, true, favorites);
    var j :| 0 <= j < |r| && r[j] == i;
  }

  /** With no query and the switch off, every entry is shown. */
  lemma {:induction false} EmptyQueryShowsAll(entries: seq<PlaylistEntry>, favorites: set<string>)
    ensures FilterPlaylist(entries, [], false, favorites) == Range(|entries|)
    decreases |entries|
  {
    if entries != [] {
      var n := |entries| - 1;
      EmptyQueryShowsAll(entries[..n], favorites);
      assert Matches(entries[n], [], false, favorites);
      assert Range(n) + [n] == Range(n + 1);
    }
  }

  /** The query's letter case does not matter. */
  lemma {:induction false} QueryCaseIgnored(entries: seq<PlaylistEntry>, query: string, favoritesOnly: bool, favorites: set<string>)
    ensures FilterPlaylist(entries, ToLower(query), favoritesOnly, favorites) == FilterPlaylist(entries, query, favoritesOnly, favorites)
    decreases |entries|
  {
    LowerIdempotent(query);
    if entries != [] {
      QueryCaseIgnored(entries[..|entries| - 1], query, favoritesOnly, favorites);
    }
  }

  /** Turning the switch on only hides entries. */
  lemma FavoritesNarrow(entries: seq<PlaylistEntry>, query: string, favorites: set<string>, i: nat)
    requires i in FilterPlaylist(entries, query, true, favorites)
    ensures i in FilterPlaylist(entries, query, false, favorites)
  {
    var r := FilterPlaylist(entries, query, true, favorites);
    var j :| 0 <= j < |r| && r[j] == i;
    assert Matches(entries[i], query, false, favorites);
  }

  /** The query `rsid` shows every RSID tune, and `psid` every PSID tune. */
  lemma FormatQuery(entries: seq<PlaylistEntry>, favorites: set<string>, i: nat)
    requires i < |entries|
    ensures i in FilterPlaylist(entries, TypeName(entries[i]), false, favorites)
  {
    var q := TypeName(entries[i]);
    assert ToLower(q) == q;
    assert StartsWith(q, q);
    assert Matches(entries[i], q, false, favorites);
  }
}
