/**
 * The application's own bookkeeping around the player: default song lengths,
 * the `--sid4` address argument, sub-tune stepping, the selection after a
 * removal, and the automatic advance when a tune's time is up.
 */
module App {
  import opened Common
  import opened Text
  import opened Playlists
  import Songlength

  // ---------------------------------------------------------------------------
  // Default lengths

  /** One entry of `apply_default_length`: a missing length becomes the default. */
  function WithDefault(e: PlaylistEntry, defaultSecs: nat): (r: PlaylistEntry)
    ensures r.durationSecs.Some?
    ensures e.durationSecs.Some? ==> r == e
    ensures e.durationSecs.None? ==> r == e.(durationSecs := Some(defaultSecs))
  {
    if e.durationSecs.None? then e.(durationSecs := Some(defaultSecs)) else e
  }

  /** `apply_default_length`: every entry without a length gets the default; the others are untouched. */
  method ApplyDefaultLength(playlist: Playlist, defaultSecs: nat)
    requires playlist.Valid()
    modifies playlist`entries
    ensures playlist.Valid()
    ensures |playlist.entries| == |old(playlist.entries)|
    ensures forall i :: 0 <= i < |playlist.entries| ==> playlist.entries[i] == WithDefault(old(playlist.entries[i]), defaultSecs)
  {
    var i := 0;
    while i < |playlist.entries|
      invariant 0 <= i <= |playlist.entries| == |old(playlist.entries)|
      invariant forall j :: 0 <= j < i ==> playlist.entries[j] == WithDefault(old(playlist.entries[j]), defaultSecs)
      invariant forall j :: i <= j < |playlist.entries| ==> playlist.entries[j] == old(playlist.entries[j])
      invariant playlist.Valid()
    {
      if playlist.entries[i].durationSecs.None? {
        playlist.entries := playlist.entries[i := playlist.entries[i].(durationSecs := Some(defaultSecs))];
      }
      i := i + 1;
    }
  }

  /** A second application of a default, whatever its value, changes nothing. */
  lemma WithDefaultIdempotent(e: PlaylistEntry, d1: nat, d2: nat)
    ensures WithDefault(WithDefault(e, d1), d2) == WithDefault(e, d1)
  {
  }

  /** `clear_default_lengths`: every entry loses its length, whatever set it. */
  method ClearDefaultLengths(playlist: Playlist)
    requires playlist.Valid()
    modifies playlist`entries
    ensures playlist.Valid()
    ensures |playlist.entries| == |old(playlist.entries)|
    ensures forall i :: 0 <= i < |playlist.entries| ==>
      playlist.entries[i] == old(playlist.entries[i]).(durationSecs := None)
  {
    var i := 0;
    while i < |playlist.entries|
      invariant 0 <= i <= |playlist.entries| == |old(playlist.entries)|
      invariant forall j :: 0 <= j < i ==> playlist.entries[j] == old(playlist.entries[j]).(durationSecs := None)
      invariant forall j :: i <= j < |playlist.entries| ==> playlist.entries[j] == old(playlist.entries[j])
      invariant playlist.Valid()
    {
      playlist.entries := playlist.entries[i := playlist.entries[i].(durationSecs := None)];
      i := i + 1;
    }
  }

  /**
   * After clearing, the database pass and then the default give each entry
   * its database length when there is one, else the default.
   */
  lemma ClearedThenDefaulted(db: map<string, seq<nat>>, e: PlaylistEntry, defaultSecs: nat)
    requires defaultSecs > 0
    ensures var r := WithDefault(Songlength.ApplyEntry(db, e.(durationSecs := None)), defaultSecs);
      && r == e.(durationSecs := r.durationSecs)
      && r.durationSecs == Some(
        if e.md5.Some? && Songlength.Lookup(db, e.md5.value, SatSub(e.selectedSong, 1)).Some?
        then Songlength.Lookup(db, e.md5.value, SatSub(e.selectedSong, 1)).value
        else defaultSecs)
  {
  }

  /**
   * One entry of `apply_songlengths`: the database pass when a database is
   * loaded, then the default only when one is set.
   */
  function SonglengthsPass(db: Option<map<string, seq<nat>>>, e: PlaylistEntry, defaultSecs: nat): (r: PlaylistEntry)
    ensures r == e.(durationSecs := r.durationSecs)
    ensures e.durationSecs.Some? ==> r == e
    ensures defaultSecs > 0 ==> r.durationSecs.Some?
  {
    var fromDb := if db.Some? then Songlength.ApplyEntry(db.value, e) else e;
    if defaultSecs > 0 then WithDefault(fromDb, defaultSecs) else fromDb
  }

  /**
   * Clearing and then `apply_songlengths` give each entry the length the
   * automatic advance gives a sub-tune: the database's, else the default
   * when one is set, else none. With the default at 0 an entry the
   * database does not know is left without a length.
   */
  lemma ClearedThenPass(db: Option<map<string, seq<nat>>>, e: PlaylistEntry, defaultSecs: nat)
    ensures SonglengthsPass(db, e.(durationSecs := None), defaultSecs)
      == e.(durationSecs := LengthFor(e.md5, db, SatSub(e.selectedSong, 1), defaultSecs))
    ensures defaultSecs == 0 && (db.None? || e.md5.None? || Songlength.Lookup(db.value, e.md5.value, SatSub(e.selectedSong, 1)).None?) ==>
      SonglengthsPass(db, e.(durationSecs := None), defaultSecs).durationSecs.None?
  {
  }

  // ---------------------------------------------------------------------------
  // The `--sid4` address

  /** `parse_hex_addr`: trimmed, one `$`, `0x` or `0X` prefix dropped, the rest read as a hex `u16`. */
  function ParseHexAddr(s: string): (r: Option<nat>)
    ensures r.Some? ==> r.value < U16_BOUND
  {
    ParseHexU16(HexBody(Trim(s)))
  }

  /** The text after an address prefix: one `$`, else one `0x` or `0X`, else all of it. */
  function HexBody(t: string): (r: string)
    ensures |t| >= 1 && t[0] == '$' ==> r == t[1..]
    ensures (|t| < 1 || t[0] != '$') && |t| >= 2 && t[0] == '0' && (t[1] == 'x' || t[1] == 'X') ==> r == t[2..]
    ensures |r| <= |t| && r == t[|t| - |r|..]
  {
    if |t| >= 1 && t[0] == '$' then t[1..]
    else if |t| >= 2 && t[0] == '0' && (t[1] == 'x' || t[1] == 'X') then t[2..]
    else t
  }

  function HexDigit(d: nat): (c: char)
    requires d < 16
    ensures IsHexDigit(c) && HexDigitValue(c) == d && ('0' <= c <= '9' || 'a' <= c <= 'f')
  {
    if d < 10 then ('0' as int + d) as char else ('a' as int + d - 10) as char
  }

  /** Lower-case hex digits without leading zeros. */
  function ShowHex(n: nat): (r: string)
    ensures r != [] && AllHex(r) && HexValue(r) == n
    ensures r[0] == '0' ==> n == 0 && |r| == 1
    ensures forall i :: 0 <= i < |r| ==> r[i] != '$' && r[i] != 'x' && r[i] != 'X' && r[i] != '+' && !IsSpace(r[i])
  {
    if n < 16 then [HexDigit(n)]
    else
      var r := ShowHex(n / 16) + [HexDigit(n % 16)];
      assert r[..|r| - 1] == ShowHex(n / 16);
      r
  }

  /** Hex digits that do not start with `+` read as their value. */
  lemma HexReads(h: string, n: nat)
    requires h != [] && h[0] != '+' && AllHex(h) && HexValue(h) == n < U16_BOUND
    ensures ParseHexU16(h) == Some(n)
  {
  }

  /** An address written as bare hex digits reads back. */
  lemma HexAddrBare(n: nat)
    requires n < U16_BOUND
    ensures ParseHexAddr(ShowHex(n)) == Some(n)
  {
    calc {
      ParseHexAddr(ShowHex(n));
      ParseHexU16(HexBody(Trim(ShowHex(n))));
      { TrimTrimmed(ShowHex(n)); }
      ParseHexU16(HexBody(ShowHex(n)));
      { BareBody(ShowHex(n)); }
      ParseHexU16(ShowHex(n));
      { HexReads(ShowHex(n), n); }
      Some(n);
    }
  }

  lemma BareBody(h: string)
    requires h != [] && h[0] != '$' && (|h| >= 2 ==> h[1] != 'x' && h[1] != 'X')
    ensures HexBody(h) == h
  {
  }

  /** An address written after `$` reads back. */
  lemma HexAddrDollar(n: nat)
    requires n < U16_BOUND
    ensures ParseHexAddr(['$'] + ShowHex(n)) == Some(n)
  {
    DollarReads(ShowHex(n), n);
  }

  lemma DollarReads(h: string, n: nat)
    requires h != [] && h[0] != '+' && !IsSpace(h[|h| - 1]) && AllHex(h) && HexValue(h) == n < U16_BOUND
    ensures ParseHexAddr(['$'] + h) == Some(n)
  {
    DollarAddr(h);
    HexReads(h, n);
  }

  /** After `$`, the address is the hex reading of the rest. */
  lemma DollarAddr(h: string)
    requires h != [] && !IsSpace(h[|h| - 1])
    ensures ParseHexAddr(['$'] + h) == ParseHexU16(h)
  {
    PrefixedTrimmed(['$'], h);
    DollarBody(h);
  }

  /** An address written after `0x` or `0X` reads back. */
  lemma HexAddrZeroX(n: nat, x: char)
    requires n < U16_BOUND && (x == 'x' || x == 'X')
    ensures ParseHexAddr(['0', x] + ShowHex(n)) == Some(n)
  {
    calc {
      ParseHexAddr(['0', x] + ShowHex(n));
      ParseHexU16(HexBody(Trim(['0', x] + ShowHex(n))));
      { PrefixedTrimmed(['0', x], ShowHex(n)); }
      ParseHexU16(HexBody(['0', x] + ShowHex(n)));
      { assert (['0', x] + ShowHex(n))[2..] == ShowHex(n); }
      ParseHexU16(ShowHex(n));
      { HexReads(ShowHex(n), n); }
      Some(n);
    }
  }

  lemma DollarBody(h: string)
    ensures HexBody(['$'] + h) == h
  {
    assert (['$'] + h)[1..] == h;
  }

  lemma PrefixedTrimmed(p: string, h: string)
    requires p != [] && !IsSpace(p[0]) && h != [] && !IsSpace(h[|h| - 1])
    ensures Trim(p + h) == p + h
  {
    assert (p + h)[0] == p[0] && (p + h)[|p + h| - 1] == h[|h| - 1];
    TrimTrimmed(p + h);
  }

  /** Nothing, or a bare prefix, is no address. */
  lemma HexAddrEmpty()
    ensures ParseHexAddr("") == None && ParseHexAddr("$") == None
    ensures ParseHexAddr("0x") == None && ParseHexAddr("0X") == None
  {
    BareAddrNone("");
    BareAddrNone("$");
    BareAddrNone("0x");
    BareAddrNone("0X");
  }

  /** A trimmed text whose prefix leaves no digits is no address. */
  lemma BareAddrNone(t: string)
    requires t == [] || (!IsSpace(t[0]) && !IsSpace(t[|t| - 1]))
    requires HexBody(t) == []
    ensures ParseHexAddr(t) == None
  {
    TrimTrimmed(t);
  }

  /** Digits past $FFFF are no address. */
  lemma HexAddrTooLarge(d: string)
    requires AllHex(d) && d != [] && HexValue(d) >= U16_BOUND
    ensures ParseHexAddr(['$'] + d) == None
  {
    DollarAddr(d);
  }

  // ---------------------------------------------------------------------------
  // Sub-tunes

  /** `NextSubtune`: the following sub-tune, capped at the count; sent only when it differs from the current one. */
  function NextSubtune(current: nat, songs: nat): (r: Option<nat>)
    requires current < U16_BOUND && songs < U16_BOUND
    ensures current < songs ==> r == Some(current + 1)
    ensures current == songs && songs + 1 < U16_BOUND ==> r == None
    ensures r.Some? ==> r.value <= songs && r.value != current
  {
    var next := Min((current + 1) % U16_BOUND, songs);
    assert current < songs ==> next == current + 1;
    if next != current then Some(next) else None
  }

  /** At the top of the `u16` range the increment wraps, and the request is for sub-tune 0. */
  lemma NextSubtuneWraps()
    ensures NextSubtune(U16_BOUND - 1, U16_BOUND - 1) == Some(0)
  {
    assert (U16_BOUND - 1 + 1) % U16_BOUND == 0;
  }

  /** `PrevSubtune`: the previous sub-tune, not below the first; sent only when it differs from the current one. */
  function PrevSubtune(current: nat): (r: Option<nat>)
    ensures current > 1 ==> r == Some(current - 1)
    ensures current == 1 ==> r == None
    ensures r.Some? ==> r.value >= 1 && r.value != current
  {
    var prev := Max(SatSub(current, 1), 1);
    if prev != current then Some(prev) else None
  }

  /** Stepping forward and back again returns to the same sub-tune. */
  lemma NextThenPrev(current: nat, songs: nat)
    requires 1 <= current < songs < U16_BOUND
    ensures NextSubtune(current, songs) == Some(current + 1)
    ensures PrevSubtune(current + 1) == Some(current)
  {
  }

  /** From any sub-tune in range, both steps stay in range. */
  lemma SubtuneStepsInRange(current: nat, songs: nat)
    requires 1 <= current <= songs < U16_BOUND - 1
    ensures NextSubtune(current, songs).Some? ==> 1 <= NextSubtune(current, songs).value <= songs
    ensures PrevSubtune(current).Some? ==> 1 <= PrevSubtune(current).value <= songs
  {
  }

  // ---------------------------------------------------------------------------
  // Removing the selected entry

  /** The selection after a removal: none in an empty list, else the same position clamped to the last entry. */
  function SelectionAfterRemove(idx: nat, len: nat): (r: Option<nat>)
    ensures r.None? <==> len == 0
    ensures r.Some? ==> r.value < len && (idx < len ==> r.value == idx) && (idx >= len ==> r.value == len - 1)
  {
    if len == 0 then None else Some(Min(idx, len - 1))
  }

  /**
   * `RemoveSelected`: with a selection, the player is stopped when the
   * selected entry is the playing one, the entry is removed and the
   * selection moves as `SelectionAfterRemove` says. Without one, nothing happens.
   */
  method RemoveSelected(playlist: Playlist, selected: Option<nat>) returns (sel: Option<nat>, stop: bool)
    requires playlist.Valid()
    modifies playlist`entries, playlist`current, playlist`shuffleOrder, playlist`shufflePos
    ensures playlist.Valid()
    ensures selected.None? ==>
      sel == None && !stop && playlist.entries == old(playlist.entries) && playlist.current == old(playlist.current)
    ensures selected.Some? ==> stop == (old(playlist.current) == selected)
    ensures selected.Some? && selected.value < |old(playlist.entries)| ==>
      playlist.entries == old(playlist.entries)[..selected.value] + old(playlist.entries)[selected.value + 1..]
    ensures selected.Some? && selected.value < |old(playlist.entries)| ==>
      playlist.current == AdjustCurrent(old(playlist.current), selected.value)
    ensures selected.Some? && selected.value >= |old(playlist.entries)| ==>
      playlist.entries == old(playlist.entries) && playlist.current == old(playlist.current)
    ensures selected.Some? ==> sel == SelectionAfterRemove(selected.value, |playlist.entries|)
    ensures sel.Some? ==> sel.value < |playlist.entries|
  {
    if selected.None? {
      return None, false;
    }
    var idx := selected.value;
    stop := playlist.current == Some(idx);
    playlist.Remove(idx);
    sel := SelectionAfterRemove(idx, |playlist.entries|);
  }

  // ---------------------------------------------------------------------------
  // Automatic advance

  /** What the advance asks of the player. */
  datatype Advance = Stay | SetSubtune(song: nat) | PlayTrack(idx: nat) | Stop

  /** A playing tune whose known length has run out. */
  predicate Due(entries: seq<PlaylistEntry>, current: Option<nat>, playing: bool, elapsed: nat)
  {
    && playing && current.Some? && current.value < |entries|
    && entries[current.value].durationSecs.Some? && elapsed >= entries[current.value].durationSecs.value
  }

  /** The length for sub-tune index `subtune`: the database's when it has one, else the default when that is set. */
  function LengthFor(md5: Option<string>, db: Option<map<string, seq<nat>>>, subtune: nat, defaultSecs: nat)
    : (r: Option<nat>)
    ensures r.None? <==> defaultSecs == 0 && (md5.None? || db.None? || Songlength.Lookup(db.value, md5.value, subtune).None?)
    ensures md5.Some? && db.Some? && Songlength.Lookup(db.value, md5.value, subtune).Some? ==>
      r == Songlength.Lookup(db.value, md5.value, subtune)
  {
    var fromDb := if md5.Some? && db.Some? then Songlength.Lookup(db.value, md5.value, subtune) else None;
    if fromDb.Some? then fromDb else if defaultSecs > 0 then Some(defaultSecs) else None
  }

  /**
   * The auto-advance step of the status poll. When the playing tune's time
   * is up: a tune with more sub-tunes moves to the next one, with that
   * sub-tune's length; the last sub-tune resets the entry to its first
   * sub-tune and the playlist moves on, or the player stops at its end.
   */
  method AutoAdvance(playlist: Playlist, playing: bool, elapsed: nat, db: Option<map<string, seq<nat>>>, defaultSecs: nat)
    returns (a: Advance)
    requires playlist.Valid()
    modifies playlist`entries, playlist`current, playlist`shuffleOrder, playlist`shufflePos
    ensures playlist.Valid() && |playlist.entries| == |old(playlist.entries)|
    ensures !Due(old(playlist.entries), old(playlist.current), playing, elapsed) ==>
      a == Stay && playlist.entries == old(playlist.entries) && playlist.current == old(playlist.current)
    ensures Due(old(playlist.entries), old(playlist.current), playing, elapsed) ==>
      var i := old(playlist.current).value;
      var e := old(playlist.entries)[i];
      if e.selectedSong < e.songs then
        && a == SetSubtune(e.selectedSong + 1)
        && playlist.entries == old(playlist.entries)[i := e.(selectedSong := e.selectedSong + 1,
             durationSecs := LengthFor(e.md5, db, e.selectedSong, defaultSecs))]
        && playlist.current == old(playlist.current) && playlist.shuffleOrder == old(playlist.shuffleOrder)
      else
        && playlist.entries == old(playlist.entries)[i := e.(selectedSong := 1,
             durationSecs := LengthFor(e.md5, db, 0, defaultSecs))]
        && (a.PlayTrack? || a == Stop)
        && (a.PlayTrack? ==> a.idx < |playlist.entries| && playlist.current == Some(a.idx))
        && (a == Stop ==> playlist.current == old(playlist.current))
        && (!playlist.shuffle && playlist.repeat != Single ==>
             (a == Stop <==> SequentialNext(old(playlist.current), |playlist.entries|, playlist.repeat).None?))
        && (!playlist.shuffle && playlist.repeat != Single && a.PlayTrack? ==>
             Some(a.idx) == SequentialNext(old(playlist.current), |playlist.entries|, playlist.repeat))
        && (playlist.repeat == Single ==> a == PlayTrack(i))
  {
    if !Due(playlist.entries, playlist.current, playing, elapsed) {
      return Stay;
    }
    var i := playlist.current.value;
    var e := playlist.entries[i];
    if e.selectedSong < e.songs {
      var next := e.selectedSong + 1;
      playlist.entries := playlist.entries[i := e.(selectedSong := next, durationSecs := LengthFor(e.md5, db, next - 1, defaultSecs))];
      return SetSubtune(next);
    }
    playlist.entries := playlist.entries[i := e.(selectedSong := 1, durationSecs := LengthFor(e.md5, db, 0, defaultSecs))];
    var r := playlist.Next();
    a := if r.Some? then PlayTrack(r.value) else Stop;
  }
}
