/**
 * The track list: entries, the playing position, repeat and shuffle modes,
 * and how `next`, `prev` and `remove` move the position.
 */
module Playlists {
  import opened Common

  /** What happens at the end of a track or of the list. */
  datatype RepeatMode = Off | All | Single

  /** The mode button: Off, All, Single, and round again. */
  function Cycle(m: RepeatMode): (r: RepeatMode)
    ensures r != m
  {
    match m
    case Off => All
    case All => Single
    case Single => Off
  }

  /** Three presses of the mode button bring back the mode, and no fewer do. */
  lemma CycleThrice(m: RepeatMode)
    ensures Cycle(Cycle(Cycle(m))) == m
    ensures Cycle(Cycle(m)) != m
  {
  }

  /** One tune in the list, as read from its file header. */
  datatype PlaylistEntry = PlaylistEntry(
    path: string,
    title: string,
    author: string,
    released: string,
    songs: nat,
    /** The sub-tune to play, counted from 1. */
    selectedSong: nat,
    isPal: bool,
    numSids: nat,
    isRsid: bool,
    md5: Option<string>,
    durationSecs: Option<nat>)

  /** `0..n` collected. */
  function Range(n: nat): (r: seq<nat>)
    ensures |r| == n && forall i :: 0 <= i < n ==> r[i] == i
  {
    seq(n, i requires 0 <= i => i)
  }

  /** The shuffle order holds every index of an `n`-entry list exactly once. */
  predicate IsPermutationOf(order: seq<nat>, n: nat)
  {
    multiset(order) == multiset(Range(n))
  }

  /** A permutation of `0..n` only holds valid indices. */
  lemma PermutationBounded(order: seq<nat>, n: nat, k: nat)
    requires IsPermutationOf(order, n) && k < |order|
    ensures order[k] < n
  {
    assert order[k] in multiset(order);
    assert order[k] in multiset(Range(n));
    var j :| 0 <= j < n && Range(n)[j] == order[k];
  }

  /** Sequential `next`: the following index, wrapping to 0 under All and ending otherwise. */
  function SequentialNext(current: Option<nat>, len: nat, repeat: RepeatMode): (r: Option<nat>)
    ensures r.Some? ==> r.value < len
  {
    var next := if current.Some? then current.value + 1 else 0;
    if next >= len then (if repeat == All && len > 0 then Some(0) else None) else Some(next)
  }

  /** Sequential `prev`: the previous index; from the first, the last under All and the first otherwise. */
  function SequentialPrev(current: Option<nat>, len: nat, repeat: RepeatMode): (r: Option<nat>)
    requires len > 0 && (current.Some? ==> current.value < len)
    ensures r.Some? && r.value < len
  {
    match current
    case Some(0) => if repeat == All then Some(len - 1) else Some(0)
    case Some(cur) => Some(cur - 1)
    case None => Some(0)
  }

  /** `k` presses of sequential `next` from no current track. */
  function NextTimes(len: nat, repeat: RepeatMode, k: nat): Option<nat>
  {
    if k == 0 then None else SequentialNext(NextTimes(len, repeat, k - 1), len, repeat)
  }

  /** Played from the start, the list comes out in order, each track once. */
  lemma {:induction false} SequentialPlaysInOrder(len: nat, repeat: RepeatMode, k: nat)
    requires 1 <= k <= len
    ensures NextTimes(len, repeat, k) == Some(k - 1)
  {
    if k > 1 {
      SequentialPlaysInOrder(len, repeat, k - 1);
    }
  }

  /** After the last track, playback ends without repeat and starts over with repeat All. */
  lemma SequentialEnd(len: nat, repeat: RepeatMode)
    requires len >= 1
    ensures repeat == Off ==> NextTimes(len, repeat, len + 1) == None
    ensures repeat == All ==> NextTimes(len, repeat, len + 1) == Some(0)
  {
    SequentialPlaysInOrder(len, repeat, len);
  }

  /** Where the playing index goes when entry `idx` is removed. */
  function AdjustCurrent(current: Option<nat>, idx: nat): Option<nat>
  {
    match current
    case None => None
    case Some(cur) => if idx < cur then Some(cur - 1) else if idx == cur then None else Some(cur)
  }

  class Playlist {
    var entries: seq<PlaylistEntry>
    /** The playing index into `entries`. */
    var current: Option<nat>
    var repeat: RepeatMode
    var shuffle: bool
    var shuffleOrder: seq<nat>
    /** The position within `shuffleOrder`. */
    var shufflePos: nat

    ghost predicate Valid()
      reads this
    {
      (current.Some? ==> current.value < |entries|) && IsPermutationOf(shuffleOrder, |entries|)
    }

    /** `new`: an empty list, no repeat, no shuffle. */
    constructor ()
      ensures Valid()
      ensures entries == [] && current == None && repeat == Off && !shuffle && shuffleOrder == [] && shufflePos == 0
    {
      entries, current, repeat, shuffle := [], None, Off, false;
      shuffleOrder, shufflePos := [], 0;
    }

    function Len(): (n: nat)
      reads this
      ensures n == |entries|
    {
      |entries|
    }

    /** `current_entry`: the playing entry, if the index names one. */
    function CurrentEntry(): (e: Option<PlaylistEntry>)
      reads this
      ensures e.Some? <==> current.Some? && current.value < |entries|
      ensures e.Some? ==> e.value == entries[current.value]
    {
      if current.Some? && current.value < |entries| then Some(entries[current.value]) else None
    }

    /** `reshuffle`: some order of all the indices, chosen at random, from its start. */
    method Reshuffle()
      modifies this`shuffleOrder, this`shufflePos
      ensures IsPermutationOf(shuffleOrder, |entries|) && shufflePos == 0
    {
      assert IsPermutationOf(Range(|entries|), |entries|);
      var order :| IsPermutationOf(order, |entries|);
      shuffleOrder, shufflePos := order, 0;
    }

    /** `rebuild_shuffle`: the order `0..len`, shuffled when shuffle is on. */
    method RebuildShuffle()
      modifies this`shuffleOrder, this`shufflePos
      ensures IsPermutationOf(shuffleOrder, |entries|)
      ensures !shuffle ==> shuffleOrder == Range(|entries|) && shufflePos == old(shufflePos)
      ensures shuffle ==> shufflePos == 0
    {
      shuffleOrder := Range(|entries|);
      if shuffle {
        Reshuffle();
      }
    }

    /** `add_entries` (and `add_file` with a parsed entry): appended, order rebuilt. */
    method AddEntries(es: seq<PlaylistEntry>)
      requires Valid()
      modifies this`entries, this`shuffleOrder, this`shufflePos
      ensures Valid() && entries == old(entries) + es
      ensures !shuffle ==> shuffleOrder == Range(|entries|) && shufflePos == old(shufflePos)
      ensures shuffle ==> shufflePos == 0
    {
      entries := entries + es;
      RebuildShuffle();
    }

    /** `add_file`: the entry read from the file is appended; a file that does not parse changes nothing. */
    method AddFile(parsed: Result<PlaylistEntry, string>) returns (r: Result<(), string>)
      requires Valid()
      modifies this`entries, this`shuffleOrder, this`shufflePos
      ensures Valid()
      ensures r.Ok? <==> parsed.Ok?
      ensures parsed.Ok? ==> entries == old(entries) + [parsed.value]
      ensures parsed.Err? ==> r == Err(parsed.error) && entries == old(entries) && shuffleOrder == old(shuffleOrder)
      ensures parsed.Err? ==> shufflePos == old(shufflePos)
      ensures parsed.Ok? && !shuffle ==> shuffleOrder == Range(|entries|) && shufflePos == old(shufflePos)
      ensures parsed.Ok? && shuffle ==> shufflePos == 0
    {
      if parsed.Err? {
        return Err(parsed.error);
      }
      entries := entries + [parsed.value];
      RebuildShuffle();
      r := Ok(());
    }

    /**
     * `remove`: an index past the end is ignored; otherwise the entry goes,
     * a playing index after it moves down so it still names the same tune,
     * the playing index itself is cleared, and the shuffle order is rebuilt.
     */
    method Remove(idx: nat)
      requires Valid()
      modifies this`entries, this`current, this`shuffleOrder, this`shufflePos
      ensures Valid()
      ensures idx >= |old(entries)| ==> entries == old(entries) && current == old(current) && shuffleOrder == old(shuffleOrder)
      ensures idx >= |old(entries)| ==> shufflePos == old(shufflePos)
      ensures idx < |old(entries)| && !shuffle ==> shuffleOrder == Range(|entries|) && shufflePos == old(shufflePos)
      ensures idx < |old(entries)| && shuffle ==> shufflePos == 0
      ensures idx < |old(entries)| ==> entries == old(entries[..idx]) + old(entries[idx + 1..])
      ensures idx < |old(entries)| ==> current == AdjustCurrent(old(current), idx)
      ensures old(current).Some? && old(current).value != idx && idx < |old(entries)| ==>
        current.Some? && entries[current.value] == old(entries[current.value])
    {
      if idx < |entries| {
        entries := entries[..idx] + entries[idx + 1..];
        current := AdjustCurrent(current, idx);
        RebuildShuffle();
      }
    }

    /** `clear`: no entries, nothing playing, no shuffle order. */
    method Clear()
      modifies this`entries, this`current, this`shuffleOrder
      ensures Valid() && entries == [] && current == None && shuffleOrder == []
    {
      entries, current, shuffleOrder := [], None, [];
      assert IsPermutationOf([], 0);
    }

    /**
     * `next`: nothing for an empty list; the playing index again under
     * Single; otherwise the next index of the shuffle order or of the list,
     * which becomes the playing one. At the end, All starts over (with a
     * fresh shuffle) and Off ends without moving.
     */
    method Next() returns (r: Option<nat>)
      requires Valid()
      modifies this`current, this`shuffleOrder, this`shufflePos
      ensures Valid()
      ensures r.Some? ==> r.value < |entries|
      ensures entries == [] ==> r == None && current == old(current)
      ensures entries != [] && repeat == Single ==> r == old(current) && current == old(current)
      ensures entries != [] && repeat != Single && !shuffle ==> r == SequentialNext(old(current), |entries|, repeat)
      ensures entries != [] && repeat != Single && shuffle ==>
        (old(shufflePos) + 1 < |old(shuffleOrder)| ==> r == Some(old(shuffleOrder)[old(shufflePos) + 1]))
        && (old(shufflePos) + 1 >= |old(shuffleOrder)| && repeat == Off ==> r == None)
        && (old(shufflePos) + 1 >= |old(shuffleOrder)| && repeat == All ==> r == Some(shuffleOrder[0]) && shufflePos == 0)
      ensures entries == [] || repeat == Single || !shuffle ==>
        shuffleOrder == old(shuffleOrder) && shufflePos == old(shufflePos)
      ensures entries != [] && repeat != Single && shuffle && (old(shufflePos) + 1 < |old(shuffleOrder)| || repeat == Off) ==>
        shuffleOrder == old(shuffleOrder) && shufflePos == old(shufflePos) + 1
      ensures current == if r.Some? then r else old(current)
    {
      if entries == [] {
        return None;
      }
      if repeat == Single {
        return current;
      }
      if shuffle {
        shufflePos := shufflePos + 1;
        if shufflePos >= |shuffleOrder| {
          if repeat == All {
            Reshuffle();
            shufflePos := 0;
          } else {
            return None;
          }
        }
        if shufflePos < |shuffleOrder| {
          PermutationBounded(shuffleOrder, |entries|, shufflePos);
          r := Some(shuffleOrder[shufflePos]);
        } else {
          r := None;
        }
      } else {
        var next := if current.Some? then current.value + 1 else 0;
        if next >= |entries| {
          r := if repeat == All then Some(0) else None;
        } else {
          r := Some(next);
        }
      }
      if r.Some? {
        current := r;
      }
    }

    /**
     * `prev`: nothing for an empty list; otherwise the previous position of
     * the shuffle order (the first when already there), or the sequential
     * previous index; the result becomes the playing one.
     */
    method Prev() returns (r: Option<nat>)
      requires Valid()
      modifies this`current, this`shufflePos
      ensures Valid()
      ensures r.Some? ==> r.value < |entries|
      ensures entries == [] ==> r == None
      ensures entries != [] && !shuffle ==> r == SequentialPrev(old(current), |entries|, repeat)
      ensures entries != [] && shuffle ==>
        (old(shufflePos) > 0 ==>
           (shufflePos == old(shufflePos) - 1 && r == (if shufflePos < |shuffleOrder| then Some(shuffleOrder[shufflePos]) else None)))
        && (old(shufflePos) == 0 ==> r == Some(shuffleOrder[0]))
      ensures entries == [] || !shuffle || old(shufflePos) == 0 ==> shufflePos == old(shufflePos)
      ensures current == if r.Some? then r else old(current)
    {
      if entries == [] {
        return None;
      }
      if shuffle {
        if shufflePos > 0 {
          shufflePos := shufflePos - 1;
          if shufflePos < |shuffleOrder| {
            PermutationBounded(shuffleOrder, |entries|, shufflePos);
            r := Some(shuffleOrder[shufflePos]);
          } else {
            r := None;
          }
        } else {
          PermutationBounded(shuffleOrder, |entries|, 0);
          r := Some(shuffleOrder[0]);
        }
      } else {
        match current
        case Some(0) =>
          r := if repeat == All then Some(|entries| - 1) else Some(0);
        case Some(cur) =>
          r := Some(cur - 1);
        case None =>
          r := Some(0);
      }
      if r.Some? {
        current := r;
      }
    }

    /** `toggle_shuffle`: shuffle flips; switching it on shuffles afresh. */
    method ToggleShuffle()
      requires Valid()
      modifies this`shuffle, this`shuffleOrder, this`shufflePos
      ensures Valid() && shuffle == !old(shuffle)
      ensures shuffle ==> shufflePos == 0
      ensures !shuffle ==> shuffleOrder == old(shuffleOrder) && shufflePos == old(shufflePos)
    {
      shuffle := !shuffle;
      if shuffle {
        Reshuffle();
      }
    }

    /** `cycle_repeat`: the next repeat mode. */
    method CycleRepeat()
      modifies this`repeat
      ensures repeat == Cycle(old(repeat))
    {
      repeat := Cycle(repeat);
    }
  }
}
