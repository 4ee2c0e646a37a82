/**
 * The HVSC Songlength database: lines `MD5=m:ss m:ss ...` giving each
 * sub-tune's length, looked up by a tune's MD5 to fill in playlist durations.
 */
module Songlength {
  import opened Common
  import opened Text
  import opened Playlists

  /** `split(c).next()`: the text before the first `c`, or all of it. */
  function Before(s: string, c: char): (r: string)
    ensures c !in r && StartsWith(s, r)
    ensures c !in s ==> r == s
  {
    match Find(s, c)
    case None => s
    case Some(i) => s[..i]
  }

  /** The first `c` of `a + b`, when `a` has none, is the first of `b` moved along by `|a|`. */
  lemma {:induction false} FindAppend(a: string, b: string, c: char)
    requires c !in a
    ensures Find(a + b, c) == if Find(b, c).Some? then Some(|a| + Find(b, c).value) else None
    decreases |a|
  {
    if a == [] {
      assert a + b == b;
    } else {
      assert (a + b)[1..] == a[1..] + b;
      assert a[0] != c;
      FindAppend(a[1..], b, c);
    }
  }

  /** Text without `c` in front of the first `c` passes through `Before` unchanged. */
  lemma {:induction false} BeforeAppend(a: string, b: string, c: char)
    requires c !in a
    ensures Before(a + b, c) == a + Before(b, c)
  {
    FindAppend(a, b, c);
    if Find(b, c).Some? {
      var i := Find(b, c).value;
      assert (a + b)[..|a| + i] == a + b[..i];
    }
  }

  /**
   * `parse_songlength_time`: after trimming and cutting at the first `(`,
   * the minutes before the first `:` and the seconds before any `.`, both
   * unsigned, give `m * 60 + s`; anything else is no time.
   */
  function ParseTime(s: string): (r: Option<nat>)
    ensures r.Some? ==> ':' in Trim(s)
    ensures r.Some? ==> r.value < 61 * U32_BOUND
  {
    ParseClock(Before(Trim(s), '('))
  }

  /** `m:ss` with an optional fraction after a `.`. */
  function ParseClock(t: string): Option<nat>
  {
    match SplitOnce(t, ':')
    case None => None
    case Some(parts) => ParseMinSec(parts.0, Before(parts.1, '.'))
  }

  function ParseMinSec(minStr: string, secStr: string): Option<nat>
  {
    match ParseU32(minStr)
    case None => None
    case Some(m) =>
      match ParseU32(secStr)
      case None => None
      case Some(sec) => Some(m * 60 + sec)
  }

  /** A time with a non-numeric minutes part is no time. */
  lemma ParseTimeNeedsNumbers(s: string)
    requires var t := Before(Trim(s), '(');
      SplitOnce(t, ':').Some? && ParseU32(SplitOnce(t, ':').value.0).None?
    ensures ParseTime(s) == None
  {
  }

  /**
   * The database's time formats: `m:ss`, `m:ss.fff` and `m:ss(X)` all read
   * as `m * 60 + ss`.
   */
  lemma {:induction false} TimeFormats(m: nat, sec: nat, tail: string)
    requires m < U32_BOUND && sec < 60
    requires NoSpace(tail) && (tail == [] || tail[0] == '.' || tail[0] == '(')
    ensures ParseTime(ShowNat(m) + ":" + Pad2(sec) + tail) == Some(m * 60 + sec)
  {
    ParseShow(m, U32_BOUND);
    ParseShow2(sec);
    ClockText(ShowNat(m), Pad2(sec), tail, m, sec);
  }

  /** The same for any digit strings that read as `m` and `sec`. */
  lemma {:induction false} ClockText(mm: string, ss: string, tail: string, m: nat, sec: nat)
    requires AllDigits(mm) && AllDigits(ss)
    requires ParseU32(mm) == Some(m) && ParseU32(ss) == Some(sec)
    requires NoSpace(tail) && (tail == [] || tail[0] == '.' || tail[0] == '(')
    ensures ParseTime(mm + ":" + ss + tail) == Some(m * 60 + sec)
  {
    var rest := Before(tail, '(');
    TimeCut(mm, ss, tail);
    TailCut(tail);
    Regroup(mm, ss, rest);
    TimeHead(mm, ss);
    SplitAt(mm, ss + rest, ':');
    assert '.' !in ss by {
      forall k | 0 <= k < |ss| ensures ss[k] != '.' {
        assert IsDigit(ss[k]);
      }
    }
    BeforeStop(ss, rest, '.');
    var t := mm + [':'] + (ss + rest);
    assert ParseTime(mm + ":" + ss + tail) == ParseClock(t);
    assert ParseClock(t) == ParseMinSec(mm, ss);
    MinSec(mm, ss, m, sec);
  }

  lemma MinSec(minStr: string, secStr: string, m: nat, sec: nat)
    requires ParseU32(minStr) == Some(m) && ParseU32(secStr) == Some(sec)
    ensures ParseMinSec(minStr, secStr) == Some(m * 60 + sec)
  {
  }

  /** Trimming and cutting at `(` leave the `m:ss` head and at most a `.` part. */
  lemma {:induction false} TimeCut(mm: string, ss: string, tail: string)
    requires AllDigits(mm) && AllDigits(ss)
    requires NoSpace(tail) && (tail == [] || tail[0] == '.' || tail[0] == '(')
    ensures Before(Trim(mm + ":" + ss + tail), '(') == mm + ":" + ss + Before(tail, '(')
  {
    var head := mm + ":" + ss;
    TimeHead(mm, ss);
    NoSpaceAppend(head, tail);
    NoSpaceTrim(head + tail);
    BeforeAppend(head, tail, '(');
  }

  /** What is left of the tail after the cut is empty or starts with `.`. */
  lemma {:induction false} TailCut(tail: string)
    requires tail == [] || tail[0] == '.' || tail[0] == '('
    ensures Before(tail, '(') == [] || Before(tail, '(')[0] == '.'
  {
    if tail != [] && tail[0] == '(' {
      BeforeStop([], tail, '(');
      assert [] + tail == tail;
    }
  }

  lemma {:induction false} Regroup(a: string, b: string, c: string)
    ensures a + ":" + b + c == a + [':'] + (b + c)
  {
  }

  /** The `m:ss` head has no whitespace and no `(`. */
  lemma {:induction false} TimeHead(mm: string, ss: string)
    requires AllDigits(mm) && AllDigits(ss)
    ensures NoSpace(mm + ":" + ss) && '(' !in mm + ":" + ss
  {
    var head := mm + ":" + ss;
    forall k | 0 <= k < |head| ensures !IsSpace(head[k]) && head[k] != '(' {
      if k < |mm| { assert head[k] == mm[k]; }
      else if k > |mm| { assert head[k] == ss[k - |mm| - 1]; }
    }
  }

  /** `Before` stops at the end of a text without `c` when `c` or nothing follows. */
  lemma {:induction false} BeforeStop(a: string, b: string, c: char)
    requires c !in a && (b == [] || b[0] == c)
    ensures Before(a + b, c) == a
  {
    if b == [] {
      assert a + b == a;
    } else {
      FindAfter(a, b, c);
      assert (a + b)[..|a|] == a;
    }
  }

  /** Two padded digits read back as their value. */
  lemma {:induction false} ParseShow2(sec: nat)
    requires sec < 60
    ensures ParseU32(Pad2(sec)) == Some(sec)
  {
    var ss := Pad2(sec);
    assert IsDigit(ss[0]);
  }

  /** A line's entry: a 32-character key before the first `=` and the lengths after it, each plus one second. */
  function LineEntry(line: string): (r: Option<(string, seq<nat>)>)
    ensures r.Some? ==> IsLower(r.value.0) && |r.value.0| <= 32 && r.value.1 != []
    ensures r.Some? ==> forall i :: 0 <= i < |r.value.1| ==> r.value.1[i] >= 1
  {
    var l := Trim(line);
    if l == [] || l[0] == ';' || l[0] == '#' || l[0] == '[' then None
    else
      match Find(l, '=')
      case None => None
      case Some(eq) =>
        var md5Str := l[..eq];
        if |md5Str| != 32 then None
        else
          var durations := Lengths(SplitWhitespace(l[eq + 1..]));
          LowerIdempotent(Trim(md5Str));
          if durations == [] then None else Some((ToLower(Trim(md5Str)), durations))
  }

  /** The words that read as times, in order, each plus one second. */
  function Lengths(words: seq<string>): (r: seq<nat>)
    ensures |r| <= |words| && forall i :: 0 <= i < |r| ==> r[i] >= 1
  {
    if words == [] then []
    else
      var head := Lengths(words[..|words| - 1]);
      match ParseTime(words[|words| - 1])
      case None => head
      case Some(t) =>
        var d: nat := t + 1;
        head + [d]
  }

  /** The database after its lines in order; a later line for the same key replaces the earlier. */
  function LoadLines(lines: seq<string>): map<string, seq<nat>>
  {
    if lines == [] then map[]
    else
      Insert(LoadLines(lines[..|lines| - 1]), LineEntry(lines[|lines| - 1]))
  }

  /** A line's entry, if any, stored under its key. */
  function Insert(db: map<string, seq<nat>>, e: Option<(string, seq<nat>)>): map<string, seq<nat>>
  {
    if e.Some? then db[e.value.0 := e.value.1] else db
  }

  /** Every key of a loaded database is a lowercase MD5 of at most 32 characters with at least one length. */
  ghost predicate WellFormed(db: map<string, seq<nat>>)
  {
    forall k :: k in db ==> IsLower(k) && |k| <= 32 && db[k] != [] && forall i :: 0 <= i < |db[k]| ==> db[k][i] >= 1
  }

  lemma {:induction false} LoadLinesWellFormed(lines: seq<string>)
    ensures WellFormed(LoadLines(lines))
    decreases |lines|
  {
    if lines != [] {
      LoadLinesWellFormed(lines[..|lines| - 1]);
      InsertKeepsWellFormed(LoadLines(lines[..|lines| - 1]), LineEntry(lines[|lines| - 1]));
    }
  }

  lemma InsertKeepsWellFormed(db: map<string, seq<nat>>, e: Option<(string, seq<nat>)>)
    requires WellFormed(db)
    requires e.Some? ==> IsLower(e.value.0) && |e.value.0| <= 32 && e.value.1 != []
    requires e.Some? ==> forall i :: 0 <= i < |e.value.1| ==> e.value.1[i] >= 1
    ensures WellFormed(Insert(db, e))
  {
  }

  lemma LoadLinesSnoc(lines: seq<string>, i: nat)
    requires i < |lines|
    ensures LoadLines(lines[..i + 1]) == Insert(LoadLines(lines[..i]), LineEntry(lines[i]))
  {
    assert lines[..i + 1][..i] == lines[..i];
  }

  /** `SonglengthDb::load` on the file's text: each line's entry inserted in order. */
  method Load(content: string) returns (db: map<string, seq<nat>>)
    ensures db == LoadLines(Lines(content))
    ensures WellFormed(db)
  {
    var lines := Lines(content);
    db := map[];
    var i := 0;
    while i < |lines|
      invariant 0 <= i <= |lines|
      invariant db == LoadLines(lines[..i])
    {
      var e := LineEntry(lines[i]);
      ghost var before := db;
      if e.Some? {
        db := db[e.value.0 := e.value.1];
      }
      LoadLinesSnoc(lines, i);
      assert db == Insert(before, e) == LoadLines(lines[..i + 1]);
      i := i + 1;
    }
    assert lines[..i] == lines;
    LoadLinesWellFormed(lines);
  }

  /** `lookup`: the length of sub-tune `subtune` (from 0) of the tune with this MD5, in any case. */
  function Lookup(db: map<string, seq<nat>>, md5: string, subtune: nat): (r: Option<nat>)
    ensures r.Some? <==> ToLower(md5) in db && subtune < |db[ToLower(md5)]|
    ensures r.Some? ==> r.value == db[ToLower(md5)][subtune]
  {
    var key := ToLower(md5);
    if key in db && subtune < |db[key]| then Some(db[key][subtune]) else None
  }

  /** Lookup ignores letter case. */
  lemma LookupCaseInsensitive(db: map<string, seq<nat>>, md5: string, subtune: nat)
    ensures Lookup(db, md5, subtune) == Lookup(db, ToLower(md5), subtune)
  {
    LowerIdempotent(md5);
  }

  /** `lookup_all`: every length of the tune. */
  function LookupAll(db: map<string, seq<nat>>, md5: string): (r: Option<seq<nat>>)
    ensures r.Some? <==> ToLower(md5) in db
    ensures r.Some? ==> forall i :: 0 <= i < |r.value| ==> Lookup(db, md5, i) == Some(r.value[i])
  {
    if ToLower(md5) in db then Some(db[ToLower(md5)]) else None
  }

  /**
   * One entry of `apply_to_playlist`: a known length is kept; otherwise the
   * length of the selected sub-tune is filled in when the database has it.
   */
  function ApplyEntry(db: map<string, seq<nat>>, e: PlaylistEntry): (r: PlaylistEntry)
    ensures e.durationSecs.Some? ==> r == e
    ensures r == e.(durationSecs := r.durationSecs)
    ensures e.durationSecs.None? ==>
      r.durationSecs == (if e.md5.Some? then Lookup(db, e.md5.value, SatSub(e.selectedSong, 1)) else None)
  {
    if e.durationSecs.Some? then e
    else if e.md5.Some? then
      match Lookup(db, e.md5.value, SatSub(e.selectedSong, 1))
      case Some(d) => e.(durationSecs := Some(d))
      case None => e
    else e
  }

  /** `apply_to_playlist`: every entry of the list updated in place by `ApplyEntry`. */
  method ApplyToPlaylist(db: map<string, seq<nat>>, playlist: Playlist)
    requires playlist.Valid()
    modifies playlist`entries
    ensures playlist.Valid()
    ensures |playlist.entries| == |old(playlist.entries)|
    ensures forall i :: 0 <= i < |playlist.entries| ==> playlist.entries[i] == ApplyEntry(db, old(playlist.entries[i]))
  {
    var i := 0;
    while i < |playlist.entries|
      invariant 0 <= i <= |playlist.entries| == |old(playlist.entries)|
      invariant forall j :: 0 <= j < i ==> playlist.entries[j] == ApplyEntry(db, old(playlist.entries[j]))
      invariant forall j :: i <= j < |playlist.entries| ==> playlist.entries[j] == old(playlist.entries[j])
      invariant playlist.Valid()
    {
      playlist.entries := playlist.entries[i := ApplyEntry(db, playlist.entries[i])];
      i := i + 1;
    }
  }
}
