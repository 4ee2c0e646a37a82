/**
 * Playlist files. M3U (plain or extended, with the player's own
 * `#PHOSPHOR:song=N` line) and PLS are read line by line into paths with
 * any saved metadata; the extended M3U writer produces text the reader
 * restores.
 */
module PlaylistFiles {
  import opened Common
  import opened Text
  import opened Playlists

  // ---------------------------------------------------------------------------
  // Paths

  /** `Path::is_absolute` on Unix. */
  predicate IsAbsolute(p: string)
  {
    p != [] && p[0] == '/'
  }

  /**
   * A path as written in a playlist line: an absolute one unchanged, a
   * relative one joined to the playlist's directory with one separator
   * (none after an empty directory or one that already ends in `/`).
   */
  function Resolve(base: string, p: string): (r: string)
    ensures EndsWith(r, p)
    ensures IsAbsolute(p) ==> r == p
    ensures !IsAbsolute(p) ==> StartsWith(r, base) && |r| <= |base| + 1 + |p|
  {
    if IsAbsolute(p) then p
    else if base == [] || base[|base| - 1] == '/' then base + p
    else base + "/" + p
  }

  // ---------------------------------------------------------------------------
  // M3U reading

  /** A path line with the metadata that preceded it. */
  datatype M3uMeta = M3uMeta(path: string, durationSecs: Option<nat>, selectedSong: Option<nat>)

  /** The reader's state between lines: the paths so far and the metadata waiting for the next path. */
  datatype M3uState = M3uState(results: seq<M3uMeta>, pendingDuration: Option<nat>, pendingSong: Option<nat>)

  const START := M3uState([], None, None)
  const EXTINF := "#EXTINF:"
  const PHOSPHOR := "#PHOSPHOR:"
  const EXTM3U := "#EXTM3U"

  /** What a trimmed line is to the reader. */
  datatype M3uLine = Blank | Extinf(rest: string) | Phosphor(rest: string) | Comment | PathLine(p: string)

  function Classify(raw: string): (k: M3uLine)
    ensures k.Blank? <==> Trim(raw) == []
    ensures k.PathLine? <==> Trim(raw) != [] && Trim(raw)[0] != '#'
    ensures k.PathLine? ==> k.p == Trim(raw)
    ensures k.Extinf? ==> Trim(raw) == EXTINF + k.rest
    ensures k.Phosphor? ==> Trim(raw) == PHOSPHOR + k.rest
  {
    var line := Trim(raw);
    if line == [] then Blank
    else match StripPrefix(line, EXTINF)
      case Some(rest) => Extinf(rest)
      case None =>
        match StripPrefix(line, PHOSPHOR)
        case Some(rest) => Phosphor(rest)
        case None => if line[0] == '#' then Comment else PathLine(line)
  }

  /**
   * `#EXTINF:` text: a whole number before the first comma, when positive,
   * becomes the pending duration cut to 32 bits (`as u32`); otherwise the
   * pending duration stays.
   */
  function ExtinfDuration(rest: string, pending: Option<nat>): (r: Option<nat>)
    ensures r != pending ==> r.Some? && r.value < U32_BOUND
    ensures ',' !in rest ==> r == pending
  {
    match SplitOnce(rest, ',')
    case None => pending
    case Some(parts) =>
      match ParseI64(Trim(parts.0))
      case None => pending
      case Some(d) => if d > 0 then Some(d % U32_BOUND) else pending
  }

  /** The `song=` value of one `#PHOSPHOR:` field, if it is a `u16`. */
  function SongOf(part: string): (r: Option<nat>)
    ensures r.Some? ==> r.value < U16_BOUND && StartsWith(Trim(part), "song=")
  {
    match StripPrefix(Trim(part), "song=")
    case None => None
    case Some(v) => ParseU16(v)
  }

  /** `#PHOSPHOR:` fields in order: each valid `song=N` replaces the pending sub-tune, so the last one wins. */
  function SongFields(parts: seq<string>, pending: Option<nat>): (r: Option<nat>)
    ensures r != pending ==> r.Some? && r.value < U16_BOUND
    ensures r != pending ==> exists k :: 0 <= k < |parts| && SongOf(parts[k]) == r
  {
    if parts == [] then pending
    else
      var prev := SongFields(parts[..|parts| - 1], pending);
      var last := SongOf(parts[|parts| - 1]);
      if last.Some? then last else prev
  }

  /** One line of `parse_m3u`. */
  function StepM3u(base: string, st: M3uState, raw: string): M3uState
  {
    match Classify(raw)
    case Blank => st
    case Comment => st
    case Extinf(rest) => st.(pendingDuration := ExtinfDuration(rest, st.pendingDuration))
    case Phosphor(rest) => st.(pendingSong := SongFields(Split(rest, ','), st.pendingSong))
    case PathLine(p) => M3uState(st.results + [M3uMeta(Resolve(base, p), st.pendingDuration, st.pendingSong)], None, None)
  }

  /** The reader's state after the lines in order. */
  function FoldM3u(base: string, st: M3uState, lines: seq<string>): M3uState
  {
    if lines == [] then st
    else StepM3u(base, FoldM3u(base, st, lines[..|lines| - 1]), lines[|lines| - 1])
  }

  lemma FoldM3uSnoc(base: string, st: M3uState, lines: seq<string>, i: nat)
    requires i < |lines|
    ensures FoldM3u(base, st, lines[..i + 1]) == StepM3u(base, FoldM3u(base, st, lines[..i]), lines[i])
  {
    assert lines[..i + 1][..i] == lines[..i];
  }

  /** Reading two pieces of a file in turn is reading the whole. */
  lemma {:induction false} FoldM3uAppend(base: string, st: M3uState, a: seq<string>, b: seq<string>)
    ensures FoldM3u(base, st, a + b) == FoldM3u(base, FoldM3u(base, st, a), b)
    decreases |b|
  {
    if b == [] {
      assert a + b == a;
    } else {
      var b0 := b[..|b| - 1];
      assert (a + b)[..|a + b| - 1] == a + b0;
      FoldM3uAppend(base, st, a, b0);
    }
  }

  /** The trimmed path lines among `lines`, in order. */
  function PathLines(lines: seq<string>): (r: seq<string>)
    ensures |r| <= |lines|
    ensures forall k :: 0 <= k < |r| ==> r[k] != [] && r[k][0] != '#'
  {
    if lines == [] then []
    else
      var head := PathLines(lines[..|lines| - 1]);
      var line := Trim(lines[|lines| - 1]);
      if line != [] && line[0] != '#' then head + [line] else head
  }

  /**
   * `parse_m3u` yields one entry per path line, in order, each resolved
   * against the playlist's directory; entries found before are kept.
   */
  lemma {:induction false} FoldM3uPaths(base: string, st: M3uState, lines: seq<string>)
    ensures var r := FoldM3u(base, st, lines).results;
      |r| == |st.results| + |PathLines(lines)| && r[..|st.results|] == st.results &&
      forall k :: 0 <= k < |PathLines(lines)| ==> r[|st.results| + k].path == Resolve(base, PathLines(lines)[k])
    decreases |lines|
  {
    if lines != [] {
      var init := lines[..|lines| - 1];
      FoldM3uPaths(base, st, init);
      var prev := FoldM3u(base, st, init);
      var pl := PathLines(init);
      var k := Classify(lines[|lines| - 1]);
      if k.PathLine? {
        assert PathLines(lines) == pl + [k.p];
        var r := prev.results + [M3uMeta(Resolve(base, k.p), prev.pendingDuration, prev.pendingSong)];
        assert FoldM3u(base, st, lines).results == r;
        assert r[..|prev.results|] == prev.results;
        assert r[..|st.results|] == prev.results[..|st.results|];
        forall j | 0 <= j < |pl| + 1
          ensures r[|st.results| + j].path == Resolve(base, (pl + [k.p])[j])
        {
          if j < |pl| {
            assert r[|st.results| + j] == prev.results[|st.results| + j];
          }
        }
      } else {
        assert PathLines(lines) == pl;
        assert FoldM3u(base, st, lines).results == prev.results;
      }
    }
  }

  /**
   * A path line takes both pending values and clears them; no other line
   * adds an entry.
   */
  lemma StepM3uEntries(base: string, st: M3uState, raw: string)
    ensures var p := Trim(raw);
      if p != [] && p[0] != '#' then
        StepM3u(base, st, raw) == M3uState(st.results + [M3uMeta(Resolve(base, p), st.pendingDuration, st.pendingSong)], None, None)
      else StepM3u(base, st, raw).results == st.results
  {
  }

  /** Metadata goes to the next path only: of two path lines in a row, the second gets none. */
  lemma SecondPathBare(base: string, st: M3uState, p1: string, p2: string)
    requires Trim(p1) != [] && Trim(p1)[0] != '#' && Trim(p2) != [] && Trim(p2)[0] != '#'
    ensures var r := FoldM3u(base, st, [p1, p2]);
      r.results == st.results + [M3uMeta(Resolve(base, Trim(p1)), st.pendingDuration, st.pendingSong)]
                              + [M3uMeta(Resolve(base, Trim(p2)), None, None)] &&
      r.pendingDuration == None && r.pendingSong == None
  {
    var lines := [p1, p2];
    assert lines[..1] == [p1] && lines[..1][..0] == [];
    StepM3uEntries(base, st, p1);
    var mid := StepM3u(base, st, p1);
    assert FoldM3u(base, st, lines[..1]) == mid;
    StepM3uEntries(base, mid, p2);
    assert FoldM3u(base, st, lines) == StepM3u(base, mid, p2);
  }

  /** Only an `#EXTINF:` line changes the pending duration, and only a `#PHOSPHOR:` line the pending sub-tune. */
  lemma StepM3uPending(base: string, st: M3uState, raw: string)
    requires Trim(raw) == [] || Trim(raw)[0] == '#'
    ensures !StartsWith(Trim(raw), EXTINF) ==> StepM3u(base, st, raw).pendingDuration == st.pendingDuration
    ensures !StartsWith(Trim(raw), PHOSPHOR) ==> StepM3u(base, st, raw).pendingSong == st.pendingSong
  {
  }

  /** A positive duration before the first comma becomes the pending duration. */
  lemma ExtinfOf(digits: string, d: nat, title: string, pending: Option<nat>)
    requires NoSpace(digits) && ',' !in digits
    requires ParseI64(digits) == Some(d)
    ensures ExtinfDuration(digits + "," + title, pending) == if d > 0 then Some(d % U32_BOUND) else pending
  {
    SplitAt(digits, title, ',');
    NoSpaceTrim(digits);
  }

  /** `parse_m3u` over a file's text. */
  method ParseM3u(content: string, base: string) returns (results: seq<M3uMeta>)
    ensures results == FoldM3u(base, START, Lines(content)).results
  {
    var lines := Lines(content);
    results := [];
    var pendingDuration: Option<nat> := None;
    var pendingSong: Option<nat> := None;
    var i := 0;
    while i < |lines|
      invariant 0 <= i <= |lines|
      invariant M3uState(results, pendingDuration, pendingSong) == FoldM3u(base, START, lines[..i])
    {
      ghost var before := M3uState(results, pendingDuration, pendingSong);
      var line := Trim(lines[i]);
      if line == [] {
      } else if StartsWith(line, EXTINF) {
        pendingDuration := ExtinfDuration(line[|EXTINF|..], pendingDuration);
      } else if StartsWith(line, PHOSPHOR) {
        pendingSong := PhosphorFields(Split(line[|PHOSPHOR|..], ','), pendingSong);
      } else if line[0] == '#' {
      } else {
        results := results + [M3uMeta(Resolve(base, line), pendingDuration, pendingSong)];
        pendingDuration, pendingSong := None, None;
      }
      FoldM3uSnoc(base, START, lines, i);
      assert M3uState(results, pendingDuration, pendingSong) == StepM3u(base, before, lines[i]);
      i := i + 1;
    }
    assert lines[..i] == lines;
  }

  /** The loop over a `#PHOSPHOR:` line's comma-separated fields. */
  method PhosphorFields(parts: seq<string>, pending: Option<nat>) returns (song: Option<nat>)
    ensures song == SongFields(parts, pending)
  {
    song := pending;
    var j := 0;
    while j < |parts|
      invariant 0 <= j <= |parts|
      invariant song == SongFields(parts[..j], pending)
    {
      assert parts[..j + 1][..j] == parts[..j];
      var part := Trim(parts[j]);
      if StartsWith(part, "song=") {
        var n := ParseU16(part[5..]);
        if n.Some? {
          song := n;
        }
      }
      j := j + 1;
    }
    assert parts[..j] == parts;
  }

  // ---------------------------------------------------------------------------
  // M3U writing

  /** One saved entry: its path, author, title and known duration. */
  datatype M3uItem = M3uItem(path: string, author: string, title: string, duration: Option<nat>)

  /** The `#EXTINF` title: `author - title`, or the title alone when the author is empty. */
  function Display(author: string, title: string): (r: string)
    ensures author == [] ==> r == title
    ensures author != [] ==> StartsWith(r, author) && EndsWith(r, title)
  {
    if author == [] then title else author + " - " + title
  }

  /** The duration written, 0 when unknown. */
  function WrittenSecs(it: M3uItem): nat
  {
    if it.duration.Some? then it.duration.value else 0
  }

  function ExtinfLine(it: M3uItem): string
  {
    ExtinfText(ShowNat(WrittenSecs(it)), Display(it.author, it.title))
  }

  /** `#EXTINF:<duration>,<display>`. */
  function ExtinfText(digits: string, display: string): string
  {
    EXTINF + digits + "," + display
  }

  /** An entry's two lines. */
  function ItemText(it: M3uItem): string
  {
    ExtinfLine(it) + "\n" + it.path + "\n"
  }

  function Body(items: seq<M3uItem>): string
  {
    if items == [] then [] else Body(items[..|items| - 1]) + ItemText(items[|items| - 1])
  }

  /** `write_m3u`'s text: the `#EXTM3U` header, then each entry's `#EXTINF` and path lines. */
  function WriteM3u(items: seq<M3uItem>): (r: string)
    ensures StartsWith(r, EXTM3U + "\n") && r[|r| - 1] == '\n'
  {
    var r := EXTM3U + "\n" + Body(items);
    assert r[..|EXTM3U| + 1] == EXTM3U + "\n";
    r
  }

  /** An entry the reader can restore: an absolute, single-line path without trailing whitespace, single-line texts, a `u32` duration. */
  predicate Writable(it: M3uItem)
  {
    IsAbsolute(it.path) && '\n' !in it.path && !IsSpace(it.path[|it.path| - 1]) &&
    '\n' !in it.author && '\n' !in it.title &&
    (it.duration.Some? ==> it.duration.value < U32_BOUND)
  }

  /** What reading back restores of each entry: its path and a positive duration; no sub-tune is saved. */
  function Restored(items: seq<M3uItem>): (r: seq<M3uMeta>)
    ensures |r| == |items|
  {
    if items == [] then []
    else
      var it := items[|items| - 1];
      var d := if it.duration.Some? && it.duration.value > 0 then it.duration else None;
      Restored(items[..|items| - 1]) + [M3uMeta(it.path, d, None)]
  }

  /**
   * Saving a playlist and loading it back gives every entry's path in order
   * with its duration, except that a zero duration comes back unknown.
   */
  lemma {:induction false} WriteThenRead(base: string, items: seq<M3uItem>)
    requires forall k :: 0 <= k < |items| ==> Writable(items[k])
    ensures FoldM3u(base, START, Lines(WriteM3u(items))).results == Restored(items)
  {
    LinesOfWrite(items);
    FoldM3uAppend(base, START, [EXTM3U], Lines(Body(items)));
    HeaderSkipped(base);
    ReadBody(base, items);
  }

  lemma LinesOfWrite(items: seq<M3uItem>)
    ensures Lines(WriteM3u(items)) == [EXTM3U] + Lines(Body(items))
  {
    var header := EXTM3U + "\n";
    assert WriteM3u(items) == header + Body(items);
    LinesAppend(header, Body(items));
    HeaderLine(EXTM3U);
  }

  lemma HeaderLine(h: string)
    requires h == EXTM3U
    ensures Lines(h + "\n") == [h]
  {
    assert h + "\n" == h + "\n" + [];
    assert '\n' !in h;
    LinesCons(h, []);
    assert h[|h| - 1] == 'U';
  }

  /** The `#EXTM3U` header is a comment. */
  lemma HeaderSkipped(base: string)
    ensures FoldM3u(base, START, [EXTM3U]) == START
  {
    ClassifyHeader();
    assert [EXTM3U][..0] == [];
  }

  lemma ClassifyHeader()
    ensures Classify(EXTM3U) == Comment
  {
    assert Trim(EXTM3U) == EXTM3U by {
      TrimTrimmed(EXTM3U);
    }
    assert StripPrefix(EXTM3U, EXTINF) == None by {
      assert |EXTM3U| < |EXTINF|;
    }
    assert StripPrefix(EXTM3U, PHOSPHOR) == None by {
      assert |EXTM3U| < |PHOSPHOR|;
    }
    assert EXTM3U != [] && EXTM3U[0] == '#';
    ClassifyComment(EXTM3U);
  }

  /** A trimmed line that starts with `#` and is neither `#EXTINF:` nor `#PHOSPHOR:` is a comment. */
  lemma ClassifyComment(raw: string)
    requires Trim(raw) != [] && Trim(raw)[0] == '#'
    requires StripPrefix(Trim(raw), EXTINF) == None && StripPrefix(Trim(raw), PHOSPHOR) == None
    ensures Classify(raw) == Comment
  {
  }

  /** The entries' lines read from an empty state restore them and leave nothing pending. */
  lemma {:induction false} ReadBody(base: string, items: seq<M3uItem>)
    requires forall k :: 0 <= k < |items| ==> Writable(items[k])
    ensures FoldM3u(base, START, Lines(Body(items))) == M3uState(Restored(items), None, None)
    decreases |items|
  {
    if items != [] {
      var init := items[..|items| - 1];
      var it := items[|items| - 1];
      ReadBody(base, init);
      assert Body(items) == Body(init) + ItemText(it);
      BodyEndsLine(init);
      LinesAppend(Body(init), ItemText(it));
      ItemLines(it);
      FoldM3uAppend(base, START, Lines(Body(init)), Lines(ItemText(it)));
      ReadItem(base, Restored(init), it);
    }
  }

  lemma BodyEndsLine(items: seq<M3uItem>)
    ensures Body(items) == [] || Body(items)[|Body(items)| - 1] == '\n'
  {
  }

  /** An entry's text is two lines: its `#EXTINF` line and its path. */
  lemma ItemLines(it: M3uItem)
    requires Writable(it)
    ensures Lines(ItemText(it)) == [Chomp(ExtinfLine(it)), it.path]
  {
    ExtinfSingleLine(it);
    assert ItemText(it) == ExtinfLine(it) + "\n" + (it.path + "\n");
    LinesCons(ExtinfLine(it), it.path + "\n");
    assert it.path + "\n" == it.path + "\n" + [];
    LinesCons(it.path, []);
  }

  lemma ExtinfSingleLine(it: M3uItem)
    requires Writable(it)
    ensures '\n' !in ExtinfLine(it)
  {
    var digits := ShowNat(WrittenSecs(it));
    assert '\n' !in digits by {
      forall k | 0 <= k < |digits| ensures digits[k] != '\n' {
        assert IsDigit(digits[k]);
      }
    }
    var d := Display(it.author, it.title);
    assert '\n' !in d;
    var s := EXTINF + digits + "," + d;
    forall k | 0 <= k < |s| ensures s[k] != '\n' {
      if k < |EXTINF| + |digits| + 1 {
        assert s[k] == (EXTINF + digits + ",")[k];
      } else {
        assert s[k] == d[k - |EXTINF| - |digits| - 1];
      }
    }
  }

  /** Reading one entry's two lines after earlier, fully consumed entries. */
  lemma ReadItem(base: string, done: seq<M3uMeta>, it: M3uItem)
    requires Writable(it)
    ensures FoldM3u(base, M3uState(done, None, None), [Chomp(ExtinfLine(it)), it.path]) ==
      M3uState(done + [M3uMeta(it.path, if it.duration.Some? && it.duration.value > 0 then it.duration else None, None)], None, None)
  {
    var st := M3uState(done, None, None);
    ExtinfRead(it, st);
    PathTrimmed(it.path);
    ReadPair(base, done, Chomp(ExtinfLine(it)), it.path,
      if it.duration.Some? && it.duration.value > 0 then it.duration else None);
  }

  /** An `#EXTINF` line and an absolute path line after them. */
  lemma ReadPair(base: string, done: seq<M3uMeta>, e: string, p: string, d: Option<nat>)
    requires Classify(e).Extinf? && ExtinfDuration(Classify(e).rest, None) == d
    requires IsAbsolute(p) && Classify(p) == PathLine(p)
    ensures FoldM3u(base, M3uState(done, None, None), [e, p]) == M3uState(done + [M3uMeta(p, d, None)], None, None)
  {
    var st := M3uState(done, None, None);
    var lines := [e, p];
    assert lines[..1] == [e] && lines[..1][..0] == [];
    assert FoldM3u(base, st, lines[..1]) == st.(pendingDuration := d);
  }

  lemma PathTrimmed(p: string)
    requires IsAbsolute(p) && !IsSpace(p[|p| - 1])
    ensures Trim(p) == p && Classify(p) == PathLine(p)
  {
    TrimTrimmed(p);
  }

  /** The `#EXTINF` line sets the pending duration to the written one when positive. */
  lemma ExtinfRead(it: M3uItem, st: M3uState)
    requires Writable(it) && st.pendingDuration == None
    ensures Classify(Chomp(ExtinfLine(it))).Extinf?
    ensures ExtinfDuration(Classify(Chomp(ExtinfLine(it))).rest, None) ==
      if it.duration.Some? && it.duration.value > 0 then it.duration else None
  {
    var n := WrittenSecs(it);
    var digits := ShowNat(n);
    assert NoSpace(digits) && ',' !in digits by {
      forall k | 0 <= k < |digits| ensures !IsSpace(digits[k]) && digits[k] != ',' {
        assert IsDigit(digits[k]);
      }
    }
    ParseShowI64(n);
    var display := Display(it.author, it.title);
    assert ExtinfLine(it) == ExtinfText(digits, display);
    ExtinfTextRead(digits, display, n);
    var rest := digits + "," + TrimEnd(display);
    assert Classify(Chomp(ExtinfLine(it))).rest == rest;
    SmallMod(n);
  }

  lemma SmallMod(n: nat)
    requires n < U32_BOUND
    ensures n % U32_BOUND == n
  {
  }

  /** Reading back `#EXTINF:<digits>,<display>` for any digits that parse as `n`. */
  lemma ExtinfTextRead(digits: string, display: string, n: nat)
    requires NoSpace(digits) && ',' !in digits && ParseI64(digits) == Some(n)
    ensures Classify(Chomp(ExtinfText(digits, display))) == Extinf(digits + "," + TrimEnd(display))
    ensures ExtinfDuration(digits + "," + TrimEnd(display), None) == if n > 0 then Some(n % U32_BOUND) else None
  {
    var h := EXTINF + digits + ",";
    ChompTrim(ExtinfText(digits, display));
    TrimAfter(h, display);
    Regroup(digits, display);
    ClassifyExtinf(Chomp(ExtinfText(digits, display)), digits + "," + TrimEnd(display));
    ExtinfOf(digits, n, TrimEnd(display), None);
  }

  lemma Regroup(digits: string, display: string)
    ensures ExtinfText(digits, display) == (EXTINF + digits + ",") + display
    ensures (EXTINF + digits + ",") + TrimEnd(display) == EXTINF + (digits + "," + TrimEnd(display))
  {
  }

  lemma ClassifyExtinf(raw: string, rest: string)
    requires Trim(raw) == EXTINF + rest
    ensures Classify(raw) == Extinf(rest)
  {
  }

  // ---------------------------------------------------------------------------
  // PLS reading

  /** A `File<N>=` (or `file<N>=`) line's non-empty value, resolved; any other line gives nothing. */
  function PlsPath(base: string, raw: string): (r: Option<string>)
    ensures r.Some? ==> var l := Trim(raw); (StartsWith(l, "File") || StartsWith(l, "file")) && '=' in l
    ensures r.Some? ==> r.value != []
  {
    var l := Trim(raw);
    var rest := if StartsWith(l, "File") then StripPrefix(l, "File") else StripPrefix(l, "file");
    match rest
    case None => None
    case Some(r) =>
      match SplitOnce(r, '=')
      case None => None
      case Some(parts) =>
        var p := Trim(parts.1);
        if p == [] then None
        else
          assert '=' in r;
          Some(Resolve(base, p))
  }

  /** The values of a PLS file's lines, in order. */
  function PlsPaths(base: string, lines: seq<string>): (r: seq<string>)
    ensures |r| <= |lines|
    ensures forall k :: 0 <= k < |r| ==> r[k] != []
  {
    if lines == [] then []
    else
      var head := PlsPaths(base, lines[..|lines| - 1]);
      match PlsPath(base, lines[|lines| - 1])
      case None => head
      case Some(p) => head + [p]
  }

  /** Reading is line by line: the paths of two pieces are the paths of the whole. */
  lemma {:induction false} PlsPathsAppend(base: string, a: seq<string>, b: seq<string>)
    ensures PlsPaths(base, a + b) == PlsPaths(base, a) + PlsPaths(base, b)
    decreases |b|
  {
    if b == [] {
      assert a + b == a;
    } else {
      var b0 := b[..|b| - 1];
      assert (a + b)[..|a + b| - 1] == a + b0;
      PlsPathsAppend(base, a, b0);
    }
  }

  /** A line `File` + `rest` whose ends are not blank is its own trim, and `rest` follows the key. */
  lemma FileKeyed(rest: string)
    requires rest != [] && !IsSpace(rest[|rest| - 1])
    ensures var l := "File" + rest; TrimStart(l) == l && TrimEnd(l) == l && Trim(l) == l
    ensures StripPrefix("File" + rest, "File") == Some(rest)
  {
    var l := "File" + rest;
    assert l[..4] == "File" && l[4..] == rest;
    assert l[0] == 'F' && l[|l| - 1] == rest[|rest| - 1];
    TrimTrimmed(l);
  }

  /** A `File<N>=path` entry with an absolute path reads as that path, whatever its number. */
  lemma PlsEntry(base: string, num: string, p: string)
    requires '=' !in num && p != [] && IsAbsolute(p) && !IsSpace(p[|p| - 1])
    ensures PlsPath(base, "File" + num + "=" + p) == Some(p)
  {
    var rest := num + "=" + p;
    assert "File" + num + "=" + p == "File" + rest;
    assert rest[|rest| - 1] == p[|p| - 1];
    SplitAt(num, p, '=');
    assert !IsSpace(p[0]);
    FileKeyed(rest);
    TrimTrimmed(p);
  }

  lemma PlsPathsSnoc(base: string, lines: seq<string>, i: nat)
    requires i < |lines|
    ensures PlsPaths(base, lines[..i + 1]) ==
      PlsPaths(base, lines[..i]) + (if PlsPath(base, lines[i]).Some? then [PlsPath(base, lines[i]).value] else [])
  {
    assert lines[..i + 1][..i] == lines[..i];
  }

  /** `parse_pls` over a file's text. */
  method ParsePls(content: string, base: string) returns (paths: seq<string>)
    ensures paths == PlsPaths(base, Lines(content))
  {
    var lines := Lines(content);
    paths := [];
    var i := 0;
    while i < |lines|
      invariant 0 <= i <= |lines|
      invariant paths == PlsPaths(base, lines[..i])
    {
      var p := PlsPath(base, lines[i]);
      PlsPathsSnoc(base, lines, i);
      if p.Some? {
        paths := paths + [p.value];
      }
      i := i + 1;
    }
    assert lines[..i] == lines;
  }

  // ---------------------------------------------------------------------------
  // Restoring metadata on load

  /**
   * `load_playlist_file`'s use of one M3U entry: a saved duration replaces
   * the entry's, and a saved sub-tune is taken only within 1..songs.
   */
  function ApplyMeta(e: PlaylistEntry, m: M3uMeta): (r: PlaylistEntry)
    ensures r == e.(durationSecs := r.durationSecs, selectedSong := r.selectedSong)
    ensures r.durationSecs == if m.durationSecs.Some? then m.durationSecs else e.durationSecs
    ensures r.selectedSong != e.selectedSong ==> m.selectedSong == Some(r.selectedSong) && 1 <= r.selectedSong <= e.songs
  {
    var e1 := if m.durationSecs.Some? then e.(durationSecs := m.durationSecs) else e;
    if m.selectedSong.Some? && 1 <= m.selectedSong.value <= e.songs then e1.(selectedSong := m.selectedSong.value) else e1
  }

  /** A selected sub-tune within 1..songs stays so. */
  lemma ApplyMetaKeepsSong(e: PlaylistEntry, m: M3uMeta)
    requires 1 <= e.selectedSong <= e.songs
    ensures 1 <= ApplyMeta(e, m).selectedSong <= ApplyMeta(e, m).songs
  {
  }

  /**
   * The M3U branch of `load_playlist_file`: each entry whose file parsed
   * (`parsed[k]`, the result of reading it) is appended with its saved
   * metadata applied; the count of appended entries is returned.
   */
  method LoadM3uItems(playlist: Playlist, items: seq<M3uMeta>, parsed: seq<Result<PlaylistEntry, string>>) returns (loaded: nat)
    requires playlist.Valid() && |parsed| == |items|
    modifies playlist`entries, playlist`shuffleOrder, playlist`shufflePos
    ensures playlist.Valid()
    ensures playlist.entries == old(playlist.entries) + Applied(items, parsed)
    ensures loaded == |Applied(items, parsed)|
  {
    loaded := 0;
    var k := 0;
    while k < |items|
      invariant 0 <= k <= |items|
      invariant playlist.Valid()
      invariant playlist.entries == old(playlist.entries) + Applied(items[..k], parsed[..k])
      invariant loaded == |Applied(items[..k], parsed[..k])|
    {
      assert items[..k + 1][..k] == items[..k] && parsed[..k + 1][..k] == parsed[..k];
      var r := playlist.AddFile(parsed[k]);
      if r.Ok? {
        var n := |playlist.entries|;
        playlist.entries := playlist.entries[n - 1 := ApplyMeta(playlist.entries[n - 1], items[k])];
        loaded := loaded + 1;
      }
      k := k + 1;
    }
    assert items[..k] == items && parsed[..k] == parsed;
    playlist.RebuildShuffle();
  }

  /** The entries that parsed, in order, with their metadata applied. */
  function Applied(items: seq<M3uMeta>, parsed: seq<Result<PlaylistEntry, string>>): (r: seq<PlaylistEntry>)
    requires |parsed| == |items|
    ensures |r| <= |items|
  {
    if items == [] then []
    else
      var n := |items| - 1;
      var head := Applied(items[..n], parsed[..n]);
      if parsed[n].Ok? then head + [ApplyMeta(parsed[n].value, items[n])] else head
  }
}
