/**
 * The string operations of Rust's `str` that the player's file formats and
 * search use, over ASCII text: trimming, line and field splitting, prefixes,
 * case folding, substring search, and integer parsing and formatting.
 */
module Text {
  import opened Common

  // ---------------------------------------------------------------------------
  // Whitespace and trimming

  /** `char::is_whitespace` on ASCII: space, tab, line feed, vertical tab, form feed, carriage return. */
  predicate IsSpace(c: char)
  {
    c == ' ' || c == '\t' || c == '\n' || c as int == 0x0B || c as int == 0x0C || c == '\r'
  }

  predicate AllSpace(s: string)
  {
    forall i :: 0 <= i < |s| ==> IsSpace(s[i])
  }

  /** `trim_start`: the longest suffix that does not start with whitespace. */
  function TrimStart(s: string): (r: string)
    ensures |r| <= |s| && (r != [] ==> r[|r| - 1] == s[|s| - 1])
    ensures r == [] || !IsSpace(r[0])
    ensures AllSpace(s[..|s| - |r|])
  {
    if s != [] && IsSpace(s[0]) then
      var r := TrimStart(s[1..]);
      assert s[..|s| - |r|] == [s[0]] + s[1..][..|s| - 1 - |r|];
      r
    else s
  }

  /** `trim_end`: the longest prefix that does not end with whitespace. */
  function TrimEnd(s: string): (r: string)
    ensures |r| <= |s| && (r != [] ==> r[0] == s[0])
    ensures r == [] || !IsSpace(r[|r| - 1])
    ensures AllSpace(s[|r|..])
  {
    if s != [] && IsSpace(s[|s| - 1]) then
      var r := TrimEnd(s[..|s| - 1]);
      assert s[|r|..] == s[..|s| - 1][|r|..] + [s[|s| - 1]];
      r
    else s
  }

  /** `trim`: both ends. */
  function Trim(s: string): (r: string)
    ensures |r| <= |s|
    ensures r == [] || (!IsSpace(r[0]) && !IsSpace(r[|r| - 1]))
  {
    TrimEnd(TrimStart(s))
  }

  /** A string with no whitespace at either end is its own trim. */
  lemma TrimTrimmed(s: string)
    requires s == [] || (!IsSpace(s[0]) && !IsSpace(s[|s| - 1]))
    ensures TrimStart(s) == s && TrimEnd(s) == s && Trim(s) == s
  {
  }

  /** Whitespace padding on either side is what `trim` removes. */
  lemma {:induction false} TrimPadded(a: string, s: string, b: string)
    requires AllSpace(a) && AllSpace(b)
    requires s == [] || (!IsSpace(s[0]) && !IsSpace(s[|s| - 1]))
    ensures Trim(a + s + b) == s
    decreases |a| + |b|
  {
    if a != [] {
      assert (a + s + b)[1..] == a[1..] + s + b;
      TrimPadded(a[1..], s, b);
    } else if b != [] {
      assert a + s + b == s + b;
      if s == [] {
        AllSpaceTrims(b);
      } else {
        assert (s + b)[0] == s[0];
        assert TrimStart(s + b) == s + b;
      }
      TrimEndPadded(s, b);
    } else {
      assert a + s + b == s;
    }
  }

  lemma {:induction false} TrimEndPadded(s: string, b: string)
    requires AllSpace(b)
    requires s == [] || !IsSpace(s[|s| - 1])
    ensures TrimEnd(s + b) == s
    decreases |b|
  {
    if b == [] {
      assert s + b == s;
    } else {
      assert (s + b)[..|s + b| - 1] == s + b[..|b| - 1];
      TrimEndPadded(s, b[..|b| - 1]);
    }
  }

  /** `trim_start_matches(c)`: every leading `c` removed. */
  function TrimStartChar(s: string, c: char): (r: string)
    ensures |r| <= |s| && (r != [] ==> r[|r| - 1] == s[|s| - 1]) && (r == [] || r[0] != c)
  {
    if s != [] && s[0] == c then TrimStartChar(s[1..], c) else s
  }

  /** `trim_end_matches(c)`: every trailing `c` removed. */
  function TrimEndChar(s: string, c: char): (r: string)
    ensures |r| <= |s| && r == s[..|r|] && (r == [] || r[|r| - 1] != c)
  {
    if s != [] && s[|s| - 1] == c then TrimEndChar(s[..|s| - 1], c) else s
  }

  // ---------------------------------------------------------------------------
  // Prefixes, searching and splitting

  predicate StartsWith(s: string, p: string)
  {
    |p| <= |s| && s[..|p|] == p
  }

  predicate EndsWith(s: string, p: string)
  {
    |p| <= |s| && s[|s| - |p|..] == p
  }

  /** `strip_prefix`: what follows `p`, when `s` starts with it. */
  function StripPrefix(s: string, p: string): (r: Option<string>)
    ensures r.Some? <==> StartsWith(s, p)
    ensures r.Some? ==> s == p + r.value
  {
    if StartsWith(s, p) then Some(s[|p|..]) else None
  }

  /** `find(c)`: the first position of `c`. */
  function Find(s: string, c: char): (r: Option<nat>)
    ensures r.None? <==> c !in s
    ensures r.Some? ==> r.value < |s| && s[r.value] == c && c !in s[..r.value]
  {
    if s == [] then None
    else if s[0] == c then Some(0)
    else match Find(s[1..], c)
      case None => None
      case Some(i) =>
        assert s[..i + 1] == [s[0]] + s[1..][..i];
        Some(i + 1)
  }

  /** `split_once(c)`: the parts before and after the first `c`. */
  function SplitOnce(s: string, c: char): (r: Option<(string, string)>)
    ensures r.None? <==> c !in s
    ensures r.Some? ==> s == r.value.0 + [c] + r.value.1 && c !in r.value.0
  {
    match Find(s, c)
    case None => None
    case Some(i) =>
      assert s == s[..i] + [c] + s[i + 1..];
      Some((s[..i], s[i + 1..]))
  }

  /** `split(c)`: the pieces between the separators; always at least one. */
  function Split(s: string, c: char): (r: seq<string>)
    ensures |r| >= 1
    ensures forall i :: 0 <= i < |r| ==> c !in r[i]
    decreases |s|
  {
    match SplitOnce(s, c)
    case None => [s]
    case Some((a, b)) => [a] + Split(b, c)
  }

  /** The pieces joined back with the separator. */
  function JoinWith(pieces: seq<string>, c: char): string
    requires |pieces| >= 1
  {
    if |pieces| == 1 then pieces[0] else pieces[0] + [c] + JoinWith(pieces[1..], c)
  }

  /** Splitting loses nothing: the separators put back give the original text. */
  lemma {:induction false} SplitJoin(s: string, c: char)
    ensures JoinWith(Split(s, c), c) == s
    decreases |s|
  {
    match SplitOnce(s, c)
    case None =>
    case Some((a, b)) =>
      SplitJoin(b, c);
      assert Split(s, c)[1..] == Split(b, c);
  }

  /** Splitting text without the separator, and text joined from pieces without it. */
  lemma {:induction false} JoinSplit(pieces: seq<string>, c: char)
    requires |pieces| >= 1
    requires forall i :: 0 <= i < |pieces| ==> c !in pieces[i]
    ensures Split(JoinWith(pieces, c), c) == pieces
    decreases |pieces|
  {
    if |pieces| > 1 {
      var rest := JoinWith(pieces[1..], c);
      JoinSplit(pieces[1..], c);
      assert pieces[0] + [c] + rest == pieces[0] + ([c] + rest);
      assert Find(pieces[0] + [c] + rest, c) == Some(|pieces[0]|) by {
        FindAfter(pieces[0], [c] + rest, c);
      }
      assert SplitOnce(JoinWith(pieces, c), c) == Some((pieces[0], rest)) by {
        var s := pieces[0] + [c] + rest;
        assert s[..|pieces[0]|] == pieces[0];
        assert s[|pieces[0]| + 1..] == rest;
      }
    } else {
      assert Find(pieces[0], c).None?;
    }
  }

  /** The first `c` of `a + b` is at `|a|` when `a` has none and `b` starts with it. */
  lemma {:induction false} FindAfter(a: string, b: string, c: char)
    requires c !in a && b != [] && b[0] == c
    ensures Find(a + b, c) == Some(|a|)
    decreases |a|
  {
    if a != [] {
      assert (a + b)[1..] == a[1..] + b;
      FindAfter(a[1..], b, c);
    } else {
      assert a + b == b;
    }
  }

  /** A text without `c` followed by `c` and more splits there. */
  lemma {:induction false} SplitAt(a: string, b: string, c: char)
    requires c !in a
    ensures SplitOnce(a + [c] + b, c) == Some((a, b))
  {
    var s := a + [c] + b;
    assert s == a + ([c] + b);
    FindAfter(a, [c] + b, c);
    assert s[..|a|] == a && s[|a| + 1..] == b;
  }

  /** A trailing carriage return removed, as `lines` does before a line feed. */
  function Chomp(s: string): string
  {
    if s != [] && s[|s| - 1] == '\r' then s[..|s| - 1] else s
  }

  /** What `lines` drops is what `trim` would have dropped anyway. */
  lemma ChompTrim(s: string)
    ensures Trim(Chomp(s)) == Trim(s)
  {
    if s != [] && s[|s| - 1] == '\r' {
      TrimStartEnds(s);
    }
  }

  /** Removing a trailing space before trimming changes nothing. */
  lemma TrimStartEnds(s: string)
    requires s != [] && IsSpace(s[|s| - 1])
    ensures Trim(s) == Trim(s[..|s| - 1])
  {
    var t := TrimStart(s);
    if t == [] {
      assert AllSpace(s);
      assert TrimStart(s[..|s| - 1]) == [] by {
        AllSpaceTrims(s[..|s| - 1]);
      }
    } else {
      TrimStartPrefix(s);
    }
  }

  lemma {:induction false} AllSpaceTrims(s: string)
    requires AllSpace(s)
    ensures TrimStart(s) == []
    decreases |s|
  {
    if s != [] {
      AllSpaceTrims(s[1..]);
    }
  }

  /** Dropping a last character that the start trim does not reach commutes with it. */
  lemma {:induction false} TrimStartPrefix(s: string)
    requires s != [] && TrimStart(s) != [] && IsSpace(s[|s| - 1])
    ensures TrimStart(s[..|s| - 1]) == TrimStart(s)[..|TrimStart(s)| - 1]
    decreases |s|
  {
    if IsSpace(s[0]) {
      var t := s[1..];
      DropFirstSpace(s);
      assert |t| - 1 == |s| - 2 && t[|t| - 1] == s[|s| - 1];
      TrimStartPrefix(t);
      calc {
        TrimStart(s[..|s| - 1]);
        TrimStart(t[..|t| - 1]);
        TrimStart(t)[..|TrimStart(t)| - 1];
        TrimStart(s)[..|TrimStart(s)| - 1];
      }
    } else {
      NoLeadingSpace(s);
    }
  }

  lemma DropFirstSpace(s: string)
    requires s != [] && TrimStart(s) != [] && IsSpace(s[0])
    ensures |s| >= 2 && TrimStart(s) == TrimStart(s[1..])
    ensures TrimStart(s[..|s| - 1]) == TrimStart(s[1..][..|s| - 2])
  {
    assert |s| >= 2;
    SpaceDropped(s[..|s| - 1]);
    InnerSlice(s);
  }

  lemma SpaceDropped(p: string)
    requires p != [] && IsSpace(p[0])
    ensures TrimStart(p) == TrimStart(p[1..])
  {
  }

  lemma InnerSlice(s: string)
    requires |s| >= 2
    ensures s[1..][..|s| - 2] == s[..|s| - 1][1..]
  {
  }

  lemma NoLeadingSpace(s: string)
    requires s != [] && !IsSpace(s[0]) && IsSpace(s[|s| - 1])
    ensures TrimStart(s[..|s| - 1]) == TrimStart(s)[..|TrimStart(s)| - 1]
  {
    assert TrimStart(s) == s;
  }

  /**
   * `lines`: the text cut at each line feed, a carriage return before it
   * dropped; a final line feed does not start another line.
   */
  function Lines(s: string): seq<string>
    decreases |s|
  {
    if s == [] then []
    else match SplitOnce(s, '\n')
      case None => [s]
      case Some((a, b)) => [Chomp(a)] + Lines(b)
  }

  /** A line followed by a line feed is the first of the text's lines. */
  lemma LinesCons(a: string, rest: string)
    requires '\n' !in a
    ensures Lines(a + "\n" + rest) == [Chomp(a)] + Lines(rest)
  {
    var s := a + "\n" + rest;
    assert s == a + ("\n" + rest);
    FindAfter(a, "\n" + rest, '\n');
    assert s[..|a|] == a && s[|a| + 1..] == rest;
  }

  /** Text that ends at a line feed contributes its own lines, and what follows starts afresh. */
  lemma {:induction false} LinesAppend(x: string, y: string)
    requires x == [] || x[|x| - 1] == '\n'
    ensures Lines(x + y) == Lines(x) + Lines(y)
    decreases |x|
  {
    if x == [] {
      assert x + y == y;
    } else {
      var parts := SplitOnce(x, '\n').value;
      var a, b := parts.0, parts.1;
      assert x == a + "\n" + b;
      if b != [] {
        assert b[|b| - 1] == x[|x| - 1];
      }
      LinesAppend(b, y);
      LinesConsAppend(a, b, y);
    }
  }

  lemma LinesConsAppend(a: string, b: string, y: string)
    requires '\n' !in a
    requires Lines(b + y) == Lines(b) + Lines(y)
    ensures Lines(a + "\n" + b + y) == Lines(a + "\n" + b) + Lines(y)
  {
    assert a + "\n" + b + y == a + "\n" + (b + y);
    LinesCons(a, b + y);
    LinesCons(a, b);
    Associative([Chomp(a)], Lines(b), Lines(y));
  }

  /** A line written with its line feed after complete lines is the text's next line. */
  lemma LinesSnoc(head: string, line: string)
    requires head == [] || head[|head| - 1] == '\n'
    requires '\n' !in line && (line == [] || line[|line| - 1] != '\r')
    ensures Lines(head + line + "\n") == Lines(head) + [line]
  {
    var tail := line + "\n";
    assert head + line + "\n" == head + tail;
    LinesAppend(head, tail);
    assert tail == line + "\n" + [];
    LinesCons(line, []);
  }

  /** Complete lines between an opening and a closing line. */
  lemma LinesFramed(a: string, f: string, b: string)
    requires '\n' !in a && '\n' !in b && a != [] && b != [] && a[|a| - 1] != '\r' && b[|b| - 1] != '\r'
    requires f == [] || f[|f| - 1] == '\n'
    ensures Lines(a + "\n" + f + b + "\n") == [a] + Lines(f) + [b]
  {
    calc {
      Lines(a + "\n" + f + b + "\n");
      { FramedShape(a, f, b); }
      Lines(a + "\n" + (f + b + "\n"));
      { LinesCons(a, f + b + "\n"); }
      [Chomp(a)] + Lines(f + b + "\n");
      { LinesSnoc(f, b); }
      [a] + (Lines(f) + [b]);
      { Associative([a], Lines(f), [b]); }
      [a] + Lines(f) + [b];
    }
  }

  lemma FramedShape(a: string, f: string, b: string)
    ensures a + "\n" + f + b + "\n" == a + "\n" + (f + b + "\n")
  {
  }

  lemma Associative(p: seq<string>, q: seq<string>, r: seq<string>)
    ensures p + (q + r) == (p + q) + r
  {
  }

  /** The last line, with no line feed after it. */
  lemma LinesLast(a: string)
    requires '\n' !in a && a != []
    ensures Lines(a) == [a]
  {
  }

  /** `split_whitespace`: the maximal runs of non-whitespace characters. */
  function SplitWhitespace(s: string): (r: seq<string>)
    ensures forall i :: 0 <= i < |r| ==> r[i] != [] && NoSpace(r[i])
    decreases |s|
  {
    var t := TrimStart(s);
    if t == [] then []
    else
      var n := WordLength(t);
      [t[..n]] + SplitWhitespace(t[n..])
  }

  predicate NoSpace(w: string)
  {
    forall k :: 0 <= k < |w| ==> !IsSpace(w[k])
  }

  /** A text with no whitespace is its own trim. */
  lemma {:induction false} NoSpaceTrim(s: string)
    requires NoSpace(s)
    ensures Trim(s) == s
  {
    if s != [] {
      assert !IsSpace(s[0]) && !IsSpace(s[|s| - 1]);
      TrimTrimmed(s);
    }
  }

  lemma {:induction false} NoSpaceAppend(a: string, b: string)
    requires NoSpace(a) && NoSpace(b)
    ensures NoSpace(a + b)
  {
    var s := a + b;
    forall k | 0 <= k < |s| ensures !IsSpace(s[k]) {
      if k < |a| { assert s[k] == a[k]; } else { assert s[k] == b[k - |a|]; }
    }
  }

  /**
   * Text that neither starts nor ends with whitespace keeps its head through
   * `trim`: only the tail's trailing whitespace goes.
   */
  lemma TrimAfter(h: string, t: string)
    requires h != [] && !IsSpace(h[0]) && !IsSpace(h[|h| - 1])
    ensures Trim(h + t) == h + TrimEnd(t)
  {
    assert TrimStart(h + t) == h + t;
    TrimEndAfter(h, t);
  }

  lemma {:induction false} TrimEndAfter(h: string, t: string)
    requires h != [] && !IsSpace(h[|h| - 1])
    ensures TrimEnd(h + t) == h + TrimEnd(t)
    decreases |t|
  {
    if t == [] {
      assert h + t == h;
    } else if IsSpace(t[|t| - 1]) {
      assert (h + t)[..|h + t| - 1] == h + t[..|t| - 1];
      TrimEndAfter(h, t[..|t| - 1]);
    }
  }

  /** The length of the leading run of non-whitespace characters. */
  function WordLength(t: string): (n: nat)
    ensures n <= |t| && (t != [] && !IsSpace(t[0]) ==> n >= 1)
    ensures forall k :: 0 <= k < n ==> !IsSpace(t[k])
    ensures n < |t| ==> IsSpace(t[n])
  {
    if t == [] || IsSpace(t[0]) then 0 else 1 + WordLength(t[1..])
  }

  // ---------------------------------------------------------------------------
  // Case folding and substring search

  /** ASCII `to_lowercase` of one character. */
  function LowerChar(c: char): char
  {
    if 'A' <= c <= 'Z' then (c as int + 32) as char else c
  }

  /** `to_lowercase` over ASCII text. */
  function ToLower(s: string): (r: string)
    ensures |r| == |s| && forall i :: 0 <= i < |s| ==> r[i] == LowerChar(s[i])
  {
    seq(|s|, i requires 0 <= i < |s| => LowerChar(s[i]))
  }

  predicate IsLower(s: string)
  {
    forall i :: 0 <= i < |s| ==> !('A' <= s[i] <= 'Z')
  }

  /** Lowercasing yields lowercase text, so doing it twice is doing it once. */
  lemma LowerIdempotent(s: string)
    ensures IsLower(ToLower(s)) && ToLower(ToLower(s)) == ToLower(s)
  {
  }

  /** `contains`: `sub` occurs somewhere in `s`. */
  predicate Contains(s: string, sub: string)
    decreases |s|
  {
    StartsWith(s, sub) || (s != [] && Contains(s[1..], sub))
  }

  /** `sub` occurs in `s` at position `i`. */
  predicate OccursAt(s: string, sub: string, i: int)
  {
    0 <= i <= |s| - |sub| && s[i..i + |sub|] == sub
  }

  /** `contains` is the existence of a position where `sub` occurs. */
  lemma {:induction false} ContainsSpec(s: string, sub: string)
    ensures Contains(s, sub) <==> exists i :: OccursAt(s, sub, i)
    decreases |s|
  {
    if s != [] {
      ContainsSpec(s[1..], sub);
      if exists i :: OccursAt(s, sub, i) {
        var i :| OccursAt(s, sub, i);
        if i > 0 {
          assert s[1..][i - 1..i - 1 + |sub|] == sub;
          assert OccursAt(s[1..], sub, i - 1);
        } else {
          assert StartsWith(s, sub);
        }
      }
      if Contains(s[1..], sub) && !StartsWith(s, sub) {
        var i :| OccursAt(s[1..], sub, i);
        assert s[i + 1..i + 1 + |sub|] == sub;
        assert OccursAt(s, sub, i + 1);
      }
      if StartsWith(s, sub) {
        assert OccursAt(s, sub, 0);
      }
    } else {
      if exists i :: OccursAt(s, sub, i) {
        var i :| OccursAt(s, sub, i);
        assert sub == [];
      }
      if StartsWith(s, sub) {
        assert OccursAt(s, sub, 0);
      }
    }
  }

  // ---------------------------------------------------------------------------
  // Decimal and hexadecimal numbers

  predicate IsDigit(c: char)
  {
    '0' <= c <= '9'
  }

  predicate AllDigits(s: string)
  {
    forall i :: 0 <= i < |s| ==> IsDigit(s[i])
  }

  /** The decimal value of a run of digits. */
  function DecimalValue(s: string): nat
    requires AllDigits(s)
  {
    if s == [] then 0 else DecimalValue(s[..|s| - 1]) * 10 + (s[|s| - 1] as int - '0' as int)
  }

  /** Rust's unsigned `parse`: an optional `+`, then at least one digit, and a value below `bound`. */
  function ParseUnsigned(s: string, bound: nat): (r: Option<nat>)
    ensures r.Some? ==> r.value < bound
  {
    var d := if s != [] && s[0] == '+' then s[1..] else s;
    if d != [] && AllDigits(d) && DecimalValue(d) < bound then Some(DecimalValue(d)) else None
  }

  const U16_BOUND: nat := 0x1_0000
  const U32_BOUND: nat := 0x1_0000_0000
  const I64_BOUND: nat := 0x8000_0000_0000_0000

  /** `parse::<u32>`. */
  function ParseU32(s: string): (r: Option<nat>)
    ensures r.Some? ==> r.value < U32_BOUND
  {
    ParseUnsigned(s, U32_BOUND)
  }

  /** `parse::<u16>`. */
  function ParseU16(s: string): (r: Option<nat>)
    ensures r.Some? ==> r.value < U16_BOUND
  {
    ParseUnsigned(s, U16_BOUND)
  }

  /** `parse::<i64>`: an optional sign, then at least one digit, inside the `i64` range. */
  function ParseI64(s: string): (r: Option<int>)
    ensures r.Some? ==> -(I64_BOUND as int) <= r.value < I64_BOUND
  {
    if s != [] && s[0] == '-' then
      var d := s[1..];
      if d != [] && AllDigits(d) && DecimalValue(d) <= I64_BOUND then
        var v: int := DecimalValue(d);
        Some(-v)
      else None
    else
      match ParseUnsigned(s, I64_BOUND)
      case None => None
      case Some(v) => Some(v)
  }

  function DigitChar(d: nat): (c: char)
    requires d < 10
    ensures IsDigit(c) && c as int - '0' as int == d
  {
    ('0' as int + d) as char
  }

  /** `format!("{}", n)`: decimal digits, no sign, no leading zeros. */
  function ShowNat(n: nat): (r: string)
    ensures r != [] && AllDigits(r) && DecimalValue(r) == n
    ensures r[0] == '0' ==> n == 0
  {
    if n < 10 then [DigitChar(n)]
    else
      var r := ShowNat(n / 10) + [DigitChar(n % 10)];
      assert r[..|r| - 1] == ShowNat(n / 10);
      r
  }

  /** Formatting and then parsing gives the number back, for every value the type holds. */
  lemma ParseShow(n: nat, bound: nat)
    requires n < bound
    ensures ParseUnsigned(ShowNat(n), bound) == Some(n)
  {
  }

  /** The same for `i64`. */
  lemma ParseShowI64(n: nat)
    requires n < I64_BOUND
    ensures ParseI64(ShowNat(n)) == Some(n)
  {
    ParseShow(n, I64_BOUND);
  }

  /** `format!("{:02}", n)` for `n < 100`: two digits. */
  function Pad2(n: nat): (r: string)
    requires n < 100
    ensures |r| == 2 && AllDigits(r) && DecimalValue(r) == n
  {
    var r := [DigitChar(n / 10), DigitChar(n % 10)];
    assert r[..1] == [DigitChar(n / 10)] && r[..1][..0] == [];
    assert DecimalValue(r[..1]) == n / 10;
    assert DecimalValue(r) == (n / 10) * 10 + n % 10;
    r
  }

  predicate IsHexDigit(c: char)
  {
    '0' <= c <= '9' || 'a' <= c <= 'f' || 'A' <= c <= 'F'
  }

  function HexDigitValue(c: char): (v: nat)
    requires IsHexDigit(c)
    ensures v < 16
  {
    if '0' <= c <= '9' then c as int - '0' as int
    else if 'a' <= c <= 'f' then c as int - 'a' as int + 10
    else c as int - 'A' as int + 10
  }

  predicate AllHex(s: string)
  {
    forall i :: 0 <= i < |s| ==> IsHexDigit(s[i])
  }

  function HexValue(s: string): nat
    requires AllHex(s)
  {
    if s == [] then 0 else HexValue(s[..|s| - 1]) * 16 + HexDigitValue(s[|s| - 1])
  }

  /** `u16::from_str_radix(s, 16)`: an optional `+`, then at least one hex digit, a value below $10000. */
  function ParseHexU16(s: string): (r: Option<nat>)
    ensures r.Some? ==> r.value < U16_BOUND
  {
    var d := if s != [] && s[0] == '+' then s[1..] else s;
    if d != [] && AllHex(d) && HexValue(d) < U16_BOUND then Some(HexValue(d)) else None
  }
}
