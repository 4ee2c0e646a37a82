/**
 * The player's settings file, a flat JSON object written one key per line,
 * read back by a line-oriented reader; and the favourites set, one MD5 per
 * line.
 */
module AppConfig {
  import opened Common
  import opened Text

  const DEFAULT_SONGLENGTH_URL := "https://hvsc.c64.org/download/C64Music/DOCUMENTS/Songlengths.md5"
  const NUL: char := 0 as char

  datatype Config = Config(
    skipRsid: bool,
    defaultSongLengthSecs: nat,
    songlengthUrl: string,
    outputEngine: string,
    u64Address: string,
    u64Password: string,
    lastSidDir: Option<string>,
    lastSonglengthDir: Option<string>,
    lastSonglengthFile: Option<string>,
    lastPlaylistDir: Option<string>)

  /** `Config::default()`. */
  function Default(): (c: Config)
    ensures !c.skipRsid && c.defaultSongLengthSecs == 0 && c.outputEngine == "auto"
    ensures c.songlengthUrl == DEFAULT_SONGLENGTH_URL && c.u64Address == [] && c.u64Password == []
    ensures c.lastSidDir.None? && c.lastSonglengthDir.None? && c.lastSonglengthFile.None? && c.lastPlaylistDir.None?
  {
    Config(false, 0, DEFAULT_SONGLENGTH_URL, "auto", "", "", None, None, None, None)
  }

  // ---------------------------------------------------------------------------
  // String escaping

  /** `replace(c, rep)`: every `c` replaced. */
  function ReplaceChar(s: string, c: char, rep: string): (r: string)
    ensures c !in s ==> r == s
  {
    if s == [] then [] else (if s[0] == c then rep else [s[0]]) + ReplaceChar(s[1..], c, rep)
  }

  /** `replace` of a two-character pattern: occurrences taken left to right, without overlap. */
  function ReplacePair(s: string, x: char, y: char, rep: string): string
  {
    if |s| < 2 then s
    else if s[0] == x && s[1] == y then rep + ReplacePair(s[2..], x, y, rep)
    else [s[0]] + ReplacePair(s[1..], x, y, rep)
  }

  /** What `to_json` writes for a string: backslash and double quote each escaped by a backslash. */
  function Escape(s: string): string
  {
    ReplaceChar(ReplaceChar(s, '\\', "\\\\"), '"', "\\\"")
  }

  /** `strip_json_string`'s unescaping, with NUL standing in for an escaped backslash. */
  function Unescape(s: string): string
  {
    ReplaceChar(ReplacePair(ReplacePair(s, '\\', '\\', [NUL]), '\\', '"', "\""), NUL, "\\")
  }

  function Quote(s: string): string
  {
    "\"" + s + "\""
  }

  /** `strip_json_string`: the unescaped inside of a value wrapped in double quotes, else nothing. */
  function StripJsonString(val: string): (r: Option<string>)
    ensures r.Some? <==> |val| >= 2 && val[0] == '"' && val[|val| - 1] == '"'
  {
    if |val| >= 2 && val[0] == '"' && val[|val| - 1] == '"' then Some(Unescape(val[1..|val| - 1])) else None
  }

  /** Replacing characters works piece by piece. */
  lemma {:induction false} ReplaceCharAppend(a: string, b: string, c: char, rep: string)
    ensures ReplaceChar(a + b, c, rep) == ReplaceChar(a, c, rep) + ReplaceChar(b, c, rep)
    decreases |a|
  {
    if a == [] {
      assert a + b == b;
    } else {
      assert (a + b)[1..] == a[1..] + b;
      ReplaceCharAppend(a[1..], b, c, rep);
    }
  }

  /** Each character's escaped form. */
  function EscChar(c: char): string
  {
    if c == '\\' then "\\\\" else if c == '"' then "\\\"" else [c]
  }

  function EscapeEach(s: string): string
  {
    if s == [] then [] else EscChar(s[0]) + EscapeEach(s[1..])
  }

  /** The two successive replacements escape each character on its own. */
  lemma {:induction false} EscapeIsEach(s: string)
    ensures Escape(s) == EscapeEach(s)
    decreases |s|
  {
    if s != [] {
      var r1 := if s[0] == '\\' then "\\\\" else [s[0]];
      assert ReplaceChar(s, '\\', "\\\\") == r1 + ReplaceChar(s[1..], '\\', "\\\\");
      ReplaceCharAppend(r1, ReplaceChar(s[1..], '\\', "\\\\"), '"', "\\\"");
      EscapeIsEach(s[1..]);
      EscapeCharOnce(s[0]);
    }
  }

  lemma EscapeCharOnce(c: char)
    ensures ReplaceChar(if c == '\\' then "\\\\" else [c], '"', "\\\"") == EscChar(c)
  {
    if c == '\\' {
      assert '"' !in "\\\\";
    } else {
      var s := [c];
      assert s[1..] == [];
    }
  }

  /** After the first unescaping pass: escaped backslashes are NUL, escaped quotes still escaped. */
  function FirstPass(s: string): string
  {
    if s == [] then []
    else (if s[0] == '\\' then [NUL] else if s[0] == '"' then "\\\"" else [s[0]]) + FirstPass(s[1..])
  }

  /** After the second pass: only the NULs remain to be turned back. */
  function SecondPass(s: string): string
  {
    if s == [] then [] else (if s[0] == '\\' then [NUL] else [s[0]]) + SecondPass(s[1..])
  }

  lemma {:induction false} FirstPassOfEscape(s: string)
    ensures ReplacePair(EscapeEach(s), '\\', '\\', [NUL]) == FirstPass(s)
    decreases |s|
  {
    if s != [] {
      FirstPassOfEscape(s[1..]);
      var rest := EscapeEach(s[1..]);
      var e := EscChar(s[0]) + rest;
      if s[0] == '\\' {
        assert e[0] == '\\' && e[1] == '\\' && e[2..] == rest;
      } else if s[0] == '"' {
        assert e[0] == '\\' && e[1] == '"' && e[1..] == ['"'] + rest;
        PairSkip('"', rest, '\\', '\\', [NUL]);
      } else {
        assert e == [s[0]] + rest;
        PairSkip(s[0], rest, '\\', '\\', [NUL]);
      }
    }
  }

  lemma {:induction false} SecondPassOfFirst(s: string)
    ensures ReplacePair(FirstPass(s), '\\', '"', "\"") == SecondPass(s)
    decreases |s|
  {
    if s != [] {
      SecondPassOfFirst(s[1..]);
      var rest := FirstPass(s[1..]);
      if s[0] == '\\' {
        assert FirstPass(s) == [NUL] + rest;
        PairSkip(NUL, rest, '\\', '"', "\"");
      } else if s[0] == '"' {
        var e := FirstPass(s);
        assert e == "\\\"" + rest;
        assert e[0] == '\\' && e[1] == '"' && e[2..] == rest;
      } else {
        assert FirstPass(s) == [s[0]] + rest;
        PairSkip(s[0], rest, '\\', '"', "\"");
      }
    }
  }

  /** A leading character that does not start the pattern is kept. */
  lemma PairSkip(c: char, rest: string, x: char, y: char, rep: string)
    requires c != x
    ensures ReplacePair([c] + rest, x, y, rep) == [c] + ReplacePair(rest, x, y, rep)
  {
    if rest != [] {
      assert ([c] + rest)[1..] == rest;
    }
  }

  lemma {:induction false} ThirdPassOfSecond(s: string)
    requires NUL !in s
    ensures ReplaceChar(SecondPass(s), NUL, "\\") == s
    decreases |s|
  {
    if s != [] {
      var head := if s[0] == '\\' then [NUL] else [s[0]];
      ReplaceCharAppend(head, SecondPass(s[1..]), NUL, "\\");
      ThirdPassOfSecond(s[1..]);
      assert ReplaceChar(head, NUL, "\\") == [s[0]] by {
        assert head[1..] == [];
      }
      assert s == [s[0]] + s[1..];
    }
  }

  /** Unescaping undoes escaping for text without NUL. */
  lemma UnescapeEscape(s: string)
    requires NUL !in s
    ensures Unescape(Escape(s)) == s
  {
    EscapeIsEach(s);
    FirstPassOfEscape(s);
    SecondPassOfFirst(s);
    ThirdPassOfSecond(s);
  }

  /** A pair replacement whose first character never occurs changes nothing. */
  lemma {:induction false} PairAbsent(s: string, x: char, y: char, rep: string)
    requires x !in s
    ensures ReplacePair(s, x, y, rep) == s
    decreases |s|
  {
    if |s| >= 2 {
      PairAbsent(s[1..], x, y, rep);
      assert s == [s[0]] + s[1..];
    }
  }

  /** Text without backslash or NUL comes through unescaping unchanged. */
  lemma UnescapePlain(s: string)
    requires '\\' !in s && NUL !in s
    ensures Unescape(s) == s
  {
    PairAbsent(s, '\\', '\\', [NUL]);
    PairAbsent(s, '\\', '"', "\"");
  }

  lemma StripQuote(s: string)
    ensures StripJsonString(Quote(s)) == Some(Unescape(s))
  {
    var q := Quote(s);
    assert q[1..|q| - 1] == s;
  }

  /** The download URL is written without escaping, so two backslashes in it read back as one. */
  lemma UrlBackslashesCollapse()
    ensures StripJsonString(Quote("\\\\")) == Some("\\")
  {
    StripQuote("\\\\");
    var s := "\\\\";
    assert ReplacePair(s, '\\', '\\', [NUL]) == [NUL] by {
      assert s[2..] == [];
    }
    assert ReplacePair([NUL], '\\', '"', "\"") == [NUL];
    assert ReplaceChar([NUL], NUL, "\\") == "\\" by {
      assert [NUL][1..] == [];
    }
  }

  // ---------------------------------------------------------------------------
  // Reading

  /** The keys in the order the reader tries them. */
  const KEYS: seq<string> := [
    "skip_rsid", "default_song_length_secs", "songlength_url", "output_engine", "u64_address",
    "u64_password", "last_sid_dir", "last_songlength_dir", "last_songlength_file", "last_playlist_dir"]

  /** The first key, from `from` on, whose quoted name starts the line, and the text after it. */
  function MatchKey(line: string, from: nat): (r: Option<(nat, string)>)
    requires from <= |KEYS|
    ensures r.Some? ==> from <= r.value.0 < |KEYS| && line == Quote(KEYS[r.value.0]) + r.value.1
    ensures r.Some? ==> forall j :: from <= j < r.value.0 ==> !StartsWith(line, Quote(KEYS[j]))
    ensures r.None? ==> forall j :: from <= j < |KEYS| ==> !StartsWith(line, Quote(KEYS[j]))
    decreases |KEYS| - from
  {
    if from == |KEYS| then None
    else match StripPrefix(line, Quote(KEYS[from]))
      case Some(rest) => Some((from, rest))
      case None => MatchKey(line, from + 1)
  }

  /** A value after its key: trimmed, leading colons dropped, trimmed again. */
  function ValueOf(rest: string): string
  {
    Trim(TrimStartChar(Trim(rest), ':'))
  }

  /** The effect of one recognised key line on the settings. */
  function SetField(c: Config, k: nat, val: string): (r: Config)
    requires k < |KEYS|
  {
    match k
    case 0 => c.(skipRsid := val == "true")
    case 1 => (match ParseU32(val) case Some(n) => c.(defaultSongLengthSecs := n) case None => c)
    case 2 => (match StripJsonString(val) case Some(s) => c.(songlengthUrl := s) case None => c)
    case 3 => (match StripJsonString(val) case Some(s) => c.(outputEngine := s) case None => c)
    case 4 => (match StripJsonString(val) case Some(s) => c.(u64Address := s) case None => c)
    case 5 => (match StripJsonString(val) case Some(s) => c.(u64Password := s) case None => c)
    case 6 => if val != "null" then c.(lastSidDir := StripJsonString(val)) else c
    case 7 => if val != "null" then c.(lastSonglengthDir := StripJsonString(val)) else c
    case 8 => if val != "null" then c.(lastSonglengthFile := StripJsonString(val)) else c
    case _ => if val != "null" then c.(lastPlaylistDir := StripJsonString(val)) else c
  }

  /** One line of `parse_json`: trimmed, trailing commas dropped, then the first matching key applied. */
  function ApplyLine(c: Config, raw: string): Config
  {
    var line := TrimEndChar(Trim(raw), ',');
    match MatchKey(line, 0)
    case None => c
    case Some((k, rest)) => SetField(c, k, ValueOf(rest))
  }

  function ApplyLines(c: Config, lines: seq<string>): Config
  {
    if lines == [] then c else ApplyLine(ApplyLines(c, lines[..|lines| - 1]), lines[|lines| - 1])
  }

  lemma ApplyLinesSnoc(c: Config, lines: seq<string>, i: nat)
    requires i < |lines|
    ensures ApplyLines(c, lines[..i + 1]) == ApplyLine(ApplyLines(c, lines[..i]), lines[i])
  {
    assert lines[..i + 1][..i] == lines[..i];
  }

  /** `parse_json`: the defaults, changed by each recognised line in turn. */
  method ParseJson(s: string) returns (config: Config)
    ensures config == ApplyLines(Default(), Lines(s))
  {
    config := Default();
    var lines := Lines(s);
    var i := 0;
    while i < |lines|
      invariant 0 <= i <= |lines|
      invariant config == ApplyLines(Default(), lines[..i])
    {
      ApplyLinesSnoc(Default(), lines, i);
      config := ApplyLine(config, lines[i]);
      i := i + 1;
    }
    assert lines[..i] == lines;
  }

  /** A line that names no key changes nothing. */
  lemma UnknownLineIgnored(c: Config, raw: string)
    requires forall j :: 0 <= j < |KEYS| ==> !StartsWith(TrimEndChar(Trim(raw), ','), Quote(KEYS[j]))
    ensures ApplyLine(c, raw) == c
  {
    assert MatchKey(TrimEndChar(Trim(raw), ','), 0).None?;
  }

  /** `skip_rsid` becomes true for the exact value `true` and false for anything else. */
  lemma SkipRsidExact(c: Config, val: string)
    ensures SetField(c, 0, val).skipRsid <==> val == "true"
    ensures SetField(c, 0, val) == c.(skipRsid := SetField(c, 0, val).skipRsid)
  {
  }

  /** The default length changes only for a value that parses as a `u32`. */
  lemma DefaultLengthParsed(c: Config, val: string)
    ensures ParseU32(val).None? ==> SetField(c, 1, val) == c
    ensures ParseU32(val).Some? ==> SetField(c, 1, val) == c.(defaultSongLengthSecs := ParseU32(val).value)
  {
  }

  /** An optional path written as `null` is left as it was. */
  lemma NullKeepsPath(c: Config, k: nat)
    requires 6 <= k < |KEYS|
    ensures SetField(c, k, "null") == c
  {
  }

  // ---------------------------------------------------------------------------
  // Writing

  /** How an optional path is written: escaped and quoted, or `null`. */
  function OptJson(v: Option<string>): string
  {
    match v
    case Some(s) => Quote(Escape(s))
    case None => "null"
  }

  /** The value written for key `k`; the download URL and the engine name are written without escaping. */
  function JsonValue(c: Config, k: nat): string
    requires k < |KEYS|
  {
    match k
    case 0 => if c.skipRsid then "true" else "false"
    case 1 => ShowNat(c.defaultSongLengthSecs)
    case 2 => Quote(c.songlengthUrl)
    case 3 => Quote(c.outputEngine)
    case 4 => Quote(Escape(c.u64Address))
    case 5 => Quote(Escape(c.u64Password))
    case 6 => OptJson(c.lastSidDir)
    case 7 => OptJson(c.lastSonglengthDir)
    case 8 => OptJson(c.lastSonglengthFile)
    case _ => OptJson(c.lastPlaylistDir)
  }

  /** The line for key `k`, without its line feed: indented, with a comma after every key but the last. */
  function FieldLine(c: Config, k: nat): string
    requires k < |KEYS|
  {
    "  " + Quote(KEYS[k]) + ": " + JsonValue(c, k) + (if k + 1 < |KEYS| then "," else "")
  }

  /** The lines of keys `0..n`, each followed by a line feed. */
  function FieldsText(c: Config, n: nat): string
    requires n <= |KEYS|
  {
    if n == 0 then [] else FieldsText(c, n - 1) + FieldLine(c, n - 1) + "\n"
  }

  /** `to_json`. */
  function ToJson(c: Config): (r: string)
    ensures |r| >= 4 && r[..2] == "{\n" && r[|r| - 2..] == "}\n"
  {
    "{\n" + FieldsText(c, |KEYS|) + "}\n"
  }

  // ---------------------------------------------------------------------------
  // Writing then reading

  /** Text that a settings line can carry: no line feed and no NUL. */
  predicate Clean(s: string)
  {
    '\n' !in s && NUL !in s
  }

  predicate CleanPath(v: Option<string>)
  {
    v.None? || Clean(v.value)
  }

  /**
   * Settings that `to_json` writes in a form `parse_json` reads back: a default length
   * the reader's `u32` holds, the two unescaped values free of backslashes, and no
   * value spanning lines.
   */
  predicate Persistable(c: Config)
  {
    && c.defaultSongLengthSecs < U32_BOUND
    && Clean(c.songlengthUrl) && '\\' !in c.songlengthUrl
    && Clean(c.outputEngine) && '\\' !in c.outputEngine
    && Clean(c.u64Address) && Clean(c.u64Password)
    && CleanPath(c.lastSidDir) && CleanPath(c.lastSonglengthDir)
    && CleanPath(c.lastSonglengthFile) && CleanPath(c.lastPlaylistDir)
  }

  /** The defaults, with the settings of the first `n` keys taken from `c`. */
  function Prefix(c: Config, n: nat): Config
  {
    var d := Default();
    Config(
      if n > 0 then c.skipRsid else d.skipRsid,
      if n > 1 then c.defaultSongLengthSecs else d.defaultSongLengthSecs,
      if n > 2 then c.songlengthUrl else d.songlengthUrl,
      if n > 3 then c.outputEngine else d.outputEngine,
      if n > 4 then c.u64Address else d.u64Address,
      if n > 5 then c.u64Password else d.u64Password,
      if n > 6 then c.lastSidDir else d.lastSidDir,
      if n > 7 then c.lastSonglengthDir else d.lastSonglengthDir,
      if n > 8 then c.lastSonglengthFile else d.lastSonglengthFile,
      if n > 9 then c.lastPlaylistDir else d.lastPlaylistDir)
  }

  /** A key's characters: lower-case letters, digits and underscores. */
  predicate KeyChars(s: string)
  {
    forall i :: 0 <= i < |s| ==> s[i] == '_' || 'a' <= s[i] <= 'z' || '0' <= s[i] <= '9'
  }

  lemma KeysPlain(k: nat)
    requires k < |KEYS|
    ensures KeyChars(KEYS[k]) && '"' !in KEYS[k] && '\n' !in KEYS[k] && NUL !in KEYS[k]
  {
  }

  lemma KeysDistinct(i: nat, j: nat)
    requires i < j < |KEYS|
    ensures KEYS[i] != KEYS[j]
  {
    if i == 5 && j == 6 {
      assert KEYS[i][0] != KEYS[j][0];
    } else {
      assert |KEYS[i]| != |KEYS[j]|;
    }
  }

  /** Of two different quote-free keys, one quoted never starts a line the other quoted starts. */
  lemma QuotedPrefixFree(a: string, b: string, rest: string)
    requires '"' !in a && '"' !in b && a != b
    ensures !StartsWith(Quote(b) + rest, Quote(a))
  {
    var line := Quote(b) + rest;
    var qa := Quote(a);
    if |qa| <= |line| {
      if |a| < |b| {
        assert qa[|a| + 1] != line[|a| + 1];
      } else if |b| < |a| {
        assert qa[|b| + 1] != line[|b| + 1];
      } else {
        var i :| 0 <= i < |a| && a[i] != b[i];
        assert qa[i + 1] != line[i + 1];
      }
    }
  }

  /** A line that starts with key `k` quoted is recognised as key `k`, from any earlier key on. */
  lemma {:induction false} MatchKeyFinds(k: nat, rest: string, from: nat)
    requires from <= k < |KEYS|
    ensures MatchKey(Quote(KEYS[k]) + rest, from) == Some((k, rest))
    decreases k - from
  {
    var line := Quote(KEYS[k]) + rest;
    if from == k {
      assert line[..|Quote(KEYS[k])|] == Quote(KEYS[k]);
      assert line[|Quote(KEYS[k])|..] == rest;
    } else {
      KeysPlain(from);
      KeysPlain(k);
      KeysDistinct(from, k);
      QuotedPrefixFree(KEYS[from], KEYS[k], rest);
      MatchKeyFinds(k, rest, from + 1);
    }
  }

  /** A written value: not empty, with no surrounding blanks, no leading colon and no trailing comma. */
  predicate Tidy(v: string)
  {
    v != [] && !IsSpace(v[0]) && !IsSpace(v[|v| - 1]) && v[0] != ':' && v[|v| - 1] != ',' && v[|v| - 1] != '\r'
  }

  lemma ValueTidy(c: Config, k: nat)
    requires k < |KEYS|
    ensures Tidy(JsonValue(c, k))
  {
    if k == 1 {
      var v := ShowNat(c.defaultSongLengthSecs);
      assert IsDigit(v[0]) && IsDigit(v[|v| - 1]);
    }
  }

  /** Trimming and dropping the trailing comma leave what was between the indent and the comma. */
  lemma LineShape(pad: string, inner: string, comma: string)
    requires AllSpace(pad) && inner != [] && !IsSpace(inner[0]) && !IsSpace(inner[|inner| - 1])
    requires inner[|inner| - 1] != ',' && |comma| <= 1 && (comma != [] ==> comma[0] == ',')
    ensures TrimEndChar(Trim(pad + inner + comma), ',') == inner
  {
    var body := inner + comma;
    assert pad + inner + comma == pad + body + [];
    TrimPadded(pad, body, []);
    CommaDropped(inner, comma);
  }

  lemma CommaDropped(inner: string, comma: string)
    requires inner != [] && inner[|inner| - 1] != ',' && |comma| <= 1 && (comma != [] ==> comma[0] == ',')
    ensures TrimEndChar(inner + comma, ',') == inner
  {
    if comma != [] {
      var body := inner + comma;
      assert body[..|body| - 1] == inner;
    } else {
      assert inner + comma == inner;
    }
  }

  /** The parts of a key line, regrouped around the key, colon and value. */
  lemma Regroup(a: string, b: string, c: string, d: string, e: string)
    ensures a + b + c + d + e == a + (b + (c + d)) + e
  {
  }

  /** After the key: the colon and the blank go, and the value is left. */
  lemma ValueAfterColon(v: string)
    requires Tidy(v)
    ensures ValueOf([':'] + ([' '] + v)) == v
  {
    ColonTrimmed(v);
    ColonDropped(v);
    AfterBlank([' '] + v, v);
  }

  lemma ColonTrimmed(v: string)
    requires Tidy(v)
    ensures Trim([':'] + ([' '] + v)) == [':'] + ([' '] + v)
  {
    var s := [':'] + ([' '] + v);
    assert s[|s| - 1] == v[|v| - 1];
    TrimTrimmed(s);
  }

  lemma ColonDropped(v: string)
    requires Tidy(v)
    ensures TrimStartChar([':'] + ([' '] + v), ':') == [' '] + v
  {
    assert ([':'] + ([' '] + v))[1..] == [' '] + v;
  }

  lemma AfterBlank(t: string, v: string)
    requires t == [' '] + v && Tidy(v)
    ensures Trim(t) == v
  {
    assert t == [' '] + v + [];
    assert AllSpace([' ']);
    TrimPadded([' '], v, []);
  }

  /** A quoted string without backslash or NUL reads back as itself. */
  lemma ReadPlain(s: string)
    requires '\\' !in s && NUL !in s
    ensures StripJsonString(Quote(s)) == Some(s)
  {
    StripQuote(s);
    UnescapePlain(s);
  }

  /** An escaped and quoted string without NUL reads back as itself. */
  lemma ReadEscaped(s: string)
    requires NUL !in s
    ensures StripJsonString(Quote(Escape(s))) == Some(s)
  {
    StripQuote(Escape(s));
    UnescapeEscape(s);
  }

  /** An optional path reads back as itself: `null` as nothing, a path as that path. */
  lemma ReadPath(v: Option<string>)
    requires CleanPath(v)
    ensures v.None? <==> OptJson(v) == "null"
    ensures v.Some? ==> StripJsonString(OptJson(v)) == v
  {
    if v.Some? {
      ReadEscaped(v.value);
      assert OptJson(v)[0] == '"';
    }
  }

  /** Reading key `k`'s written value into the settings so far adds that one setting. */
  lemma SetFieldRead(c: Config, k: nat)
    requires Persistable(c) && k < |KEYS|
    ensures SetField(Prefix(c, k), k, JsonValue(c, k)) == Prefix(c, k + 1)
  {
    match k
    case 0 =>
    case 1 => ParseShow(c.defaultSongLengthSecs, U32_BOUND);
    case 2 => ReadPlain(c.songlengthUrl);
    case 3 => ReadPlain(c.outputEngine);
    case 4 => ReadEscaped(c.u64Address);
    case 5 => ReadEscaped(c.u64Password);
    case 6 => ReadPath(c.lastSidDir);
    case 7 => ReadPath(c.lastSonglengthDir);
    case 8 => ReadPath(c.lastSonglengthFile);
    case _ => ReadPath(c.lastPlaylistDir);
  }

  /** Key `k`'s line, read into the settings of the keys before it, adds key `k`'s setting. */
  lemma FieldLineRead(c: Config, k: nat)
    requires Persistable(c) && k < |KEYS|
    ensures ApplyLine(Prefix(c, k), FieldLine(c, k)) == Prefix(c, k + 1)
  {
    FieldLineParts(c, k);
    MatchKeyFinds(k, ": " + JsonValue(c, k), 0);
    SetFieldRead(c, k);
  }

  /** Key `k`'s line, trimmed and without its comma, is the quoted key, a colon and the value. */
  lemma FieldLineParts(c: Config, k: nat)
    requires k < |KEYS|
    ensures TrimEndChar(Trim(FieldLine(c, k)), ',') == Quote(KEYS[k]) + (": " + JsonValue(c, k))
    ensures ValueOf(": " + JsonValue(c, k)) == JsonValue(c, k)
  {
    FieldLineTrimmed(c, k);
    ValueTidy(c, k);
    ColonValue(JsonValue(c, k));
  }

  lemma FieldLineTrimmed(c: Config, k: nat)
    requires k < |KEYS|
    ensures TrimEndChar(Trim(FieldLine(c, k)), ',') == Quote(KEYS[k]) + (": " + JsonValue(c, k))
  {
    ValueTidy(c, k);
    Regroup("  ", Quote(KEYS[k]), ": ", JsonValue(c, k), if k + 1 < |KEYS| then "," else "");
    LineShape("  ", Quote(KEYS[k]) + (": " + JsonValue(c, k)), if k + 1 < |KEYS| then "," else "");
  }

  lemma ColonValue(v: string)
    requires Tidy(v)
    ensures ValueOf(": " + v) == v
  {
    assert ": " + v == [':'] + ([' '] + v);
    ValueAfterColon(v);
  }

  /** A one-character line that is no key, such as a brace, changes nothing. */
  lemma BraceIgnored(c: Config, raw: string)
    requires |raw| == 1 && raw[0] != '"' && !IsSpace(raw[0]) && raw[0] != ','
    ensures ApplyLine(c, raw) == c
  {
    TrimTrimmed(raw);
    assert TrimEndChar(raw, ',') == raw;
    forall j | 0 <= j < |KEYS|
      ensures !StartsWith(raw, Quote(KEYS[j]))
    {
      assert Quote(KEYS[j])[0] == '"';
    }
    UnknownLineIgnored(c, raw);
  }

  /** The written key lines, in order. */
  function FieldLines(c: Config, n: nat): (r: seq<string>)
    requires n <= |KEYS|
    ensures |r| == n
  {
    if n == 0 then [] else FieldLines(c, n - 1) + [FieldLine(c, n - 1)]
  }

  lemma NoNewlineEscaped(s: string)
    requires '\n' !in s
    ensures '\n' !in Escape(s)
  {
    EscapeIsEach(s);
    NoNewlineEach(s);
  }

  lemma {:induction false} NoNewlineEach(s: string)
    requires '\n' !in s
    ensures '\n' !in EscapeEach(s)
    decreases |s|
  {
    if s != [] {
      assert '\n' !in EscChar(s[0]);
      NoNewlineEach(s[1..]);
    }
  }

  /** No written line contains a line feed. */
  lemma FieldLineSingle(c: Config, k: nat)
    requires Persistable(c) && k < |KEYS|
    ensures '\n' !in FieldLine(c, k)
  {
    KeysPlain(k);
    match k
    case 0 =>
    case 1 =>
    case 2 =>
    case 3 =>
    case 4 => NoNewlineEscaped(c.u64Address);
    case 5 => NoNewlineEscaped(c.u64Password);
    case 6 => if c.lastSidDir.Some? { NoNewlineEscaped(c.lastSidDir.value); }
    case 7 => if c.lastSonglengthDir.Some? { NoNewlineEscaped(c.lastSonglengthDir.value); }
    case 8 => if c.lastSonglengthFile.Some? { NoNewlineEscaped(c.lastSonglengthFile.value); }
    case _ => if c.lastPlaylistDir.Some? { NoNewlineEscaped(c.lastPlaylistDir.value); }
  }

  /** A written line ends in a comma or in its value, never in a carriage return. */
  lemma FieldLineEnd(c: Config, k: nat)
    requires k < |KEYS|
    ensures FieldLine(c, k) != [] && FieldLine(c, k)[|FieldLine(c, k)| - 1] != '\r'
  {
    ValueTidy(c, k);
    LastOutside("  " + Quote(KEYS[k]) + ": ", JsonValue(c, k), if k + 1 < |KEYS| then "," else "");
  }

  lemma LastOutside(a: string, v: string, comma: string)
    requires v != [] && v[|v| - 1] != '\r' && |comma| <= 1 && (comma != [] ==> comma[0] == ',')
    ensures a + v + comma != [] && (a + v + comma)[|a + v + comma| - 1] != '\r'
  {
    if comma == [] {
      assert a + v + comma == a + v;
    }
  }

  /** The key lines come back out of the text as its lines. */
  lemma {:induction false} FieldsTextLines(c: Config, n: nat)
    requires Persistable(c) && n <= |KEYS|
    ensures Lines(FieldsText(c, n)) == FieldLines(c, n)
    ensures FieldsText(c, n) == [] || FieldsText(c, n)[|FieldsText(c, n)| - 1] == '\n'
  {
    if n > 0 {
      var head, line := FieldsText(c, n - 1), FieldLine(c, n - 1);
      assert head == [] || head[|head| - 1] == '\n' by {
        FieldsTextLines(c, n - 1);
      }
      assert '\n' !in line && (line == [] || line[|line| - 1] != '\r') by {
        FieldLineSingle(c, n - 1);
        FieldLineEnd(c, n - 1);
      }
      LinesSnoc(head, line);
      FieldsTextLines(c, n - 1);
      assert FieldsText(c, n) == head + line + "\n";
    }
  }

  /** Reading the key lines in turn from the defaults gives the first `n` settings. */
  lemma {:induction false} FieldLinesRead(c: Config, n: nat)
    requires Persistable(c) && n <= |KEYS|
    ensures ApplyLines(Default(), FieldLines(c, n)) == Prefix(c, n)
  {
    if n > 0 {
      var lines := FieldLines(c, n);
      assert lines[..n - 1] == FieldLines(c, n - 1);
      FieldLinesRead(c, n - 1);
      FieldLineRead(c, n - 1);
    }
  }

  /** Folding over a concatenation folds over each part in turn. */
  lemma {:induction false} ApplyLinesAppend(c: Config, a: seq<string>, b: seq<string>)
    ensures ApplyLines(c, a + b) == ApplyLines(ApplyLines(c, a), b)
    decreases |b|
  {
    if b == [] {
      assert a + b == a;
    } else {
      var b0 := b[..|b| - 1];
      assert (a + b)[..|a + b| - 1] == a + b0;
      ApplyLinesAppend(c, a, b0);
    }
  }

  /** The lines of `to_json`'s text: the opening brace, the key lines, the closing brace. */
  lemma JsonLines(c: Config)
    requires Persistable(c)
    ensures Lines(ToJson(c)) == ["{"] + FieldLines(c, |KEYS|) + ["}"]
  {
    FieldsTextLines(c, |KEYS|);
    BracesSplit(FieldsText(c, |KEYS|));
    LinesFramed("{", FieldsText(c, |KEYS|), "}");
  }

  lemma BracesSplit(f: string)
    ensures "{\n" + f + "}\n" == "{" + "\n" + f + "}" + "\n"
  {
  }

  /** What `to_json` writes, `parse_json` reads back unchanged. */
  lemma JsonRoundTrip(c: Config)
    requires Persistable(c)
    ensures ApplyLines(Default(), Lines(ToJson(c))) == c
  {
    JsonLines(c);
    ApplyLinesAppend(Default(), ["{"] + FieldLines(c, |KEYS|), ["}"]);
    ApplyLinesAppend(Default(), ["{"], FieldLines(c, |KEYS|));
    FirstBraceRead();
    FieldLinesRead(c, |KEYS|);
    LastBraceRead(c);
  }

  lemma FirstBraceRead()
    ensures ApplyLines(Default(), ["{"]) == Default()
  {
    assert ApplyLines(Default(), ["{"]) == ApplyLine(Default(), "{");
    BraceIgnored(Default(), "{");
  }

  lemma LastBraceRead(c: Config)
    ensures ApplyLines(Prefix(c, |KEYS|), ["}"]) == c
  {
    PrefixAll(c);
    assert ApplyLines(c, ["}"]) == ApplyLine(c, "}");
    BraceIgnored(c, "}");
  }

  /** With every key taken, nothing of the defaults is left. */
  lemma PrefixAll(c: Config)
    ensures Prefix(c, |KEYS|) == c
  {
    assert |KEYS| == 10;
  }

  // ---------------------------------------------------------------------------
  // Favourites

  /** `toggle` on the stored set: a present key removed, an absent one added. */
  function Toggled(hashes: set<string>, key: string): (r: set<string>)
    ensures key in r <==> key !in hashes
    ensures forall h :: h != key ==> (h in r <==> h in hashes)
  {
    if key in hashes then hashes - {key} else hashes + {key}
  }

  /** Toggling the same key twice restores the set. */
  lemma ToggledTwice(hashes: set<string>, key: string)
    ensures Toggled(Toggled(hashes, key), key) == hashes
  {
  }

  /** A favourites line's key: trimmed and lowercased, kept only at exactly 32 characters. */
  function FavoriteKey(line: string): (r: Option<string>)
    ensures r.Some? ==> |r.value| == 32 && IsLower(r.value)
  {
    var k := ToLower(Trim(line));
    LowerIdempotent(Trim(line));
    if |k| == 32 then Some(k) else None
  }

  /** The favourites read from the file's lines. */
  function FavoriteSet(lines: seq<string>): (r: set<string>)
    ensures forall h :: h in r ==> |h| == 32 && IsLower(h)
  {
    if lines == [] then {}
    else
      var head := FavoriteSet(lines[..|lines| - 1]);
      match FavoriteKey(lines[|lines| - 1])
      case None => head
      case Some(k) => head + {k}
  }

  /** Every line's key is loaded. */
  lemma {:induction false} FavoriteLineLoaded(lines: seq<string>, i: nat)
    requires i < |lines| && FavoriteKey(lines[i]).Some?
    ensures FavoriteKey(lines[i]).value in FavoriteSet(lines)
    decreases |lines|
  {
    var init := lines[..|lines| - 1];
    if i < |init| {
      assert init[i] == lines[i];
      FavoriteLineLoaded(init, i);
      assert FavoriteSet(init) <= FavoriteSet(lines);
    } else {
      assert FavoriteSet(lines) == FavoriteSet(init) + {FavoriteKey(lines[|lines| - 1]).value};
    }
  }

  /** Every loaded key comes from some line. */
  lemma {:induction false} FavoriteFromLine(lines: seq<string>, h: string) returns (i: nat)
    requires h in FavoriteSet(lines)
    ensures i < |lines| && FavoriteKey(lines[i]) == Some(h)
    decreases |lines|
  {
    var init := lines[..|lines| - 1];
    if h in FavoriteSet(init) {
      i := FavoriteFromLine(init, h);
      assert init[i] == lines[i];
    } else {
      i := |lines| - 1;
      assert FavoriteKey(lines[i]).Some? && FavoriteKey(lines[i]).value == h;
    }
  }

  lemma FavoriteSetSnoc(lines: seq<string>, i: nat)
    requires i < |lines|
    ensures FavoriteSet(lines[..i + 1]) ==
      FavoriteSet(lines[..i]) + (if FavoriteKey(lines[i]).Some? then {FavoriteKey(lines[i]).value} else {})
  {
    assert lines[..i + 1][..i] == lines[..i];
  }

  /** Membership as `is_favorite` tests it: by the lowercased MD5. */
  predicate InFavorites(hashes: set<string>, md5: string)
  {
    ToLower(md5) in hashes
  }

  /** `FavoritesDb`: the set of favourite tunes' MD5s. */
  class FavoritesDb {
    var hashes: set<string>

    /** `new`: no favourites. */
    constructor ()
      ensures hashes == {}
    {
      hashes := {};
    }

    /** The loading half of `load`, on the file's text. */
    constructor FromText(content: string)
      ensures hashes == FavoriteSet(Lines(content))
    {
      var lines := Lines(content);
      var acc: set<string> := {};
      var i := 0;
      while i < |lines|
        invariant 0 <= i <= |lines|
        invariant acc == FavoriteSet(lines[..i])
      {
        FavoriteSetSnoc(lines, i);
        var k := ToLower(Trim(lines[i]));
        ghost var added := if FavoriteKey(lines[i]).Some? then {FavoriteKey(lines[i]).value} else {};
        assert added == if |k| == 32 then {k} else {};
        if |k| == 32 {
          acc := acc + {k};
        }
        assert acc == FavoriteSet(lines[..i]) + added;
        i := i + 1;
      }
      assert lines[..i] == lines;
      hashes := acc;
    }

    /** `toggle`: the lowercased key flipped in or out; the answer is whether it is now a favourite. */
    method Toggle(md5: string) returns (now: bool)
      modifies this`hashes
      ensures hashes == Toggled(old(hashes), ToLower(md5))
      ensures now <==> ToLower(md5) !in old(hashes)
      ensures now <==> IsFavorite(md5)
    {
      var key := ToLower(md5);
      if key in hashes {
        hashes := hashes - {key};
        now := false;
      } else {
        hashes := hashes + {key};
        now := true;
      }
    }

    /** `is_favorite`: lookup by the lowercased key. */
    function IsFavorite(md5: string): (r: bool)
      reads this
      ensures r <==> ToLower(md5) in hashes
    {
      InFavorites(hashes, md5)
    }

    function Count(): (n: nat)
      reads this
      ensures n == |hashes|
    {
      |hashes|
    }
  }

  /** `is_favorite` ignores letter case. */
  lemma FavoriteCaseInsensitive(db: FavoritesDb, md5: string)
    ensures db.IsFavorite(md5) == db.IsFavorite(ToLower(md5))
  {
    LowerIdempotent(md5);
  }
}
