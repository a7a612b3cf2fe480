/** The string primitives the card code relies on, written out so that their behaviour is
    explicit: JavaScript's `trim`, `startsWith`, `padEnd`, `padStart`, `split`/`join`, and
    Python's `strip`, `startswith`, `ljust`, `split`, `lower`. Strings are sequences of
    characters and every length is a character count. */
module Text {
  import opened Wrappers

  /** `s.startsWith(p)` in JavaScript, `s.startswith(p)` in Python. */
  predicate StartsWith(s: string, p: string) {
    |p| <= |s| && s[..|p|] == p
  }

  /** A string starting with `p + q` starts with `p`. */
  lemma PrefixOfLonger(s: string, p: string, q: string)
    ensures StartsWith(s, p + q) ==> StartsWith(s, p)
  {
    if StartsWith(s, p + q) {
      assert s[..|p|] == s[..|p + q|][..|p|];
    }
  }

  /** A prefix put in front keeps the suffixes of what follows. */
  lemma PrefixKeepsSuffix(p: string, s: string, q: string)
    requires EndsWith(s, q)
    ensures StartsWith(p + s, p) && EndsWith(p + s, q)
  {
    assert (p + s)[..|p|] == p;
    assert (p + s)[|p + s| - |q|..] == s[|s| - |q|..];
  }

  /** `s` ends with `p`. */
  predicate EndsWith(s: string, p: string) {
    |p| <= |s| && s[|s| - |p|..] == p
  }

  /** Truthiness of an optional string in both languages: present and not empty. */
  predicate Truthy(v: Option<string>) {
    v.Some? && v.value != ""
  }

  /** JavaScript `a || b` on optional strings: `a` when it is truthy, otherwise `b`. */
  function Or(a: Option<string>, b: Option<string>): (r: Option<string>)
    ensures Truthy(a) ==> r == a
    ensures !Truthy(a) ==> r == b
  {
    if Truthy(a) then a else b
  }

  /** `v || fallback` where the fallback is a plain string. */
  function OrElse(v: Option<string>, fallback: string): (r: string)
    ensures Truthy(v) ==> r == v.value
    ensures !Truthy(v) ==> r == fallback
  {
    if Truthy(v) then v.value else fallback
  }

  // ---------------------------------------------------------------------------
  // Whitespace and trimming

  /** The characters `String.prototype.trim` removes: ECMAScript WhiteSpace and LineTerminator. */
  predicate IsJsSpace(c: char) {
    c == '\t' || c == '\n' || c == '\U{B}' || c == '\U{C}' || c == '\r' || c == ' '
    || c == '\U{A0}' || c == '\U{1680}' || ('\U{2000}' <= c <= '\U{200A}')
    || c == '\U{2028}' || c == '\U{2029}' || c == '\U{202F}' || c == '\U{205F}'
    || c == '\U{3000}' || c == '\U{FEFF}'
  }

  /** The characters Python's argument-less `str.strip()` removes (those `str.isspace` accepts). */
  predicate IsPySpace(c: char) {
    ('\t' <= c <= '\r') || ('\U{1C}' <= c <= '\U{1F}') || c == ' '
    || c == '\U{85}' || c == '\U{A0}' || c == '\U{1680}' || ('\U{2000}' <= c <= '\U{200A}')
    || c == '\U{2028}' || c == '\U{2029}' || c == '\U{202F}' || c == '\U{205F}'
    || c == '\U{3000}'
  }

  /** Drops the leading characters of class `ws`. */
  function TrimStart(s: string, ws: char -> bool): (r: string)
    ensures |r| <= |s| && r == s[|s| - |r|..]
    ensures r == [] || !ws(r[0])
    ensures forall i :: 0 <= i < |s| - |r| ==> ws(s[i])
    decreases |s|
  {
    if |s| > 0 && ws(s[0]) then TrimStart(s[1..], ws) else s
  }

  /** Drops the trailing characters of class `ws`. */
  function TrimEnd(s: string, ws: char -> bool): (r: string)
    ensures |r| <= |s| && r == s[..|r|]
    ensures r == [] || !ws(r[|r| - 1])
    ensures forall i :: |r| <= i < |s| ==> ws(s[i])
    decreases |s|
  {
    if |s| > 0 && ws(s[|s| - 1]) then TrimEnd(s[..|s| - 1], ws) else s
  }

  /** `trim()`/`strip()` for the whitespace class `ws`: the result is the part of `s` between
      its leading and its trailing whitespace, and it neither starts nor ends with whitespace. */
  function Trim(s: string, ws: char -> bool): (r: string)
    ensures exists a :: InfixAt(r, s, a)
    ensures r == [] || (!ws(r[0]) && !ws(r[|r| - 1]))
  {
    var e := TrimEnd(s, ws);
    var r := TrimStart(e, ws);
    assert InfixAt(r, s, |e| - |r|);
    r
  }

  /** `r` occurs in `s` at index `a`. */
  predicate InfixAt(r: string, s: string, a: int) {
    0 <= a && a + |r| <= |s| && s[a..a + |r|] == r
  }

  /** JavaScript `s.trim()`. */
  function JsTrim(s: string): string {
    Trim(s, IsJsSpace)
  }

  /** Python `s.strip()`. */
  function PyStrip(s: string): string {
    Trim(s, IsPySpace)
  }

  /** `v?.trim()` is truthy: the optional string is present and not blank in JavaScript's sense. */
  predicate JsPresent(v: Option<string>) {
    v.Some? && JsTrim(v.value) != []
  }

  /** `v and v.strip()` is truthy: present and not blank in Python's sense. */
  predicate PyPresent(v: Option<string>) {
    v.Some? && PyStrip(v.value) != []
  }

  /** A string trims to nothing exactly when every character of it is whitespace. */
  lemma TrimBlank(s: string, ws: char -> bool)
    ensures Trim(s, ws) == [] <==> forall i :: 0 <= i < |s| ==> ws(s[i])
  {
    var e := TrimEnd(s, ws);
    assert forall i :: 0 <= i < |e| ==> e[i] == s[i];
    assert e == [] || !ws(s[|e| - 1]);
  }

  /** A string that already neither starts nor ends with whitespace is left alone. */
  lemma TrimUnchanged(s: string, ws: char -> bool)
    requires s == [] || (!ws(s[0]) && !ws(s[|s| - 1]))
    ensures Trim(s, ws) == s
  {
  }

  /** Trimming twice is trimming once. */
  lemma TrimIdempotent(s: string, ws: char -> bool)
    ensures Trim(Trim(s, ws), ws) == Trim(s, ws)
  {
    TrimUnchanged(Trim(s, ws), ws);
  }

  /** Trailing whitespace after a word that ends in a non-space is all `TrimEnd` removes. */
  lemma {:induction false} TrimEndAfterWord(p: string, r: string, ws: char -> bool)
    requires p != [] && !ws(p[|p| - 1])
    ensures TrimEnd(p + r, ws) == p + TrimEnd(r, ws)
    decreases |r|
  {
    if r != [] && ws(r[|r| - 1]) {
      assert (p + r)[..|p + r| - 1] == p + r[..|r| - 1];
      TrimEndAfterWord(p, r[..|r| - 1], ws);
    } else if r == [] {
      assert p + r == p;
    }
  }

  /** Trimming a string that starts with a word touches only what follows the word. */
  lemma TrimAfterWord(p: string, r: string, ws: char -> bool)
    requires p != [] && !ws(p[0]) && !ws(p[|p| - 1])
    ensures Trim(p + r, ws) == p + TrimEnd(r, ws)
  {
    TrimEndAfterWord(p, r, ws);
  }

  /** Two whitespace classes that agree on every character of `s` trim it the same way. */
  lemma {:induction false} TrimAgrees(s: string, ws1: char -> bool, ws2: char -> bool)
    requires forall i :: 0 <= i < |s| ==> ws1(s[i]) == ws2(s[i])
    ensures (Trim(s, ws1) == []) == (Trim(s, ws2) == [])
  {
    TrimBlank(s, ws1);
    TrimBlank(s, ws2);
  }

  // ---------------------------------------------------------------------------
  // Padding

  /** `n` copies of the character `c`. */
  function Repeat(c: char, n: nat): (r: string)
    ensures |r| == n && forall i :: 0 <= i < n ==> r[i] == c
  {
    seq(n, _ => c)
  }

  /** `s.padEnd(width)` in JavaScript, `s.ljust(width)` in Python: spaces are appended up to
      `width`; a longer string is returned as it is, never cut. */
  function PadEnd(s: string, width: nat): (r: string)
    ensures |r| == if |s| < width then width else |s|
    ensures r[..|s|] == s
    ensures forall i :: |s| <= i < |r| ==> r[i] == ' '
  {
    if |s| < width then s + Repeat(' ', width - |s|) else s
  }

  /** `s.padStart(width, c)`: copies of `c` are put in front up to `width`. */
  function PadStart(s: string, width: nat, c: char): (r: string)
    ensures |r| == if |s| < width then width else |s|
    ensures r[|r| - |s|..] == s
    ensures forall i :: 0 <= i < |r| - |s| ==> r[i] == c
  {
    if |s| < width then Repeat(c, width - |s|) + s else s
  }

  // ---------------------------------------------------------------------------
  // Case

  /** Lower-casing of one character (the ASCII letters). */
  function LowerChar(c: char): (r: char)
    ensures !('A' <= r <= 'Z')
    ensures !('A' <= c <= 'Z') ==> r == c
  {
    if 'A' <= c <= 'Z' then (c as int + 32) as char else c
  }

  /** Python `s.lower()`, on the ASCII letters. */
  function Lower(s: string): (r: string)
    ensures |r| == |s| && forall i :: 0 <= i < |s| ==> r[i] == LowerChar(s[i])
  {
    seq(|s|, i requires 0 <= i < |s| => LowerChar(s[i]))
  }

  /** Lower-casing twice is lower-casing once. */
  lemma LowerIdempotent(s: string)
    ensures Lower(Lower(s)) == Lower(s)
  {
  }

  // ---------------------------------------------------------------------------
  // Occurrences, split, join, replace

  /** `key` occurs in `s` starting at index `i`. */
  predicate OccursAt(s: string, key: string, i: int) {
    0 <= i && i + |key| <= |s| && s[i..i + |key|] == key
  }

  /** `key` occurs somewhere in `s`. */
  predicate Occurs(s: string, key: string) {
    exists i :: 0 <= i <= |s| && OccursAt(s, key, i)
  }

  /** `s.split(sep)` (both languages, for a non-empty separator): the pieces between the
      occurrences of `sep`, found left to right without overlap. There is always at least one
      piece, and the first piece is a prefix of `s`. */
  function Split(s: string, sep: string): (parts: seq<string>)
    requires sep != []
    ensures |parts| >= 1
    ensures |parts[0]| <= |s| && parts[0] == s[..|parts[0]|]
    decreases |s|
  {
    if |s| < |sep| then [s]
    else if s[..|sep|] == sep then [[]] + Split(s[|sep|..], sep)
    else
      var rest := Split(s[1..], sep);
      [[s[0]] + rest[0]] + rest[1..]
  }

  /** `parts.join(sep)`: the pieces with `sep` between consecutive ones; `[]` joins to "". */
  function Join(parts: seq<string>, sep: string): string
    decreases |parts|
  {
    if |parts| == 0 then []
    else if |parts| == 1 then parts[0]
    else parts[0] + sep + Join(parts[1..], sep)
  }

  /** Splitting on `sep` and joining with `sep` gives back the original string. */
  lemma {:induction false} JoinSplit(s: string, sep: string)
    requires sep != []
    ensures Join(Split(s, sep), sep) == s
    decreases |s|
  {
    if |s| < |sep| {
    } else if s[..|sep|] == sep {
      var tail := Split(s[|sep|..], sep);
      assert Split(s, sep) == [[]] + tail;
      JoinSplit(s[|sep|..], sep);
      JoinAfterEmpty(tail, sep);
      assert s == sep + s[|sep|..];
    } else {
      var rest := Split(s[1..], sep);
      assert Split(s, sep) == [[s[0]] + rest[0]] + rest[1..];
      JoinSplit(s[1..], sep);
      JoinCons([s[0]], rest, sep);
      assert [s[0]] + s[1..] == s;
    }
  }

  /** An empty first piece contributes only the separator. */
  lemma JoinAfterEmpty(tail: seq<string>, sep: string)
    requires |tail| >= 1
    ensures Join([[]] + tail, sep) == sep + Join(tail, sep)
  {
    var parts := [[]] + tail;
    assert parts[1..] == tail;
    assert Join(parts, sep) == [] + sep + Join(tail, sep);
  }

  /** Putting `x` in front of the first piece puts it in front of the join. */
  lemma JoinCons(x: string, rest: seq<string>, sep: string)
    requires |rest| >= 1
    ensures Join([x + rest[0]] + rest[1..], sep) == x + Join(rest, sep)
  {
    var parts := [x + rest[0]] + rest[1..];
    if |rest| > 1 {
      assert parts[1..] == rest[1..];
      calc {
        Join(parts, sep);
        parts[0] + sep + Join(rest[1..], sep);
        x + (rest[0] + sep + Join(rest[1..], sep));
        x + Join(rest, sep);
      }
    }
  }

  /** No piece of a split contains the separator: every occurrence was cut out. */
  lemma {:induction false} SplitPiecesFree(s: string, sep: string)
    requires sep != []
    ensures forall k :: 0 <= k < |Split(s, sep)| ==> !Occurs(Split(s, sep)[k], sep)
    decreases |s|
  {
    var parts := Split(s, sep);
    if |s| < |sep| {
      forall i ensures !OccursAt(s, sep, i) {
      }
    } else if s[..|sep|] == sep {
      SplitPiecesFree(s[|sep|..], sep);
      forall i ensures !OccursAt([], sep, i) {
      }
      assert parts == [[]] + Split(s[|sep|..], sep);
    } else {
      var rest := Split(s[1..], sep);
      SplitPiecesFree(s[1..], sep);
      var p0 := [s[0]] + rest[0];
      assert p0 == s[..|p0|];
      forall i ensures !OccursAt(p0, sep, i) {
        if i == 0 {
          if |sep| <= |p0| {
            assert p0[..|sep|] == s[..|sep|];
          }
        } else if i > 0 && i + |sep| <= |p0| {
          assert p0[i..i + |sep|] == rest[0][i - 1..i - 1 + |sep|];
          assert !OccursAt(rest[0], sep, i - 1);
        }
      }
      assert parts == [p0] + rest[1..];
      forall k | 1 <= k < |parts| ensures !Occurs(parts[k], sep) {
        assert parts[k] == rest[k];
      }
    }
  }

  /** A string without the separator splits into itself alone. */
  lemma {:induction false} SplitAbsent(s: string, sep: string)
    requires sep != [] && !Occurs(s, sep)
    ensures Split(s, sep) == [s]
    decreases |s|
  {
    if |s| >= |sep| {
      assert !OccursAt(s, sep, 0);
      forall i ensures !OccursAt(s[1..], sep, i) {
        if 0 <= i && i + |sep| <= |s| - 1 {
          assert s[1..][i..i + |sep|] == s[i + 1..i + 1 + |sep|];
          assert !OccursAt(s, sep, i + 1);
        }
      }
      SplitAbsent(s[1..], sep);
      assert [s[0]] + s[1..] == s;
    }
  }

  /** For a one-character separator, splitting `a + sep + b` splits `a` and `b` separately. */
  lemma {:induction false} SplitAround(a: string, sep: string, b: string)
    requires |sep| == 1
    ensures Split(a + sep + b, sep) == Split(a, sep) + Split(b, sep)
    decreases |a|
  {
    var s := a + sep + b;
    assert s[0] == if a == [] then sep[0] else a[0];
    if a == [] {
      assert s[1..] == b;
      SplitHeadSep(s, sep);
    } else {
      var a' := a[1..];
      assert s[1..] == a' + sep + b;
      SplitAround(a', sep, b);
      var ra, rb := Split(a', sep), Split(b, sep);
      if [a[0]] == sep {
        SplitHeadSep(a, sep);
        SplitHeadSep(s, sep);
      } else {
        SplitHeadOther(a, sep);
        SplitHeadOther(s, sep);
        assert (ra + rb)[0] == ra[0] && (ra + rb)[1..] == ra[1..] + rb;
      }
    }
  }

  /** A string starting with a one-character separator splits into an empty piece and the
      pieces of the rest. */
  lemma SplitHeadSep(x: string, sep: string)
    requires |sep| == 1 && |x| >= 1 && [x[0]] == sep
    ensures Split(x, sep) == [[]] + Split(x[1..], sep)
  {
    assert x[..1] == [x[0]];
  }

  /** A string starting with another character splits with that character in front of the
      first piece of the rest. */
  lemma SplitHeadOther(x: string, sep: string)
    requires |sep| == 1 && |x| >= 1 && [x[0]] != sep
    ensures var rest := Split(x[1..], sep); Split(x, sep) == [[x[0]] + rest[0]] + rest[1..]
  {
    assert x[..1] == [x[0]];
  }

  /** `s.split(key).join(value)`: every occurrence of `key` in `s` replaced by `value`. */
  function ReplaceAll(s: string, key: string, value: string): string
    requires key != []
  {
    Join(Split(s, key), value)
  }

  /** What `ReplaceAll` does, stated through its pieces: `s` is the pieces joined by `key`, no
      piece contains `key`, and the result is the same pieces joined by `value`. */
  lemma ReplaceAllPieces(s: string, key: string, value: string)
    requires key != []
    ensures var pieces := Split(s, key);
      && Join(pieces, key) == s
      && (forall k :: 0 <= k < |pieces| ==> !Occurs(pieces[k], key))
      && ReplaceAll(s, key, value) == Join(pieces, value)
  {
    JoinSplit(s, key);
    SplitPiecesFree(s, key);
  }

  /** Replacing a key that does not occur changes nothing. */
  lemma ReplaceAllAbsent(s: string, key: string, value: string)
    requires key != [] && !Occurs(s, key)
    ensures ReplaceAll(s, key, value) == s
  {
    SplitAbsent(s, key);
  }
}
