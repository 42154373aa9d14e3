/**
 * The string operations of JavaScript that the modelled code uses:
 * `trim`, `toLowerCase`, `startsWith`, `includes`, `split` on one
 * character, `join`, `length` and the `<` order on strings.
 *
 * A `string` here is a sequence of Unicode scalar values; JavaScript
 * counts and compares UTF-16 code units, so `length` and `<` are stated
 * over the UTF-16 encoding of the string.
 */
module Text {

  /**
   * The characters `String.prototype.trim` removes: the ECMAScript
   * WhiteSpace (TAB, VT, FF, ZWNBSP and every Zs space separator) and
   * LineTerminator (LF, CR, LS, PS) characters.
   */
  predicate IsSpace(c: char) {
    || c == '\t' || c == '\U{0B}' || c == '\U{0C}' || c == '\U{FEFF}'
    || c == ' ' || c == '\U{A0}' || c == '\U{1680}' || '\U{2000}' <= c <= '\U{200A}'
    || c == '\U{202F}' || c == '\U{205F}' || c == '\U{3000}'
    || c == '\n' || c == '\r' || c == '\U{2028}' || c == '\U{2029}'
  }

  predicate AllSpace(s: string) {
    forall i :: 0 <= i < |s| ==> IsSpace(s[i])
  }

  /** Neither end of `s` is white space. */
  predicate Trimmed(s: string) {
    s == [] || (!IsSpace(s[0]) && !IsSpace(s[|s| - 1]))
  }

  function TrimStart(s: string): (r: string)
    ensures |r| <= |s|
    ensures r == [] || !IsSpace(r[0])
  {
    if |s| > 0 && IsSpace(s[0]) then TrimStart(s[1..]) else s
  }

  function TrimEnd(s: string): (r: string)
    ensures |r| <= |s|
    ensures r == [] || !IsSpace(r[|r| - 1])
    ensures r != [] ==> r[0] == s[0]
  {
    if |s| > 0 && IsSpace(s[|s| - 1]) then TrimEnd(s[..|s| - 1]) else s
  }

  /** `TrimStart` removes a white-space prefix and keeps the rest. */
  lemma {:induction false} TrimStartSuffix(s: string)
    ensures TrimStart(s) == s[|s| - |TrimStart(s)|..]
    ensures AllSpace(s[..|s| - |TrimStart(s)|])
  {
    if |s| > 0 && IsSpace(s[0]) {
      TrimStartSuffix(s[1..]);
    }
  }

  /** `TrimEnd` removes a white-space suffix and keeps the rest. */
  lemma {:induction false} TrimEndPrefix(s: string)
    ensures TrimEnd(s) == s[..|TrimEnd(s)|]
    ensures AllSpace(s[|TrimEnd(s)|..])
  {
    if |s| > 0 && IsSpace(s[|s| - 1]) {
      TrimEndPrefix(s[..|s| - 1]);
    }
  }

  /** `s.trim()` */
  function Trim(s: string): (r: string)
    ensures Trimmed(r)
    ensures |r| <= |s|
  {
    TrimEnd(TrimStart(s))
  }

  lemma {:induction false} TrimStartOfTrimmed(s: string)
    requires s == [] || !IsSpace(s[0])
    ensures TrimStart(s) == s
  {
  }

  lemma {:induction false} TrimEndOfTrimmed(s: string)
    requires s == [] || !IsSpace(s[|s| - 1])
    ensures TrimEnd(s) == s
  {
  }

  /** A trimmed string is its own trim. */
  lemma TrimOfTrimmed(s: string)
    requires Trimmed(s)
    ensures Trim(s) == s
  {
    TrimStartOfTrimmed(s);
    TrimEndOfTrimmed(s);
  }

  /** Leading white space in front of a trimmed string is removed by `trim`. */
  lemma {:induction false} TrimPadded(pad: string, s: string)
    requires AllSpace(pad) && Trimmed(s)
    ensures Trim(pad + s) == s
  {
    if pad == [] {
      assert pad + s == s;
      TrimOfTrimmed(s);
    } else {
      assert (pad + s)[1..] == pad[1..] + s;
      TrimPadded(pad[1..], s);
    }
  }

  /** `trim` only removes characters: one absent from `s` is absent from its trim. */
  lemma TrimKeepsOut(s: string, c: char)
    requires c !in s
    ensures c !in Trim(s)
  {
    TrimStartSuffix(s);
    TrimEndPrefix(TrimStart(s));
  }

  /** `trim` is empty exactly for an all-white-space string. */
  lemma TrimEmpty(s: string)
    ensures Trim(s) == "" <==> AllSpace(s)
  {
    var t := TrimStart(s);
    TrimStartSuffix(s);
    if t != [] {
      assert !IsSpace(t[0]);
      assert s[|s| - |t|] == t[0];
      TrimEndPrefix(t);
      assert !AllSpace(t);
    }
  }

  /** `toLowerCase` on the basic Latin capitals A-Z; every other character is kept. */
  function LowerChar(c: char): char {
    if 'A' <= c <= 'Z' then (c as int + 32) as char else c
  }

  function Lower(s: string): (r: string)
    ensures |r| == |s|
    ensures forall i :: 0 <= i < |s| ==> r[i] == LowerChar(s[i])
  {
    if s == [] then [] else [LowerChar(s[0])] + Lower(s[1..])
  }

  lemma LowerAppend(a: string, b: string)
    ensures Lower(a + b) == Lower(a) + Lower(b)
  {
    assert forall i :: 0 <= i < |a + b| ==> Lower(a + b)[i] == (Lower(a) + Lower(b))[i];
  }

  /** `s.startsWith(p)` */
  predicate StartsWith(s: string, p: string) {
    |p| <= |s| && s[..|p|] == p
  }

  /** `s.includes(sub)`: some position of `s` starts a copy of `sub`. */
  predicate Contains(s: string, sub: string)
    decreases |s|
  {
    StartsWith(s, sub) || (|s| > 0 && Contains(s[1..], sub))
  }

  /** `s.split(sep)` for a one-character separator. */
  function Split(s: string, sep: char): (r: seq<string>)
    ensures |r| >= 1
    ensures forall i :: 0 <= i < |r| ==> sep !in r[i]
  {
    if s == [] then [""]
    else
      var rest := Split(s[1..], sep);
      if s[0] == sep then [""] + rest
      else [[s[0]] + rest[0]] + rest[1..]
  }

  /** `ws.join(sep)` */
  function Join(ws: seq<string>, sep: string): string {
    if |ws| == 0 then ""
    else if |ws| == 1 then ws[0]
    else ws[0] + sep + Join(ws[1..], sep)
  }

  /** Splitting a word that does not contain the separator, followed by more text. */
  lemma {:induction false} SplitPrefix(w: string, s: string, sep: char)
    requires sep !in w
    ensures Split(w + s, sep) == [w + Split(s, sep)[0]] + Split(s, sep)[1..]
  {
    if w != [] {
      assert (w + s)[1..] == w[1..] + s;
      SplitPrefix(w[1..], s, sep);
      assert [w[0]] + (w[1..] + Split(s, sep)[0]) == w + Split(s, sep)[0];
    } else {
      assert w + s == s;
      var r := Split(s, sep);
      assert r == [r[0]] + r[1..];
      assert w + r[0] == r[0];
    }
  }

  /** Splitting a join undoes it when no piece contains the separator. */
  lemma {:induction false} SplitJoin(ws: seq<string>, sep: char)
    requires |ws| >= 1
    requires forall i :: 0 <= i < |ws| ==> sep !in ws[i]
    ensures Split(Join(ws, [sep]), sep) == ws
  {
    if |ws| == 1 {
      SplitPrefix(ws[0], "", sep);
      assert ws[0] + "" == ws[0];
      assert Split("", sep) == [""];
      assert Join(ws, [sep]) == ws[0];
      assert [ws[0] + ""] + Split("", sep)[1..] == ws;
    } else {
      var tail := Join(ws[1..], [sep]);
      SplitJoin(ws[1..], sep);
      assert Join(ws, [sep]) == ws[0] + ([sep] + tail);
      SplitPrefix(ws[0], [sep] + tail, sep);
      assert ([sep] + tail)[1..] == tail;
      assert Split([sep] + tail, sep) == [""] + ws[1..];
      assert ws[0] + "" == ws[0];
      assert [ws[0]] + ws[1..] == ws;
    }
  }

  /** Prefix every piece with `pad`. */
  function PadAll(ws: seq<string>, pad: string): (r: seq<string>)
    ensures |r| == |ws|
    ensures forall i :: 0 <= i < |ws| ==> r[i] == pad + ws[i]
  {
    if ws == [] then [] else [pad + ws[0]] + PadAll(ws[1..], pad)
  }

  lemma {:induction false} JoinHeadPad(pad: string, w: string, rest: seq<string>, sep: string)
    ensures pad + Join([w] + rest, sep) == Join([pad + w] + rest, sep)
  {
    assert ([w] + rest)[1..] == rest;
    assert ([pad + w] + rest)[1..] == rest;
  }

  /** Joining with `c + pad` is joining the padded tail with `c`. */
  lemma {:induction false} JoinPadded(ws: seq<string>, c: char, pad: string)
    requires |ws| >= 1
    ensures Join(ws, [c] + pad) == Join([ws[0]] + PadAll(ws[1..], pad), [c])
  {
    if |ws| > 1 {
      JoinPadded(ws[1..], c, pad);
      var rest := PadAll(ws[2..], pad);
      assert ws[1..][1..] == ws[2..];
      JoinHeadPad(pad, ws[1], rest, [c]);
      assert PadAll(ws[1..], pad) == [pad + ws[1]] + rest;
      assert ([ws[0]] + PadAll(ws[1..], pad))[1..] == PadAll(ws[1..], pad);
    } else {
      assert [ws[0]] + PadAll(ws[1..], pad) == [ws[0]];
    }
  }

  /** The UTF-16 code units of one character: a surrogate pair above U+FFFF. */
  function UnitsOf(c: char): (u: seq<int>)
    ensures 1 <= |u| <= 2
    ensures |u| == 2 <==> c as int >= 0x10000
    ensures forall i :: 0 <= i < |u| ==> 0 <= u[i] < 0x10000
  {
    var v := c as int;
    if v < 0x10000 then [v]
    else [0xD800 + (v - 0x10000) / 0x400, 0xDC00 + (v - 0x10000) % 0x400]
  }

  /** The UTF-16 encoding of `s`. */
  function Utf16(s: string): (u: seq<int>)
    ensures |s| <= |u| <= 2 * |s|
  {
    if s == [] then [] else UnitsOf(s[0]) + Utf16(s[1..])
  }

  /** `s.length`: the number of UTF-16 code units; zero only for the empty string. */
  function Utf16Length(s: string): (n: nat)
    ensures |s| <= n <= 2 * |s|
    ensures n == 0 <==> s == []
  {
    |Utf16(s)|
  }

  /** A string without characters above U+FFFF has as many code units as characters. */
  lemma {:induction false} Utf16LengthBmp(s: string)
    requires forall i :: 0 <= i < |s| ==> s[i] as int < 0x10000
    ensures Utf16Length(s) == |s|
  {
    if s != [] {
      Utf16LengthBmp(s[1..]);
    }
  }

  /** Lexicographic order on code-unit sequences, as JavaScript's `<` on strings is defined. */
  predicate UnitsLess(a: seq<int>, b: seq<int>) {
    if |a| == 0 then |b| > 0
    else if |b| == 0 then false
    else if a[0] != b[0] then a[0] < b[0]
    else UnitsLess(a[1..], b[1..])
  }

  /**
   * Where a character falls in UTF-16 code-unit order: characters above
   * U+FFFF start with a surrogate (0xD800-0xDBFF) and so sort after
   * U+0000-U+D7FF but before U+E000-U+FFFF.
   */
  function UnitKey(c: char): int {
    if 0xE000 <= c as int <= 0xFFFF then c as int + 0x110000 else c as int
  }

  /** JavaScript's `<` on strings: lexicographic order of the code units. */
  predicate LexLess(a: string, b: string) {
    if |a| == 0 then |b| > 0
    else if |b| == 0 then false
    else if a[0] != b[0] then UnitKey(a[0]) < UnitKey(b[0])
    else LexLess(a[1..], b[1..])
  }

  lemma {:induction false} UnitsLessCommonPrefix(p: seq<int>, x: seq<int>, y: seq<int>)
    ensures UnitsLess(p + x, p + y) <==> UnitsLess(x, y)
  {
    if p != [] {
      assert (p + x)[1..] == p[1..] + x;
      assert (p + y)[1..] == p[1..] + y;
      UnitsLessCommonPrefix(p[1..], x, y);
    } else {
      assert p + x == x && p + y == y;
    }
  }

  /** Two different characters: their first differing code unit orders them as `UnitKey` does. */
  lemma UnitsOfOrder(c: char, d: char, x: seq<int>, y: seq<int>)
    requires c != d
    ensures UnitsLess(UnitsOf(c) + x, UnitsOf(d) + y) <==> UnitKey(c) < UnitKey(d)
  {
    var v, w := c as int, d as int;
    var u, t := UnitsOf(c) + x, UnitsOf(d) + y;
    assert u[0] == UnitsOf(c)[0] && t[0] == UnitsOf(d)[0];
    if v >= 0x10000 && w >= 0x10000 && (v - 0x10000) / 0x400 == (w - 0x10000) / 0x400 {
      assert u[1..][0] == UnitsOf(c)[1] && t[1..][0] == UnitsOf(d)[1];
      assert (v - 0x10000) % 0x400 != (w - 0x10000) % 0x400;
    }
  }

  /** `LexLess` is the code-unit order of the UTF-16 encodings. */
  lemma {:induction false} LexLessUtf16(a: string, b: string)
    ensures LexLess(a, b) <==> UnitsLess(Utf16(a), Utf16(b))
  {
    if a != [] && b != [] {
      if a[0] == b[0] {
        LexLessUtf16(a[1..], b[1..]);
        UnitsLessCommonPrefix(UnitsOf(a[0]), Utf16(a[1..]), Utf16(b[1..]));
      } else {
        UnitsOfOrder(a[0], b[0], Utf16(a[1..]), Utf16(b[1..]));
      }
    }
  }

  lemma {:induction false} LexLessIrreflexive(a: string)
    ensures !LexLess(a, a)
  {
    if |a| > 0 { LexLessIrreflexive(a[1..]); }
  }

  lemma {:induction false} LexLessTransitive(a: string, b: string, c: string)
    requires LexLess(a, b) && LexLess(b, c)
    ensures LexLess(a, c)
  {
    if |a| > 0 && |b| > 0 && |c| > 0 && a[0] == b[0] && b[0] == c[0] {
      LexLessTransitive(a[1..], b[1..], c[1..]);
    }
  }

  lemma {:induction false} LexLessAsymmetric(a: string, b: string)
    ensures !(LexLess(a, b) && LexLess(b, a))
  {
    if |a| > 0 && |b| > 0 && a[0] == b[0] {
      LexLessAsymmetric(a[1..], b[1..]);
    }
  }

  /** "Not below" is transitive: `a <= b <= c` gives `a <= c`. */
  lemma {:induction false} LexLessEqTransitive(a: string, b: string, c: string)
    requires !LexLess(b, a) && !LexLess(c, b)
    ensures !LexLess(c, a)
  {
    if |a| > 0 && |b| > 0 && |c| > 0 && a[0] == b[0] && b[0] == c[0] {
      LexLessEqTransitive(a[1..], b[1..], c[1..]);
    }
  }

  /** Two strings neither of which is below the other are equal. */
  lemma {:induction false} LexLessTotal(a: string, b: string)
    requires !LexLess(a, b) && !LexLess(b, a)
    ensures a == b
  {
    if |a| > 0 && |b| > 0 {
      LexLessTotal(a[1..], b[1..]);
      assert a == [a[0]] + a[1..];
      assert b == [b[0]] + b[1..];
    }
  }
}
