/**
 * The JavaScript string and number built-ins the core relies on, written out
 * so that their edge cases are explicit: `trim`, `toLowerCase` (ASCII),
 * `split(' ')` and `join(' ')`, the legacy `substr`, `padStart`,
 * `Number.prototype.toString(radix)` for non-negative integers, and the
 * UTF-16 code units that `length` and `charCodeAt` see.
 */
module JsText {

  /** The characters `String.prototype.trim` removes: WhiteSpace and LineTerminator. */
  predicate IsJsWhitespace(c: char) {
    || c == '\t' || c == '\n' || c == '\U{000B}' || c == '\U{000C}' || c == '\r' || c == ' '
    || c == '\U{00A0}' || c == '\U{1680}' || ('\U{2000}' <= c <= '\U{200A}')
    || c == '\U{2028}' || c == '\U{2029}' || c == '\U{202F}' || c == '\U{205F}'
    || c == '\U{3000}' || c == '\U{FEFF}'
  }

  predicate AllWhitespace(s: string) {
    forall i :: 0 <= i < |s| ==> IsJsWhitespace(s[i])
  }

  /** Drops leading whitespace. */
  function TrimStart(s: string): string {
    if |s| > 0 && IsJsWhitespace(s[0]) then TrimStart(s[1..]) else s
  }

  /** The result of `TrimStart` is the suffix of `s` that starts at its first other character. */
  lemma {:induction false} TrimStartFacts(s: string)
    ensures var r := TrimStart(s);
      |r| <= |s| && r == s[|s| - |r|..] && AllWhitespace(s[..|s| - |r|]) &&
      (r != [] ==> !IsJsWhitespace(r[0]))
  {
    if |s| > 0 && IsJsWhitespace(s[0]) {
      TrimStartFacts(s[1..]);
      var r := TrimStart(s);
      assert s[..|s| - |r|] == [s[0]] + s[1..][..|s| - 1 - |r|];
    }
  }

  /** Drops trailing whitespace. */
  function TrimEnd(s: string): string {
    if |s| > 0 && IsJsWhitespace(s[|s| - 1]) then TrimEnd(s[..|s| - 1]) else s
  }

  /** The result of `TrimEnd` is the prefix of `s` that ends at its last other character. */
  lemma {:induction false} TrimEndFacts(s: string)
    ensures var r := TrimEnd(s);
      |r| <= |s| && r == s[..|r|] && AllWhitespace(s[|r|..]) &&
      (r != [] ==> !IsJsWhitespace(r[|r| - 1]))
  {
    if |s| > 0 && IsJsWhitespace(s[|s| - 1]) {
      var t := s[..|s| - 1];
      TrimEndFacts(t);
      var r := TrimEnd(s);
      assert s[|r|..] == t[|r|..] + [s[|s| - 1]];
      assert t[..|r|] == s[..|r|];
    }
  }

  /** `s.trim()`. */
  function Trim(s: string): string {
    TrimEnd(TrimStart(s))
  }

  /** `s.trim()` is empty exactly when `s` holds nothing but whitespace, and never begins or ends with whitespace. */
  lemma TrimFacts(s: string)
    ensures Trim(s) == [] <==> AllWhitespace(s)
    ensures var r := Trim(s); r != [] ==> !IsJsWhitespace(r[0]) && !IsJsWhitespace(r[|r| - 1])
    ensures |Trim(s)| <= |s|
  {
    var t := TrimStart(s);
    var r := TrimEnd(t);
    TrimStartFacts(s);
    TrimEndFacts(t);
    var k := |s| - |t|;
    assert t != [] ==> !IsJsWhitespace(s[k]);
    if r == [] {
      assert t[|r|..] == t;
      assert t == [];
      forall i | 0 <= i < |s| ensures IsJsWhitespace(s[i]) {
        assert s[i] == s[..k][i];
      }
    } else {
      assert r[0] == t[0];
    }
  }

  /** `toLowerCase` on one character: a capital becomes its small letter, 32 code points on. */
  function ToLowerChar(c: char): (d: char)
    ensures 'A' <= c <= 'Z' ==> 'a' <= d <= 'z' && d as int == c as int + 32
    ensures !('A' <= c <= 'Z') ==> d == c
  {
    if 'A' <= c <= 'Z' then (c as int + 32) as char else c
  }

  /** `s.toLowerCase()` on the ASCII letters; every other character is kept. */
  function ToLower(s: string): string {
    if s == [] then [] else [ToLowerChar(s[0])] + ToLower(s[1..])
  }

  /** `toLowerCase` maps each character on its own and keeps the length. */
  lemma {:induction false} ToLowerFacts(s: string)
    ensures |ToLower(s)| == |s|
    ensures forall i :: 0 <= i < |s| ==> ToLower(s)[i] == ToLowerChar(s[i])
  {
    if s != [] {
      ToLowerFacts(s[1..]);
    }
  }

  /** Lower-casing a concatenation lower-cases each part. */
  lemma {:induction false} ToLowerAppend(a: string, b: string)
    ensures ToLower(a + b) == ToLower(a) + ToLower(b)
  {
    if a == [] {
      assert a + b == b;
    } else {
      assert (a + b)[0] == a[0] && (a + b)[1..] == a[1..] + b;
      ToLowerAppend(a[1..], b);
    }
  }

  /** Whitespace has no case: lower-casing leaves it as it is. */
  lemma {:induction false} ToLowerKeepsWhitespace(s: string)
    requires AllWhitespace(s)
    ensures ToLower(s) == s
  {
    if s != [] {
      ToLowerKeepsWhitespace(s[1..]);
    }
  }

  /** `trim` skips any run of leading whitespace. */
  lemma {:induction false} TrimStartSkips(pre: string, x: string)
    requires AllWhitespace(pre)
    ensures TrimStart(pre + x) == TrimStart(x)
  {
    if pre == [] {
      assert pre + x == x;
    } else {
      assert (pre + x)[0] == pre[0] && (pre + x)[1..] == pre[1..] + x;
      TrimStartSkips(pre[1..], x);
    }
  }

  /** `trim` skips any run of trailing whitespace. */
  lemma {:induction false} TrimEndSkips(x: string, post: string)
    requires AllWhitespace(post)
    ensures TrimEnd(x + post) == TrimEnd(x)
  {
    if post == [] {
      assert x + post == x;
    } else {
      var y := x + post;
      assert y[|y| - 1] == post[|post| - 1] && y[..|y| - 1] == x + post[..|post| - 1];
      TrimEndSkips(x, post[..|post| - 1]);
    }
  }

  /** Trimming a text that is surrounded by whitespace, and neither starts nor ends with it, gives the text back. */
  lemma TrimAround(pre: string, core: string, post: string)
    requires AllWhitespace(pre) && AllWhitespace(post)
    requires core != [] && !IsJsWhitespace(core[0]) && !IsJsWhitespace(core[|core| - 1])
    ensures Trim(pre + core + post) == core
  {
    assert pre + core + post == pre + (core + post);
    TrimStartSkips(pre, core + post);
    assert (core + post)[0] == core[0];
    TrimEndSkips(core, post);
  }

  /** `s.split(' ')`: the pieces between single spaces; never empty (`"".split(' ')` is `[""]`). */
  function Split(s: string): (words: seq<string>)
    ensures |words| >= 1
    ensures forall i :: 0 <= i < |words| ==> ' ' !in words[i]
  {
    if |s| == 0 then [""]
    else
      var rest := Split(s[1..]);
      if s[0] == ' ' then [""] + rest
      else [[s[0]] + rest[0]] + rest[1..]
  }

  /** `words.join(' ')`. */
  function Join(words: seq<string>): string {
    if |words| == 0 then ""
    else if |words| == 1 then words[0]
    else words[0] + " " + Join(words[1..])
  }

  /** Splitting on spaces and joining with spaces gives back the original text. */
  lemma {:induction false} JoinSplit(s: string)
    ensures Join(Split(s)) == s
  {
    if |s| > 0 {
      var rest := Split(s[1..]);
      JoinSplit(s[1..]);
      assert s == [s[0]] + s[1..];
      if s[0] != ' ' && |rest| > 1 {
        assert Split(s)[1..] == rest[1..];
      }
    }
  }

  lemma {:induction false} SplitWordThen(w: string, t: string)
    requires ' ' !in w
    ensures Split(w + t) == [w + Split(t)[0]] + Split(t)[1..]
  {
    if |w| > 0 {
      var st := Split(t);
      SplitWordThen(w[1..], t);
      assert (w + t)[1..] == w[1..] + t;
      assert (w + t)[0] == w[0] && w[0] != ' ';
      var rest := Split(w[1..] + t);
      assert Split(w + t) == [[w[0]] + rest[0]] + rest[1..];
      assert [w[0]] + (w[1..] + st[0]) == w + st[0];
    } else {
      assert w + t == t;
      var st := Split(t);
      assert w == [];
      assert w + st[0] == st[0];
      assert st == [st[0]] + st[1..];
    }
  }

  /** Conversely, joining words that hold no space and splitting again gives back the words. */
  lemma {:induction false} SplitJoin(words: seq<string>)
    requires |words| >= 1
    requires forall i :: 0 <= i < |words| ==> ' ' !in words[i]
    ensures Split(Join(words)) == words
  {
    if |words| == 1 {
      SplitWordThen(words[0], "");
      assert words[0] + "" == words[0];
    } else {
      var tail := Join(words[1..]);
      SplitJoin(words[1..]);
      assert Split(" " + tail) == [""] + Split(tail) by {
        assert (" " + tail)[1..] == tail;
      }
      SplitWordThen(words[0], " " + tail);
      assert words[0] + " " + tail == words[0] + (" " + tail);
      assert words[0] + "" == words[0];
    }
  }

  /** Joining one more word appends a space and the word: what the reveal loop's `currentText +=` does. */
  lemma {:induction false} JoinSnoc(words: seq<string>, w: string)
    requires |words| >= 1
    ensures Join(words + [w]) == Join(words) + " " + w
  {
    if |words| > 1 {
      JoinSnoc(words[1..], w);
      assert (words + [w])[1..] == words[1..] + [w];
    }
  }

  /** Joining two non-empty runs of words puts one space between them. */
  lemma {:induction false} JoinAppend(a: seq<string>, b: seq<string>)
    requires |a| >= 1 && |b| >= 1
    ensures Join(a + b) == Join(a) + " " + Join(b)
  {
    if |a| > 1 {
      JoinAppend(a[1..], b);
      assert (a + b)[1..] == a[1..] + b;
    } else {
      assert (a + b)[1..] == b;
    }
  }

  function Min(a: int, b: int): int { if a <= b then a else b }

  /** The legacy `s.substr(start, length)` for a non-negative start: at most `length` characters from `start` on. */
  function Substr(s: string, start: nat, length: nat): (r: string)
    ensures |r| == Min(length, |s| - Min(start, |s|))
    ensures forall i :: 0 <= i < |r| ==> r[i] == s[start + i]
  {
    var from := Min(start, |s|);
    s[from..Min(from + length, |s|)]
  }

  /** `s.padStart(n, [c])`: `s` preceded by as many `c` as make it `n` long, or `s` itself when it is long enough. */
  function PadStart(s: string, n: nat, c: char): (r: string)
    ensures |r| == if |s| >= n then |s| else n
    ensures r[|r| - |s|..] == s
    ensures forall i :: 0 <= i < |r| - |s| ==> r[i] == c
  {
    if |s| >= n then s else seq(n - |s|, _ => c) + s
  }

  function DigitChar(d: nat): (c: char)
    requires d < 36
    ensures DigitValue(c) == d
  {
    if d < 10 then ('0' as int + d) as char else ('a' as int + d - 10) as char
  }

  /** The value of a digit character, `-1` for a character that is not a lower-case base-36 digit. */
  function DigitValue(c: char): int {
    if '0' <= c <= '9' then c as int - '0' as int
    else if 'a' <= c <= 'z' then c as int - 'a' as int + 10
    else -1
  }

  predicate IsDigitIn(c: char, radix: nat) {
    0 <= DigitValue(c) < radix
  }

  function Pow(b: nat, k: nat): nat {
    if k == 0 then 1 else b * Pow(b, k - 1)
  }

  /** `n.toString(radix)` for a non-negative integer: its digits, most significant first, with no leading zero. */
  function NumberToString(n: nat, radix: nat): (r: string)
    requires 2 <= radix <= 36
    ensures |r| >= 1
    ensures forall i :: 0 <= i < |r| ==> IsDigitIn(r[i], radix)
    ensures DigitValue(r[0]) == 0 ==> n == 0
    decreases n
  {
    if n < radix then [DigitChar(n)]
    else
      var q, d := n / radix, n % radix;
      assert 1 <= q < n && d < radix by { DivModFacts(n, radix); }
      NumberToString(q, radix) + [DigitChar(d)]
  }

  lemma DivModFacts(n: nat, radix: nat)
    requires 2 <= radix <= n
    ensures 1 <= n / radix < n && n % radix < radix
    ensures n == (n / radix) * radix + n % radix
  {
  }

  /** Reads digits back, most significant first: the inverse of `NumberToString`. */
  function DigitsValue(s: string, radix: nat): int {
    if s == [] then 0 else DigitsValue(s[..|s| - 1], radix) * radix + DigitValue(s[|s| - 1])
  }

  lemma {:induction false} NumberToStringRoundTrip(n: nat, radix: nat)
    requires 2 <= radix <= 36
    ensures DigitsValue(NumberToString(n, radix), radix) == n
  {
    var r := NumberToString(n, radix);
    if n >= radix {
      DivModFacts(n, radix);
      NumberToStringRoundTrip(n / radix, radix);
      assert r[..|r| - 1] == NumberToString(n / radix, radix);
    }
  }

  /** A number below `radix^k` has at most `k` digits. */
  lemma {:induction false} NumberToStringLength(n: nat, radix: nat, k: nat)
    requires 2 <= radix <= 36 && k >= 1
    requires n < Pow(radix, k)
    ensures |NumberToString(n, radix)| <= k
  {
    if n >= radix {
      assert Pow(radix, 1) == radix;
      assert k >= 2;
      DivModFacts(n, radix);
      assert n / radix < Pow(radix, k - 1) by {
        if n / radix >= Pow(radix, k - 1) {
          MulMono(Pow(radix, k - 1), n / radix, radix);
        }
      }
      NumberToStringLength(n / radix, radix, k - 1);
    }
  }

  lemma MulMono(a: nat, b: nat, m: nat)
    requires a <= b
    ensures a * m <= b * m
  {
  }

  /** The UTF-16 code units of one character. */
  function CodeUnits(c: char): (units: seq<int>)
    ensures 1 <= |units| <= 2
    ensures forall i :: 0 <= i < |units| ==> 0 <= units[i] < 0x10000
    ensures c as int < 0x10000 <==> units == [c as int]
    ensures c as int >= 0x10000 ==>
      |units| == 2 && 0xD800 <= units[0] < 0xDC00 && 0xDC00 <= units[1] < 0xE000 &&
      0x10000 + (units[0] - 0xD800) * 0x400 + (units[1] - 0xDC00) == c as int
  {
    if c as int < 0x10000 then [c as int]
    else
      var v := c as int - 0x10000;
      [0xD800 + v / 0x400, 0xDC00 + v % 0x400]
  }

  /** The code units a JavaScript string holds: what `length` counts and `charCodeAt` reads. */
  function Utf16(s: string): (units: seq<int>)
    ensures |units| >= |s|
    ensures forall i :: 0 <= i < |units| ==> 0 <= units[i] < 0x10000
  {
    if s == [] then [] else CodeUnits(s[0]) + Utf16(s[1..])
  }
}
