/**
 * The string and path primitives the pipeline leans on: Python's
 * `str.split()`, `str.lower()`, `str.replace(c, d)`, the `%02d` integer
 * format, and `os.path.basename`, `os.path.splitext`, `os.path.join`.
 */
module Text {

  /** The characters Python's `str.isspace()` accepts, which `str.split()` breaks on. */
  predicate IsSpace(c: char)
  {
    || c == ' '
    || ('\t' <= c <= '\r')
    || ('\U{1C}' <= c <= '\U{1F}')
    || c == '\U{85}' || c == '\U{A0}' || c == '\U{1680}'
    || ('\U{2000}' <= c <= '\U{200A}')
    || c == '\U{2028}' || c == '\U{2029}' || c == '\U{202F}' || c == '\U{205F}' || c == '\U{3000}'
  }

  /** A word as `str.split()` produces it: non-empty and free of whitespace. */
  predicate IsWord(w: string)
  {
    w != [] && forall i :: 0 <= i < |w| ==> !IsSpace(w[i])
  }

  predicate AllWords(ws: seq<string>)
  {
    forall i :: 0 <= i < |ws| ==> IsWord(ws[i])
  }

  /** `s.split()`: the maximal runs of non-whitespace characters, in order. */
  function Split(s: string): (ws: seq<string>)
    ensures AllWords(ws)
  {
    SplitFrom(s, [])
  }

  /** Scans `s` while `cur` holds the characters of the word being read. */
  function SplitFrom(s: string, cur: string): (ws: seq<string>)
    requires forall i :: 0 <= i < |cur| ==> !IsSpace(cur[i])
    ensures AllWords(ws)
    decreases |s|
  {
    if s == [] then
      (if cur == [] then [] else [cur])
    else if IsSpace(s[0]) then
      (if cur == [] then [] else [cur]) + SplitFrom(s[1..], [])
    else
      SplitFrom(s[1..], cur + [s[0]])
  }

  /** `sep.join(ws)`. */
  function Join(ws: seq<string>, sep: string): string
  {
    if |ws| == 0 then []
    else if |ws| == 1 then ws[0]
    else ws[0] + sep + Join(ws[1..], sep)
  }

  /** Reading a word's characters just extends the word being read. */
  lemma {:induction false} SplitFromWord(w: string, rest: string, cur: string)
    requires forall i :: 0 <= i < |cur| ==> !IsSpace(cur[i])
    requires forall i :: 0 <= i < |w| ==> !IsSpace(w[i])
    ensures SplitFrom(w + rest, cur) == SplitFrom(rest, cur + w)
    decreases |w|
  {
    if w != [] {
      assert (w + rest)[0] == w[0];
      assert (w + rest)[1..] == w[1..] + rest;
      assert cur + [w[0]] + w[1..] == cur + w;
      SplitFromWord(w[1..], rest, cur + [w[0]]);
    } else {
      assert w + rest == rest;
      assert cur + w == cur;
    }
  }

  /** Splitting words joined by single spaces gives the words back. */
  lemma {:induction false} SplitJoin(ws: seq<string>)
    requires AllWords(ws)
    ensures Split(Join(ws, " ")) == ws
  {
    if |ws| == 1 {
      SplitFromWord(ws[0], [], []);
      assert ws[0] + [] == ws[0];
    } else if |ws| > 1 {
      var tail := Join(ws[1..], " ");
      assert Join(ws, " ") == ws[0] + (" " + tail);
      SplitFromWord(ws[0], " " + tail, []);
      assert [] + ws[0] == ws[0];
      assert (" " + tail)[1..] == tail;
      SplitJoin(ws[1..]);
      assert ws == [ws[0]] + ws[1..];
    }
  }

  /** Every character that is not whitespace lands in exactly the words, in order. */
  function Concat(ws: seq<string>): string
  {
    if ws == [] then [] else ws[0] + Concat(ws[1..])
  }

  function NonSpace(s: string): string
  {
    if s == [] then [] else (if IsSpace(s[0]) then [] else [s[0]]) + NonSpace(s[1..])
  }

  lemma ConcatAppend(a: seq<string>, b: seq<string>)
    ensures Concat(a + b) == Concat(a) + Concat(b)
  {
    if a != [] {
      assert (a + b)[1..] == a[1..] + b;
      ConcatAppend(a[1..], b);
    } else {
      assert a + b == b;
    }
  }

  lemma {:induction false} SplitFromKeepsCharacters(s: string, cur: string)
    requires forall i :: 0 <= i < |cur| ==> !IsSpace(cur[i])
    ensures Concat(SplitFrom(s, cur)) == cur + NonSpace(s)
    decreases |s|
  {
    if s == [] {
      assert cur + [] == cur;
    } else if IsSpace(s[0]) {
      var head: seq<string> := if cur == [] then [] else [cur];
      assert SplitFrom(s, cur) == head + SplitFrom(s[1..], []);
      assert NonSpace(s) == NonSpace(s[1..]);
      ConcatAppend(head, SplitFrom(s[1..], []));
      SplitFromKeepsCharacters(s[1..], []);
      assert Concat(head) == cur;
    } else {
      assert SplitFrom(s, cur) == SplitFrom(s[1..], cur + [s[0]]);
      assert NonSpace(s) == [s[0]] + NonSpace(s[1..]);
      SplitFromKeepsCharacters(s[1..], cur + [s[0]]);
      assert cur + [s[0]] + NonSpace(s[1..]) == cur + NonSpace(s);
    }
  }

  /** `s.split()` drops exactly the whitespace: the words concatenated are `s` without it. */
  lemma SplitKeepsCharacters(s: string)
    ensures Concat(Split(s)) == NonSpace(s)
  {
    SplitFromKeepsCharacters(s, []);
  }

  /** `str.lower()` on the ASCII letters; every other character is kept. */
  function LowerChar(c: char): char
  {
    if 'A' <= c <= 'Z' then (c as int + 32) as char else c
  }

  function Lower(s: string): (r: string)
    ensures |r| == |s|
    ensures forall i :: 0 <= i < |s| ==> r[i] == LowerChar(s[i])
  {
    seq(|s|, i requires 0 <= i < |s| => LowerChar(s[i]))
  }

  /** `str.upper()` on the ASCII letters; every other character is kept. */
  function UpperChar(c: char): char
  {
    if 'a' <= c <= 'z' then (c as int - 32) as char else c
  }

  function Upper(s: string): (r: string)
    ensures |r| == |s|
    ensures forall i :: 0 <= i < |s| ==> r[i] == UpperChar(s[i])
  {
    seq(|s|, i requires 0 <= i < |s| => UpperChar(s[i]))
  }

  /** `s.replace(a, b)` for single characters `a` and `b`. */
  function ReplaceChar(s: string, a: char, b: char): (r: string)
    ensures |r| == |s|
    ensures forall i :: 0 <= i < |s| ==> r[i] == (if s[i] == a then b else s[i])
  {
    seq(|s|, i requires 0 <= i < |s| => if s[i] == a then b else s[i])
  }

  lemma {:induction false} LowerIdempotent(s: string)
    ensures Lower(Lower(s)) == Lower(s)
  {
    var once := Lower(s);
    forall i | 0 <= i < |s|
      ensures Lower(once)[i] == once[i]
    {
      var c := s[i];
      if 'A' <= c <= 'Z' {
        assert 'a' <= once[i] <= 'z';
      }
    }
  }

  function Digit(d: nat): char
    requires d < 10
  {
    ['0', '1', '2', '3', '4', '5', '6', '7', '8', '9'][d]
  }

  predicate IsDigit(c: char)
  {
    '0' <= c <= '9'
  }

  function DigitValue(c: char): nat
    requires IsDigit(c)
  {
    c as int - '0' as int
  }

  /** `str(n)` for a natural number. */
  function NatToString(n: nat): (s: string)
    ensures |s| >= 1
    ensures forall i :: 0 <= i < |s| ==> IsDigit(s[i])
  {
    if n < 10 then [Digit(n)] else NatToString(n / 10) + [Digit(n % 10)]
  }

  /** `str(n)` for any integer. */
  function IntToString(n: int): string
  {
    if n < 0 then "-" + NatToString(-n) else NatToString(n)
  }

  /** The value of a string of decimal digits. */
  function DecimalValue(s: string): nat
    requires forall i :: 0 <= i < |s| ==> IsDigit(s[i])
  {
    if s == [] then 0 else 10 * DecimalValue(s[..|s| - 1]) + DigitValue(s[|s| - 1])
  }

  lemma {:induction false} NatToStringValue(n: nat)
    ensures DecimalValue(NatToString(n)) == n
  {
    if n >= 10 {
      var s := NatToString(n);
      assert s[..|s| - 1] == NatToString(n / 10);
      NatToStringValue(n / 10);
    }
  }

  /** Python's `f"{n:02d}"`: at least two characters, zero-padded on the left. */
  function Pad2(n: int): (s: string)
  {
    if 0 <= n < 10 then ['0', Digit(n)] else IntToString(n)
  }

  /** `%02d` pads to two characters and never truncates: the digits still spell `n`. */
  lemma Pad2Faithful(n: int)
    ensures |Pad2(n)| >= 2
    ensures n >= 0 ==> (forall i :: 0 <= i < |Pad2(n)| ==> IsDigit(Pad2(n)[i])) && DecimalValue(Pad2(n)) == n
    ensures n < 0 ==> Pad2(n) == "-" + NatToString(-n)
  {
    if n >= 10 {
      NatToStringValue(n);
      assert NatToString(n) == NatToString(n / 10) + [Digit(n % 10)];
    } else if 0 <= n {
      var s := Pad2(n);
      assert s[..1] == "0";
      assert s[..0] == [];
      assert DecimalValue(s[..1]) == 0;
    }
  }

  /** Index of the last occurrence of `c` in `s`, or -1 (`str.rfind`). */
  function RFind(s: string, c: char): (k: int)
    ensures -1 <= k < |s|
    ensures k >= 0 ==> s[k] == c
    ensures forall i :: k < i < |s| ==> s[i] != c
  {
    if s == [] then -1
    else if s[|s| - 1] == c then |s| - 1
    else RFind(s[..|s| - 1], c)
  }

  /** `os.path.basename(p)`: what follows the last '/'. */
  function Basename(p: string): (b: string)
    ensures forall i :: 0 <= i < |b| ==> b[i] != '/'
    ensures b == p[RFind(p, '/') + 1..]
  {
    p[RFind(p, '/') + 1..]
  }

  /** `os.path.splitext(b)[0]` for a name without '/': drop the last extension,
      unless the only dots are leading ones (".bashrc" keeps its name). */
  function StripExtension(b: string): (r: string)
  {
    var d := RFind(b, '.');
    if d > 0 && exists i :: 0 <= i < d && b[i] != '.' then b[..d] else b
  }

  /** `os.path.join(a, b)` for two components. */
  function PathJoin(a: string, b: string): string
  {
    if |b| > 0 && b[0] == '/' then b
    else if a == [] || a[|a| - 1] == '/' then a + b
    else a + "/" + b
  }

  function EndsWith(s: string, suffix: string): bool
  {
    |suffix| <= |s| && s[|s| - |suffix|..] == suffix
  }

  /** Stripping the extension keeps a prefix of the name, and a stripped part is one
      extension: it starts with the last dot and holds no further dot. */
  lemma StripExtensionIsPrefix(b: string)
    ensures var r := StripExtension(b);
      && |r| <= |b| && b[..|r|] == r
      && (|r| < |b| ==> b[|r|] == '.' && forall i :: |r| < i < |b| ==> b[i] != '.')
  {
  }
}
