/**
 * The JavaScript string operations the system relies on, over `seq<char>`:
 * `split` and `join` on one separator character, `trim`, `startsWith`,
 * `endsWith`, `includes`, `padStart`, `substring`, `slice` from the end,
 * ASCII lower-casing, the global `replace` of one character, and the
 * decimal rendering of a number (`toString`).
 */
module Strings {
  import opened Wrappers
  import opened Sequences

  /** JavaScript truthiness of an optional string: present and not empty. */
  predicate Present(field: Option<string>) {
    field.Some? && field.value != ""
  }

  // ---------------------------------------------------------------------
  // Character classes
  // ---------------------------------------------------------------------

  /** What `\d` matches in a JavaScript regular expression without the `u` flag. */
  predicate IsDigit(c: char) {
    '0' <= c <= '9'
  }

  predicate AllDigits(s: string) {
    forall i :: 0 <= i < |s| ==> IsDigit(s[i])
  }

  /** The JavaScript WhiteSpace and LineTerminator code points: what `trim` removes and `\s` matches. */
  predicate IsSpace(c: char) {
    || c == '\t' || c == '\n' || c == '\U{000B}' || c == '\U{000C}' || c == '\r' || c == ' '
    || c == '\U{00A0}' || c == '\U{1680}' || ('\U{2000}' <= c <= '\U{200A}')
    || c == '\U{2028}' || c == '\U{2029}' || c == '\U{202F}' || c == '\U{205F}'
    || c == '\U{3000}' || c == '\U{FEFF}'
  }

  /** The characters that `.` does not match in a JavaScript regular expression. */
  predicate IsLineTerminator(c: char) {
    c == '\n' || c == '\r' || c == '\U{2028}' || c == '\U{2029}'
  }

  lemma LineTerminatorIsSpace(c: char)
    ensures IsLineTerminator(c) ==> IsSpace(c)
  {
  }

  // ---------------------------------------------------------------------
  // Prefix, suffix, infix
  // ---------------------------------------------------------------------

  /** `s.startsWith(p)` */
  predicate StartsWith(s: string, p: string) {
    |p| <= |s| && s[..|p|] == p
  }

  /** `s.endsWith(p)` */
  predicate EndsWith(s: string, p: string) {
    |p| <= |s| && s[|s| - |p|..] == p
  }

  lemma StartsWithConcat(a: string, b: string)
    ensures StartsWith(a + b, a)
  {
    assert (a + b)[..|a|] == a;
  }

  lemma EndsWithConcat(a: string, b: string)
    ensures EndsWith(a + b, b)
  {
    assert (a + b)[|a + b| - |b|..] == b;
  }

  /** `s.includes(t)`: `t` occurs in `s` at some position. */
  predicate Includes(s: string, t: string)
    decreases |s|
  {
    StartsWith(s, t) || (|s| > 0 && Includes(s[1..], t))
  }

  /** `t` occurs in every string that has it as an infix. */
  lemma {:induction false} IncludesInfix(a: string, t: string, b: string)
    ensures Includes(a + t + b, t)
  {
    if a == [] {
      assert a + t + b == t + b;
      assert (t + b)[..|t|] == t;
    } else {
      assert (a + t + b)[1..] == a[1..] + t + b;
      IncludesInfix(a[1..], t, b);
    }
  }

  /** Whatever `s` includes lies inside `s`: an occurrence has a position. */
  lemma {:induction false} IncludesHasPosition(s: string, t: string)
    requires Includes(s, t)
    ensures |t| <= |s|
    ensures exists i :: 0 <= i <= |s| - |t| && StartsWith(s[i..], t)
  {
    if StartsWith(s, t) {
      assert s[0..] == s;
    } else {
      IncludesHasPosition(s[1..], t);
      var i :| 0 <= i <= |s[1..]| - |t| && StartsWith(s[1..][i..], t);
      assert s[1..][i..] == s[i + 1..];
    }
  }

  // ---------------------------------------------------------------------
  // split and join on one separator character
  // ---------------------------------------------------------------------

  /** `s.split(sep)` for a one-character separator: the pieces between the separators, in order. */
  function Split(s: string, sep: char): (parts: seq<string>)
    ensures |parts| >= 1
    decreases |s|
  {
    if s == [] then [[]]
    else
      var rest := Split(s[1..], sep);
      if s[0] == sep then [[]] + rest else [[s[0]] + rest[0]] + rest[1..]
  }

  /** `parts.join(sep)` */
  function Join(parts: seq<string>, sep: char): string
    decreases |parts|
  {
    if |parts| == 0 then []
    else if |parts| == 1 then parts[0]
    else parts[0] + [sep] + Join(parts[1..], sep)
  }

  /** The last element of a non-empty sequence: what `pop` returns. */
  function Last<T>(s: seq<T>): T
    requires |s| > 0
  {
    s[|s| - 1]
  }

  /** Joining the pieces again gives back the string that was split. */
  lemma {:induction false} JoinSplit(s: string, sep: char)
    ensures Join(Split(s, sep), sep) == s
  {
    if s != [] {
      JoinSplit(s[1..], sep);
      JoinSplitCons(s[0], s[1..], sep);
      assert [s[0]] + s[1..] == s;
    }
  }

  /** One more leading character keeps `Join` a left inverse of `Split`. */
  lemma JoinSplitCons(c: char, t: string, sep: char)
    requires Join(Split(t, sep), sep) == t
    ensures Join(Split([c] + t, sep), sep) == [c] + t
  {
    SplitCons(c, t, sep);
    var rest := Split(t, sep);
    if c == sep {
      assert ([[]] + rest)[1..] == rest;
    } else if |rest| == 1 {
      assert Join(rest, sep) == rest[0];
    } else {
      var parts := [[c] + rest[0]] + rest[1..];
      assert parts[1..] == rest[1..];
      assert Join(rest, sep) == rest[0] + [sep] + Join(rest[1..], sep);
      assert Join(parts, sep) == ([c] + rest[0]) + [sep] + Join(rest[1..], sep);
    }
  }

  /** How `Split` treats the first character of a string. */
  lemma SplitCons(c: char, s: string, sep: char)
    ensures Split([c] + s, sep)
         == if c == sep then [[]] + Split(s, sep) else [[c] + Split(s, sep)[0]] + Split(s, sep)[1..]
  {
    assert ([c] + s)[0] == c;
    assert ([c] + s)[1..] == s;
  }

  /** A separator between two strings splits them apart. */
  lemma {:induction false} SplitConcat(a: string, b: string, sep: char)
    ensures Split(a + [sep] + b, sep) == Split(a, sep) + Split(b, sep)
  {
    if a == [] {
      assert a + [sep] + b == [sep] + b;
      SplitCons(sep, b, sep);
    } else {
      var c, t := a[0], a[1..];
      assert a + [sep] + b == [c] + (t + [sep] + b);
      assert a == [c] + t;
      SplitConcat(t, b, sep);
      SplitConsPrefix(c, t + [sep] + b, t, Split(b, sep), sep);
    }
  }

  /** If the pieces of `x` are those of `t` followed by `rb`, one more leading character changes only the pieces of `t`. */
  lemma SplitConsPrefix(c: char, x: string, t: string, rb: seq<string>, sep: char)
    requires Split(x, sep) == Split(t, sep) + rb
    ensures Split([c] + x, sep) == Split([c] + t, sep) + rb
  {
    SplitCons(c, x, sep);
    SplitCons(c, t, sep);
    ConsPieceAppend(c, Split(t, sep), rb, sep);
  }

  /** The first-character step of `Split` only touches the first piece. */
  lemma ConsPieceAppend(c: char, rt: seq<string>, rb: seq<string>, sep: char)
    requires |rt| >= 1
    ensures (if c == sep then [[]] + (rt + rb) else [[c] + (rt + rb)[0]] + (rt + rb)[1..])
         == (if c == sep then [[]] + rt else [[c] + rt[0]] + rt[1..]) + rb
  {
    if c != sep {
      assert (rt + rb)[0] == rt[0];
      assert (rt + rb)[1..] == rt[1..] + rb;
    }
  }

  /** A string without the separator is a single piece. */
  lemma {:induction false} SplitNoSeparator(a: string, sep: char)
    requires sep !in a
    ensures Split(a, sep) == [a]
  {
    if a != [] {
      SplitNoSeparator(a[1..], sep);
      assert [a[0]] + a[1..] == a;
    }
  }

  /** No piece of a split contains the separator. */
  lemma {:induction false} SplitPiecesHaveNoSeparator(s: string, sep: char)
    ensures forall i :: 0 <= i < |Split(s, sep)| ==> sep !in Split(s, sep)[i]
  {
    if s != [] {
      SplitPiecesHaveNoSeparator(s[1..], sep);
      var rest := Split(s[1..], sep);
      if s[0] != sep {
        var parts := [[s[0]] + rest[0]] + rest[1..];
        forall i | 0 <= i < |parts| ensures sep !in parts[i] {
          if i > 0 {
            assert parts[i] == rest[i];
          }
        }
      } else {
        var parts := [[]] + rest;
        forall i | 0 <= i < |parts| ensures sep !in parts[i] {
          if i > 0 {
            assert parts[i] == rest[i - 1];
          }
        }
      }
    }
  }

  /** A string that holds the separator splits into at least two pieces. */
  lemma {:induction false} SplitAtSeparator(s: string, sep: char)
    requires sep in s
    ensures |Split(s, sep)| >= 2
  {
    if s[0] != sep {
      SplitAtSeparator(s[1..], sep);
    }
  }

  /** The first piece of a split ends before the first separator: `a` then the separator gives piece `a`. */
  lemma SplitFirstTwo(a: string, b: string, sep: char)
    requires sep !in a && sep !in b
    ensures Split(a + [sep] + b, sep) == [a, b]
  {
    SplitConcat(a, b, sep);
    SplitNoSeparator(a, sep);
    SplitNoSeparator(b, sep);
  }

  /** Splitting a join of separator-free pieces gives back the pieces. */
  lemma {:induction false} SplitJoin(parts: seq<string>, sep: char)
    requires |parts| >= 1
    requires forall i :: 0 <= i < |parts| ==> sep !in parts[i]
    ensures Split(Join(parts, sep), sep) == parts
  {
    if |parts| == 1 {
      SplitNoSeparator(parts[0], sep);
    } else {
      SplitJoin(parts[1..], sep);
      SplitConcat(parts[0], Join(parts[1..], sep), sep);
      SplitNoSeparator(parts[0], sep);
      assert [parts[0]] + parts[1..] == parts;
    }
  }

  /** A string made only of white space: what `trim` empties. */
  predicate Blank(s: string) {
    forall k :: 0 <= k < |s| ==> IsSpace(s[k])
  }

  /** Joining blank pieces with a white-space separator gives a blank string. */
  lemma {:induction false} JoinOfBlankIsBlank(parts: seq<string>, sep: char)
    requires IsSpace(sep)
    requires forall i :: 0 <= i < |parts| ==> Blank(parts[i])
    ensures Blank(Join(parts, sep))
    decreases |parts|
  {
    if |parts| > 1 {
      JoinOfBlankIsBlank(parts[1..], sep);
      var rest := Join(parts[1..], sep);
      var j := parts[0] + [sep] + rest;
      forall k | 0 <= k < |j| ensures IsSpace(j[k]) {
        if k < |parts[0]| {
          assert j[k] == parts[0][k];
        } else if k > |parts[0]| {
          assert j[k] == rest[k - |parts[0]| - 1];
        }
      }
    }
  }

  /** Every character of a piece is a character of the joined string. */
  lemma {:induction false} JoinKeepsPieceCharacters(parts: seq<string>, sep: char, i: nat, k: nat)
    requires i < |parts| && k < |parts[i]|
    ensures parts[i][k] in Join(parts, sep)
    decreases |parts|
  {
    if |parts| > 1 {
      var rest := Join(parts[1..], sep);
      assert Join(parts, sep) == parts[0] + [sep] + rest;
      if i == 0 {
        assert Join(parts, sep)[k] == parts[0][k];
      } else {
        JoinKeepsPieceCharacters(parts[1..], sep, i - 1, k);
        var m :| 0 <= m < |rest| && rest[m] == parts[i][k];
        assert Join(parts, sep)[|parts[0]| + 1 + m] == rest[m];
      }
    }
  }

  /** Three separator-free fields joined by the separator split back into exactly those three. */
  lemma SplitThree(a: string, b: string, c: string, sep: char)
    requires sep !in a && sep !in b && sep !in c
    ensures Split(a + [sep] + b + [sep] + c, sep) == [a, b, c]
  {
    var bc := b + [sep] + c;
    assert a + [sep] + b + [sep] + c == a + [sep] + bc;
    SplitConcat(a, bc, sep);
    SplitConcat(b, c, sep);
    SplitNoSeparator(a, sep);
    SplitNoSeparator(b, sep);
    SplitNoSeparator(c, sep);
  }

  /** The text after the last separator: `s.split(sep).pop()`. */
  function AfterLast(s: string, sep: char): string {
    Last(Split(s, sep))
  }

  /** The text after the last separator is the separator-free tail of the string. */
  lemma AfterLastOfConcat(a: string, b: string, sep: char)
    requires sep !in b
    ensures AfterLast(a + [sep] + b, sep) == b
  {
    SplitConcat(a, b, sep);
    SplitNoSeparator(b, sep);
  }

  lemma AfterLastNoSeparator(b: string, sep: char)
    requires sep !in b
    ensures AfterLast(b, sep) == b
  {
    SplitNoSeparator(b, sep);
  }

  // ---------------------------------------------------------------------
  // trim
  // ---------------------------------------------------------------------

  function TrimStart(s: string): (r: string)
    ensures |r| <= |s| && r == s[|s| - |r|..]
    ensures forall i :: 0 <= i < |s| - |r| ==> IsSpace(s[i])
    ensures |r| > 0 ==> !IsSpace(r[0])
    decreases |s|
  {
    if |s| > 0 && IsSpace(s[0]) then TrimStart(s[1..]) else s
  }

  function TrimEnd(s: string): (r: string)
    ensures |r| <= |s| && r == s[..|r|]
    ensures forall i :: |r| <= i < |s| ==> IsSpace(s[i])
    ensures |r| > 0 ==> !IsSpace(r[|r| - 1])
    decreases |s|
  {
    if |s| > 0 && IsSpace(s[|s| - 1]) then TrimEnd(s[..|s| - 1]) else s
  }

  /** `s.trim()`: `s` without its leading and trailing white space. */
  function Trim(s: string): (r: string)
    ensures |r| <= |s|
    ensures |r| > 0 ==> !IsSpace(r[0]) && !IsSpace(r[|r| - 1])
    ensures r == [] <==> forall i :: 0 <= i < |s| ==> IsSpace(s[i])
    ensures (|s| == 0 || (!IsSpace(s[0]) && !IsSpace(s[|s| - 1]))) ==> r == s
  {
    var t := TrimStart(s);
    var r := TrimEnd(t);
    assert r == [] ==> t == [];
    assert (forall i :: 0 <= i < |s| ==> IsSpace(s[i])) ==> r == [] by {
      if |r| > 0 {
        assert r[0] == t[0];
        assert t[0] == s[|s| - |t|];
      }
    }
    r
  }

  /** Every character outside the trimmed text is white space; so a non-space character survives trimming. */
  lemma TrimKeepsNonSpace(s: string, i: nat)
    requires i < |s| && !IsSpace(s[i])
    ensures Trim(s) != []
  {
  }

  /** `s || fallback` for strings: the empty string falls back. */
  function OrElse(s: string, fallback: string): (r: string)
    ensures s != "" ==> r == s
    ensures s == "" ==> r == fallback
  {
    if s != "" then s else fallback
  }

  // ---------------------------------------------------------------------
  // Padding, slicing, case, replacement
  // ---------------------------------------------------------------------

  /** `s.padStart(width, fill)` for a one-character fill. */
  function PadStart(s: string, width: nat, fill: char): (r: string)
    ensures |r| == if |s| >= width then |s| else width
    ensures EndsWith(r, s)
    ensures forall i :: 0 <= i < |r| - |s| ==> r[i] == fill
    decreases width - |s|
  {
    if |s| >= width then s
    else
      var r := PadStart([fill] + s, width, fill);
      assert r[|r| - |s|..] == r[|r| - |[fill] + s|..][1..];
      r
  }

  /** `s.substring(start, end)` for `start <= end`; both bounds are clamped to the length. */
  function Substring(s: string, start: nat, end: nat): (r: string)
    requires start <= end
    ensures |r| <= end - start
  {
    var a := if start <= |s| then start else |s|;
    var b := if end <= |s| then end else |s|;
    s[a..b]
  }

  /** Two adjacent substrings concatenate to the substring spanning both. */
  lemma SubstringAdjacent(s: string, a: nat, b: nat, c: nat)
    requires a <= b <= c
    ensures Substring(s, a, b) + Substring(s, b, c) == Substring(s, a, c)
  {
  }

  /** `s.slice(-n)`: the last `n` characters, or all of `s` when it is shorter. */
  function SliceFromEnd(s: string, n: nat): (r: string)
    ensures |r| == if |s| < n then |s| else n
    ensures EndsWith(s, r)
  {
    if |s| < n then s else s[|s| - n..]
  }

  function ToLowerChar(c: char): char {
    if 'A' <= c <= 'Z' then (c as int + 32) as char else c
  }

  /** `s.toLowerCase()` restricted to ASCII letters. */
  function ToLower(s: string): (r: string)
    ensures |r| == |s|
    ensures forall i :: 0 <= i < |r| ==> !('A' <= r[i] <= 'Z')
    ensures forall i :: 0 <= i < |r| ==> ('a' <= r[i] <= 'z') == ('a' <= s[i] <= 'z' || 'A' <= s[i] <= 'Z')
  {
    seq(|s|, i requires 0 <= i < |s| => ToLowerChar(s[i]))
  }

  /** Lower-casing twice is lower-casing once. */
  lemma ToLowerTwice(s: string)
    ensures ToLower(ToLower(s)) == ToLower(s)
  {
    assert forall i :: 0 <= i < |s| ==> ToLower(ToLower(s))[i] == ToLower(s)[i];
  }

  /** `s.replace(/c/g, '')`: every occurrence of `c` removed, the order of the rest kept. */
  function RemoveAll(s: string, c: char): (r: string)
    ensures c !in r
    ensures |r| <= |s|
    ensures c !in s ==> r == s
    decreases |s|
  {
    if s == [] then []
    else
      var rest := RemoveAll(s[1..], c);
      if s[0] == c then rest
      else
        assert [s[0]] + s[1..] == s;
        [s[0]] + rest
  }

  /** What is removed is exactly every `c`: the other characters stay, as often and in the order they were. */
  lemma {:induction false} RemoveAllKeepsTheRest(s: string, c: char)
    ensures IsSubsequence(RemoveAll(s, c), s)
    ensures multiset(RemoveAll(s, c)) == multiset(s)[c := 0]
    decreases |s|
  {
    if s != [] {
      RemoveAllKeepsTheRest(s[1..], c);
      var rest := RemoveAll(s[1..], c);
      assert [s[0]] + s[1..] == s;
      assert multiset(s) == multiset([s[0]]) + multiset(s[1..]);
      if s[0] == c {
        SubsequenceSkip(rest, s[0], s[1..]);
      } else {
        SubsequenceKeep(rest, s[0], s[1..]);
        assert multiset([s[0]] + rest) == multiset([s[0]]) + multiset(rest);
      }
    }
  }

  /** Removing a character from a concatenation removes it from each side. */
  lemma {:induction false} RemoveAllConcat(a: string, b: string, c: char)
    ensures RemoveAll(a + b, c) == RemoveAll(a, c) + RemoveAll(b, c)
    decreases |a|
  {
    if a == [] {
      assert a + b == b;
    } else {
      var ab := a + b;
      assert ab[0] == a[0] && ab[1..] == a[1..] + b;
      RemoveAllConcat(a[1..], b, c);
      var rest := RemoveAll(a[1..], c);
      if a[0] == c {
        assert RemoveAll(ab, c) == RemoveAll(a[1..] + b, c);
        assert RemoveAll(a, c) == rest;
      } else {
        assert RemoveAll(ab, c) == [a[0]] + (rest + RemoveAll(b, c));
        assert RemoveAll(a, c) == [a[0]] + rest;
        assert [a[0]] + (rest + RemoveAll(b, c)) == ([a[0]] + rest) + RemoveAll(b, c);
      }
    }
  }

  /** Removing a character twice is removing it once. */
  lemma RemoveAllIdempotent(s: string, c: char)
    ensures RemoveAll(RemoveAll(s, c), c) == RemoveAll(s, c)
  {
  }

  // ---------------------------------------------------------------------
  // Decimal numbers
  // ---------------------------------------------------------------------

  function DigitChar(d: nat): (c: char)
    requires d < 10
    ensures IsDigit(c)
  {
    ('0' as int + d) as char
  }

  function DigitValue(c: char): nat
    requires IsDigit(c)
  {
    c as int - '0' as int
  }

  /** `n.toString()` for a natural number: its decimal digits without leading zeros. */
  function NatToString(n: nat): (r: string)
    ensures |r| >= 1 && AllDigits(r)
    ensures (|r| == 1) == (n < 10)
    ensures |r| > 1 ==> r[0] != '0'
    decreases n
  {
    if n < 10 then [DigitChar(n)]
    else
      var r := NatToString(n / 10) + [DigitChar(n % 10)];
      assert r[0] == NatToString(n / 10)[0];
      r
  }

  /** The number written by a run of decimal digits. */
  function DecimalValue(s: string): nat
    requires AllDigits(s)
    decreases |s|
  {
    if s == [] then 0 else DecimalValue(s[..|s| - 1]) * 10 + DigitValue(s[|s| - 1])
  }

  /** Reading back the decimal rendering of a number gives the number. */
  lemma {:induction false} DecimalValueOfNatToString(n: nat)
    ensures DecimalValue(NatToString(n)) == n
  {
    if n >= 10 {
      DecimalValueOfNatToString(n / 10);
      var r := NatToString(n);
      assert r[..|r| - 1] == NatToString(n / 10);
    }
  }

  /** `i.toString()` for any integer. */
  function IntToString(i: int): (r: string)
    ensures |r| >= 1
    ensures i >= 0 ==> AllDigits(r)
    ensures i < 0 ==> r[0] == '-'
  {
    if i < 0 then "-" + NatToString(-i) else NatToString(i)
  }

  /** The number of leading decimal digits of `s`: how far `\d+` reaches. */
  function LeadingDigits(s: string): (k: nat)
    ensures k <= |s|
    ensures forall i :: 0 <= i < k ==> IsDigit(s[i])
    ensures k < |s| ==> !IsDigit(s[k])
    decreases |s|
  {
    if |s| > 0 && IsDigit(s[0]) then 1 + LeadingDigits(s[1..]) else 0
  }

  /** The digit run in front of a non-digit is exactly the leading digits. */
  lemma LeadingDigitsOfConcat(d: string, rest: string)
    requires AllDigits(d)
    requires |rest| > 0 && !IsDigit(rest[0])
    ensures LeadingDigits(d + rest) == |d|
  {
    var s := d + rest;
    assert forall i :: 0 <= i < |d| ==> s[i] == d[i];
    assert s[|d|] == rest[0];
  }
}
