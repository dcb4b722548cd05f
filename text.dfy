/** The Python `str` built-ins the core relies on: `isspace`, `strip`, `split`, `join`,
    `lower`, `upper`, `isdigit`, and `str(int)`. */
module Text {

  /** `c.isspace()`: the characters `str.split()` and `str.strip()` treat as whitespace. */
  predicate IsSpace(c: char)
  {
    var n := c as int;
    (9 <= n <= 13) || (28 <= n <= 32) || n == 0x85 || n == 0xA0 || n == 0x1680 ||
    (0x2000 <= n <= 0x200A) || n == 0x2028 || n == 0x2029 || n == 0x202F || n == 0x205F ||
    n == 0x3000
  }

  predicate NoSpace(s: string)
  {
    forall i :: 0 <= i < |s| ==> !IsSpace(s[i])
  }

  /** `c.isdigit()` for the ASCII digits. */
  predicate IsDigit(c: char)
  {
    '0' <= c <= '9'
  }

  function StripLeft(s: string): (r: string)
    ensures |r| <= |s| && r == s[|s| - |r|..]
    ensures r == [] || !IsSpace(r[0])
    ensures forall i :: 0 <= i < |s| - |r| ==> IsSpace(s[i])
  {
    if s != [] && IsSpace(s[0]) then StripLeft(s[1..]) else s
  }

  function StripRight(s: string): (r: string)
    ensures |r| <= |s| && r == s[..|r|]
    ensures r == [] || !IsSpace(r[|r| - 1])
    ensures forall i :: |r| <= i < |s| ==> IsSpace(s[i])
  {
    if s != [] && IsSpace(s[|s| - 1]) then StripRight(s[..|s| - 1]) else s
  }

  /** `s.strip()`. */
  function Strip(s: string): (r: string)
    ensures r == [] || (!IsSpace(r[0]) && !IsSpace(r[|r| - 1]))
  {
    StripRight(StripLeft(s))
  }

  /** The longest prefix of `s` that holds no whitespace. */
  function Word(s: string): (w: string)
    ensures w <= s && NoSpace(w)
    ensures |w| < |s| ==> IsSpace(s[|w|])
  {
    if s == [] || IsSpace(s[0]) then [] else [s[0]] + Word(s[1..])
  }

  /** `s.split()`: the maximal runs of non-whitespace characters, in order. */
  function Split(s: string): (ws: seq<string>)
    ensures forall i :: 0 <= i < |ws| ==> ws[i] != [] && NoSpace(ws[i])
    decreases |s|
  {
    var t := StripLeft(s);
    if t == [] then []
    else
      var w := Word(t);
      assert !IsSpace(t[0]);
      [w] + Split(t[|w|..])
  }

  /** `sep.join(parts)`. */
  function Join(sep: string, parts: seq<string>): string
  {
    if parts == [] then ""
    else if |parts| == 1 then parts[0]
    else parts[0] + sep + Join(sep, parts[1..])
  }

  function LowerChar(c: char): char
  {
    if 'A' <= c <= 'Z' then (c as int + 32) as char else c
  }

  function UpperChar(c: char): char
  {
    if 'a' <= c <= 'z' then (c as int - 32) as char else c
  }

  /** `s.lower()`. */
  function Lower(s: string): (r: string)
    ensures |r| == |s| && forall i :: 0 <= i < |s| ==> r[i] == LowerChar(s[i])
  {
    seq(|s|, i requires 0 <= i < |s| => LowerChar(s[i]))
  }

  /** `s.upper()`. */
  function Upper(s: string): (r: string)
    ensures |r| == |s| && forall i :: 0 <= i < |s| ==> r[i] == UpperChar(s[i])
  {
    seq(|s|, i requires 0 <= i < |s| => UpperChar(s[i]))
  }

  function DigitChar(d: nat): char
    requires d < 10
  {
    ('0' as int + d) as char
  }

  function NatToString(n: nat): (s: string)
    ensures s != [] && forall i :: 0 <= i < |s| ==> IsDigit(s[i])
    decreases n
  {
    if n < 10 then [DigitChar(n)] else NatToString(n / 10) + [DigitChar(n % 10)]
  }

  /** `str(i)` for an `int`. */
  function IntToString(i: int): string
  {
    if i < 0 then "-" + NatToString(-i) else NatToString(i)
  }

  /** `'%0Nd' % n`: at least `width` digits, padded with leading zeros. */
  function ZeroPad(n: nat, width: nat): (s: string)
    ensures |s| >= width
  {
    var digits := NatToString(n);
    if |digits| >= width then digits else seq(width - |digits|, _ => '0') + digits
  }

  /** Lower-casing is idempotent. */
  lemma LowerIdempotent(s: string)
    ensures Lower(Lower(s)) == Lower(s)
  {
  }

  /** A word followed by a space splits off exactly that word. */
  lemma {:induction false} WordOfJoined(w: string, rest: string)
    requires w != [] && NoSpace(w)
    ensures Word(w + rest) == w + Word(rest)
    decreases |w|
  {
    if |w| > 1 {
      assert (w + rest)[1..] == w[1..] + rest;
      WordOfJoined(w[1..], rest);
    } else {
      assert (w + rest)[1..] == rest;
    }
  }

  lemma {:induction false} SplitLeadingSpace(c: char, s: string)
    requires IsSpace(c)
    ensures Split([c] + s) == Split(s)
  {
    assert ([c] + s)[1..] == s;
  }

  /** Joining whitespace-free, non-empty words with single spaces and splitting again
      gives back the same words: `s.split()` inverts `" ".join(...)`. */
  lemma {:induction false} SplitJoin(ws: seq<string>)
    requires forall i :: 0 <= i < |ws| ==> ws[i] != [] && NoSpace(ws[i])
    ensures Split(Join(" ", ws)) == ws
  {
    if ws == [] {
    } else if |ws| == 1 {
      var w := ws[0];
      WordOfJoined(w, []);
      assert w + [] == w;
      assert StripLeft(w) == w;
      assert w[|w|..] == [];
    } else {
      assert Join(" ", ws) == ws[0] + (" " + Join(" ", ws[1..]));
      SplitWordThenSpace(ws[0], Join(" ", ws[1..]));
      SplitJoin(ws[1..]);
    }
  }

  /** A leading word followed by a space splits off as the first word. */
  lemma SplitWordThenSpace(w: string, tail: string)
    requires w != [] && NoSpace(w)
    ensures Split(w + (" " + tail)) == [w] + Split(tail)
  {
    var rest := " " + tail;
    assert StripLeft(w + rest) == w + rest;
    WordOfJoined(w, rest);
    assert Word(rest) == [];
    assert Word(w + rest) == w;
    assert (w + rest)[|w|..] == rest;
    SplitLeadingSpace(' ', tail);
  }

  /** Upper-casing is idempotent. */
  lemma UpperIdempotent(s: string)
    ensures Upper(Upper(s)) == Upper(s)
  {
  }

  /** `s.split(c)` for a one-character separator: the pieces between separators, empty pieces
      included, so there is always at least one. */
  function SplitOn(s: string, c: char): (parts: seq<string>)
    ensures |parts| >= 1
    ensures forall i :: 0 <= i < |parts| ==> c !in parts[i]
    ensures Join([c], parts) == s
    decreases |s|
  {
    if s == [] then [""]
    else
      var rest := SplitOn(s[1..], c);
      if s[0] == c then
        assert ([""] + rest)[1..] == rest;
        [""] + rest
      else
        var parts := [[s[0]] + rest[0]] + rest[1..];
        assert parts[1..] == rest[1..];
        assert s == [s[0]] + s[1..];
        parts
  }

  /** No whitespace but single blanks, each between two other characters. */
  predicate SingleSpaced(s: string)
  {
    forall i :: 0 <= i < |s| && IsSpace(s[i]) ==> s[i] == ' ' && 0 < i < |s| - 1 && !IsSpace(s[i + 1])
  }

  /** Joining non-empty, whitespace-free words with single blanks leaves a single-spaced string. */
  lemma {:induction false} JoinSingleSpaced(ws: seq<string>)
    requires forall i :: 0 <= i < |ws| ==> ws[i] != [] && NoSpace(ws[i])
    ensures SingleSpaced(Join(" ", ws))
    ensures |ws| > 0 ==> Join(" ", ws) != [] && Join(" ", ws)[0] == ws[0][0]
  {
    if |ws| > 1 {
      var w, r := ws[0], Join(" ", ws[1..]);
      JoinSingleSpaced(ws[1..]);
      var j := Join(" ", ws);
      assert j == w + " " + r;
      forall i | 0 <= i < |j|
        ensures IsSpace(j[i]) ==> j[i] == ' ' && 0 < i < |j| - 1 && !IsSpace(j[i + 1])
      {
        if i < |w| {
          assert j[i] == w[i];
        } else if i > |w| {
          assert j[i] == r[i - |w| - 1];
          if IsSpace(j[i]) {
            assert j[i + 1] == r[i - |w|];
          }
        } else {
          assert j[i + 1] == r[0];
        }
      }
    }
  }

  /** A string without the separator splits into itself alone. */
  lemma {:induction false} SplitOnAbsent(s: string, c: char)
    requires c !in s
    ensures SplitOn(s, c) == [s]
    decreases |s|
  {
    if s != [] {
      assert c !in s[1..];
      SplitOnAbsent(s[1..], c);
      assert [s[0]] + s[1..] == s;
    }
  }

  /** Lower-casing works character by character, so it distributes over concatenation. */
  lemma LowerConcat(a: string, b: string)
    ensures Lower(a + b) == Lower(a) + Lower(b)
  {
    assert |Lower(a + b)| == |Lower(a) + Lower(b)|;
    forall i | 0 <= i < |a + b|
      ensures Lower(a + b)[i] == (Lower(a) + Lower(b))[i]
    {
      if i < |a| {
        assert (a + b)[i] == a[i];
      } else {
        assert (a + b)[i] == b[i - |a|];
      }
    }
  }

  /** Digits have no case. */
  lemma LowerDigits(n: nat)
    ensures Lower(NatToString(n)) == NatToString(n)
  {
    var s := NatToString(n);
    assert forall i :: 0 <= i < |s| ==> LowerChar(s[i]) == s[i];
  }

  /** Splitting on a character that is not a letter commutes with lower-casing. */
  lemma {:induction false} SplitOnLower(s: string, c: char)
    requires !('A' <= c <= 'Z') && !('a' <= c <= 'z')
    ensures |SplitOn(Lower(s), c)| == |SplitOn(s, c)|
    ensures forall i :: 0 <= i < |SplitOn(s, c)| ==> SplitOn(Lower(s), c)[i] == Lower(SplitOn(s, c)[i])
    decreases |s|
  {
    if s != [] {
      SplitOnLower(s[1..], c);
      var l := Lower(s);
      assert l[1..] == Lower(s[1..]);
      assert l[0] == c <==> s[0] == c;
      var rest, rest' := SplitOn(s[1..], c), SplitOn(l[1..], c);
      if s[0] != c {
        LowerConcat([s[0]], rest[0]);
        assert Lower([s[0]]) == [l[0]];
      }
    }
  }

  /** A string with no whitespace at either end is its own `strip()`; in particular `strip()`
      is idempotent. */
  /** Every character is whitespace. */
  predicate AllSpace(s: string)
  {
    forall i :: 0 <= i < |s| ==> IsSpace(s[i])
  }

  /** Leading whitespace is skipped by `strip`'s left pass. */
  lemma {:induction false} StripLeftPadded(pad: string, s: string)
    requires AllSpace(pad)
    ensures StripLeft(pad + s) == StripLeft(s)
  {
    if pad == [] {
      assert pad + s == s;
    } else {
      assert (pad + s)[0] == pad[0] && (pad + s)[1..] == pad[1..] + s;
      StripLeftPadded(pad[1..], s);
    }
  }

  /** Trailing whitespace is skipped by `strip`'s right pass. */
  lemma {:induction false} StripRightPadded(s: string, pad: string)
    requires AllSpace(pad)
    ensures StripRight(s + pad) == StripRight(s)
  {
    if pad == [] {
      assert s + pad == s;
    } else {
      var n := |pad|;
      assert (s + pad)[|s + pad| - 1] == pad[n - 1];
      assert (s + pad)[..|s + pad| - 1] == s + pad[..n - 1];
      StripRightPadded(s, pad[..n - 1]);
    }
  }

  /** The left pass over a string with whitespace appended: the appended part survives unless
      the string itself is all whitespace. */
  lemma {:induction false} StripLeftAppend(s: string, pad: string)
    requires AllSpace(pad)
    ensures StripLeft(s + pad) == if StripLeft(s) == [] then StripLeft(pad) else StripLeft(s) + pad
  {
    if s != [] && IsSpace(s[0]) {
      assert (s + pad)[1..] == s[1..] + pad;
      StripLeftAppend(s[1..], pad);
    } else if s == [] {
      assert s + pad == pad;
    }
  }

  /** `strip` ignores whitespace added at either end. */
  lemma StripPadded(left: string, s: string, right: string)
    requires AllSpace(left) && AllSpace(right)
    ensures Strip(left + s + right) == Strip(s)
  {
    var t := s + right;
    assert left + s + right == left + t;
    StripLeftPadded(left, t);
    assert StripLeft(left + s + right) == StripLeft(t);
    StripLeftAppend(s, right);
    if StripLeft(s) == [] {
      StripLeftPadded(right, []);
      assert right + [] == right;
      assert StripLeft(t) == [];
    } else {
      assert StripLeft(t) == StripLeft(s) + right;
      StripRightPadded(StripLeft(s), right);
    }
  }

  lemma StripFixed(s: string)
    requires s == [] || (!IsSpace(s[0]) && !IsSpace(s[|s| - 1]))
    ensures Strip(s) == s
  {
    if s != [] {
      assert StripLeft(s) == s;
    }
  }

  /** A character of `s` is the separator or a character of one of the pieces. */
  lemma {:induction false} SplitOnChars(s: string, c: char, ok: char -> bool)
    requires forall j, k :: 0 <= j < |SplitOn(s, c)| && 0 <= k < |SplitOn(s, c)[j]| ==> ok(SplitOn(s, c)[j][k])
    ensures forall i :: 0 <= i < |s| ==> s[i] == c || ok(s[i])
    decreases |s|
  {
    if s != [] {
      var parts, rest := SplitOn(s, c), SplitOn(s[1..], c);
      if s[0] != c {
        assert parts[0] == [s[0]] + rest[0] && parts[1..] == rest[1..];
        assert ok(parts[0][0]);
        forall j, k | 0 <= j < |rest| && 0 <= k < |rest[j]|
          ensures ok(rest[j][k])
        {
          if j == 0 {
            assert rest[0][k] == parts[0][k + 1];
          } else {
            assert rest[j] == parts[j];
          }
        }
      } else {
        assert parts[1..] == rest;
        forall j, k | 0 <= j < |rest| && 0 <= k < |rest[j]|
          ensures ok(rest[j][k])
        {
          assert rest[j] == parts[j + 1];
        }
      }
      SplitOnChars(s[1..], c, ok);
      forall i | 0 <= i < |s|
        ensures s[i] == c || ok(s[i])
      {
        if i > 0 {
          assert s[i] == s[1..][i - 1];
        }
      }
    }
  }
}
