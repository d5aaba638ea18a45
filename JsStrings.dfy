/**
  * The JavaScript string methods the portfolio relies on, each with the
  * property that makes it what it is: `includes` is a substring search,
  * `toLowerCase` is idempotent, `trim` yields "" exactly on all-whitespace
  * input, and `join` undoes `split` on the same separator.
  */
module JsStrings {

  // ---------------------------------------------------------------------
  // String.prototype.includes
  // ---------------------------------------------------------------------

  /** `s` holds `pat` at position `i`. */
  ghost predicate OccursAt(s: string, pat: string, i: int)
  {
    0 <= i && i + |pat| <= |s| && s[i..i + |pat|] == pat
  }

  /** `s.includes(pat)`: a left-to-right search for `pat` in `s`; the empty
      pattern is found in every string, and nothing longer than `s` is. */
  function Contains(s: string, pat: string): (b: bool)
    ensures pat == [] ==> b
    ensures b ==> |pat| <= |s|
    decreases |s|
  {
    if |pat| > |s| then false
    else if s[..|pat|] == pat then true
    else Contains(s[1..], pat)
  }

  /** The search finds `pat` exactly when `pat` occurs somewhere in `s`. */
  lemma {:induction false} ContainsIffOccurs(s: string, pat: string)
    ensures Contains(s, pat) <==> exists i :: OccursAt(s, pat, i)
    decreases |s|
  {
    if |pat| > |s| {
    } else if s[..|pat|] == pat {
      assert OccursAt(s, pat, 0);
    } else {
      ContainsIffOccurs(s[1..], pat);
      if Contains(s[1..], pat) {
        var j :| OccursAt(s[1..], pat, j);
        assert s[j + 1..j + 1 + |pat|] == s[1..][j..j + |pat|];
        assert OccursAt(s, pat, j + 1);
      }
      if exists i :: OccursAt(s, pat, i) {
        var i :| OccursAt(s, pat, i);
        assert i != 0;
        assert s[1..][i - 1..i - 1 + |pat|] == s[i..i + |pat|];
        assert OccursAt(s[1..], pat, i - 1);
      }
    }
  }

  /** Extending a string on either side keeps everything it includes: if
      `pat` occurs in `s`, it occurs in `s + t` and in `t + s`. */
  lemma ContainsInLonger(s: string, t: string, pat: string)
    requires Contains(s, pat)
    ensures Contains(s + t, pat) && Contains(t + s, pat)
  {
    ContainsIffOccurs(s, pat);
    var i :| OccursAt(s, pat, i);
    assert (s + t)[i..i + |pat|] == s[i..i + |pat|];
    assert OccursAt(s + t, pat, i);
    assert (t + s)[|t| + i..|t| + i + |pat|] == s[i..i + |pat|];
    assert OccursAt(t + s, pat, |t| + i);
    ContainsIffOccurs(s + t, pat);
    ContainsIffOccurs(t + s, pat);
  }

  // ---------------------------------------------------------------------
  // String.prototype.toLowerCase
  // ---------------------------------------------------------------------

  const KelvinSign: char := '\U{212A}'
  const CapitalIWithDot: char := '\U{0130}'
  const CombiningDotAbove: char := '\U{0307}'

  /** The lower-case mapping of one character. ASCII capitals map to ASCII
      small letters; KELVIN SIGN maps to 'k' and LATIN CAPITAL LETTER I
      WITH DOT ABOVE to "i" followed by COMBINING DOT ABOVE. These are the
      only characters whose lower case contains an ASCII letter; every other
      character is kept as it is. */
  function LowerChar(c: char): (r: string)
    ensures |r| >= 1
  {
    if 'A' <= c <= 'Z' then [(c as int + 32) as char]
    else if c == KelvinSign then "k"
    else if c == CapitalIWithDot then ['i', CombiningDotAbove]
    else [c]
  }

  /** `s.toLowerCase()`, character by character. */
  function ToLower(s: string): (r: string)
    ensures |r| >= |s|
  {
    if s == [] then [] else LowerChar(s[0]) + ToLower(s[1..])
  }

  lemma {:induction false} ToLowerAppend(s: string, t: string)
    ensures ToLower(s + t) == ToLower(s) + ToLower(t)
  {
    if s == [] {
      assert s + t == t;
    } else {
      assert (s + t)[0] == s[0];
      assert (s + t)[1..] == s[1..] + t;
      ToLowerAppend(s[1..], t);
      calc {
        ToLower(s + t);
        LowerChar(s[0]) + ToLower(s[1..] + t);
        LowerChar(s[0]) + (ToLower(s[1..]) + ToLower(t));
        (LowerChar(s[0]) + ToLower(s[1..])) + ToLower(t);
        ToLower(s) + ToLower(t);
      }
    }
  }

  lemma LowerCharFixed(c: char)
    ensures ToLower(LowerChar(c)) == LowerChar(c)
  {
    var h := LowerChar(c);
    if |h| == 1 {
      assert ToLower(h) == LowerChar(h[0]) + ToLower([]);
    } else {
      assert h == ['i', CombiningDotAbove];
      assert h[1..] == [CombiningDotAbove];
      assert ToLower(h[1..]) == LowerChar(CombiningDotAbove) + ToLower([]);
      assert ToLower(h) == LowerChar('i') + ToLower(h[1..]);
    }
  }

  /** A string with no character that lower-casing maps is its own lower
      case. */
  lemma {:induction false} ToLowerKeeps(s: string)
    requires forall i :: 0 <= i < |s| ==> LowerChar(s[i]) == [s[i]]
    ensures ToLower(s) == s
  {
    if s != [] {
      ToLowerKeeps(s[1..]);
      assert s == [s[0]] + s[1..];
    }
  }

  /** Lower-casing a lower-cased string changes nothing. */
  lemma {:induction false} ToLowerIdempotent(s: string)
    ensures ToLower(ToLower(s)) == ToLower(s)
  {
    if s != [] {
      var head := LowerChar(s[0]);
      LowerCharFixed(s[0]);
      ToLowerIdempotent(s[1..]);
      ToLowerAppend(head, ToLower(s[1..]));
    }
  }

  // ---------------------------------------------------------------------
  // String.prototype.trim
  // ---------------------------------------------------------------------

  /** The ECMAScript WhiteSpace and LineTerminator characters, which `trim`
      removes from both ends. */
  predicate IsWhitespace(c: char)
  {
    c == '\t' || c == '\n' || c == '\U{000B}' || c == '\U{000C}' || c == '\r'
    || c == ' ' || c == '\U{00A0}' || c == '\U{1680}'
    || ('\U{2000}' <= c <= '\U{200A}')
    || c == '\U{2028}' || c == '\U{2029}' || c == '\U{202F}' || c == '\U{205F}'
    || c == '\U{3000}' || c == '\U{FEFF}'
  }

  function TrimStart(s: string): (r: string)
    ensures |r| <= |s|
  {
    if s != [] && IsWhitespace(s[0]) then TrimStart(s[1..]) else s
  }

  function TrimEnd(s: string): (r: string)
    ensures |r| <= |s|
  {
    if s != [] && IsWhitespace(s[|s| - 1]) then TrimEnd(s[..|s| - 1]) else s
  }

  /** `s.trim()`: never longer than `s`, and a string with no whitespace at
      either end is returned whole. */
  function Trim(s: string): (r: string)
    ensures |r| <= |s|
    ensures s != [] && !IsWhitespace(s[0]) && !IsWhitespace(s[|s| - 1]) ==> r == s
  {
    TrimEnd(TrimStart(s))
  }

  ghost predicate AllWhitespace(s: string)
  {
    forall i :: 0 <= i < |s| ==> IsWhitespace(s[i])
  }

  lemma {:induction false} TrimStartEmptyIff(s: string)
    ensures TrimStart(s) == [] <==> AllWhitespace(s)
  {
    if s != [] && IsWhitespace(s[0]) {
      TrimStartEmptyIff(s[1..]);
      assert AllWhitespace(s) <==> AllWhitespace(s[1..]) by {
        if AllWhitespace(s[1..]) {
          forall i | 0 <= i < |s| ensures IsWhitespace(s[i]) {
            if i > 0 { assert s[i] == s[1..][i - 1]; }
          }
        }
      }
    }
  }

  /** TrimEnd never leaves a string empty unless it started all-whitespace,
      and a string that starts with a non-whitespace character keeps it. */
  lemma {:induction false} TrimEndKeepsFirst(s: string)
    requires s != [] && !IsWhitespace(s[0])
    ensures TrimEnd(s) != []
    decreases |s|
  {
    if IsWhitespace(s[|s| - 1]) {
      TrimEndKeepsFirst(s[..|s| - 1]);
    }
  }

  /** `!s.trim()` holds exactly when every character of `s` is whitespace. */
  lemma TrimEmptyIffBlank(s: string)
    ensures Trim(s) == [] <==> AllWhitespace(s)
  {
    TrimStartEmptyIff(s);
    var t := TrimStart(s);
    if t != [] {
      TrimStartResult(s);
      TrimEndKeepsFirst(t);
    }
  }

  lemma {:induction false} TrimStartResult(s: string)
    ensures TrimStart(s) != [] ==> !IsWhitespace(TrimStart(s)[0])
  {
    if s != [] && IsWhitespace(s[0]) {
      TrimStartResult(s[1..]);
    }
  }

  // ---------------------------------------------------------------------
  // Array.prototype.join and String.prototype.split
  // ---------------------------------------------------------------------

  /** `parts.join(sep)`. */
  function Join(parts: seq<string>, sep: string): (r: string)
    ensures parts == [] ==> r == ""
    ensures |parts| == 1 ==> r == parts[0]
  {
    if parts == [] then ""
    else if |parts| == 1 then parts[0]
    else parts[0] + sep + Join(parts[1..], sep)
  }

  /** `s.split(c)` for a one-character separator: the pieces between
      occurrences of `c`, always at least one (the empty string splits into
      `[""]`). */
  function Split(s: string, c: char): (r: seq<string>)
    ensures |r| >= 1
  {
    if s == [] then [""]
    else
      var rest := Split(s[1..], c);
      if s[0] == c then [""] + rest else [[s[0]] + rest[0]] + rest[1..]
  }

  /** No piece contains the separator, and there is one more piece than
      there are separators to cut at: a string without `c` is its own one
      piece. */
  lemma {:induction false} SplitPieces(s: string, c: char)
    ensures forall k :: 0 <= k < |Split(s, c)| ==> c !in Split(s, c)[k]
    ensures c !in s <==> Split(s, c) == [s]
  {
    if s != [] {
      SplitPieces(s[1..], c);
      var rest := Split(s[1..], c);
      if s[0] != c {
        assert s == [s[0]] + s[1..];
        var r := Split(s, c);
        forall k | 0 <= k < |r| ensures c !in r[k] {
          if k > 0 { assert r[k] == rest[k]; }
        }
        if c !in s {
          assert c !in s[1..];
        }
        assert r[0] == [s[0]] + rest[0];
        if r == [s] {
          assert |rest| == 1;
          assert [s[0]] + rest[0] == s;
          assert rest[0] == s[1..];
          assert c !in rest[0];
        }
      } else {
        assert Split(s, c)[0] == "";
      }
    }
  }

  /** Joining the pieces of a split with the same separator gives back the
      original string. */
  lemma {:induction false} SplitJoin(s: string, c: char)
    ensures Join(Split(s, c), [c]) == s
  {
    if s != [] {
      SplitJoin(s[1..], c);
      var rest := Split(s[1..], c);
      if s[0] == c {
        assert Join([""] + rest, [c]) == "" + [c] + Join(rest, [c]);
      } else {
        var r := [[s[0]] + rest[0]] + rest[1..];
        if |rest| == 1 {
          assert r == [[s[0]] + rest[0]];
        } else {
          assert r[1..] == rest[1..];
          assert Join(rest, [c]) == rest[0] + [c] + Join(rest[1..], [c]);
        }
      }
    }
  }

  /** The first piece of a split is the text before the first separator:
      a prefix of `s` without `c`, followed in `s` by `c` unless it is all
      of `s`. */
  lemma {:induction false} SplitFirstPiece(s: string, c: char)
    ensures var first := Split(s, c)[0];
      |first| <= |s| && first == s[..|first|] && c !in first
      && (|first| < |s| ==> s[|first|] == c)
  {
    if s != [] {
      SplitFirstPiece(s[1..], c);
      SplitPieces(s[1..], c);
    }
  }
}
