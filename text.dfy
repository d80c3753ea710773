/**
 * The subset of Go's `strings` package (and the one regular expression) that the
 * association engine relies on, over `string == seq<char>`.
 * Each function follows Go's left-to-right, non-overlapping semantics.
 */
module Text {

  /** `p` is a prefix of `s`, compared character by character. */
  predicate IsPrefix(p: string, s: string)
    ensures IsPrefix(p, s) <==> |p| <= |s| && s[..|p|] == p
  {
    p == [] || (s != [] && p[0] == s[0] && IsPrefix(p[1..], s[1..]))
  }

  /** `p` is a suffix of `s`. */
  predicate IsSuffix(p: string, s: string)
    ensures IsSuffix(p, s) <==> |p| <= |s| && s[|s| - |p|..] == p
  {
    |p| <= |s| && IsPrefix(p, s[|s| - |p|..])
  }

  /** strings.Contains: `sub` occurs somewhere in `s`. */
  predicate Contains(s: string, sub: string)
    decreases |s|
  {
    IsPrefix(sub, s) || (|s| > 0 && Contains(s[1..], sub))
  }

  /** strings.TrimPrefix: removes ONE leading copy of `p`, if present. */
  function TrimPrefix(s: string, p: string): (r: string)
    ensures IsPrefix(p, s) ==> p + r == s
    ensures !IsPrefix(p, s) ==> r == s
  {
    if IsPrefix(p, s) then
      assert s == s[..|p|] + s[|p|..];
      s[|p|..]
    else s
  }

  /** strings.TrimSuffix: removes ONE trailing copy of `p`, if present. */
  function TrimSuffix(s: string, p: string): (r: string)
    ensures IsSuffix(p, s) ==> r + p == s
    ensures !IsSuffix(p, s) ==> r == s
  {
    if IsSuffix(p, s) then
      assert s == s[..|s| - |p|] + s[|s| - |p|..];
      s[..|s| - |p|]
    else s
  }

  /** strings.ReplaceAll for a non-empty `pat`: one left-to-right pass, matches do not overlap. */
  function ReplaceAll(s: string, pat: string, rep: string): string
    requires |pat| > 0
    decreases |s|
  {
    if IsPrefix(pat, s) then rep + ReplaceAll(s[|pat|..], pat, rep)
    else if s == [] then []
    else [s[0]] + ReplaceAll(s[1..], pat, rep)
  }

  /** strings.Count for a non-empty `sep`: number of non-overlapping occurrences, scanned left to right. */
  function Count(s: string, sep: string): nat
    requires |sep| > 0
    decreases |s|
  {
    if IsPrefix(sep, s) then 1 + Count(s[|sep|..], sep)
    else if s == [] then 0
    else Count(s[1..], sep)
  }

  /** strings.TrimLeft with a one-character cutset. */
  function TrimLeft(s: string, c: char): (r: string)
    ensures |r| <= |s| && s[|s| - |r|..] == r
    ensures forall i :: 0 <= i < |s| - |r| ==> s[i] == c
    ensures r == [] || r[0] != c
    decreases |s|
  {
    if s != [] && s[0] == c then TrimLeft(s[1..], c) else s
  }

  /** strings.TrimRight with a one-character cutset. */
  function TrimRight(s: string, c: char): (r: string)
    ensures |r| <= |s| && s[..|r|] == r
    ensures forall i :: |r| <= i < |s| ==> s[i] == c
    ensures r == [] || r[|r| - 1] != c
    decreases |s|
  {
    if s != [] && s[|s| - 1] == c then TrimRight(s[..|s| - 1], c) else s
  }

  /** strings.Trim with a one-character cutset: every leading and trailing `c` goes. */
  function Trim(s: string, c: char): string {
    TrimRight(TrimLeft(s, c), c)
  }

  /** The characters the pattern `[^a-zA-Z0-9-.]` does NOT match. */
  predicate IsDomainChar(c: char) {
    ('a' <= c <= 'z') || ('A' <= c <= 'Z') || ('0' <= c <= '9') || c == '-' || c == '.'
  }

  /** regexp("[^a-zA-Z0-9-.]+").ReplaceAllString(s, ""): deletes every character outside the class. */
  function KeepDomainChars(s: string): (r: string)
    ensures |r| <= |s|
    ensures forall i :: 0 <= i < |r| ==> IsDomainChar(r[i])
    ensures (forall i :: 0 <= i < |s| ==> IsDomainChar(s[i])) ==> r == s
  {
    if s == [] then []
    else if IsDomainChar(s[0]) then [s[0]] + KeepDomainChars(s[1..])
    else KeepDomainChars(s[1..])
  }

  predicate IsUpper(c: char) { 'A' <= c <= 'Z' }
  predicate IsLower(c: char) { 'a' <= c <= 'z' }

  function LowerChar(c: char): char {
    if IsUpper(c) then (c as int - 'A' as int + 'a' as int) as char else c
  }

  /** strings.ToLower restricted to ASCII letters. */
  function ToLower(s: string): (r: string)
    ensures |r| == |s|
    ensures forall i :: 0 <= i < |s| ==> r[i] == LowerChar(s[i])
  {
    if s == [] then [] else [LowerChar(s[0])] + ToLower(s[1..])
  }

  /** strings.Split(s, string(sep)): always at least one piece; no piece contains `sep`. */
  function Split(s: string, sep: char): (r: seq<string>)
    ensures |r| >= 1
    decreases |s|
  {
    if s == [] then [[]]
    else
      var rest := Split(s[1..], sep);
      if s[0] == sep then [[]] + rest
      else [[s[0]] + rest[0]] + rest[1..]
  }

  /** No piece holds the separator, and every piece is made of characters of `s`. */
  lemma {:induction false} SplitShape(s: string, sep: char)
    ensures forall k, j :: 0 <= k < |Split(s, sep)| && 0 <= j < |Split(s, sep)[k]| ==>
      Split(s, sep)[k][j] != sep && Split(s, sep)[k][j] in s
    decreases |s|
  {
    if s != [] {
      SplitShape(s[1..], sep);
      var rest := Split(s[1..], sep);
      var r := Split(s, sep);
      assert forall k :: 0 <= k < |rest| ==> forall j :: 0 <= j < |rest[k]| ==> rest[k][j] != sep && rest[k][j] in s[1..];
      forall k, j | 0 <= k < |r| && 0 <= j < |r[k]|
        ensures r[k][j] != sep && r[k][j] in s
      {
        if s[0] != sep {
          if k == 0 {
            if j > 0 {
              assert r[0][j] == rest[0][j - 1];
              assert rest[0][j - 1] in s[1..];
            }
          } else {
            assert r[k] == rest[k];
            assert rest[k][j] in s[1..];
          }
        } else {
          assert r[k] == ([[]] + rest)[k];
          assert k > 0;
          assert r[k] == rest[k - 1];
          assert rest[k - 1][j] in s[1..];
        }
      }
    }
  }

  /** strings.Join(parts, string(sep)). */
  function Join(parts: seq<string>, sep: char): string {
    if parts == [] then []
    else if |parts| == 1 then parts[0]
    else parts[0] + [sep] + Join(parts[1..], sep)
  }

  // ---------------------------------------------------------------------------
  // Lemmas
  // ---------------------------------------------------------------------------

  /** Text without the separator is a single piece. */
  lemma {:induction false} SplitNoSep(a: string, sep: char)
    requires sep !in a
    ensures Split(a, sep) == [a]
    decreases |a|
  {
    if a != [] {
      SplitNoSep(a[1..], sep);
      assert [a[0]] + a[1..] == a;
    }
  }

  /** The first separator ends the first piece; the rest is split on its own. */
  lemma {:induction false} SplitAt(a: string, b: string, sep: char)
    requires sep !in a
    ensures Split(a + [sep] + b, sep) == [a] + Split(b, sep)
    decreases |a|
  {
    var s := a + [sep] + b;
    if a == [] {
      assert s[1..] == b;
    } else {
      assert s[1..] == a[1..] + [sep] + b;
      SplitAt(a[1..], b, sep);
      assert [a[0]] + a[1..] == a;
    }
  }

  /** A replacement pass over text without any match leaves it untouched. */
  lemma {:induction false} ReplaceAllNoMatch(s: string, pat: string, rep: string)
    requires |pat| > 0 && !Contains(s, pat)
    ensures ReplaceAll(s, pat, rep) == s
    decreases |s|
  {
    if s != [] {
      ReplaceAllNoMatch(s[1..], pat, rep);
    }
  }

  /** Text without the first character of `sub` cannot contain `sub`. */
  lemma {:induction false} NotContainsHead(s: string, sub: string)
    requires |sub| > 0 && sub[0] !in s
    ensures !Contains(s, sub)
    decreases |s|
  {
    if s != [] {
      NotContainsHead(s[1..], sub);
    }
  }

  /** Text in front that lacks the first character of `sub` does not change whether `sub` occurs. */
  lemma {:induction false} ContainsSkip(a: string, t: string, sub: string)
    requires |sub| > 0 && sub[0] !in a
    ensures Contains(a + t, sub) <==> Contains(t, sub)
    decreases |a|
  {
    if a == [] {
      assert a + t == t;
    } else {
      assert (a + t)[1..] == a[1..] + t;
      assert !IsPrefix(sub, a + t) by { assert (a + t)[0] == a[0]; }
      ContainsSkip(a[1..], t, sub);
    }
  }

  /** Text ending in `sub` contains it. */
  lemma {:induction false} ContainsTail(a: string, sub: string)
    ensures Contains(a + sub, sub)
    decreases |a|
  {
    if a != [] {
      assert (a + sub)[1..] == a[1..] + sub;
      ContainsTail(a[1..], sub);
    }
  }

  /**
   * Collapsing a doubled `c`: when the text before the first pair holds no `c`, that pair
   * becomes one `c` and the pass goes on after it.
   */
  lemma {:induction false} CollapseAt(a: string, b: string, c: char)
    requires c !in a
    ensures ReplaceAll(a + [c, c] + b, [c, c], [c]) == a + [c] + ReplaceAll(b, [c, c], [c])
    decreases |a|
  {
    var s := a + [c, c] + b;
    if a == [] {
      assert s[..2] == [c, c] && s[2..] == b;
    } else {
      assert s[0] == a[0] != c;
      assert s[1..] == a[1..] + [c, c] + b;
      CollapseAt(a[1..], b, c);
    }
  }

  /** Trimming `c` off text wrapped in one `c` on each side gives back the text. */
  lemma TrimOne(a: string, c: char)
    requires a != [] && a[0] != c && a[|a| - 1] != c
    ensures Trim([c] + a + [c], c) == a
  {
    var s := [c] + a + [c];
    assert s[1..] == a + [c];
    assert TrimLeft(a + [c], c) == a + [c];
    var t := a + [c];
    assert t[..|t| - 1] == a;
  }

  /** The character class works piece by piece. */
  lemma {:induction false} KeepDomainCharsAppend(x: string, y: string)
    ensures KeepDomainChars(x + y) == KeepDomainChars(x) + KeepDomainChars(y)
    decreases |x|
  {
    if x == [] {
      assert x + y == y;
    } else {
      assert (x + y)[0] == x[0] && (x + y)[1..] == x[1..] + y;
      KeepDomainCharsAppend(x[1..], y);
    }
  }

  /** TrimSuffix removes exactly the suffix that was appended. */
  lemma TrimAppended(a: string, p: string)
    ensures TrimSuffix(a + p, p) == a
  {
    var s := a + p;
    assert s[|s| - |p|..] == p;
    var r := TrimSuffix(s, p);
    assert r + p == s;
    assert r == s[..|r|] && a == s[..|a|];
  }

  /** Trimming text that neither starts nor ends with `c` leaves it untouched. */
  lemma TrimKeeps(s: string, c: char)
    requires s == [] || (s[0] != c && s[|s| - 1] != c)
    ensures Trim(s, c) == s
  {
  }

  /** Replacing a single character by another maps the text character by character. */
  lemma {:induction false} ReplaceCharAt(s: string, a: char, b: char)
    ensures |ReplaceAll(s, [a], [b])| == |s|
    ensures forall i :: 0 <= i < |s| ==> ReplaceAll(s, [a], [b])[i] == (if s[i] == a then b else s[i])
    decreases |s|
  {
    if s != [] {
      ReplaceCharAt(s[1..], a, b);
      if s[0] == a {
        assert IsPrefix([a], s);
      } else {
        assert !IsPrefix([a], s);
      }
    }
  }

  /** Replacing a character by a different one leaves no copy of it. */
  lemma ReplaceCharRemoves(s: string, a: char, b: char)
    requires a != b
    ensures a !in ReplaceAll(s, [a], [b])
  {
    ReplaceCharAt(s, a, b);
    var r := ReplaceAll(s, [a], [b]);
    forall i | 0 <= i < |r|
      ensures r[i] != a
    {
    }
  }

  /** Shrinking replacements never lengthen the text. */
  lemma {:induction false} ReplaceAllShrinks(s: string, pat: string, rep: string)
    requires |pat| > 0 && |rep| <= |pat|
    ensures |ReplaceAll(s, pat, rep)| <= |s|
    decreases |s|
  {
    if IsPrefix(pat, s) {
      ReplaceAllShrinks(s[|pat|..], pat, rep);
    } else if s != [] {
      ReplaceAllShrinks(s[1..], pat, rep);
    }
  }

  /**
   * Counting across a separator character that does not occur in the pattern:
   * the occurrences on either side are counted independently.
   */
  lemma {:induction false} CountAcross(x: string, c: char, y: string, sep: string)
    requires |sep| > 0 && c !in sep
    ensures Count(x + [c] + y, sep) == Count(x, sep) + Count(y, sep)
    decreases |x|
  {
    var s := x + [c] + y;
    if IsPrefix(sep, x) {
      assert s[..|sep|] == x[..|sep|];
      assert s[|sep|..] == x[|sep|..] + [c] + y;
      CountAcross(x[|sep|..], c, y, sep);
    } else {
      if |x| >= |sep| {
        assert s[..|sep|] == x[..|sep|];
      } else {
        assert s[|x|] == c;
        if |sep| <= |s| {
          assert s[..|sep|][|x|] == c;
        }
      }
      assert !IsPrefix(sep, s);
      if x == [] {
        assert s[1..] == y;
      } else {
        assert s[1..] == x[1..] + [c] + y;
        CountAcross(x[1..], c, y, sep);
      }
    }
  }

  /** A text is counted once when it is exactly the pattern. */
  lemma CountSelf(sep: string)
    requires |sep| > 0
    ensures Count(sep, sep) == 1
  {
    assert IsPrefix(sep, sep);
    assert sep[|sep|..] == [];
  }

  /** Text shorter than the pattern holds no occurrence of it. */
  lemma CountShort(s: string, sep: string)
    requires |sep| > 0 && |s| < |sep|
    ensures Count(s, sep) == 0
    decreases |s|
  {
    if s != [] {
      CountShort(s[1..], sep);
    }
  }

  /** Text without the pattern's first character holds no occurrence of it. */
  lemma {:induction false} CountAbsent(s: string, sep: string)
    requires |sep| > 0 && sep[0] !in s
    ensures Count(s, sep) == 0
    decreases |s|
  {
    if s != [] {
      assert s[0] != sep[0];
      assert !IsPrefix(sep, s) by {
        if |sep| <= |s| {
          assert s[..|sep|][0] == s[0];
        }
      }
      CountAbsent(s[1..], sep);
    }
  }
}
