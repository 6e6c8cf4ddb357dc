// String and path operations of the .NET runtime that the publish pipeline
// relies on (String.Contains, String.Split, String.Replace, LastIndexOf,
// Path.GetExtension, Path.GetFileNameWithoutExtension, Path.Combine), stated
// with ordinal comparison and '/' as the only directory separator.
module Text {

  /** `sub` occurs in `s` starting at index `i`. */
  predicate OccursAt(s: string, sub: string, i: nat)
  {
    i + |sub| <= |s| && s[i..i + |sub|] == sub
  }

  /** String.Contains(sub), equivalently String.IndexOf(sub) >= 0. */
  predicate Contains(s: string, sub: string)
  {
    exists i: nat | i <= |s| :: OccursAt(s, sub, i)
  }

  /** Appending one after the other appends their concatenation. */
  lemma AppendAfter<T>(before: seq<T>, made: seq<T>, more: seq<T>)
    ensures before + made + more == before + (made + more)
  {
  }

  /** `s` ends with `suffix`. */
  predicate EndsWith(s: string, suffix: string)
  {
    |suffix| <= |s| && s[|s| - |suffix|..] == suffix
  }

  lemma OccursShift(s: string, sub: string, i: nat)
    requires |s| > 0
    ensures OccursAt(s[1..], sub, i) <==> OccursAt(s, sub, i + 1)
  {
    if i + |sub| <= |s| - 1 {
      assert s[1..][i..i + |sub|] == s[i + 1..i + 1 + |sub|];
    }
  }

  /** An occurrence is either at the front or in the tail. */
  lemma ContainsCases(s: string, sub: string)
    requires |s| > 0
    ensures Contains(s, sub) <==> OccursAt(s, sub, 0) || Contains(s[1..], sub)
  {
    if Contains(s, sub) && !OccursAt(s, sub, 0) {
      var i: nat :| i <= |s| && OccursAt(s, sub, i);
      OccursShift(s, sub, i - 1);
      assert OccursAt(s[1..], sub, i - 1);
    }
    if Contains(s[1..], sub) {
      var i: nat :| i <= |s[1..]| && OccursAt(s[1..], sub, i);
      OccursShift(s, sub, i);
    }
  }

  /** A string shorter than `sub` cannot contain it. */
  lemma ShortNoContains(s: string, sub: string)
    requires |s| < |sub|
    ensures !Contains(s, sub)
  {
  }

  /**
   * The last piece of String.Split(new[] { sep }, StringSplitOptions.None):
   * the separator is matched from the left without overlaps, and the text
   * after the final match is returned (the whole string when there is none).
   */
  function AfterLast(s: string, sep: string): string
    requires sep != []
    decreases |s|
  {
    if |s| < |sep| then s
    else if s[..|sep|] == sep then AfterLast(s[|sep|..], sep)
    else if Contains(s[1..], sep) then AfterLast(s[1..], sep)
    else s
  }

  /** Without a separator the whole string is the last piece. */
  lemma {:induction false} AfterLastAbsent(s: string, sep: string)
    requires sep != [] && !Contains(s, sep)
    ensures AfterLast(s, sep) == s
  {
    if |s| >= |sep| {
      assert !OccursAt(s, sep, 0);
      ContainsCases(s, sep);
    }
  }

  /** A suffix of the tail is a suffix of the whole. */
  lemma EndsWithExtend(x: string, t: string, w: string)
    requires EndsWith(t, w)
    ensures EndsWith(x + t, w)
  {
    assert (x + t)[|x + t| - |w|..] == t[|t| - |w|..];
  }

  /**
   * With a separator present, `s` ends with the separator followed by the
   * result, and the result holds no separator: it is the text after the last
   * occurrence.
   */
  lemma {:induction false} AfterLastIsLast(s: string, sep: string)
    requires sep != [] && Contains(s, sep)
    ensures EndsWith(s, sep + AfterLast(s, sep))
    ensures !Contains(AfterLast(s, sep), sep)
    decreases |s|
  {
    if |s| < |sep| {
      ShortNoContains(s, sep);
    } else if s[..|sep|] == sep {
      var t := s[|sep|..];
      assert s == sep + t;
      if Contains(t, sep) {
        AfterLastIsLast(t, sep);
        EndsWithExtend(sep, t, sep + AfterLast(t, sep));
      } else {
        AfterLastAbsent(t, sep);
      }
    } else {
      ContainsCases(s, sep);
      var t := s[1..];
      assert s == [s[0]] + t;
      AfterLastIsLast(t, sep);
      EndsWithExtend([s[0]], t, sep + AfterLast(t, sep));
    }
  }

  /**
   * String.Replace(pat, ""): every occurrence of `pat`, matched from the left
   * without overlaps, is deleted; the result is not scanned again.
   */
  function RemoveAll(s: string, pat: string): string
    requires pat != []
    decreases |s|
  {
    if |s| < |pat| then s
    else if s[..|pat|] == pat then RemoveAll(s[|pat|..], pat)
    else [s[0]] + RemoveAll(s[1..], pat)
  }

  /** Removing a pattern that does not occur changes nothing. */
  lemma {:induction false} RemoveAllAbsent(s: string, pat: string)
    requires pat != [] && !Contains(s, pat)
    ensures RemoveAll(s, pat) == s
    decreases |s|
  {
    if |s| >= |pat| {
      assert !OccursAt(s, pat, 0);
      ContainsCases(s, pat);
      RemoveAllAbsent(s[1..], pat);
      assert s == [s[0]] + s[1..];
    }
  }

  /** Removing never lengthens; it shortens exactly when the pattern occurs. */
  lemma {:induction false} RemoveAllShrinks(s: string, pat: string)
    requires pat != []
    ensures |RemoveAll(s, pat)| <= |s|
    ensures |RemoveAll(s, pat)| == |s| <==> !Contains(s, pat)
    decreases |s|
  {
    if |s| < |pat| {
      ShortNoContains(s, pat);
    } else {
      ContainsCases(s, pat);
      if s[..|pat|] == pat {
        RemoveAllShrinks(s[|pat|..], pat);
        assert OccursAt(s, pat, 0);
      } else {
        RemoveAllShrinks(s[1..], pat);
      }
    }
  }

  /** String.Replace(from, to) for single characters. */
  function ReplaceChar(s: string, from: char, to: char): (r: string)
    ensures |r| == |s|
    ensures forall i :: 0 <= i < |s| ==> r[i] == if s[i] == from then to else s[i]
  {
    seq(|s|, i requires 0 <= i < |s| => if s[i] == from then to else s[i])
  }

  /** String.Split(c): the pieces between the separators, empty ones included. */
  function Split(s: string, c: char): (r: seq<string>)
    ensures |r| >= 1
  {
    if s == [] then [""]
    else
      var t := Split(s[1..], c);
      if s[0] == c then [""] + t else [[s[0]] + t[0]] + t[1..]
  }

  /** String.Join(c, pieces). */
  function Join(pieces: seq<string>, c: char): string
    requires |pieces| >= 1
  {
    if |pieces| == 1 then pieces[0] else pieces[0] + [c] + Join(pieces[1..], c)
  }

  /** Joining the pieces of a split gives back the string. */
  lemma {:induction false} JoinSplit(s: string, c: char)
    ensures Join(Split(s, c), c) == s
  {
    if s != [] {
      var t := Split(s[1..], c);
      JoinSplit(s[1..], c);
      assert s == [s[0]] + s[1..];
      if s[0] == c {
        assert Split(s, c) == [""] + t;
        assert ([""] + t)[1..] == t;
      } else {
        var r := Split(s, c);
        assert r == [[s[0]] + t[0]] + t[1..];
        if |t| > 1 {
          assert r[1..] == t[1..];
          var rest := Join(t[1..], c);
          assert Join(r, c) == [s[0]] + t[0] + [c] + rest;
          AppendAfter([s[0]], t[0], [c]);
          AppendAfter([s[0]], t[0] + [c], rest);
        }
      }
    }
  }

  /** No piece of a split contains the separator. */
  lemma {:induction false} SplitPiecesClean(s: string, c: char)
    ensures forall p :: p in Split(s, c) ==> c !in p
  {
    if s != [] {
      SplitPiecesClean(s[1..], c);
    }
  }

  /** A split yields a single piece exactly when the separator is absent, and that piece is the string. */
  lemma {:induction false} SplitSingle(s: string, c: char)
    ensures |Split(s, c)| == 1 <==> c !in s
    ensures c !in s ==> Split(s, c) == [s]
  {
    if s != [] {
      SplitSingle(s[1..], c);
      assert s == [s[0]] + s[1..];
    }
  }

  /** The first piece of a split is empty exactly when the string is empty or starts with the separator. */
  lemma SplitFirstEmpty(s: string, c: char)
    ensures Split(s, c)[0] == "" <==> s == [] || s[0] == c
  {
  }

  /** Index of the last `c` in `s`, or -1 (String.LastIndexOf(char)). */
  function LastIndexOf(s: string, c: char): (r: int)
    ensures -1 <= r < |s|
    ensures r == -1 <==> c !in s
    ensures r >= 0 ==> s[r] == c && c !in s[r + 1..]
  {
    if s == [] then -1
    else if s[|s| - 1] == c then |s| - 1
    else
      var k := LastIndexOf(s[..|s| - 1], c);
      assert s == s[..|s| - 1] + [s[|s| - 1]];
      if k >= 0 then assert s[k + 1..] == s[..|s| - 1][k + 1..] + [s[|s| - 1]]; k
      else k
  }

  /** The last `c` is found at any position holding `c` with no `c` after it. */
  lemma LastIndexOfAt(s: string, c: char, i: nat)
    requires i < |s| && s[i] == c && c !in s[i + 1..]
    ensures LastIndexOf(s, c) == i
  {
    var k := LastIndexOf(s, c);
    assert s[i] in s[k + 1..] || k >= i;
    assert s[k] in s[i + 1..] || k <= i;
  }

  /** The last `c` of a string with a first character is found in its tail unless only the first character is `c`. */
  lemma LastIndexOfTail(s: string, c: char)
    requires s != []
    ensures c in s[1..] ==> LastIndexOf(s, c) == LastIndexOf(s[1..], c) + 1
    ensures c !in s[1..] ==> LastIndexOf(s, c) == if s[0] == c then 0 else -1
  {
    var t := s[1..];
    if c in t {
      var k := LastIndexOf(t, c);
      assert s[k + 2..] == t[k + 1..];
      LastIndexOfAt(s, c, k + 1);
    } else if s[0] == c {
      LastIndexOfAt(s, c, 0);
    } else {
      assert s == [s[0]] + t;
    }
  }

  /** With more than one piece in the tail's split, the first character does not touch the last piece. */
  lemma SplitKeepsLast(s: string, c: char)
    requires s != [] && |Split(s[1..], c)| > 1
    ensures var ps, t := Split(s, c), Split(s[1..], c); ps[|ps| - 1] == t[|t| - 1]
  {
  }

  /** The last piece of a split is the text after the last separator, or the whole string without one. */
  lemma {:induction false} SplitLastPiece(s: string, c: char)
    ensures var ps := Split(s, c); ps[|ps| - 1] == s[LastIndexOf(s, c) + 1..]
  {
    if s != [] {
      var rest := s[1..];
      var t, ps := Split(rest, c), Split(s, c);
      LastIndexOfTail(s, c);
      SplitSingle(rest, c);
      if c in rest {
        var k := LastIndexOf(rest, c);
        SplitLastPiece(rest, c);
        SplitKeepsLast(s, c);
        assert s[k + 2..] == rest[k + 1..];
      } else if s[0] == c {
        assert ps == [""] + [rest];
      } else {
        assert ps == [[s[0]] + rest];
        assert s == [s[0]] + rest;
      }
    }
  }

  /**
   * Path.GetExtension of a file name: the text from the last '.', or "" when
   * there is no '.' or it is the last character.
   */
  function Extension(name: string): string
  {
    var k := LastIndexOf(name, '.');
    if k < 0 || k == |name| - 1 then "" else name[k..]
  }

  /** Path.GetFileNameWithoutExtension of a file name: the text before the last '.'. */
  function WithoutExtension(name: string): string
  {
    var k := LastIndexOf(name, '.');
    if k < 0 then name else name[..k]
  }

  /** A name has the extension ".meta" exactly when it ends with ".meta". */
  lemma MetaExtension(name: string)
    ensures Extension(name) == ".meta" <==> EndsWith(name, ".meta")
  {
    if EndsWith(name, ".meta") {
      var i := |name| - 5;
      assert name[i..] == ".meta";
      assert name[i] == '.';
      assert name[i + 1..] == "meta";
      LastIndexOfAt(name, '.', i);
    }
  }

  /** Path.Combine(a, b) with '/' as the separator. */
  function Combine(a: string, b: string): string
  {
    if b == "" then a
    else if a == "" then b
    else if b[0] == '/' then b
    else if a[|a| - 1] == '/' then a + b
    else a + "/" + b
  }
}
