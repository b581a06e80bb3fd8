/**
 * The parts of Python's `str` the model needs: `isspace`, the whitespace
 * `int` skips, and `strip` with no argument, which cuts leading and trailing
 * whitespace.
 *
 * Stripping is defined over any character class `cut`; `Strip` fixes it to
 * `IsSpace`.
 */
module PyStrings {

  /** The characters for which Python's `str.isspace` holds. */
  predicate IsSpace(c: char)
  {
    || ('\U{9}' <= c <= '\U{D}') || ('\U{1C}' <= c <= '\U{20}')
    || c == '\U{85}' || c == '\U{A0}' || c == '\U{1680}'
    || ('\U{2000}' <= c <= '\U{200A}') || c == '\U{2028}' || c == '\U{2029}'
    || c == '\U{202F}' || c == '\U{205F}' || c == '\U{3000}'
  }

  /**
   * The whitespace `int` skips around a number: every `isspace` character
   * except the ASCII separators U+001C to U+001F, which `int` leaves in
   * place and then rejects.
   */
  predicate IsIntSpace(c: char)
  {
    IsSpace(c) && !('\U{1C}' <= c <= '\U{1F}')
  }

  /** Drops the leading characters of class `cut`, as `str.lstrip` does. */
  function TrimStart(s: string, cut: char -> bool): string
  {
    if s != [] && cut(s[0]) then TrimStart(s[1..], cut) else s
  }

  /** Drops the trailing characters of class `cut`, as `str.rstrip` does. */
  function TrimEnd(s: string, cut: char -> bool): string
  {
    if s != [] && cut(s[|s| - 1]) then TrimEnd(s[..|s| - 1], cut) else s
  }

  /** What is left is a suffix, only `cut` characters were dropped, and it does not start with one. */
  lemma {:induction false} TrimStartSuffix(s: string, cut: char -> bool)
    ensures |TrimStart(s, cut)| <= |s| && TrimStart(s, cut) == s[|s| - |TrimStart(s, cut)|..]
    ensures forall k :: 0 <= k < |s| - |TrimStart(s, cut)| ==> cut(s[k])
    ensures TrimStart(s, cut) == [] || !cut(TrimStart(s, cut)[0])
  {
    if s != [] && cut(s[0]) {
      var t := TrimStart(s[1..], cut);
      TrimStartSuffix(s[1..], cut);
      assert TrimStart(s, cut) == t;
      assert s[1..][|s| - 1 - |t|..] == s[|s| - |t|..];
      forall k | 0 <= k < |s| - |t|
        ensures cut(s[k])
      {
        if k > 0 {
          assert s[k] == s[1..][k - 1];
        }
      }
    } else {
      assert TrimStart(s, cut) == s;
      assert s[0..] == s;
    }
  }

  /** What is left is a prefix, only `cut` characters were dropped, and it does not end with one. */
  lemma {:induction false} TrimEndPrefix(s: string, cut: char -> bool)
    ensures |TrimEnd(s, cut)| <= |s| && TrimEnd(s, cut) == s[..|TrimEnd(s, cut)|]
    ensures forall k :: |TrimEnd(s, cut)| <= k < |s| ==> cut(s[k])
    ensures TrimEnd(s, cut) == [] || !cut(TrimEnd(s, cut)[|TrimEnd(s, cut)| - 1])
  {
    if s != [] && cut(s[|s| - 1]) {
      var p := s[..|s| - 1];
      var t := TrimEnd(p, cut);
      TrimEndPrefix(p, cut);
      assert TrimEnd(s, cut) == t;
      assert p[..|t|] == s[..|t|];
      forall k | |t| <= k < |s|
        ensures cut(s[k])
      {
        if k < |s| - 1 {
          assert s[k] == p[k];
        }
      }
    } else {
      assert TrimEnd(s, cut) == s;
      assert s[..|s|] == s;
    }
  }

  /** Trimming both ends leaves the slice between the leading and the trailing `cut` characters. */
  lemma TrimSlice(s: string, cut: char -> bool)
    ensures var i := |s| - |TrimStart(s, cut)|;
      var j := i + |TrimEnd(TrimStart(s, cut), cut)|;
      && 0 <= i <= j <= |s| && TrimEnd(TrimStart(s, cut), cut) == s[i..j]
      && (forall k :: 0 <= k < i ==> cut(s[k]))
      && (forall k :: j <= k < |s| ==> cut(s[k]))
  {
    var a := TrimStart(s, cut);
    var b := TrimEnd(a, cut);
    var i := |s| - |a|;
    assert |a| <= |s| && a == s[i..] && |b| <= |a| && b == a[..|b|] by {
      TrimStartSuffix(s, cut);
      TrimEndPrefix(a, cut);
    }
    var j := i + |b|;
    assert forall k :: 0 <= k < i ==> cut(s[k]) by {
      TrimStartSuffix(s, cut);
    }
    assert forall k :: j <= k < |s| ==> cut(s[k]) by {
      TrimEndPrefix(a, cut);
      forall k | j <= k < |s|
        ensures cut(s[k])
      {
        assert s[k] == a[k - i];
      }
    }
    assert b == s[i..j];
  }

  /** Neither end of the trimmed string is a `cut` character. */
  lemma TrimEnds(s: string, cut: char -> bool)
    ensures var t := TrimEnd(TrimStart(s, cut), cut); t == [] || (!cut(t[0]) && !cut(t[|t| - 1]))
  {
    var a := TrimStart(s, cut);
    TrimStartSuffix(s, cut);
    TrimEndPrefix(a, cut);
  }

  /** A string that neither starts nor ends with a `cut` character is left as it is. */
  lemma TrimUnchanged(s: string, cut: char -> bool)
    requires s == [] || (!cut(s[0]) && !cut(s[|s| - 1]))
    ensures TrimEnd(TrimStart(s, cut), cut) == s
  {
    assert TrimStart(s, cut) == s;
  }

  /** `str.strip()`: the string without leading and trailing whitespace. */
  function Strip(s: string): string
  {
    TrimEnd(TrimStart(s, IsSpace), IsSpace)
  }

  /**
   * The stripped string is the slice of `s` after its leading and before its
   * trailing whitespace: only whitespace was cut, and the result neither
   * starts nor ends with whitespace.
   */
  lemma StripSlice(s: string)
    ensures var i := |s| - |TrimStart(s, IsSpace)|;
      var j := i + |Strip(s)|;
      && 0 <= i <= j <= |s| && Strip(s) == s[i..j]
      && (forall k :: 0 <= k < i ==> IsSpace(s[k]))
      && (forall k :: j <= k < |s| ==> IsSpace(s[k]))
    ensures Strip(s) == [] || (!IsSpace(Strip(s)[0]) && !IsSpace(Strip(s)[|Strip(s)| - 1]))
  {
    TrimSlice(s, IsSpace);
    TrimEnds(s, IsSpace);
  }

  /** Stripping twice cuts nothing more. */
  lemma StripIdempotent(s: string)
    ensures Strip(Strip(s)) == Strip(s)
  {
    TrimEnds(s, IsSpace);
    TrimUnchanged(Strip(s), IsSpace);
  }

  /** A string that neither starts nor ends with whitespace is left as it is. */
  lemma StripUnchanged(s: string)
    requires s == [] || (!IsSpace(s[0]) && !IsSpace(s[|s| - 1]))
    ensures Strip(s) == s
  {
    TrimUnchanged(s, IsSpace);
  }
}
