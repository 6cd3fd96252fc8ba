/**
 * The JavaScript string operations the application relies on:
 * `String.prototype.split` and `Array.prototype.join` with a non-empty
 * separator, and `String.prototype.trim`.
 */
module JsText {

  /** `sep` occurs somewhere inside `s`. */
  predicate HasInfix(s: string, sep: string)
    decreases |s|
  {
    |sep| <= |s| && (s[..|sep|] == sep || HasInfix(s[1..], sep))
  }

  /** No proper prefix of `sep` is also a suffix of it, so two occurrences never overlap. */
  predicate Unbordered(sep: string) {
    forall k :: 0 < k < |sep| ==> sep[..k] != sep[|sep| - k..]
  }

  /** `parts.join(sep)`. */
  function Join(parts: seq<string>, sep: string): string
  {
    if |parts| == 0 then ""
    else if |parts| == 1 then parts[0]
    else parts[0] + sep + Join(parts[1..], sep)
  }

  /**
   * `s.split(sep)`: the pieces between the occurrences of `sep`, found from
   * left to right. The result is never empty: `"".split(sep)` is `[""]`.
   */
  function Split(s: string, sep: string): (parts: seq<string>)
    requires |sep| > 0
    ensures |parts| >= 1
    decreases |s|
  {
    if |s| < |sep| then [s]
    else if s[..|sep|] == sep then [""] + Split(s[|sep|..], sep)
    else
      var rest := Split(s[1..], sep);
      [[s[0]] + rest[0]] + rest[1..]
  }

  /** Joining after an empty first piece puts the separator in front. */
  lemma JoinEmptyFirst(rest: seq<string>, sep: string)
    requires |rest| >= 1
    ensures Join([""] + rest, sep) == sep + Join(rest, sep)
  {
    assert ([""] + rest)[1..] == rest;
  }

  /** Joining after a character is put in front of the first piece puts it in front of the text. */
  lemma JoinExtendFirst(c: char, rest: seq<string>, sep: string)
    requires |rest| >= 1
    ensures Join([[c] + rest[0]] + rest[1..], sep) == [c] + Join(rest, sep)
  {
    var parts := [[c] + rest[0]] + rest[1..];
    assert parts[1..] == rest[1..];
    if |rest| > 1 {
      assert Join(parts, sep) == ([c] + rest[0]) + sep + Join(rest[1..], sep);
    }
  }

  /** Splitting and joining again on the same separator gives back the string. */
  lemma {:induction false} JoinSplit(s: string, sep: string)
    requires |sep| > 0
    ensures Join(Split(s, sep), sep) == s
    decreases |s|
  {
    if |s| < |sep| {
    } else if s[..|sep|] == sep {
      JoinSplit(s[|sep|..], sep);
      JoinEmptyFirst(Split(s[|sep|..], sep), sep);
      assert s == sep + s[|sep|..];
    } else {
      JoinSplit(s[1..], sep);
      JoinExtendFirst(s[0], Split(s[1..], sep), sep);
      assert s == [s[0]] + s[1..];
    }
  }

  /** A string that does not contain the separator splits into itself alone. */
  lemma {:induction false} SplitWhole(p: string, sep: string)
    requires |sep| > 0 && !HasInfix(p, sep)
    ensures Split(p, sep) == [p]
    decreases |p|
  {
    if |p| >= |sep| {
      SplitWhole(p[1..], sep);
      assert [p[0]] + p[1..] == p;
    }
  }

  /** A separator-free piece followed by the separator is split off as one part. */
  lemma {:induction false} SplitAfter(p: string, sep: string, tail: string)
    requires |sep| > 0 && Unbordered(sep) && !HasInfix(p, sep)
    ensures Split(p + sep + tail, sep) == [p] + Split(tail, sep)
    decreases |p|
  {
    var s := p + sep + tail;
    if p == "" {
      assert s[..|sep|] == sep && s[|sep|..] == tail;
    } else {
      if |p| >= |sep| {
        assert s[..|sep|] == p[..|sep|];
      } else {
        NoMatchAcrossBoundary(p, sep, tail);
      }
      assert s[1..] == p[1..] + sep + tail;
      assert !HasInfix(p[1..], sep);
      SplitAfter(p[1..], sep, tail);
      assert [p[0]] + p[1..] == p;
    }
  }

  /** Under an unbordered separator, no match can start inside a piece shorter than it. */
  lemma NoMatchAcrossBoundary(p: string, sep: string, tail: string)
    requires 0 < |p| < |sep| && Unbordered(sep)
    ensures (p + sep + tail)[..|sep|] != sep
  {
    var s := p + sep + tail;
    var k := |sep| - |p|;
    assert s[..|sep|][|p|..] == sep[..k];
    assert sep[..k] != sep[|sep| - k..];
  }

  /**
   * Joining pieces that do not contain the separator and splitting again
   * recovers exactly those pieces.
   */
  lemma {:induction false} SplitJoin(parts: seq<string>, sep: string)
    requires |sep| > 0 && Unbordered(sep) && |parts| > 0
    requires forall p <- parts :: !HasInfix(p, sep)
    ensures Split(Join(parts, sep), sep) == parts
    decreases |parts|
  {
    if |parts| == 1 {
      SplitWhole(parts[0], sep);
    } else {
      SplitJoin(parts[1..], sep);
      SplitAfter(parts[0], sep, Join(parts[1..], sep));
      assert [parts[0]] + parts[1..] == parts;
    }
  }

  /**
   * The first piece of a split is the longest prefix free of the separator:
   * it is followed by the separator, or it is the whole string.
   */
  lemma {:induction false} FirstPiece(s: string, sep: string)
    requires |sep| > 0
    ensures var first := Split(s, sep)[0];
      first <= s && !HasInfix(first, sep) && (first == s || sep <= s[|first|..])
    decreases |s|
  {
    if |s| >= |sep| && s[..|sep|] != sep {
      FirstPiece(s[1..], sep);
      var rest := Split(s[1..], sep);
      var first := [s[0]] + rest[0];
      assert Split(s, sep)[0] == first;
      assert s == [s[0]] + s[1..];
      assert first <= s;
      if |sep| <= |first| {
        assert first[..|sep|] == s[..|sep|];
      }
      assert first[1..] == rest[0];
      assert s[|first|..] == s[1..][|rest[0]|..];
    }
  }

  /** For a one-character separator, containment is plain membership. */
  lemma {:induction false} InfixOfChar(s: string, c: char)
    ensures HasInfix(s, [c]) <==> c in s
    decreases |s|
  {
    if |s| > 0 {
      InfixOfChar(s[1..], c);
      assert s == [s[0]] + s[1..];
    }
  }

  /**
   * The whitespace `String.prototype.trim` removes: the ECMAScript
   * WhiteSpace characters (tab, vertical tab, form feed, space, no-break
   * space, zero width no-break space and the Unicode space separators) and
   * the LineTerminator characters.
   */
  predicate IsSpace(c: char) {
    || c == '\t' || c == '\U{B}' || c == '\U{C}' || c == ' ' || c == '\U{A0}' || c == '\U{FEFF}'
    || c == '\U{1680}' || ('\U{2000}' <= c <= '\U{200A}') || c == '\U{202F}' || c == '\U{205F}'
    || c == '\U{3000}'
    || c == '\n' || c == '\r' || c == '\U{2028}' || c == '\U{2029}'
  }

  /** Every character of `s` is whitespace (the empty string included). */
  predicate IsBlank(s: string) {
    forall i :: 0 <= i < |s| ==> IsSpace(s[i])
  }

  /** Whitespace put in front of a blank string leaves it blank. */
  lemma BlankCons(c: char, a: string)
    requires IsSpace(c) && IsBlank(a)
    ensures IsBlank([c] + a)
  {
    forall i | 0 <= i < |[c] + a| ensures IsSpace(([c] + a)[i]) {
      if i > 0 {
        assert ([c] + a)[i] == a[i - 1];
      }
    }
  }

  /** Whitespace put after a blank string leaves it blank. */
  lemma BlankSnoc(a: string, c: char)
    requires IsBlank(a) && IsSpace(c)
    ensures IsBlank(a + [c])
  {
    forall i | 0 <= i < |a + [c]| ensures IsSpace((a + [c])[i]) {
      if i < |a| {
        assert (a + [c])[i] == a[i];
      }
    }
  }

  /** `s` minus its leading whitespace. */
  function TrimStart(s: string): (r: string)
    ensures |r| <= |s| && r == s[|s| - |r|..]
    ensures IsBlank(s[..|s| - |r|])
    ensures r == "" || !IsSpace(r[0])
    decreases |s|
  {
    if |s| > 0 && IsSpace(s[0]) then
      var r := TrimStart(s[1..]);
      BlankCons(s[0], s[1..][..|s| - 1 - |r|]);
      assert s[..|s| - |r|] == [s[0]] + s[1..][..|s| - 1 - |r|];
      r
    else s
  }

  /** `s` minus its trailing whitespace. */
  function TrimEnd(s: string): (r: string)
    ensures |r| <= |s| && r == s[..|r|]
    ensures IsBlank(s[|r|..])
    ensures r == "" || !IsSpace(r[|r| - 1])
    decreases |s|
  {
    if |s| > 0 && IsSpace(s[|s| - 1]) then
      var r := TrimEnd(s[..|s| - 1]);
      BlankSnoc(s[..|s| - 1][|r|..], s[|s| - 1]);
      assert s[|r|..] == s[..|s| - 1][|r|..] + [s[|s| - 1]];
      r
    else s
  }

  /** `s.trim()`. */
  function Trim(s: string): string
  {
    TrimEnd(TrimStart(s))
  }

  /** A trimmed string is a piece of the original with no whitespace at either end. */
  lemma TrimIsCore(s: string)
    ensures var r := Trim(s);
      && (exists i :: 0 <= i <= |s| && r <= s[i..])
      && (r == "" || (!IsSpace(r[0]) && !IsSpace(r[|r| - 1])))
  {
    var t := TrimStart(s);
    var r := TrimEnd(t);
    assert r == Trim(s);
    var i := |s| - |t|;
    assert s[i..] == t && r <= t;
    assert 0 <= i <= |s| && r <= s[i..];
    if r != "" {
      assert t != "" && r[0] == t[0] && !IsSpace(t[0]);
      assert !IsSpace(r[|r| - 1]);
    }
  }

  /** `!s.trim()` holds exactly when `s` is blank. */
  lemma TrimEmptyIffBlank(s: string)
    ensures Trim(s) == "" <==> IsBlank(s)
  {
    var t := TrimStart(s);
    if Trim(s) == "" {
      assert IsBlank(t[0..]);
      forall i | 0 <= i < |s| ensures IsSpace(s[i]) {
        assert s[i] == s[..|s| - |t|][i];
      }
    }
  }

  /** Trimming twice is the same as trimming once. */
  lemma TrimIdempotent(s: string)
    ensures Trim(Trim(s)) == Trim(s)
  {
    var r := Trim(s);
    if r != "" {
      assert !IsSpace(r[0]) && !IsSpace(r[|r| - 1]);
      assert TrimStart(r) == r;
      assert TrimEnd(r) == r;
    }
  }
}
