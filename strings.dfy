/** The handful of Go `strings` operations the parser and the router rely on,
    over `string` = `seq<char>`: trimming by a cut set (strings.Trim,
    strings.TrimSpace restricted to ASCII white space), searching for a
    character, splitting on a one-character separator (strings.Split,
    strings.SplitN with n = 2) and suffix tests (strings.HasSuffix). */
module Strings {

  datatype Option<+T> = None | Some(value: T)

  /** The ASCII white space that Go's strings.TrimSpace removes:
      '\t', '\n', '\v', '\f', '\r' and ' '. */
  const AsciiSpace: set<char> := {'\t', '\n', '\U{0B}', '\U{0C}', '\r', ' '}

  predicate IsSpace(c: char) { c in AsciiSpace }

  /** Removes the longest prefix made only of characters of `cut`. */
  function TrimLeft(s: string, cut: set<char>): (r: string)
    ensures |r| <= |s|
    decreases |s|
  {
    if s != [] && s[0] in cut then TrimLeft(s[1..], cut) else s
  }

  /** Removes the longest suffix made only of characters of `cut`. */
  function TrimRight(s: string, cut: set<char>): (r: string)
    ensures |r| <= |s|
    decreases |s|
  {
    if s != [] && s[|s| - 1] in cut then TrimRight(s[..|s| - 1], cut) else s
  }

  /** strings.Trim(s, cutset): both ends. */
  function Trim(s: string, cut: set<char>): string
  {
    TrimRight(TrimLeft(s, cut), cut)
  }

  /** strings.TrimSpace, for ASCII white space. */
  function TrimSpace(s: string): string
  {
    Trim(s, AsciiSpace)
  }

  /** A string with no character of `cut` at either end. */
  predicate NoEdge(s: string, cut: set<char>)
  {
    s == [] || (s[0] !in cut && s[|s| - 1] !in cut)
  }

  /** The first position of `c` in `s`, if any. */
  function IndexOf(s: string, c: char): (r: Option<nat>)
    ensures r.Some? ==> r.value < |s| && s[r.value] == c
    decreases |s|
  {
    if s == [] then None
    else if s[0] == c then Some(0)
    else match IndexOf(s[1..], c)
      case None => None
      case Some(k) => assert s[1..][..k] == s[1..k + 1]; Some(k + 1)
  }

  /** The first position at or after `i` where `c` occurs, if any. */
  function IndexFrom(s: string, c: char, i: nat): (r: Option<nat>)
    requires i <= |s|
    ensures r.Some? ==> i <= r.value < |s| && s[r.value] == c
    decreases |s| - i
  {
    if i == |s| then None
    else if s[i] == c then Some(i)
    else IndexFrom(s, c, i + 1)
  }

  /** The inverse of Split: the parts with one separator between each two. */
  function Join(parts: seq<string>, sep: char): string
    decreases |parts|
  {
    if parts == [] then []
    else if |parts| == 1 then parts[0]
    else parts[0] + [sep] + Join(parts[1..], sep)
  }

  /** strings.Split(s, string(sep)): the maximal separator-free pieces
      between the separators, always at least one (Split("") == [""]). */
  function Split(s: string, sep: char): (parts: seq<string>)
    ensures |parts| >= 1
    decreases |s|
  {
    match IndexOf(s, sep)
    case None => [s]
    case Some(k) =>
      [s[..k]] + Split(s[k + 1..], sep)
  }

  /** strings.SplitN(s, string(sep), 2): split at the first separator only. */
  function SplitFirst(s: string, sep: char): (r: Option<(string, string)>)
    ensures r.Some? ==> s == r.value.0 + [sep] + r.value.1
  {
    match IndexOf(s, sep)
    case None => None
    case Some(k) =>
      assert s == s[..k] + [sep] + s[k + 1..];
      Some((s[..k], s[k + 1..]))
  }

  predicate HasSuffix(s: string, suffix: string)
  {
    |suffix| <= |s| && s[|s| - |suffix|..] == suffix
  }

  // ---------------------------------------------------------------- lemmas

  /** IndexOf finds the first occurrence, and finds none exactly when there
      is none. */
  lemma {:induction false} IndexOfShape(s: string, c: char)
    ensures IndexOf(s, c).Some? ==> c !in s[..IndexOf(s, c).value]
    ensures IndexOf(s, c).None? <==> c !in s
    decreases |s|
  {
    if s != [] && s[0] != c {
      IndexOfShape(s[1..], c);
      assert s == [s[0]] + s[1..];
      if IndexOf(s, c).Some? {
        var k := IndexOf(s[1..], c).value;
        assert s[..k + 1] == [s[0]] + s[1..][..k];
      }
    }
  }

  /** IndexFrom finds the first occurrence at or after `i`, and finds none
      exactly when there is none. */
  lemma {:induction false} IndexFromShape(s: string, c: char, i: nat)
    requires i <= |s|
    ensures IndexFrom(s, c, i).None? <==> c !in s[i..]
    ensures IndexFrom(s, c, i).Some? ==> c !in s[i..IndexFrom(s, c, i).value]
    decreases |s| - i
  {
    if i < |s| && s[i] != c {
      IndexFromShape(s, c, i + 1);
      assert s[i..] == [s[i]] + s[i + 1..];
      if IndexFrom(s, c, i).Some? {
        var j := IndexFrom(s, c, i).value;
        assert s[i..j] == [s[i]] + s[i + 1..j];
      }
    }
  }

  /** An occurrence with none before it (from `i` on) is the one found. */
  lemma {:induction false} IndexFromAt(s: string, c: char, i: nat, j: nat)
    requires i <= j < |s| && s[j] == c && c !in s[i..j]
    ensures IndexFrom(s, c, i) == Some(j)
    decreases j - i
  {
    if i < j {
      assert s[i] == s[i..j][0];
      assert s[i + 1..j] == s[i..j][1..];
      IndexFromAt(s, c, i + 1, j);
    }
  }

  /** SplitFirst cuts at the first separator, and fails exactly when there is
      none. */
  lemma SplitFirstShape(s: string, sep: char)
    ensures SplitFirst(s, sep).None? <==> sep !in s
    ensures SplitFirst(s, sep).Some? ==> sep !in SplitFirst(s, sep).value.0
  {
    IndexOfShape(s, sep);
  }

  /** The first separator of `a + [sep] + b` is the one after `a`. */
  lemma {:induction false} IndexOfAfter(a: string, sep: char, b: string)
    requires sep !in a
    ensures IndexOf(a + [sep] + b, sep) == Some(|a|)
    decreases |a|
  {
    var s := a + [sep] + b;
    if a != [] {
      assert s[0] == a[0] && s[1..] == a[1..] + [sep] + b;
      IndexOfAfter(a[1..], sep, b);
    }
  }

  /** Splitting at the first separator. */
  lemma SplitFirstAt(a: string, sep: char, b: string)
    requires sep !in a
    ensures SplitFirst(a + [sep] + b, sep) == Some((a, b))
  {
    var s := a + [sep] + b;
    IndexOfAfter(a, sep, b);
    assert s[..|a|] == a;
    assert s[|a| + 1..] == b;
  }

  /** Split peels off one separator-free piece at a time. */
  lemma SplitCons(a: string, sep: char, b: string)
    requires sep !in a
    ensures Split(a + [sep] + b, sep) == [a] + Split(b, sep)
  {
    var s := a + [sep] + b;
    IndexOfAfter(a, sep, b);
    assert s[..|a|] == a;
    assert s[|a| + 1..] == b;
  }

  /** The first piece of a split is the text before the first separator. */
  lemma SplitAtFirst(s: string, sep: char)
    requires IndexOf(s, sep).Some?
    ensures var k := IndexOf(s, sep).value;
      sep !in s[..k] && s == s[..k] + [sep] + s[k + 1..] && Split(s, sep) == [s[..k]] + Split(s[k + 1..], sep)
  {
    var k := IndexOf(s, sep).value;
    IndexOfShape(s, sep);
    assert s == s[..k] + [sep] + s[k + 1..];
  }

  /** No piece of a split holds the separator. */
  lemma {:induction false} SplitFree(s: string, sep: char)
    ensures forall i | 0 <= i < |Split(s, sep)| :: sep !in Split(s, sep)[i]
    decreases |s|
  {
    if IndexOf(s, sep).None? {
      IndexOfShape(s, sep);
    } else {
      SplitAtFirst(s, sep);
      var k := IndexOf(s, sep).value;
      SplitFree(s[k + 1..], sep);
    }
  }

  lemma Regroup(t: string, m: string, tail: string, u: string, rest: string, sep: char)
    requires t == m + [sep] + tail && tail == u + [sep] + rest
    ensures |m| + |u| + 2 <= |t| && t == m + [sep] + u + [sep] + t[|m| + |u| + 2..]
  {
    assert t[|m| + |u| + 2..] == rest;
  }

  /** When a split has at least three pieces, the string starts with the first
      two, each followed by a separator. */
  lemma SplitFirstTwo(t: string, sep: char, m: string, u: string)
    requires |Split(t, sep)| >= 3 && Split(t, sep)[0] == m && Split(t, sep)[1] == u
    ensures sep !in m && sep !in u
    ensures |m| + |u| + 2 <= |t| && t == m + [sep] + u + [sep] + t[|m| + |u| + 2..]
  {
    var k := SplitHead(t, sep);
    var tail := t[k + 1..];
    var a := SplitHead(tail, sep);
    Regroup(t, t[..k], tail, tail[..a], tail[a + 1..], sep);
  }

  /** A split into several pieces has a first separator, at the end of its
      first piece. */
  lemma SplitHead(s: string, sep: char) returns (k: nat)
    requires |Split(s, sep)| >= 2
    ensures k < |s| && sep !in s[..k] && s == s[..k] + [sep] + s[k + 1..]
    ensures Split(s, sep) == [s[..k]] + Split(s[k + 1..], sep)
  {
    if IndexOf(s, sep).None? {
      assert false;
    }
    SplitAtFirst(s, sep);
    k := IndexOf(s, sep).value;
  }

  /** A split has fewer than three pieces exactly when the string holds fewer
      than two separators. */
  lemma SplitFewPieces(t: string, sep: char)
    ensures |Split(t, sep)| < 3 <==> !exists i, j | 0 <= i < j < |t| :: t[i] == sep && t[j] == sep
  {
    if IndexOf(t, sep).None? {
      IndexOfShape(t, sep);
    } else {
      SplitAtFirst(t, sep);
      var k := IndexOf(t, sep).value;
      var tail := t[k + 1..];
      if IndexOf(tail, sep).None? {
        IndexOfShape(tail, sep);
        forall i, j | 0 <= i < j < |t| && t[i] == sep
          ensures t[j] != sep
        {
          assert t[j] == tail[j - k - 1];
        }
      } else {
        SplitAtFirst(tail, sep);
        var a := IndexOf(tail, sep).value;
        assert t[k + 1 + a] == tail[a];
      }
    }
  }

  /** A string with no separator splits into itself alone. */
  lemma SplitNone(s: string, sep: char)
    requires sep !in s
    ensures Split(s, sep) == [s]
  {
    IndexOfShape(s, sep);
  }

  /** TrimLeft keeps a suffix, and that suffix does not start with a cut
      character. */
  lemma {:induction false} TrimLeftShape(s: string, cut: set<char>)
    ensures var r := TrimLeft(s, cut); r == s[|s| - |r|..] && (r == [] || r[0] !in cut)
    decreases |s|
  {
    if s != [] && s[0] in cut {
      TrimLeftShape(s[1..], cut);
    }
  }

  /** TrimRight keeps a prefix, and that prefix does not end with a cut
      character. */
  lemma {:induction false} TrimRightShape(s: string, cut: set<char>)
    ensures var r := TrimRight(s, cut); r == s[..|r|] && (r == [] || r[|r| - 1] !in cut)
    decreases |s|
  {
    if s != [] && s[|s| - 1] in cut {
      TrimRightShape(s[..|s| - 1], cut);
    }
  }

  /** Trimming leaves a string without cut characters at its ends unchanged. */
  lemma TrimKeeps(s: string, cut: set<char>)
    requires NoEdge(s, cut)
    ensures Trim(s, cut) == s
  {
    assert [] + s == s && s + [] == s;
    TrimLeftPadded([], s, cut);
    TrimRightPadded(s, [], cut);
  }

  /** TrimLeft removes a cut-only prefix in front of a string that does not
      start with a cut character. */
  lemma {:induction false} TrimLeftPadded(w: string, s: string, cut: set<char>)
    requires forall k | 0 <= k < |w| :: w[k] in cut
    requires s == [] || s[0] !in cut
    ensures TrimLeft(w + s, cut) == s
    decreases |w|
  {
    if w != [] {
      assert (w + s)[1..] == w[1..] + s;
      TrimLeftPadded(w[1..], s, cut);
    }
  }

  /** TrimRight removes a cut-only suffix after a string that does not end
      with a cut character. */
  lemma {:induction false} TrimRightPadded(s: string, w: string, cut: set<char>)
    requires forall k | 0 <= k < |w| :: w[k] in cut
    requires s == [] || s[|s| - 1] !in cut
    ensures TrimRight(s + w, cut) == s
    decreases |w|
  {
    if w != [] {
      assert (s + w)[..|s + w| - 1] == s + w[..|w| - 1];
      TrimRightPadded(s, w[..|w| - 1], cut);
    } else {
      assert s + w == s;
    }
  }

  /** Trimming removes exactly a cut-only padding around a string without
      cut characters at its ends. */
  lemma TrimPadded(w1: string, s: string, w2: string, cut: set<char>)
    requires forall k | 0 <= k < |w1| :: w1[k] in cut
    requires forall k | 0 <= k < |w2| :: w2[k] in cut
    requires s != [] && NoEdge(s, cut)
    ensures Trim(w1 + s + w2, cut) == s
  {
    assert w1 + s + w2 == w1 + (s + w2);
    TrimLeftPadded(w1, s + w2, cut);
    TrimRightPadded(s, w2, cut);
  }

  /** A trimmed string has no cut characters at its ends. */
  lemma TrimHasNoEdge(s: string, cut: set<char>)
    ensures NoEdge(Trim(s, cut), cut)
  {
    var l := TrimLeft(s, cut);
    var r := TrimRight(l, cut);
    TrimLeftShape(s, cut);
    TrimRightShape(l, cut);
    if r != [] {
      assert r[0] == l[0];
    }
  }

  /** Split undoes Join when no piece holds the separator. */
  lemma {:induction false} SplitJoin(parts: seq<string>, sep: char)
    requires |parts| >= 1 && forall i | 0 <= i < |parts| :: sep !in parts[i]
    ensures Split(Join(parts, sep), sep) == parts
    decreases |parts|
  {
    if |parts| == 1 {
      SplitNone(parts[0], sep);
    } else {
      SplitCons(parts[0], sep, Join(parts[1..], sep));
      SplitJoin(parts[1..], sep);
    }
  }

  /** Joined non-empty pieces start with the first piece's first character
      and end with the last piece's last. */
  lemma {:induction false} JoinEnds(parts: seq<string>, sep: char)
    requires |parts| >= 1 && forall i | 0 <= i < |parts| :: parts[i] != []
    ensures var j := Join(parts, sep); |j| > 0 && j[0] == parts[0][0] && j[|j| - 1] == parts[|parts| - 1][|parts[|parts| - 1]| - 1]
    decreases |parts|
  {
    if |parts| > 1 {
      JoinEnds(parts[1..], sep);
    }
  }
}
