/**
 * The string primitives the MTL parser is built on, as ECMAScript defines
 * them: trim, split on a character, split on runs of white space, indexOf
 * and toLowerCase. Each function carries only its bounds; what it computes
 * is stated by the lemma that follows it.
 */
module MtlText {

  /**
   * The characters `trim` removes and `\s` matches: ECMAScript WhiteSpace
   * (tab, vertical tab, form feed, space, no-break space, the byte order
   * mark and the Unicode space separators) and LineTerminator (line feed,
   * carriage return, line and paragraph separator).
   */
  predicate IsSpace(c: char) {
    || c == '\t' || c == '\n' || c == '\U{000B}' || c == '\U{000C}' || c == '\r' || c == ' '
    || c == '\U{00A0}' || c == '\U{1680}' || ('\U{2000}' <= c <= '\U{200A}')
    || c == '\U{2028}' || c == '\U{2029}' || c == '\U{202F}' || c == '\U{205F}'
    || c == '\U{3000}' || c == '\U{FEFF}'
  }

  /** No character of s is white space. */
  predicate NoSpace(s: string) {
    forall i :: 0 <= i < |s| ==> !IsSpace(s[i])
  }

  /** Every character of s is white space. */
  predicate AllSpace(s: string) {
    forall i :: 0 <= i < |s| ==> IsSpace(s[i])
  }

  /** The leading white space removed. */
  function TrimStart(s: string): (r: string)
    ensures |r| <= |s|
  {
    if s != [] && IsSpace(s[0]) then TrimStart(s[1..]) else s
  }

  /** TrimStart keeps the suffix of s that starts at its first character other than white space. */
  lemma {:induction false} TrimStartSpec(s: string)
    ensures var r := TrimStart(s);
      && r == s[|s| - |r|..]
      && AllSpace(s[..|s| - |r|])
      && (r != [] ==> !IsSpace(r[0]))
  {
    if s != [] && IsSpace(s[0]) {
      TrimStartSpec(s[1..]);
      var r := TrimStart(s[1..]);
      assert s[1..][|s| - 1 - |r|..] == s[|s| - |r|..];
      assert forall i :: 1 <= i < |s| - |r| ==> s[i] == s[1..][..|s| - 1 - |r|][i - 1];
    }
  }

  /** The trailing white space removed. */
  function TrimEnd(s: string): (r: string)
    ensures |r| <= |s|
  {
    if s != [] && IsSpace(s[|s| - 1]) then TrimEnd(s[..|s| - 1]) else s
  }

  /** TrimEnd keeps the prefix of s that ends at its last character other than white space. */
  lemma {:induction false} TrimEndSpec(s: string)
    ensures var r := TrimEnd(s);
      && r == s[..|r|]
      && AllSpace(s[|r|..])
      && (r != [] ==> !IsSpace(r[|r| - 1]))
  {
    if s != [] && IsSpace(s[|s| - 1]) {
      TrimEndSpec(s[..|s| - 1]);
      var r := TrimEnd(s[..|s| - 1]);
      assert s[..|s| - 1][..|r|] == s[..|r|];
      assert forall i :: |r| <= i < |s| - 1 ==> s[i] == s[..|s| - 1][|r|..][i - |r|];
    }
  }

  /** String.prototype.trim. */
  function Trim(s: string): (r: string)
    ensures |r| <= |s|
  {
    TrimEnd(TrimStart(s))
  }

  /**
   * The trimmed string is the part of s between some leading and trailing
   * white space, and it neither starts nor ends with white space itself.
   */
  lemma TrimSlice(s: string)
    ensures var r := Trim(s);
      exists i :: 0 <= i <= i + |r| <= |s| && r == s[i..i + |r|] && AllSpace(s[..i]) && AllSpace(s[i + |r|..])
    ensures var r := Trim(s); r != [] ==> !IsSpace(r[0]) && !IsSpace(r[|r| - 1])
  {
    var t := TrimStart(s);
    var r := TrimEnd(t);
    TrimStartSpec(s);
    TrimEndSpec(t);
    var i := |s| - |t|;
    assert r == s[i..i + |r|];
    assert forall k :: i + |r| <= k < |s| ==> s[k] == t[|r|..][k - i - |r|];
    if r != [] {
      assert r[0] == t[0];
    }
  }

  /** A string that neither starts nor ends with white space is its own trim. */
  lemma TrimKeeps(s: string)
    requires s == [] || (!IsSpace(s[0]) && !IsSpace(s[|s| - 1]))
    ensures Trim(s) == s
  {
  }

  /** Trimming twice is trimming once. */
  lemma TrimIdempotent(s: string)
    ensures Trim(Trim(s)) == Trim(s)
  {
    TrimSlice(s);
    TrimKeeps(Trim(s));
  }

  /** String.prototype.indexOf for one character, with -1 for none. */
  function IndexOf(s: string, c: char): (r: int)
    ensures -1 <= r < |s|
  {
    if s == [] then -1
    else if s[0] == c then 0
    else
      var k := IndexOf(s[1..], c);
      if k == -1 then -1 else k + 1
  }

  /** indexOf finds the first position of c, and -1 exactly when s has none. */
  lemma {:induction false} IndexOfSpec(s: string, c: char)
    ensures var r := IndexOf(s, c);
      && (r == -1 <==> c !in s)
      && (r >= 0 ==> s[r] == c && c !in s[..r])
  {
    if s != [] && s[0] != c {
      IndexOfSpec(s[1..], c);
      var k := IndexOf(s[1..], c);
      assert c in s[1..] ==> c in s;
      assert c in s ==> c in s[1..] by {
        if c in s {
          var j :| 0 <= j < |s| && s[j] == c;
          assert s[1..][j - 1] == c;
        }
      }
      if k != -1 {
        assert s[..k + 1] == [s[0]] + s[1..][..k];
      }
    }
  }

  /** The first occurrence is the one with none before it. */
  lemma IndexOfAt(s: string, c: char, n: nat)
    requires n < |s| && s[n] == c && c !in s[..n]
    ensures IndexOf(s, c) == n
  {
    IndexOfSpec(s, c);
  }

  /** `text.split(sep)` for a one-character separator: the pieces between the separators. */
  function Split(s: string, sep: char): (r: seq<string>)
    ensures |r| >= 1
    decreases |s|
  {
    var i := IndexOf(s, sep);
    if i < 0 then [s]
    else [s[..i]] + Split(s[i + 1..], sep)
  }

  /** No piece of a split holds the separator. */
  lemma {:induction false} SplitPiecesFree(s: string, sep: char)
    ensures forall k :: 0 <= k < |Split(s, sep)| ==> sep !in Split(s, sep)[k]
    decreases |s|
  {
    IndexOfSpec(s, sep);
    var i := IndexOf(s, sep);
    if i >= 0 {
      SplitPiecesFree(s[i + 1..], sep);
    }
  }

  /** `pieces.join(sep)`. */
  function Join(pieces: seq<string>, sep: char): string
    requires |pieces| >= 1
  {
    if |pieces| == 1 then pieces[0]
    else pieces[0] + [sep] + Join(pieces[1..], sep)
  }

  /** Joining a piece in front of others puts one separator between. */
  lemma JoinCons(p: string, rest: seq<string>, sep: char)
    requires |rest| >= 1
    ensures Join([p] + rest, sep) == p + [sep] + Join(rest, sep)
  {
    assert ([p] + rest)[1..] == rest;
  }

  /** Joining the pieces of a split gives back the text. */
  lemma {:induction false} JoinSplit(s: string, sep: char)
    ensures Join(Split(s, sep), sep) == s
    decreases |s|
  {
    IndexOfSpec(s, sep);
    var i := IndexOf(s, sep);
    if i >= 0 {
      var rest := Split(s[i + 1..], sep);
      JoinSplit(s[i + 1..], sep);
      JoinCons(s[..i], rest, sep);
      assert s == s[..i] + [s[i]] + s[i + 1..];
    }
  }

  /** Splitting a join of pieces free of the separator gives back the pieces. */
  lemma {:induction false} SplitJoin(pieces: seq<string>, sep: char)
    requires |pieces| >= 1
    requires forall k :: 0 <= k < |pieces| ==> sep !in pieces[k]
    ensures Split(Join(pieces, sep), sep) == pieces
  {
    var s := Join(pieces, sep);
    if |pieces| == 1 {
      IndexOfSpec(s, sep);
    } else {
      var p := pieces[0];
      var rest := Join(pieces[1..], sep);
      assert s == p + [sep] + rest;
      assert s[..|p|] == p;
      IndexOfAt(s, sep, |p|);
      assert s[|p| + 1..] == rest;
      SplitJoin(pieces[1..], sep);
    }
  }

  /** The end of the run of white space that starts at i. */
  function SpaceRunEnd(s: string, i: nat): (j: nat)
    requires i <= |s|
    ensures i <= j <= |s|
    decreases |s| - i
  {
    if i < |s| && IsSpace(s[i]) then SpaceRunEnd(s, i + 1) else i
  }

  /** The run is all white space and is followed by something else or by the end. */
  lemma {:induction false} SpaceRunEndSpec(s: string, i: nat)
    requires i <= |s|
    ensures var j := SpaceRunEnd(s, i); AllSpace(s[i..j]) && (j < |s| ==> !IsSpace(s[j]))
    decreases |s| - i
  {
    if i < |s| && IsSpace(s[i]) {
      SpaceRunEndSpec(s, i + 1);
      var j := SpaceRunEnd(s, i + 1);
      assert s[i..j] == [s[i]] + s[i + 1..j];
      AllSpaceCons(s[i], s[i + 1..j]);
    }
  }

  lemma AllSpaceCons(c: char, t: string)
    requires IsSpace(c) && AllSpace(t)
    ensures AllSpace([c] + t)
  {
    forall k | 0 < k < |t| + 1
      ensures IsSpace(([c] + t)[k])
    {
      assert ([c] + t)[k] == t[k - 1];
    }
  }

  /** The first white space character of s, or -1. */
  function IndexOfSpace(s: string): (r: int)
    ensures -1 <= r < |s|
  {
    if s == [] then -1
    else if IsSpace(s[0]) then 0
    else
      var k := IndexOfSpace(s[1..]);
      if k == -1 then -1 else k + 1
  }

  /** IndexOfSpace finds the first white space, and -1 exactly when there is none. */
  lemma {:induction false} IndexOfSpaceSpec(s: string)
    ensures var r := IndexOfSpace(s);
      && (r == -1 <==> NoSpace(s))
      && (r >= 0 ==> IsSpace(s[r]) && NoSpace(s[..r]))
  {
    if s != [] && !IsSpace(s[0]) {
      IndexOfSpaceSpec(s[1..]);
      var k := IndexOfSpace(s[1..]);
      assert NoSpace(s[1..]) ==> NoSpace(s) by {
        if NoSpace(s[1..]) {
          assert forall j :: 1 <= j < |s| ==> s[j] == s[1..][j - 1];
        }
      }
      if k != -1 {
        assert s[..k + 1] == [s[0]] + s[1..][..k];
      }
    }
  }

  /** The first white space character is the one with none before it. */
  lemma IndexOfSpaceAt(s: string, n: nat)
    requires n < |s| && IsSpace(s[n]) && NoSpace(s[..n])
    ensures IndexOfSpace(s) == n
  {
    IndexOfSpaceSpec(s);
    assert !NoSpace(s) by { assert IsSpace(s[n]); }
  }

  /**
   * `value.split(/\s+/)`: the pieces between the maximal runs of white space;
   * a run at the very start or end leaves an empty piece there.
   */
  function SplitWs(s: string): (r: seq<string>)
    ensures |r| >= 1
    decreases |s|
  {
    var i := IndexOfSpace(s);
    if i < 0 then [s]
    else
      var j := SpaceRunEnd(s, i + 1);
      [s[..i]] + SplitWs(s[j..])
  }

  /** A run of white space from i to j followed by something else or the end ends at j. */
  lemma {:induction false} SpaceRunOver(s: string, i: nat, j: nat)
    requires i <= j <= |s| && AllSpace(s[i..j]) && (j < |s| ==> !IsSpace(s[j]))
    ensures SpaceRunEnd(s, i) == j
    decreases j - i
  {
    if i < j {
      assert IsSpace(s[i]) by { assert s[i] == s[i..j][0]; }
      var t := s[i + 1..j];
      forall k | 0 <= k < |t|
        ensures IsSpace(t[k])
      {
        assert t[k] == s[i..j][k + 1];
      }
      SpaceRunOver(s, i + 1, j);
    }
  }

  /** Text without white space is one piece. */
  lemma SplitWsWhole(s: string)
    requires NoSpace(s)
    ensures SplitWs(s) == [s]
  {
    IndexOfSpaceSpec(s);
  }

  /**
   * Where the cuts fall: a token, any non-empty run of white space and a
   * text not starting with white space split into the token followed by the
   * pieces of that text.
   */
  lemma SplitWsCons(a: string, w: string, rest: string)
    requires NoSpace(a) && w != [] && AllSpace(w) && (rest == [] || !IsSpace(rest[0]))
    ensures SplitWs(a + w + rest) == [a] + SplitWs(rest)
  {
    var s := a + w + rest;
    var n := |a|;
    assert s[..n] == a;
    assert s[n] == w[0];
    IndexOfSpaceAt(s, n);
    assert s[n..n + |w|] == w;
    assert n + |w| < |s| ==> s[n + |w|] == rest[0];
    SpaceRunOver(s, n, n + |w|);
    assert SpaceRunEnd(s, n + 1) == n + |w|;
    assert s[n + |w|..] == rest;
  }

  /** No piece of a split on white space holds white space. */
  lemma {:induction false} SplitWsNoSpace(s: string)
    ensures forall k :: 0 <= k < |SplitWs(s)| ==> NoSpace(SplitWs(s)[k])
    decreases |s|
  {
    IndexOfSpaceSpec(s);
    var i := IndexOfSpace(s);
    if i >= 0 {
      SplitWsNoSpace(s[SpaceRunEnd(s, i + 1)..]);
    }
  }

  /** The characters of s other than white space, in order. */
  function RemoveSpaces(s: string): string {
    if s == [] then []
    else if IsSpace(s[0]) then RemoveSpaces(s[1..])
    else [s[0]] + RemoveSpaces(s[1..])
  }

  /** The pieces concatenated. */
  function Concat(pieces: seq<string>): string {
    if pieces == [] then [] else pieces[0] + Concat(pieces[1..])
  }

  lemma {:induction false} RemoveSpacesAppend(a: string, b: string)
    ensures RemoveSpaces(a + b) == RemoveSpaces(a) + RemoveSpaces(b)
  {
    if a != [] {
      assert (a + b)[1..] == a[1..] + b;
      RemoveSpacesAppend(a[1..], b);
    } else {
      assert a + b == b;
    }
  }

  lemma {:induction false} RemoveSpacesOf(s: string)
    ensures NoSpace(s) ==> RemoveSpaces(s) == s
    ensures AllSpace(s) ==> RemoveSpaces(s) == []
  {
    if s != [] {
      RemoveSpacesOf(s[1..]);
      assert [s[0]] + s[1..] == s;
    }
  }

  /** A text with no white space up to i and only white space from i to j keeps its first i characters. */
  lemma RemoveSpacesAround(s: string, i: nat, j: nat)
    requires i <= j <= |s| && NoSpace(s[..i]) && AllSpace(s[i..j])
    ensures RemoveSpaces(s) == s[..i] + RemoveSpaces(s[j..])
  {
    assert s == s[..i] + s[i..j] + s[j..];
    RemoveSpacesAppend(s[..i] + s[i..j], s[j..]);
    RemoveSpacesAppend(s[..i], s[i..j]);
    RemoveSpacesOf(s[..i]);
    RemoveSpacesOf(s[i..j]);
  }

  /**
   * Splitting on white space loses only the white space: the pieces put
   * together are the text without it.
   */
  lemma {:induction false} SplitWsLosesOnlySpace(s: string)
    ensures Concat(SplitWs(s)) == RemoveSpaces(s)
    decreases |s|
  {
    IndexOfSpaceSpec(s);
    var i := IndexOfSpace(s);
    if i < 0 {
      RemoveSpacesOf(s);
      assert Concat([s]) == s + Concat([]);
    } else {
      SpaceRunFrom(s, i);
      var j := SpaceRunEnd(s, i + 1);
      SplitWsLosesOnlySpace(s[j..]);
      assert SplitWs(s) == [s[..i]] + SplitWs(s[j..]);
      RemoveSpacesAround(s, i, j);
    }
  }

  /** A run of white space that starts at i covers i up to its end, whose last character is white space. */
  lemma SpaceRunFrom(s: string, i: nat)
    requires i < |s| && IsSpace(s[i])
    ensures var j := SpaceRunEnd(s, i + 1);
      && i < j && AllSpace(s[i..j]) && IsSpace(s[j - 1]) && (j < |s| ==> !IsSpace(s[j]))
  {
    SpaceRunEndSpec(s, i);
    var j := SpaceRunEnd(s, i + 1);
    assert SpaceRunEnd(s, i) == j;
    assert s[j - 1] == s[i..j][j - 1 - i];
  }

  /** A white-space character and one that is not stand at different places. */
  lemma SpaceIsNotOther(s: string, a: nat, b: nat)
    requires a < |s| && b < |s| && IsSpace(s[a]) && !IsSpace(s[b])
    ensures a != b
  {
  }

  /** A text that does not start with white space has a non-empty first piece. */
  lemma SplitWsFirstNonEmpty(s: string)
    requires |s| > 0 && !IsSpace(s[0])
    ensures SplitWs(s)[0] != []
  {
    IndexOfSpaceSpec(s);
  }

  /** The last piece of a split with a cut is the last piece of the split after the cut. */
  lemma SplitWsLastOfCut(s: string, i: nat, j: nat)
    requires i < |s| && IndexOfSpace(s) == i && SpaceRunEnd(s, i + 1) == j
    ensures |SplitWs(s)| == |SplitWs(s[j..])| + 1
    ensures SplitWs(s)[|SplitWs(s)| - 1] == SplitWs(s[j..])[|SplitWs(s[j..])| - 1]
  {
    assert SplitWs(s) == [s[..i]] + SplitWs(s[j..]);
  }

  /** A text that does not end with white space has a non-empty last piece. */
  lemma {:induction false} SplitWsLastNonEmpty(s: string)
    requires |s| > 0 && !IsSpace(s[|s| - 1])
    ensures SplitWs(s)[|SplitWs(s)| - 1] != []
    decreases |s|
  {
    IndexOfSpaceSpec(s);
    var i := IndexOfSpace(s);
    if i >= 0 {
      SpaceRunFrom(s, i);
      var j := SpaceRunEnd(s, i + 1);
      SpaceIsNotOther(s, j - 1, |s| - 1);
      var rest := s[j..];
      assert rest[|rest| - 1] == s[|s| - 1];
      SplitWsLastNonEmpty(rest);
      SplitWsLastOfCut(s, i, j);
    }
  }

  /**
   * Between two runs of white space there is always some other character:
   * only the first and the last piece can be empty.
   */
  lemma {:induction false} SplitWsPiecesNonEmpty(s: string)
    ensures var r := SplitWs(s); forall k :: 0 < k < |r| - 1 ==> r[k] != []
    decreases |s|
  {
    IndexOfSpaceSpec(s);
    var i := IndexOfSpace(s);
    if i >= 0 {
      SpaceRunFrom(s, i);
      var j := SpaceRunEnd(s, i + 1);
      var rest := s[j..];
      SplitWsPiecesNonEmpty(rest);
      assert SplitWs(s) == [s[..i]] + SplitWs(rest);
      if |rest| > 0 {
        assert rest[0] == s[j];
        SplitWsFirstNonEmpty(rest);
      } else {
        assert SplitWs(rest) == [[]];
      }
    }
  }

  /** An ASCII capital letter to lower case; any other character is kept. */
  function LowerChar(c: char): char {
    if 'A' <= c <= 'Z' then (c as int + 32) as char else c
  }

  /** String.prototype.toLowerCase on the ASCII letters. */
  function ToLower(s: string): (r: string)
    ensures |r| == |s|
  {
    if s == [] then [] else [LowerChar(s[0])] + ToLower(s[1..])
  }

  /** Lower-casing works character by character. */
  lemma {:induction false} ToLowerSpec(s: string)
    ensures forall i :: 0 <= i < |s| ==> ToLower(s)[i] == LowerChar(s[i])
  {
    if s != [] {
      ToLowerSpec(s[1..]);
    }
  }

  /** A lower-cased string has no capital letters and is its own lower case. */
  lemma ToLowerIdempotent(s: string)
    ensures forall i :: 0 <= i < |s| ==> !('A' <= ToLower(s)[i] <= 'Z')
    ensures ToLower(ToLower(s)) == ToLower(s)
  {
    ToLowerSpec(s);
    ToLowerSpec(ToLower(s));
  }
}
