/**
 * The Wavefront MTL text parser of the material loader: the text is split
 * into lines, each trimmed line that is neither blank nor a comment is split
 * into a lower-cased key and a trimmed value, `newmtl` opens and registers a
 * new material record, and every other key is written into the record opened
 * last. The result handed to the material creator is the map of records and
 * the base path the loader was configured with.
 */
module Mtl {
  import opened Wrappers
  import opened MtlText

  /**
   * `parseFloat(token)`, kept symbolic: the token it was applied to, or None
   * for `parseFloat(undefined)` when the value has fewer than three tokens.
   */
  datatype Num = ParseFloat(token: Option<string>)

  /** A stored property: the raw value, or the colour triple of `ka`, `kd` and `ks`. */
  datatype Field = Text(text: string) | Color(r: Num, g: Num, b: Num)

  /** One material record, `{name: ..., key: value, ...}`. */
  type Material = map<string, Field>

  /**
   * The parser between two lines: the name under which the record `info`
   * was registered (None while `info` is still the initial, unregistered
   * object), and `materialsInfo`.
   */
  datatype ParseState = ParseState(current: Option<string>, materials: map<string, Material>)

  /** What the material creator is built from: its base path and the records. */
  datatype Creation = Creation(basePath: Option<string>, materials: map<string, Material>)

  /** The keys whose value is a colour triple. */
  predicate IsColorKey(key: string) {
    key == "ka" || key == "kd" || key == "ks"
  }

  /** The k-th element of a split result, or None (`undefined`) past its end. */
  function Piece(ss: seq<string>, k: nat): Option<string> {
    if k < |ss| then Some(ss[k]) else None
  }

  /** The record a `newmtl` line opens: only its name. */
  function NewRecord(name: string): Material {
    map["name" := Text(name)]
  }

  /**
   * The field a property line stores: for a colour key, parseFloat of the
   * first three tokens of `value.split(/\s+/, 3)`; for any other key, the
   * trimmed value as it is.
   */
  function FieldOf(key: string, value: string): (f: Field)
    ensures f.Color? <==> IsColorKey(key)
    ensures !IsColorKey(key) ==> f == Text(value)
  {
    if IsColorKey(key) then
      var all := SplitWs(value);
      var ss := if |all| > 3 then all[..3] else all;
      Color(ParseFloat(Piece(ss, 0)), ParseFloat(Piece(ss, 1)), ParseFloat(Piece(ss, 2)))
    else
      Text(value)
  }

  /** A line the parser passes over: blank after trimming, or a comment. */
  predicate Skipped(line: string) {
    var t := Trim(line);
    |t| == 0 || t[0] == '#'
  }

  /**
   * The key and the value of a trimmed line: the part before the first
   * space, lower-cased, and the trimmed rest after it; a line without a
   * space is all key and has the empty value.
   */
  function KeyValue(line: string): (string, string) {
    var pos := IndexOf(line, ' ');
    var key := if pos >= 0 then line[..pos] else line;
    var value := if pos >= 0 then line[pos + 1..] else "";
    (ToLower(key), Trim(value))
  }

  /** What one line of the text is to the parser. */
  datatype LineKind = Ignored | Newmtl(name: string) | Property(key: string, value: string)

  /**
   * The parser's reading of a line: skipped, the opening of a material, or
   * a key and its value.
   */
  function Classify(line: string): LineKind {
    if Skipped(line) then Ignored
    else
      var kv := KeyValue(Trim(line));
      if kv.0 == "newmtl" then Newmtl(kv.1) else Property(kv.0, kv.1)
  }

  /** `info` is the record registered under the current name, so that name is a key. */
  predicate Consistent(st: ParseState) {
    st.current.Some? ==> st.current.value in st.materials
  }

  /**
   * One iteration of the parser's loop. Property lines before the first
   * `newmtl` go into the unregistered initial object, which nobody sees.
   */
  function Step(st: ParseState, kind: LineKind): (r: ParseState)
    requires Consistent(st)
    ensures Consistent(r)
  {
    match kind
    case Ignored => st
    case Newmtl(name) => ParseState(Some(name), st.materials[name := NewRecord(name)])
    case Property(key, value) =>
      if st.current.None? then st
      else
        var c := st.current.value;
        st.(materials := st.materials[c := st.materials[c][key := FieldOf(key, value)]])
  }

  /** Before the first line: no registered record and no materials. */
  function Initial(): ParseState {
    ParseState(None, map[])
  }

  /** How the parser reads each of the lines, in order. */
  function Kinds(lines: seq<string>): (r: seq<LineKind>)
    ensures |r| == |lines|
    decreases |lines|
  {
    if lines == [] then [] else Kinds(lines[..|lines| - 1]) + [Classify(lines[|lines| - 1])]
  }

  /** The reading of the i-th line is the i-th kind. */
  lemma {:induction false} KindsAt(lines: seq<string>, i: nat)
    requires i < |lines|
    ensures Kinds(lines)[i] == Classify(lines[i])
    decreases |lines|
  {
    if i < |lines| - 1 {
      KindsAt(lines[..|lines| - 1], i);
    }
  }

  /** The lines of two stretches are read one stretch at a time. */
  lemma {:induction false} KindsAppend(a: seq<string>, b: seq<string>)
    ensures Kinds(a + b) == Kinds(a) + Kinds(b)
    decreases |b|
  {
    if b == [] {
      assert a + b == a;
    } else {
      var ab := a + b;
      assert ab[..|ab| - 1] == a + b[..|b| - 1];
      assert ab[|ab| - 1] == b[|b| - 1];
      KindsAppend(a, b[..|b| - 1]);
    }
  }

  /** The loop run over lines read as `kinds`, in order, from a given state. */
  function Fold(st: ParseState, kinds: seq<LineKind>): (r: ParseState)
    requires Consistent(st)
    ensures Consistent(r)
    decreases |kinds|
  {
    if kinds == [] then st
    else Step(Fold(st, kinds[..|kinds| - 1]), kinds[|kinds| - 1])
  }

  /** The whole loop over the lines of a text. */
  function ParseLines(lines: seq<string>): (r: ParseState)
    ensures Consistent(r)
  {
    Fold(Initial(), Kinds(lines))
  }

  /** The loop over one more line is one more step. */
  lemma ParseLinesSnoc(lines: seq<string>, line: string)
    ensures ParseLines(lines + [line]) == Step(ParseLines(lines), Classify(line))
  {
    assert (lines + [line])[..|lines|] == lines;
  }

  /** Running the loop over two stretches of lines is running it over the first, then the second. */
  lemma {:induction false} FoldAppend(st: ParseState, a: seq<LineKind>, b: seq<LineKind>)
    requires Consistent(st)
    ensures Fold(st, a + b) == Fold(Fold(st, a), b)
    decreases |b|
  {
    if b != [] {
      var ab := a + b;
      assert ab[..|ab| - 1] == a + b[..|b| - 1];
      assert ab[|ab| - 1] == b[|b| - 1];
      FoldAppend(st, a, b[..|b| - 1]);
    } else {
      assert a + b == a;
    }
  }

  /** A blank or comment line, wherever it stands, has no effect on the result. */
  lemma SkippedLineIgnored(a: seq<string>, line: string, b: seq<string>)
    requires Skipped(line)
    ensures ParseLines(a + [line] + b) == ParseLines(a + b)
  {
    KindsAppend(a + [line], b);
    KindsAppend(a, b);
    var ka := Kinds(a);
    assert (a + [line])[..|a|] == a;
    assert Kinds(a + [line]) == ka + [Ignored];
    FoldAppend(Initial(), ka + [Ignored], Kinds(b));
    FoldAppend(Initial(), ka, Kinds(b));
    assert (ka + [Ignored])[..|ka|] == ka;
  }

  /** A line with a space: the key is the lower-cased part before it, the value the trimmed rest. */
  lemma KeyValueAtFirstSpace(a: string, b: string)
    requires ' ' !in a
    ensures KeyValue(a + " " + b) == (ToLower(a), Trim(b))
  {
    var line := a + " " + b;
    assert line[..|a|] == a;
    IndexOfAt(line, ' ', |a|);
    assert line[|a| + 1..] == b;
  }

  /** A line without a space is all key, lower-cased, with the empty value. */
  lemma KeyValueNoSpace(line: string)
    requires ' ' !in line
    ensures KeyValue(line) == (ToLower(line), "")
  {
    IndexOfSpec(line, ' ');
  }

  /**
   * `newmtl v` opens the fresh record `{name: v}` under v, replacing any
   * record of that name, and leaves all other records as they were.
   */
  lemma NewmtlOpensRecord(lines: seq<string>, line: string, v: string)
    requires Classify(line) == Newmtl(v)
    ensures var r := ParseLines(lines + [line]);
      && r.current == Some(v)
      && r.materials == ParseLines(lines).materials[v := NewRecord(v)]
  {
    assert (lines + [line])[..|lines|] == lines;
  }

  /**
   * The loop only ever adds keys, and only the names of `newmtl` lines:
   * a key is in the result exactly when the starting state had it or some
   * line opened a material of that name.
   */
  lemma {:induction false} FoldKeys(st: ParseState, kinds: seq<LineKind>, k: string)
    requires Consistent(st)
    ensures k in Fold(st, kinds).materials <==> k in st.materials || Newmtl(k) in kinds
    decreases |kinds|
  {
    if kinds != [] {
      var init := kinds[..|kinds| - 1];
      FoldKeys(st, init, k);
      assert kinds == init + [kinds[|kinds| - 1]];
    }
  }

  /** Every material of the result was opened by a `newmtl` line, and every such line left one. */
  lemma ResultKeys(lines: seq<string>, k: string)
    ensures k in ParseLines(lines).materials <==> exists i :: 0 <= i < |lines| && Classify(lines[i]) == Newmtl(k)
  {
    var ks := Kinds(lines);
    FoldKeys(Initial(), ks, k);
    if Newmtl(k) in ks {
      var i :| 0 <= i < |ks| && ks[i] == Newmtl(k);
      KindsAt(lines, i);
    }
    if exists i :: 0 <= i < |lines| && Classify(lines[i]) == Newmtl(k) {
      var i :| 0 <= i < |lines| && Classify(lines[i]) == Newmtl(k);
      KindsAt(lines, i);
      assert ks[i] == Newmtl(k);
    }
  }

  /** A stretch of lines with no `newmtl` leaves the initial state as it is. */
  lemma {:induction false} NoNewmtlKeepsInitial(kinds: seq<LineKind>)
    requires forall i :: 0 <= i < |kinds| ==> !kinds[i].Newmtl?
    ensures Fold(Initial(), kinds) == Initial()
    decreases |kinds|
  {
    if kinds != [] {
      NoNewmtlKeepsInitial(kinds[..|kinds| - 1]);
    }
  }

  /**
   * Lines before the first `newmtl` write into the unregistered initial
   * object only: they leave the initial state, and dropping them changes
   * nothing.
   */
  lemma PreludeIgnored(prelude: seq<string>, rest: seq<string>)
    requires forall i :: 0 <= i < |prelude| ==> !Classify(prelude[i]).Newmtl?
    ensures ParseLines(prelude) == Initial()
    ensures ParseLines(prelude + rest) == ParseLines(rest)
  {
    forall i | 0 <= i < |prelude| ensures !Kinds(prelude)[i].Newmtl? {
      KindsAt(prelude, i);
    }
    NoNewmtlKeepsInitial(Kinds(prelude));
    KindsAppend(prelude, rest);
    FoldAppend(Initial(), Kinds(prelude), Kinds(rest));
  }

  /**
   * A property line writes its field into the record opened last, and
   * every other field of every record keeps its value.
   */
  lemma PropertyStored(st: ParseState, key: string, value: string)
    requires Consistent(st) && st.current.Some?
    ensures var r := Step(st, Property(key, value)); var c := st.current.value;
      && r.current == st.current
      && r.materials.Keys == st.materials.Keys
      && r.materials[c][key] == FieldOf(key, value)
      && (forall m, f :: m in st.materials && f in st.materials[m] && (m, f) != (c, key) ==>
            f in r.materials[m] && r.materials[m][f] == st.materials[m][f])
  {
  }

  /** Of two lines with the same key for the same record, the later one wins. */
  lemma RepeatedKeyOverwrites(st: ParseState, key: string, v1: string, v2: string)
    requires Consistent(st)
    ensures Step(Step(st, Property(key, v1)), Property(key, v2)) == Step(st, Property(key, v2))
  {
    if st.current.Some? {
      var c := st.current.value;
      var m := st.materials[c];
      assert m[key := FieldOf(key, v1)][key := FieldOf(key, v2)] == m[key := FieldOf(key, v2)];
    }
  }

  /** A non-blank, non-comment line whose key is not `newmtl` is a property line. */
  lemma PropertyLine(line: string)
    requires !Skipped(line) && KeyValue(Trim(line)).0 != "newmtl"
    ensures Classify(line) == Property(KeyValue(Trim(line)).0, KeyValue(Trim(line)).1)
  {
  }

  /**
   * The colour of three tokens separated by runs of white space (spaces,
   * tabs, ...), possibly followed by more: parseFloat of each of the three.
   */
  lemma ColorOfThreeTokens(key: string, a: string, w1: string, b: string, w2: string, c: string, more: string)
    requires IsColorKey(key)
    requires a != [] && b != [] && c != [] && NoSpace(a) && NoSpace(b) && NoSpace(c)
    requires w1 != [] && w2 != [] && AllSpace(w1) && AllSpace(w2)
    requires more == [] || IsSpace(more[0])
    ensures FieldOf(key, a + w1 + b + w2 + c + more) ==
      Color(ParseFloat(Some(a)), ParseFloat(Some(b)), ParseFloat(Some(c)))
  {
    var value := a + w1 + b + w2 + c + more;
    Regroup(a, w1, b, w2, c, more);
    var all := SplitWs(value);
    SplitWsThree(a, w1, b, w2, c, more);
    var ss := if |all| > 3 then all[..3] else all;
    assert ss[0] == a && ss[1] == b && ss[2] == c;
  }

  /** The first three pieces of such a value are the three tokens. */
  lemma SplitWsThree(a: string, w1: string, b: string, w2: string, c: string, more: string)
    requires a != [] && b != [] && c != [] && NoSpace(a) && NoSpace(b) && NoSpace(c)
    requires w1 != [] && w2 != [] && AllSpace(w1) && AllSpace(w2)
    requires more == [] || IsSpace(more[0])
    ensures var all := SplitWs(a + w1 + (b + w2 + (c + more)));
      |all| >= 3 && all[0] == a && all[1] == b && all[2] == c
  {
    var s1 := b + w2 + (c + more);
    assert !IsSpace(s1[0]) by { assert s1[0] == b[0]; }
    SplitWsTwo(b, w2, c, more);
    SplitWsCons(a, w1, s1);
  }

  /** Six texts joined from the left are the same text as joined from the right. */
  lemma Regroup(a: string, w1: string, b: string, w2: string, c: string, more: string)
    ensures a + w1 + b + w2 + c + more == a + w1 + (b + w2 + (c + more))
  { }

  /** The first two pieces of `b w c more` are b and c. */
  lemma SplitWsTwo(b: string, w: string, c: string, more: string)
    requires b != [] && c != [] && NoSpace(b) && NoSpace(c)
    requires w != [] && AllSpace(w)
    requires more == [] || IsSpace(more[0])
    ensures var all := SplitWs(b + w + (c + more));
      |all| >= 2 && all[0] == b && all[1] == c
  {
    var s2 := c + more;
    assert !IsSpace(s2[0]) by { assert s2[0] == c[0]; }
    SplitWsCons(b, w, s2);
    if more == [] {
      assert s2 == c;
      SplitWsWhole(c);
    } else {
      SplitWsBefore(c, more);
    }
  }

  /** A token followed by white space: the token is the first piece and there is at least one more. */
  lemma SplitWsBefore(c: string, more: string)
    requires NoSpace(c) && more != [] && IsSpace(more[0])
    ensures |SplitWs(c + more)| >= 2 && SplitWs(c + more)[0] == c
  {
    var s := c + more;
    assert s[..|c|] == c;
    IndexOfSpaceAt(s, |c|);
  }

  /** A colour value with a single token: the two missing ones are parseFloat(undefined). */
  lemma ColorOfOneToken(key: string, a: string)
    requires IsColorKey(key) && NoSpace(a)
    ensures FieldOf(key, a) == Color(ParseFloat(Some(a)), ParseFloat(None), ParseFloat(None))
  {
    IndexOfSpaceSpec(a);
  }

  /** A string is truthy in JavaScript when it is defined and not empty. */
  predicate Truthy(s: Option<string>) {
    s.Some? && s.value != ""
  }

  /** `texturePath || path`. */
  function BasePath(texturePath: Option<string>, path: Option<string>): Option<string> {
    if Truthy(texturePath) then texturePath else path
  }

  /**
   * The base path is the texture path when that is set and not empty, the
   * general path otherwise; it is usable exactly when one of the two is.
   */
  lemma BasePathChoice(texturePath: Option<string>, path: Option<string>)
    ensures Truthy(texturePath) ==> BasePath(texturePath, path) == texturePath
    ensures !Truthy(texturePath) ==> BasePath(texturePath, path) == path
    ensures Truthy(BasePath(texturePath, path)) <==> Truthy(texturePath) || Truthy(path)
  {
  }

  /** The loader's configuration that parsing hands on. */
  /**
   * One pass of the parser's loop over `line`: skip it, open a material, or
   * set a property of the current one.
   */
  method ReadLine(raw: string, info: Option<string>, materialsInfo: map<string, Material>)
    returns (info': Option<string>, materialsInfo': map<string, Material>)
    requires Consistent(ParseState(info, materialsInfo))
    ensures ParseState(info', materialsInfo') == Step(ParseState(info, materialsInfo), Classify(raw))
  {
    info', materialsInfo' := info, materialsInfo;
    var line := Trim(raw);
    if |line| == 0 || line[0] == '#' {
      return;
    }
    var pos := IndexOf(line, ' ');
    var key := if pos >= 0 then line[..pos] else line;
    key := ToLower(key);
    var value := if pos >= 0 then line[pos + 1..] else "";
    value := Trim(value);
    assert (key, value) == KeyValue(line);
    if key == "newmtl" {
      info' := Some(value);
      materialsInfo' := materialsInfo[value := NewRecord(value)];
    } else if info.Some? {
      materialsInfo' := materialsInfo[info.value := materialsInfo[info.value][key := FieldOf(key, value)]];
    }
  }

  class MTLLoader {
    /** `path` and `texturePath`: None until set (`undefined`). */
    var path: Option<string>
    var texturePath: Option<string>

    constructor ()
      ensures path == None && texturePath == None
    {
      path := None;
      texturePath := None;
    }

    /** `setPath`: the base path for every reference. */
    method SetPath(p: string)
      modifies this`path
      ensures path == Some(p)
    {
      path := Some(p);
    }

    /** `setTexturePath`: the base path for texture references. */
    method SetTexturePath(p: string)
      modifies this`texturePath
      ensures texturePath == Some(p)
    {
      texturePath := Some(p);
    }

    /** `setBaseUrl`: the deprecated name of setTexturePath. */
    method SetBaseUrl(p: string)
      modifies this`texturePath
      ensures texturePath == Some(p)
    {
      SetTexturePath(p);
    }

    /**
     * `parse`: the loop over the lines of the text, whose records and base
     * path go to the material creator.
     */
    method Parse(text: string) returns (creation: Creation)
      ensures creation.materials == ParseLines(Split(text, '\n')).materials
      ensures creation.basePath == BasePath(texturePath, path)
    {
      var lines := Split(text, '\n');
      var info: Option<string> := None;
      var materialsInfo: map<string, Material> := map[];
      for i := 0 to |lines|
        invariant ParseState(info, materialsInfo) == ParseLines(lines[..i])
      {
        assert lines[..i + 1] == lines[..i] + [lines[i]];
        ParseLinesSnoc(lines[..i], lines[i]);
        info, materialsInfo := ReadLine(lines[i], info, materialsInfo);
      }
      assert lines[..|lines|] == lines;
      creation := Creation(BasePath(texturePath, path), materialsInfo);
    }
  }
}
