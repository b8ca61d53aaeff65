/**
 Share-relative paths: `normalizeSmbPath`, and the native Basename and Readdir join whose
 results are fed back into it.
 */
module Paths {
  import opened Texts

  // ---- The source's functions -------------------------------------------------------------

  /** White space and line terminators, as String.prototype.trim sees them. */
  predicate IsSpace(c: CodeUnit) {
    || 0x09 <= c <= 0x0D || c == 0x20 || c == 0xA0 || c == 0x1680 || 0x2000 <= c <= 0x200A
    || c == 0x2028 || c == 0x2029 || c == 0x202F || c == 0x205F || c == 0x3000 || c == 0xFEFF
  }

  predicate IsSeparator(c: CodeUnit) {
    c == SLASH || c == BACKSLASH
  }

  function TrimStart(s: Text): Text {
    if s != [] && IsSpace(s[0]) then TrimStart(s[1..]) else s
  }

  function TrimEnd(s: Text): Text {
    if s != [] && IsSpace(s[|s| - 1]) then TrimEnd(s[..|s| - 1]) else s
  }

  function Trim(s: Text): Text {
    TrimEnd(TrimStart(s))
  }

  /** replaceAll("/", "\\"). */
  function Backslashed(s: Text): Text {
    if s == [] then [] else [if s[0] == SLASH then BACKSLASH else s[0]] + Backslashed(s[1..])
  }

  /** replace(/^\\+/, ""). */
  function StripLeading(s: Text): (r: Text)
    ensures |r| <= |s|
  {
    if s != [] && s[0] == BACKSLASH then StripLeading(s[1..]) else s
  }

  /** replace(/\\+/g, "\\"). */
  function Collapse(s: Text): Text
    decreases |s|
  {
    if s == [] then []
    else if s[0] == BACKSLASH then [BACKSLASH] + Collapse(StripLeading(s))
    else [s[0]] + Collapse(s[1..])
  }

  function NormalizeSmbPath(path: Text): Text {
    var trimmed := Trim(path);
    if trimmed == [] || trimmed == [SLASH] || trimmed == [BACKSLASH] then []
    else Collapse(StripLeading(Backslashed(trimmed)))
  }

  function LastBackslash(path: Text): (k: int)
    ensures -1 <= k < |path|
    ensures k >= 0 ==> path[k] == BACKSLASH
    ensures forall i :: k < i < |path| ==> path[i] != BACKSLASH
  {
    if path == [] then -1
    else if path[|path| - 1] == BACKSLASH then |path| - 1
    else LastBackslash(path[..|path| - 1])
  }

  function Basename(path: Text): Text {
    path[LastBackslash(path) + 1..]
  }

  /** The full path of a directory entry, as Readdir builds it. */
  function Join(dir: Text, name: Text): Text {
    if dir == [] then name else dir + [BACKSLASH] + name
  }

  // ---- The reference: paths as lists of segments ------------------------------------------

  /** The length of the first run of characters that are not separators. */
  function SegmentLength(s: Text): (n: nat)
    ensures n <= |s|
    ensures forall i :: 0 <= i < n ==> !IsSeparator(s[i])
    ensures n < |s| ==> IsSeparator(s[n])
  {
    if s == [] || IsSeparator(s[0]) then 0 else 1 + SegmentLength(s[1..])
  }

  /** The non-empty runs between separators. */
  function Segments(s: Text): seq<Text>
    decreases |s|
  {
    if s == [] then []
    else if IsSeparator(s[0]) then Segments(s[1..])
    else [s[..SegmentLength(s)]] + Segments(s[SegmentLength(s)..])
  }

  function Joined(segments: seq<Text>): Text {
    if segments == [] then []
    else if |segments| == 1 then segments[0]
    else segments[0] + [BACKSLASH] + Joined(segments[1..])
  }

  predicate EndsInSeparator(s: Text) {
    s != [] && IsSeparator(s[|s| - 1])
  }

  /** A path rebuilt from its segments; a trailing separator is kept if there is a segment. */
  function Canonical(s: Text): Text {
    Joined(Segments(s)) + if Segments(s) != [] && EndsInSeparator(s) then [BACKSLASH] else []
  }

  // ---- Normalisation is the segment specification -----------------------------------------

  /** Collapsing after stripping, which the early return only shortcuts. */
  function Squeeze(s: Text): Text {
    Collapse(StripLeading(Backslashed(s)))
  }

  lemma NormalizeIsSqueeze(path: Text)
    ensures NormalizeSmbPath(path) == Squeeze(Trim(path))
  {
    assert Backslashed([SLASH]) == [BACKSLASH];
    assert Backslashed([BACKSLASH]) == [BACKSLASH];
  }

  lemma {:induction false} BackslashedAppend(a: Text, b: Text)
    ensures Backslashed(a + b) == Backslashed(a) + Backslashed(b)
  {
    if a == [] {
      assert a + b == b;
    } else {
      assert (a + b)[1..] == a[1..] + b;
      BackslashedAppend(a[1..], b);
    }
  }

  lemma {:induction false} BackslashedRun(s: Text)
    requires forall i :: 0 <= i < |s| ==> !IsSeparator(s[i])
    ensures Backslashed(s) == s
  {
    if s != [] {
      BackslashedRun(s[1..]);
    }
  }

  lemma {:induction false} CollapseRun(run: Text, rest: Text)
    requires forall i :: 0 <= i < |run| ==> run[i] != BACKSLASH
    ensures Collapse(run + rest) == run + Collapse(rest)
  {
    if run == [] {
      assert run + rest == rest;
    } else {
      assert (run + rest)[1..] == run[1..] + rest;
      CollapseRun(run[1..], rest);
    }
  }

  /** Collapsing without stripping keeps one leading backslash where there was any separator. */
  lemma {:induction false} CollapseIsCanonical(s: Text)
    ensures Squeeze(s) == Canonical(s)
    ensures s != [] && IsSeparator(s[0]) ==> Collapse(Backslashed(s)) == [BACKSLASH] + Canonical(s)
    ensures s == [] || !IsSeparator(s[0]) ==> Collapse(Backslashed(s)) == Canonical(s)
    decreases |s|
  {
    if s == [] {
    } else if IsSeparator(s[0]) {
      CollapseIsCanonical(s[1..]);
      assert Backslashed(s)[1..] == Backslashed(s[1..]);
      assert StripLeading(Backslashed(s)) == StripLeading(Backslashed(s[1..]));
      if |s| > 1 {
        assert s[1..][|s| - 2] == s[|s| - 1];
      }
    } else {
      SegmentStep(s);
    }
  }

  lemma {:induction false} SegmentStep(s: Text)
    requires s != [] && !IsSeparator(s[0])
    ensures Squeeze(s) == Canonical(s) == Collapse(Backslashed(s))
    decreases |s|, 0
  {
    var n := SegmentLength(s);
    var run, rest := s[..n], s[n..];
    assert s == run + rest && n > 0;
    BackslashedAppend(run, rest);
    BackslashedRun(run);
    assert StripLeading(Backslashed(s)) == Backslashed(s);
    CollapseRun(run, Backslashed(rest));
    CollapseIsCanonical(rest);
    CanonicalStep(s, run, rest);
  }

  lemma CanonicalStep(s: Text, run: Text, rest: Text)
    requires s != [] && !IsSeparator(s[0]) && run == s[..SegmentLength(s)] && rest == s[SegmentLength(s)..]
    ensures Canonical(s) == run + if rest == [] then [] else [BACKSLASH] + Canonical(rest)
  {
    assert Segments(s) == [run] + Segments(rest);
    if rest != [] {
      assert rest[|rest| - 1] == s[|s| - 1];
    }
    hide Segments, SegmentLength, Canonical;
    if rest == [] {
      NoText();
      CanonicalAlone(s, run);
    } else if Segments(rest) == [] {
      NoSegments(rest);
      CanonicalEnds(s, run, rest);
    } else {
      CanonicalCons(s, run, rest);
    }
  }

  lemma CanonicalAlone(s: Text, run: Text)
    requires Segments(s) == [run] && !EndsInSeparator(s)
    ensures Canonical(s) == run
  {
    hide Segments;
    assert run + [] == run;
  }

  lemma CanonicalEnds(s: Text, run: Text, rest: Text)
    requires Segments(s) == [run] + Segments(rest) && Segments(rest) == [] && EndsInSeparator(s)
    ensures Canonical(s) == run + ([BACKSLASH] + Canonical(rest))
  {
    hide Segments;
    assert Joined([run]) == run && Canonical(rest) == [] && [BACKSLASH] + [] == [BACKSLASH];
  }

  lemma CanonicalCons(s: Text, run: Text, rest: Text)
    requires Segments(s) == [run] + Segments(rest) && Segments(rest) != []
    requires EndsInSeparator(s) == EndsInSeparator(rest)
    ensures Canonical(s) == run + ([BACKSLASH] + Canonical(rest))
  {
    hide Segments;
    JoinedCons(run, Segments(rest));
    hide Joined;
    var tail: Text := if EndsInSeparator(s) then [BACKSLASH] else [];
    assert run + [BACKSLASH] + Joined(Segments(rest)) + tail == run + ([BACKSLASH] + (Joined(Segments(rest)) + tail));
  }

  lemma JoinedCons(run: Text, segments: seq<Text>)
    requires segments != []
    ensures Joined([run] + segments) == run + [BACKSLASH] + Joined(segments)
  {
    assert ([run] + segments)[1..] == segments;
  }

  lemma NoText()
    ensures Segments([]) == []
  {
  }

  lemma {:induction false} NoSegments(s: Text)
    requires Segments(s) == []
    ensures forall i :: 0 <= i < |s| ==> IsSeparator(s[i])
  {
    if s != [] {
      NoSegments(s[1..]);
    }
  }

  /** Normalising joins the segments of the trimmed path with single backslashes and keeps one
      trailing backslash exactly when there is a segment and the path ended in a separator. */
  lemma NormalizeIsCanonical(path: Text)
    ensures NormalizeSmbPath(path) == Canonical(Trim(path))
  {
    NormalizeIsSqueeze(path);
    CollapseIsCanonical(Trim(path));
  }

  // ---- Which separator is used does not matter --------------------------------------------

  lemma {:induction false} BackslashedKeeps(s: Text)
    ensures |Backslashed(s)| == |s|
    ensures forall i :: 0 <= i < |s| ==> Backslashed(s)[i] == if s[i] == SLASH then BACKSLASH else s[i]
  {
    if s != [] {
      BackslashedKeeps(s[1..]);
    }
  }

  lemma {:induction false} TrimStartBackslashed(s: Text)
    ensures TrimStart(Backslashed(s)) == Backslashed(TrimStart(s))
  {
    if s != [] && IsSpace(s[0]) {
      TrimStartBackslashed(s[1..]);
      assert Backslashed(s)[1..] == Backslashed(s[1..]);
    }
  }

  lemma {:induction false} TrimEndBackslashed(s: Text)
    ensures TrimEnd(Backslashed(s)) == Backslashed(TrimEnd(s))
  {
    BackslashedKeeps(s);
    if s != [] && IsSpace(s[|s| - 1]) {
      var front := s[..|s| - 1];
      TrimEndBackslashed(front);
      assert s == front + [s[|s| - 1]];
      BackslashedAppend(front, [s[|s| - 1]]);
      assert Backslashed(s)[..|s| - 1] == Backslashed(front);
    }
  }

  lemma {:induction false} BackslashedTwice(s: Text)
    ensures Backslashed(Backslashed(s)) == Backslashed(s)
  {
    if s != [] {
      BackslashedTwice(s[1..]);
      assert Backslashed(s)[1..] == Backslashed(s[1..]);
    }
  }

  /** Paths that differ only in which separator they use normalise to the same path. */
  lemma SeparatorsInterchangeable(p: Text, q: Text)
    requires Backslashed(p) == Backslashed(q)
    ensures NormalizeSmbPath(p) == NormalizeSmbPath(q)
  {
    forall x | x in {p, q} ensures Backslashed(Trim(x)) == Trim(Backslashed(x)) {
      TrimStartBackslashed(x);
      TrimEndBackslashed(TrimStart(x));
    }
    NormalizeIsSqueeze(p);
    NormalizeIsSqueeze(q);
  }

  // ---- Normalising twice ------------------------------------------------------------------

  lemma {:induction false} TrimmedEnd(s: Text)
    ensures |TrimEnd(s)| <= |s| && TrimEnd(s) == s[..|TrimEnd(s)|]
    ensures TrimEnd(s) != [] ==> !IsSpace(TrimEnd(s)[|TrimEnd(s)| - 1])
  {
    if s != [] && IsSpace(s[|s| - 1]) {
      TrimmedEnd(s[..|s| - 1]);
    }
  }

  lemma {:induction false} TrimmedStart(s: Text)
    ensures |TrimStart(s)| <= |s|
    ensures TrimStart(s) != [] ==> !IsSpace(TrimStart(s)[0])
  {
    if s != [] && IsSpace(s[0]) {
      TrimmedStart(s[1..]);
    }
  }

  /** Segments as a path has them: not empty, and free of separators. */
  predicate Clean(segment: Text) {
    segment != [] && forall i :: 0 <= i < |segment| ==> !IsSeparator(segment[i])
  }

  lemma {:induction false} SegmentsClean(s: Text)
    ensures forall i :: 0 <= i < |Segments(s)| ==> Clean(Segments(s)[i])
    decreases |s|
  {
    if s == [] {
    } else if IsSeparator(s[0]) {
      SegmentsClean(s[1..]);
    } else {
      SegmentsClean(s[SegmentLength(s)..]);
    }
  }

  lemma {:induction false} SegmentLengthOf(run: Text, rest: Text)
    requires forall i :: 0 <= i < |run| ==> !IsSeparator(run[i])
    requires rest == [] || IsSeparator(rest[0])
    ensures SegmentLength(run + rest) == |run|
  {
    if run == [] {
      assert run + rest == rest;
    } else {
      assert (run + rest)[1..] == run[1..] + rest;
      SegmentLengthOf(run[1..], rest);
    }
  }

  lemma SegmentsCons(run: Text, rest: Text)
    requires Clean(run) && (rest == [] || IsSeparator(rest[0]))
    ensures Segments(run + rest) == [run] + Segments(rest)
  {
    SegmentLengthOf(run, rest);
    assert (run + rest)[..|run|] == run;
    assert (run + rest)[|run|..] == rest;
  }

  lemma {:induction false} SegmentsOfJoined(segments: seq<Text>, tail: Text)
    requires forall i :: 0 <= i < |segments| ==> Clean(segments[i])
    requires tail == [] || tail == [BACKSLASH]
    ensures Segments(Joined(segments) + tail) == segments
  {
    if segments == [] {
      assert Segments([BACKSLASH]) == [] by { assert [BACKSLASH][1..] == []; }
      assert Joined(segments) + tail == tail;
    } else if |segments| == 1 {
      SegmentsCons(segments[0], tail);
      assert Segments([BACKSLASH]) == [] by { assert [BACKSLASH][1..] == []; }
    } else {
      var inner := Joined(segments[1..]) + tail;
      SegmentsOfJoined(segments[1..], tail);
      assert Joined(segments) + tail == segments[0] + ([BACKSLASH] + inner);
      SeparatedSegments(segments[0], inner);
      assert segments == [segments[0]] + segments[1..];
    }
  }

  lemma SeparatedSegments(run: Text, rest: Text)
    requires Clean(run)
    ensures Segments(run + ([BACKSLASH] + rest)) == [run] + Segments(rest)
  {
    assert ([BACKSLASH] + rest)[1..] == rest;
    SegmentsCons(run, [BACKSLASH] + rest);
  }

  lemma {:induction false} JoinedEnd(segments: seq<Text>)
    requires segments != [] && forall i :: 0 <= i < |segments| ==> Clean(segments[i])
    ensures var r, last := Joined(segments), segments[|segments| - 1];
      r != [] && |last| <= |r| && r[|r| - |last|..] == last
  {
    if |segments| > 1 {
      JoinedEnd(segments[1..]);
    }
  }

  lemma {:induction false} LastSegment(s: Text)
    requires s != [] && !IsSeparator(s[|s| - 1])
    ensures Segments(s) != []
    ensures var last := Segments(s)[|Segments(s)| - 1]; last != [] && last[|last| - 1] == s[|s| - 1]
    decreases |s|
  {
    if IsSeparator(s[0]) {
      LastSegment(s[1..]);
    } else if SegmentLength(s) < |s| {
      LastSegment(s[SegmentLength(s)..]);
    } else {
      assert s[..|s|] == s;
    }
  }

  /** A canonical path is its own canonical form, and ends as the path it came from. */
  lemma CanonicalTwice(s: Text)
    ensures Segments(Canonical(s)) == Segments(s)
    ensures Canonical(Canonical(s)) == Canonical(s)
    ensures Canonical(s) != [] ==>
      Canonical(s)[|Canonical(s)| - 1] == if IsSeparator(s[|s| - 1]) then BACKSLASH else s[|s| - 1]
  {
    var segments, r := Segments(s), Canonical(s);
    SegmentsClean(s);
    SegmentsOfJoined(segments, if segments != [] && EndsInSeparator(s) then [BACKSLASH] else []);
    if segments != [] {
      JoinedEnd(segments);
      if !EndsInSeparator(s) {
        LastSegment(s);
      }
    }
  }

  lemma NormalizedShape(path: Text)
    ensures var r := NormalizeSmbPath(path);
      && Canonical(r) == r
      && (r != [] ==> !IsSpace(r[|r| - 1]))
      && |r| <= |Trim(path)|
  {
    var t := Trim(path);
    NormalizeIsCanonical(path);
    CanonicalTwice(t);
    TrimmedEnd(TrimStart(path));
    NormalizeIsSqueeze(path);
    BackslashedKeeps(t);
    CollapseShrinks(StripLeading(Backslashed(t)));
  }

  lemma {:induction false} CollapseShrinks(s: Text)
    ensures |Collapse(s)| <= |s|
    decreases |s|
  {
    if s == [] {
    } else if s[0] == BACKSLASH {
      CollapseShrinks(StripLeading(s));
    } else {
      CollapseShrinks(s[1..]);
    }
  }

  /** Normalising twice is normalising once exactly when the result does not start with white
      space. */
  lemma NormalizeTwice(path: Text)
    ensures var r := NormalizeSmbPath(path);
      NormalizeSmbPath(r) == r <==> r == [] || !IsSpace(r[0])
  {
    var r := NormalizeSmbPath(path);
    NormalizedShape(path);
    NormalizedShape(r);
    NormalizeIsCanonical(r);
    if r != [] && IsSpace(r[0]) {
      TrimmedStart(r[1..]);
      TrimmedEnd(TrimStart(r));
    } else {
      assert Trim(r) == r;
    }
  }

  /** "/ a" is a path that normalising twice changes. */
  lemma NormalizeTwiceFails()
    ensures var path: Text := [SLASH, 0x20, 0x61];
      NormalizeSmbPath(NormalizeSmbPath(path)) != NormalizeSmbPath(path)
  {
    var path: Text, tail: Text := [SLASH, 0x20, 0x61], [0x20, 0x61];
    assert path[1..] == tail;
    BackslashedRun(tail);
    assert Backslashed(path)[1..] == tail;
    assert StripLeading(Backslashed(path)) == tail;
    CollapseRun(tail, []);
    assert tail + [] == tail;
    assert NormalizeSmbPath(path) == tail;
    NormalizeTwice(path);
  }

  /** White space is these 25 code units and no other. */
  lemma WhiteSpace(c: CodeUnit)
    ensures IsSpace(c) <==> c in [
      0x0009, 0x000A, 0x000B, 0x000C, 0x000D, 0x0020, 0x00A0, 0x1680, 0x2000, 0x2001, 0x2002, 0x2003, 0x2004, 0x2005,
      0x2006, 0x2007, 0x2008, 0x2009, 0x200A, 0x2028, 0x2029, 0x202F, 0x205F, 0x3000, 0xFEFF]
  {
  }

  /** A normal form holds no slash, does not start with a backslash, nor with two in a row anywhere,
      and does not end in white space. */
  lemma NormalForm(path: Text)
    ensures var r := NormalizeSmbPath(path);
      && 0x2F !in r
      && (r != [] ==> r[0] != 0x5C && !IsSpace(r[|r| - 1]))
      && (forall i :: 0 <= i < |r| - 1 ==> r[i] != 0x5C || r[i + 1] != 0x5C)
  {
    hide NormalizeSmbPath, Canonical, Segments, IsSpace;
    NormalizedShape(path);
    NormalizeIsCanonical(path);
    SegmentsClean(Trim(path));
    CanonicalForm(Trim(path));
  }

  lemma CanonicalForm(s: Text)
    requires forall i :: 0 <= i < |Segments(s)| ==> Clean(Segments(s)[i])
    ensures var r := Canonical(s);
      && 0x2F !in r && (r != [] ==> r[0] != 0x5C)
      && (forall i :: 0 <= i < |r| - 1 ==> r[i] != 0x5C || r[i + 1] != 0x5C)
  {
    hide Segments, EndsInSeparator, Joined;
    JoinedForm(Segments(s));
  }

  lemma {:induction false} JoinedForm(segments: seq<Text>)
    requires forall i :: 0 <= i < |segments| ==> Clean(segments[i])
    ensures var r := Joined(segments);
      && 0x2F !in r && (segments == [] ==> r == [])
      && (segments != [] ==> r != [] && r[0] != 0x5C && r[|r| - 1] != 0x5C)
      && (forall i :: 0 <= i < |r| - 1 ==> r[i] != 0x5C || r[i + 1] != 0x5C)
  {
    if |segments| > 1 {
      JoinedForm(segments[1..]);
    }
  }

  // ---- Directory entries ------------------------------------------------------------------

  lemma BasenameAppend(prefix: Text, name: Text)
    requires prefix == [] || prefix[|prefix| - 1] == BACKSLASH
    ensures Basename(prefix + name) == name <==> BACKSLASH !in name
  {
    var path, n := prefix + name, |prefix|;
    var k := LastBackslash(path);
    assert n > 0 ==> path[n - 1] == BACKSLASH;
    if k >= n {
      assert path[k] == name[k - n];
      assert |Basename(path)| < |name|;
    } else {
      assert k == n - 1;
      assert path[n..] == name;
      assert forall i :: 0 <= i < |name| ==> path[n + i] == name[i];
    }
  }

  /** Basename undoes Join exactly when the name holds no backslash. */
  lemma BasenameOfJoin(dir: Text, name: Text)
    ensures Basename(Join(dir, name)) == name <==> BACKSLASH !in name
  {
    var prefix := if dir == [] then [] else dir + [BACKSLASH];
    assert Join(dir, name) == prefix + name;
    BasenameAppend(prefix, name);
  }

  lemma {:induction false} SegmentsAppend(a: Text, b: Text)
    requires b == [] || IsSeparator(b[0])
    ensures Segments(a + b) == Segments(a) + Segments(b)
    decreases |a|
  {
    if a == [] {
      assert a + b == b;
    } else if IsSeparator(a[0]) {
      assert (a + b)[1..] == a[1..] + b;
      SegmentsAppend(a[1..], b);
    } else {
      var n := SegmentLength(a);
      var run, rest := a[..n], a[n..];
      hide Segments;
      assert a == run + rest && a + b == run + (rest + b);
      SegmentsCons(run, rest + b);
      SegmentsCons(run, rest);
      SegmentsAppend(rest, b);
      assert [run] + (Segments(rest) + Segments(b)) == [run] + Segments(rest) + Segments(b);
    }
  }

  /** A joined path has the directory's segments and then the name. */
  lemma SegmentsOfJoin(dir: Text, name: Text)
    requires Clean(name)
    ensures Segments(Join(dir, name)) == Segments(dir) + [name]
  {
    SegmentsCons(name, []);
    assert name + [] == name;
    if dir != [] {
      var rest := [BACKSLASH] + name;
      assert rest[1..] == name;
      assert Join(dir, name) == dir + rest;
      SegmentsAppend(dir, rest);
    }
  }

  /** Whether normalising will leave the white space of a joined path alone. */
  predicate SafeName(dir: Text, name: Text) {
    name != [] && !IsSpace(name[|name| - 1]) && (dir == [] ==> !IsSpace(name[0]))
  }

  /** For a directory path as the wrapper normalises it, not starting with white space, and a
      name without separators: normalising the joined path yields the directory's segments
      followed by the name exactly when the name is safe. */
  lemma ReaddirRoundTrip(dir: Text, name: Text)
    requires Canonical(dir) == dir && (dir != [] ==> !IsSpace(dir[0]))
    requires Clean(name)
    ensures NormalizeSmbPath(Join(dir, name)) == Joined(Segments(dir) + [name]) <==> SafeName(dir, name)
  {
    hide Canonical, Segments, Joined, Join, NormalizeSmbPath, Trim, IsSpace;
    if SafeName(dir, name) {
      SafeJoin(dir, name);
    } else if IsSpace(name[|name| - 1]) {
      NormalizedShape(Join(dir, name));
      JoinEnds(dir, name);
    } else {
      LeadingSpaceLost(name);
    }
  }

  /** Nothing of a safe joined path is trimmed away. */
  lemma SafeJoin(dir: Text, name: Text)
    requires dir != [] ==> !IsSpace(dir[0])
    requires Clean(name) && SafeName(dir, name)
    ensures NormalizeSmbPath(Join(dir, name)) == Joined(Segments(dir) + [name])
  {
    hide IsSpace, Segments, Joined, NormalizeSmbPath;
    var path := Join(dir, name);
    JoinEnds(dir, name);
    NormalizeIsCanonical(path);
    assert Trim(path) == path;
    assert !EndsInSeparator(path);
    assert Joined(Segments(path)) + [] == Joined(Segments(path));
  }

  /** At the top of the share, normalising shortens a name that starts with white space. */
  lemma LeadingSpaceLost(name: Text)
    requires Clean(name) && IsSpace(name[0])
    ensures NormalizeSmbPath(Join([], name)) != Joined(Segments([]) + [name])
  {
    hide IsSpace, NormalizeSmbPath, Canonical;
    assert Segments([]) == [] && [] + [name] == [name];
    NormalizedShape(name);
    TrimmedStart(name[1..]);
    TrimmedEnd(TrimStart(name));
  }

  /** The joined path and the path wanted both end as the name does. */
  lemma JoinEnds(dir: Text, name: Text)
    requires Clean(name)
    ensures Segments(Join(dir, name)) == Segments(dir) + [name]
    ensures Join(dir, name) != [] && Join(dir, name)[|Join(dir, name)| - 1] == name[|name| - 1]
    ensures var wanted := Joined(Segments(dir) + [name]);
      wanted != [] && wanted[|wanted| - 1] == name[|name| - 1]
  {
    SegmentsOfJoin(dir, name);
    SegmentsClean(dir);
    JoinedEnd(Segments(dir) + [name]);
  }

  // ---- Where a joined path leads ----------------------------------------------------------

  lemma WhereTrimmed(path: Text)
    ensures Segments(NormalizeSmbPath(path)) == Segments(Trim(path))
  {
    hide Segments, Canonical, NormalizeSmbPath, Trim;
    NormalizeIsCanonical(path);
    CanonicalTwice(Trim(path));
  }

  /** The path of an entry leads to the directory's segments followed by the name exactly when the
      name is safe from trimming. */
  lemma ReaddirReaches(dir: Text, name: Text)
    requires Canonical(dir) == dir && (dir != [] ==> !IsSpace(dir[0]))
    requires Clean(name)
    ensures Segments(NormalizeSmbPath(Join(dir, name))) == Segments(dir) + [name] <==> SafeName(dir, name)
  {
    hide Canonical, Segments, Joined, Join, NormalizeSmbPath, Trim, IsSpace, SafeName;
    WhereTrimmed(Join(dir, name));
    if SafeName(dir, name) {
      SafeTrim(dir, name);
      SegmentsOfJoin(dir, name);
    } else {
      UnsafeTrim(dir, name);
    }
  }

  lemma SafeTrim(dir: Text, name: Text)
    requires dir != [] ==> !IsSpace(dir[0])
    requires Clean(name) && SafeName(dir, name)
    ensures Trim(Join(dir, name)) == Join(dir, name)
  {
    hide IsSpace;
  }

  /** A name that is not safe does not survive. */
  lemma UnsafeTrim(dir: Text, name: Text)
    requires dir != [] ==> !IsSpace(dir[0])
    requires Clean(name) && !SafeName(dir, name)
    ensures Segments(Trim(Join(dir, name))) != Segments(dir) + [name]
  {
    hide IsSpace, Segments, Trim, Join, SafeName;
    if IsSpace(name[|name| - 1]) {
      TrailingLost(dir, name);
    } else {
      UnsafeStart(dir, name);
      LeadingLost(name);
    }
  }

  /** A trailing white space is not in the last segment any more. */
  lemma TrailingLost(dir: Text, name: Text)
    requires dir != [] ==> !IsSpace(dir[0])
    requires Clean(name) && IsSpace(name[|name| - 1])
    ensures Segments(Trim(Join(dir, name))) != Segments(dir) + [name]
  {
    hide IsSpace, Segments, TrimEnd, TrimStart, Join;
    var t := Trim(Join(dir, name));
    TrimmedEnd(TrimStart(Join(dir, name)));
    if t != [] && !IsSeparator(t[|t| - 1]) {
      LastSegment(t);
    } else {
      EndsEarly(dir, name);
    }
  }

  /** A leading white space at the top of the share leaves too little for the name. */
  lemma LeadingLost(name: Text)
    requires Clean(name) && IsSpace(name[0])
    ensures Segments(Trim(Join([], name))) != Segments([]) + [name]
  {
    NoText();
    assert TrimStart(name) == TrimStart(name[1..]);
    hide IsSpace, Segments, TrimEnd, TrimStart;
    TrimmedStart(name[1..]);
    TrimmedEnd(TrimStart(name));
    SegmentsFit(Trim(name));
    assert ([] + [name])[0] == name;
  }

  /** No segment is longer than the path. */
  lemma {:induction false} SegmentsFit(s: Text)
    ensures forall i :: 0 <= i < |Segments(s)| ==> |Segments(s)[i]| <= |s|
    decreases |s|
  {
    if s == [] {
    } else if IsSeparator(s[0]) {
      SegmentsFit(s[1..]);
    } else {
      SegmentsFit(s[SegmentLength(s)..]);
    }
  }

  lemma UnsafeStart(dir: Text, name: Text)
    requires Clean(name) && !SafeName(dir, name) && !IsSpace(name[|name| - 1])
    ensures dir == [] && IsSpace(name[0])
  {
    hide IsSpace;
  }

  lemma {:induction false} TrimmedTail(s: Text)
    ensures |TrimEnd(s)| <= |s|
    ensures forall i :: |TrimEnd(s)| <= i < |s| ==> IsSpace(s[i])
  {
    hide IsSpace;
    if s != [] && IsSpace(s[|s| - 1]) {
      TrimmedTail(s[..|s| - 1]);
    }
  }

  /** If trimming leaves nothing of the name, it leaves the directory and a separator. */
  lemma EndsEarly(dir: Text, name: Text)
    requires dir != [] ==> !IsSpace(dir[0])
    requires Clean(name) && IsSpace(name[|name| - 1])
    requires var t := Trim(Join(dir, name)); t == [] || IsSeparator(t[|t| - 1])
    ensures Segments(Trim(Join(dir, name))) == Segments(dir)
  {
    hide IsSpace, Segments, Trim, Join;
    if dir == [] {
      assert Join([], name) == name by { JoinedAtTop(name); }
      NameOnly(name);
    } else {
      EndsAtDirectory(dir, name);
      SeparatorAppended(dir);
    }
  }

  lemma JoinedAtTop(name: Text)
    ensures Join([], name) == name
  {
  }

  lemma EndsAtDirectory(dir: Text, name: Text)
    requires dir != [] && !IsSpace(dir[0]) && Clean(name)
    requires var t := Trim(Join(dir, name)); t == [] || IsSeparator(t[|t| - 1])
    ensures Trim(Join(dir, name)) == dir + [BACKSLASH]
  {
    var path := Join(dir, name);
    var t := Trim(path);
    assert !IsSpace(BACKSLASH) && TrimStart(path) == path;
    hide IsSpace, TrimEnd, TrimStart;
    TrimmedTail(path);
    TrimmedEnd(path);
    assert path[|dir|] == BACKSLASH;
    assert |t| > |dir|;
    assert forall k :: |dir| < k < |path| ==> path[k] == name[k - |dir| - 1];
    assert t == path[..|dir| + 1];
  }

  lemma SeparatorAppended(dir: Text)
    ensures Segments(dir + [BACKSLASH]) == Segments(dir)
  {
    SegmentsAppend(dir, [BACKSLASH]);
    assert [BACKSLASH][1..] == [];
    assert Segments([BACKSLASH]) == [];
  }

  /** A trimmed name holds no separator to end in. */
  lemma NameOnly(name: Text)
    requires Clean(name)
    requires var t := Trim(name); t == [] || IsSeparator(t[|t| - 1])
    ensures Segments(Trim(name)) == Segments([]) == []
  {
    hide IsSpace, IsSeparator;
    TrimMembers(name);
    NoText();
    assert forall c :: c in name ==> !IsSeparator(c);
    assert forall c :: c in Trim(name) ==> !IsSeparator(c);
  }

  lemma TrimMembers(s: Text)
    ensures forall c :: c in Trim(s) ==> c in s
  {
    hide IsSpace;
    StartIsSuffix(s);
    TrimmedEnd(TrimStart(s));
  }

  lemma {:induction false} StartIsSuffix(s: Text)
    ensures |TrimStart(s)| <= |s| && TrimStart(s) == s[|s| - |TrimStart(s)|..]
  {
    hide IsSpace;
    if s != [] && IsSpace(s[0]) {
      StartIsSuffix(s[1..]);
    }
  }

  /** A name of nothing but white space leads back to the directory it is in. */
  lemma BlankLeadsBack(dir: Text, name: Text)
    requires dir != [] ==> !IsSpace(dir[0])
    requires Clean(name) && forall i :: 0 <= i < |name| ==> IsSpace(name[i])
    ensures Segments(NormalizeSmbPath(Join(dir, name))) == Segments(dir)
  {
    hide Segments, NormalizeSmbPath, Canonical;
    WhereTrimmed(Join(dir, name));
    BlankTrimmed(dir, name);
    EndsEarly(dir, name);
  }

  lemma BlankTrimmed(dir: Text, name: Text)
    requires dir != [] ==> !IsSpace(dir[0])
    requires Clean(name) && forall i :: 0 <= i < |name| ==> IsSpace(name[i])
    ensures var t := Trim(Join(dir, name)); t == [] || IsSeparator(t[|t| - 1])
  {
    var path := Join(dir, name);
    assert !IsSpace(BACKSLASH);
    hide IsSpace;
    TrimmedEnd(TrimStart(path));
    if dir == [] {
      AllTrimmed(name);
    } else {
      assert TrimStart(path) == path;
      assert forall k :: |dir| < k < |path| ==> path[k] == name[k - |dir| - 1];
      TrimmedTail(path);
      assert path[|dir|] == BACKSLASH;
    }
  }

  lemma {:induction false} AllTrimmed(s: Text)
    requires forall i :: 0 <= i < |s| ==> IsSpace(s[i])
    ensures TrimStart(s) == []
  {
    hide IsSpace;
    if s != [] {
      AllTrimmed(s[1..]);
    }
  }

  /** What trimming leaves of the last name of a path. */
  function Effective(top: bool, name: Text): Text {
    TrimEnd(if top then TrimStart(name) else name)
  }

  predicate Blank(name: Text) {
    forall i :: 0 <= i < |name| ==> IsSpace(name[i])
  }

  lemma {:induction false} TrimEndAppend(a: Text, b: Text)
    requires TrimEnd(b) != []
    ensures TrimEnd(a + b) == a + TrimEnd(b)
  {
    hide IsSpace;
    var s := a + b;
    assert s[|s| - 1] == b[|b| - 1];
    if IsSpace(b[|b| - 1]) {
      assert s[..|s| - 1] == a + b[..|b| - 1];
      TrimEndAppend(a, b[..|b| - 1]);
    }
  }

  /** Something is left of a name that is not blank, without separators and without white space at
      its end, nor at its beginning at the top of the share. */
  lemma EffectiveIsClean(top: bool, name: Text)
    requires Clean(name) && !Blank(name)
    ensures Clean(Effective(top, name))
    ensures top ==> !IsSpace(Effective(top, name)[0])
  {
    hide IsSpace, IsSeparator;
    var from := if top then TrimStart(name) else name;
    StartIsSuffix(name);
    TrimmedStart(name);
    SomethingLeft(name);
    TrimmedEnd(from);
    TrimmedTail(from);
    assert Effective(top, name) == from[..|Effective(top, name)|];
  }

  lemma {:induction false} SomethingLeft(name: Text)
    requires !Blank(name)
    ensures !Blank(TrimStart(name))
    decreases name
  {
    hide IsSpace;
    if IsSpace(name[0]) {
      assert exists i :: 1 <= i < |name| && !IsSpace(name[i]);
      var i :| 1 <= i < |name| && !IsSpace(name[i]);
      assert name[1..][i - 1] == name[i];
      SomethingLeft(name[1..]);
    }
  }

  lemma BlankLeavesNothing(top: bool, name: Text)
    ensures Blank(name) <==> Effective(top, name) == []
  {
    hide IsSpace;
    var from := if top then TrimStart(name) else name;
    TrimmedTail(from);
    TrimmedEnd(from);
    if Blank(name) {
      AllTrimmed(name);
      assert Blank(from);
    } else {
      SomethingLeft(name);
    }
  }

  /** The path of an entry leads to the directory's segments and what is left of the name. */
  lemma EffectiveReaches(dir: Text, name: Text)
    requires dir != [] ==> !IsSpace(dir[0]) && !IsSeparator(dir[0])
    requires Clean(name) && !Blank(name)
    ensures var n := NormalizeSmbPath(Join(dir, name));
      Segments(n) == Segments(dir) + [Effective(dir == [], name)] && n != [] && !IsSpace(n[0])
  {
    var left := Effective(dir == [], name);
    EffectiveIsClean(dir == [], name);
    TrimmedJoin(dir, name);
    hide Canonical, Segments, Joined, Join, NormalizeSmbPath, Trim, IsSpace, Effective, TrimEnd, TrimStart;
    WhereTrimmed(Join(dir, name));
    SegmentsOfJoin(dir, left);
    NormalizedShape(Join(dir, name));
    var n := NormalizeSmbPath(Join(dir, name));
    NotEmpty(n);
    FirstSegment(n);
    if dir != [] {
      FirstRun(dir);
    } else {
      NoText();
    }
  }

  /** A path that does not start with a separator starts with its first name. */
  lemma FirstRun(s: Text)
    requires s != [] && !IsSeparator(s[0])
    ensures Segments(s) != [] && Segments(s)[0] == s[..SegmentLength(s)] && SegmentLength(s) > 0
  {
  }

  // ---- Directories whose normal form starts with white space ------------------------------

  lemma {:induction false} TrimStartAppend(a: Text, b: Text)
    requires TrimStart(a) != []
    ensures TrimStart(a + b) == TrimStart(a) + b
    decreases a
  {
    hide IsSpace;
    if IsSpace(a[0]) {
      assert (a + b)[1..] == a[1..] + b;
      TrimStartAppend(a[1..], b);
    }
  }

  /** A path in normal form, without the white space that normalising it again would trim. */
  lemma Retrimmed(dir: Text)
    requires dir != [] && !IsSpace(dir[|dir| - 1])
    ensures TrimStart(dir) != [] && Trim(dir) == TrimStart(dir) && !IsSpace(TrimStart(dir)[0])
    ensures TrimStart(TrimStart(dir)) == TrimStart(dir)
  {
    hide IsSpace;
    assert !Blank(dir);
    SomethingLeft(dir);
    StartIsSuffix(dir);
    TrimmedStart(dir);
  }

  /** What an entry's path leads to depends on its directory's path only up to that white space. */
  lemma JoinRetrimmed(dir: Text, name: Text)
    requires dir != [] && !IsSpace(dir[|dir| - 1])
    ensures NormalizeSmbPath(Join(dir, name)) == NormalizeSmbPath(Join(TrimStart(dir), name))
  {
    hide IsSpace, TrimStart, TrimEnd, NormalizeSmbPath, Join;
    Retrimmed(dir);
    JoinStart(dir, name);
    JoinStart(TrimStart(dir), name);
    SameStart(Join(dir, name), Join(TrimStart(dir), name));
  }

  lemma JoinStart(dir: Text, name: Text)
    requires TrimStart(dir) != []
    ensures TrimStart(Join(dir, name)) == TrimStart(dir) + ([BACKSLASH] + name)
  {
    assert dir != [];
    hide TrimStart;
    TrimStartAppend(dir, [BACKSLASH] + name);
    assert Join(dir, name) == dir + ([BACKSLASH] + name);
  }

  lemma SameStart(p: Text, q: Text)
    requires TrimStart(p) == TrimStart(q)
    ensures NormalizeSmbPath(p) == NormalizeSmbPath(q)
  {
    hide TrimStart, TrimEnd;
  }

  /** If the first name is not blank, a name comes first after trimming too. */
  lemma RetrimmedStart(dir: Text)
    requires dir != [] && Canonical(dir) == dir && Segments(dir) != [] && !Blank(Segments(dir)[0])
    ensures TrimStart(dir) != [] && !IsSpace(TrimStart(dir)[0]) && !IsSeparator(TrimStart(dir)[0])
  {
    FirstSegment(dir);
    FirstRun(dir);
    var run, rest := dir[..SegmentLength(dir)], dir[SegmentLength(dir)..];
    assert dir == run + rest;
    hide IsSpace, IsSeparator, Segments, Canonical;
    SomethingLeft(run);
    TrimStartAppend(run, rest);
    TrimmedStart(run);
    StartIsSuffix(run);
    assert TrimStart(run)[0] == run[|run| - |TrimStart(run)|];
  }

  lemma TrimmedJoin(dir: Text, name: Text)
    requires dir != [] ==> !IsSpace(dir[0])
    requires Clean(name) && !Blank(name)
    ensures Trim(Join(dir, name)) == Join(dir, Effective(dir == [], name))
  {
    BlankLeavesNothing(dir == [], name);
    hide IsSpace;
    if dir != [] {
      assert TrimStart(Join(dir, name)) == Join(dir, name);
      assert Join(dir, name) == (dir + [BACKSLASH]) + name;
      TrimEndAppend(dir + [BACKSLASH], name);
    }
  }

  lemma NotEmpty(dir: Text)
    requires Canonical(dir) == dir
    ensures dir == [] <==> Segments(dir) == []
  {
  }

  lemma FirstOfJoined(segments: seq<Text>)
    requires segments != [] && Clean(segments[0])
    ensures Joined(segments) != [] && Joined(segments)[0] == segments[0][0]
  {
  }

  /** A path in normal form starts with its first name. */
  lemma FirstSegment(dir: Text)
    requires dir != [] && Canonical(dir) == dir && Segments(dir) != []
    ensures Clean(Segments(dir)[0]) && dir[0] == Segments(dir)[0][0]
  {
    hide Segments, Joined;
    SegmentsClean(dir);
    FirstOfJoined(Segments(dir));
  }

  /** A path in normal form which, trimmed again, starts with a name. */
  predicate StartsWithName(dir: Text) {
    dir == [] || (var d := TrimStart(dir); d != [] && !IsSpace(d[0]) && !IsSeparator(d[0]))
  }

  /** Where the paths of a directory's entries lead: below what its normal form leads to. */
  lemma EntryReaches(path: Text, name: Text)
    requires var dir := NormalizeSmbPath(path); StartsWithName(dir)
    requires Clean(name) && !Blank(name)
    ensures var dir := NormalizeSmbPath(path);
      var n := NormalizeSmbPath(Join(dir, name));
      && Segments(n) == Segments(NormalizeSmbPath(dir)) + [Effective(dir == [], name)]
      && n != [] && StartsWithName(n) && NormalizeSmbPath(n) == n
  {
    hide IsSpace, IsSeparator, TrimStart, NormalizeSmbPath, Join, Segments, Canonical, Effective, Clean, Blank;
    var dir := NormalizeSmbPath(path);
    NormalizedShape(path);
    Stripped(dir, name);
    var d := TrimStart(dir);
    EffectiveReaches(d, name);
    var n := NormalizeSmbPath(Join(dir, name));
    NormalizeTwice(Join(dir, name));
    NormalizedShape(Join(dir, name));
    NotEmpty(n);
    FirstSegment(n);
    NormalStart(n);
  }

  lemma NormalStart(n: Text)
    requires n != [] && !IsSpace(n[0]) && Segments(n) != [] && Clean(Segments(n)[0]) && n[0] == Segments(n)[0][0]
    ensures StartsWithName(n)
  {
  }

  /** A blank name leads to where the directory's normal form leads. */
  lemma BlankReaches(path: Text, name: Text)
    requires StartsWithName(NormalizeSmbPath(path))
    requires Clean(name) && Blank(name)
    ensures var dir := NormalizeSmbPath(path);
      Segments(NormalizeSmbPath(Join(dir, name))) == Segments(NormalizeSmbPath(dir))
  {
    hide IsSpace, IsSeparator, TrimStart, NormalizeSmbPath, Join, Segments, Canonical, Clean;
    var dir := NormalizeSmbPath(path);
    NormalizedShape(path);
    Stripped(dir, name);
    BlankLeadsBack(TrimStart(dir), name);
  }

  lemma Stripped(dir: Text, name: Text)
    requires StartsWithName(dir) && (dir != [] ==> !IsSpace(dir[|dir| - 1]))
    ensures var d := TrimStart(dir);
      && NormalizeSmbPath(Join(dir, name)) == NormalizeSmbPath(Join(d, name))
      && Segments(d) == Segments(NormalizeSmbPath(dir)) && (d == [] <==> dir == [])
      && (d != [] ==> !IsSpace(d[0]) && !IsSeparator(d[0]))
  {
    hide IsSpace, IsSeparator, NormalizeSmbPath, Join, Segments;
    WhereTrimmed(dir);
    if dir != [] {
      Retrimmed(dir);
      JoinRetrimmed(dir, name);
    }
  }

  /** A path whose first name is not blank is such a path. */
  lemma NamedStart(path: Text)
    requires var names := Segments(NormalizeSmbPath(path)); names != [] ==> !Blank(names[0])
    ensures StartsWithName(NormalizeSmbPath(path))
    ensures NormalizeSmbPath(path) == [] <==> Segments(NormalizeSmbPath(path)) == []
  {
    hide NormalizeSmbPath, Canonical, Segments, Blank, IsSpace, IsSeparator;
    NormalizedShape(path);
    var dir := NormalizeSmbPath(path);
    NotEmpty(dir);
    if dir != [] {
      RetrimmedStart(dir);
    }
  }

  lemma {:induction false} TrimEndBlank(s: Text, tail: Text)
    requires Blank(tail)
    ensures TrimEnd(s + tail) == TrimEnd(s)
    decreases |tail|
  {
    hide IsSpace;
    if tail == [] {
      assert s + tail == s;
    } else {
      assert (s + tail)[..|s + tail| - 1] == s + tail[..|tail| - 1];
      TrimEndBlank(s, tail[..|tail| - 1]);
    }
  }

  /** White space after a name makes no difference to what is left of it. */
  lemma TailIsTrimmed(top: bool, name: Text, tail: Text)
    requires Blank(tail) && !Blank(name)
    ensures Effective(top, name + tail) == Effective(top, name) && !Blank(name + tail)
  {
    hide IsSpace;
    SomethingLeft(name);
    TrimStartAppend(name, tail);
    TrimEndBlank(name, tail);
    TrimEndBlank(TrimStart(name), tail);
    var i :| 0 <= i < |name| && !IsSpace(name[i]);
    assert (name + tail)[i] == name[i];
  }

  /** Nothing is trimmed from a safe name. */
  lemma SafeIsEffective(dir: Text, name: Text)
    requires SafeName(dir, name)
    ensures Effective(dir == [], name) == name
  {
  }
}
