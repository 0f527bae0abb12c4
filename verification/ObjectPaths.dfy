/** Reading D-Bus object paths ("Valid Object Paths" in the D-Bus Specification) out of textual bus replies. */
module ObjectPaths {
  import opened Prelude

  const MAX_OBJECT_PATH_BYTES := 512
  const MAX_ITEMS := 256

  predicate Word(c: char) { 'A' <= c <= 'Z' || 'a' <= c <= 'z' || '0' <= c <= '9' || c == '_' }

  predicate Delimiter(c: char) {
    c == ' ' || c == '\t' || c == '\r' || c == '\n' || c == ',' || c == ')' || c == ']' || c == '}' || c == '\'' || c == '"'
  }

  // ---------------------------------------------------------------- valid_object_path

  /** `split('/')`. */
  function Split(s: string): (parts: seq<string>)
    ensures parts != []
  {
    if s == "" then [""]
    else
      var rest := Split(s[1..]);
      if s[0] == '/' then [""] + rest else [[s[0]] + rest[0]] + rest[1..]
  }

  predicate AllWord(s: string) { forall i :: 0 <= i < |s| ==> Word(s[i]) }

  predicate Segment(s: string) { s != "" && AllWord(s) }

  predicate AllSegments(parts: seq<string>) { forall i :: 0 <= i < |parts| ==> Segment(parts[i]) }

  predicate ValidObjectPath(p: string) {
    && |p| <= MAX_OBJECT_PATH_BYTES && p != "" && p[0] == '/'
    && (p == "/" || AllSegments(Split(p)[1..]))
  }

  /** The grammar, character by character: words joined by single slashes, none at the end. */
  predicate WellFormed(s: string) {
    && (forall i :: 0 <= i < |s| ==> Word(s[i]) || s[i] == '/')
    && (forall i :: 0 <= i < |s| - 1 && s[i] == '/' ==> Word(s[i + 1]))
    && (s != "" ==> s[|s| - 1] != '/')
  }

  lemma AllWordCons(c: char, s: string)
    ensures AllWord([c] + s) <==> Word(c) && AllWord(s)
  {
    if AllWord([c] + s) {
      assert ([c] + s)[0] == c;
      assert forall i :: 0 <= i < |s| ==> s[i] == ([c] + s)[i + 1];
    }
  }

  lemma AllSegmentsSplit(parts: seq<string>)
    requires parts != []
    ensures AllSegments(parts) <==> Segment(parts[0]) && AllSegments(parts[1..])
  {
    if Segment(parts[0]) && AllSegments(parts[1..]) {
      assert forall i :: 0 < i < |parts| ==> parts[i] == parts[1..][i - 1];
    }
  }

  lemma {:induction false} SplitWellFormed(s: string)
    ensures AllSegments(Split(s)[1..]) && AllWord(Split(s)[0]) <==> WellFormed(s)
    ensures Split(s)[0] == "" <==> s == "" || s[0] == '/'
  {
    if s != "" {
      var t := s[1..];
      SplitWellFormed(t);
      var parts, rest := Split(s), Split(t);
      AllSegmentsSplit(rest);
      WellFormedTail(s, t);
      if s[0] == '/' {
        assert parts[1..] == rest && parts[0] == "";
      } else {
        assert parts[1..] == rest[1..] && parts[0] == [s[0]] + rest[0];
        AllWordCons(s[0], rest[0]);
      }
    }
  }

  lemma WellFormedTail(s: string, t: string)
    requires s != "" && t == s[1..]
    ensures WellFormed(s) <==> (Word(s[0]) && WellFormed(t)) || (s[0] == '/' && t != "" && Word(t[0]) && WellFormed(t))
  {
    assert forall i :: 0 <= i < |t| ==> t[i] == s[i + 1];
    if WellFormed(s) {
      assert s[0] == '/' ==> |s| > 1 && Word(s[1]);
    }
    if (Word(s[0]) && WellFormed(t)) || (s[0] == '/' && t != "" && Word(t[0]) && WellFormed(t)) {
      forall i | 0 <= i < |s| ensures Word(s[i]) || s[i] == '/' { if i > 0 { assert s[i] == t[i - 1]; } }
      forall i | 0 <= i < |s| - 1 && s[i] == '/' ensures Word(s[i + 1]) { if i > 0 { assert s[i] == t[i - 1] && s[i + 1] == t[i]; } }
    }
  }

  /** A path is valid exactly when it is the root, or a well-formed text that begins with a slash, of at most 512 bytes. */
  lemma ValidExactlyWhen(p: string)
    ensures ValidObjectPath(p) <==> |p| <= MAX_OBJECT_PATH_BYTES && p != "" && p[0] == '/' && (p == "/" || WellFormed(p))
  {
    if p != "" && p[0] == '/' {
      SplitWellFormed(p);
    }
  }

  // ---------------------------------------------------------------- candidates

  /** The end of the run of word characters at `j`. */
  function WordEnd(v: string, j: nat): (k: nat)
    requires j <= |v|
    ensures j <= k <= |v| && (forall i :: j <= i < k ==> Word(v[i])) && (k < |v| ==> !Word(v[k]))
    decreases |v| - j
  {
    if j < |v| && Word(v[j]) then WordEnd(v, j + 1) else j
  }

  /** ... followed by as many segments as there are. */
  function SegmentsEnd(v: string, j: nat): (k: nat)
    requires j <= |v|
    ensures j <= k <= |v|
    decreases |v| - j
  {
    if j < |v| && v[j] == '/' && WordEnd(v, j + 1) > j + 1 then SegmentsEnd(v, WordEnd(v, j + 1)) else j
  }

  /** The end of the candidate that begins with the slash at `i`. */
  function CandidateEnd(v: string, i: nat): (k: nat)
    requires i < |v|
    ensures i < k <= |v|
  {
    SegmentsEnd(v, WordEnd(v, i + 1))
  }

  predicate Bounded(v: string, k: nat) { k == |v| || (k < |v| && Delimiter(v[k])) }

  predicate Accepted(v: string, i: nat, paths: seq<string>)
    requires i < |v|
  {
    var k := CandidateEnd(v, i);
    Bounded(v, k) && ValidObjectPath(v[i..k]) && v[i..k] !in paths
  }

  /** The paths found from `i` on, after `paths`. */
  function ParseFrom(v: string, i: nat, paths: seq<string>): seq<string>
    requires i <= |v|
    decreases |v| - i
  {
    if i == |v| then paths
    else if v[i] != '/' then ParseFrom(v, i + 1, paths)
    else
      var k := CandidateEnd(v, i);
      if !Accepted(v, i, paths) then ParseFrom(v, k, paths)
      else if |paths| + 1 >= MAX_ITEMS then paths + [v[i..k]]
      else ParseFrom(v, k, paths + [v[i..k]])
  }

  function ParseObjectPaths(v: string): seq<string> { ParseFrom(v, 0, []) }

  /** parse_object_paths: one pass with a cursor and a set of the paths seen. */
  method ReadObjectPaths(v: string) returns (paths: seq<string>)
    ensures paths == ParseObjectPaths(v)
  {
    hide ValidObjectPath;
    paths := [];
    var seen: set<string> := {};
    var index := 0;
    while index < |v|
      invariant 0 <= index <= |v| && ParseFrom(v, index, paths) == ParseObjectPaths(v)
      invariant (forall p :: p in seen <==> p in paths) && |paths| < MAX_ITEMS
    {
      if v[index] != '/' {
        index := index + 1;
        continue;
      }
      var start := index;
      index := SkipWord(v, index + 1);
      index := SkipSegments(v, index);
      assert index == CandidateEnd(v, start);
      var candidate := v[start..index];
      var boundary := index == |v| || Delimiter(v[index]);
      if boundary && ValidObjectPath(candidate) && candidate !in seen {
        seen := seen + {candidate};
        ghost var before := paths;
        paths := paths + [candidate];
        assert Accepted(v, start, before);
        if |paths| >= MAX_ITEMS { return; }
      } else {
        assert !Accepted(v, start, paths);
      }
      if index == start { index := index + 1; }
    }
  }

  method SkipWord(v: string, from: nat) returns (index: nat)
    requires from <= |v|
    ensures index == WordEnd(v, from)
  {
    index := from;
    while index < |v| && Word(v[index])
      invariant from <= index <= |v| && WordEnd(v, index) == WordEnd(v, from)
    {
      index := index + 1;
    }
  }

  method SkipSegments(v: string, from: nat) returns (index: nat)
    requires from <= |v|
    ensures index == SegmentsEnd(v, from)
  {
    index := from;
    while index < |v| && v[index] == '/'
      invariant from <= index <= |v| && SegmentsEnd(v, index) == SegmentsEnd(v, from)
    {
      var cursor := SkipWord(v, index + 1);
      if cursor == index + 1 { break; }
      index := cursor;
    }
  }

  // ---------------------------------------------------------------- soundness

  predicate Distinct(paths: seq<string>) { forall i, j :: 0 <= i < j < |paths| ==> paths[i] != paths[j] }

  /** `p` stands in `v`, beginning at a slash and ending at a delimiter or the end. */
  predicate OccursAt(v: string, p: string, i: nat) { i + |p| <= |v| && v[i..i + |p|] == p && Bounded(v, i + |p|) }

  ghost predicate Occurs(v: string, p: string) { exists i: nat :: OccursAt(v, p, i) }

  predicate Found(v: string, paths: seq<string>) {
    |paths| <= MAX_ITEMS && Distinct(paths) && forall i :: 0 <= i < |paths| ==> ValidObjectPath(paths[i])
  }

  /** On any input: at most 256 distinct valid paths, each occurring delimited in the input. */
  lemma {:induction false} ParseSound(v: string, i: nat, paths: seq<string>)
    requires i <= |v| && Found(v, paths) && |paths| < MAX_ITEMS && forall k :: 0 <= k < |paths| ==> Occurs(v, paths[k])
    ensures var out := ParseFrom(v, i, paths); Found(v, out) && paths <= out && forall k :: 0 <= k < |out| ==> Occurs(v, out[k])
    decreases |v| - i
  {
    hide ValidObjectPath, CandidateEnd, Delimiter;
    if i < |v| {
      if v[i] != '/' {
        ParseSound(v, i + 1, paths);
      } else {
        var k := CandidateEnd(v, i);
        if Accepted(v, i, paths) {
          var more := paths + [v[i..k]];
          assert OccursAt(v, v[i..k], i);
          assert forall n :: 0 <= n < |more| ==> Occurs(v, more[n]);
          if |more| < MAX_ITEMS { ParseSound(v, k, more); }
        } else {
          ParseSound(v, k, paths);
        }
      }
    }
  }

  // ---------------------------------------------------------------- round trip

  /** No slash, and a delimiter first: the text between two rendered paths. */
  predicate Gap(g: string) { g != "" && Delimiter(g[0]) && forall c <- g :: c != '/' }

  /** Paths written out one after the other, each followed by its gap. */
  function Written(paths: seq<string>, gaps: seq<string>): string
    requires |paths| == |gaps|
  {
    if paths == [] then "" else paths[0] + gaps[0] + Written(paths[1..], gaps[1..])
  }

  lemma {:induction false} SkipText(v: string, i: nat, k: nat, paths: seq<string>)
    requires i <= k <= |v| && forall j :: i <= j < k ==> v[j] != '/'
    ensures ParseFrom(v, i, paths) == ParseFrom(v, k, paths)
    decreases k - i
  {
    if i < k { SkipText(v, i + 1, k, paths); }
  }

  /** The segments of a well-formed stretch that ends at a delimiter, or at the end, are all taken. */
  lemma {:induction false} TakesSegments(v: string, j: nat, end: nat)
    requires j <= end <= |v| && Bounded(v, end) && (j < end ==> v[j] == '/')
    requires forall i :: j <= i < end ==> Word(v[i]) || v[i] == '/'
    requires forall i :: j <= i < end && v[i] == '/' ==> i + 1 < end && Word(v[i + 1])
    ensures SegmentsEnd(v, j) == end
    decreases end - j
  {
    if j < end {
      var k := WordEnd(v, j + 1);
      assert Word(v[j + 1]);
      assert k <= end;
      TakesSegments(v, k, end);
    }
  }

  lemma CandidateOfValid(v: string, i: nat, p: string)
    requires i + |p| <= |v| && v[i..i + |p|] == p && ValidObjectPath(p) && Bounded(v, i + |p|)
    ensures v[i] == '/' && CandidateEnd(v, i) == i + |p|
  {
    ValidExactlyWhen(p);
    hide ValidObjectPath;
    var end := i + |p|;
    assert forall k :: 0 <= k < |p| ==> v[i + k] == p[k];
    if p == "/" {
      assert WordEnd(v, i + 1) == i + 1;
    } else {
      var k := WordEnd(v, i + 1);
      assert k <= end;
      forall n | i <= n < end ensures (Word(v[n]) || v[n] == '/') && (v[n] == '/' ==> n + 1 < end && Word(v[n + 1])) {
        assert v[n] == p[n - i];
        if v[n] == '/' { assert n - i < |p| - 1; assert v[n + 1] == p[n - i + 1]; }
      }
      TakesSegments(v, k, end);
    }
  }

  lemma {:induction false} ParseWritten(v: string, i: nat, paths: seq<string>, gaps: seq<string>, before: seq<string>)
    requires i <= |v| && |paths| == |gaps| && v[i..] == Written(paths, gaps)
    requires (forall p <- paths :: ValidObjectPath(p)) && (forall g <- gaps :: Gap(g))
    requires Distinct(before + paths) && |before + paths| <= MAX_ITEMS
    ensures ParseFrom(v, i, before) == before + paths
    decreases |paths|
  {
    hide ValidObjectPath, Delimiter, ParseFrom, CandidateEnd, Accepted, Bounded;
    if paths == [] {
      ParseEnd(v, before);
      assert before + paths == before;
    } else {
      var p, g := paths[0], gaps[0];
      var rest := Written(paths[1..], gaps[1..]);
      assert v[i..] == p + g + rest;
      WrittenParts(v, i, p, g, rest);
      var k := i + |p|;
      assert (before + paths)[|before|] == p && p !in before by {
        assert forall n :: 0 <= n < |before| ==> (before + paths)[n] == before[n];
      }
      TakePath(v, i, p, before);
      assert before + [p] + paths[1..] == before + paths;
      if |before| + 1 >= MAX_ITEMS {
        assert paths[1..] == [];
      } else {
        SkipText(v, k, k + |g|, before + [p]);
        ParseWritten(v, k + |g|, paths[1..], gaps[1..], before + [p]);
      }
    }
  }

  lemma ParseEnd(v: string, paths: seq<string>)
    ensures ParseFrom(v, |v|, paths) == paths
  {
  }

  lemma TakePath(v: string, i: nat, p: string, before: seq<string>)
    requires i + |p| <= |v| && v[i..i + |p|] == p && ValidObjectPath(p) && Bounded(v, i + |p|) && p !in before
    ensures i < |v| && ParseFrom(v, i, before) ==
              if |before| + 1 >= MAX_ITEMS then before + [p] else ParseFrom(v, i + |p|, before + [p])
  {
    CandidateOfValid(v, i, p);
    hide ValidObjectPath, CandidateEnd, Bounded;
  }

  lemma WrittenParts(v: string, i: nat, p: string, g: string, rest: string)
    requires i <= |v| && v[i..] == p + g + rest && Gap(g)
    ensures i + |p| + |g| <= |v| && v[i..i + |p|] == p && Bounded(v, i + |p|) && v[i + |p| + |g|..] == rest
    ensures forall j :: i + |p| <= j < i + |p| + |g| ==> v[j] != '/'
  {
    var t := p + g + rest;
    assert |v| == i + |t|;
    assert forall k :: 0 <= k < |t| ==> v[i + k] == t[k];
    assert forall k :: 0 <= k < |g| ==> v[i + |p| + k] == g[k];
    assert v[i..i + |p|] == p;
    assert v[i + |p| + |g|..] == rest;
    forall j | i + |p| <= j < i + |p| + |g| ensures v[j] != '/' { assert v[j] == g[j - i - |p|] && g[j - i - |p|] in g; }
  }

  /** Rendering up to 256 distinct valid paths, each delimited, and parsing gives back the same list. */
  lemma RoundTrip(head: string, paths: seq<string>, gaps: seq<string>)
    requires (forall c <- head :: c != '/') && |paths| == |gaps| <= MAX_ITEMS && Distinct(paths)
    requires (forall p <- paths :: ValidObjectPath(p)) && (forall g <- gaps :: Gap(g))
    ensures ParseObjectPaths(head + Written(paths, gaps)) == paths
  {
    hide ValidObjectPath, ParseFrom, Written, Gap, Distinct;
    var v := head + Written(paths, gaps);
    forall j | 0 <= j < |head| ensures v[j] != '/' { assert v[j] == head[j] && head[j] in head; }
    SkipText(v, 0, |head|, []);
    assert v[|head|..] == Written(paths, gaps);
    assert [] + paths == paths;
    ParseWritten(v, |head|, paths, gaps, []);
  }

  function QuoteGaps(n: nat): (gaps: seq<string>)
    ensures |gaps| == n && forall g <- gaps :: Gap(g)
  {
    seq(n, i requires 0 <= i < n => if i + 1 < n then "', '" else "'],)")
  }

  /** A reply such as `(['/a', '/b/c'],)`. */
  lemma QuotedRoundTrip(paths: seq<string>)
    requires |paths| <= MAX_ITEMS && Distinct(paths) && forall p <- paths :: ValidObjectPath(p)
    ensures ParseObjectPaths("(['" + Written(paths, QuoteGaps(|paths|))) == paths
  {
    hide ValidObjectPath, Written, QuoteGaps, Gap;
    RoundTrip("(['", paths, QuoteGaps(|paths|));
  }
}
