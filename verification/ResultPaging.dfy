/**
 Paging of a task's stored result.  A JavaScript string is a sequence of UTF-16 code units; `for of`
 walks it by code points, and UTF-8 sizes follow section 3 of RFC 3629, a lone surrogate being
 written as the three bytes of U+FFFD.
 */
module ResultPaging {
  import opened Prelude

  newtype CodeUnit = u: int | 0 <= u < 0x1_0000

  type Text = seq<CodeUnit>

  datatype Page = Page(text: Text, nextOffset: Option<nat>)

  predicate High(u: CodeUnit) { 0xD800 <= u < 0xDC00 }

  predicate Low(u: CodeUnit) { 0xDC00 <= u < 0xE000 }

  /** Does a surrogate pair (section 2.1 of RFC 2781) begin at `i`? */
  predicate PairAt(s: Text, i: nat) { i + 1 < |s| && High(s[i]) && Low(s[i + 1]) }

  /** The length of the first code point, in code units, and its size in bytes. */
  function Units(s: Text): (n: nat)
    requires s != []
    ensures 1 <= n <= |s| && n <= 2
  {
    if PairAt(s, 0) then 2 else 1
  }

  function Size(s: Text): (n: nat)
    requires s != []
    ensures 1 <= n <= 4
  {
    if PairAt(s, 0) then 4 else if s[0] < 0x80 then 1 else if s[0] < 0x800 then 2 else 3
  }

  /** Buffer.byteLength(s, 'utf8'). */
  function ByteLength(s: Text): nat
    decreases |s|
  {
    if s == [] then 0 else Size(s) + ByteLength(s[Units(s)..])
  }

  /** Every code point fits a page of `max` bytes. */
  predicate Fits(s: Text, max: nat)
    decreases |s|
  {
    s == [] || (Size(s) <= max && Fits(s[Units(s)..], max))
  }

  /** How many code units of `s` a budget pays for, whole code points only. */
  function Affordable(s: Text, budget: nat): (n: nat)
    ensures n <= |s|
    decreases |s|
  {
    if s == [] || Size(s) > budget then 0
    else Units(s) + Affordable(s[Units(s)..], budget - Size(s))
  }

  function PageAt(value: Text, offset: nat, max: nat): Page {
    if offset >= |value| then Page([], None) else
      var n := Affordable(value[offset..], max);
      Page(value[offset..offset + n], if n == 0 || offset + n >= |value| then None else Some(offset + n))
  }

  /** utf8Page: a loop over code points that advances `end` and `bytes`. */
  method Utf8Page(value: Text, offset: nat, maxBytes: nat) returns (page: Page)
    ensures page == PageAt(value, offset, maxBytes)
  {
    if offset >= |value| { return Page([], None); }
    hide AffordableAt, SizeAt, UnitsAt, PageAt;
    var end := offset;
    var bytes := 0;
    while end < |value| && bytes + SizeAt(value, end) <= maxBytes
      invariant offset <= end <= |value| && bytes <= maxBytes
      invariant AffordableAt(value, offset, maxBytes) == end - offset + AffordableAt(value, end, maxBytes - bytes)
    {
      AffordableStep(value, end, maxBytes - bytes);
      bytes, end := bytes + SizeAt(value, end), end + UnitsAt(value, end);
    }
    AffordableEnds(value, end, maxBytes - bytes);
    PageOfEnd(value, offset, end, maxBytes);
    if end == offset { return Page([], None); }
    if end >= |value| { return Page(value[offset..], None); }
    return Page(value[offset..end], Some(end));
  }

  function SizeAt(value: Text, i: nat): nat
    requires i < |value|
  {
    Size(value[i..])
  }

  function UnitsAt(value: Text, i: nat): (n: nat)
    requires i < |value|
    ensures 1 <= n && i + n <= |value|
  {
    Units(value[i..])
  }

  function AffordableAt(value: Text, i: nat, budget: nat): nat
    requires i <= |value|
  {
    Affordable(value[i..], budget)
  }

  lemma PageOfEnd(value: Text, offset: nat, end: nat, max: nat)
    requires offset < |value| && offset <= end <= |value| && end == offset + AffordableAt(value, offset, max)
    ensures PageAt(value, offset, max) ==
              if end == offset then Page([], None)
              else if end >= |value| then Page(value[offset..], None)
              else Page(value[offset..end], Some(end))
  {
    assert end == offset ==> value[offset..end] == [];
    assert end == |value| ==> value[offset..] == value[offset..end];
  }

  lemma AffordableEnds(value: Text, end: nat, budget: nat)
    requires end == |value| || (end < |value| && SizeAt(value, end) > budget)
    ensures AffordableAt(value, end, budget) == 0
  {
  }

  lemma AffordableStep(value: Text, end: nat, budget: nat)
    requires end < |value| && SizeAt(value, end) <= budget
    ensures var n := end + UnitsAt(value, end);
      AffordableAt(value, end, budget) == n - end + AffordableAt(value, n, budget - SizeAt(value, end))
  {
    assert value[end..][Units(value[end..])..] == value[end + Units(value[end..])..];
  }

  // ---------------------------------------------------------------- one page

  /** Cutting a text after whole code points does not change how the part before the cut is read. */
  lemma {:induction false} AffordableBytes(s: Text, budget: nat)
    ensures ByteLength(s[..Affordable(s, budget)]) <= budget
    ensures var n := Affordable(s, budget);
      n < |s| ==> ByteLength(s[..n]) + Size(s[n..]) > budget
    decreases |s|
  {
    var n := Affordable(s, budget);
    if n > 0 {
      var u := Units(s);
      AffordableBytes(s[u..], budget - Size(s));
      assert s[..n][u..] == s[u..][..n - u];
      assert s[u..][n - u..] == s[n..];
      assert ByteLength(s[..n]) == Size(s) + ByteLength(s[..n][u..]);
    } else {
      assert s[..0] == [] && s[0..] == s;
    }
  }

  lemma {:induction false} AffordableWhole(s: Text, budget: nat)
    ensures Affordable(s, budget) > 0 ==> !PairAt(s, Affordable(s, budget) - 1)
    decreases |s|
  {
    var n := Affordable(s, budget);
    if n > 0 {
      var u := Units(s);
      AffordableWhole(s[u..], budget - Size(s));
      if n > u {
        assert forall i :: 0 <= i < |s[u..]| ==> s[u..][i] == s[u + i];
      }
    }
  }

  /**
   A page is a piece of the text within the byte limit; it does not end inside a surrogate pair; and
   it is as long as the limit allows.  A next offset lies behind the page and inside the text.
   */
  lemma PageIsGreatest(value: Text, offset: nat, max: nat)
    ensures var p := PageAt(value, offset, max);
      && ByteLength(p.text) <= max
      && offset + |p.text| <= (if offset <= |value| then |value| else offset)
      && (offset < |value| ==> p.text == value[offset..offset + |p.text|])
      && (p.nextOffset.Some? ==> offset < p.nextOffset.value == offset + |p.text| < |value| && !PairAt(value, p.nextOffset.value - 1))
      && (offset + |p.text| < |value| ==> ByteLength(p.text) + Size(value[offset + |p.text|..]) > max)
  {
    hide ByteLength, Affordable, Size, Units, PairAt;
    if offset < |value| {
      var s := value[offset..];
      var n := Affordable(s, max);
      AffordableBytes(s, max);
      AffordableWhole(s, max);
      assert s[..n] == value[offset..offset + n] && s[n..] == value[offset + n..];
      if n > 0 { PairInRest(value, offset, n); }
    } else {
      EmptyText();
    }
  }

  lemma EmptyText()
    ensures ByteLength([]) == 0
  {
  }

  lemma PairInRest(value: Text, offset: nat, n: nat)
    requires offset + n <= |value| && n > 0
    ensures PairAt(value[offset..], n - 1) <==> PairAt(value, offset + n - 1)
  {
    assert forall i :: 0 <= i < |value| - offset ==> value[offset..][i] == value[offset + i];
  }

  // ---------------------------------------------------------------- all pages

  /** The concatenation of the pages reached by following `nextOffset`. */
  function Followed(value: Text, offset: nat, max: nat): Text
    decreases |value| - offset
  {
    var p := PageAt(value, offset, max);
    if p.nextOffset.None? then p.text else p.text + Followed(value, p.nextOffset.value, max)
  }

  lemma {:induction false} FitsAfterPage(s: Text, max: nat, budget: nat)
    requires budget <= max
    ensures Fits(s, max) <==> Fits(s[Affordable(s, budget)..], max)
    decreases |s|
  {
    var n := Affordable(s, budget);
    if n > 0 {
      FitsAfterPage(s[Units(s)..], max, budget - Size(s));
      assert s[Units(s)..][n - Units(s)..] == s[n..];
    } else {
      assert s[0..] == s;
    }
  }

  /** Following the cursor, one page at a time. */
  lemma FollowedIs(value: Text, offset: nat, max: nat)
    requires offset < |value|
    ensures var n := Affordable(value[offset..], max);
      Followed(value, offset, max) ==
        if n == 0 then []
        else if offset + n == |value| then value[offset..]
        else value[offset..offset + n] + Followed(value, offset + n, max)
  {
    hide Affordable;
    var n := Affordable(value[offset..], max);
    assert n == 0 ==> value[offset..offset + n] == [];
    assert offset + n == |value| ==> value[offset..offset + n] == value[offset..];
  }

  /** The pages put together give back the rest of the text exactly when every code point fits a page. */
  lemma {:induction false} ReassemblyExactlyWhen(value: Text, offset: nat, max: nat)
    requires offset <= |value|
    ensures Followed(value, offset, max) == value[offset..] <==> Fits(value[offset..], max)
    decreases |value| - offset
  {
    hide Affordable, Fits, Size, Units, Followed, PageAt;
    FitsNothing(max);
    if offset < |value| {
      var s := value[offset..];
      var n := Affordable(s, max);
      FollowedIs(value, offset, max);
      FitsAfterPage(s, max, max);
      assert s[n..] == value[offset + n..];
      if n == 0 {
        StuckMeansUnfit(s, max);
      } else if offset + n < |value| {
        ReassemblyExactlyWhen(value, offset + n, max);
        assert s == value[offset..offset + n] + value[offset + n..];
        PrefixCancels(value[offset..offset + n], value[offset + n..], Followed(value, offset + n, max));
      } else {
        assert value[offset + n..] == [];
      }
    } else {
      FollowedEnd(value, offset, max);
      assert value[offset..] == [];
    }
  }

  lemma FollowedEnd(value: Text, offset: nat, max: nat)
    requires offset >= |value|
    ensures Followed(value, offset, max) == []
  {
  }

  lemma FitsNothing(max: nat)
    ensures Fits([], max)
  {
  }

  lemma StuckMeansUnfit(s: Text, max: nat)
    requires s != [] && Affordable(s, max) == 0
    ensures !Fits(s, max)
  {
  }

  lemma PrefixCancels(a: Text, b: Text, c: Text)
    ensures a + b == a + c <==> b == c
  {
    if a + b == a + c {
      assert b == (a + b)[|a|..] && c == (a + c)[|a|..];
    }
  }

  lemma {:induction false} FourBytesFitAll(s: Text, max: nat)
    requires max >= 4
    ensures Fits(s, max)
    decreases |s|
  {
    if s != [] { FourBytesFitAll(s[Units(s)..], max); }
  }

  /** With at least four bytes a page, following the cursor from 0 gives back the stored text. */
  lemma Reassembly(value: Text, max: nat)
    requires max >= 4
    ensures Followed(value, 0, max) == value
  {
    FourBytesFitAll(value, max);
    assert value[0..] == value;
    ReassemblyExactlyWhen(value, 0, max);
  }

  /** Below that it depends on the text: with three bytes a surrogate pair is reported as the end. */
  lemma PairEndsEarly(rest: Text)
    ensures PageAt([0xD83D, 0xDE00] + rest, 0, 3) == Page([], None)
  {
    var s: Text := [0xD83D, 0xDE00] + rest;
    assert s[0..] == s && PairAt(s, 0);
  }
}
