/** Reading the first quoted string out of a textual bus reply. */
module QuotedStrings {
  import opened Prelude

  predicate Quote(c: char) { c == '\'' || c == '"' }

  /** What a backslash and the character after it stand for. */
  function Unescape(c: char): char {
    match c
    case 'n' => '\n'
    case 'r' => '\r'
    case 't' => '\t'
    case other => other
  }

  /** The text up to the first `quote` that is not escaped, decoded; None if there is none. */
  function Body(v: string, quote: char): Option<string> {
    if v == "" then None
    else if v[0] == '\\' then
      if |v| == 1 then None else Prepend(Unescape(v[1]), Body(v[2..], quote))
    else if v[0] == quote then Some("")
    else Prepend(v[0], Body(v[1..], quote))
  }

  function Prepend(c: char, s: Option<string>): Option<string> { if s.None? then None else Some([c] + s.value) }

  function FirstQuoted(v: string): Option<string> {
    if v == "" then None else if Quote(v[0]) then Body(v[1..], v[0]) else FirstQuoted(v[1..])
  }

  /** parse_first_quoted_string: one pass over the characters with three flags. */
  method ReadFirstQuoted(v: string) returns (out: Option<string>)
    ensures out == FirstQuoted(v)
  {
    var quote: Option<char> := None;
    var escaped := false;
    var result := "";
    var i := 0;
    while i < |v|
      invariant 0 <= i <= |v| && (escaped ==> quote.Some? && i > 0 && v[i - 1] == '\\')
      invariant FirstQuoted(v) ==
                  if quote.None? then FirstQuoted(v[i..])
                  else Appended(result, Body(if escaped then v[i - 1..] else v[i..], quote.value))
      invariant quote.None? ==> result == ""
    {
      var c := v[i];
      if quote.Some? {
        if escaped {
          EscapedStep(v, i, quote.value, result);
          result := result + [Unescape(c)];
          escaped := false;
        } else if c == '\\' {
          escaped := true;
        } else if c == quote.value {
          InsideStep(v, i, quote.value, result);
          return Some(result);
        } else {
          InsideStep(v, i, quote.value, result);
          result := result + [c];
        }
      } else {
        OutsideStep(v, i);
        if Quote(c) { quote := Some(c); }
      }
      i := i + 1;
    }
    return None;
  }

  function Appended(s: string, rest: Option<string>): Option<string> { if rest.None? then None else Some(s + rest.value) }

  lemma AppendedPrepend(s: string, c: char, rest: Option<string>)
    ensures Appended(s, Prepend(c, rest)) == Appended(s + [c], rest)
  {
    if rest.Some? { assert s + ([c] + rest.value) == s + [c] + rest.value; }
  }

  /** One character of the pass, outside a string. */
  lemma OutsideStep(v: string, i: nat)
    requires i < |v|
    ensures FirstQuoted(v[i..]) == if Quote(v[i]) then Appended("", Body(v[i + 1..], v[i])) else FirstQuoted(v[i + 1..])
  {
    assert v[i..][1..] == v[i + 1..];
    if Body(v[i + 1..], v[i]).Some? { assert "" + Body(v[i + 1..], v[i]).value == Body(v[i + 1..], v[i]).value; }
  }

  /** ... inside a string. */
  lemma InsideStep(v: string, i: nat, quote: char, result: string)
    requires i < |v| && v[i] != '\\'
    ensures Appended(result, Body(v[i..], quote)) == if v[i] == quote then Some(result) else Appended(result + [v[i]], Body(v[i + 1..], quote))
  {
    assert v[i..][1..] == v[i + 1..] && result + "" == result;
    AppendedPrepend(result, v[i], Body(v[i + 1..], quote));
  }

  /** ... after a backslash. */
  lemma EscapedStep(v: string, i: nat, quote: char, result: string)
    requires 0 < i < |v| && v[i - 1] == '\\'
    ensures Appended(result, Body(v[i - 1..], quote)) == Appended(result + [Unescape(v[i])], Body(v[i + 1..], quote))
  {
    assert v[i - 1..][2..] == v[i + 1..] && v[i - 1..][1] == v[i];
    AppendedPrepend(result, Unescape(v[i]), Body(v[i + 1..], quote));
  }

  // ---------------------------------------------------------------- round trip

  /** A printer of quoted strings: the quote and the backslash are escaped, and so are the three control characters. */
  function Escape(s: string, quote: char): string {
    if s == "" then "" else EscapeChar(s[0], quote) + Escape(s[1..], quote)
  }

  function EscapeChar(c: char, quote: char): string {
    if c == '\\' || c == quote then ['\\', c]
    else if c == '\n' then "\\n"
    else if c == '\r' then "\\r"
    else if c == '\t' then "\\t"
    else [c]
  }

  function Quoted(s: string, quote: char): string { [quote] + Escape(s, quote) + [quote] }

  lemma {:induction false} BodyInvertsEscape(s: string, quote: char, rest: string)
    requires Quote(quote)
    ensures Body(Escape(s, quote) + [quote] + rest, quote) == Some(s)
  {
    var v := Escape(s, quote) + [quote] + rest;
    if s == "" {
      assert v[0] == quote;
    } else {
      var head, tail := EscapeChar(s[0], quote), Escape(s[1..], quote) + [quote] + rest;
      BodyInvertsEscape(s[1..], quote, rest);
      assert v == head + tail;
      assert v[|head|..] == tail;
      assert s == [s[0]] + s[1..];
    }
  }

  /** For every string and either quote: printing it after text without quotes, and before any text, reads back as the string. */
  lemma {:induction false} RoundTrip(head: string, s: string, quote: char, rest: string)
    requires Quote(quote) && forall i :: 0 <= i < |head| ==> !Quote(head[i])
    ensures FirstQuoted(head + Quoted(s, quote) + rest) == Some(s)
    decreases |head|
  {
    var v := head + Quoted(s, quote) + rest;
    if head == "" {
      assert v[1..] == Escape(s, quote) + [quote] + rest;
      BodyInvertsEscape(s, quote, rest);
    } else {
      assert v[1..] == head[1..] + Quoted(s, quote) + rest;
      RoundTrip(head[1..], s, quote, rest);
    }
  }

  // ---------------------------------------------------------------- soundness

  /** Every pair of characters after a backslash taken as one, `body` holds no bare `quote` and no dangling backslash. */
  predicate Closed(body: string, quote: char) {
    body == "" || (if body[0] == '\\' then |body| > 1 && Closed(body[2..], quote) else body[0] != quote && Closed(body[1..], quote))
  }

  function Decode(body: string): string {
    if body == "" then ""
    else if body[0] == '\\' && |body| > 1 then [Unescape(body[1])] + Decode(body[2..])
    else [body[0]] + Decode(body[1..])
  }

  /** What was read is the decoded text between the first quote and the first bare quote of the same kind. */
  ghost predicate Delimits(v: string, open: nat, close: nat, s: string) {
    && open < close < |v| && Quote(v[open]) && (forall i :: 0 <= i < open ==> !Quote(v[i])) && v[close] == v[open]
    && Closed(v[open + 1..close], v[open]) && s == Decode(v[open + 1..close])
  }

  lemma {:induction false} BodySound(v: string, quote: char) returns (close: nat)
    requires Body(v, quote).Some? && quote != '\\'
    ensures close < |v| && v[close] == quote && Closed(v[..close], quote) && Body(v, quote) == Some(Decode(v[..close]))
  {
    if v[0] == '\\' {
      var k := BodySound(v[2..], quote);
      close := k + 2;
      assert v[..close][2..] == v[2..][..k];
    } else if v[0] == quote {
      close := 0;
    } else {
      var k := BodySound(v[1..], quote);
      close := k + 1;
      assert v[..close][1..] == v[1..][..k];
    }
  }

  lemma {:induction false} ReadSound(v: string) returns (open: nat, close: nat)
    requires FirstQuoted(v).Some?
    ensures Delimits(v, open, close, FirstQuoted(v).value)
  {
    if Quote(v[0]) {
      var k := BodySound(v[1..], v[0]);
      open, close := 0, k + 1;
      assert v[1..close] == v[1..][..k];
    } else {
      open, close := ReadSound(v[1..]);
      assert v[1..][open + 1..close] == v[open + 2..close + 1];
      open, close := open + 1, close + 1;
      assert forall i :: 0 < i < open ==> v[i] == v[1..][i - 1];
    }
  }

  lemma {:induction false} BodyComplete(v: string, quote: char, close: nat)
    requires quote != '\\' && close < |v| && v[close] == quote && Closed(v[..close], quote)
    ensures Body(v, quote) == Some(Decode(v[..close]))
  {
    if close > 0 {
      if v[0] == '\\' {
        assert v[..close][2..] == v[2..][..close - 2];
        BodyComplete(v[2..], quote, close - 2);
      } else {
        assert v[..close][1..] == v[1..][..close - 1];
        BodyComplete(v[1..], quote, close - 1);
      }
    }
  }

  /** ... and it is read whenever there is such a text. */
  lemma {:induction false} ReadComplete(v: string, open: nat, close: nat, s: string)
    requires Delimits(v, open, close, s)
    ensures FirstQuoted(v) == Some(s)
  {
    if open == 0 {
      assert v[1..][..close - 1] == v[1..close];
      BodyComplete(v[1..], v[0], close - 1);
    } else {
      assert !Quote(v[0]);
      assert v[1..][open..close - 1] == v[open + 1..close];
      ReadComplete(v[1..], open - 1, close - 1, s);
    }
  }

  /** A string is read exactly when the text has a delimited one, and then it is that one. */
  lemma ReadExactlyWhen(v: string, s: string)
    ensures FirstQuoted(v) == Some(s) <==> exists open: nat, close: nat :: Delimits(v, open, close, s)
  {
    hide Delimits, FirstQuoted;
    if FirstQuoted(v) == Some(s) {
      var open, close := ReadSound(v);
    } else {
      forall open: nat, close: nat | Delimits(v, open, close, s) ensures false { ReadComplete(v, open, close, s); }
    }
  }
}
