/**
 * The typed error the ML adapter returns for a non-success HTTP reply:
 * the upstream status, the raw body and an optional Retry-After hint.
 */
module MLErrors {
  import opened Wrappers
  import Decimal

  /** The hint is optional: an absent hint and a hint of 0 are different values. */
  datatype MLError = MLError(status: int, body: string, retryAfterSeconds: Option<int>)

  const MessagePrefix := "ML HTTP "
  const MessageSeparator := ": "

  /** `Error()`: "ML HTTP <status>: <body>"; the retry hint is not part of it. */
  function Message(e: MLError): (m: string)
    ensures |m| > |MessagePrefix| + |MessageSeparator| + |e.body|
    ensures m[..|MessagePrefix|] == MessagePrefix
    ensures m[|m| - |e.body|..] == e.body
  {
    MessagePrefix + Decimal.IntToDecimal(e.status) + MessageSeparator + e.body
  }

  /** The first position of `c` in `s`, if any. */
  function IndexOf(s: string, c: char): (r: Option<nat>)
    ensures r.None? ==> c !in s
    ensures r.Some? ==> r.value < |s| && s[r.value] == c && c !in s[..r.value]
  {
    if s == [] then None
    else if s[0] == c then Some(0)
    else match IndexOf(s[1..], c)
      case None => None
      case Some(k) => Some(k + 1)
  }

  /**
   * Splits a message back into status and body: the status is the decimal
   * number between the prefix and the first ':', the body is everything
   * after the separator that follows it.
   */
  function ParseMessage(m: string): Option<(int, string)>
  {
    if |m| < |MessagePrefix| || m[..|MessagePrefix|] != MessagePrefix then None
    else
      var rest := m[|MessagePrefix|..];
      match IndexOf(rest, ':')
      case None => None
      case Some(k) =>
        var after := rest[k..];
        if |after| < |MessageSeparator| || after[..|MessageSeparator|] != MessageSeparator then None
        else
          match Decimal.ParseDecimal(rest[..k])
          case None => None
          case Some(status) => Some((status, after[|MessageSeparator|..]))
  }

  lemma IndexOfAfter(a: string, b: string, c: char)
    requires c !in a && |b| > 0 && b[0] == c
    ensures IndexOf(a + b, c) == Some(|a|)
  {
    var s := a + b;
    assert s[|a|] == c;
    assert s[..|a|] == a;
  }

  lemma ColonNotInDecimal(i: int)
    ensures ':' !in Decimal.IntToDecimal(i)
  {
  }

  /** Parsing a message recovers the status and the body it was made from. */
  lemma MessageRoundTrip(e: MLError)
    ensures ParseMessage(Message(e)) == Some((e.status, e.body))
  {
    var digits := Decimal.IntToDecimal(e.status);
    var m := Message(e);
    var tail := MessageSeparator + e.body;
    var rest := digits + tail;
    assert m == MessagePrefix + rest;
    assert m[..|MessagePrefix|] == MessagePrefix;
    assert m[|MessagePrefix|..] == rest;
    ColonNotInDecimal(e.status);
    IndexOfAfter(digits, tail, ':');
    var k := |digits|;
    assert rest[..k] == digits;
    var after := rest[k..];
    assert after == tail;
    assert after[..|MessageSeparator|] == MessageSeparator;
    assert after[|MessageSeparator|..] == e.body;
    Decimal.ParseIntToDecimal(e.status);
  }

  /** Two errors with the same message agree on status and body. */
  lemma MessageInjective(e1: MLError, e2: MLError)
    requires Message(e1) == Message(e2)
    ensures e1.status == e2.status && e1.body == e2.body
  {
    MessageRoundTrip(e1);
    MessageRoundTrip(e2);
  }

  /** The retry hint never shows in the message. */
  lemma MessageIgnoresRetryHint(e: MLError, hint: Option<int>)
    ensures Message(e.(retryAfterSeconds := hint)) == Message(e)
  {
  }
}
