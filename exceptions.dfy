/** The exceptions the modelled code raises, and the text `str(e)` gives for each. */
module Exceptions {
  import opened Wrappers
  import opened Text

  datatype Exception =
    | ValueError(msg: string)
    | TypeError(msg: string)
    | AttributeError(msg: string)
      /** src/mealie/mealie_client.py's `MealieApiError(status_code, message, response_text)`. */
    | MealieApiError(statusCode: int, message: string, responseText: string)
      /** A bare `Exception(msg)`, as the older client raises. */
    | Error(msg: string)

  /** `str(e)`. `MealieApiError` passes "<message> (Status Code: <code>)" to its base class. */
  function Message(e: Exception): (r: string)
    ensures !e.MealieApiError? ==> r == e.msg
    ensures e.MealieApiError? ==> |e.message| < |r| && r[..|e.message|] == e.message
  {
    match e
    case ValueError(m) => m
    case TypeError(m) => m
    case AttributeError(m) => m
    case MealieApiError(code, m, _) => m + " (Status Code: " + IntToString(code) + ")"
    case Error(m) => m
  }

  predicate IsCodeChar(c: char) { c == '-' || IsDigit(c) }

  /** The longest suffix of `s` made of digits and minus signs. */
  function CodeSuffix(s: string): (r: string)
    ensures |r| <= |s| && r == s[|s| - |r|..]
    decreases |s|
  {
    if s != [] && IsCodeChar(s[|s| - 1]) then CodeSuffix(s[..|s| - 1]) + [s[|s| - 1]] else ""
  }

  /** The longest prefix of `s` made of digits and minus signs. */
  function CodePrefix(s: string): (r: string)
    ensures |r| <= |s| && r == s[..|r|]
    decreases |s|
  {
    if s != [] && IsCodeChar(s[0]) then [s[0]] + CodePrefix(s[1..]) else ""
  }

  lemma {:induction false} CodePrefixBeforeSpace(w: string, t: string)
    requires forall i :: 0 <= i < |w| ==> IsCodeChar(w[i])
    ensures CodePrefix(w + " " + t) == w
    decreases |w|
  {
    var s := w + " " + t;
    if w == [] {
      assert s[0] == ' ';
    } else {
      assert s[1..] == w[1..] + " " + t;
      CodePrefixBeforeSpace(w[1..], t);
      assert w == [w[0]] + w[1..];
    }
  }

  /** The decimal text of an integer is made of digits and at most a leading minus. */
  lemma IntToStringCodeChars(i: int)
    ensures forall k :: 0 <= k < |IntToString(i)| ==> IsCodeChar(IntToString(i)[k])
  {
    if i < 0 {
      assert IntToString(i) == "-" + NatToString(-i);
    }
  }

  /** What a reader of a `MealieApiError` text can recover: the number in the trailing
      "(Status Code: N)". */
  function StatusCodeIn(text: string): Option<int> {
    if |text| > 0 && text[|text| - 1] == ')' then ParseInt(CodeSuffix(text[..|text| - 1])) else None
  }

  lemma {:induction false} CodeSuffixAfterSpace(p: string, w: string)
    requires forall i :: 0 <= i < |w| ==> IsCodeChar(w[i])
    ensures CodeSuffix(p + " " + w) == w
    decreases |w|
  {
    var s := p + " " + w;
    if w == [] {
      assert s[|s| - 1] == ' ';
    } else {
      assert s[..|s| - 1] == p + " " + w[..|w| - 1];
      CodeSuffixAfterSpace(p, w[..|w| - 1]);
      assert w == w[..|w| - 1] + [w[|w| - 1]];
    }
  }

  /** The status code a `MealieApiError` was raised with can be read back from its text,
      whatever the message before it says. */
  lemma ApiErrorCodeRecoverable(code: int, message: string, responseText: string)
    ensures StatusCodeIn(Message(MealieApiError(code, message, responseText))) == Some(code)
  {
    var w := IntToString(code);
    var t := Message(MealieApiError(code, message, responseText));
    var p := message + " (Status Code:";
    assert t == p + " " + w + ")";
    assert t[..|t| - 1] == p + " " + w;
    IntToStringCodeChars(code);
    CodeSuffixAfterSpace(p, w);
    IntToStringRoundTrip(code);
  }
}
