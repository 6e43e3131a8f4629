/** How the processor reads a failure: whether it may be retried, and the
    message it logs and records for it. */
module Classifier {
  import opened JsRuntime

  /** ASCII lower-casing of one character. */
  function LowerChar(c: char): char
  {
    if 'A' <= c <= 'Z' then (c as int + 32) as char else c
  }

  function ToLower(s: string): string
  {
    seq(|s|, i requires 0 <= i < |s| => LowerChar(s[i]))
  }

  lemma ToLowerIdempotent(s: string)
    ensures ToLower(ToLower(s)) == ToLower(s)
  {
  }

  /** `p` occurs in `s` at offset `i`. */
  predicate OccursAt(s: string, p: string, i: int)
  {
    0 <= i <= |s| - |p| && s[i..i + |p|] == p
  }

  /** `s.includes(p)`. */
  function Contains(s: string, p: string): bool
    decreases |s|
  {
    (|p| <= |s| && s[..|p|] == p) || (|s| > 0 && Contains(s[1..], p))
  }

  /** `Contains` holds exactly when `p` occurs at some offset of `s`. */
  lemma {:induction false} ContainsIff(s: string, p: string)
    ensures Contains(s, p) <==> exists i :: OccursAt(s, p, i)
    decreases |s|
  {
    if |p| <= |s| && s[..|p|] == p {
      assert OccursAt(s, p, 0);
    }
    if |s| > 0 {
      ContainsIff(s[1..], p);
      if Contains(s[1..], p) {
        var i :| OccursAt(s[1..], p, i);
        assert OccursAt(s, p, i + 1);
      }
      if i :| OccursAt(s, p, i) {
        if i > 0 {
          assert OccursAt(s[1..], p, i - 1);
        }
      }
    } else {
      if i :| OccursAt(s, p, i) {
        assert s[..|p|] == p;
      }
    }
  }

  /** A pattern with a character that the message lacks does not occur in it. */
  lemma MissingCharNotContained(s: string, p: string, k: nat)
    requires k < |p| && p[k] !in s
    ensures !Contains(s, p)
  {
    ContainsIff(s, p);
  }

  /** Messages containing any of these, case-insensitively, are never retried. */
  const NonRetryablePatterns: seq<string> := [
    "validation",
    "malformed",
    "invalid",
    "not found",
    "unauthorized",
    "forbidden",
    "access denied",
    "resource already exists",
    "conditional check failed"
  ]

  /** `patterns.some((pattern) => message.includes(pattern))`. */
  function SomeIncluded(message: string, patterns: seq<string>): (b: bool)
    ensures b <==> exists i :: 0 <= i < |patterns| && Contains(message, patterns[i])
  {
    if patterns == [] then false
    else Contains(message, patterns[0]) || SomeIncluded(message, patterns[1..])
  }

  /** Only `Error` instances may be retried, and only when their lower-cased
      message contains none of the non-retryable patterns. */
  function IsRetryableError(error: Thrown): (r: bool)
    ensures r <==> error.ErrorObject?
                   && forall i :: 0 <= i < |NonRetryablePatterns| ==>
                        !Contains(ToLower(error.message), NonRetryablePatterns[i])
  {
    match error
    case ErrorObject(message) => !SomeIncluded(ToLower(message), NonRetryablePatterns)
    case _ => false
  }

  /** `reason.message` for an `Error`, `String(reason)` for anything else. */
  function ExtractErrorMessage(reason: Thrown): string
  {
    match reason
    case ErrorObject(message) => message
    case StringValue(text) => text
    case Null => "null"
    case Undefined => "undefined"
    case OtherValue(display) => display
  }

  /** What `extractErrorMessage` gives for each kind of thrown value: the
      message of an `Error`, and `String(reason)` for the rest. */
  lemma ExtractedMessages(reason: Thrown)
    ensures reason.ErrorObject? ==> ExtractErrorMessage(reason) == reason.message
    ensures reason.StringValue? ==> ExtractErrorMessage(reason) == reason.text
    ensures reason == Null ==> ExtractErrorMessage(reason) == "null"
    ensures reason == Undefined ==> ExtractErrorMessage(reason) == "undefined"
    ensures reason.OtherValue? ==> ExtractErrorMessage(reason) == reason.display
  {
  }

  /** The classifier looks at exactly the message that is logged and recorded
      for a failure, and it ignores letter case. */
  lemma RetryableReadsExtractedMessage(error: Thrown)
    ensures IsRetryableError(error) ==> error == ErrorObject(ExtractErrorMessage(error))
    ensures error.ErrorObject? ==>
              IsRetryableError(error) == IsRetryableError(ErrorObject(ToLower(ExtractErrorMessage(error))))
  {
    if error.ErrorObject? {
      ToLowerIdempotent(error.message);
    }
  }

  /** A message that contains a non-retryable pattern, in any letter case, is not retried. */
  lemma PatternMakesNonRetryable(message: string, i: nat)
    requires i < |NonRetryablePatterns|
    requires Contains(ToLower(message), NonRetryablePatterns[i])
    ensures !IsRetryableError(ErrorObject(message))
  {
  }

  /** The cases the processor's tests pin down. */
  lemma NonErrorsNotRetryable()
    ensures !IsRetryableError(StringValue("string"))
    ensures !IsRetryableError(Null)
    ensures !IsRetryableError(Undefined)
  {
  }

  lemma ValidationNotRetryable()
    ensures !IsRetryableError(ErrorObject("validation failed"))
  {
    assert ToLower("validation failed")[..10] == NonRetryablePatterns[0];
  }

  lemma UnauthorizedNotRetryable()
    ensures !IsRetryableError(ErrorObject("unauthorized access"))
  {
    assert ToLower("unauthorized access")[..12] == NonRetryablePatterns[4];
  }

  /** Every non-retryable pattern contains the letter 'd'. */
  lemma EveryPatternHasD()
    ensures forall i :: 0 <= i < |NonRetryablePatterns| ==> 'd' in NonRetryablePatterns[i]
  {
    forall i | 0 <= i < |NonRetryablePatterns|
      ensures NonRetryablePatterns[i][[4, 8, 6, 8, 11, 5, 7, 14, 3][i]] == 'd'
    {
      if i == 0 {} else if i == 1 {} else if i == 2 {} else if i == 3 {} else if i == 4 {}
      else if i == 5 {} else if i == 6 {} else if i == 7 {} else {}
    }
  }

  /** Lower-casing yields a 'd' only from a 'd' or a 'D'. */
  lemma NoDAfterLowering(message: string)
    requires 'd' !in message && 'D' !in message
    ensures 'd' !in ToLower(message)
  {
    forall j | 0 <= j < |message|
      ensures ToLower(message)[j] != 'd'
    {
      assert message[j] in message;
    }
  }

  /** So an `Error` whose message has no 'd', in either case, is always retried. */
  lemma RetryableWithoutD(message: string)
    requires 'd' !in message && 'D' !in message
    ensures IsRetryableError(ErrorObject(message))
  {
    EveryPatternHasD();
    NoDAfterLowering(message);
    forall i | 0 <= i < |NonRetryablePatterns|
      ensures !Contains(ToLower(message), NonRetryablePatterns[i])
    {
      var k :| 0 <= k < |NonRetryablePatterns[i]| && NonRetryablePatterns[i][k] == 'd';
      MissingCharNotContained(ToLower(message), NonRetryablePatterns[i], k);
    }
  }

  /** The transient failures the processor's tests expect to be retried. */
  lemma TransientMessagesRetryable(message: string)
    requires message == "connection timeout" || message == "service unavailable"
    ensures IsRetryableError(ErrorObject(message))
  {
    RetryableWithoutD(message);
  }
}
