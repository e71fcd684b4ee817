/**
 * Pre-flight checks on a chat message and on the configured API key
 * (app/utils/validation.ts). Both are pure and return a ValidationResult.
 */
module Validation {
  import opened Wrappers

  const MAX_MESSAGE_LENGTH: nat := 4000
  const MIN_MESSAGE_LENGTH: nat := 1
  /** Smallest accepted API key length. */
  const MIN_API_KEY_LENGTH: nat := 10

  const EMPTY_MESSAGE_ERROR := "Message cannot be empty"
  /** The template literal of the source, with MAX_MESSAGE_LENGTH = 4000 filled in. */
  const TOO_LONG_ERROR := "Message too long. Maximum 4000 characters allowed."
  const TOO_SHORT_ERROR := "Message too short"
  const KEY_NOT_CONFIGURED_ERROR :=
    "API key not configured. Please set NEXT_PUBLIC_GOOGLE_API_KEY in your environment variables."
  const KEY_FORMAT_ERROR := "Invalid API key format"

  /** `{isValid, error?}` */
  datatype ValidationResult = ValidationResult(isValid: bool, error: Option<string>)

  function Accepted(): ValidationResult { ValidationResult(true, None) }
  function Invalid(msg: string): ValidationResult { ValidationResult(false, Some(msg)) }

  /**
   * The characters `String.prototype.trim` removes: ECMAScript WhiteSpace
   * (TAB, VT, FF, SP, NBSP, ZWNBSP and the other Unicode space separators)
   * and LineTerminator (LF, CR, LS, PS).
   */
  const WHITESPACE: string :=
    "\t\n\U{000B}\U{000C}\r \U{00A0}\U{1680}\U{2000}\U{2001}\U{2002}\U{2003}\U{2004}\U{2005}"
    + "\U{2006}\U{2007}\U{2008}\U{2009}\U{200A}\U{2028}\U{2029}\U{202F}\U{205F}\U{3000}\U{FEFF}"

  predicate IsWhitespace(c: char) {
    Occurs(c, WHITESPACE)
  }

  /** `c` is one of the characters of `cs`, searched from the front. */
  predicate Occurs(c: char, cs: string) {
    |cs| > 0 && (cs[0] == c || Occurs(c, cs[1..]))
  }

  lemma {:induction false} OccursIff(c: char, cs: string)
    ensures Occurs(c, cs) <==> c in cs
  {
    if |cs| > 0 {
      OccursIff(c, cs[1..]);
      assert cs == [cs[0]] + cs[1..];
    }
  }

  /** No visible ASCII character (letters, digits, punctuation) is whitespace. */
  lemma VisibleAsciiIsNotWhitespace(c: char)
    requires '!' <= c <= '~'
    ensures !IsWhitespace(c)
  {
    OccursIff(c, WHITESPACE);
  }

  predicate AllWhitespace(s: string) {
    forall i :: 0 <= i < |s| ==> IsWhitespace(s[i])
  }

  /** Drops the leading whitespace: the result is a suffix of `s`. */
  function TrimStart(s: string): (r: string)
    ensures |r| <= |s| && r == s[|s| - |r|..]
  {
    if |s| > 0 && IsWhitespace(s[0]) then TrimStart(s[1..]) else s
  }

  /** Drops the trailing whitespace: the result is a prefix of `s`. */
  function TrimEnd(s: string): (r: string)
    ensures |r| <= |s| && r == s[..|r|]
  {
    if |s| > 0 && IsWhitespace(s[|s| - 1]) then TrimEnd(s[..|s| - 1]) else s
  }

  /** `s.trim()` */
  function Trim(s: string): string {
    TrimEnd(TrimStart(s))
  }

  /** TrimStart removes exactly the leading run of whitespace. */
  lemma {:induction false} TrimStartSkipsWhitespace(s: string)
    ensures var r := TrimStart(s);
      (r == [] || !IsWhitespace(r[0])) && AllWhitespace(s[..|s| - |r|])
    decreases |s|
  {
    if |s| > 0 && IsWhitespace(s[0]) {
      TrimStartSkipsWhitespace(s[1..]);
      var r := TrimStart(s);
      assert s[..|s| - |r|] == [s[0]] + s[1..][..|s| - 1 - |r|];
    }
  }

  /** TrimEnd removes exactly the trailing run of whitespace. */
  lemma {:induction false} TrimEndSkipsWhitespace(s: string)
    ensures var r := TrimEnd(s);
      (r == [] || !IsWhitespace(r[|r| - 1])) && AllWhitespace(s[|r|..])
    decreases |s|
  {
    if |s| > 0 && IsWhitespace(s[|s| - 1]) {
      TrimEndSkipsWhitespace(s[..|s| - 1]);
      var r := TrimEnd(s);
      assert s[|r|..] == s[..|s| - 1][|r|..] + [s[|s| - 1]];
    }
  }

  /** `s.trim()` is the empty string exactly when every character of `s` is whitespace. */
  lemma {:induction false} TrimEmptyIff(s: string)
    ensures Trim(s) == [] <==> AllWhitespace(s)
  {
    var t := TrimStart(s);
    TrimStartSkipsWhitespace(s);
    TrimEndSkipsWhitespace(t);
    assert s == s[..|s| - |t|] + t;
  }

  /** The trimmed string lies inside `s`, so it is never longer. */
  lemma TrimShorter(s: string)
    ensures |Trim(s)| <= |s|
    ensures Trim(s) != [] ==> |s| >= 1
  {
  }

  /**
   * validateMessage: the emptiness check runs first, then the maximum length
   * on the UNTRIMMED message, then the minimum length.
   */
  function ValidateMessage(message: string): (r: ValidationResult)
    ensures r.isValid <==> Trim(message) != [] && |message| <= MAX_MESSAGE_LENGTH
    ensures r.isValid <==> r.error == None
    ensures r.error != Some(TOO_SHORT_ERROR)
  {
    TrimShorter(message);
    if Trim(message) == [] then
      Invalid(EMPTY_MESSAGE_ERROR)
    else if |message| > MAX_MESSAGE_LENGTH then
      Invalid(TOO_LONG_ERROR)
    else if |message| < MIN_MESSAGE_LENGTH then
      Invalid(TOO_SHORT_ERROR)
    else
      Accepted()
  }

  /**
   * A whitespace-only message gets the empty-message error whatever its
   * length, even when it is also over the maximum.
   */
  lemma {:induction false} WhitespaceOnlyIsEmpty(message: string)
    requires AllWhitespace(message)
    ensures ValidateMessage(message) == Invalid(EMPTY_MESSAGE_ERROR)
  {
    TrimEmptyIff(message);
  }

  /** A message with some non-whitespace content is too long exactly when its untrimmed length exceeds 4000. */
  lemma {:induction false} TooLongIff(message: string)
    requires !AllWhitespace(message)
    ensures ValidateMessage(message).error == Some(TOO_LONG_ERROR) <==> |message| > 4000
    ensures ValidateMessage(message).isValid <==> |message| <= 4000
  {
    TrimEmptyIff(message);
  }

  /** Every rejected message carries one of the two reachable errors. */
  lemma ReachableMessageErrors(message: string)
    ensures var r := ValidateMessage(message);
      !r.isValid ==> r.error == Some(EMPTY_MESSAGE_ERROR) || r.error == Some(TOO_LONG_ERROR)
  {
  }

  /**
   * validateApiKey, with `process.env.NEXT_PUBLIC_GOOGLE_API_KEY` passed in:
   * `None` is an unset variable; the empty string is falsy and counts as unset too.
   */
  function ValidateApiKey(apiKey: Option<string>): (r: ValidationResult)
    ensures r.isValid <==> apiKey.Some? && |apiKey.value| >= MIN_API_KEY_LENGTH
    ensures r.isValid <==> r.error == None
    ensures apiKey == None || apiKey == Some("") ==> r.error == Some(KEY_NOT_CONFIGURED_ERROR)
    ensures apiKey.Some? && 1 <= |apiKey.value| < 10 ==> r.error == Some(KEY_FORMAT_ERROR)
  {
    if apiKey == None || apiKey == Some("") then
      Invalid(KEY_NOT_CONFIGURED_ERROR)
    else if |apiKey.value| < MIN_API_KEY_LENGTH then
      Invalid(KEY_FORMAT_ERROR)
    else
      Accepted()
  }
}
