/**
 * The Go service's request validators. Each answers nil or one error text.
 * Go's `len` counts the bytes of a string's UTF-8 encoding, so the body limit
 * is in bytes where the Rails validation counts characters.
 */
module Validator {
  import opened Common
  import opened Text
  import ApplicationModel
  import MessageModel

  /** The exact length `ValidateToken` demands, and the repetition count of its pattern. */
  const TokenLength: nat := 20

  /** The largest body, in bytes, `ValidateMessageBody` lets through. */
  const MaxBodyBytes: nat := 5000

  /**
   * `^[a-f0-9]{20}$`: twenty characters, each a lower-case hex digit. Go's `$`
   * without the `m` flag anchors at the end of the text only.
   */
  predicate MatchesTokenPattern(s: string) {
    |s| == TokenLength && forall i :: 0 <= i < |s| ==> IsLowerHex(s[i])
  }

  /** Lower-case hex digits are ASCII, one byte each. */
  lemma HexTextIsAscii(s: string)
    ensures (forall i :: 0 <= i < |s| ==> IsLowerHex(s[i])) ==> Utf8Length(s) == |s|
  {
    Utf8LengthIsCharsIffAscii(s);
  }

  /**
   * `ValidateToken`: empty, then the byte length, then the pattern. A token
   * passes exactly when it matches the pattern.
   */
  function ValidateToken(token: string): (err: Option<string>)
    ensures err == None <==> MatchesTokenPattern(token)
    ensures token == [] ==> err == Some("token is required")
    ensures token != [] && Utf8Length(token) != TokenLength ==> err == Some("token must be exactly 20 characters")
    ensures Utf8Length(token) == TokenLength && !MatchesTokenPattern(token) ==> err == Some("token must be hexadecimal")
  {
    HexTextIsAscii(token);
    if token == [] then Some("token is required")
    else if Utf8Length(token) != TokenLength then Some("token must be exactly 20 characters")
    else if !MatchesTokenPattern(token) then Some("token must be hexadecimal")
    else None
  }

  /** Upper-case hex is rejected: the pattern's class is lower-case only. */
  lemma UpperCaseTokenRejected(token: string, i: int)
    requires 0 <= i < |token| && 'A' <= token[i] <= 'F'
    ensures ValidateToken(token).Some?
  {
    assert !IsLowerHex(token[i]);
  }

  /** A token the Rails model generates always passes the Go check. */
  lemma GeneratedTokenPasses(random: seq<byte>)
    requires |random| == ApplicationModel.TokenBytes
    ensures ValidateToken(ApplicationModel.GenerateToken(None, random)) == None
  {
    var t := ApplicationModel.GenerateToken(None, random);
    assert MatchesTokenPattern(t);
  }

  /** `ValidateMessageBody`: empty, then more than `MaxBodyBytes` bytes. */
  function ValidateMessageBody(body: string): (err: Option<string>)
    ensures err == None <==> body != [] && Utf8Length(body) <= MaxBodyBytes
    ensures body == [] ==> err == Some("message body is required")
    ensures body != [] && Utf8Length(body) > MaxBodyBytes ==> err == Some("message body must be less than 5000 characters")
  {
    if body == [] then Some("message body is required")
    else if Utf8Length(body) > MaxBodyBytes then Some("message body must be less than 5000 characters")
    else None
  }

  /** `ValidateChatNumber`: chat numbers start at 1. */
  function ValidateChatNumber(number: int): (err: Option<string>)
    ensures err == None <==> number >= 1
    ensures err != None ==> err == Some("chat number must be positive")
  {
    if number < 1 then Some("chat number must be positive") else None
  }

  /** A body Go accepts has between 1 and 5000 characters, so the Rails length rule accepts it too. */
  lemma GoAcceptedBodyFitsRailsLength(body: string)
    requires ValidateMessageBody(body) == None
    ensures 1 <= |body| <= MessageModel.MaxBodyLength
  {
    Utf8LengthBounds(body);
  }

  /** On ASCII text the two limits coincide. */
  lemma AsciiBodyLimitsAgree(body: string)
    requires IsAscii(body)
    ensures ValidateMessageBody(body) == None <==> 1 <= |body| <= MessageModel.MaxBodyLength
  {
    Utf8LengthIsCharsIffAscii(body);
  }

  /** `n` copies of one character take `n` times its width. */
  lemma {:induction false} Utf8LengthOfRepeat(c: char, n: nat)
    ensures Utf8Length(seq(n, _ => c)) == n * Utf8Width(c)
  {
    if n > 0 {
      var s := seq(n, _ => c);
      assert s[..n - 1] == seq(n - 1, _ => c);
      Utf8LengthOfRepeat(c, n - 1);
    }
  }

  /** A blank but non-empty body: Go accepts it, the Rails presence rule rejects it. */
  lemma WhitespaceBodyPassesOnlyGo()
    ensures ValidateMessageBody(" ") == None
    ensures MessageModel.BodyErrors(Some(" ")) == ["Body can't be blank"]
  {
    assert Utf8Length(" ") == 1 by {
      assert " "[..0] == [];
    }
  }

  /**
   * 2501 copies of 'é' (two bytes each): 2501 characters for Rails, 5002 bytes
   * for Go, so only Rails accepts the body.
   */
  lemma MultibyteBodyPassesOnlyRails()
    ensures
      var body := seq(2501, _ => 'é');
      && MessageModel.BodyErrors(Some(body)) == []
      && ValidateMessageBody(body) == Some("message body must be less than 5000 characters")
  {
    var body := seq(2501, _ => 'é');
    Utf8LengthOfRepeat('é', 2501);
    assert !IsSpace(body[0]);
  }
}
