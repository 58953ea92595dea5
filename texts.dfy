/**
 The small pure helpers of the bot: the caption join used for every admin
 notification, and the callback data of the "Reply" button, which encodes a
 user id as decimal text and is parsed back when the button is pressed.
 */
module Texts {
  import opened Platform

  const SEPARATOR: string := "\n\n"
  const REPLY_PREFIX: string := "reply:"
  const CANCEL_DATA: string := "cancel"
  const REPLY_LABEL: string := "Ответить"
  const CANCEL_LABEL: string := "Отмена"

  /**
   The inverse of AdminCaption for a known prefix: "" when nothing follows the
   prefix, the text after the separator when the separator follows it, and
   None when anything else follows it.
   */
  function CaptionBody(prefix: string, caption: string): Option<string>
    requires prefix <= caption
  {
    var rest := caption[|prefix|..];
    if rest == "" then Some("")
    else if |rest| >= |SEPARATOR| && rest[..|SEPARATOR|] == SEPARATOR then Some(rest[|SEPARATOR|..])
    else None
  }

  /**
   The notification text: the prefix alone when there is no text, otherwise the
   prefix, a blank line and the text. The prefix is always kept whole and the
   text can always be recovered from the result.
   */
  function AdminCaption(prefix: string, text: string): (r: string)
    ensures prefix <= r
    ensures r == prefix <==> text == ""
    ensures CaptionBody(prefix, r) == Some(text)
  {
    if text != "" then
      var r := prefix + SEPARATOR + text;
      assert r[..|prefix|] == prefix;
      assert r[|prefix|..] == SEPARATOR + text;
      r
    else prefix
  }

  // ---------------------------------------------------------------------
  // Decimal text of integers, as Python's str() writes and int() reads it

  predicate IsDigit(c: char) {
    '0' <= c <= '9'
  }

  predicate AllDigits(s: string) {
    forall i :: 0 <= i < |s| ==> IsDigit(s[i])
  }

  function DigitChar(d: nat): (c: char)
    requires d < 10
    ensures IsDigit(c) && c as int - '0' as int == d
  {
    (('0' as int) + d) as char
  }

  function DigitValue(c: char): nat
    requires IsDigit(c)
  {
    c as int - '0' as int
  }

  /** The shortest decimal text of n (no sign, no leading zeros). */
  function NatToDecimal(n: nat): (s: string)
    ensures |s| > 0 && AllDigits(s)
  {
    if n < 10 then [DigitChar(n)] else NatToDecimal(n / 10) + [DigitChar(n % 10)]
  }

  /** The number a non-empty run of decimal digits denotes (leading zeros allowed). */
  function DecimalValue(s: string): nat
    requires AllDigits(s)
  {
    if s == [] then 0 else DecimalValue(s[..|s| - 1]) * 10 + DigitValue(s[|s| - 1])
  }

  lemma {:induction false} DecimalRoundTrip(n: nat)
    ensures DecimalValue(NatToDecimal(n)) == n
  {
    var s := NatToDecimal(n);
    if n >= 10 {
      DecimalRoundTrip(n / 10);
      assert s[..|s| - 1] == NatToDecimal(n / 10);
    }
  }

  /** `str(n)` for an int: a minus sign before the magnitude when negative. */
  function IntToDecimal(n: int): string {
    if n < 0 then "-" + NatToDecimal(-n) else NatToDecimal(n)
  }

  /**
   `int(s)` restricted to an optional sign followed by at least one ASCII
   digit; anything else is the ValueError case, None.
   */
  function ParseInt(s: string): Option<int> {
    if |s| > 0 && (s[0] == '-' || s[0] == '+') then
      var digits := s[1..];
      if |digits| > 0 && AllDigits(digits) then
        Some(if s[0] == '-' then -(DecimalValue(digits) as int) else DecimalValue(digits))
      else None
    else if |s| > 0 && AllDigits(s) then Some(DecimalValue(s))
    else None
  }

  /** The callback data of the "Reply" button for a user. */
  function ReplyData(userId: int): string {
    REPLY_PREFIX + IntToDecimal(userId)
  }

  /**
   What the reply-button handler reads from callback data: the integer after
   the first colon of data that starts with the reply prefix.
   */
  function ParseReplyData(data: string): Option<int> {
    if |data| >= |REPLY_PREFIX| && data[..|REPLY_PREFIX|] == REPLY_PREFIX then
      ParseInt(data[|REPLY_PREFIX|..])
    else None
  }

  /** `int` reads back every text `str` writes for an integer. */
  lemma {:induction false} IntDecimalRoundTrip(n: int)
    ensures ParseInt(IntToDecimal(n)) == Some(n)
  {
    var m: nat := if n < 0 then -n else n;
    var digits := NatToDecimal(m);
    DecimalRoundTrip(m);
    assert IsDigit(digits[0]);
    if n < 0 {
      var s := "-" + digits;
      assert s[0] == '-' && s[1..] == digits;
    }
  }

  /** The user id written into a button is the one read back when it is pressed. */
  lemma ReplyDataRoundTrip(userId: int)
    ensures ParseReplyData(ReplyData(userId)) == Some(userId)
  {
    var data := ReplyData(userId);
    assert data[..|REPLY_PREFIX|] == REPLY_PREFIX;
    assert data[|REPLY_PREFIX|..] == IntToDecimal(userId);
    IntDecimalRoundTrip(userId);
  }

  /**
   The keyboard attached to every notification: a "Reply" button bound to the
   user, whose data parses back to that user, and a "Cancel" button.
   */
  function ReplyKeyboard(userId: int): (k: Keyboard)
    ensures |k| == 2 && |k[0]| == 1 && k[1] == [Button(CANCEL_LABEL, CANCEL_DATA)]
    ensures k[0][0].title == REPLY_LABEL && ParseReplyData(k[0][0].data) == Some(userId)
  {
    ReplyDataRoundTrip(userId);
    [[Button(REPLY_LABEL, ReplyData(userId))], [Button(CANCEL_LABEL, CANCEL_DATA)]]
  }
}
