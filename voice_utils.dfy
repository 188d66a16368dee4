/**
 * String helpers of the voice-call server (AI_tool_dev/utils.py): phone
 * numbers toward the ITU-T E.164 "+digits" shape, a digit-count check, and
 * whitespace collapsing with truncation.
 */
module VoiceUtils {
  import opened Wrappers
  import opened Text

  /** `+` followed by digits only: the shape E.164 numbers are written in. */
  predicate PlusDigits(s: string) {
    |s| >= 1 && s[0] == '+' && forall i :: 1 <= i < |s| ==> IsDigit(s[i])
  }

  /**
   * `format_phone_number`: a number already starting with `+` is kept as it
   * is; otherwise its digits are prefixed with `+1` when there are exactly ten
   * of them (a US number) and with `+` alone otherwise.
   */
  function FormatPhoneNumber(phone: string): (r: string)
    ensures StartsWith(r, "+")
    ensures StartsWith(phone, "+") ==> r == phone
    ensures !StartsWith(phone, "+") ==> PlusDigits(r)
    ensures !StartsWith(phone, "+") ==>
      r[1..] == (if |DigitsOf(phone)| == 10 then "1" + DigitsOf(phone) else DigitsOf(phone))
  {
    var digits := DigitsOf(phone);
    if !StartsWith(phone, "+") then
      if |digits| == 10 then "+1" + digits else "+" + digits
    else phone
  }

  /** `validate_phone_number`: between 10 and 15 digits, whatever else the text holds. */
  predicate ValidatePhoneNumber(phone: string)
    ensures ValidatePhoneNumber(phone) <==> 10 <= |DigitsOf(phone)| <= 15
    ensures ValidatePhoneNumber(phone) ==> |phone| >= 10
  {
    !(|DigitsOf(phone)| < 10 || |DigitsOf(phone)| > 15)
  }

  /** Formatting twice is formatting once: a formatted number starts with `+`. */
  lemma FormatIdempotent(phone: string)
    ensures FormatPhoneNumber(FormatPhoneNumber(phone)) == FormatPhoneNumber(phone)
  {
  }

  /** Formatting never changes whether a number is valid. */
  lemma {:induction false} FormatKeepsValidity(phone: string)
    ensures ValidatePhoneNumber(FormatPhoneNumber(phone)) == ValidatePhoneNumber(phone)
  {
    if !StartsWith(phone, "+") {
      var d := DigitsOf(phone);
      var r := FormatPhoneNumber(phone);
      DigitsOfDigits(d);
      if |d| == 10 {
        assert r == "+" + ("1" + d);
        DigitsOfAppend("+", "1" + d);
        DigitsOfAppend("1", d);
        assert DigitsOf("+") == "" && DigitsOf("1") == "1";
        assert |DigitsOf(r)| == 11;
      } else {
        assert r == "+" + d;
        DigitsOfAppend("+", d);
        assert DigitsOf("+") == "";
        assert DigitsOf(r) == d;
      }
    }
  }

  /** A prefix of a collapsed string followed by "..." is collapsed. */
  lemma TruncatedCollapsed(c: string, k: nat)
    requires Collapsed(c) && k <= |c|
    ensures Collapsed(c[..k] + "...")
  {
    var t := c[..k] + "...";
    forall i | 0 <= i < |t| - 1
      ensures !(IsSpace(t[i]) && IsSpace(t[i + 1]))
    {
      if i + 1 < k {
        assert t[i] == c[i] && t[i + 1] == c[i + 1];
      } else {
        assert t[i + 1] == '.';
      }
    }
    assert k > 0 ==> t[0] == c[0];
  }

  /** The default `max_length` of `sanitize_text`. */
  const DefaultMaxLength := 500

  /**
   * `sanitize_text`: empty or missing text gives "". Otherwise whitespace runs
   * become single spaces and the ends are trimmed; text longer than
   * `maxLength` is cut to `maxLength` characters and marked with "...".
   */
  function SanitizeText(text: Option<string>, maxLength: int): (r: string)
    ensures text.None? || text == Some("") ==> r == ""
    ensures Collapsed(r)
    ensures text.Some? && text.value != "" && |Collapse(text.value)| <= maxLength ==> r == Collapse(text.value)
    ensures text.Some? && text.value != "" && |Collapse(text.value)| > maxLength ==>
      r == PyPrefix(Collapse(text.value), maxLength) + "..."
    ensures maxLength >= 0 ==> |r| <= maxLength + 3
  {
    if text.None? || text.value == "" then ""
    else
      var collapsed := Collapse(text.value);
      var cut := if |collapsed| > maxLength then PyPrefix(collapsed, maxLength) + "..." else collapsed;
      assert Collapsed(cut) by {
        if |collapsed| > maxLength {
          TruncatedCollapsed(collapsed, |PyPrefix(collapsed, maxLength)|);
        }
      }
      StripStripped(cut);
      Strip(cut)
  }

  /** With the default length a sanitized text has at most 500 characters before the "..." mark. */
  lemma DefaultSanitizeBound(text: Option<string>)
    ensures |SanitizeText(text, DefaultMaxLength)| <= 503
  {
  }
}
