/**
 * The string and time helpers of src/utils/helpers.ts, with the constants
 * of src/utils/constants.ts they use.
 */
module Helpers {
  import opened Strings

  /** `MAX_MESSAGE_LENGTH`. */
  const MaxMessageLength: nat := 4096

  // ---------------------------------------------------------------------------
  // Phone numbers
  // ---------------------------------------------------------------------------

  /**
   * What `PHONE_REGEX` (`/^\+[1-9]\d{1,14}$/`) accepts: a plus sign, a
   * digit 1-9, then 1 to 14 further digits, and nothing else.
   */
  predicate IsE164(phone: string) {
    && 3 <= |phone| <= 16
    && phone[0] == '+'
    && '1' <= phone[1] <= '9'
    && forall i :: 2 <= i < |phone| ==> IsDigit(phone[i])
  }

  /**
   * `\d{min,max}$`: between `min` and `max` digits up to the end of the
   * input, matched one digit at a time.
   */
  function MatchDigits(s: string, min: nat, max: nat): bool
  {
    if s == [] then min == 0
    else max > 0 && IsDigit(s[0]) && MatchDigits(s[1..], if min > 0 then min - 1 else 0, max - 1)
  }

  lemma {:induction false} MatchDigitsCount(s: string, min: nat, max: nat)
    ensures MatchDigits(s, min, max) <==> min <= |s| <= max && AllDigits(s)
  {
    if s != [] && max > 0 {
      MatchDigitsCount(s[1..], if min > 0 then min - 1 else 0, max - 1);
      if AllDigits(s[1..]) && IsDigit(s[0]) {
        assert AllDigits(s);
      }
    }
  }

  /** `isValidPhoneNumber`: the regular expression, matched left to right. */
  function IsValidPhoneNumber(phone: string): (valid: bool)
    ensures valid <==> IsE164(phone)
  {
    MatchDigitsCount(if |phone| >= 2 then phone[2..] else [], 1, 14);
    && |phone| >= 2
    && phone[0] == '+'
    && '1' <= phone[1] <= '9'
    && MatchDigits(phone[2..], 1, 14)
  }

  /**
   * `formatPhoneNumber`: the decimal digits of the input, in order, after a
   * plus sign. The branch for 11-digit numbers starting with 1 gives the
   * same string as the general case.
   */
  function FormatPhoneNumber(phone: string): (r: string)
    ensures r == "+" + Keep(phone, IsDigit)
    ensures |r| >= 1 && r[0] == '+' && AllDigits(r[1..])
  {
    var digits := Keep(phone, IsDigit);
    if |digits| == 11 && digits[0] == '1' then "+" + digits else "+" + digits
  }

  /** Formatting a formatted number changes nothing. */
  lemma FormatPhoneNumberIdempotent(phone: string)
    ensures FormatPhoneNumber(FormatPhoneNumber(phone)) == FormatPhoneNumber(phone)
  {
    var digits := Keep(phone, IsDigit);
    KeepConcat("+", digits, IsDigit);
    assert Keep("+", IsDigit) == [] by {
      assert "+"[1..] == [];
    }
    KeepAll(digits, IsDigit);
  }

  /** A valid number is left unchanged by formatting. */
  lemma FormatValidPhoneNumber(phone: string)
    requires IsValidPhoneNumber(phone)
    ensures FormatPhoneNumber(phone) == phone
  {
    assert phone == "+" + phone[1..];
    KeepConcat("+", phone[1..], IsDigit);
    assert Keep("+", IsDigit) == [] by {
      assert "+"[1..] == [];
    }
    KeepAll(phone[1..], IsDigit);
  }

  // ---------------------------------------------------------------------------
  // Messages
  // ---------------------------------------------------------------------------

  /**
   * `truncateMessage`: a message within the limit is returned as it is; a
   * longer one is cut to its first 4093 characters followed by "...",
   * which is exactly the limit.
   */
  function TruncateMessage(message: string): (r: string)
    ensures |r| <= MaxMessageLength
    ensures |message| <= MaxMessageLength ==> r == message
    ensures |message| > MaxMessageLength ==>
      && |r| == MaxMessageLength
      && StartsWith(message, r[..MaxMessageLength - 3])
      && r[MaxMessageLength - 3..] == "..."
  {
    if |message| <= MaxMessageLength then message
    else message[..MaxMessageLength - 3] + "..."
  }

  /** Truncating twice is truncating once. */
  lemma TruncateMessageIdempotent(message: string)
    ensures TruncateMessage(TruncateMessage(message)) == TruncateMessage(message)
  {
  }

  // ---------------------------------------------------------------------------
  // Time differences
  // ---------------------------------------------------------------------------

  const MinuteMs: nat := 60 * 1000
  const HourMs: nat := 60 * MinuteMs
  const DayMs: nat := 24 * HourMs

  /** `${n} <unit>` followed by "s" when n > 1. */
  function Quantity(n: nat, unit: string): string {
    NatToString(n) + " " + unit + (if n > 1 then "s" else "")
  }

  /**
   * The count is followed by a plural unit exactly when it is above one,
   * so "0 minute" and "1 minute" are singular.
   */
  lemma QuantityPlural(n: nat, unit: string)
    requires |unit| > 0 && unit[|unit| - 1] != 's'
    ensures var q := Quantity(n, unit);
      StartsWith(q, NatToString(n) + " " + unit) && (q[|q| - 1] == 's' <==> n > 1)
  {
  }

  function Abs(x: int): nat { if x < 0 then -x else x }

  /**
   * `getTimeDifference` for two instants given as integer milliseconds (what
   * `getTime()` returns): whole days when at least a day has elapsed, else
   * whole hours when at least an hour has, else whole minutes.
   */
  function GetTimeDifference(time1: int, time2: int): (r: string)
    ensures Abs(time2 - time1) >= DayMs ==> r == Quantity(Abs(time2 - time1) / DayMs, "day")
    ensures HourMs <= Abs(time2 - time1) < DayMs ==> r == Quantity(Abs(time2 - time1) / HourMs, "hour")
    ensures Abs(time2 - time1) < HourMs ==> r == Quantity(Abs(time2 - time1) / MinuteMs, "minute")
  {
    var diff := Abs(time2 - time1);
    DayHourMinute(diff);
    var days := diff / DayMs;
    var hours := (diff % DayMs) / HourMs;
    var minutes := (diff % HourMs) / MinuteMs;
    if days > 0 then Quantity(days, "day")
    else if hours > 0 then Quantity(hours, "hour")
    else Quantity(minutes, "minute")
  }

  /** How the day, hour and minute counts relate to the elapsed milliseconds. */
  lemma DayHourMinute(diff: nat)
    ensures diff / DayMs > 0 <==> diff >= DayMs
    ensures diff < DayMs ==> (diff % DayMs) / HourMs == diff / HourMs
    ensures diff < DayMs ==> (diff / HourMs > 0 <==> diff >= HourMs)
    ensures diff < HourMs ==> (diff % HourMs) / MinuteMs == diff / MinuteMs
  {
    assert DayMs == 86400000 && HourMs == 3600000 && MinuteMs == 60000;
  }

  /** The difference does not depend on the order of the two instants. */
  lemma GetTimeDifferenceSymmetric(time1: int, time2: int)
    ensures GetTimeDifference(time1, time2) == GetTimeDifference(time2, time1)
  {
    assert Abs(time2 - time1) == Abs(time1 - time2);
  }

  // ---------------------------------------------------------------------------
  // Capitalisation
  // ---------------------------------------------------------------------------

  /** `toUpperCase` of a word character: only a-z change. */
  function UpperWordChar(c: char): (u: char)
    ensures IsWordChar(u) <==> IsWordChar(c)
    ensures 'a' <= c <= 'z' ==> 'A' <= u <= 'Z' && u as int == c as int - 32
    ensures !('a' <= c <= 'z') ==> u == c
  {
    if 'a' <= c <= 'z' then (c as int - 32) as char else c
  }

  /**
   * `str.replace(/\b\w/g, l => l.toUpperCase())` on the rest `s` of the
   * string, where `afterWord` says whether the character before `s` is a
   * word character.
   */
  function CapitalizeFrom(s: string, afterWord: bool): string
  {
    if s == [] then []
    else [if IsWordChar(s[0]) && !afterWord then UpperWordChar(s[0]) else s[0]]
         + CapitalizeFrom(s[1..], IsWordChar(s[0]))
  }

  /** The character at index i of `capitalizeWords(s)`. */
  function CapitalizedAt(s: string, i: nat): char
    requires i < |s|
  {
    if IsWordChar(s[i]) && (i == 0 || !IsWordChar(s[i - 1])) then UpperWordChar(s[i]) else s[i]
  }

  lemma {:induction false} CapitalizeFromAt(s: string, afterWord: bool, i: nat)
    requires i < |s|
    ensures |CapitalizeFrom(s, afterWord)| == |s|
    ensures CapitalizeFrom(s, afterWord)[i] ==
      if IsWordChar(s[i]) && !(if i == 0 then afterWord else IsWordChar(s[i - 1]))
      then UpperWordChar(s[i]) else s[i]
  {
    if i > 0 {
      CapitalizeFromAt(s[1..], IsWordChar(s[0]), i - 1);
    } else if |s| > 1 {
      CapitalizeFromAt(s[1..], IsWordChar(s[0]), 0);
    } else {
      assert s[1..] == [];
    }
  }

  lemma CapitalizeFromEvery(s: string)
    ensures |CapitalizeFrom(s, false)| == |s|
    ensures forall i :: 0 <= i < |s| ==> CapitalizeFrom(s, false)[i] == CapitalizedAt(s, i)
  {
    if s == [] {
    } else {
      CapitalizeFromAt(s, false, 0);
      forall i | 0 <= i < |s| ensures CapitalizeFrom(s, false)[i] == CapitalizedAt(s, i) {
        CapitalizeFromAt(s, false, i);
      }
    }
  }

  /**
   * `capitalizeWords`: the same length, and a character is upper-cased
   * exactly when it is a word character at the start of the string or after
   * a non-word character; every other character is kept.
   */
  function CapitalizeWords(s: string): (r: string)
    ensures |r| == |s|
    ensures forall i :: 0 <= i < |s| ==> r[i] == CapitalizedAt(s, i)
  {
    CapitalizeFromEvery(s);
    CapitalizeFrom(s, false)
  }

  /** Capitalising twice is capitalising once. */
  lemma CapitalizeWordsIdempotent(s: string)
    ensures CapitalizeWords(CapitalizeWords(s)) == CapitalizeWords(s)
  {
    var r := CapitalizeWords(s);
    var rr := CapitalizeWords(r);
    forall i | 0 <= i < |s| ensures rr[i] == r[i] {
      assert IsWordChar(r[i]) <==> IsWordChar(s[i]);
      if i > 0 {
        assert IsWordChar(r[i - 1]) <==> IsWordChar(s[i - 1]);
      }
    }
  }
}
