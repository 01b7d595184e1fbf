/**
 * The `createdAt` timestamps of links and their text form.
 *
 * A JavaScript `Date` is either a time value (milliseconds since the epoch,
 * at most 8.64e15 away from it) or the invalid date. On save a date becomes
 * text (`toISOString`, which throws on the invalid date); on load the text
 * becomes a date again (`new Date(text)`, which yields the invalid date for
 * text it cannot read). The calendar layout of ISO-8601 is not modelled: the
 * text form here is the signed decimal count of milliseconds. What the rest of
 * the model relies on is proved below: reading back what was written gives the
 * same instant.
 */
module Timestamp {
  import opened Wrappers

  /** The largest distance from the epoch, in milliseconds, that a `Date` can hold. */
  const MaxTime: int := 8_640_000_000_000_000

  type TimeValue = ms: int | -MaxTime <= ms <= MaxTime

  datatype Date = Instant(ms: TimeValue) | InvalidDate

  predicate IsDigit(c: char) {
    '0' <= c <= '9'
  }

  function DigitChar(d: nat): (c: char)
    requires d < 10
    ensures IsDigit(c)
  {
    ('0' as int + d) as char
  }

  function DigitValue(c: char): (d: Option<nat>)
    ensures d.Some? <==> IsDigit(c)
    ensures d.Some? ==> d.value < 10 && DigitChar(d.value) == c
  {
    if IsDigit(c) then Some(c as int - '0' as int) else None
  }

  /** The decimal digits of `n`, most significant first, without leading zeros. */
  function NatToText(n: nat): (s: string)
    ensures |s| > 0
    ensures forall k | 0 <= k < |s| :: IsDigit(s[k])
  {
    if n < 10 then [DigitChar(n)] else NatToText(n / 10) + [DigitChar(n % 10)]
  }

  /** Reads a non-empty string of decimal digits; anything else is not a number. */
  function TextToNat(s: string): Option<nat>
    decreases |s|
  {
    if |s| == 0 then None
    else
      var last := DigitValue(s[|s| - 1]);
      if last.None? then None
      else if |s| == 1 then last
      else
        match TextToNat(s[..|s| - 1])
        case None => None
        case Some(prefix) => Some(prefix * 10 + last.value)
  }

  lemma {:induction false} TextToNatInverse(n: nat)
    ensures TextToNat(NatToText(n)) == Some(n)
  {
    if n >= 10 {
      var s := NatToText(n);
      TextToNatInverse(n / 10);
      assert s[..|s| - 1] == NatToText(n / 10);
      assert DigitValue(s[|s| - 1]) == Some(n % 10);
    }
  }

  /** `Date.prototype.toISOString`: the text of a valid date; the invalid date has none (it throws). */
  function ToIso(d: Date): (r: Option<string>)
    ensures r.Some? <==> d.Instant?
  {
    match d
    case InvalidDate => None
    case Instant(ms) => Some(if ms < 0 then "-" + NatToText(-ms) else NatToText(ms))
  }

  /** `new Date(text)`: the instant the text names, or the invalid date. */
  function FromIso(s: string): Date {
    var magnitude := if |s| > 0 && s[0] == '-' then TextToNat(s[1..]) else TextToNat(s);
    if magnitude.None? || magnitude.value > MaxTime then InvalidDate
    else if |s| > 0 && s[0] == '-' then Instant(-magnitude.value)
    else Instant(magnitude.value)
  }

  /** Reading back the text of a valid date gives the same instant. */
  lemma {:induction false} IsoRoundTrip(d: Date)
    requires d.Instant?
    ensures FromIso(ToIso(d).value) == d
  {
    var ms := d.ms;
    if ms < 0 {
      var s := ToIso(d).value;
      assert s[0] == '-' && s[1..] == NatToText(-ms);
      TextToNatInverse(-ms);
    } else {
      var s := NatToText(ms);
      assert IsDigit(s[0]);
      TextToNatInverse(ms);
    }
  }
}
