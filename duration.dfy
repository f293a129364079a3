/**
 * The duration badge of src/components/cards/TidalVideoCard.tsx: `formatDuration`
 * renders whole seconds as minutes, a colon and two-digit seconds.
 */
module Duration {
  import opened Wrappers
  import opened Text
  import opened Decimal

  /** `String(n)` for an integer. */
  function IntToString(n: int): string {
    if n < 0 then "-" + NatToString(-n) else NatToString(n)
  }

  /** `s.padStart(2, '0')` */
  function PadStart2(s: string): (r: string)
    ensures |r| == if |s| >= 2 then |s| else 2
  {
    if |s| >= 2 then s else seq(2 - |s|, _ => '0') + s
  }

  /** JavaScript's `%`, whose remainder takes the sign of the dividend. */
  function JsRem(a: int, b: int): int
    requires b > 0
  {
    if a >= 0 then a % b else -((-a) % b)
  }

  /**
   * `formatDuration(seconds)` for a whole number of seconds. `Math.floor(seconds / 60)`
   * is Dafny's `/` here, since the divisor is positive.
   */
  function FormatDuration(seconds: int): string {
    IntToString(seconds / 60) + ":" + PadStart2(IntToString(JsRem(seconds, 60)))
  }

  /** The two-digit field of `s` seconds, `0 <= s < 60`. */
  lemma TwoDigits(secs: nat)
    requires secs < 60
    ensures |PadStart2(IntToString(secs))| == 2 && AllDigits(PadStart2(IntToString(secs)))
    ensures ParseNat(PadStart2(IntToString(secs))) == Some(secs)
  {
    var t := PadStart2(IntToString(secs));
    if secs < 10 {
      assert t == ['0', DigitChar(secs)];
      assert t[..1] == ['0'] && t[..1][..0] == [];
      assert DigitsValue(t) == DigitsValue(t[..1]) * 10 + DigitValue(t[1]);
    } else {
      assert NatToString(secs) == NatToString(secs / 10) + [DigitChar(secs % 10)];
      ParseNatToString(secs);
    }
  }

  /** A badge reads back: minutes before the only colon, exactly two digits of seconds after it. */
  function ParseDuration(text: string): Option<nat> {
    var i := IndexOf(text, ":");
    if i == -1 then None
    else
      var minutes, secs := ParseNat(text[..i]), ParseNat(text[i + 1..]);
      if minutes.Some? && secs.Some? && |text[i + 1..]| == 2 && secs.value < 60
      then Some(minutes.value * 60 + secs.value)
      else None
  }

  /**
   * For non-negative seconds: the minutes and the seconds field add back up to the input,
   * the seconds field is two digits below 60, and the text parses back to the input.
   */
  lemma FormatDurationFacts(seconds: nat)
    ensures var mins, secs := seconds / 60, seconds % 60;
      mins * 60 + secs == seconds && secs < 60
      && FormatDuration(seconds) == NatToString(mins) + ":" + PadStart2(NatToString(secs))
      && |PadStart2(NatToString(secs))| == 2
    ensures ParseDuration(FormatDuration(seconds)) == Some(seconds)
  {
    var mins, secs := seconds / 60, seconds % 60;
    var m, t := NatToString(mins), PadStart2(NatToString(secs));
    TwoDigits(secs);
    ParseNatToString(mins);
    assert FormatDuration(seconds) == m + ":" + t;
    ColonAfterDigits(m, t);
  }

  /** In digits, a colon and more text, the first colon is the one after the digits. */
  lemma ColonAfterDigits(m: string, t: string)
    requires AllDigits(m)
    ensures var text := m + ":" + t;
      IndexOf(text, ":") == |m| && text[..|m|] == m && text[|m| + 1..] == t
  {
    var text := m + ":" + t;
    assert StartsAt(text, ":", |m|);
    forall k | 0 <= k < |m| ensures !StartsAt(text, ":", k) {
      assert text[k] == m[k];
    }
    assert text[..|m|] == m && text[|m| + 1..] == t;
  }

  /**
   * What the duration slot inside the cover image renders: nothing, a bare text node
   * (React prints a number that a `&&` expression evaluates to), or the badge.
   */
  datatype Slot = Nothing | StrayText(text: string) | DurationBadge(text: string)

  /**
   * The slot as the card writes it, `{activity.duration && (<div>…</div>)}` inside the
   * `showImage` branch: a missing duration renders nothing, a duration of 0 evaluates to
   * the number 0, which React renders as the text "0", and any other duration renders
   * the badge.
   */
  function BadgeSlotAsWritten(imageUrl: Option<string>, imgError: bool, duration: Option<int>): (r: Slot)
    ensures r.StrayText? <==> Truthy(imageUrl) && !imgError && duration == Some(0)
    ensures r.DurationBadge? <==> Truthy(imageUrl) && !imgError && duration.Some? && duration.value != 0
    ensures r.DurationBadge? ==> r.text == FormatDuration(duration.value)
  {
    var showImage := Truthy(imageUrl) && !imgError;
    if !showImage || duration.None? then Nothing
    else if duration.value == 0 then StrayText("0")
    else DurationBadge(FormatDuration(duration.value))
  }

  /** A video with a zero duration and a shown cover prints a stray "0" over the image. */
  lemma ZeroDurationShowsZero()
    ensures BadgeSlotAsWritten(Some("cover.jpg"), false, Some(0)) == StrayText("0")
  {
  }

  /**
   * The badge as intended: it appears only with the cover image shown and a truthy
   * duration, and nothing at all is rendered otherwise (no stray "0").
   */
  function Badge(imageUrl: Option<string>, imgError: bool, duration: Option<int>): (r: Option<string>)
    ensures r.Some? <==> Truthy(imageUrl) && !imgError && duration.Some? && duration.value != 0
    ensures r.Some? ==> r.value == FormatDuration(duration.value)
  {
    var showImage := Truthy(imageUrl) && !imgError;
    if showImage && duration.Some? && duration.value != 0 then Some(FormatDuration(duration.value)) else None
  }

  /** The intended badge and the written slot differ exactly at a shown cover with duration 0. */
  lemma BadgeMatchesWrittenExceptZero(imageUrl: Option<string>, imgError: bool, duration: Option<int>)
    ensures BadgeSlotAsWritten(imageUrl, imgError, duration)
         == (match Badge(imageUrl, imgError, duration)
             case Some(text) => DurationBadge(text)
             case None => Nothing)
        <==> !(Truthy(imageUrl) && !imgError && duration == Some(0))
  {
  }
}
