/** Bar durations, the touch_trigger lifetime boundary and fill-to-bar alignment. */
module Lifetime {
  import opened Wrappers
  import DecimalText

  /** None stands for the ValueError of an unsupported timeframe. */
  function TimeframeMs(timeframe: string): (ms: Option<int>)
    ensures ms.Some? ==> ms.value > 0
  {
    match timeframe
    case "1m" => Some(60_000)
    case "5m" => Some(5 * 60_000)
    case "15m" => Some(15 * 60_000)
    case "1h" => Some(60 * 60_000)
    case "4h" => Some(4 * 60 * 60_000)
    case "1d" => Some(24 * 60 * 60_000)
    case _ => None
  }

  /** The unit letter of a timeframe text. */
  function UnitMs(unit: char): int {
    if unit == 'm' then 60_000 else if unit == 'h' then 3_600_000 else 86_400_000
  }

  const SUPPORTED := {"1m", "5m", "15m", "1h", "4h", "1d"}

  /** Six labels are supported, and each lasts as long as it says. */
  lemma TimeframeIsItsLabel(timeframe: string)
    ensures TimeframeMs(timeframe).Some? <==> timeframe in SUPPORTED
    ensures timeframe in SUPPORTED ==>
      var n := |timeframe| - 1;
      n > 0 && DecimalText.AllDigits(timeframe[..n])
      && TimeframeMs(timeframe) == Some(DecimalText.ValueOf(timeframe[..n]) * UnitMs(timeframe[n]))
  {
    Number('1');
    Number('4');
    Number('5');
    assert "15"[..1] == "1";
    match timeframe
    case "1m" => Label(timeframe, "1", 'm');
    case "5m" => Label(timeframe, "5", 'm');
    case "15m" => Label(timeframe, "15", 'm');
    case "1h" => Label(timeframe, "1", 'h');
    case "4h" => Label(timeframe, "4", 'h');
    case "1d" => Label(timeframe, "1", 'd');
    case _ =>
  }

  lemma Label(text: string, number: string, unit: char)
    requires text == number + [unit]
    ensures text[..|text| - 1] == number && text[|text| - 1] == unit
  {
  }

  lemma Number(c: char)
    requires DecimalText.IsDigit(c)
    ensures DecimalText.AllDigits([c]) && DecimalText.ValueOf([c]) == DecimalText.DigitOf(c)
  {
    assert [c][..0] == "";
  }

  /** Close time of the last bar an entry order planned on `sourceBar` may live through. */
  function ExpirationMs(sourceBar: int, tf: int, lifetimeBars: nat): int {
    sourceBar + (lifetimeBars + 2) * tf
  }

  predicate IsExpired(barOpen: int, tf: int, expiration: int) {
    barOpen + tf >= expiration
  }

  /** The order ends on the first bar that opens N + 1 bars after its signal bar or later. */
  lemma ExpiredIffPastLifetime(sourceBar: int, tf: int, lifetimeBars: nat, barOpen: int)
    ensures IsExpired(barOpen, tf, ExpirationMs(sourceBar, tf, lifetimeBars))
       <==> barOpen >= sourceBar + (lifetimeBars + 1) * tf
  {
    assert (lifetimeBars + 2) * tf == (lifetimeBars + 1) * tf + tf;
  }

  lemma ExpirationAtLeastTwoBars(sourceBar: int, tf: int, lifetimeBars: nat)
    requires tf > 0
    ensures ExpirationMs(sourceBar, tf, lifetimeBars) >= sourceBar + 2 * tf
  {
    assert (lifetimeBars + 2) * tf == lifetimeBars * tf + 2 * tf;
    if lifetimeBars > 0 { TimesAtLeast(lifetimeBars, tf); }
  }

  /** Floor of a fill time to the open time of its candle; None stands for the ValueError. */
  function AlignToBar(firstFill: int, timeframe: string): Option<int> {
    var tf := TimeframeMs(timeframe);
    if firstFill <= 0 || tf.None? then None else Some(firstFill - firstFill % tf.value)
  }

  /** The aligned bar is the one candle of the timeframe grid that contains the fill. */
  lemma AlignedBarContainsFill(firstFill: int, timeframe: string, bar: int)
    requires firstFill > 0 && TimeframeMs(timeframe).Some?
    ensures AlignToBar(firstFill, timeframe) == Some(bar) <==>
      var tf := TimeframeMs(timeframe).value; bar % tf == 0 && bar <= firstFill < bar + tf
  {
    var tf := TimeframeMs(timeframe).value;
    var floor := firstFill - firstFill % tf;
    FloorOnGrid(firstFill, tf);
    if bar % tf == 0 && bar <= firstFill < bar + tf {
      SameCandle(bar, floor, firstFill, tf);
    }
  }

  lemma {:induction false} TimesAtLeast(k: nat, tf: int)
    requires k > 0 && tf > 0
    ensures k * tf >= tf
  {
    if k > 1 {
      TimesAtLeast(k - 1, tf);
      assert k * tf == (k - 1) * tf + tf;
    }
  }

  /** A multiple of `tf` strictly between -tf and tf is zero. */
  lemma SmallMultiple(k: int, tf: int)
    requires tf > 0 && -tf < k * tf < tf
    ensures k == 0
  {
    if k > 0 {
      TimesAtLeast(k, tf);
    }
  }

  lemma FloorOnGrid(x: int, tf: int)
    requires tf > 0
    ensures (x - x % tf) % tf == 0
  {
    var f := x - x % tf;
    var p, q, r := x / tf, f / tf, f % tf;
    assert f == p * tf;
    assert f == q * tf + r;
    assert (p - q) * tf == p * tf - q * tf;
    SmallMultiple(p - q, tf);
  }

  lemma SameCandle(a: int, b: int, x: int, tf: int)
    requires tf > 0 && a % tf == 0 && b % tf == 0
    requires a <= x < a + tf && b <= x < b + tf
    ensures a == b
  {
    var p, q := a / tf, b / tf;
    assert a == p * tf && b == q * tf;
    assert (p - q) * tf == p * tf - q * tf;
    SmallMultiple(p - q, tf);
  }
}
