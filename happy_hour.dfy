/**
 * The time-window predicates and the percentage discount of the happy-hour utility.
 * The local hour of the current instant and the configured hour bounds are parameters.
 */
module HappyHour {
  import opened Base
  import Money

  /** A half-open range of hours `[start, end)`; no wrap past midnight. */
  datatype HourWindow = HourWindow(start: int, end: int)

  /** The configured windows, read once from the environment at wiring time. */
  datatype Config = Config(happyHour: HourWindow, businessHours: HourWindow)

  const DefaultHappyHour: HourWindow := HourWindow(11, 13)
  const DefaultBusinessHours: HourWindow := HourWindow(8, 15)
  const DefaultDiscountPercent: int := 20

  /** A window variable that is unset in the environment takes its default bound. */
  function WindowFromEnv(start: Option<int>, end: Option<int>, default: HourWindow): (w: HourWindow)
    ensures w.start == (if start.Some? then start.value else default.start)
    ensures w.end == (if end.Some? then end.value else default.end)
  {
    HourWindow(if start.Some? then start.value else default.start,
               if end.Some? then end.value else default.end)
  }

  /** `getHappyHourConfig` and the business-hour reads: each unset variable takes its default hour. */
  function ConfigFromEnv(happyStart: Option<int>, happyEnd: Option<int>,
                         opening: Option<int>, closing: Option<int>): (c: Config)
    ensures c.happyHour.start == (if happyStart.Some? then happyStart.value else 11)
    ensures c.happyHour.end == (if happyEnd.Some? then happyEnd.value else 13)
    ensures c.businessHours.start == (if opening.Some? then opening.value else 8)
    ensures c.businessHours.end == (if closing.Some? then closing.value else 15)
  {
    Config(WindowFromEnv(happyStart, happyEnd, DefaultHappyHour),
           WindowFromEnv(opening, closing, DefaultBusinessHours))
  }

  predicate InWindow(hour: int, w: HourWindow) {
    hour >= w.start && hour < w.end
  }

  /** `isHappyHour()` at the given hour. */
  predicate IsHappyHour(hour: int, cfg: Config) {
    InWindow(hour, cfg.happyHour)
  }

  /** `isBusinessHours()` at the given hour. */
  predicate IsBusinessHours(hour: int, cfg: Config) {
    InWindow(hour, cfg.businessHours)
  }

  /** A window whose start is not before its end is closed at every hour. */
  lemma MisconfiguredWindowIsEmpty(w: HourWindow, hour: int)
    requires w.start >= w.end
    ensures !InWindow(hour, w)
  {
  }

  /** Both bounds of a window matter: the start hour is inside, the end hour outside. */
  lemma WindowBounds(w: HourWindow)
    requires w.start < w.end
    ensures InWindow(w.start, w) && !InWindow(w.end, w) && !InWindow(w.start - 1, w)
  {
  }

  /** With nothing configured: happy hour is 11 to 13 and the diner is open 8 to 15. */
  lemma DefaultWindows()
    ensures var cfg := ConfigFromEnv(None, None, None, None);
      && IsHappyHour(11, cfg) && IsHappyHour(12, cfg) && !IsHappyHour(13, cfg) && !IsHappyHour(10, cfg)
      && IsBusinessHours(8, cfg) && IsBusinessHours(14, cfg) && !IsBusinessHours(15, cfg)
      && !IsBusinessHours(7, cfg)
  {
  }

  /**
   * `getHappyHourPrice(original, percent)` in cents: outside happy hour the original price;
   * inside it, `original - original * percent / 100` rounded to whole cents.
   */
  function HappyHourPrice(original: int, percent: int, hour: int, cfg: Config): (r: int)
    ensures !IsHappyHour(hour, cfg) ==> r == original
    ensures IsHappyHour(hour, cfg) ==>
      100 * r - 50 <= 100 * original - original * percent < 100 * r + 50
  {
    if !IsHappyHour(hour, cfg) then original
    else Money.RoundToCents(100 * original - original * percent)
  }

  /** For a sensible percentage the discounted price lies between zero and the original. */
  lemma {:induction false} HappyHourPriceBounds(original: int, percent: int, hour: int, cfg: Config)
    requires original >= 0 && 0 <= percent <= 100
    ensures 0 <= HappyHourPrice(original, percent, hour, cfg) <= original
  {
    if IsHappyHour(hour, cfg) {
      var x := 100 * original - original * percent;
      assert x == original * (100 - percent);
      assert 0 <= x <= 100 * original by {
        assert original * (100 - percent) <= original * 100;
      }
      Money.RoundToCentsMonotone(0, x);
      Money.RoundToCentsMonotone(x, 100 * original);
      Money.RoundToCentsExact(original);
      Money.RoundToCentsExact(0);
    }
  }

  /** The default 20% discount: $10.00 at noon becomes $8.00; at 13:00 it stays $10.00. */
  lemma DefaultDiscountExample()
    ensures var cfg := ConfigFromEnv(None, None, None, None);
      && HappyHourPrice(1000, DefaultDiscountPercent, 12, cfg) == 800
      && HappyHourPrice(1000, DefaultDiscountPercent, 13, cfg) == 1000
  {
  }
}
