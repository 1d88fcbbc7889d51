/** The watch-status reconciler of PlayerInfo: decides whether the resume-point
    service's idea of "watched" must overrule Kodi's own, from the playback
    position, the total duration and three margins. Pure: every input is a
    parameter, so equal inputs always give equal answers. */
module Watchstatus {

  /** The three margins the decision uses.
      - `secondsMargin`: the add-on's own resume-point margin (SECONDS_MARGIN).
      - `ignoreSecondsAtStart`: Kodi's advanced setting video/ignoresecondsatstart.
      - `ignorePercentAtEnd`: Kodi's advanced setting video/ignorepercentatend. */
  datatype Margins = Margins(secondsMargin: int, ignoreSecondsAtStart: int, ignorePercentAtEnd: int)

  /** Kodi's defaults for video/ignoresecondsatstart and video/ignorepercentatend. */
  const DefaultIgnoreSecondsAtStart: int := 180
  const DefaultIgnorePercentAtEnd: int := 8

  /** Kodi's defaults for its two settings, with the add-on's margin given. */
  function KodiDefaults(secondsMargin: int): Margins
  {
    Margins(secondsMargin, DefaultIgnoreSecondsAtStart, DefaultIgnorePercentAtEnd)
  }

  function Min(a: real, b: real): real { if a <= b then a else b }
  function Max(a: real, b: real): real { if a <= b then b else a }

  /** The closed interval spanned by two bounds, in either order. */
  predicate InBand(p: real, a: real, b: real)
  {
    Min(a, b) <= p <= Max(a, b)
  }

  /** Python 3's `round` on a number: to the nearest integer, ties to the even one. */
  function RoundHalfEven(x: real): (r: int)
    ensures x - 0.5 <= r as real <= x + 0.5
    ensures r as real - x == 0.5 || x - r as real == 0.5 ==> r % 2 == 0
  {
    var f := x.Floor;
    var d := x - f as real;
    if d < 0.5 then f
    else if d > 0.5 then f + 1
    else if f % 2 == 0 then f
    else f + 1
  }

  /** Kodi's end margin converted from a percentage of `total` to seconds. */
  function IgnoreSecondsAtEnd(total: real, ignorePercentAtEnd: int): (e: int)
    ensures var exact := total * (100 - ignorePercentAtEnd) as real / 100.0;
            exact - 0.5 <= e as real <= exact + 0.5
    ensures var exact := total * (100 - ignorePercentAtEnd) as real / 100.0;
            e as real - exact == 0.5 || exact - e as real == 0.5 ==> e % 2 == 0
  {
    RoundHalfEven(total * (100 - ignorePercentAtEnd) as real / 100.0)
  }

  /** overrule_kodi_watchstatus, with its two nested range checks per band as
      written: an outer one-sided guard and two inclusive brackets, one per
      order of the bounds. Its contract is the single-bracket reading: the
      position lies in the start band or in the end band. */
  predicate Overrule(position: real, total: real, m: Margins)
    ensures Overrule(position, total, m) <==>
              InBand(position, m.secondsMargin as real, m.ignoreSecondsAtStart as real) ||
              InBand(position, total - m.secondsMargin as real,
                     IgnoreSecondsAtEnd(total, m.ignorePercentAtEnd) as real)
  {
    var margin := m.secondsMargin as real;
    var atStart := m.ignoreSecondsAtStart as real;
    var atEnd := IgnoreSecondsAtEnd(total, m.ignorePercentAtEnd) as real;
    if position <= Max(margin, atStart) &&
       ((margin <= position <= atStart) || (atStart <= position <= margin)) then
      true
    else if position >= Min(total - margin, atEnd) &&
            ((total - margin <= position <= atEnd) || (atEnd <= position <= total - margin)) then
      true
    else
      false
  }

  /** Between the top of the start band and the bottom of the end band the
      answer is always "no". */
  lemma OverruleGap(position: real, total: real, m: Margins)
    requires Max(m.secondsMargin as real, m.ignoreSecondsAtStart as real) < position
    requires position < Min(total - m.secondsMargin as real,
                            IgnoreSecondsAtEnd(total, m.ignorePercentAtEnd) as real)
    ensures !Overrule(position, total, m)
  {
  }

  /** Both bands are closed: their four bounds are themselves in the band. */
  lemma OverruleBoundsInclusive(total: real, m: Margins)
    ensures Overrule(m.secondsMargin as real, total, m)
    ensures Overrule(m.ignoreSecondsAtStart as real, total, m)
    ensures Overrule(total - m.secondsMargin as real, total, m)
    ensures Overrule(IgnoreSecondsAtEnd(total, m.ignorePercentAtEnd) as real, total, m)
  {
  }

  /** With Kodi's defaults, an add-on margin of 5 seconds and a 1000-second
      programme: the end margin is 920 seconds, so the bands are [5, 180] and
      [920, 995]. */
  lemma OverruleWithDefaults()
    ensures IgnoreSecondsAtEnd(1000.0, DefaultIgnorePercentAtEnd) == 920
    ensures Overrule(5.0, 1000.0, KodiDefaults(5))
    ensures Overrule(100.0, 1000.0, KodiDefaults(5))
    ensures !Overrule(180.5, 1000.0, KodiDefaults(5)) && !Overrule(500.0, 1000.0, KodiDefaults(5))
    ensures Overrule(920.0, 1000.0, KodiDefaults(5))
    ensures !Overrule(919.0, 1000.0, KodiDefaults(5))
    ensures Overrule(995.0, 1000.0, KodiDefaults(5))
    ensures !Overrule(995.5, 1000.0, KodiDefaults(5))
  {
    assert 1000.0 * (100 - 8) as real / 100.0 == 920.0;
    assert (920.0).Floor == 920;
    assert IgnoreSecondsAtEnd(1000.0, 8) == 920;
  }

  /** Ties go to the even neighbour, as in Python 3; a 12.5-second programme
      with an 8 % end margin ends its band at exactly 11.5, which becomes 12. */
  lemma RoundTies()
    ensures IgnoreSecondsAtEnd(12.5, DefaultIgnorePercentAtEnd) == 12
    ensures RoundHalfEven(0.5) == 0
    ensures RoundHalfEven(1.5) == 2
    ensures RoundHalfEven(2.5) == 2
    ensures RoundHalfEven(-0.5) == 0
    ensures RoundHalfEven(2.4) == 2 && RoundHalfEven(2.6) == 3
  {
  }
}
