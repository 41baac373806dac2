/**
 * The elapsed time since an article was last checked, as the update worker
 * sees it: a normalised `datetime.timedelta`, of which only the `days` and
 * `seconds` attributes are read.
 */
module TimeWindow {

  const SecondsPerDay: int := 86400

  /** The minimum time between two checks of the same article: ten minutes. */
  const RecheckSeconds: int := 600

  type DaySeconds = s: int | 0 <= s < SecondsPerDay

  /**
   * A normalised timedelta with microseconds dropped: `days` may be
   * negative (a last-modified time in the future), `seconds` is always
   * within one day.
   */
  datatype Elapsed = Elapsed(days: int, seconds: DaySeconds)

  /** The whole number of seconds an elapsed value stands for. */
  function TotalSeconds(e: Elapsed): int
  {
    e.days * SecondsPerDay + e.seconds
  }

  /**
   * Normalises a whole number of seconds the way a timedelta does: the
   * day count rounds toward minus infinity and the seconds are what is
   * left over, so `-1` second is `days == -1, seconds == 86399`.
   */
  function Normalise(t: int): (e: Elapsed)
    ensures TotalSeconds(e) == t
    ensures t < 0 <==> e.days < 0
  {
    Elapsed(t / SecondsPerDay, t % SecondsPerDay)
  }

  /** Normalisation is the inverse of TotalSeconds: each duration has one normal form. */
  lemma NormaliseTotal(e: Elapsed)
    ensures Normalise(TotalSeconds(e)) == e
  {
    var n := Normalise(TotalSeconds(e));
    assert (n.days - e.days) * SecondsPerDay == e.seconds - n.seconds;
  }

  /**
   * The skip test of the update loop: an article is left alone when it was
   * checked less than ten minutes ago on the same day-count, or when a whole
   * day or more has passed.
   */
  predicate Skip(e: Elapsed)
  {
    (e.seconds < RecheckSeconds && e.days == 0) || e.days > 0
  }

  /**
   * The skip test in terms of whole elapsed seconds: only articles last
   * checked between ten minutes and one day ago, or whose last-modified
   * time lies in the future, are refreshed.
   */
  lemma SkipWindow(t: int)
    ensures Skip(Normalise(t)) <==> (0 <= t < RecheckSeconds || t >= SecondsPerDay)
  {
    var e := Normalise(t);
    if e.days > 0 {
      assert t >= SecondsPerDay;
    } else if e.days == 0 {
      assert t == e.seconds;
    } else {
      assert t < 0;
    }
  }

  /** Articles whose last check is a day old or older are never refreshed. */
  lemma StaleArticlesSkipped(t: int)
    requires t >= SecondsPerDay
    ensures Skip(Normalise(t))
  {
    SkipWindow(t);
  }

  /** A last-modified time in the future is not skipped: the article is refreshed. */
  lemma FutureArticlesRefreshed(t: int)
    requires t < 0
    ensures !Skip(Normalise(t))
  {
    SkipWindow(t);
  }
}
