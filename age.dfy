/**
 * The coarse age of a pod (app/app.py:345-351). Times are integers in
 * microseconds, the resolution of the clock the source reads. The elapsed
 * time is cut to whole seconds by truncation toward zero, as the source does
 * before printing seconds. For a non-negative elapsed time, comparing the
 * exact time or its whole seconds with 60 and 3600, and truncating either
 * one to minutes or hours, give the same answers. A negative elapsed time (a
 * clock behind the creation stamp) always lands in the seconds bucket.
 */
module Age {
  import opened Wrappers
  import opened Text

  /** Microseconds in one second. */
  const MicrosPerSecond := 1_000_000

  /**
   * The whole seconds from `created` to `now` (both in microseconds),
   * truncated toward zero: a negative elapsed time rounds up, not down.
   */
  function ElapsedSeconds(now: int, created: int): (s: int)
    ensures created <= now ==> 0 <= s && s * MicrosPerSecond <= now - created < s * MicrosPerSecond + MicrosPerSecond
    ensures now < created ==> s <= 0 && s * MicrosPerSecond - MicrosPerSecond < now - created <= s * MicrosPerSecond
  {
    if created <= now then (now - created) / MicrosPerSecond else -((created - now) / MicrosPerSecond)
  }

  /**
   * The bucket the source picks from the exact elapsed time `d` in
   * microseconds: it compares `d` itself with 60 s and 3600 s and truncates
   * d/60 s or d/3600 s, never first cutting `d` to whole seconds.
   */
  function ExactBucket(d: int): Bucket {
    if d < 60 * MicrosPerSecond then Bucket(if d >= 0 then d / MicrosPerSecond else -((-d) / MicrosPerSecond), Seconds)
    else if d < 3600 * MicrosPerSecond then Bucket(d / (60 * MicrosPerSecond), Minutes)
    else Bucket(d / (3600 * MicrosPerSecond), Hours)
  }

  /** Cutting the elapsed time to whole seconds first does not change the bucket. */
  lemma BucketOfWholeSeconds(now: int, created: int)
    ensures BucketOf(ElapsedSeconds(now, created)) == ExactBucket(now - created)
  {
    var d, s := now - created, ElapsedSeconds(now, created);
    if d >= 60 * MicrosPerSecond {
      var m, h := d / (60 * MicrosPerSecond), d / (3600 * MicrosPerSecond);
      assert m * 60 <= s < m * 60 + 60;
      assert s / 60 == m;
      assert h * 3600 <= s < h * 3600 + 3600;
      assert s / 3600 == h;
    }
  }

  /** A clock 2.4 s behind the creation stamp shows "-2s": truncation, not flooring. */
  lemma AheadOfClock()
    ensures ElapsedSeconds(97_600_000, 100_000_000) == -2
    ensures AgeText(ElapsedSeconds(97_600_000, 100_000_000)) == "-2s"
  {
  }

  datatype Unit = Seconds | Minutes | Hours

  /** An amount of one unit: what an age text such as "5m" denotes. */
  datatype Bucket = Bucket(amount: int, unit: Unit)

  /** The bucket of an elapsed time: the largest unit it reaches, truncated, never rounded. */
  function BucketOf(elapsed: int): (b: Bucket)
    ensures b.unit == Seconds <==> elapsed < 60
    ensures b.unit == Minutes <==> 60 <= elapsed < 3600
    ensures b.unit == Seconds ==> b.amount == elapsed
    ensures b.unit == Minutes ==> 1 <= b.amount < 60 && b.amount * 60 <= elapsed < b.amount * 60 + 60
    ensures b.unit == Hours ==> 1 <= b.amount && b.amount * 3600 <= elapsed < b.amount * 3600 + 3600
  {
    if elapsed < 60 then Bucket(elapsed, Seconds)
    else if elapsed < 3600 then Bucket(elapsed / 60, Minutes)
    else Bucket(elapsed / 3600, Hours)
  }

  function Suffix(u: Unit): char {
    match u
    case Seconds => 's'
    case Minutes => 'm'
    case Hours => 'h'
  }

  function UnitOf(c: char): Option<Unit> {
    if c == 's' then Some(Seconds)
    else if c == 'm' then Some(Minutes)
    else if c == 'h' then Some(Hours)
    else None
  }

  function FormatBucket(b: Bucket): string {
    IntToString(b.amount) + [Suffix(b.unit)]
  }

  /** The age text shown in the pod table: "<N>s", "<N>m" or "<N>h". */
  function AgeText(elapsed: int): string {
    FormatBucket(BucketOf(elapsed))
  }

  /** Reads an age text back into the amount and unit it shows. */
  function ParseAge(s: string): Option<Bucket> {
    if |s| < 2 then None
    else
      match (ParseInt(s[..|s| - 1]), UnitOf(s[|s| - 1]))
      case (Some(n), Some(u)) => Some(Bucket(n, u))
      case _ => None
  }

  lemma ParseFormatBucket(b: Bucket)
    ensures ParseAge(FormatBucket(b)) == Some(b)
  {
    var s := FormatBucket(b);
    assert s[..|s| - 1] == IntToString(b.amount);
    ParseIntToString(b.amount);
  }

  /** The age text determines the bucket: its number and unit are those of BucketOf. */
  lemma ParseAgeText(elapsed: int)
    ensures ParseAge(AgeText(elapsed)) == Some(BucketOf(elapsed))
  {
    ParseFormatBucket(BucketOf(elapsed));
  }

  /** A longer elapsed time never shows a smaller age. */
  lemma AgeMonotone(e1: int, e2: int)
    requires e1 <= e2
    ensures Rank(BucketOf(e1)) <= Rank(BucketOf(e2))
  {
  }

  /** Seconds of the start of a bucket, so that buckets compare as durations. */
  function Rank(b: Bucket): int {
    match b.unit
    case Seconds => b.amount
    case Minutes => b.amount * 60
    case Hours => b.amount * 3600
  }

  /** The boundary cases: truncation at 59, 60, 3599, 3600 and 7199 seconds. */
  lemma AgeBoundaries()
    ensures AgeText(59) == "59s" && AgeText(60) == "1m" && AgeText(3599) == "59m"
    ensures AgeText(3600) == "1h" && AgeText(7199) == "1h"
  {
  }
}
