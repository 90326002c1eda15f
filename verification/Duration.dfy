/**
 AtomicDuration: a duration kept as whole milliseconds in an atomic `usize`, zero for none. The
 conversion rounds up and saturates at 64 bits; the cast to `usize` truncates where that is
 narrower.
 */
module Durations {
  import opened Sequential

  const U64: nat := 0x1_0000_0000_0000_0000
  const NANOS_PER_MILLI: nat := 1_000_000
  const NANOS_PER_SEC: nat := 1_000_000_000

  /** std::time::Duration. */
  datatype Duration = Duration(secs: nat, nanos: nat) {
    ghost predicate Valid() { secs < U64 && nanos < NANOS_PER_SEC }

    function Total(): nat { secs * NANOS_PER_SEC + nanos }
  }

  function SaturatingMul(a: nat, b: nat): nat { if a * b < U64 then a * b else U64 - 1 }

  function SaturatingAdd(a: nat, b: nat): nat { if a + b < U64 then a + b else U64 - 1 }

  /** Duration::from_millis */
  function FromMillis(ms: nat): Duration {
    Duration(ms / 1000, ms % 1000 * NANOS_PER_MILLI)
  }

  function Min(a: nat, b: nat): nat { if a <= b then a else b }

  /** The least number of whole milliseconds that covers `d`. */
  function CeilMillis(d: Duration): nat {
    (d.Total() + NANOS_PER_MILLI - 1) / NANOS_PER_MILLI
  }

  /** dur_to_ms: seconds and the rounded-up rest are converted apart, each step saturating. */
  function DurToMs(d: Duration): (ms: nat)
    requires d.Valid()
    ensures ms == Min(CeilMillis(d), U64 - 1)
  {
    var ms := (d.nanos + NANOS_PER_MILLI - 1) / NANOS_PER_MILLI;
    CeilSplit(d);
    SaturatingAdd(SaturatingMul(d.secs, 1000), ms)
  }

  lemma CeilSplit(d: Duration)
    ensures CeilMillis(d) == d.secs * 1000 + (d.nanos + NANOS_PER_MILLI - 1) / NANOS_PER_MILLI
  {
    assert d.Total() + NANOS_PER_MILLI - 1
           == d.secs * 1000 * NANOS_PER_MILLI + (d.nanos + NANOS_PER_MILLI - 1);
  }

  /** The value is short of the duration never, and above it by less than a millisecond. */
  lemma CeilBounds(d: Duration)
    ensures CeilMillis(d) * NANOS_PER_MILLI >= d.Total()
    ensures CeilMillis(d) * NANOS_PER_MILLI < d.Total() + NANOS_PER_MILLI
    ensures CeilMillis(d) == 0 <==> d.Total() == 0
  {
  }

  lemma FromMillisTotal(ms: nat)
    requires ms < U64
    ensures FromMillis(ms).Valid() && FromMillis(ms).Total() == ms * NANOS_PER_MILLI
    ensures DurToMs(FromMillis(ms)) == ms
  {
    assert ms == ms / 1000 * 1000 + ms % 1000;
    assert CeilMillis(FromMillis(ms)) == ms;
  }

  /** `v` is what is left of `ms` when whole widths are taken off as often as possible. */
  ghost predicate Rest(ms: nat, width: nat, v: nat)
    requires 0 < width
  {
    v < width && ms == ms / width * width + v
  }

  /** A cast to `usize`. */
  function Truncate(ms: nat, width: nat): (v: nat)
    requires 0 < width
    ensures Rest(ms, width, v)
    ensures v <= ms && (v == ms <==> ms < width)
  {
    TruncateBounds(ms, width);
    ms % width
  }

  lemma TruncateBounds(ms: nat, width: nat)
    requires 0 < width
    ensures ms % width < width && ms % width <= ms && (ms % width == ms <==> ms < width)
  {
  }

  class AtomicDuration {
    const width: nat       // values of usize: 2 to the power of its bits
    var cell: nat

    ghost predicate Valid()
      reads this
    {
      cell < width <= U64
    }

    /** What a duration is stored as. */
    static function Stored(width: nat, d: Option<Duration>): (v: nat)
      requires 0 < width <= U64 && (d.Some? ==> d.value.Valid())
      ensures v < width && (d.None? ==> v == 0)
      ensures d.Some? ==> Rest(Min(CeilMillis(d.value), U64 - 1), width, v)
      ensures d.Some? && width == U64 ==> v == Min(CeilMillis(d.value), U64 - 1)
    {
      match d
      case None => 0
      case Some(x) => Truncate(DurToMs(x), width)
    }

    /** What is read from a cell. */
    static function Loaded(v: nat): (d: Option<Duration>)
      requires v < U64
      ensures d.None? <==> v == 0
      ensures d.Some? ==> d.value.Valid() && d.value.Total() == v * NANOS_PER_MILLI
    {
      FromMillisTotal(v);
      if v == 0 then None else Some(FromMillis(v))
    }

    constructor (width: nat, dur: Option<Duration>)
      requires 0 < width <= U64 && (dur.Some? ==> dur.value.Valid())
      ensures Valid() && this.width == width && cell == Stored(width, dur)
    {
      this.width := width;
      this.cell := match dur case None => 0 case Some(d) => Truncate(DurToMs(d), width);
    }

    method Get() returns (d: Option<Duration>)
      requires Valid()
      ensures d == Loaded(cell)
    {
      if cell == 0 {
        return None;
      }
      return Some(FromMillis(cell));
    }

    method Store(dur: Option<Duration>)
      requires Valid() && (dur.Some? ==> dur.value.Valid())
      modifies this
      ensures Valid() && cell == Stored(width, dur)
    {
      var timeout := 0;
      match dur {
        case None =>
        case Some(d) => timeout := Truncate(DurToMs(d), width);
      }
      cell := timeout;
    }

    /** swap(0) */
    method Take() returns (d: Option<Duration>)
      requires Valid()
      modifies this
      ensures Valid() && cell == 0 && d == Loaded(old(cell))
    {
      var v := cell;
      cell := 0;
      if v == 0 {
        return None;
      }
      return Some(FromMillis(v));
    }
  }

  /**
   With 64-bit usize, what is read back is none exactly for a zero duration, and otherwise the
   duration rounded up by less than a millisecond, unless it saturates.
   */
  lemma GetAfterStore(d: Duration)
    requires d.Valid()
    ensures var got := AtomicDuration.Loaded(AtomicDuration.Stored(U64, Some(d)));
            && (got.None? <==> d.Total() == 0)
            && (got.Some? && CeilMillis(d) < U64 ==>
                  d.Total() <= got.value.Total() < d.Total() + NANOS_PER_MILLI)
            && (CeilMillis(d) >= U64 ==> got.Some? && got.value.Total() == (U64 - 1) * NANOS_PER_MILLI)
  {
    CeilBounds(d);
  }

  /** Storing what was read changes nothing, at any width of usize. */
  lemma StoreAfterGet(width: nat, v: nat)
    requires v < width <= U64
    ensures AtomicDuration.Stored(width, AtomicDuration.Loaded(v)) == v
  {
    FromMillisTotal(v);
    if v != 0 {
      assert AtomicDuration.Stored(width, Some(FromMillis(v))) == Truncate(v, width);
    }
  }

  /** Exactly when a duration survives a narrower usize: its milliseconds fit. */
  lemma FitsIff(width: nat, d: Duration)
    requires d.Valid() && 1 < width <= U64
    ensures CeilMillis(d) < width <==>
            var got := AtomicDuration.Loaded(AtomicDuration.Stored(width, Some(d)));
            if got.None? then d.Total() == 0 else d.Total() <= got.value.Total() < d.Total() + NANOS_PER_MILLI
  {
    CeilBounds(d);
    var v := AtomicDuration.Stored(width, Some(d));
    assert v == Truncate(Min(CeilMillis(d), U64 - 1), width);
    assert v == CeilMillis(d) <==> CeilMillis(d) < width;
  }
}
