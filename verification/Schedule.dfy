/** The immutable decision schedule of a live arena. Instants are nanoseconds since the epoch. */
module Schedule {
  import opened Arithmetic

  const NANOS: int := 1_000_000_000

  /** Years -9999 to 9999, the range of a calendar date with a time zone. */
  type Instant = x: int
    | -377_705_116_800 * 1_000_000_000 <= x < 253_402_300_800 * 1_000_000_000

  datatype Span = Span(startsAt: Instant, endsAt: Instant)

  datatype ScheduleError = Configuration | State

  /** Whole seconds of a duration, truncated toward zero. */
  function WholeSeconds(nanos: int): int {
    TruncDiv(nanos, NANOS)
  }

  function ExpectedCycleCount(span: Span, cooldown: u32): Result<u64, ScheduleError> {
    var duration := WholeSeconds(span.endsAt - span.startsAt);
    if cooldown <= 0 || duration < cooldown then Err(Configuration)
    else if duration / cooldown > U64_MAX then Err(State)
    else Ok(duration / cooldown)
  }

  function DueCycleCount(span: Span, cooldown: u32, now: Instant): Result<u64, ScheduleError> {
    var expected :- ExpectedCycleCount(span, cooldown);
    if now < span.startsAt then Ok(0)
    else
      var elapsed := WholeSeconds(Min(now, span.endsAt) - span.startsAt);
      var due := Min(elapsed / cooldown + 1, I64_MAX);
      if !(0 <= due <= U64_MAX) then Err(State) else Ok(Min(due, expected))
  }

  function ScheduledCycleAt(span: Span, cooldown: u32, index: nat): Result<int, ScheduleError> {
    if index > I64_MAX || cooldown * index > I64_MAX then Err(State)
    else Ok(span.startsAt + cooldown * index * NANOS)
  }

  // ---------------------------------------------------------------- properties

  /** There is a schedule exactly when the arena lasts at least one interval. */
  lemma ScheduleExists(span: Span, cooldown: u32)
    ensures ExpectedCycleCount(span, cooldown).Ok?
            <==> 0 < cooldown && cooldown * NANOS <= span.endsAt - span.startsAt
  {
    hide WholeSeconds;
    var nanos := span.endsAt - span.startsAt;
    BackwardIsNotPositive(nanos);
    if 0 < cooldown && 0 <= nanos {
      IntervalsIn(nanos, cooldown, 1);
      IntervalsBounded(nanos, cooldown);
      AtMostFloor(1, WholeSeconds(nanos), cooldown);
    }
  }

  /** The first cycle starts with the arena, and each following one an interval later. */
  lemma CyclesAreSpaced(span: Span, cooldown: u32, index: nat)
    requires ExpectedCycleCount(span, cooldown).Ok?
    requires index + 1 < ExpectedCycleCount(span, cooldown).value
    ensures ScheduledCycleAt(span, cooldown, 0) == Ok(span.startsAt)
    ensures ScheduledCycleAt(span, cooldown, index).Ok? && ScheduledCycleAt(span, cooldown, index + 1).Ok?
    ensures ScheduledCycleAt(span, cooldown, index + 1).value
            == ScheduledCycleAt(span, cooldown, index).value + cooldown * NANOS
  {
    EveryCycleFits(span, cooldown, index);
    EveryCycleFits(span, cooldown, index + 1);
    hide ExpectedCycleCount;
    Distribute(cooldown, index);
  }

  /** How many whole intervals fit a stretch of time, both ways. */
  lemma IntervalsIn(nanos: int, cooldown: int, count: int)
    requires 0 <= nanos && 0 < cooldown
    ensures count <= WholeSeconds(nanos) / cooldown <==> cooldown * count * NANOS <= nanos
  {
    var seconds := cooldown * count;
    AtMostFloor(count, WholeSeconds(nanos), cooldown);
    AtMostFloor(seconds, nanos, NANOS);
    assert count * cooldown == seconds;
  }

  lemma BackwardIsNotPositive(nanos: int)
    ensures nanos < 0 ==> WholeSeconds(nanos) <= 0
  {
    if nanos < 0 {
      assert TruncDiv(-nanos, NANOS) >= 0;
    }
  }

  lemma ScheduleShape(span: Span, cooldown: u32)
    requires ExpectedCycleCount(span, cooldown).Ok?
    ensures 0 < cooldown && 0 <= span.endsAt - span.startsAt
    ensures ExpectedCycleCount(span, cooldown).value
            == WholeSeconds(span.endsAt - span.startsAt) / cooldown
    ensures ExpectedCycleCount(span, cooldown).value <= 1_000_000_000_000
  {
    var nanos := span.endsAt - span.startsAt;
    BackwardIsNotPositive(nanos);
    hide WholeSeconds;
    IntervalsIn(nanos, cooldown, 1_000_000_000_001);
    MulMono(1, cooldown, 1_000_000_000_001);
  }

  lemma Distribute(cooldown: int, index: int)
    ensures cooldown * (index + 1) == cooldown * index + cooldown
  {
  }

  /** The schedule holds exactly the cycles that run a full interval before the arena ends, and
      every one of them has a start time. */
  lemma EveryCycleFits(span: Span, cooldown: u32, index: nat)
    requires ExpectedCycleCount(span, cooldown).Ok?
    ensures index < ExpectedCycleCount(span, cooldown).value
            <==> && ScheduledCycleAt(span, cooldown, index).Ok?
                 && ScheduledCycleAt(span, cooldown, index).value + cooldown * NANOS <= span.endsAt
    ensures index < ExpectedCycleCount(span, cooldown).value ==>
              span.startsAt <= ScheduledCycleAt(span, cooldown, index).value
  {
    hide ExpectedCycleCount, WholeSeconds;
    ScheduleShape(span, cooldown);
    var nanos := span.endsAt - span.startsAt;
    IntervalsIn(nanos, cooldown, index + 1);
    Distribute(cooldown, index);
    var offset := cooldown * index;
    assert cooldown * (index + 1) * NANOS == offset * NANOS + cooldown * NANOS;
    MulMono(0, cooldown, index);
  }

  lemma IntervalsBounded(elapsed: int, cooldown: int)
    requires 0 <= elapsed < 1_000_000_000_000 * NANOS && 0 < cooldown
    ensures 0 <= WholeSeconds(elapsed) / cooldown <= 1_000_000_000_000
  {
    hide WholeSeconds;
    IntervalsIn(elapsed, cooldown, 0);
    IntervalsIn(elapsed, cooldown, 1_000_000_000_000);
    MulMono(1, cooldown, 1_000_000_000_000);
  }

  lemma DueShape(span: Span, cooldown: u32, now: Instant)
    requires ExpectedCycleCount(span, cooldown).Ok? && span.startsAt <= now
    ensures var elapsed := Min(now, span.endsAt) - span.startsAt;
            && 0 <= elapsed
            && DueCycleCount(span, cooldown, now)
               == Ok(Min(WholeSeconds(elapsed) / cooldown + 1,
                         ExpectedCycleCount(span, cooldown).value))
  {
    ScheduleShape(span, cooldown);
    hide ExpectedCycleCount;
    var elapsed := Min(now, span.endsAt) - span.startsAt;
    IntervalsBounded(elapsed, cooldown);
    hide WholeSeconds;
  }

  /** The due count is exactly the number of scheduled starts that have come: the first `due`
      cycles and no other. */
  lemma DueIsExact(span: Span, cooldown: u32, now: Instant, index: nat)
    requires ExpectedCycleCount(span, cooldown).Ok?
    requires index < ExpectedCycleCount(span, cooldown).value
    ensures DueCycleCount(span, cooldown, now).Ok?
    ensures DueCycleCount(span, cooldown, now).value <= ExpectedCycleCount(span, cooldown).value
    ensures ScheduledCycleAt(span, cooldown, index).Ok?
    ensures index < DueCycleCount(span, cooldown, now).value
            <==> ScheduledCycleAt(span, cooldown, index).value <= now
  {
    EveryCycleFits(span, cooldown, index);
    ScheduleShape(span, cooldown);
    if span.startsAt <= now {
      DueShape(span, cooldown, now);
      hide ExpectedCycleCount, DueCycleCount, WholeSeconds;
      IntervalsIn(Min(now, span.endsAt) - span.startsAt, cooldown, index);
    }
  }
}
