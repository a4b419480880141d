/** The receive window against a Central whose clock drifts, and what catching up may therefore skip. */
module Windows {
  import opened Octets
  import opened Wrappers
  import opened Timing
  import opened Connection
  import opened Instants
  import opened Backend

  /** Both clocks together drift by at most this many parts per million: the Central's class plus 50. */
  function TotalPpm(sleepClockAccuracy: u8): nat {
    [500, 250, 150, 100, 75, 50, 30, 20][sleepClockAccuracy % 8] + 50
  }

  /** The transmit window in force: that of an update due at this event, or what remains of the last one. */
  function TransmitWindowUs(s: Schedule): nat {
    if s.update.Some? && s.update.value.instant == s.counter then s.update.value.windowSize * 1_250 else s.windowUs
  }

  /**
   * When a packet ends, in millionths of a microsecond: it starts `offset` after the anchor, was delayed by a
   * clock that drifts by `ppm` since the last anchor heard, and takes `airtime` on air.
   */
  function EndOfPacket(s: Schedule, offset: nat, ppm: nat, airtime: nat): int {
    1_000_000 * (s.nextAnchor + offset + airtime) + (s.nextAnchor - s.lastSync) * ppm
  }

  lemma CloseAsCeiling(s: Schedule)
    requires s.lastSync <= s.nextAnchor
    ensures (s.nextAnchor - s.lastSync) * TotalPpm(s.request.sleepClockAccuracy) >= 0
    ensures var drift := (s.nextAnchor - s.lastSync) * TotalPpm(s.request.sleepClockAccuracy);
      ReceiveClose(s) == s.nextAnchor + (drift + 999_999) / 1_000_000 + TransmitWindowUs(s) + 296
  {
    MulMonotone(0, s.nextAnchor - s.lastSync, TotalPpm(s.request.sleepClockAccuracy));
    assert TotalPpm(s.request.sleepClockAccuracy) == ClockPpm(s.request);
  }

  /** Whatever the drift within both clock classes, a longest packet from the transmit window ends in time. */
  lemma WindowCoversCentral(s: Schedule, offset: nat, ppm: nat, airtime: nat)
    requires s.lastSync <= s.nextAnchor
    requires offset <= TransmitWindowUs(s) && ppm <= TotalPpm(s.request.sleepClockAccuracy) && airtime <= 296
    ensures EndOfPacket(s, offset, ppm, airtime) <= 1_000_000 * ReceiveClose(s)
  {
    CloseAsCeiling(s);
    var total, silence := TotalPpm(s.request.sleepClockAccuracy), s.nextAnchor - s.lastSync;
    assert silence * ppm <= silence * total by {
      MulMonotone(ppm, total, silence);
      assert ppm * silence == silence * ppm && total * silence == silence * total;
    }
  }

  /** The window is no longer than that: it closes within a microsecond of the last such end. */
  lemma WindowIsTight(s: Schedule)
    requires s.lastSync <= s.nextAnchor
    ensures 1_000_000 * ReceiveClose(s)
          < EndOfPacket(s, TransmitWindowUs(s), TotalPpm(s.request.sleepClockAccuracy), 296) + 1_000_000
  {
    CloseAsCeiling(s);
  }

  /**
   * Catching up never skips an event while the Central may still be sending in it, and it stops at an event
   * whose last possible packet ends less than a microsecond before now, or later.
   */
  lemma CatchUpSkipsOnlyPastEvents(before: Link, after: Link, now: nat, r: Result<u16, u8>, k: nat,
                                   offset: nat, ppm: nat, airtime: nat)
    requires ScheduleOk(before.sched) && SkipResult(before, after, now, r) && r.Ok?
    ensures var s := SkipEvents(before, k).sched;
      k < r.value && offset <= TransmitWindowUs(s) && ppm <= TotalPpm(s.request.sleepClockAccuracy) && airtime <= 296
      ==> EndOfPacket(s, offset, ppm, airtime) < 1_000_000 * now
    ensures var s := after.sched;
      1_000_000 * now
      < EndOfPacket(s, TransmitWindowUs(s), TotalPpm(s.request.sleepClockAccuracy), 296) + 1_000_000
  {
    SkipsCoast(before, k);
    CoastKeepsSchedule(before.sched, Never, k);
    SkipsCoast(before, r.value);
    CoastKeepsSchedule(before.sched, Never, r.value);
    var s := SkipEvents(before, k).sched;
    if k < r.value && offset <= TransmitWindowUs(s) && ppm <= TotalPpm(s.request.sleepClockAccuracy)
      && airtime <= 296 {
      WindowCoversCentral(s, offset, ppm, airtime);
    }
    WindowIsTight(after.sched);
  }
}
