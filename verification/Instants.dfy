/** Event scheduling: windows close later and later, and instants are applied exactly once, on time. */
module Instants {
  import opened Octets
  import opened Wrappers
  import opened Timing
  import opened ControlPdus
  import opened ChannelSelection
  import opened ConnectInd
  import opened Sequence
  import opened Llcp
  import opened Connection
  import opened Runs

  /** The number of the event that an instant announced during event `at` refers to. */
  function DueAt(at: nat, instant: u16): nat {
    at + Until(CounterAfter(0, at), instant)
  }

  /** A due event carries the announced instant in its 16-bit counter. */
  lemma DueAtReachesInstant(at: nat, instant: u16)
    ensures DueAt(at, instant) % 0x1_0000 == instant
  {
    CounterWraps(0, at);
    UntilWraps(at % 0x1_0000, instant);
  }

  lemma DueAtPersists(at: nat, instant: u16)
    ensures instant == CounterAfter(0, at) <==> DueAt(at, instant) == at
    ensures instant != CounterAfter(0, at) ==> DueAt(at + 1, instant) == DueAt(at, instant)
  {
  }

  /** Even entries accept an indication; each odd one applies its predecessor at the event that is due. */
  ghost predicate Paired<T>(log: seq<Record<T>>, i: nat, instantOf: T -> u16)
    requires i < |log|
  {
    if i % 2 == 0 then log[i].Accepted?
    else log[i] == Applied(log[i - 1].item, DueAt(log[i - 1].at, instantOf(log[i - 1].item)))
  }

  /**
   * Indications were accepted and applied in turn, in order of events. Each was applied at the event its
   * instant refers to, and a pending one still waits for its event, at most 32766 events ahead.
   */
  ghost predicate Ledger<T>(log: seq<Record<T>>, pending: Option<T>, instantOf: T -> u16, elapsed: nat) {
    && |log| % 2 == (if pending.Some? then 1 else 0)
    && (forall i, j :: 0 <= i <= j < |log| ==> log[i].at <= log[j].at <= elapsed)
    && (forall i :: 0 <= i < |log| ==> Paired(log, i, instantOf))
    && (pending.Some? ==>
          var last := log[|log| - 1];
          && last.item == pending.value
          && DueAt(last.at, instantOf(last.item)) == DueAt(elapsed, instantOf(last.item)) <= elapsed + 32_766)
  }

  lemma LedgerAccepts<T>(log: seq<Record<T>>, instantOf: T -> u16, elapsed: nat, item: T)
    requires Ledger(log, None, instantOf, elapsed) && DueAt(elapsed, instantOf(item)) <= elapsed + 32_766
    ensures Ledger(log + [Accepted(item, elapsed)], Some(item), instantOf, elapsed)
  {
    var after := log + [Accepted(item, elapsed)];
    forall i | 0 <= i < |after|
      ensures Paired(after, i, instantOf)
    {
      assert i < |log| ==> Paired(log, i, instantOf);
    }
  }

  lemma LedgerApplies<T>(log: seq<Record<T>>, instantOf: T -> u16, elapsed: nat, item: T)
    requires Ledger(log, Some(item), instantOf, elapsed) && instantOf(item) == CounterAfter(0, elapsed)
    ensures Ledger(log + [Applied(item, elapsed)], None, instantOf, elapsed)
  {
    DueAtPersists(elapsed, instantOf(item));
    var after := log + [Applied(item, elapsed)];
    forall i | 0 <= i < |after|
      ensures Paired(after, i, instantOf)
    {
      assert i < |log| ==> Paired(log, i, instantOf);
    }
  }

  lemma LedgerWaits<T>(log: seq<Record<T>>, pending: Option<T>, instantOf: T -> u16, elapsed: nat)
    requires Ledger(log, pending, instantOf, elapsed)
    requires pending.Some? ==> instantOf(pending.value) != CounterAfter(0, elapsed)
    ensures Ledger(log, pending, instantOf, elapsed + 1)
  {
    if pending.Some? {
      DueAtPersists(elapsed, instantOf(pending.value));
    }
  }

  function UpdateInstant(u: ConnectionUpdateInd): u16 {
    u.instant
  }

  function MapInstant(m: ChannelMapInd): u16 {
    m.instant
  }

  ghost predicate ScheduleOk(s: Schedule) {
    var r := s.request;
    && r.windowSize < r.interval
    && Sound(s.channels) && r.channelMap == s.channels.bitmap
    && (s.windowUs == 0 || s.windowUs == r.windowSize * UNIT_US)
    && s.lastSync <= s.nextAnchor
    && s.counter == CounterAfter(0, s.elapsed)
    && (s.update.Some? ==> s.update.value.windowSize < s.update.value.interval)
    && (s.newMap.Some? ==> MapIsValid(s.newMap.value.bitmap))
    && Ledger(s.updates, s.update, UpdateInstant, s.elapsed)
    && Ledger(s.maps, s.newMap, MapInstant, s.elapsed)
  }

  predicate Settled(s: Schedule) {
    !UpdateDue(s) && !MapDue(s)
  }

  lemma ApplyMapKeeps(s: Schedule)
    requires ScheduleOk(s) && MapDue(s)
    ensures ScheduleOk(ApplyMap(s)) && !MapDue(ApplyMap(s))
  {
    LedgerApplies(s.maps, MapInstant, s.elapsed, s.newMap.value);
  }

  lemma ApplyUpdateKeeps(s: Schedule)
    requires ScheduleOk(s) && UpdateDue(s)
    ensures var after := ApplyUpdate(s);
      ScheduleOk(after) && !UpdateDue(after) && (MapDue(after) <==> MapDue(s))
  {
    LedgerApplies(s.updates, UpdateInstant, s.elapsed, s.update.value);
  }

  /** Applying instants never fails and leaves nothing due. */
  lemma ApplyKeepsSchedule(s: Schedule)
    requires ScheduleOk(s)
    ensures ApplyError(s) == None
    ensures ScheduleOk(ApplyDue(s)) && Settled(ApplyDue(s))
  {
    if MapDue(s) {
      ApplyMapKeeps(s);
    }
    var mapped := if MapDue(s) then ApplyMap(s) else s;
    if UpdateDue(mapped) {
      ApplyUpdateKeeps(mapped);
    }
  }

  /** Applying instants does not move the end of the receive window. */
  lemma ApplyKeepsClose(s: Schedule)
    ensures ReceiveClose(ApplyDue(s)) == ReceiveClose(s)
  {
    var applied := ApplyDue(s);
    assert applied.nextAnchor == s.nextAnchor && applied.lastSync == s.lastSync;
    assert applied.request.sleepClockAccuracy == s.request.sleepClockAccuracy && WindowOf(applied) == WindowOf(s);
  }

  lemma FollowingKeepsSchedule(s: Schedule)
    requires ScheduleOk(s) && Settled(s)
    ensures ScheduleOk(ScheduleFollowing(s))
  {
    LedgerWaits(s.updates, s.update, UpdateInstant, s.elapsed);
    LedgerWaits(s.maps, s.newMap, MapInstant, s.elapsed);
  }

  lemma AcceptUpdateKeeps(s: Schedule, u: ConnectionUpdateInd)
    requires ScheduleOk(s) && s.update == None && u.windowSize < u.interval && Until(s.counter, u.instant) <= 32_766
    ensures ScheduleOk(AcceptUpdate(s, u))
  {
    LedgerAccepts(s.updates, UpdateInstant, s.elapsed, u);
  }

  lemma AcceptMapKeeps(s: Schedule, m: ChannelMapInd)
    requires ScheduleOk(s) && s.newMap == None && MapIsValid(m.bitmap) && Until(s.counter, m.instant) <= 32_766
    ensures ScheduleOk(AcceptMap(s, m))
  {
    LedgerAccepts(s.maps, MapInstant, s.elapsed, m);
  }

  /** Within an event the schedule only hops once and settles what is due. */
  predicate SameEvent(before: Schedule, after: Schedule, hops: nat) {
    && after.elapsed == before.elapsed && after.counter == before.counter
    && after.channels.hop == before.channels.hop
    && after.channels.lastUnmapped == Hops(before.channels, hops).lastUnmapped
  }

  /** Only the two indications touch the schedule. */
  lemma ControlKeepsSchedule(c: Link, payload: seq<u8>)
    requires ScheduleOk(c.sched)
    ensures ScheduleOk(HandleLlControl(c, payload).0.sched)
    ensures SameEvent(c.sched, HandleLlControl(c, payload).0.sched, 0)
  {
    if payload != [] && payload[0] == 0x00 {
      UpdateIndicationSchedule(c, payload);
    } else if payload != [] && payload[0] == 0x01 {
      MapIndicationSchedule(c, payload);
    } else {
      OtherPdusKeepSchedule(c, payload);
    }
  }

  lemma UpdateIndicationSchedule(c: Link, payload: seq<u8>)
    requires ScheduleOk(c.sched)
    ensures var after := HandleConnectionUpdate(c, payload).0.sched;
      ScheduleOk(after) && SameEvent(c.sched, after, 0)
  {
    var parsed := ParseConnectionUpdate(payload, c.sched.counter);
    if parsed.Ok? && c.sched.update == None {
      assert OwnUpdate(c, parsed.value).0.sched == c.sched;
      AcceptUpdateKeeps(c.sched, parsed.value);
    }
  }

  lemma MapIndicationSchedule(c: Link, payload: seq<u8>)
    requires ScheduleOk(c.sched)
    ensures var after := HandleChannelMap(c, payload).0.sched;
      ScheduleOk(after) && SameEvent(c.sched, after, 0)
  {
    if ParseChannelMap(payload, c.sched.counter).Ok? && c.sched.newMap == None {
      AcceptMapKeeps(c.sched, ParseChannelMap(payload, c.sched.counter).value);
    }
  }

  lemma OtherPdusKeepSchedule(c: Link, payload: seq<u8>)
    requires payload == [] || payload[0] > 0x01
    ensures HandleLlControl(c, payload).0.sched == c.sched
  {
  }

  /** For 64-bit silences, the widening of the schedule is what the saturating source computation yields. */
  lemma WideningMatchesSource(s: Schedule)
    requires s.nextAnchor <= U64_MAX
    ensures var silence := if s.nextAnchor > s.lastSync then s.nextAnchor - s.lastSync else 0;
      Widening(s) == WindowWideningUs(silence, s.request.sleepClockAccuracy, LOCAL_CLOCK_PPM)
  {
    WideningIsExactCeiling(if s.nextAnchor > s.lastSync then s.nextAnchor - s.lastSync else 0,
                           s.request.sleepClockAccuracy, LOCAL_CLOCK_PPM);
  }

  // Skipping expired events.

  /** The schedule of an event that no packet synchronized; a missed window was opened, a skipped one was not. */
  function Unheard(s: Schedule, missed: bool): Schedule {
    var applied := ApplyDue(s);
    ScheduleFollowing(applied.(channels := Hop(applied.channels), windowUs := if missed then 0 else applied.windowUs))
  }

  lemma UnheardKeepsSchedule(s: Schedule, missed: bool)
    requires ScheduleOk(s)
    ensures ScheduleOk(Unheard(s, missed))
  {
    ApplyKeepsSchedule(s);
    var applied := ApplyDue(s);
    FollowingKeepsSchedule(applied.(channels := Hop(applied.channels),
                                    windowUs := if missed then 0 else applied.windowUs));
  }

  /** Every skipped event moves the end of the receive window forward. */
  lemma SkippingMovesClose(s: Schedule)
    requires ScheduleOk(s)
    ensures ReceiveClose(s) < ReceiveClose(Unheard(s, false))
  {
    ApplyKeepsSchedule(s);
    ApplyKeepsClose(s);
    var applied, after := ApplyDue(s), Unheard(s, false);
    DivCeilSplit(applied.nextAnchor - applied.lastSync, after.nextAnchor - applied.nextAnchor, ClockPpm(s.request));
    assert WindowOf(applied) == applied.windowUs < IntervalUs(applied.request);
    assert Widening(applied) <= Widening(after);
  }

  /** The schedule `n` events later when no packet synchronizes; `missed` tells which windows were opened. */
  function Coast(s: Schedule, missed: nat -> bool, n: nat): Schedule {
    if n == 0 then s else Unheard(Coast(s, missed, n - 1), missed(n - 1))
  }

  predicate Never(event: nat) {
    false
  }

  lemma {:induction false} SkipsCoast(c: Link, n: nat)
    ensures SkipEvents(c, n).sched == Coast(c.sched, Never, n)
  {
    if n > 0 {
      SkipsCoast(c, n - 1);
      SkipIsUnheard(SkipEvents(c, n - 1));
    }
  }

  lemma SkipIsUnheard(c: Link)
    ensures SkipEvent(c).sched == Unheard(c.sched, false)
  {
  }

  lemma {:induction false} CoastKeepsSchedule(s: Schedule, missed: nat -> bool, n: nat)
    requires ScheduleOk(s)
    ensures ScheduleOk(Coast(s, missed, n))
  {
    if n > 0 {
      CoastKeepsSchedule(s, missed, n - 1);
      UnheardKeepsSchedule(Coast(s, missed, n - 1), missed(n - 1));
    }
  }

  lemma CatchUpFrom(s: Schedule, now: nat, skipped: nat) returns (n: nat)
    requires ScheduleOk(s)
    requires forall k: nat :: k < skipped ==> ReceiveClose(Coast(s, Never, k)) < now
    ensures now <= ReceiveClose(Coast(s, Never, n))
    ensures forall k: nat :: k < n ==> ReceiveClose(Coast(s, Never, k)) < now
    decreases Lag(now, Coast(s, Never, skipped))
  {
    var here := Coast(s, Never, skipped);
    if now <= ReceiveClose(here) {
      n := skipped;
    } else {
      CoastKeepsSchedule(s, Never, skipped);
      SkippingMovesClose(here);
      assert Coast(s, Never, skipped + 1) == Unheard(here, false);
      n := CatchUpFrom(s, now, skipped + 1);
    }
  }

  function Lag(now: nat, s: Schedule): nat {
    if now <= ReceiveClose(s) then 0 else now - ReceiveClose(s)
  }

  /** There is a first window that closes no earlier than `now`. */
  ghost predicate CatchesUp(c: Link, now: nat) {
    exists n: nat :: now <= ReceiveClose(SkipEvents(c, n).sched)
      && forall k: nat :: k < n ==> ReceiveClose(SkipEvents(c, k).sched) < now
  }

  /** Catching up with any clock ends. */
  lemma CatchUpEnds(c: Link, now: nat)
    requires ScheduleOk(c.sched)
    ensures CatchesUp(c, now)
  {
    var n := CatchUpFrom(c.sched, now, 0);
    SkipsCoast(c, n);
    forall k: nat | k < n
      ensures ReceiveClose(SkipEvents(c, k).sched) < now
    {
      SkipsCoast(c, k);
    }
  }

  predicate AdvancedBy(before: Schedule, after: Schedule, n: nat) {
    && after.counter == CounterAfter(before.counter, n) && after.elapsed == before.elapsed + n
    && after.channels.hop == before.channels.hop
    && after.channels.lastUnmapped == Hops(before.channels, n).lastUnmapped
  }

  lemma UnheardAdvances(before: Schedule, s: Schedule, n: nat, missed: bool)
    requires AdvancedBy(before, s, n)
    ensures AdvancedBy(before, Unheard(s, missed), n + 1)
  {
    var applied := ApplyDue(s);
    assert applied.counter == s.counter && applied.elapsed == s.elapsed;
    assert applied.channels.hop == s.channels.hop && applied.channels.lastUnmapped == s.channels.lastUnmapped;
    assert Hops(before.channels, n + 1) == Hop(Hops(before.channels, n));
  }

  lemma {:induction false} CoastAdvances(s: Schedule, missed: nat -> bool, n: nat)
    ensures AdvancedBy(s, Coast(s, missed, n), n)
  {
    if n > 0 {
      CoastAdvances(s, missed, n - 1);
      UnheardAdvances(s, Coast(s, missed, n - 1), n - 1, missed(n - 1));
    }
  }

  /** Skipping `n` events advances the counter modulo 65536 and hops `n` times, whatever map updates fall due. */
  lemma SkipsAdvanceCounterAndPhase(c: Link, n: nat)
    ensures var before, after := c.sched, SkipEvents(c, n).sched;
      && after.counter == (before.counter + n) % 0x1_0000
      && after.elapsed == before.elapsed + n
      && after.channels.lastUnmapped == Hops(before.channels, n).lastUnmapped
  {
    SkipsCoast(c, n);
    CoastAdvances(c.sched, Never, n);
    CounterWraps(c.sched.counter, n);
  }

  // Anchors.

  lemma UnheardAnchor(s: Schedule, missed: bool)
    ensures !UpdateDue(s) ==>
      Unheard(s, missed).nextAnchor == s.nextAnchor + s.request.interval * UNIT_US
        + if s.update.Some? && s.update.value.instant == Following(s.counter)
          then s.update.value.windowOffset * UNIT_US else 0
    ensures !UpdateDue(s) ==>
      Unheard(s, missed).update == s.update && Unheard(s, missed).request.interval == s.request.interval
    ensures UpdateDue(s) ==>
      && Unheard(s, missed).update == None
      && Unheard(s, missed).request.interval == s.update.value.interval
      && Unheard(s, missed).nextAnchor == s.nextAnchor + s.update.value.interval * UNIT_US
  {
  }

  lemma CounterMeets(counter: u16, instant: u16, k: nat)
    requires k <= Until(counter, instant)
    ensures CounterAfter(counter, k) == instant <==> k == Until(counter, instant)
  {
    CounterWraps(counter, k);
  }

  /** The anchor `k` events after one at `base`, when an update takes effect at the `j`-th. */
  function AnchorAfter(base: nat, oldUs: nat, u: ConnectionUpdateInd, j: nat, k: nat): nat {
    base + if k < j then Times(k, oldUs)
           else Times(j, oldUs) + u.windowOffset * UNIT_US + Times(k - j, u.interval * UNIT_US)
  }

  lemma AnchorAdvances(base: nat, oldUs: nat, u: ConnectionUpdateInd, j: nat, k: nat)
    requires j > 0
    ensures AnchorAfter(base, oldUs, u, j, k + 1) == AnchorAfter(base, oldUs, u, j, k)
      + (if k < j then oldUs else u.interval * UNIT_US) + if k + 1 == j then u.windowOffset * UNIT_US else 0
  {
  }

  /** In products: `k` old intervals, or `j` of them, the window offset and then new intervals. */
  lemma AnchorFormula(base: nat, oldUs: nat, u: ConnectionUpdateInd, j: nat, k: nat)
    ensures AnchorAfter(base, oldUs, u, j, k)
         == base + if k < j then k * oldUs
                   else j * oldUs + u.windowOffset * UNIT_US + (k - j) * (u.interval * UNIT_US)
  {
    TimesIsProduct(k, oldUs);
    TimesIsProduct(j, oldUs);
    if k >= j {
      TimesIsProduct(k - j, u.interval * UNIT_US);
    }
  }

  predicate Tracks(s: Schedule, after: Schedule, u: ConnectionUpdateInd, k: nat) {
    var j := Until(s.counter, u.instant);
    && after.counter == CounterAfter(s.counter, k)
    && after.nextAnchor == AnchorAfter(s.nextAnchor, s.request.interval * UNIT_US, u, j, k)
    && (k <= j ==> after.update == Some(u) && after.request.interval == s.request.interval)
    && (k > j ==> after.update == None && after.request.interval == u.interval)
  }

  lemma UnheardTracks(s: Schedule, before: Schedule, u: ConnectionUpdateInd, k: nat, missed: bool)
    requires 1 <= Until(s.counter, u.instant) && Tracks(s, before, u, k)
    ensures Tracks(s, Unheard(before, missed), u, k + 1)
  {
    var j := Until(s.counter, u.instant);
    if k <= j {
      CounterMeets(s.counter, u.instant, k);
    }
    if k < j {
      CounterMeets(s.counter, u.instant, k + 1);
    }
    UnheardAnchor(before, missed);
    AnchorAdvances(s.nextAnchor, s.request.interval * UNIT_US, u, j, k);
  }

  lemma {:induction false} CoastTracks(s: Schedule, from: Schedule, u: ConnectionUpdateInd, k: nat,
                                       missed: nat -> bool, n: nat)
    requires 1 <= Until(s.counter, u.instant) && Tracks(s, from, u, k)
    ensures Tracks(s, Coast(from, missed, n), u, k + n)
  {
    if n > 0 {
      CoastTracks(s, from, u, k, missed, n - 1);
      UnheardTracks(s, Coast(from, missed, n - 1), u, k + n - 1, missed(n - 1));
    }
  }

  /**
   * Section 5.1.1 of Bluetooth Core Vol 6 Part B: when an event leaves an update pending for a later instant,
   * the anchors that follow without resynchronization are `j` old intervals, then the window offset, then new
   * intervals, and the new interval holds from the instant on.
   */
  lemma {:induction false} AnchorsFollowTheUpdate(s: Schedule, missed: nat -> bool, n: nat)
    requires s.update.Some? && 1 <= Until(s.counter, s.update.value.instant)
    ensures Tracks(s, Coast(ScheduleFollowing(s), missed, n), s.update.value, n + 1)
  {
    var u := s.update.value;
    var j := Until(s.counter, u.instant);
    AnchorAdvances(s.nextAnchor, s.request.interval * UNIT_US, u, j, 0);
    CounterMeets(s.counter, u.instant, 1);
    assert AnchorAfter(s.nextAnchor, s.request.interval * UNIT_US, u, j, 0) == s.nextAnchor;
    assert Tracks(s, ScheduleFollowing(s), u, 1);
    CoastTracks(s, ScheduleFollowing(s), u, 1, missed, n);
  }

  lemma {:induction false} CoastWithoutUpdate(s: Schedule, missed: nat -> bool, n: nat)
    requires s.update == None
    ensures var after := Coast(s, missed, n);
      && after.update == None && after.request.interval == s.request.interval
      && after.nextAnchor == s.nextAnchor + Times(n, IntervalUs(s.request))
  {
    if n > 0 {
      CoastWithoutUpdate(s, missed, n - 1);
      UnheardAnchor(Coast(s, missed, n - 1), missed(n - 1));
    }
  }

  /**
   * An update whose instant is the very event that carries it takes effect at the end of that event and its
   * window offset is dropped: the anchors of section 5.1.1 are met exactly when that offset is zero.
   */
  lemma ImmediateUpdateDropsOffset(s: Schedule, anchor: nat, missed: nat -> bool, n: nat)
    requires UpdateDue(s)
    ensures var u, next := s.update.value, ScheduleFollowing(Synchronize(ApplyDue(s), anchor));
      && Coast(next, missed, n).nextAnchor == anchor + Times(n + 1, u.interval * UNIT_US)
      && (Coast(next, missed, n).nextAnchor == AnchorAfter(anchor, s.request.interval * UNIT_US, u, 0, n + 1)
          <==> u.windowOffset == 0)
  {
    var u, next := s.update.value, ScheduleFollowing(Synchronize(ApplyDue(s), anchor));
    assert next.update == None && next.nextAnchor == anchor + u.interval * UNIT_US;
    CoastWithoutUpdate(next, missed, n);
  }

  // Whole runs.

  /** What `CONNECT_IND` parsing guarantees. */
  predicate Connectable(c: ConnectRequest) {
    TimingIsValid(c) && MapIsValid(c.channelMap) && 5 <= c.hopIncrement <= 16
  }

  /** Every parsed request opens a connection. */
  lemma ParsedRequestsOpen(packet: seq<u8>, address: DeviceAddress, addressIsValid: u32 -> bool, endUs: nat)
    requires Parse(packet, address, addressIsValid).Ok?
    ensures var c := Parse(packet, address, addressIsValid).value;
      Connectable(c) && Open(c, endUs).Some? && ScheduleOk(Open(c, endUs).value.sched)
  {
    ParsedRequestIsSound(packet, address, addressIsValid);
    OpenIsScheduled(Parse(packet, address, addressIsValid).value, endUs);
  }

  lemma OpenIsScheduled(c: ConnectRequest, endUs: nat)
    requires Connectable(c)
    ensures Open(c, endUs).Some? && ScheduleOk(Open(c, endUs).value.sched)
  {
  }

  lemma HopKeepsSchedule(s: Schedule)
    requires ScheduleOk(s) && Settled(s)
    ensures var after := s.(channels := Hop(s.channels), windowUs := 0);
      ScheduleOk(after) && Settled(after) && SameEvent(s, after, 1)
  {
    assert Hops(s.channels, 1) == Hop(Hops(s.channels, 0));
  }

  lemma SynchronizeKeepsSchedule(s: Schedule, anchor: nat)
    requires ScheduleOk(s) && Settled(s)
    ensures var after := Synchronize(s, anchor);
      ScheduleOk(after) && Settled(after) && SameEvent(s, after, 0)
  {
  }

  lemma ApplyStaysInEvent(s: Schedule)
    ensures SameEvent(s, ApplyDue(s), 0)
  {
  }

  /** What an event result leaves of the schedule. */
  ghost predicate EventOk(before: Schedule, result: (Link, Option<u8>), hops: nat) {
    && ScheduleOk(result.0.sched)
    && (result.1 == None ==> Settled(result.0.sched) && SameEvent(before, result.0.sched, hops))
  }

  lemma SettleKeepsSchedule(before: Schedule, c: Link, anchor: nat)
    requires ScheduleOk(c.sched) && SameEvent(before, c.sched, 0)
    ensures ApplyError(c.sched) == None
    ensures var after := Synchronize(Settle(c).sched, anchor);
      ScheduleOk(after) && Settled(after) && SameEvent(before, after, 0)
  {
    ApplyKeepsSchedule(c.sched);
    ApplyStaysInEvent(c.sched);
    SynchronizeKeepsSchedule(ApplyDue(c.sched), anchor);
  }

  lemma FinishKeepsSchedule(c: Link, header: u8, payload: seq<u8>, outstanding: bool, sentTerminate: bool,
                            timestampUs: nat, now: u64)
    requires StagedOk(c.tx) && c.tx.staged.Some? && ScheduleOk(c.sched)
    ensures EventOk(c.sched, FinishEvent(c, header, payload, outstanding, sentTerminate, timestampUs, now), 0)
  {
    var (acked, ok) := Acknowledge(c, Nesn(header), outstanding, now);
    assert acked.sched == c.sched;
    AcceptKeepsSchedule(acked, header, payload);
    SettleKeepsSchedule(c.sched, Accept(acked, header, payload).0, AnchorOf(timestampUs, |payload|));
  }

  lemma AcceptKeepsSchedule(c: Link, header: u8, payload: seq<u8>)
    requires ScheduleOk(c.sched)
    ensures var after := Accept(c, header, payload).0.sched;
      ScheduleOk(after) && SameEvent(c.sched, after, 0)
  {
    if Sn(header) == c.tx.bits.expected && Llid(header) == LLID_CONTROL {
      ControlKeepsSchedule(c.(tx := TakeReceived(c.tx, header, payload)), payload);
    }
  }

  lemma BeginKeepsSchedule(c: Link)
    requires ScheduleOk(c.sched)
    ensures var begun := BeginEvent(c).sched;
      && ApplyError(c.sched) == None && ScheduleOk(begun) && Settled(begun) && SameEvent(c.sched, begun, 1)
  {
    ApplyKeepsSchedule(c.sched);
    ApplyStaysInEvent(c.sched);
    HopKeepsSchedule(ApplyDue(c.sched));
  }

  lemma ExchangeKeepsSchedule(c: Link, e: Exchange, now: u64)
    requires StagedOk(c.tx) && c.tx.staged.Some? && ScheduleOk(c.sched) && Settled(c.sched)
    ensures EventOk(c.sched, ExchangeEvent(c, e, now), 0)
  {
    ReportCarries(c, e.transmitted);
    var reported := Report(c, e.transmitted).0;
    assert reported.sched == c.sched;
    if Report(c, e.transmitted).1 && e.crcOk && ParsePacket(e.packet).Some? {
      FinishKeepsSchedule(reported, ParsePacket(e.packet).value.0, ParsePacket(e.packet).value.1,
                          !c.tx.staged.value.unsent, SendsTerminate(reported, e.transmitted), e.timestampUs, now);
    }
  }

  lemma EventKeepsSchedule(c: Link, exchange: Option<Exchange>, now: u64)
    requires StagedOk(c.tx) && ScheduleOk(c.sched)
    ensures EventOk(c.sched, ConnectionEvent(c, exchange, now), 1)
  {
    BeginKeepsSchedule(c);
    StageKeeps(c.tx);
    var begun := BeginEvent(c);
    if exchange.Some? && !StageFails(begun) {
      ExchangeKeepsSchedule(begun.(tx := Stage(begun.tx)), exchange.value, now);
    }
  }

  /** An event in which nothing was received leaves the schedule of a missed window. */
  lemma UnsynchronizedEventIsMissed(r: Running, exchange: Option<Exchange>, now: u64)
    requires StagedOk(r.link.tx) && r.open && ScheduleOk(r.link.sched)
    requires exchange.Some? ==> !exchange.value.crcOk || ParsePacket(exchange.value.packet) == None
    ensures var after := Act(r, Event(exchange, now));
      after.open ==> after.link.sched == Unheard(r.link.sched, true)
  {
    StageKeeps(r.link.tx);
  }

  ghost predicate RunInv(start: Schedule, r: Running) {
    ScheduleOk(r.link.sched) && (r.open ==> AdvancedBy(start, r.link.sched, r.link.sched.elapsed))
  }

  lemma ActKeepsSchedule(start: Schedule, r: Running, a: Action)
    requires StagedOk(r.link.tx) && RunInv(start, r)
    ensures RunInv(start, Act(r, a))
  {
    if r.open {
      match a
      case Skip(events) => SkipKeepsRun(start, r, events);
      case Event(exchange, now) =>
        EventKeepsSchedule(r.link, exchange, now);
        NextEventKeepsRun(start, r.link.sched, ConnectionEvent(r.link, exchange, now));
      case SendAcl(_) =>
      case Command(opcode, params) => CommandKeepsSchedule(r.link, opcode, params);
      case CheckResponses(_) =>
    }
  }

  lemma SkipKeepsRun(start: Schedule, r: Running, n: nat)
    requires StagedOk(r.link.tx) && RunInv(start, r) && r.open
    ensures RunInv(start, Act(r, Skip(n)))
  {
    SkipsCoast(r.link, n);
    CoastKeepsSchedule(r.link.sched, Never, n);
    CoastFollowsStart(start, r.link.sched, Never, n);
  }

  lemma NextEventKeepsRun(start: Schedule, before: Schedule, result: (Link, Option<u8>))
    requires EventOk(before, result, 1) && AdvancedBy(start, before, before.elapsed)
    ensures RunInv(start, if result.1.Some? then Running(result.0, false)
                          else Running(result.0.(sched := ScheduleFollowing(result.0.sched)), true))
  {
    if result.1 == None {
      FollowingKeepsSchedule(result.0.sched);
      assert Hops(before.channels, 1) == Hop(Hops(before.channels, 0));
    }
  }

  lemma CommandKeepsSchedule(c: Link, opcode: u16, params: seq<u8>)
    ensures HandleCommand(c, opcode, params).0.sched == c.sched
  {
  }

  lemma {:induction false} CoastFollowsStart(start: Schedule, s: Schedule, missed: nat -> bool, n: nat)
    requires AdvancedBy(start, s, s.elapsed)
    ensures AdvancedBy(start, Coast(s, missed, n), s.elapsed + n)
    ensures Coast(s, missed, n).elapsed == s.elapsed + n
  {
    if n > 0 {
      CoastFollowsStart(start, s, missed, n - 1);
      UnheardAdvances(start, Coast(s, missed, n - 1), s.elapsed + n - 1, missed(n - 1));
    }
  }

  lemma {:induction false} RunKeepsSchedule(start: Schedule, r: Running, actions: seq<Action>)
    requires StagedOk(r.link.tx) && RunInv(start, r)
    ensures RunInv(start, Run(r, actions))
  {
    if actions != [] {
      RunKeepsSchedule(start, r, actions[..|actions| - 1]);
      ActKeepsSchedule(start, Run(r, actions[..|actions| - 1]), actions[|actions| - 1]);
    }
  }

  // An update for the very event that carries it.

  predicate Idle(c: Link) {
    c.sched.update == None && c.paramRequest == None && c.tx.control == []
    && !ActiveIn(c.procedures.local) && !ActiveIn(c.procedures.remote)
  }

  /** This PDU is an update for the current event. */
  predicate IsImmediate(counter: u16, payload: seq<u8>, u: ConnectionUpdateInd) {
    ParseConnectionUpdate(payload, counter) == Ok(u) && u.instant == counter
  }

  /** An update for the current event is accepted, and is due at once. */
  lemma ImmediateUpdateIsAccepted(c: Link, payload: seq<u8>, u: ConnectionUpdateInd)
    requires Idle(c) && IsImmediate(c.sched.counter, payload, u)
    ensures var (after, error) := HandleConnectionUpdate(c, payload);
      error == None && after.sched == AcceptUpdate(c.sched, u) && UpdateDue(after.sched)
  {
  }

  /** The packet carries this update in a new control PDU. */
  predicate CarriesUpdate(e: Exchange, bits: SequenceBits, counter: u16, u: ConnectionUpdateInd) {
    && e.crcOk && ParsePacket(e.packet).Some?
    && var (header, payload) := ParsePacket(e.packet).value;
       Llid(header) == LLID_CONTROL && Sn(header) == bits.expected && IsImmediate(counter, payload, u)
  }

  lemma BeginKeepsIdle(c: Link)
    requires Idle(c)
    ensures var begun := BeginEvent(c);
      && Idle(begun) && !MapDue(begun.sched) && begun.sched.counter == c.sched.counter && begun.tx == c.tx
      && begun.sched.request.interval == c.sched.request.interval
  {
  }

  /** Without control PDUs nothing refuses an event: reporting and acknowledging succeed. */
  lemma QuietTrafficSucceeds(c: Link, transmitted: bool, nesn: bool, outstanding: bool, now: u64)
    requires StagedOk(c.tx) && c.tx.staged.Some? && c.tx.control == []
    ensures var (reported, ok) := Report(c, transmitted);
      && ok && reported.sched == c.sched && reported.procedures == c.procedures
      && reported.paramRequest == c.paramRequest && reported.tx.control == []
      && reported.tx.bits == c.tx.bits && !SendsTerminate(reported, transmitted)
    ensures var (acked, ok) := Acknowledge(c, nesn, outstanding, now);
      && ok && acked.sched == c.sched && acked.procedures == c.procedures
      && acked.paramRequest == c.paramRequest && acked.tx.control == []
      && acked.tx.bits.expected == c.tx.bits.expected
  {
  }

  lemma AcceptImmediateUpdate(c: Link, payload: seq<u8>, u: ConnectionUpdateInd, header: u8)
    requires Idle(c) && IsImmediate(c.sched.counter, payload, u)
    requires Llid(header) == LLID_CONTROL && Sn(header) == c.tx.bits.expected
    ensures var (after, error) := Accept(c, header, payload);
      error == None && after.sched == AcceptUpdate(c.sched, u) && UpdateDue(after.sched)
  {
    ImmediateUpdateIsAccepted(c.(tx := TakeReceived(c.tx, header, payload)), payload, u);
  }

  lemma FinishImmediateUpdate(c: Link, payload: seq<u8>, u: ConnectionUpdateInd, header: u8, outstanding: bool,
                              timestampUs: nat, now: u64)
    requires StagedOk(c.tx) && c.tx.staged.Some? && Idle(c) && !MapDue(c.sched)
    requires IsImmediate(c.sched.counter, payload, u)
    requires Llid(header) == LLID_CONTROL && Sn(header) == c.tx.bits.expected
    ensures var (next, closed) := FinishEvent(c, header, payload, outstanding, false, timestampUs, now);
      && closed == None
      && next.sched == Synchronize(ApplyDue(AcceptUpdate(c.sched, u)), AnchorOf(timestampUs, 12))
  {
    QuietTrafficSucceeds(c, false, Nesn(header), outstanding, now);
    var acked := Acknowledge(c, Nesn(header), outstanding, now).0;
    AcceptImmediateUpdate(acked, payload, u, header);
  }

  lemma ExchangeImmediateUpdate(c: Link, e: Exchange, now: u64, u: ConnectionUpdateInd)
    requires StagedOk(c.tx) && c.tx.staged.Some? && Idle(c) && !MapDue(c.sched)
    requires CarriesUpdate(e, c.tx.bits, c.sched.counter, u)
    ensures var (next, closed) := ExchangeEvent(c, e, now);
      && closed == None
      && next.sched == Synchronize(ApplyDue(AcceptUpdate(c.sched, u)), AnchorOf(e.timestampUs, 12))
  {
    QuietTrafficSucceeds(c, e.transmitted, false, false, now);
    ReportCarries(c, e.transmitted);
    var header, payload := ParsePacket(e.packet).value.0, ParsePacket(e.packet).value.1;
    var reported := Report(c, e.transmitted).0;
    var outstanding := !c.tx.staged.value.unsent;
    FinishImmediateUpdate(reported, payload, u, header, outstanding, e.timestampUs, now);
    assert ExchangeEvent(c, e, now)
        == FinishEvent(reported, header, payload, outstanding, false, e.timestampUs, now);
  }

  /** The event that carries an update for itself stays open and applies it before it takes the new anchor. */
  lemma ImmediateUpdateTakesEffect(r: Running, e: Exchange, now: u64, u: ConnectionUpdateInd)
    requires r.open && StagedOk(r.link.tx) && ApplyError(r.link.sched) == None && Idle(r.link)
    requires CarriesUpdate(e, r.link.tx.bits, r.link.sched.counter, u)
    ensures var begun, after := BeginEvent(r.link).sched, Act(r, Event(Some(e), now));
      && after.open
      && after.link.sched
         == ScheduleFollowing(Synchronize(ApplyDue(AcceptUpdate(begun, u)), AnchorOf(e.timestampUs, 12)))
  {
    BeginKeepsIdle(r.link);
    StageKeeps(r.link.tx);
    var begun := BeginEvent(r.link);
    var staged := begun.(tx := Stage(begun.tx));
    assert Prepared(r.link) == (staged, None);
    ExchangeImmediateUpdate(staged, e, now, u);
    assert ConnectionEvent(r.link, Some(e), now) == ExchangeEvent(staged, e, now);
  }

  /** In such an event the anchors of section 5.1.1 are met exactly when the update has no window offset. */
  lemma ImmediateUpdateMeetsAnchorsExactly(r: Running, e: Exchange, now: u64, u: ConnectionUpdateInd,
                                           missed: nat -> bool, n: nat)
    requires r.open && StagedOk(r.link.tx) && ApplyError(r.link.sched) == None && Idle(r.link)
    requires CarriesUpdate(e, r.link.tx.bits, r.link.sched.counter, u)
    ensures var after := Act(r, Event(Some(e), now));
      var anchor := AnchorOf(e.timestampUs, 12);
      after.open && (Coast(after.link.sched, missed, n).nextAnchor
                       == AnchorAfter(anchor, r.link.sched.request.interval * UNIT_US, u, 0, n + 1)
                     <==> u.windowOffset == 0)
  {
    ImmediateUpdateTakesEffect(r, e, now, u);
    BeginKeepsIdle(r.link);
    var due := AcceptUpdate(BeginEvent(r.link).sched, u);
    ImmediateUpdateDropsOffset(due, AnchorOf(e.timestampUs, 12), missed, n);
  }

  /** The first event of every connection can be such a run, with any valid update for instant 0. */
  lemma FirstEventMeetsAnchorsExactly(c: ConnectRequest, endUs: nat, start: Running, u: ConnectionUpdateInd,
                                      e: Exchange, now: u64, missed: nat -> bool, n: nat)
    requires Connectable(c) && Open(c, endUs) == Some(start.link) && start.open
    requires CarriesUpdate(e, SequenceBits(false, false), 0, u)
    ensures StagedOk(start.link.tx)
    ensures var after := Act(start, Event(Some(e), now));
      after.open && (Coast(after.link.sched, missed, n).nextAnchor
                       == AnchorAfter(AnchorOf(e.timestampUs, 12), c.interval * UNIT_US, u, 0, n + 1)
                     <==> u.windowOffset == 0)
  {
    OpenIsScheduled(c, endUs);
    ImmediateUpdateMeetsAnchorsExactly(start, e, now, u, missed, n);
  }

  lemma PacketParses(packet: seq<u8>, header: u8, payload: seq<u8>)
    requires |payload| <= MAX_PAYLOAD && header % 4 != 0 && packet == [header, |payload|] + payload
    ensures ParsePacket(packet) == Some((header, payload))
  {
    assert packet[2..2 + packet[1]] == payload;
  }

  /** Such packets exist: the encoding of any valid update for instant 0, behind a new control header. */
  lemma UpdatePacketIsCarried(payload: seq<u8>, u: ConnectionUpdateInd, e: Exchange)
    requires |payload| == 12 && IsImmediate(0, payload, u)
    requires e.crcOk && e.packet == [LLID_CONTROL, |payload|] + payload
    ensures CarriesUpdate(e, SequenceBits(false, false), 0, u)
  {
    PacketParses(e.packet, LLID_CONTROL, payload);
  }

  /** The anchor `n` events after the first event, which carried `u`, is not the one of section 5.1.1. */
  ghost predicate MissesAnchor(start: Running, u: ConnectionUpdateInd, e: Exchange, now: u64,
                               missed: nat -> bool, n: nat)
    requires StagedOk(start.link.tx)
  {
    var after := Act(start, Event(Some(e), now));
    after.open && Coast(after.link.sched, missed, n).nextAnchor
                  != AnchorAfter(AnchorOf(e.timestampUs, 12), IntervalUs(start.link.sched.request), u, 0, n + 1)
  }

  lemma OffsetIsLost(c: ConnectRequest, endUs: nat, start: Running, u: ConnectionUpdateInd, e: Exchange, now: u64,
                     missed: nat -> bool, n: nat)
    requires Connectable(c) && Open(c, endUs) == Some(start.link) && start.open && StagedOk(start.link.tx)
    requires CarriesUpdate(e, SequenceBits(false, false), 0, u) && u.windowOffset != 0
    ensures MissesAnchor(start, u, e, now, missed, n)
  {
    FirstEventMeetsAnchorsExactly(c, endUs, start, u, e, now, missed, n);
  }

  /** That update on air. */
  lemma OffsetOneOnAir(payload: seq<u8>, u: ConnectionUpdateInd)
    requires payload == [0x00, 1, 1, 0, 6, 0, 0, 0, 10, 0, 0, 0] && u == ConnectionUpdateInd(1, 1, 6, 0, 10, 0)
    ensures IsImmediate(0, payload, u)
  {
    OutlastsProduct(80, 2, 6);
    assert UpdateIsValid(u);
    assert FromLe16(payload[2], payload[3]) == 1 && FromLe16(payload[4], payload[5]) == 6;
    assert FromLe16(payload[6], payload[7]) == 0 && FromLe16(payload[8], payload[9]) == 10;
    assert FromLe16(payload[10], payload[11]) == 0;
  }

  /** In every connection, this literal first packet makes every later anchor miss. */
  lemma {:induction false} OffsetOneMissesAnchors(
    c: ConnectRequest, endUs: nat, start: Running, u: ConnectionUpdateInd, payload: seq<u8>, e: Exchange, now: u64,
    missed: nat -> bool, n: nat)
    requires Connectable(c) && Open(c, endUs) == Some(start.link) && start.open && StagedOk(start.link.tx)
    requires payload == [0x00, 1, 1, 0, 6, 0, 0, 0, 10, 0, 0, 0] && u == ConnectionUpdateInd(1, 1, 6, 0, 10, 0)
    requires e.crcOk && e.packet == [LLID_CONTROL, |payload|] + payload
    ensures MissesAnchor(start, u, e, now, missed, n)
  {
    OffsetOneOnAir(payload, u);
    UpdatePacketIsCarried(payload, u, e);
    OffsetIsLost(c, endUs, start, u, e, now, missed, n);
  }

  /** Every entry that applies an indication does so at an event that carries its instant. */
  ghost predicate OnTime<T>(log: seq<Record<T>>, instantOf: T -> u16) {
    forall i :: 0 <= i < |log| && log[i].Applied? ==> log[i].at % 0x1_0000 == instantOf(log[i].item)
  }

  lemma LedgerIsOnTime<T>(log: seq<Record<T>>, pending: Option<T>, instantOf: T -> u16, elapsed: nat)
    requires Ledger(log, pending, instantOf, elapsed)
    ensures OnTime(log, instantOf)
  {
    forall i | 0 <= i < |log| && log[i].Applied?
      ensures log[i].at % 0x1_0000 == instantOf(log[i].item)
    {
      assert Paired(log, i, instantOf);
      DueAtReachesInstant(log[i - 1].at, instantOf(log[i].item));
    }
  }

  ghost predicate InstantsKept(s: Schedule) {
    && Ledger(s.updates, s.update, UpdateInstant, s.elapsed) && OnTime(s.updates, UpdateInstant)
    && Ledger(s.maps, s.newMap, MapInstant, s.elapsed) && OnTime(s.maps, MapInstant)
  }

  /**
   * In every run of completed, missed and skipped events with any peer, every accepted connection update and
   * channel map is applied exactly once, at the event whose counter is its instant, or is still pending.
   */
  lemma {:induction false} InstantsAreNeverMissed(c: ConnectRequest, endUs: nat, actions: seq<Action>)
    requires Connectable(c) && Open(c, endUs).Some?
    ensures InstantsKept(Run(Running(Open(c, endUs).value, true), actions).link.sched)
  {
    ReachableScheduleOk(c, endUs, actions);
    var s := Run(Running(Open(c, endUs).value, true), actions).link.sched;
    LedgerIsOnTime(s.updates, s.update, UpdateInstant, s.elapsed);
    LedgerIsOnTime(s.maps, s.newMap, MapInstant, s.elapsed);
  }

  lemma {:induction false} ReachableScheduleOk(c: ConnectRequest, endUs: nat, actions: seq<Action>)
    requires Connectable(c) && Open(c, endUs).Some?
    ensures ScheduleOk(Run(Running(Open(c, endUs).value, true), actions).link.sched)
  {
    OpenIsScheduled(c, endUs);
    var r := Running(Open(c, endUs).value, true);
    RunKeepsSchedule(r.link.sched, r, actions);
  }

  /** While the connection is open, its counter and hop phase count the events since it was made. */
  lemma {:induction false} PhaseCountsEvents(c: ConnectRequest, endUs: nat, actions: seq<Action>)
    requires Connectable(c) && Open(c, endUs).Some?
    requires Run(Running(Open(c, endUs).value, true), actions).open
    ensures var s := Run(Running(Open(c, endUs).value, true), actions).link.sched;
      && s.counter == s.elapsed % 0x1_0000
      && s.elapsed * c.hopIncrement >= 0
      && s.channels.lastUnmapped == (s.elapsed * c.hopIncrement) % 37
  {
    OpenIsScheduled(c, endUs);
    var r := Running(Open(c, endUs).value, true);
    RunKeepsSchedule(r.link.sched, r, actions);
    PhaseAfterHops(r.link.sched.channels, Run(r, actions).link.sched.elapsed);
    CounterWraps(0, Run(r, actions).link.sched.elapsed);
  }

  /** In every reachable state, catching up with any clock ends. */
  lemma CatchUpEndsInEveryRun(c: ConnectRequest, endUs: nat, actions: seq<Action>, now: nat)
    requires Connectable(c) && Open(c, endUs).Some?
    ensures CatchesUp(Run(Running(Open(c, endUs).value, true), actions).link, now)
  {
    ReachableScheduleOk(c, endUs, actions);
    CatchUpEnds(Run(Running(Open(c, endUs).value, true), actions).link, now);
  }
}
