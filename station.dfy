/** A station of the pure-ALOHA network: its FIFO arrival queue, the
    transmit protocol (register, stay on the air for the frame time, check,
    deregister, back off and retry on a collision), and its counters with
    the one-time reset at the end of the transient period.

    Virtual time and every random draw are inputs. What the other stations
    do while one of this station's frames is on the air is an `Attempt`. */
module Stations {
  import opened Stats
  import opened Channel

  /** Virtual time before which counters are discarded as warm-up. */
  const TRANSIENT_TIME: int := 25

  /** A message waiting in a station's queue and the time it arrived. */
  datatype Arrival = Arrival(name: string, time: int)

  /** The surroundings of one attempt: the entries of the other stations at
      the instant its frame time elapses (`others`), whether a check of
      another station flagged this frame in the meantime (`flagged`), and
      the back-off delay drawn if this attempt collides (`backoff`). */
  datatype Attempt = Attempt(others: map<FrameId, Frame>, flagged: bool, backoff: nat)

  /** What a run of the transmit loop yields: the time it ends, whether the
      message went through, how many attempts collided, the frames it put on
      the air, in order, and the registry it leaves behind. */
  datatype Outcome = Outcome(done: int, success: bool, retries: nat, sent: seq<Frame>,
                             registry: map<FrameId, Frame>)

  /** The attempt with frame `frame` under `id` ends with its retry flag set. */
  predicate Collided(a: Attempt, frame: Frame, id: FrameId)
  {
    a.flagged || Collides(a.others, frame, id)
  }

  /** The registry an attempt leaves behind: the entries at its check, its
      own included, after the check, less its own. */
  function Leave(a: Attempt, frame: Frame, id: FrameId): (r: map<FrameId, Frame>)
    ensures id !in r
  {
    AfterCheck(a.others[id := frame.(retry := a.flagged)], frame, id) - {id}
  }

  /** The summed back-off delays of a run of attempts. */
  function Backoffs(attempts: seq<Attempt>): nat
  {
    if attempts == [] then 0 else attempts[0].backoff + Backoffs(attempts[1..])
  }

  /** The transmit loop of one message under `id`, starting at `now`, with
      the one frame time drawn for it. It stops at the first attempt that is
      not flagged; if every supplied attempt collides, the run ends during
      the last back-off (the simulation horizon). */
  function Run(id: FrameId, now: int, frameTime: nat, attempts: seq<Attempt>): (o: Outcome)
    requires frameTime > 0 && attempts != []
    ensures o.done >= now + frameTime
    ensures o.success ==> o.retries < |attempts|
    ensures id !in o.registry
    decreases |attempts|
  {
    var frame := CreateFrame(now, frameTime);
    var a := attempts[0];
    if !Collided(a, frame, id) then
      Outcome(now + frameTime, true, 0, [frame], Leave(a, frame, id))
    else if |attempts| == 1 then
      Outcome(now + frameTime + a.backoff, false, 1, [frame], Leave(a, frame, id))
    else
      var rest := Run(id, now + frameTime + a.backoff, frameTime, attempts[1..]);
      Outcome(rest.done, rest.success, rest.retries + 1, [frame] + rest.sent, rest.registry)
  }

  /** Which attempts of a run of the transmit loop collided: all before its
      last one; it stops at the first that did not and never earlier, so a
      run that fails has used every supplied attempt; one retry is counted
      per collided attempt. */
  lemma {:induction false} RunRetries(id: FrameId, now: int, frameTime: nat, attempts: seq<Attempt>)
    requires frameTime > 0 && attempts != []
    ensures var o := Run(id, now, frameTime, attempts);
      && 1 <= |o.sent| <= |attempts|
      && o.retries == (if o.success then |o.sent| - 1 else |o.sent|)
      && (forall j :: 0 <= j < o.retries ==> Collided(attempts[j], o.sent[j], id))
      && (o.success ==> !Collided(attempts[o.retries], o.sent[o.retries], id))
      && (!o.success ==> |o.sent| == |attempts|)
    decreases |attempts|
  {
    var frame := CreateFrame(now, frameTime);
    var a := attempts[0];
    if Collided(a, frame, id) && |attempts| > 1 {
      var next := now + frameTime + a.backoff;
      RunRetries(id, next, frameTime, attempts[1..]);
    }
  }

  /** The frames a run of the transmit loop puts on the air: every one has
      the message's single frame time and starts when the previous
      attempt's back-off ends, the first at `now`. */
  lemma {:induction false} RunFrames(id: FrameId, now: int, frameTime: nat, attempts: seq<Attempt>)
    requires frameTime > 0 && attempts != []
    ensures var o := Run(id, now, frameTime, attempts);
      && 1 <= |o.sent| <= |attempts|
      && (forall j :: 0 <= j < |o.sent| ==> o.sent[j] == CreateFrame(o.sent[j].start, frameTime))
      && o.sent[0].start == now
      && (forall j :: 0 < j < |o.sent| ==> o.sent[j].start == o.sent[j - 1].end + attempts[j - 1].backoff)
    decreases |attempts|
  {
    var frame := CreateFrame(now, frameTime);
    var a := attempts[0];
    if Collided(a, frame, id) && |attempts| > 1 {
      var next := now + frameTime + a.backoff;
      RunFrames(id, next, frameTime, attempts[1..]);
    }
  }

  /** How long a run of the transmit loop takes: one frame time per attempt
      plus the back-offs of the collided attempts. */
  lemma {:induction false} RunDuration(id: FrameId, now: int, frameTime: nat, attempts: seq<Attempt>)
    requires frameTime > 0 && attempts != []
    ensures var o := Run(id, now, frameTime, attempts);
      o.retries <= |attempts| && o.done == now + frameTime * |o.sent| + Backoffs(attempts[..o.retries])
    decreases |attempts|
  {
    var frame := CreateFrame(now, frameTime);
    var a := attempts[0];
    if !Collided(a, frame, id) {
    } else if |attempts| == 1 {
      assert attempts[..1] == [a];
    } else {
      var next := now + frameTime + a.backoff;
      var rest := Run(id, next, frameTime, attempts[1..]);
      RunDuration(id, next, frameTime, attempts[1..]);
      assert attempts[..rest.retries + 1][1..] == attempts[1..][..rest.retries];
      assert frameTime * (|rest.sent| + 1) == frameTime * |rest.sent| + frameTime;
    }
  }

  /** One unfolding of Run: a first attempt that does not collide ends the
      run with it. */
  lemma RunSucceeds(id: FrameId, now: int, frameTime: nat, attempts: seq<Attempt>)
    requires frameTime > 0 && attempts != []
    requires !Collided(attempts[0], CreateFrame(now, frameTime), id)
    ensures var o := Run(id, now, frameTime, attempts);
      o.done == now + frameTime && o.success && o.retries == 0 &&
      o.registry == Leave(attempts[0], CreateFrame(now, frameTime), id)
  {
  }

  /** One unfolding of Run: a collided last attempt ends the run in its back-off. */
  lemma RunGivesUp(id: FrameId, now: int, frameTime: nat, attempts: seq<Attempt>)
    requires frameTime > 0 && |attempts| == 1
    requires Collided(attempts[0], CreateFrame(now, frameTime), id)
    ensures var o := Run(id, now, frameTime, attempts);
      o.done == now + frameTime + attempts[0].backoff && !o.success && o.retries == 1 &&
      o.registry == Leave(attempts[0], CreateFrame(now, frameTime), id)
  {
  }

  /** One unfolding of Run: after a collided attempt with more to come, the
      run goes on from the end of the back-off with the remaining attempts. */
  lemma RunRetriesOnce(id: FrameId, now: int, frameTime: nat, attempts: seq<Attempt>)
    requires frameTime > 0 && |attempts| > 1
    requires Collided(attempts[0], CreateFrame(now, frameTime), id)
    ensures var o := Run(id, now, frameTime, attempts);
      var rest := Run(id, now + frameTime + attempts[0].backoff, frameTime, attempts[1..]);
      o.done == rest.done && o.success == rest.success && o.registry == rest.registry &&
      o.retries == rest.retries + 1
  {
  }

  /** A message sent while no other frame is ever on the air and no other
      station flags it goes through at its first attempt. */
  lemma AloneSucceedsAtOnce(id: FrameId, now: int, frameTime: nat, attempts: seq<Attempt>)
    requires frameTime > 0 && attempts != []
    requires attempts[0].others.Keys <= {id} && !attempts[0].flagged
    ensures var o := Run(id, now, frameTime, attempts);
      o.success && o.retries == 0 && o.done == now + frameTime
  {
  }

  /** generate_frame_time: the first strictly positive draw of the frame-time
      distribution; `found` is false when the supplied draws are all zero. */
  method GenerateFrameTime(draws: seq<nat>) returns (frameTime: nat, found: bool)
    ensures found ==> frameTime > 0
    ensures found ==> exists i :: 0 <= i < |draws| && draws[i] == frameTime && forall j :: 0 <= j < i ==> draws[j] == 0
    ensures !found ==> forall j :: 0 <= j < |draws| ==> draws[j] == 0
  {
    found := false;
    frameTime := 0;
    var i := 0;
    while !found && i < |draws|
      invariant 0 <= i <= |draws|
      invariant !found ==> forall j :: 0 <= j < i ==> draws[j] == 0
      invariant found ==> 0 < i && draws[i - 1] == frameTime > 0
      invariant found ==> forall j :: 0 <= j < i - 1 ==> draws[j] == 0
    {
      if draws[i] > 0 {
        frameTime := draws[i];
        found := true;
      }
      i := i + 1;
    }
    if found {
      assert draws[i - 1] == frameTime;
    }
  }

  /** One service step of a station: the message served, the moment the
      transmission server is granted, its frame time and its attempts. */
  datatype Service = Service(message: string, now: int, frameTime: nat, attempts: seq<Attempt>)

  predicate WellFormed(s: Service)
  {
    s.frameTime > 0 && s.attempts != []
  }

  /** A station's counters together with its transient-reset flag. */
  datatype StationStats = StationStats(counters: Counters, resetDone: bool)

  /** The transmit loop of service step `s` at station `station`. */
  function Transmission(station: string, s: Service): Outcome
    requires WellFormed(s)
  {
    Run(FrameId(station, s.message), s.now, s.frameTime, s.attempts)
  }

  /** Service step `s` completes at or after the transient cutoff. */
  predicate EndsAfterCutoff(station: string, s: Service)
    requires WellFormed(s)
  {
    Transmission(station, s).success && Transmission(station, s).done >= TRANSIENT_TIME
  }

  /** The counters after one service step: the transmit loop counts one
      initial transmission, its retries and, on success, its frame time as
      busy time; a completed message adds one success and its transmit time;
      and the first step completing at or after the cutoff zeroes them all. */
  function Serve(stats: StationStats, station: string, s: Service): (r: StationStats)
    requires WellFormed(s)
    ensures r.resetDone <==> stats.resetDone || EndsAfterCutoff(station, s)
    ensures !stats.resetDone && EndsAfterCutoff(station, s) ==> r.counters == Zero
    ensures stats.resetDone || !EndsAfterCutoff(station, s) ==>
      var o := Transmission(station, s);
      && r.counters.initialTransmits == stats.counters.initialTransmits + 1
      && r.counters.retries == stats.counters.retries + o.retries
      && r.counters.nt == stats.counters.nt + (if o.success then 1 else 0)
      && r.counters.st == stats.counters.st + (if o.success then o.done - s.now else 0)
      && r.counters.busyTime == stats.counters.busyTime + (if o.success then s.frameTime else 0)
    ensures Consistent(stats.counters) ==> Consistent(r.counters)
  {
    var o := Transmission(station, s);
    var c := stats.counters;
    var transmitted := c.(initialTransmits := c.initialTransmits + 1, retries := c.retries + o.retries,
                          busyTime := c.busyTime + if o.success then s.frameTime else 0);
    if !o.success then
      StationStats(transmitted, stats.resetDone)
    else if !stats.resetDone && o.done >= TRANSIENT_TIME then
      StationStats(Zero, true)
    else
      StationStats(transmitted.(nt := c.nt + 1, st := c.st + (o.done - s.now)), stats.resetDone)
  }

  predicate AllWellFormed(services: seq<Service>)
  {
    forall i :: 0 <= i < |services| ==> WellFormed(services[i])
  }

  /** A station's counters after a run of service steps, one message at a time. */
  function ServeAll(stats: StationStats, station: string, services: seq<Service>): StationStats
    requires AllWellFormed(services)
    decreases |services|
  {
    if services == [] then stats else ServeAll(Serve(stats, station, services[0]), station, services[1..])
  }

  /** How many of the steps zeroed the counters. */
  function ResetCount(stats: StationStats, station: string, services: seq<Service>): nat
    requires AllWellFormed(services)
    decreases |services|
  {
    if services == [] then 0
    else
      (if !stats.resetDone && EndsAfterCutoff(station, services[0]) then 1 else 0)
      + ResetCount(Serve(stats, station, services[0]), station, services[1..])
  }

  /** The transient reset happens at most once, and never again once done. */
  lemma {:induction false} ResetAtMostOnce(stats: StationStats, station: string, services: seq<Service>)
    requires AllWellFormed(services)
    ensures ResetCount(stats, station, services) <= 1
    ensures stats.resetDone ==> ResetCount(stats, station, services) == 0
    decreases |services|
  {
    if services != [] {
      var next := Serve(stats, station, services[0]);
      ResetAtMostOnce(next, station, services[1..]);
    }
  }

  /** The reset flag ends up set exactly when it was set already or some
      step completed at or after the transient cutoff. */
  lemma {:induction false} ResetDoneIffCutoffReached(stats: StationStats, station: string, services: seq<Service>)
    requires AllWellFormed(services)
    ensures ServeAll(stats, station, services).resetDone <==>
      stats.resetDone || exists i :: 0 <= i < |services| && EndsAfterCutoff(station, services[i])
    decreases |services|
  {
    if services != [] {
      var next := Serve(stats, station, services[0]);
      ResetDoneIffCutoffReached(next, station, services[1..]);
      if exists i :: 0 <= i < |services[1..]| && EndsAfterCutoff(station, services[1..][i]) {
        var i :| 0 <= i < |services[1..]| && EndsAfterCutoff(station, services[1..][i]);
        assert services[1..][i] == services[i + 1];
      }
      if exists i :: 0 <= i < |services| && EndsAfterCutoff(station, services[i]) {
        var i :| 0 <= i < |services| && EndsAfterCutoff(station, services[i]);
        if i > 0 {
          assert services[1..][i - 1] == services[i];
        }
      }
    }
  }

  /** Every run of service steps keeps the counters consistent: in
      particular a station never has more successes than initial transmissions. */
  lemma {:induction false} ServeAllConsistent(stats: StationStats, station: string, services: seq<Service>)
    requires AllWellFormed(services) && Consistent(stats.counters)
    ensures Consistent(ServeAll(stats, station, services).counters)
    decreases |services|
  {
    if services != [] {
      ServeAllConsistent(Serve(stats, station, services[0]), station, services[1..]);
    }
  }

  /** The steps of one station follow each other, as the server of
      capacity one makes them: each is granted no earlier than `from`, the
      moment the previous one ended. */
  predicate InOrder(station: string, from: int, services: seq<Service>)
    requires AllWellFormed(services)
    decreases |services|
  {
    services == [] ||
    (services[0].now >= from && InOrder(station, Transmission(station, services[0]).done, services[1..]))
  }

  /** When the last of the steps ends, or `from` if there are none. */
  function LastDone(station: string, from: int, services: seq<Service>): int
    requires AllWellFormed(services)
    decreases |services|
  {
    if services == [] then from else LastDone(station, Transmission(station, services[0]).done, services[1..])
  }

  /** Once the reset is done, the busy time counted is at most the time
      from the cutoff to the end of the last step: the steps do not overlap
      and a success counts one frame time of its own step. */
  lemma {:induction false} BusyWithinSteadyState(stats: StationStats, station: string, from: int,
                                                 services: seq<Service>)
    requires AllWellFormed(services) && InOrder(station, from, services)
    requires stats.resetDone ==> stats.counters.busyTime <= from - TRANSIENT_TIME
    ensures var r := ServeAll(stats, station, services);
      r.resetDone ==> r.counters.busyTime <= LastDone(station, from, services) - TRANSIENT_TIME
    decreases |services|
  {
    if services != [] {
      var s := services[0];
      BusyWithinSteadyState(Serve(stats, station, s), station, Transmission(station, s).done, services[1..]);
    }
  }

  /** The utilization a station reports at `now`, after in-order steps from
      a fresh start and its transient reset, lies between 0 and 1. */
  lemma StationUtilizationBounded(station: string, from: int, services: seq<Service>, now: int)
    requires AllWellFormed(services) && InOrder(station, from, services)
    requires now >= LastDone(station, from, services) && now > TRANSIENT_TIME
    requires ServeAll(StationStats(Zero, false), station, services).resetDone
    ensures var busy := ServeAll(StationStats(Zero, false), station, services).counters.busyTime;
      0.0 <= Quotient(busy, now - TRANSIENT_TIME) <= 1.0
  {
    BusyWithinSteadyState(StationStats(Zero, false), station, from, services);
    FractionOfSpan(ServeAll(StationStats(Zero, false), station, services).counters.busyTime, now - TRANSIENT_TIME);
  }

  /** Service step `s` has the channel to itself: at its first attempt no
      other frame is on the air and no other station flags it. */
  predicate Alone(station: string, s: Service)
  {
    s.attempts != [] && s.attempts[0].others.Keys <= {FrameId(station, s.message)} &&
    !s.attempts[0].flagged
  }

  /** A station alone on the channel after its reset: every message goes out
      at its first attempt, so the retry count stays put while successes and
      initial transmissions both grow by one per message. */
  lemma {:induction false} LoneStationNeverRetries(stats: StationStats, station: string, services: seq<Service>)
    requires AllWellFormed(services) && stats.resetDone
    requires forall i :: 0 <= i < |services| ==> Alone(station, services[i])
    ensures var r := ServeAll(stats, station, services);
      && r.resetDone
      && r.counters.retries == stats.counters.retries
      && r.counters.nt == stats.counters.nt + |services|
      && r.counters.initialTransmits == stats.counters.initialTransmits + |services|
    decreases |services|
  {
    if services != [] {
      var s := services[0];
      AloneSucceedsAtOnce(FrameId(station, s.message), s.now, s.frameTime, s.attempts);
      LoneStationNeverRetries(Serve(stats, station, s), station, services[1..]);
    }
  }

  class Station {
    const name: string
    /** The registry shared by all stations of the replication. */
    const channel: Registry

    var arrivals: seq<Arrival>
    var initialResetCompleted: bool

    var nt: nat
    var st: nat
    var numRetries: nat
    var numInitialTransmits: nat
    var busyTime: nat

    var meanTransmitTime: real
    var meanRetries: real
    var steadyStateTime: int
    var utilization: real

    function Snapshot(): Counters
      reads this
    {
      Counters(nt, st, numRetries, numInitialTransmits, busyTime)
    }

    function State(): StationStats
      reads this
    {
      StationStats(Snapshot(), initialResetCompleted)
    }

    ghost predicate Valid()
      reads this
    {
      Consistent(Snapshot())
    }

    constructor (name: string, channel: Registry)
      ensures this.name == name && this.channel == channel
      ensures arrivals == [] && !initialResetCompleted
      ensures Snapshot() == Zero && Valid()
      ensures meanTransmitTime == 0.0 && meanRetries == 0.0 && utilization == 0.0 && steadyStateTime == 0
    {
      this.name := name;
      this.channel := channel;
      arrivals := [];
      initialResetCompleted := false;
      nt, st, numRetries, numInitialTransmits, busyTime := 0, 0, 0, 0, 0;
      meanTransmitTime, meanRetries, steadyStateTime, utilization := 0.0, 0.0, 0, 0.0;
    }

    /** A message arrives and queues for the transmission server. */
    method JoinQueue(message: string, now: int)
      modifies this`arrivals
      ensures arrivals == old(arrivals) + [Arrival(message, now)]
    {
      arrivals := arrivals + [Arrival(message, now)];
    }

    /** Zeroes the five statistical counters and nothing else. */
    method ResetStatisticalCounters()
      modifies this`nt, this`st, this`numRetries, this`numInitialTransmits, this`busyTime
      ensures Snapshot() == Zero
    {
      nt := 0;
      st := 0;
      numRetries := 0;
      numInitialTransmits := 0;
      busyTime := 0;
    }

    /** One attempt: a frame created at `now` goes on the air under `id`,
        stays there for its frame time while the other stations do what `a`
        says, is checked for collisions and taken off again; `retry` is the
        flag it comes off with. */
    method SendFrame(id: FrameId, now: int, frameTime: nat, a: Attempt) returns (retry: bool)
      modifies channel
      ensures retry == Collided(a, CreateFrame(now, frameTime), id)
      ensures channel.frames == Leave(a, CreateFrame(now, frameTime), id)
    {
      var frame := CreateFrame(now, frameTime);
      channel.Add(frame, id);
      channel.Interleave(id, a.others, a.flagged);
      CollidesIgnoresOwnEntry(a.others, frame, id, frame.(retry := a.flagged));
      channel.CheckCollision(frame, id);
      var sent := channel.Remove(id);
      retry := sent.retry;
    }

    /** One pass of the transmit loop for the attempts `rest` still to come,
        starting at `clock`: the frame is sent, a collided attempt counts a
        retry and waits its back-off, a successful one counts its frame time
        as busy time. `next` is when the pass ends; the run from `clock` is
        the run from `next` with one more retry, or ends here. */
    method TransmitAttempt(id: FrameId, clock: int, frameTime: nat, rest: seq<Attempt>)
      returns (retry: bool, next: int)
      requires frameTime > 0 && rest != []
      modifies this`numRetries, this`busyTime, channel
      ensures numRetries == old(numRetries) + (if retry then 1 else 0)
      ensures busyTime == old(busyTime) + (if retry then 0 else frameTime)
      ensures var o := Run(id, clock, frameTime, rest);
        && (!retry ==> o.done == next && o.success && o.retries == 0 && o.registry == channel.frames)
        && (retry && |rest| == 1 ==> o.done == next && !o.success && o.retries == 1 && o.registry == channel.frames)
        && (retry && |rest| > 1 ==>
              var r := Run(id, next, frameTime, rest[1..]);
              o.done == r.done && o.success == r.success && o.registry == r.registry && o.retries == r.retries + 1)
    {
      var a := rest[0];
      retry := SendFrame(id, clock, frameTime, a);
      next := clock + frameTime;
      if retry {
        numRetries := numRetries + 1;
        next := next + a.backoff;
        if |rest| > 1 {
          RunRetriesOnce(id, clock, frameTime, rest);
        } else {
          RunGivesUp(id, clock, frameTime, rest);
        }
      } else {
        busyTime := busyTime + (next - clock);
        RunSucceeds(id, clock, frameTime, rest);
      }
    }

    /** Transmits `message` until an attempt goes through or the supplied
        attempts run out. */
    method Transmit(message: string, now: int, frameTime: nat, attempts: seq<Attempt>)
      returns (done: int, success: bool)
      requires frameTime > 0 && attempts != []
      modifies this`numRetries, this`numInitialTransmits, this`busyTime, channel
      ensures var o := Run(FrameId(name, message), now, frameTime, attempts);
        && done == o.done && success == o.success
        && channel.frames == o.registry
        && numInitialTransmits == old(numInitialTransmits) + 1
        && numRetries == old(numRetries) + o.retries
        && busyTime == old(busyTime) + (if success then frameTime else 0)
      ensures FrameId(name, message) !in channel.frames
    {
      var id := FrameId(name, message);
      ghost var goal := Run(id, now, frameTime, attempts);
      numInitialTransmits := numInitialTransmits + 1;
      success := false;
      var clock := now;
      var i := 0;
      assert attempts[0..] == attempts;
      while !success && i < |attempts|
        invariant 0 <= i <= |attempts|
        invariant numInitialTransmits == old(numInitialTransmits) + 1
        invariant !success && i < |attempts| ==>
          && numRetries == old(numRetries) + i && busyTime == old(busyTime)
          && var o := Run(id, clock, frameTime, attempts[i..]);
             goal.done == o.done && goal.success == o.success &&
             goal.registry == o.registry && goal.retries == o.retries + i
        invariant !success && i == |attempts| ==>
          && numRetries == old(numRetries) + i && busyTime == old(busyTime)
          && goal.done == clock && !goal.success && goal.retries == i && goal.registry == channel.frames
        invariant success ==>
          && numRetries == old(numRetries) + goal.retries && busyTime == old(busyTime) + frameTime
          && goal.done == clock && goal.success && goal.registry == channel.frames
        decreases |attempts| - i, !success
      {
        var retry;
        retry, clock := TransmitAttempt(id, clock, frameTime, attempts[i..]);
        success := !retry;
        assert attempts[i..][1..] == attempts[i + 1..];
        i := i + 1;
      }
      done := clock;
    }

    /** The part of a message's service after the server is granted at
        `now`: the oldest arrival leaves the queue, the message is
        transmitted, a completed message is counted, and the counters are
        reset the first time a step completes at or after the cutoff. */
    method ServiceStep(message: string, now: int, frameTime: nat, attempts: seq<Attempt>)
      returns (served: Arrival, done: int, completed: bool)
      requires Valid() && arrivals != [] && frameTime > 0 && attempts != []
      modifies this`arrivals, this`initialResetCompleted, this`nt, this`st, this`numRetries,
               this`numInitialTransmits, this`busyTime, channel
      ensures Valid()
      ensures served == old(arrivals)[0] && arrivals == old(arrivals)[1..]
      ensures var o := Run(FrameId(name, message), now, frameTime, attempts);
        done == o.done && completed == o.success && channel.frames == o.registry
      ensures State() == Serve(old(State()), name, Service(message, now, frameTime, attempts))
    {
      served := arrivals[0];
      arrivals := arrivals[1..];
      var transmitTime := now;
      done, completed := Transmit(message, now, frameTime, attempts);
      if completed {
        nt := nt + 1;
        st := st + (done - transmitTime);
        if !initialResetCompleted && done >= TRANSIENT_TIME {
          ResetStatisticalCounters();
          initialResetCompleted := true;
        }
      }
    }

    /** The per-station report at the end of the run at time `now`; a mean
        whose denominator is zero keeps its previous value. */
    method GenerateReport(now: int)
      requires now != TRANSIENT_TIME
      modifies this`steadyStateTime, this`meanTransmitTime, this`meanRetries, this`utilization
      ensures steadyStateTime == now - TRANSIENT_TIME
      ensures meanTransmitTime == RatioOr(old(meanTransmitTime), st, nt)
      ensures meanRetries == RatioOr(old(meanRetries), numRetries, numInitialTransmits)
      ensures utilization == Quotient(busyTime, steadyStateTime)
    {
      steadyStateTime := now - TRANSIENT_TIME;
      if nt > 0 {
        meanTransmitTime := Quotient(st, nt);
      }
      if numInitialTransmits > 0 {
        meanRetries := Quotient(numRetries, numInitialTransmits);
      }
      utilization := Quotient(busyTime, steadyStateTime);
    }
  }
}
