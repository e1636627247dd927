# Pure-ALOHA station and channel model

This project models the bookkeeping core of a pure-ALOHA network simulation
(`aloha.py`). Stations queue messages and send each one as a frame of random
length on one shared channel. A frame that overlaps another frame on the air
counts as a collision and is retried after a random back-off. Each station
counts its successes, transmit time, retries, initial transmissions and busy
time. It discards those counters once, at the end of a warm-up (transient)
period. At the end of a replication, the counters of all stations are summed
into the system-wide means.

The model is sequential: it runs one station step at a time. Virtual time is
an explicit integer that every operation takes as input, and so is every
random draw: frame times, back-off delays and the frame-time resample draws.

- `stats.dfy`, module `Stats`: the five counters and their sum over stations.
  It also defines the guarded and unguarded quotients the reports use. A
  `real` quotient stands for each float division in the source.
- `channel.dfy`, module `Channel`:
  - the `Frame` value and `CreateFrame`;
  - the overlap test and the collision check as specification functions;
  - class `Registry`, the shared dictionary of frames on the air. It is one
    explicit object, and every station holds a reference to it.
- `station.dfy`, module `Stations`, class `Station`:
  - the FIFO arrival queue and the counters;
  - the transmit loop (`Transmit`);
  - the service step (`ServiceStep`) with its one-time transient reset;
  - the per-station report.

  `Run` specifies the transmit loop. `Serve` and `ServeAll` specify the
  service steps of one station, so the lemmas can speak about them.
- `replication.dfy`, module `Replication`: the totals loop over the stations
  and the system-wide report of one replication.

While one of a station's frames is on the air, the other stations keep
running. They add and remove their own frames, and a collision that one of
them detects raises the flag of every frame on the air, including this one.
One `Attempt` value describes these effects for one attempt:

- the registry entries of the other stations when the frame time is up;
- whether another station's check flagged this frame in the meantime;
- the back-off delay to use if the attempt collides.

`Registry.Interleave` applies an `Attempt` to the registry.

Two choices follow the code as written:

- The system-wide mean number of retries is divided by the total initial
  transmissions with no guard (aloha.py:237), unlike the guarded mean
  transmit time just above it. `ReportSingleReplication` therefore requires
  at least one initial transmission.
- A collision raises the flag of every frame on the air (aloha.py:134-137),
  not only of the two overlapping frames.

## Model

| member | source | states |
|---|---|---|
| `Channel.CreateFrame` | aloha.py:110-114 | A new frame starts now, lasts exactly the frame time, and is not flagged. |
| `Channel.Overlaps` | aloha.py:131 | Two frames of positive length pass the overlap test exactly when they are on the air together at some instant. |
| `Channel.Collides` | aloha.py:128-132 | The collision condition the check computes: some registered frame under another id overlaps the checked frame. `CollidesIffSharedInstant` states its meaning and `AnyOverlap` computes it. |
| `Channel.CollidesIffSharedInstant` | aloha.py:128-132 | When every frame has positive length, a collision is found exactly when a frame under another id is on the air at an instant the checked frame is. |
| `Channel.FlagAll` | aloha.py:134-137 | Keeps the key set and replaces every registered frame by the same frame with its retry flag set. |
| `Channel.AfterCheck` | aloha.py:125-137 | The collision check keeps the key set and every frame's start, end and frame time. A flag is raised exactly when another id overlaps, flags only go from false to true, a collision flags every registered frame, and with no overlap the registry is unchanged. |
| `Channel.OverlapsSymmetric` | aloha.py:131 | The strict half-open overlap test is symmetric. |
| `Channel.CollidesIgnoresOwnEntry` | aloha.py:128-129 | Whatever is stored under the checked id has no effect on whether a collision is found. |
| `Channel.AloneNeverFlagged` | aloha.py:128-137 | A frame alone in the registry is not flagged by its own check. |
| `Channel.SimultaneousStartsCollide` | aloha.py:128-137 | Two frames under different ids that start at the same instant collide, and the check flags both. |
| `Channel.AddThenRemove` | aloha.py:117-122 | Adding a frame under an absent id and removing it again returns the frame and restores the registry. |
| `Channel.Registry.constructor` | aloha.py:36 | The shared registry starts with no frame on the air. |
| `Channel.Registry.Add` | aloha.py:117-118 | The registry becomes the old one with `id` mapped to the frame. |
| `Channel.Registry.Remove` | aloha.py:121-122 | Requires `id` to be present (`pop` raises otherwise). Returns the stored frame and drops exactly that key. |
| `Channel.Registry.AnyOverlap` | aloha.py:127-132 | The scan over all keys finds a collision exactly when some other id's frame overlaps. |
| `Channel.Registry.CheckCollision` | aloha.py:125-137 | The registry afterwards is `AfterCheck` of the registry before. |
| `Channel.Registry.Interleave` | aloha.py:159 | During the suspension the other entries become the given ones. The frame's own entry stays and keeps its fields, and its flag can only be raised. |
| `Stations.Run` | aloha.py:150-171 | A run of the transmit loop ends no earlier than one frame time after it starts, has fewer retries than attempts when it succeeds, and leaves its id out of the registry. |
| `Stations.RunRetries` | aloha.py:152-167 | Every attempt before the last one collided, a successful last attempt did not collide, a run that does not succeed has used every supplied attempt (the loop never stops on a collision), and there is one retry per collided attempt. |
| `Stations.RunFrames` | aloha.py:151-156 | Every frame sent for a message has the message's single frame time. The first starts when transmit starts, and each later one starts when the previous back-off ends. |
| `Stations.RunDuration` | aloha.py:158-171 | A transmit takes one frame time per attempt plus the back-offs of the collided attempts. |
| `Stations.AloneSucceedsAtOnce` | aloha.py:153-171 | With no other frame on the air and no flag from another station, the first attempt succeeds with no retry and takes exactly the frame time. |
| `Stations.GenerateFrameTime` | aloha.py:99-107 | Returns the first strictly positive draw, with every earlier draw zero. Reports when all supplied draws are zero. |
| `Stations.Serve` | aloha.py:185-200 | After a step the reset flag is set exactly when it was set before or the step completed at or after the cutoff. A step that fires the reset zeroes every counter. Any other step adds one initial transmission and the transmit's retries. On success it also adds one success, the transmit time, and one frame time of busy time. Consistent counters stay consistent. |
| `Stations.ResetAtMostOnce` | aloha.py:197-200 | Over any sequence of service steps the counters are zeroed at most once, and never after the flag is set. |
| `Stations.ResetDoneIffCutoffReached` | aloha.py:197-200 | After a sequence of steps the reset flag is set exactly when it was set already or some step completed at or after the transient cutoff. |
| `Stations.ServeAllConsistent` | aloha.py:189-200 | After every sequence of service steps, successes stay at most the initial transmissions and at most the busy time, and busy time stays at most the transmit time. |
| `Stations.LoneStationNeverRetries` | aloha.py:147-200 | A station alone on the channel after its reset makes no retries, and each message adds one success and one initial transmission. |
| `Stations.Station.constructor` | aloha.py:38-66 | A new station has an empty queue, zero counters, no reset done, and holds the shared registry. |
| `Stations.Station.JoinQueue` | aloha.py:175-176 | The arrival is appended to the end of the FIFO queue. |
| `Stations.Station.ResetStatisticalCounters` | aloha.py:90-96 | Zeroes exactly nt, st, the retries, the initial transmissions and the busy time. |
| `Stations.Station.SendFrame` | aloha.py:154-162 | One attempt: register, suspend, check, deregister. Returns the flag defined by `Collided` and leaves the registry defined by `Leave`. |
| `Stations.Station.TransmitAttempt` | aloha.py:153-171 | One pass of the loop: a collided attempt adds one retry and ends after its back-off, with the run continuing from there or ending if no attempt is left. A successful one adds its frame time of busy time and ends the run with no further retry. |
| `Stations.Station.Transmit` | aloha.py:147-171 | Adds exactly one initial transmission and one retry per collided attempt. Adds one frame time of busy time on success. Ends as `Run` says, with its frame id out of the registry. |
| `Stations.Station.ServiceStep` | aloha.py:181-200 | Dequeues the oldest arrival, transmits, and leaves the counters and reset flag as `Serve` says. Keeps the station's counters consistent. |
| `Stations.Station.GenerateReport` | aloha.py:71-85 | The mean transmit time is updated only when nt > 0, and the mean retries only when there was an initial transmission. The utilization divides busy time by the steady-state time with no guard. |
| `Stations.BusyWithinSteadyState` | aloha.py:168-200 | When a station's steps follow each other, its busy time after the reset is at most the time from the cutoff to the end of its last step. |
| `Stations.StationUtilizationBounded` | aloha.py:85 | For in-order steps from a fresh station whose reset has happened, the utilization reported at or after the end of its last step lies between 0 and 1. |
| `Stats.SumConsistent` | aloha.py:222-227 | The totals of stations with consistent counters are consistent. |
| `Stats.Quotient` | aloha.py:237 | An unguarded quotient: times the denominator, it gives the numerator. |
| `Stats.RatioOr` | aloha.py:229-235 | A guarded quotient: the true quotient for a positive denominator, otherwise the fallback value. |
| `Stats.MeansOfConsistent` | aloha.py:229-237 | For consistent counters, the mean transmit time is at least one once a message succeeded, and the mean retries are non-negative. |
| `Replication.Totals` | aloha.py:216-227 | The loop's totals are the sums of every station's five counters. |
| `Replication.Results.constructor` | aloha.py:262-264 | The three metric lists start empty. |
| `Replication.ReportSingleReplication` | aloha.py:214-244 | The mean transmit time is guarded and is 0 with no success. The mean retries are unguarded and need an initial transmission. The utilization is busy time over the steady-state time. Each metric is appended to its list. |
| `Replication.ReplicationMeans` | aloha.py:229-237 | When every station is consistent, the system-wide successes stay at most the initial transmissions, the mean transmit time is 0 or at least 1, and the mean retries are non-negative. |

## Left out

- Scheduling and suspension: simpy's `env.process`, `env.timeout`, `env.run` and the `simpy.Resource` server. Virtual time is passed in. The single-capacity server becomes "one service step at a time". What other processes do during a frame's suspension is an `Attempt` input.
- The horizon: `env.run(until=...)` can abandon a transmit at any suspension point. Of the transmits the horizon abandons, the model covers only those abandoned during a back-off: a run whose supplied attempts all collide ends in its last back-off, with its frame off the air. An abandonment while a frame is still on the air is not modelled.
- Registry lifetime: in the source the registry is a class attribute (aloha.py:36) that is never cleared, so a frame abandoned while on the air stays in it and the next replication's checks see it under a reused id. In the model the registry is an object the stations share; nothing clears it either, but since no frame is abandoned on the air its entries are always removed, and these leftover frames and their effect on later replications are not captured.
- `wait_for_service` is split at its suspension point `yield req`. `JoinQueue` is the part before it and `ServiceStep` the part after the grant. Arrivals during a transmission are appended after the dequeue, which the split keeps.
- Arrival generation (`arrive`, aloha.py:203-211): this is an endless process driven by Poisson draws. In the model, a caller calls `JoinQueue` at each arrival time.
- Random variates: `planck.rvs` and `poisson.rvs` are foreign calls. Frame times, back-off delays and the resample draws are inputs. `Transmit` takes the frame time, which must be greater than 0. `GenerateFrameTime` models the resample loop by itself.
- Float arithmetic: `T`, `mean_retries`, `U`, `mean_t`, `mean_r` and `mean_U` are exact `real` quotients, not IEEE doubles.
- Printing, the `%` formatting and `generate_report_all_replications`: these are output plumbing and a numpy mean.
- The `__main__` replication loop and the station parameters `exponential_mean` and `poisson_mean`: this is driver code and parameters of the left-out random draws.
- The fields `n` and `last_event`, and the local `wait`: nothing reads them.
- Frame objects: a frame is a value, and raising a flag replaces the registry entry. In the source, transmit reads the flag from its own reference to the stored object. The model reads the value that `Remove` returns, which is the same frame.
- Utilization between 0 and 1: `StationUtilizationBounded` proves it for one station whose steps are in time order, which `InOrder` states and the capacity-one server guarantees. `ServeAll` itself accepts steps in any order, and nothing requires a caller to keep `ServiceStep` calls in order. The system-wide `mean_U` bound (aloha.py:243) is not proved: it needs the successful frames of different stations never to overlap, which depends on the interleaving of all stations that the model leaves to its inputs.
