/** The shared channel of a pure-ALOHA network: the frames currently on the
    air, keyed by transmission id, and the collision check every attempt
    runs when its frame time has elapsed. The registry is one object that
    every station of a replication holds a reference to. */
module Channel {

  /** The id under which a message is on the air: the station's name and the
      message's name. Every attempt of one message uses the same id. */
  datatype FrameId = FrameId(station: string, message: string)

  /** One attempt's occupation of the channel, the half-open interval
      [start, end), and the flag the collision check raises. */
  datatype Frame = Frame(start: int, end: int, frameTime: nat, retry: bool)

  /** The frame of an attempt that begins at `now` and lasts `frameTime`. */
  function CreateFrame(now: int, frameTime: nat): (f: Frame)
    ensures f.start == now && f.end - f.start == frameTime
    ensures f.frameTime == frameTime && !f.retry
  {
    Frame(now, now + frameTime, frameTime, false)
  }

  /** Frame `f` is on the air at instant `t`. */
  predicate OnAir(f: Frame, t: int)
  {
    f.start <= t < f.end
  }

  /** Frame `f` occupies at least one instant of the channel. */
  predicate Positive(f: Frame)
  {
    f.start < f.end
  }

  /** The overlap test of the collision check: two frames of positive
      length overlap exactly when they are on the air together at some instant. */
  predicate Overlaps(other: Frame, frame: Frame): (b: bool)
    ensures Positive(other) && Positive(frame) ==> (b <==> exists t :: OnAir(other, t) && OnAir(frame, t))
  {
    var t := if other.start < frame.start then frame.start else other.start;
    assert Positive(other) && Positive(frame) && other.end > frame.start && other.start < frame.end ==>
      OnAir(other, t) && OnAir(frame, t);
    other.end > frame.start && other.start < frame.end
  }

  /** Some registered frame under an id other than `id` overlaps `frame`. */
  predicate Collides(frames: map<FrameId, Frame>, frame: Frame, id: FrameId)
  {
    exists k :: k in frames && k != id && Overlaps(frames[k], frame)
  }

  /** When every frame has positive length, a collision is exactly some
      other id being on the air at an instant `frame` is. */
  lemma CollidesIffSharedInstant(frames: map<FrameId, Frame>, frame: Frame, id: FrameId)
    requires Positive(frame) && forall k :: k in frames ==> Positive(frames[k])
    ensures Collides(frames, frame, id) <==>
      exists k, t :: k in frames && k != id && OnAir(frames[k], t) && OnAir(frame, t)
  {
  }

  /** Every registered frame, with its retry flag raised. */
  function FlagAll(frames: map<FrameId, Frame>): (r: map<FrameId, Frame>)
    ensures r.Keys == frames.Keys
    ensures forall k :: k in r ==> r[k] == frames[k].(retry := true)
  {
    map k | k in frames :: frames[k].(retry := true)
  }

  /** The registry after the collision check of `frame`, registered under
      `id`: a collision with any other frame is broadcast to every frame on
      the air, the checked one included; without one nothing changes. */
  function AfterCheck(frames: map<FrameId, Frame>, frame: Frame, id: FrameId): (r: map<FrameId, Frame>)
    ensures r.Keys == frames.Keys
    ensures forall k :: k in r ==>
      r[k].start == frames[k].start && r[k].end == frames[k].end && r[k].frameTime == frames[k].frameTime
    ensures forall k :: k in r ==> r[k].retry == (frames[k].retry || Collides(frames, frame, id))
    ensures Collides(frames, frame, id) ==> forall k :: k in r ==> r[k].retry
    ensures !Collides(frames, frame, id) ==> r == frames
  {
    if Collides(frames, frame, id) then FlagAll(frames) else frames
  }

  /** Overlap is symmetric: of two frames on the air together, each overlaps the other. */
  lemma OverlapsSymmetric(a: Frame, b: Frame)
    ensures Overlaps(a, b) <==> Overlaps(b, a)
  {
  }

  /** The checked frame's own entry never counts against it, whatever it holds. */
  lemma CollidesIgnoresOwnEntry(frames: map<FrameId, Frame>, frame: Frame, id: FrameId, own: Frame)
    ensures Collides(frames[id := own], frame, id) == Collides(frames, frame, id)
  {
    if Collides(frames, frame, id) {
      var k :| k in frames && k != id && Overlaps(frames[k], frame);
      assert frames[id := own][k] == frames[k];
    }
  }

  /** A frame alone on the channel is never flagged by its own check. */
  lemma AloneNeverFlagged(frame: Frame, id: FrameId)
    ensures AfterCheck(map[id := frame], frame, id) == map[id := frame]
  {
  }

  /** Two stations that start transmitting at the same instant collide, and
      the check of either one flags both frames. */
  lemma SimultaneousStartsCollide(a: FrameId, b: FrameId, now: int, ftA: nat, ftB: nat)
    requires a != b && ftA > 0 && ftB > 0
    ensures var frames := map[a := CreateFrame(now, ftA), b := CreateFrame(now, ftB)];
      var r := AfterCheck(frames, frames[a], a);
      r[a].retry && r[b].retry
  {
  }

  /** Registering a frame under a fresh id and taking it off again gives the
      frame back and leaves the registry as it was. */
  lemma AddThenRemove(frames: map<FrameId, Frame>, frame: Frame, id: FrameId)
    requires id !in frames
    ensures frames[id := frame][id] == frame
    ensures frames[id := frame] - {id} == frames
  {
  }

  /** The registry of frames on the air, shared by all stations of a replication. */
  class Registry {
    var frames: map<FrameId, Frame>

    constructor ()
      ensures frames == map[]
    {
      frames := map[];
    }

    /** Puts `frame` on the air under `id`; an entry already there is replaced. */
    method Add(frame: Frame, id: FrameId)
      modifies this
      ensures frames == old(frames)[id := frame]
    {
      frames := frames[id := frame];
    }

    /** Takes the frame registered under `id` off the air and returns it,
        with whatever retry flag the checks have given it. */
    method Remove(id: FrameId) returns (frame: Frame)
      requires id in frames
      modifies this
      ensures frame == old(frames)[id]
      ensures frames == old(frames) - {id}
    {
      frame := frames[id];
      frames := frames - {id};
    }

    /** The first pass of the collision check: a scan of every registered
        key, skipping `id`, for a frame that overlaps `frame`. */
    method AnyOverlap(frame: Frame, id: FrameId) returns (hasCollision: bool)
      ensures hasCollision == Collides(frames, frame, id)
    {
      hasCollision := false;
      var keys := frames.Keys;
      while keys != {}
        invariant keys <= frames.Keys
        invariant hasCollision ==> Collides(frames, frame, id)
        invariant !hasCollision ==>
          forall k :: k in frames && k !in keys && k != id ==> !Overlaps(frames[k], frame)
        decreases keys
      {
        var key :| key in keys;
        if key != id {
          if Overlaps(frames[key], frame) {
            hasCollision := true;
          }
        }
        keys := keys - {key};
      }
    }

    /** The collision check of `frame`, registered under `id`: on any overlap
        with another frame, every registered frame gets its retry flag. */
    method CheckCollision(frame: Frame, id: FrameId)
      modifies this
      ensures frames == AfterCheck(old(frames), frame, id)
    {
      var hasCollision := AnyOverlap(frame, id);
      if hasCollision {
        var keys := frames.Keys;
        while keys != {}
          invariant keys <= frames.Keys
          invariant frames.Keys == old(frames).Keys
          invariant forall k :: k in frames ==>
            frames[k] == if k in keys then old(frames)[k] else old(frames)[k].(retry := true)
          decreases keys
        {
          var key :| key in keys;
          frames := frames[key := frames[key].(retry := true)];
          keys := keys - {key};
        }
        assert frames == FlagAll(old(frames));
      }
    }

    /** What the other stations do to the registry while the frame under `id`
        is on the air: they put their own frames on and take them off, which
        leaves `others` as the entries beside it, and a collision one of them
        detects in that time raises the flag of this frame too (`flagged`). */
    method Interleave(id: FrameId, others: map<FrameId, Frame>, flagged: bool)
      requires id in frames
      modifies this
      ensures frames == others[id := old(frames)[id].(retry := old(frames)[id].retry || flagged)]
    {
      var own := frames[id];
      frames := others[id := own.(retry := own.retry || flagged)];
    }
  }
}
