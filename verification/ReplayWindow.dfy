/** Instants and durations, in nanoseconds, as the source's clock counts them. */
module Clock {
  type Time = int

  const SECOND: Time := 1_000_000_000
  const MINUTE: Time := 60 * SECOND
  const HOUR: Time := 60 * MINUTE
  const DAY: Time := 24 * HOUR

  /** Bounds on the network and the server. `offset` is the local clock minus the server's. */
  datatype Timing = Timing(latency: Time, delay: Time, lag: Time, offset: Time) {
    /** A request is processed at most `delay` after it was sent; a response is seen at most `latency`
        after it was computed, and dated at most `lag` after. */
    predicate Bounded() {
      && 0 <= latency && 0 <= delay && 0 <= lag
      && latency + delay <= 12 * HOUR
      && lag + SECOND <= 5 * MINUTE
    }
  }

  /** `date` is the Date header of a response computed at `at`: whole seconds, written a little later. */
  predicate Dates(t: Timing, at: Time, date: Time) {
    at - SECOND < date <= at + t.lag
  }
}

/** The cutoff for resending a durable create request. */
module ReplayWindow {
  import opened Clock
  import opened Options

  const CREATE_SEND_WINDOW: Time := MINUTE
  const CREATE_REPLAY_LIFETIME: Time := 12 * HOUR
  const SERVER_DATE_RESOLUTION: Time := SECOND
  /** How long the server remembers an idempotency key. */
  const IDEMPOTENCY_TTL: Time := 24 * HOUR

  /** The local deadline for an exact replay, or nothing when a replay is refused. */
  function ReplayDeadline(serverTime: Time, serverNow: Option<Time>, localNow: Time): (deadline: Option<Time>)
    ensures deadline.Some? <==>
              serverNow.Some? && serverTime <= serverNow.value
              && serverNow.value - serverTime < CREATE_REPLAY_LIFETIME - CREATE_SEND_WINDOW - SERVER_DATE_RESOLUTION
    ensures deadline.Some? ==> deadline.value == localNow + CREATE_SEND_WINDOW
  {
    if serverNow.None? || serverNow.value < serverTime then None
    else if !(serverNow.value + (CREATE_SEND_WINDOW + SERVER_DATE_RESOLUTION) < serverTime + CREATE_REPLAY_LIFETIME)
        then None
    else Some(localNow + CREATE_SEND_WINDOW)
  }

  /** One replay, from the dated read that allowed it to its arrival at the server. */
  datatype Replay = Replay(readAt: Time, date: Time, stampedAt: Time, sentAt: Time, arrivedAt: Time)

  /** The replay obeys the timing bounds and was sent before the deadline it was given. */
  predicate Feasible(t: Timing, serverTime: Time, r: Replay) {
    var deadline := ReplayDeadline(serverTime, Some(r.date), r.stampedAt + t.offset);
    && Dates(t, r.readAt, r.date)
    && r.readAt <= r.stampedAt <= r.readAt + t.latency
    && r.stampedAt <= r.sentAt <= r.arrivedAt <= r.sentAt + t.delay
    && deadline.Some?
    && r.sentAt + t.offset < deadline.value
  }

  /** A replay is sent within 12 hours plus the read latency of the recorded server time. */
  lemma ReplaySentInTime(t: Timing, serverTime: Time, r: Replay)
    requires Feasible(t, serverTime, r)
    ensures r.sentAt < serverTime + CREATE_REPLAY_LIFETIME + t.latency
    ensures r.arrivedAt < serverTime + CREATE_REPLAY_LIFETIME + t.latency + t.delay
  {
    assert r.date < serverTime + CREATE_REPLAY_LIFETIME - CREATE_SEND_WINDOW - SERVER_DATE_RESOLUTION;
    assert r.sentAt < r.stampedAt + CREATE_SEND_WINDOW;
  }

  /** So it always meets the server's record of a create accepted at or after that time... */
  lemma ReplayInsideLifetime(t: Timing, serverTime: Time, acceptedAt: Time, r: Replay)
    requires t.Bounded() && serverTime <= acceptedAt && Feasible(t, serverTime, r)
    ensures r.arrivedAt < acceptedAt + IDEMPOTENCY_TTL
  {
    ReplaySentInTime(t, serverTime, r);
  }

  /** ...and every replay does exactly when read latency and delivery delay sum to no more than 12 hours,
      give or take the two nanoseconds that the strict comparisons leave over. */
  lemma LifetimeNeedsBoundedDelay(t: Timing)
    requires 0 <= t.latency && 0 <= t.delay && 0 <= t.lag
    ensures t.latency + t.delay <= 12 * HOUR + 2
       <==> forall serverTime, r :: Feasible(t, serverTime, r) ==> r.arrivedAt < serverTime + IDEMPOTENCY_TTL
  {
    if t.latency + t.delay <= 12 * HOUR + 2 {
      forall serverTime, r | Feasible(t, serverTime, r)
        ensures r.arrivedAt < serverTime + IDEMPOTENCY_TTL
      {
        ReplaySentInTime(t, serverTime, r);
      }
    } else {
      // The latest allowed date, on a read made almost a second after it, delayed as long as possible.
      var date := CREATE_REPLAY_LIFETIME - CREATE_SEND_WINDOW - SERVER_DATE_RESOLUTION - 1;
      var readAt := date + SECOND - 1;
      var sentAt := readAt + t.latency + CREATE_SEND_WINDOW - 1;
      var late := Replay(readAt, date, readAt + t.latency, sentAt, sentAt + t.delay);
      assert Feasible(t, 0, late);
      assert late.arrivedAt >= 0 + IDEMPOTENCY_TTL;
    }
  }
}
