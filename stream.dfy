/**
 * The controller's event-stream consumer and its watchdog, as functions:
 * what one server-sent event does to the controller's state, where the
 * stream loop stops, and which of start, restart or process restart the
 * watchdog chooses.
 */
module Streaming {
  import opened Common
  import opened Snapshots

  /**
   * A server-sent event's type. `Put` carries the decoded `data` member of
   * its payload; `Unrecognised` is any type name other than the six the
   * consumer knows.
   */
  datatype EventKind = Open | Put(body: Snapshot) | KeepAlive | AuthRevoked | Error | Cancel | Unrecognised(name: string)

  /** One event and the second at which the consumer read it. */
  datatype Event = Event(kind: EventKind, at: int)

  /** The consumer closes the stream and returns after this event: anything but open, put and keep-alive. */
  predicate Ends(k: EventKind)
  {
    !(k.Open? || k.Put? || k.KeepAlive?)
  }

  /**
   * The controller state the consumer writes: the token, the current
   * snapshot, the time of the last event, and the snapshots every node was
   * refreshed from, oldest first.
   */
  datatype Ingest = Ingest(token: Option<string>, data: Option<Snapshot>, lastUpdate: int, refreshes: seq<Snapshot>)

  /** The effect of one event: every event stamps the time, put replaces the snapshot and refreshes the nodes, a revocation drops the token. */
  function Step(s: Ingest, e: Event): (t: Ingest)
    ensures t.lastUpdate == e.at
    ensures t.token == (if e.kind.AuthRevoked? then None else s.token)
    ensures t.data == (if e.kind.Put? then Some(e.kind.body) else s.data)
    ensures t.refreshes == s.refreshes + (if e.kind.Put? then [e.kind.body] else [])
  {
    var stamped := s.(lastUpdate := e.at);
    match e.kind
    case Open => stamped
    case Put(body) => stamped.(data := Some(body), refreshes := stamped.refreshes + [body])
    case KeepAlive => stamped
    case AuthRevoked => stamped.(token := None)
    case Error => stamped
    case Cancel => stamped
    case Unrecognised(_) => stamped
  }

  /** The state after consuming `es` until the stream ends or the first event that ends the loop. */
  function Run(s: Ingest, es: seq<Event>): Ingest
    decreases |es|
  {
    if |es| == 0 then s
    else
      var t := Step(s, es[0]);
      if Ends(es[0].kind) then t else Run(t, es[1..])
  }

  /** How many events the loop reads: up to and including the first that ends it, or all of them. */
  function Consumed(es: seq<Event>): (n: nat)
    ensures n <= |es|
    ensures forall i :: 0 <= i < n - 1 ==> !Ends(es[i].kind)
    ensures n < |es| ==> n > 0 && Ends(es[n - 1].kind)
    ensures |es| > 0 ==> n > 0
    decreases |es|
  {
    if |es| == 0 then 0
    else if Ends(es[0].kind) then 1
    else 1 + Consumed(es[1..])
  }

  /** The snapshots carried by the put events of `es`, in order. */
  function PutBodies(es: seq<Event>): seq<Snapshot>
    decreases |es|
  {
    if |es| == 0 then []
    else (if es[0].kind.Put? then [es[0].kind.body] else []) + PutBodies(es[1..])
  }

  /** Events after the one that ends the loop are never read. */
  lemma {:induction false} RunIgnoresTail(s: Ingest, es: seq<Event>)
    ensures Run(s, es) == Run(s, es[..Consumed(es)])
    decreases |es|
  {
    if |es| > 0 && !Ends(es[0].kind) {
      RunIgnoresTail(Step(s, es[0]), es[1..]);
      assert es[..Consumed(es)][1..] == es[1..][..Consumed(es[1..])];
    }
  }

  /** The last-update time is that of the last event read; with no event it is unchanged. */
  lemma {:induction false} RunLastUpdate(s: Ingest, es: seq<Event>)
    ensures |es| == 0 ==> Run(s, es).lastUpdate == s.lastUpdate
    ensures |es| > 0 ==> Run(s, es).lastUpdate == es[Consumed(es) - 1].at
    decreases |es|
  {
    if |es| > 0 && !Ends(es[0].kind) {
      RunLastUpdate(Step(s, es[0]), es[1..]);
    }
  }

  /** The token is dropped exactly when the loop ended on a revocation; every other run keeps it. */
  lemma {:induction false} RunToken(s: Ingest, es: seq<Event>)
    ensures Run(s, es).token == (if Consumed(es) > 0 && es[Consumed(es) - 1].kind.AuthRevoked? then None else s.token)
    decreases |es|
  {
    if |es| > 0 && !Ends(es[0].kind) {
      RunToken(Step(s, es[0]), es[1..]);
    }
  }

  /** Each put event read refreshes the nodes once, in order; no other event does. */
  lemma {:induction false} RunRefreshes(s: Ingest, es: seq<Event>)
    ensures Run(s, es).refreshes == s.refreshes + PutBodies(es[..Consumed(es)])
    decreases |es|
  {
    if |es| > 0 {
      var n := Consumed(es);
      if Ends(es[0].kind) {
        assert es[..n] == [es[0]];
        assert PutBodies(es[..n]) == [] + PutBodies([]);
      } else {
        RunRefreshes(Step(s, es[0]), es[1..]);
        assert es[..n][1..] == es[1..][..Consumed(es[1..])];
      }
    }
  }

  /** The current snapshot is the body of the last put read, or unchanged when no put was read. */
  lemma {:induction false} RunData(s: Ingest, es: seq<Event>)
    ensures var bodies := PutBodies(es[..Consumed(es)]);
      Run(s, es).data == (if |bodies| == 0 then s.data else Some(bodies[|bodies| - 1]))
    decreases |es|
  {
    if |es| > 0 {
      var n := Consumed(es);
      if Ends(es[0].kind) {
        assert es[..n] == [es[0]];
        assert PutBodies(es[..n]) == [] + PutBodies([]);
      } else {
        RunData(Step(s, es[0]), es[1..]);
        assert es[..n][1..] == es[1..][..Consumed(es[1..])];
      }
    }
  }

  /** What the watchdog does on a long poll. */
  datatype WatchAction = Skip | StartThread | RestartThread | RestartProcess | Healthy

  /** Streams stay trusted for this many seconds without an event. */
  const StaleAfter: int := 1800

  /**
   * The watchdog's choice. Nothing happens without a token or during a
   * discovery; a first call starts the consumer; a dead consumer is
   * restarted; a live one silent for MORE than 1800 seconds makes the whole
   * process restart.
   */
  function Watchdog(hasToken: bool, discovering: bool, started: bool, alive: bool, now: int, lastUpdate: int): (a: WatchAction)
    ensures a == Skip <==> !hasToken || discovering
    ensures a == StartThread <==> hasToken && !discovering && !started
    ensures a == RestartThread <==> hasToken && !discovering && started && !alive
    ensures a == RestartProcess <==> hasToken && !discovering && started && alive && now - lastUpdate > StaleAfter
    ensures a == Healthy <==> hasToken && !discovering && started && alive && now - lastUpdate <= StaleAfter
  {
    if !hasToken || discovering then Skip
    else if !started then StartThread
    else if alive then
      if now - lastUpdate > StaleAfter then RestartProcess else Healthy
    else RestartThread
  }

  /** The watchdog's boolean answer: false when it did nothing or asked for a process restart. */
  predicate Reported(a: WatchAction)
  {
    !(a == Skip || a == RestartProcess)
  }

  /** The consumer thread's bookkeeping: how many times one was started, and whether a process restart was requested. */
  datatype Supervisor = Supervisor(starts: nat, restartRequested: bool)
  {
    /** A consumer thread exists once one was started. */
    predicate Started() { starts > 0 }
  }

  /** The effect of a watchdog action: starting or restarting launches one consumer, a process restart is requested. */
  function Supervised(s: Supervisor, a: WatchAction): (t: Supervisor)
    ensures t.starts == s.starts + (if a == StartThread || a == RestartThread then 1 else 0)
    ensures t.restartRequested == (s.restartRequested || a == RestartProcess)
  {
    match a
    case StartThread => s.(starts := s.starts + 1)
    case RestartThread => s.(starts := s.starts + 1)
    case RestartProcess => s.(restartRequested := true)
    case Skip => s
    case Healthy => s
  }

  /** A healthy consumer, or one the watchdog just (re)started, stays untouched by the next check until it goes stale or dies. */
  lemma WatchdogSettles(s: Supervisor, discovering: bool, alive: bool, now: int, lastUpdate: int)
    requires !discovering && alive && now - lastUpdate <= StaleAfter
    ensures var a := Watchdog(true, discovering, s.Started(), alive, now, lastUpdate);
      var t := Supervised(s, a);
      Watchdog(true, discovering, t.Started(), alive, now, lastUpdate) == Healthy
  {
  }
}
