/**
  The two InfluxDB clients (LOCAL_DB and CLOUD_DB) as an oracle. Nothing of
  the stores themselves is modelled: the outcome of the n-th ping, write or
  query is whatever the environment scripts for it, and every call is
  recorded, with its outcome, in a trace of events.
 */
module Clients {
  import opened Wrappers
  import opened Values
  import opened Points

  datatype Store = Local | Cloud

  /** `ping()`: the server version, or the exception it raised. */
  datatype PingOutcome = Version(version: string) | PingRaised(error: Error)

  /** `write_points(...)`: the value it returned (only its truth matters), or the exception. */
  datatype WriteOutcome = Returned(truthy: bool) | WriteRaised(error: Error)

  /** `query(...)`: a result set as its list of series, each a list of rows, or the exception. */
  datatype QueryOutcome = ResultSet(series: seq<seq<Row>>) | QueryRaised(error: Error)

  /** One call into a client, or one `time.sleep`, as it happened. */
  datatype Event =
    | Pinged(store: Store, ping: PingOutcome)
    | Slept(seconds: nat)
    | Queried(text: string, result: QueryOutcome)
    | Wrote(store: Store, points: seq<Point>, write: WriteOutcome)
    | Closed(store: Store)

  /**
    The scripted behaviour of the stores. `cloudPing(n)` is the outcome of the
    n-th cloud ping, and so on; writes may depend on the batch and queries on
    the text. `cloudOutage(n)` bounds how many more cloud pings, from the n-th
    on, will fail to connect (see EventuallyReachable). `parseFloat` is the
    number parser behind `float()` of a string.
   */
  datatype Environment = Environment(
    cloudPing: nat -> PingOutcome,
    cloudOutage: nat -> nat,
    localPing: nat -> PingOutcome,
    cloudWrite: (nat, seq<Point>) -> WriteOutcome,
    localWrite: (nat, seq<Point>) -> WriteOutcome,
    localQuery: (nat, string) -> QueryOutcome,
    parseFloat: string -> Option<real>)

  /** A ping that raised requests' ConnectionError. */
  predicate Unreachable(o: PingOutcome)
  {
    o.PingRaised? && o.error.ConnectionError?
  }

  /**
    Every run of failed cloud pings is finite: each ConnectionError lowers the
    outage bound. Runs in which the cloud never answers block forever in the
    source and are outside the model.
   */
  ghost predicate EventuallyReachable(env: Environment)
  {
    forall n: nat :: Unreachable(env.cloudPing(n)) ==> env.cloudOutage(n + 1) < env.cloudOutage(n)
  }

  /** How many calls of each kind have been made, and the trace of all of them. */
  datatype Log = Log(cloudPings: nat, localPings: nat, cloudWrites: nat, localWrites: nat,
                     queries: nat, events: seq<Event>)

  const INITIAL_LOG := Log(0, 0, 0, 0, 0, [])

  /** `after` continues the trace of `before`. */
  predicate Extends(before: Log, after: Log)
  {
    |before.events| <= |after.events| && after.events[..|before.events|] == before.events
  }

  /** The events recorded since `before`. */
  function NewEvents(before: Log, after: Log): seq<Event>
  {
    if |before.events| <= |after.events| then after.events[|before.events|..] else []
  }

  /** The next ping of `store`, recorded. */
  function Ping(env: Environment, log: Log, store: Store): (Log, PingOutcome)
  {
    match store
    case Cloud =>
      var o := env.cloudPing(log.cloudPings);
      (log.(cloudPings := log.cloudPings + 1, events := log.events + [Pinged(Cloud, o)]), o)
    case Local =>
      var o := env.localPing(log.localPings);
      (log.(localPings := log.localPings + 1, events := log.events + [Pinged(Local, o)]), o)
  }

  /** The next `write_points(points, time_precision='ms')` on `store`, recorded. */
  function Write(env: Environment, log: Log, store: Store, points: seq<Point>): (Log, WriteOutcome)
  {
    match store
    case Cloud =>
      var o := env.cloudWrite(log.cloudWrites, points);
      (log.(cloudWrites := log.cloudWrites + 1, events := log.events + [Wrote(Cloud, points, o)]), o)
    case Local =>
      var o := env.localWrite(log.localWrites, points);
      (log.(localWrites := log.localWrites + 1, events := log.events + [Wrote(Local, points, o)]), o)
  }

  /** The next `LOCAL_DB.query(text, epoch='ms')`, recorded. */
  function Query(env: Environment, log: Log, text: string): (Log, QueryOutcome)
  {
    var o := env.localQuery(log.queries, text);
    (log.(queries := log.queries + 1, events := log.events + [Queried(text, o)]), o)
  }

  function Sleep(log: Log, seconds: nat): Log
  {
    log.(events := log.events + [Slept(seconds)])
  }

  /** `first.close(); second.close()`. */
  function CloseBoth(log: Log, first: Store, second: Store): Log
  {
    log.(events := log.events + [Closed(first), Closed(second)])
  }

  // ----- what each call records -----

  /** A ping takes the next scripted outcome of its store, moves only that store's ping counter and records itself. */
  lemma PingRecorded(env: Environment, log: Log, store: Store)
    ensures Extends(log, Ping(env, log, store).0)
    ensures NewEvents(log, Ping(env, log, store).0) == [Pinged(store, Ping(env, log, store).1)]
    ensures Ping(env, log, store).1 == if store == Cloud then env.cloudPing(log.cloudPings) else env.localPing(log.localPings)
    ensures Ping(env, log, store).0.(events := log.events) ==
      if store == Cloud then log.(cloudPings := log.cloudPings + 1) else log.(localPings := log.localPings + 1)
  {
    assert NewEvents(log, Ping(env, log, store).0) == [Pinged(store, Ping(env, log, store).1)];
  }

  /** A write takes the next scripted outcome of its store for that batch, moves only that store's write counter and records itself. */
  lemma WriteRecorded(env: Environment, log: Log, store: Store, points: seq<Point>)
    ensures Extends(log, Write(env, log, store, points).0)
    ensures NewEvents(log, Write(env, log, store, points).0) == [Wrote(store, points, Write(env, log, store, points).1)]
    ensures Write(env, log, store, points).1 ==
      if store == Cloud then env.cloudWrite(log.cloudWrites, points) else env.localWrite(log.localWrites, points)
    ensures Write(env, log, store, points).0.(events := log.events) ==
      if store == Cloud then log.(cloudWrites := log.cloudWrites + 1) else log.(localWrites := log.localWrites + 1)
  {
    assert NewEvents(log, Write(env, log, store, points).0) == [Wrote(store, points, Write(env, log, store, points).1)];
  }

  /** A query takes the next scripted result for its text, moves only the query counter and records itself. */
  lemma QueryRecorded(env: Environment, log: Log, text: string)
    ensures Extends(log, Query(env, log, text).0)
    ensures Query(env, log, text).1 == env.localQuery(log.queries, text)
    ensures NewEvents(log, Query(env, log, text).0) == [Queried(text, Query(env, log, text).1)]
    ensures Query(env, log, text).0.(events := log.events) == log.(queries := log.queries + 1)
  {
    assert NewEvents(log, Query(env, log, text).0) == [Queried(text, Query(env, log, text).1)];
  }

  /** A sleep and a pair of closes change no counter and only record themselves. */
  lemma SleepCloseRecorded(log: Log, seconds: nat, first: Store, second: Store)
    ensures Extends(log, Sleep(log, seconds)) && NewEvents(log, Sleep(log, seconds)) == [Slept(seconds)]
    ensures Sleep(log, seconds).(events := log.events) == log
    ensures Extends(log, CloseBoth(log, first, second))
    ensures NewEvents(log, CloseBoth(log, first, second)) == [Closed(first), Closed(second)]
    ensures CloseBoth(log, first, second).(events := log.events) == log
  {
    assert NewEvents(log, Sleep(log, seconds)) == [Slept(seconds)];
    assert NewEvents(log, CloseBoth(log, first, second)) == [Closed(first), Closed(second)];
  }
}
