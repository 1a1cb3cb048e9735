/**
  uploader/uploader.py as a running program: the module-level CONF,
  LOCAL_DB and CLOUD_DB become the fields of a Replicator, and each function
  of the replication step becomes a method that makes its client calls one
  at a time, loops as the source does and changes the batch in place. Every
  method is proved to end in exactly the state and with exactly the result
  the corresponding function of module Replication gives.
 */
module Uploader {
  import opened Wrappers
  import opened Values
  import opened Config
  import opened QueryText
  import opened Points
  import opened Clients
  import opened Replication

  class Replicator {
    /** What the two clients will answer. */
    const env: Environment
    /** The parsed configuration file, CONF. */
    const conf: Conf
    /** Every call made through the clients so far. */
    var log: Log

    /** The state of `main` once both clients are constructed and nothing has been sent. */
    constructor (env: Environment, conf: Conf)
      ensures this.env == env && this.conf == conf && log == INITIAL_LOG
    {
      this.env := env;
      this.conf := conf;
      log := INITIAL_LOG;
    }

    // ----- the client calls -----

    method PingStore(store: Store) returns (o: PingOutcome)
      modifies this
      ensures (log, o) == Clients.Ping(env, old(log), store)
    {
      var p := Clients.Ping(env, log, store);
      log := p.0;
      o := p.1;
    }

    method WritePoints(store: Store, points: seq<Point>) returns (o: WriteOutcome)
      modifies this
      ensures (log, o) == Clients.Write(env, old(log), store, points)
    {
      var w := Clients.Write(env, log, store, points);
      log := w.0;
      o := w.1;
    }

    method QueryLocal(text: string) returns (o: QueryOutcome)
      modifies this
      ensures (log, o) == Clients.Query(env, old(log), text)
    {
      var q := Clients.Query(env, log, text);
      log := q.0;
      o := q.1;
    }

    method SleepFor(seconds: nat)
      modifies this
      ensures log == Clients.Sleep(old(log), seconds)
    {
      log := Clients.Sleep(log, seconds);
    }

    method CloseClients(first: Store, second: Store)
      modifies this
      ensures log == Clients.CloseBoth(old(log), first, second)
    {
      log := Clients.CloseBoth(log, first, second);
    }

    // ----- the replication step -----

    /** `connected_to_cloud()`: the `cloud_connected` flag loop of uploader/uploader.py:32-43. */
    method ConnectedToCloud() returns (r: Result<bool, Error>)
      requires EventuallyReachable(env)
      modifies this
      ensures (log, r) == AwaitCloud(env, old(log))
    {
      var connected := false;
      r := Ok(false);
      while !connected
        invariant connected ==> (log, r) == AwaitCloud(env, old(log))
        invariant !connected ==> AwaitCloud(env, log) == AwaitCloud(env, old(log))
        decreases if connected then 0 else 1 + env.cloudOutage(log.cloudPings)
      {
        var version := PingStore(Cloud);
        match version
        case Version(_) =>
          connected := true;
          r := Ok(connected);
        case PingRaised(e) =>
          if !e.ConnectionError? {
            return Err(e);
          }
          SleepFor(RETRY_SECONDS);
      }
    }

    /**
      `upload_data(batch)`: the remote write, then, only if it returned
      truthy, the marking of the batch in place and the local write; an
      exception from any of them closes both clients and is returned.
     */
    method UploadData(batch: array<Point>) returns (r: Result<(), Error>)
      requires EventuallyReachable(env)
      modifies this, batch
      ensures (log, batch[..], r) == Upload(env, old(log), old(batch[..]))
    {
      var connected := ConnectedToCloud();
      if connected.Err? {
        return Err(connected.error);
      }
      if !connected.value {
        return Ok(());
      }
      var remote := WritePoints(Cloud, batch[..]);
      match remote
      case WriteRaised(e) =>
        CloseClients(Cloud, Local);
        return Err(e);
      case Returned(truthy) =>
        if truthy {
          var failed := MarkInPlace(batch, env.parseFloat);
          if failed.Some? {
            CloseClients(Cloud, Local);
            return Err(failed.value);
          }
          var local := WritePoints(Local, batch[..]);
          if local.WriteRaised? {
            CloseClients(Cloud, Local);
            return Err(local.error);
          }
        }
        r := Ok(());
    }

    /**
      `get_points(section)`: build and send the query, turn the first series
      of the result into a batch with the append loop, and upload it.
     */
    method GetPoints(section: Section) returns (r: Result<(), Error>)
      requires EventuallyReachable(env)
      modifies this
      ensures (log, r) == Fetch(env, old(log), section)
    {
      match section
      case Untagged =>
        return Err(KeyError(TAGS));
      case Stream(src) =>
        var results := QueryLocal(SelectQuery(src));
        match results
        case QueryRaised(e) =>
          if e.ClientError? {
            CloseClients(Local, Cloud);
          }
          return Err(e);
        case ResultSet(series) =>
          if |series| == 0 {
            return Ok(());
          }
          var built := BuildBatch(src, series[0]);
          if built.Err? {
            return Err(built.error);
          }
          var points := built.value;
          var batch := new Point[|points|](i requires 0 <= i < |points| => points[i]);
          assert batch[..] == points;
          r := UploadData(batch);
    }

    /** One pass of the source loop of uploader/uploader.py:160-169 over CONF's keys. */
    method SourceLoop() returns (r: Result<(), Error>)
      requires EventuallyReachable(env)
      modifies this
      ensures (log, r) == Pass(env, old(log), conf)
    {
      var i := 0;
      while i < |conf|
        invariant 0 <= i <= |conf|
        invariant Pass(env, log, conf[i..]) == Pass(env, old(log), conf)
      {
        assert conf[i..][0] == conf[i] && conf[i..][1..] == conf[i + 1..];
        var key := conf[i].0;
        if !Reserved(key) {
          var fetched := GetPoints(conf[i].1);
          if fetched.Err? {
            CloseClients(Local, Cloud);
            return fetched;
          }
          SleepFor(PACE_SECONDS);
        }
        i := i + 1;
      }
      r := Ok(());
    }

    /** The start-up checks of uploader/uploader.py:148-158. */
    method Connect() returns (r: Result<bool, Error>)
      requires EventuallyReachable(env)
      modifies this
      ensures (log, r) == Startup(env, old(log))
    {
      var local := PingStore(Local);
      if local.PingRaised? {
        if local.error.ConnectionError? {
          CloseClients(Local, Cloud);
        }
        return Err(local.error);
      }
      r := ConnectedToCloud();
    }

    /** `main` after the clients are built: the start-up checks, then the first pass of the loop. */
    method Run() returns (r: Result<(), Error>)
      requires EventuallyReachable(env) && log == INITIAL_LOG
      modifies this
      ensures (log, r) == Replicate(env, conf)
    {
      var started := Connect();
      if started.Err? {
        return Err(started.error);
      }
      if started.value {
        r := SourceLoop();
      } else {
        r := Ok(());
      }
    }
  }
}
