/**
  The replication step of uploader/uploader.py as functions of the scripted
  environment and the log of calls made so far: `connected_to_cloud`
  (AwaitCloud), `upload_data` (Upload), `get_points` (Fetch), one pass of
  the source loop of `main` (Pass) and its start-up checks (Startup). The
  class in module Uploader runs the same steps imperatively and is proved to
  agree with these functions; the lemmas here state what the steps promise.
 */
module Replication {
  import opened Wrappers
  import opened Dicts
  import opened Values
  import opened Config
  import opened QueryText
  import opened Points
  import opened Clients

  /** Seconds `connected_to_cloud` waits after a ConnectionError. */
  const RETRY_SECONDS: nat := 30
  /** Seconds the loop of `main` waits after each source. */
  const PACE_SECONDS: nat := 5

  // ----- connected_to_cloud (uploader/uploader.py:28-43) -----

  /**
    Ping the cloud until a ping does not raise ConnectionError, waiting 30
    seconds after each one that does. Another exception propagates.
   */
  function AwaitCloud(env: Environment, log: Log): (Log, Result<bool, Error>)
    requires EventuallyReachable(env)
    decreases env.cloudOutage(log.cloudPings)
  {
    var p := Ping(env, log, Cloud);
    match p.1
    case Version(_) => (p.0, Ok(true))
    case PingRaised(e) =>
      if e.ConnectionError? then AwaitCloud(env, Sleep(p.0, RETRY_SECONDS)) else (p.0, Err(e))
  }

  /**
    The shape of a retry run: cloud pings at even positions and 30-second
    waits at odd ones; every ping but the last raised ConnectionError, the
    last did not.
   */
  ghost predicate RetryTrace(w: seq<Event>)
  {
    |w| % 2 == 1 &&
    forall j :: 0 <= j < |w| ==>
      if j % 2 == 0 then w[j].Pinged? && w[j].store == Cloud && (Unreachable(w[j].ping) <==> j < |w| - 1)
      else w[j] == Slept(RETRY_SECONDS)
  }

  /**
    `connected_to_cloud` returns True only right after a ping that did not
    raise, and fails only with the non-connection exception of its last ping;
    before that, each ConnectionError is followed by one 30-second wait and a
    new ping, the pings taking the scripted outcomes in order, with no limit
    on their number. Nothing but cloud pings is counted.
   */
  lemma {:induction false} AwaitCloudSpec(env: Environment, log: Log)
    requires EventuallyReachable(env)
    ensures Extends(log, AwaitCloud(env, log).0)
    ensures RetryTrace(NewEvents(log, AwaitCloud(env, log).0))
    ensures var w := NewEvents(log, AwaitCloud(env, log).0);
      AwaitCloud(env, log).0 == log.(cloudPings := log.cloudPings + (|w| + 1) / 2,
                                     events := AwaitCloud(env, log).0.events)
    ensures var w := NewEvents(log, AwaitCloud(env, log).0);
      AwaitCloud(env, log).1 == if w[|w| - 1].ping.Version? then Ok(true) else Err(w[|w| - 1].ping.error)
    decreases env.cloudOutage(log.cloudPings)
  {
    AwaitCloudCounters(env, log);
    AwaitCloudShape(env, log);
  }

  lemma {:induction false} AwaitCloudShape(env: Environment, log: Log)
    requires EventuallyReachable(env)
    ensures Extends(log, AwaitCloud(env, log).0)
    ensures RetryTrace(NewEvents(log, AwaitCloud(env, log).0))
    ensures var w := NewEvents(log, AwaitCloud(env, log).0);
      AwaitCloud(env, log).1 == if w[|w| - 1].ping.Version? then Ok(true) else Err(w[|w| - 1].ping.error)
    decreases env.cloudOutage(log.cloudPings)
  {
    var p := Ping(env, log, Cloud);
    var o := p.1;
    if o.PingRaised? && o.error.ConnectionError? {
      var log1 := Sleep(p.0, RETRY_SECONDS);
      AwaitCloudShape(env, log1);
      var l := AwaitCloud(env, log1).0;
      assert AwaitCloud(env, log) == AwaitCloud(env, log1);
      RetryPrefix(log, log1, l, o);
      var w := NewEvents(log, l);
      var w1 := NewEvents(log1, l);
      RetryStep(o, w1, w);
      assert w[|w| - 1] == w1[|w1| - 1];
    } else {
      assert AwaitCloud(env, log) == (p.0, if o.Version? then Ok(true) else Err(o.error));
      assert NewEvents(log, p.0) == [Pinged(Cloud, o)];
    }
  }

  /** A retry run counts one cloud ping per ping event and changes no other counter. */
  lemma {:induction false} AwaitCloudCounters(env: Environment, log: Log)
    requires EventuallyReachable(env)
    ensures Extends(log, AwaitCloud(env, log).0)
    ensures var w := NewEvents(log, AwaitCloud(env, log).0);
      AwaitCloud(env, log).0 == log.(cloudPings := log.cloudPings + (|w| + 1) / 2,
                                     events := AwaitCloud(env, log).0.events)
    decreases env.cloudOutage(log.cloudPings)
  {
    var p := Ping(env, log, Cloud);
    var o := p.1;
    if o.PingRaised? && o.error.ConnectionError? {
      var log1 := Sleep(p.0, RETRY_SECONDS);
      AwaitCloudCounters(env, log1);
      var l := AwaitCloud(env, log1).0;
      assert AwaitCloud(env, log) == AwaitCloud(env, log1);
      RetryPrefix(log, log1, l, o);
      assert |NewEvents(log, l)| == |NewEvents(log1, l)| + 2;
    } else {
      assert NewEvents(log, p.0) == [Pinged(Cloud, o)];
    }
  }

  /** A failed ping and its wait, recorded in front of the rest of a retry run. */
  lemma RetryPrefix(log: Log, log1: Log, l: Log, o: PingOutcome)
    requires log1.events == log.events + [Pinged(Cloud, o), Slept(RETRY_SECONDS)] && Extends(log1, l)
    ensures Extends(log, l) && NewEvents(log, l) == [Pinged(Cloud, o), Slept(RETRY_SECONDS)] + NewEvents(log1, l)
  {
    var w1 := NewEvents(log1, l);
    assert l.events == log1.events + w1;
    assert l.events == log.events + ([Pinged(Cloud, o), Slept(RETRY_SECONDS)] + w1);
  }

  /** The pings of a retry run take the scripted outcomes of consecutive cloud pings. */
  lemma {:induction false} AwaitCloudPings(env: Environment, log: Log)
    requires EventuallyReachable(env)
    ensures PingsFrom(NewEvents(log, AwaitCloud(env, log).0), env.cloudPing, log.cloudPings)
    decreases env.cloudOutage(log.cloudPings)
  {
    var p := Ping(env, log, Cloud);
    var o := p.1;
    if o.PingRaised? && o.error.ConnectionError? {
      var log1 := Sleep(p.0, RETRY_SECONDS);
      AwaitCloudExtends(env, log1);
      AwaitCloudPings(env, log1);
      var l := AwaitCloud(env, log1).0;
      assert AwaitCloud(env, log) == AwaitCloud(env, log1);
      var w1 := NewEvents(log1, l);
      RetryPrefix(log, log1, l, o);
      assert log1.cloudPings == log.cloudPings + 1;
      PingsShift(env.cloudPing, log.cloudPings, log1.cloudPings, w1, NewEvents(log, l));
    } else {
      assert NewEvents(log, p.0) == [Pinged(Cloud, o)];
    }
  }

  /** A retry run only adds events to the trace. */
  lemma {:induction false} AwaitCloudExtends(env: Environment, log: Log)
    requires EventuallyReachable(env)
    ensures Extends(log, AwaitCloud(env, log).0)
    decreases env.cloudOutage(log.cloudPings)
  {
    var p := Ping(env, log, Cloud);
    if p.1.PingRaised? && p.1.error.ConnectionError? {
      AwaitCloudExtends(env, Sleep(p.0, RETRY_SECONDS));
    }
  }

  /** The events at even positions of `w` are pings with outcomes `pings(base)`, `pings(base + 1)`, ... */
  ghost predicate PingsFrom(w: seq<Event>, pings: nat -> PingOutcome, base: nat)
  {
    forall j :: 0 <= j < |w| && j % 2 == 0 ==> w[j].Pinged? && w[j].ping == pings(base + j / 2)
  }

  lemma PingsShift(pings: nat -> PingOutcome, base: nat, next: nat, w1: seq<Event>, w: seq<Event>)
    requires next == base + 1
    requires w == [Pinged(Cloud, pings(base)), Slept(RETRY_SECONDS)] + w1
    requires PingsFrom(w1, pings, next)
    ensures PingsFrom(w, pings, base)
  {
    forall j | 0 <= j < |w| && j % 2 == 0
      ensures w[j].Pinged? && w[j].ping == pings(base + j / 2)
    {
      if j >= 2 {
        assert w[j] == w1[j - 2];
        assert next + (j - 2) / 2 == base + j / 2;
      }
    }
  }

  /** A failed ping and a wait in front of a retry run make a retry run. */
  lemma RetryStep(o: PingOutcome, w1: seq<Event>, w: seq<Event>)
    requires Unreachable(o) && RetryTrace(w1)
    requires w == [Pinged(Cloud, o), Slept(RETRY_SECONDS)] + w1
    ensures RetryTrace(w)
  {
    forall j | 0 <= j < |w|
      ensures if j % 2 == 0 then w[j].Pinged? && w[j].store == Cloud && (Unreachable(w[j].ping) <==> j < |w| - 1)
              else w[j] == Slept(RETRY_SECONDS)
    {
      if j >= 2 {
        assert w[j] == w1[j - 2];
        assert (j - 2) % 2 == j % 2;
      }
    }
  }

  /** Only pings and 30-second waits. */
  ghost predicate PingsAndWaits(w: seq<Event>)
  {
    forall j :: 0 <= j < |w| ==> w[j].Pinged? || w[j] == Slept(RETRY_SECONDS)
  }

  /** A retry run makes no writes, no queries and closes nothing. */
  lemma RetryTraceQuiet(w: seq<Event>)
    requires RetryTrace(w)
    ensures PingsAndWaits(w)
  {
    forall j | 0 <= j < |w| ensures w[j].Pinged? || w[j] == Slept(RETRY_SECONDS) {
      if j % 2 != 0 {
        assert w[j] == Slept(RETRY_SECONDS);
      }
    }
  }

  /**
    Waiting for the cloud takes no step of the source loop, writes nothing,
    leaves the write counters alone and, when it returns, returns True.
   */
  lemma AwaitCloudQuiet(env: Environment, log: Log, parse: string -> Option<real>)
    requires EventuallyReachable(env)
    ensures Extends(log, AwaitCloud(env, log).0)
    ensures PingsAndWaits(NewEvents(log, AwaitCloud(env, log).0))
    ensures Steps(NewEvents(log, AwaitCloud(env, log).0)) == []
    ensures LocalWritesConfirmed(NewEvents(log, AwaitCloud(env, log).0), parse)
    ensures NoLocalWrite(NewEvents(log, AwaitCloud(env, log).0))
    ensures AwaitCloud(env, log).0.localWrites == log.localWrites
    ensures AwaitCloud(env, log).0.cloudWrites == log.cloudWrites
    ensures AwaitCloud(env, log).1.Ok? ==> AwaitCloud(env, log).1.value
  {
    AwaitCloudSpec(env, log);
    var w := NewEvents(log, AwaitCloud(env, log).0);
    RetryTraceQuiet(w);
    PingsAndWaitsQuiet(w, parse);
  }

  lemma PingsAndWaitsQuiet(w: seq<Event>, parse: string -> Option<real>)
    requires PingsAndWaits(w)
    ensures Steps(w) == [] && LocalWritesConfirmed(w, parse) && NoLocalWrite(w)
  {
    forall j | 0 <= j < |w| ensures StepOf(w[j]) == [] && !w[j].Wrote? {
      assert w[j].Pinged? || w[j] == Slept(RETRY_SECONDS);
    }
    StepsNone(w);
  }

  // ----- traces -----

  /** The events from `before` to `after` are those from `before` to `mid` and then those from `mid` to `after`. */
  lemma NewEventsChain(before: Log, mid: Log, after: Log)
    requires Extends(before, mid) && Extends(mid, after)
    ensures Extends(before, after)
    ensures NewEvents(before, after) == NewEvents(before, mid) + NewEvents(mid, after)
  {
    assert after.events == mid.events + NewEvents(mid, after);
    assert mid.events == before.events + NewEvents(before, mid);
    assert after.events == before.events + (NewEvents(before, mid) + NewEvents(mid, after));
  }

  /** A remote write that returned truthy followed by the local write of exactly the batch it marked. */
  ghost predicate Confirms(cloud: Event, local: Event, parse: string -> Option<real>)
  {
    cloud.Wrote? && cloud.store == Cloud && cloud.write == Returned(true) &&
    local.Wrote? && MarkAll(cloud.points, parse) == (local.points, None)
  }

  /**
    The ordering rule of upload_data: every local write comes right after a
    remote write that returned truthy, and writes the batch that write sent,
    fully marked.
   */
  ghost predicate LocalWritesConfirmed(w: seq<Event>, parse: string -> Option<real>)
  {
    forall j :: 0 <= j < |w| && w[j].Wrote? && w[j].store == Local ==> 0 < j && Confirms(w[j - 1], w[j], parse)
  }

  /** The events contain no local write. */
  ghost predicate NoLocalWrite(w: seq<Event>)
  {
    forall j :: 0 <= j < |w| ==> !(w[j].Wrote? && w[j].store == Local)
  }

  /** The last two events of `log` close `first`, then `second`. */
  predicate ClosedLast(log: Log, first: Store, second: Store)
  {
    |log.events| >= 2 && log.events[|log.events| - 2] == Closed(first) && log.events[|log.events| - 1] == Closed(second)
  }

  lemma ConfirmedAppend(w1: seq<Event>, w2: seq<Event>, parse: string -> Option<real>)
    requires LocalWritesConfirmed(w1, parse) && LocalWritesConfirmed(w2, parse)
    ensures LocalWritesConfirmed(w1 + w2, parse)
  {
    var w := w1 + w2;
    forall j | 0 <= j < |w| && w[j].Wrote? && w[j].store == Local
      ensures 0 < j && Confirms(w[j - 1], w[j], parse)
    {
      if j >= |w1| {
        assert w[j] == w2[j - |w1|];
        assert w[j - 1] == w2[j - 1 - |w1|];
      } else {
        assert w[j] == w1[j];
        assert w[j - 1] == w1[j - 1];
      }
    }
  }

  /** What the source loop does per source that shows in the trace: its query and its wait. */
  datatype Step = Visit(query: string) | Pause

  function StepOf(e: Event): seq<Step>
  {
    match e
    case Queried(text, _) => [Visit(text)]
    case Slept(seconds) => if seconds == PACE_SECONDS then [Pause] else []
    case _ => []
  }

  /** The loop steps of a trace, in order. */
  function Steps(w: seq<Event>): seq<Step>
  {
    if |w| == 0 then [] else StepOf(w[0]) + Steps(w[1..])
  }

  lemma {:induction false} StepsAppend(w1: seq<Event>, w2: seq<Event>)
    ensures Steps(w1 + w2) == Steps(w1) + Steps(w2)
  {
    if |w1| > 0 {
      assert (w1 + w2)[1..] == w1[1..] + w2;
      StepsAppend(w1[1..], w2);
    } else {
      assert w1 + w2 == w2;
    }
  }

  /** Events that are no loop steps leave the steps of a trace as they were. */
  lemma QuietTail(w: seq<Event>, tail: seq<Event>)
    requires forall j :: 0 <= j < |tail| ==> StepOf(tail[j]) == []
    ensures Steps(w + tail) == Steps(w)
  {
    StepsNone(tail);
    StepsAppend(w, tail);
  }

  lemma {:induction false} StepsNone(w: seq<Event>)
    requires forall j :: 0 <= j < |w| ==> StepOf(w[j]) == []
    ensures Steps(w) == []
  {
    if |w| > 0 {
      assert forall j :: 0 <= j < |w| - 1 ==> w[1..][j] == w[j + 1];
      StepsNone(w[1..]);
    }
  }

  // ----- upload_data (uploader/uploader.py:45-63) -----

  /**
    `upload_data(batch)`: the new log, the batch as the in-place marking left
    it, and the exception that escaped, if any.
   */
  function Upload(env: Environment, log: Log, batch: seq<Point>): (Log, seq<Point>, Result<(), Error>)
    requires EventuallyReachable(env)
  {
    var a := AwaitCloud(env, log);
    if a.1.Err? then (a.0, batch, Err(a.1.error))
    else if !a.1.value then (a.0, batch, Ok(()))
    else
      var c := Write(env, a.0, Cloud, batch);
      match c.1
      case WriteRaised(e) => (CloseBoth(c.0, Cloud, Local), batch, Err(e))
      case Returned(truthy) =>
        if !truthy then (c.0, batch, Ok(()))
        else
          var m := MarkAll(batch, env.parseFloat);
          if m.1.Some? then (CloseBoth(c.0, Cloud, Local), m.0, Err(m.1.value))
          else
            var l := Write(env, c.0, Local, m.0);
            match l.1
            case WriteRaised(e) => (CloseBoth(l.0, Cloud, Local), m.0, Err(e))
            case Returned(_) => (l.0, m.0, Ok(()))
  }

  /** The outcome of the remote write `upload_data` issues once the cloud answered. */
  function RemoteWrite(env: Environment, log: Log, batch: seq<Point>): WriteOutcome
    requires EventuallyReachable(env)
  {
    env.cloudWrite(AwaitCloud(env, log).0.cloudWrites, batch)
  }

  /**
    Whatever happens, upload_data only adds to the trace and writes locally
    only what a truthy remote write sent, marked.
   */
  lemma UploadOrder(env: Environment, log: Log, batch: seq<Point>)
    requires EventuallyReachable(env)
    ensures Extends(log, Upload(env, log, batch).0)
    ensures LocalWritesConfirmed(NewEvents(log, Upload(env, log, batch).0), env.parseFloat)
    ensures Steps(NewEvents(log, Upload(env, log, batch).0)) == []
  {
    var a := AwaitCloud(env, log);
    AwaitCloudQuiet(env, log, env.parseFloat);
    if a.1.Ok? && a.1.value {
      var c := Write(env, a.0, Cloud, batch);
      WriteKeepsOrder(env, log, a.0, batch, env.parseFloat);
      if c.1.WriteRaised? || (c.1.Returned? && c.1.truthy && MarkAll(batch, env.parseFloat).1.Some?) {
        CloseKeepsOrder(log, c.0, Cloud, Local, env.parseFloat);
      } else if c.1.truthy {
        var m := MarkAll(batch, env.parseFloat);
        var l := Write(env, c.0, Local, m.0);
        LocalWriteKeepsOrder(env, log, c.0, batch, m.0, env.parseFloat);
        if l.1.WriteRaised? {
          CloseKeepsOrder(log, l.0, Cloud, Local, env.parseFloat);
        }
      }
    }
  }

  /** A remote write keeps the rule. */
  lemma WriteKeepsOrder(env: Environment, log: Log, mid: Log, points: seq<Point>, parse: string -> Option<real>)
    requires Extends(log, mid) && LocalWritesConfirmed(NewEvents(log, mid), parse)
    ensures Extends(log, Write(env, mid, Cloud, points).0)
    ensures NewEvents(log, Write(env, mid, Cloud, points).0) ==
      NewEvents(log, mid) + [Wrote(Cloud, points, Write(env, mid, Cloud, points).1)]
    ensures LocalWritesConfirmed(NewEvents(log, Write(env, mid, Cloud, points).0), parse)
    ensures Steps(NewEvents(log, Write(env, mid, Cloud, points).0)) == Steps(NewEvents(log, mid))
  {
    var c := Write(env, mid, Cloud, points);
    var tail := [Wrote(Cloud, points, c.1)];
    assert c.0.events == mid.events + tail;
    AppendKeepsOrder(log, mid, c.0, tail, parse);
  }

  /** Events without loop steps or local writes, appended to a trace, keep the rule and the steps. */
  lemma AppendKeepsOrder(log: Log, mid: Log, after: Log, tail: seq<Event>, parse: string -> Option<real>)
    requires Extends(log, mid) && LocalWritesConfirmed(NewEvents(log, mid), parse)
    requires after.events == mid.events + tail
    requires forall j :: 0 <= j < |tail| ==> StepOf(tail[j]) == [] && !(tail[j].Wrote? && tail[j].store == Local)
    ensures Extends(log, after) && NewEvents(log, after) == NewEvents(log, mid) + tail
    ensures LocalWritesConfirmed(NewEvents(log, after), parse)
    ensures Steps(NewEvents(log, after)) == Steps(NewEvents(log, mid))
  {
    Append(log, mid, after, tail);
    ConfirmedAppend(NewEvents(log, mid), tail, parse);
    QuietTail(NewEvents(log, mid), tail);
  }

  /** The local write of a batch the last remote write sent truthily, fully marked, keeps the rule. */
  lemma LocalWriteKeepsOrder(env: Environment, log: Log, mid: Log, sent: seq<Point>, marked: seq<Point>,
                             parse: string -> Option<real>)
    requires Extends(log, mid) && LocalWritesConfirmed(NewEvents(log, mid), parse)
    requires |NewEvents(log, mid)| > 0 && NewEvents(log, mid)[|NewEvents(log, mid)| - 1] == Wrote(Cloud, sent, Returned(true))
    requires MarkAll(sent, parse) == (marked, None)
    ensures Extends(log, Write(env, mid, Local, marked).0)
    ensures LocalWritesConfirmed(NewEvents(log, Write(env, mid, Local, marked).0), parse)
    ensures NewEvents(log, Write(env, mid, Local, marked).0) ==
      NewEvents(log, mid) + [Wrote(Local, marked, Write(env, mid, Local, marked).1)]
    ensures Steps(NewEvents(log, Write(env, mid, Local, marked).0)) == Steps(NewEvents(log, mid))
  {
    var w := NewEvents(log, mid);
    var l := Write(env, mid, Local, marked);
    Append(log, mid, l.0, [Wrote(Local, marked, l.1)]);
    var wl := NewEvents(log, l.0);
    QuietTail(w, [Wrote(Local, marked, l.1)]);
    forall j | 0 <= j < |wl| && wl[j].Wrote? && wl[j].store == Local
      ensures 0 < j && Confirms(wl[j - 1], wl[j], parse)
    {
      if j < |w| {
        assert wl[j] == w[j] && wl[j - 1] == w[j - 1];
      } else {
        assert wl[j - 1] == w[|w| - 1];
      }
    }
  }

  /** Closing both clients keeps the rule and leaves the two closes last. */
  lemma CloseKeepsOrder(log: Log, mid: Log, first: Store, second: Store, parse: string -> Option<real>)
    requires Extends(log, mid) && LocalWritesConfirmed(NewEvents(log, mid), parse)
    ensures Extends(log, CloseBoth(mid, first, second))
    ensures LocalWritesConfirmed(NewEvents(log, CloseBoth(mid, first, second)), parse)
    ensures ClosedLast(CloseBoth(mid, first, second), first, second)
    ensures NewEvents(log, CloseBoth(mid, first, second)) == NewEvents(log, mid) + [Closed(first), Closed(second)]
    ensures Steps(NewEvents(log, CloseBoth(mid, first, second))) == Steps(NewEvents(log, mid))
  {
    var l := CloseBoth(mid, first, second);
    var tail := [Closed(first), Closed(second)];
    Append(log, mid, l, tail);
    ClosesConfirmed(first, second, parse);
    ConfirmedAppend(NewEvents(log, mid), tail, parse);
    CloseKeepsSteps(NewEvents(log, mid), NewEvents(log, l), first, second);
  }

  /** Events appended to a log that continues `log` are new events after those already counted. */
  lemma Append(log: Log, mid: Log, after: Log, tail: seq<Event>)
    requires Extends(log, mid) && after.events == mid.events + tail
    ensures Extends(log, after)
    ensures NewEvents(log, after) == NewEvents(log, mid) + tail
  {
    assert mid.events == log.events + NewEvents(log, mid);
    assert after.events == log.events + (NewEvents(log, mid) + tail);
  }

  lemma ClosesConfirmed(first: Store, second: Store, parse: string -> Option<real>)
    ensures LocalWritesConfirmed([Closed(first), Closed(second)], parse)
  {
    var tail := [Closed(first), Closed(second)];
    forall j | 0 <= j < |tail| ensures !tail[j].Wrote? { }
  }

  lemma CloseKeepsSteps(w: seq<Event>, wl: seq<Event>, first: Store, second: Store)
    requires wl == w + [Closed(first), Closed(second)]
    ensures Steps(wl) == Steps(w)
  {
    QuietTail(w, [Closed(first), Closed(second)]);
  }

  lemma NoLocalWriteAppend(w1: seq<Event>, w2: seq<Event>)
    requires NoLocalWrite(w1) && NoLocalWrite(w2)
    ensures NoLocalWrite(w1 + w2)
  {
    var w := w1 + w2;
    forall j | 0 <= j < |w| ensures !(w[j].Wrote? && w[j].store == Local) {
      if j < |w1| { assert w[j] == w1[j]; } else { assert w[j] == w2[j - |w1|]; }
    }
  }

  /** Waiting for the cloud writes nothing, leaves the write counters alone and succeeds only with True. */
  lemma AwaitCloudWritesNothing(env: Environment, log: Log)
    requires EventuallyReachable(env)
    ensures Extends(log, AwaitCloud(env, log).0)
    ensures NoLocalWrite(NewEvents(log, AwaitCloud(env, log).0))
    ensures AwaitCloud(env, log).0.localWrites == log.localWrites
    ensures AwaitCloud(env, log).0.cloudWrites == log.cloudWrites
    ensures AwaitCloud(env, log).1.Ok? ==> AwaitCloud(env, log).1.value
  {
    AwaitCloudQuiet(env, log, env.parseFloat);
  }

  /** Appending events that are no local writes keeps a trace free of local writes. */
  lemma NoLocalWriteKept(log: Log, mid: Log, after: Log, tail: seq<Event>)
    requires Extends(log, mid) && NoLocalWrite(NewEvents(log, mid))
    requires after.events == mid.events + tail
    requires forall j :: 0 <= j < |tail| ==> !tail[j].Wrote? || tail[j].store == Cloud
    ensures Extends(log, after) && NoLocalWrite(NewEvents(log, after))
  {
    Append(log, mid, after, tail);
    NoLocalWriteAppend(NewEvents(log, mid), tail);
  }

  /** When the cloud check fails, upload_data writes nothing and re-raises the ping's exception. */
  lemma UploadOffline(env: Environment, log: Log, batch: seq<Point>)
    requires EventuallyReachable(env) && AwaitCloud(env, log).1.Err?
    ensures Upload(env, log, batch).2 == Err(AwaitCloud(env, log).1.error)
    ensures Upload(env, log, batch).1 == batch
    ensures var w := NewEvents(log, Upload(env, log, batch).0);
      forall j :: 0 <= j < |w| ==> w[j].Pinged? || w[j].Slept?
  {
    AwaitCloudQuiet(env, log, env.parseFloat);
  }

  /** A falsy remote write: no local write, nothing marked, no exception. */
  lemma UploadRemoteFalsy(env: Environment, log: Log, batch: seq<Point>)
    requires EventuallyReachable(env) && AwaitCloud(env, log).1.Ok?
    requires RemoteWrite(env, log, batch) == Returned(false)
    ensures Upload(env, log, batch).1 == batch
    ensures Upload(env, log, batch).2 == Ok(())
    ensures NoLocalWrite(NewEvents(log, Upload(env, log, batch).0))
    ensures Wrote(Cloud, batch, Returned(false)) in NewEvents(log, Upload(env, log, batch).0)
  {
    var a := AwaitCloud(env, log);
    AwaitCloudWritesNothing(env, log);
    var c := Write(env, a.0, Cloud, batch);
    var e := Wrote(Cloud, batch, Returned(false));
    NoLocalWriteKept(log, a.0, c.0, [e]);
    Append(log, a.0, c.0, [e]);
    LastIn(NewEvents(log, a.0), e);
  }

  /** A raising remote write: both clients closed, the same exception re-raised, no local write, nothing marked. */
  lemma UploadRemoteRaised(env: Environment, log: Log, batch: seq<Point>)
    requires EventuallyReachable(env) && AwaitCloud(env, log).1.Ok?
    requires RemoteWrite(env, log, batch).WriteRaised?
    ensures Upload(env, log, batch).1 == batch
    ensures Upload(env, log, batch).2 == Err(RemoteWrite(env, log, batch).error)
    ensures NoLocalWrite(NewEvents(log, Upload(env, log, batch).0))
    ensures ClosedLast(Upload(env, log, batch).0, Cloud, Local)
  {
    var a := AwaitCloud(env, log);
    var o := RemoteWrite(env, log, batch);
    AwaitCloudWritesNothing(env, log);
    var c := Write(env, a.0, Cloud, batch);
    NoLocalWriteKept(log, a.0, c.0, [Wrote(Cloud, batch, o)]);
    NoLocalWriteKept(log, c.0, CloseBoth(c.0, Cloud, Local), [Closed(Cloud), Closed(Local)]);
  }

  /**
    A truthy remote write: the batch is marked in place, and a conversion
    error stops the marking, closes both clients and is re-raised before any
    local write.
   */
  lemma UploadMarkingFails(env: Environment, log: Log, batch: seq<Point>)
    requires EventuallyReachable(env) && AwaitCloud(env, log).1.Ok?
    requires RemoteWrite(env, log, batch) == Returned(true)
    requires MarkAll(batch, env.parseFloat).1.Some?
    ensures Upload(env, log, batch).1 == MarkAll(batch, env.parseFloat).0
    ensures Upload(env, log, batch).2 == Err(MarkAll(batch, env.parseFloat).1.value)
    ensures NoLocalWrite(NewEvents(log, Upload(env, log, batch).0))
    ensures ClosedLast(Upload(env, log, batch).0, Cloud, Local)
  {
    var a := AwaitCloud(env, log);
    AwaitCloudWritesNothing(env, log);
    var c := Write(env, a.0, Cloud, batch);
    NoLocalWriteKept(log, a.0, c.0, [Wrote(Cloud, batch, Returned(true))]);
    NoLocalWriteKept(log, c.0, CloseBoth(c.0, Cloud, Local), [Closed(Cloud), Closed(Local)]);
  }

  /**
    A truthy remote write and a batch that converts: the marked batch is
    written locally, and an exception from that write closes both clients
    and is re-raised.
   */
  lemma UploadMarked(env: Environment, log: Log, batch: seq<Point>)
    requires EventuallyReachable(env) && AwaitCloud(env, log).1.Ok?
    requires RemoteWrite(env, log, batch) == Returned(true)
    requires MarkAll(batch, env.parseFloat).1.None?
    ensures Upload(env, log, batch).1 == MarkAll(batch, env.parseFloat).0
    ensures var local := env.localWrite(log.localWrites, Upload(env, log, batch).1);
      Wrote(Local, Upload(env, log, batch).1, local) in NewEvents(log, Upload(env, log, batch).0) &&
      (Upload(env, log, batch).2.Ok? <==> local.Returned?) &&
      (local.WriteRaised? ==> Upload(env, log, batch).2 == Err(local.error) && ClosedLast(Upload(env, log, batch).0, Cloud, Local))
  {
    var a := AwaitCloud(env, log);
    AwaitCloudQuiet(env, log, env.parseFloat);
    var c := Write(env, a.0, Cloud, batch);
    WriteKeepsOrder(env, log, a.0, batch, env.parseFloat);
    var m := MarkAll(batch, env.parseFloat);
    var l := Write(env, c.0, Local, m.0);
    assert c.0.localWrites == log.localWrites;
    LocalWriteKeepsOrder(env, log, c.0, batch, m.0, env.parseFloat);
    assert NewEvents(log, l.0)[|NewEvents(log, l.0)| - 1] == Wrote(Local, m.0, l.1);
    if l.1.WriteRaised? {
      CloseKeepsOrder(log, l.0, Cloud, Local, env.parseFloat);
      assert NewEvents(log, CloseBoth(l.0, Cloud, Local))[|NewEvents(log, l.0)| - 1] == Wrote(Local, m.0, l.1);
    }
  }

  /** The batch is changed only after the remote write of that very batch returned truthy. */
  lemma UploadMarksAfterRemote(env: Environment, log: Log, batch: seq<Point>)
    requires EventuallyReachable(env)
    ensures Upload(env, log, batch).1 != batch ==>
      Wrote(Cloud, batch, Returned(true)) in NewEvents(log, Upload(env, log, batch).0)
  {
    var a := AwaitCloud(env, log);
    if a.1.Ok? && a.1.value && RemoteWrite(env, log, batch) == Returned(true) {
      AwaitCloudExtends(env, log);
      var c := Write(env, a.0, Cloud, batch);
      var e := Wrote(Cloud, batch, Returned(true));
      Append(log, a.0, c.0, [e]);
      LastIn(NewEvents(log, a.0), e);
      var m := MarkAll(batch, env.parseFloat);
      if m.1.Some? {
        KeptIn(log, c.0, CloseBoth(c.0, Cloud, Local), [Closed(Cloud), Closed(Local)], e);
      } else {
        var l := Write(env, c.0, Local, m.0);
        KeptIn(log, c.0, l.0, [Wrote(Local, m.0, l.1)], e);
        if l.1.WriteRaised? {
          KeptIn(log, l.0, CloseBoth(l.0, Cloud, Local), [Closed(Cloud), Closed(Local)], e);
        }
      }
    }
  }

  /** Once the cloud answered, upload_data sends the batch it was given to the cloud. */
  lemma UploadSends(env: Environment, log: Log, batch: seq<Point>)
    requires EventuallyReachable(env)
    ensures Extends(log, Upload(env, log, batch).0)
    ensures AwaitCloud(env, log).1.Ok? ==>
      Wrote(Cloud, batch, RemoteWrite(env, log, batch)) in NewEvents(log, Upload(env, log, batch).0)
  {
    var a := AwaitCloud(env, log);
    AwaitCloudWritesNothing(env, log);
    if a.1.Ok? {
      var c := Write(env, a.0, Cloud, batch);
      var e := Wrote(Cloud, batch, c.1);
      Append(log, a.0, c.0, [e]);
      LastIn(NewEvents(log, a.0), e);
      if c.1 == Returned(true) {
        var m := MarkAll(batch, env.parseFloat);
        if m.1.Some? {
          KeptIn(log, c.0, CloseBoth(c.0, Cloud, Local), [Closed(Cloud), Closed(Local)], e);
        } else {
          var l := Write(env, c.0, Local, m.0);
          KeptIn(log, c.0, l.0, [Wrote(Local, m.0, l.1)], e);
          if l.1.WriteRaised? {
            KeptIn(log, l.0, CloseBoth(l.0, Cloud, Local), [Closed(Cloud), Closed(Local)], e);
          }
        }
      } else if c.1.WriteRaised? {
        KeptIn(log, c.0, CloseBoth(c.0, Cloud, Local), [Closed(Cloud), Closed(Local)], e);
      }
    }
  }

  lemma LastIn(w: seq<Event>, e: Event)
    ensures e in w + [e]
  {
    assert (w + [e])[|w|] == e;
  }

  /** An event already in the trace stays there when more events are appended. */
  lemma KeptIn(log: Log, mid: Log, after: Log, tail: seq<Event>, e: Event)
    requires Extends(log, mid) && after.events == mid.events + tail && e in NewEvents(log, mid)
    ensures Extends(log, after) && e in NewEvents(log, after)
  {
    Append(log, mid, after, tail);
    var i :| 0 <= i < |NewEvents(log, mid)| && NewEvents(log, mid)[i] == e;
    assert NewEvents(log, after)[i] == e;
  }

  // ----- get_points (uploader/uploader.py:66-111) -----

  const TAGS := "tags"

  /**
    `get_points(section)`: query the local store, build the batch from the
    first series and upload it. A section without a tag map raises KeyError
    at line 74; a client error from the query closes both clients and is
    re-raised; an empty result does nothing more.
   */
  function Fetch(env: Environment, log: Log, section: Section): (Log, Result<(), Error>)
    requires EventuallyReachable(env)
  {
    match section
    case Untagged => (log, Err(KeyError(TAGS)))
    case Stream(src) =>
      var q := Query(env, log, SelectQuery(src));
      match q.1
      case QueryRaised(e) =>
        if e.ClientError? then (CloseBoth(q.0, Local, Cloud), Err(e)) else (q.0, Err(e))
      case ResultSet(series) =>
        if |series| == 0 then (q.0, Ok(()))
        else
          match ToBatch(src, series[0])
          case Err(e) => (q.0, Err(e))
          case Ok(batch) =>
            var u := Upload(env, q.0, batch);
            (u.0, u.2)
  }

  /** The outcome of the query `get_points` sends for `src`. */
  function QueryResult(env: Environment, log: Log, src: Source): QueryOutcome
  {
    env.localQuery(log.queries, SelectQuery(src))
  }

  /** An empty result: one query, then nothing: no batch, no upload, no exception. */
  lemma FetchEmpty(env: Environment, log: Log, src: Source)
    requires EventuallyReachable(env)
    requires QueryResult(env, log, src) == ResultSet([])
    ensures Fetch(env, log, Stream(src)).1 == Ok(())
    ensures Extends(log, Fetch(env, log, Stream(src)).0)
    ensures NewEvents(log, Fetch(env, log, Stream(src)).0) == [Queried(SelectQuery(src), ResultSet([]))]
  {
    assert NewEvents(log, Fetch(env, log, Stream(src)).0) == [Queried(SelectQuery(src), ResultSet([]))];
  }

  /**
    A non-empty result whose first series has a `time` in every row: the
    query comes first, the batch holds one point of the source per row, and
    once the cloud answers that very batch is sent to it; the exception of
    the upload, if any, is the one get_points raises.
   */
  lemma FetchUploads(env: Environment, log: Log, src: Source)
    requires EventuallyReachable(env)
    requires QueryResult(env, log, src).ResultSet? && |QueryResult(env, log, src).series| > 0
    requires ToBatch(src, QueryResult(env, log, src).series[0]).Ok?
    ensures var rows := QueryResult(env, log, src).series[0];
      var batch := ToBatch(src, rows).value;
      |batch| == |rows| &&
      forall i :: 0 <= i < |batch| ==>
        batch[i].measurement == src.measurement && batch[i].tags == src.tags && Get(rows[i], TIME) == Some(batch[i].time)
    ensures var w := NewEvents(log, Fetch(env, log, Stream(src)).0);
      |w| > 0 && w[0] == Queried(SelectQuery(src), QueryResult(env, log, src))
    ensures var q := Query(env, log, SelectQuery(src)).0;
      var batch := ToBatch(src, QueryResult(env, log, src).series[0]).value;
      Fetch(env, log, Stream(src)).1 == Upload(env, q, batch).2 &&
      (AwaitCloud(env, q).1.Ok? ==>
        Wrote(Cloud, batch, RemoteWrite(env, q, batch)) in NewEvents(log, Fetch(env, log, Stream(src)).0))
  {
    var q := Query(env, log, SelectQuery(src));
    var rows := q.1.series[0];
    var batch := ToBatch(src, rows).value;
    forall i | 0 <= i < |batch|
      ensures batch[i].measurement == src.measurement && batch[i].tags == src.tags && Get(rows[i], TIME) == Some(batch[i].time)
    {
      assert ToPoint(src, rows[i]) == Ok(batch[i]);
    }
    var e0 := Queried(SelectQuery(src), q.1);
    Append(log, log, q.0, [e0]);
    var u := Upload(env, q.0, batch);
    assert Fetch(env, log, Stream(src)).0 == u.0;
    UploadSends(env, q.0, batch);
    Append(log, q.0, u.0, NewEvents(q.0, u.0));
    if AwaitCloud(env, q.0).1.Ok? {
      InTail([e0], NewEvents(q.0, u.0), Wrote(Cloud, batch, RemoteWrite(env, q.0, batch)));
    }
  }

  lemma InTail(w: seq<Event>, tail: seq<Event>, e: Event)
    requires e in tail
    ensures e in w + tail
  {
    var i :| 0 <= i < |tail| && tail[i] == e;
    assert (w + tail)[|w| + i] == e;
  }

  /** A row without `time`: KeyError after the query, and nothing uploaded. */
  lemma FetchMissingTime(env: Environment, log: Log, src: Source)
    requires EventuallyReachable(env)
    requires QueryResult(env, log, src).ResultSet? && |QueryResult(env, log, src).series| > 0
    requires exists i :: 0 <= i < |QueryResult(env, log, src).series[0]| && !HasKey(QueryResult(env, log, src).series[0][i], TIME)
    ensures Fetch(env, log, Stream(src)).1 == Err(KeyError(TIME))
    ensures NewEvents(log, Fetch(env, log, Stream(src)).0) == [Queried(SelectQuery(src), QueryResult(env, log, src))]
  {
    assert NewEvents(log, Fetch(env, log, Stream(src)).0) == [Queried(SelectQuery(src), QueryResult(env, log, src))];
  }

  /**
    A query that raises: the same exception propagates; only an
    InfluxDBClientError closes both clients (local first) at this point.
   */
  lemma FetchQueryRaised(env: Environment, log: Log, src: Source)
    requires EventuallyReachable(env)
    requires QueryResult(env, log, src).QueryRaised?
    ensures Fetch(env, log, Stream(src)).1 == Err(QueryResult(env, log, src).error)
    ensures var w := NewEvents(log, Fetch(env, log, Stream(src)).0);
      if QueryResult(env, log, src).error.ClientError?
      then w == [Queried(SelectQuery(src), QueryResult(env, log, src)), Closed(Local), Closed(Cloud)]
      else w == [Queried(SelectQuery(src), QueryResult(env, log, src))]
  {
    var w := NewEvents(log, Fetch(env, log, Stream(src)).0);
    if QueryResult(env, log, src).error.ClientError? {
      assert w == [Queried(SelectQuery(src), QueryResult(env, log, src)), Closed(Local), Closed(Cloud)];
    } else {
      assert w == [Queried(SelectQuery(src), QueryResult(env, log, src))];
    }
  }

  /**
    get_points issues exactly the query of its source (none for a section
    without tags), keeps the ordering rule of upload_data, and only adds to the
    trace.
   */
  lemma FetchOrder(env: Environment, log: Log, section: Section)
    requires EventuallyReachable(env)
    ensures Extends(log, Fetch(env, log, section).0)
    ensures LocalWritesConfirmed(NewEvents(log, Fetch(env, log, section).0), env.parseFloat)
    ensures Steps(NewEvents(log, Fetch(env, log, section).0)) ==
      if section.Stream? then [Visit(SelectQuery(section.source))] else []
    ensures section.Untagged? ==> Fetch(env, log, section) == (log, Err(KeyError(TAGS)))
  {
    if section.Stream? {
      var src := section.source;
      var q := Query(env, log, SelectQuery(src));
      var e := Queried(SelectQuery(src), q.1);
      assert NewEvents(log, q.0) == [e];
      assert Steps([e]) == [Visit(SelectQuery(src))];
      assert LocalWritesConfirmed([e], env.parseFloat);
      var f := Fetch(env, log, section).0;
      if q.1.QueryRaised? && q.1.error.ClientError? {
        CloseKeepsOrder(log, q.0, Local, Cloud, env.parseFloat);
      } else if q.1.ResultSet? && |q.1.series| > 0 && ToBatch(src, q.1.series[0]).Ok? {
        var batch := ToBatch(src, q.1.series[0]).value;
        UploadOrder(env, q.0, batch);
        NewEventsChain(log, q.0, f);
        ConfirmedAppend([e], NewEvents(q.0, f), env.parseFloat);
        StepsAppend([e], NewEvents(q.0, f));
      }
    } else {
      assert NewEvents(log, log) == [];
    }
  }

  // ----- the source loop of main (uploader/uploader.py:160-169) -----

  /**
    One pass of the `for config in CONF.keys()` loop over `conf`: every key
    but `local` and `cloud` is fetched in order, with a 5-second wait after
    each; the first exception closes both clients (local first) and ends the
    pass with that exception.
   */
  function Pass(env: Environment, log: Log, conf: Conf): (Log, Result<(), Error>)
    requires EventuallyReachable(env)
    decreases |conf|
  {
    if |conf| == 0 then (log, Ok(()))
    else if Reserved(conf[0].0) then Pass(env, log, conf[1..])
    else
      var f := Fetch(env, log, conf[0].1);
      if f.1.Err? then (CloseBoth(f.0, Local, Cloud), f.1)
      else Pass(env, Sleep(f.0, PACE_SECONDS), conf[1..])
  }

  /** The steps the pass takes for one section: a stream's query, then a wait. */
  function Planned(section: Section): seq<Step>
  {
    if section.Stream? then [Visit(SelectQuery(section.source)), Pause] else []
  }

  /** The steps a complete pass over `sections` takes. */
  function Plan(sections: Conf): seq<Step>
  {
    if |sections| == 0 then [] else Planned(sections[0].1) + Plan(sections[1..])
  }

  /**
    A pass keeps the ordering rule of upload_data. A pass that ends without
    exception visits exactly the stream sections, in key order, each as one
    query followed by one 5-second wait; one that ends with an exception has
    taken a prefix of those steps and closed both clients last.
   */
  lemma {:induction false} PassSpec(env: Environment, log: Log, conf: Conf)
    requires EventuallyReachable(env)
    ensures Extends(log, Pass(env, log, conf).0)
    ensures LocalWritesConfirmed(NewEvents(log, Pass(env, log, conf).0), env.parseFloat)
    ensures Pass(env, log, conf).1.Ok? ==> Steps(NewEvents(log, Pass(env, log, conf).0)) == Plan(StreamSections(conf))
    ensures Pass(env, log, conf).1.Err? ==>
      Steps(NewEvents(log, Pass(env, log, conf).0)) <= Plan(StreamSections(conf)) &&
      ClosedLast(Pass(env, log, conf).0, Local, Cloud)
    ensures Pass(env, log, conf).1.Err? ==> PassRaised(env, log, conf)
    decreases |conf|
  {
    PassRaises(env, log, conf);
    if |conf| == 0 {
      assert NewEvents(log, log) == [];
    } else if Reserved(conf[0].0) {
      PassSpec(env, log, conf[1..]);
    } else {
      var section := conf[0].1;
      var f := Fetch(env, log, section);
      var rest := Plan(StreamSections(conf[1..]));
      FetchOrder(env, log, section);
      PlanCons(conf);
      if f.1.Err? {
        PlannedHead(section);
        ClosePrefix(log, f.0, Planned(section), rest, env.parseFloat);
      } else {
        var z := Sleep(f.0, PACE_SECONDS);
        SleepPlanned(log, f.0, section, env.parseFloat);
        PassSpec(env, z, conf[1..]);
        var p := Pass(env, z, conf[1..]);
        PassCompose(log, z, p.0, p.1.Ok?, Planned(section), rest, env.parseFloat);
      }
    }
  }

  /**
    A failed pass failed in a visit: some non-reserved section, fetched from
    some log, raised exactly the pass's exception, and the pass ended by
    closing both clients right after that fetch.
   */
  ghost predicate PassRaised(env: Environment, log: Log, conf: Conf)
    requires EventuallyReachable(env)
  {
    exists i: nat, mid: Log :: i < |conf| && !Reserved(conf[i].0) &&
      Fetch(env, mid, conf[i].1).1 == Pass(env, log, conf).1 &&
      Pass(env, log, conf).0 == CloseBoth(Fetch(env, mid, conf[i].1).0, Local, Cloud)
  }

  /** Nothing but a visit's exception fails a pass, and the pass re-raises it unchanged. */
  lemma {:induction false} PassRaises(env: Environment, log: Log, conf: Conf)
    requires EventuallyReachable(env)
    ensures Pass(env, log, conf).1.Err? ==> PassRaised(env, log, conf)
    decreases |conf|
  {
    if |conf| > 0 && Pass(env, log, conf).1.Err? {
      var f := Fetch(env, log, conf[0].1);
      if !Reserved(conf[0].0) && f.1.Err? {
        assert Fetch(env, log, conf[0].1).1 == Pass(env, log, conf).1;
      } else {
        var next := if Reserved(conf[0].0) then log else Sleep(f.0, PACE_SECONDS);
        assert Pass(env, log, conf) == Pass(env, next, conf[1..]);
        PassRaises(env, next, conf[1..]);
        var i: nat, mid: Log :| i < |conf[1..]| && !Reserved(conf[1..][i].0) &&
          Fetch(env, mid, conf[1..][i].1).1 == Pass(env, next, conf[1..]).1 &&
          Pass(env, next, conf[1..]).0 == CloseBoth(Fetch(env, mid, conf[1..][i].1).0, Local, Cloud);
        assert conf[1..][i] == conf[i + 1];
        assert Fetch(env, mid, conf[i + 1].1).1 == Pass(env, log, conf).1;
      }
    }
  }

  lemma PlanCons(conf: Conf)
    requires |conf| > 0 && !Reserved(conf[0].0)
    ensures Plan(StreamSections(conf)) == Planned(conf[0].1) + Plan(StreamSections(conf[1..]))
  {
    assert StreamSections(conf) == [conf[0]] + StreamSections(conf[1..]);
    assert StreamSections(conf)[1..] == StreamSections(conf[1..]);
  }

  /** The steps a visit took before it raised: nothing, or the query of a stream. */
  ghost predicate Visited(log: Log, mid: Log, section: Section, parse: string -> Option<real>)
  {
    Extends(log, mid) && LocalWritesConfirmed(NewEvents(log, mid), parse) &&
    Steps(NewEvents(log, mid)) == if section.Stream? then [Visit(SelectQuery(section.source))] else []
  }

  /** A source that raised: its steps so far are a prefix of its plan, and both clients are closed last. */
  lemma ClosePrefix(log: Log, mid: Log, first: seq<Step>, rest: seq<Step>, parse: string -> Option<real>)
    requires Extends(log, mid) && LocalWritesConfirmed(NewEvents(log, mid), parse)
    requires Steps(NewEvents(log, mid)) == [] || (|first| == 2 && Steps(NewEvents(log, mid)) == first[..1])
    ensures var l := CloseBoth(mid, Local, Cloud);
      Extends(log, l) && LocalWritesConfirmed(NewEvents(log, l), parse) &&
      Steps(NewEvents(log, l)) <= first + rest && ClosedLast(l, Local, Cloud)
  {
    CloseKeepsOrder(log, mid, Local, Cloud, parse);
    PrefixOfPlan(Steps(NewEvents(log, mid)), first, rest);
  }

  /** A stream's plan starts with its query. */
  lemma PlannedHead(section: Section)
    ensures section.Stream? ==>
      |Planned(section)| == 2 && Planned(section)[..1] == [Visit(SelectQuery(section.source))]
  {
  }

  /** A stream visited without exception, followed by the wait: exactly its planned steps. */
  lemma SleepPlanned(log: Log, mid: Log, section: Section, parse: string -> Option<real>)
    requires Visited(log, mid, section, parse) && section.Stream?
    ensures var z := Sleep(mid, PACE_SECONDS);
      Extends(log, z) && LocalWritesConfirmed(NewEvents(log, z), parse) && Steps(NewEvents(log, z)) == Planned(section)
  {
    SleepKeepsOrder(log, mid, parse);
  }

  /** The steps of a source visit that raised are a prefix of its planned steps, and so of the plan. */
  lemma PrefixOfPlan(taken: seq<Step>, first: seq<Step>, rest: seq<Step>)
    requires taken == [] || (|first| == 2 && taken == first[..1])
    ensures taken <= first + rest
  {
    if taken != [] {
      assert (first + rest)[..1] == first[..1];
    }
  }

  /** The trace of a visited source followed by the rest of the pass. */
  lemma PassCompose(log: Log, z: Log, p: Log, ok: bool, first: seq<Step>, rest: seq<Step>,
                    parse: string -> Option<real>)
    requires Extends(log, z) && LocalWritesConfirmed(NewEvents(log, z), parse) && Steps(NewEvents(log, z)) == first
    requires Extends(z, p) && LocalWritesConfirmed(NewEvents(z, p), parse)
    requires ok ==> Steps(NewEvents(z, p)) == rest
    requires !ok ==> Steps(NewEvents(z, p)) <= rest && ClosedLast(p, Local, Cloud)
    ensures Extends(log, p) && LocalWritesConfirmed(NewEvents(log, p), parse)
    ensures ok ==> Steps(NewEvents(log, p)) == first + rest
    ensures !ok ==> Steps(NewEvents(log, p)) <= first + rest
  {
    NewEventsChain(log, z, p);
    ConfirmedAppend(NewEvents(log, z), NewEvents(z, p), parse);
    StepsAppend(NewEvents(log, z), NewEvents(z, p));
  }

  /** The wait after a source keeps the ordering rule and adds one Pause step. */
  lemma SleepKeepsOrder(log: Log, mid: Log, parse: string -> Option<real>)
    requires Extends(log, mid) && LocalWritesConfirmed(NewEvents(log, mid), parse)
    ensures Extends(log, Sleep(mid, PACE_SECONDS))
    ensures LocalWritesConfirmed(NewEvents(log, Sleep(mid, PACE_SECONDS)), parse)
    ensures Steps(NewEvents(log, Sleep(mid, PACE_SECONDS))) == Steps(NewEvents(log, mid)) + [Pause]
  {
    var z := Sleep(mid, PACE_SECONDS);
    var tail := [Slept(PACE_SECONDS)];
    Append(log, mid, z, tail);
    assert LocalWritesConfirmed(tail, parse);
    ConfirmedAppend(NewEvents(log, mid), tail, parse);
    assert Steps(tail) == [Pause];
    StepsAppend(NewEvents(log, mid), tail);
  }

  // ----- start-up checks of main (uploader/uploader.py:148-158) -----

  /**
    Ping the local store once; a ConnectionError closes both clients (local
    first) and is re-raised, any other exception propagates; then wait for
    the cloud.
   */
  function Startup(env: Environment, log: Log): (Log, Result<bool, Error>)
    requires EventuallyReachable(env)
  {
    var p := Ping(env, log, Local);
    match p.1
    case PingRaised(e) =>
      if e.ConnectionError? then (CloseBoth(p.0, Local, Cloud), Err(e)) else (p.0, Err(e))
    case Version(_) => AwaitCloud(env, p.0)
  }

  /**
    The local store is pinged exactly once, first, and not retried; its
    ConnectionError is fatal before any cloud ping. Start-up succeeds only
    after the local ping answered and then a cloud ping answered.
   */
  lemma StartupSpec(env: Environment, log: Log)
    requires EventuallyReachable(env)
    ensures Extends(log, Startup(env, log).0)
    ensures var w := NewEvents(log, Startup(env, log).0);
      |w| > 0 && w[0] == Pinged(Local, env.localPing(log.localPings))
    ensures Startup(env, log).0.localPings == log.localPings + 1
    ensures Unreachable(env.localPing(log.localPings)) ==>
      Startup(env, log).1 == Err(env.localPing(log.localPings).error) &&
      NewEvents(log, Startup(env, log).0) == [Pinged(Local, env.localPing(log.localPings)), Closed(Local), Closed(Cloud)]
    ensures Startup(env, log).1.Ok? ==>
      var w := NewEvents(log, Startup(env, log).0);
      Startup(env, log).1 == Ok(true) && env.localPing(log.localPings).Version? &&
      w[|w| - 1].Pinged? && w[|w| - 1].store == Cloud && w[|w| - 1].ping.Version?
    ensures var o := env.localPing(log.localPings);
      o.PingRaised? && !o.error.ConnectionError? ==>
      Startup(env, log).1 == Err(o.error) && NewEvents(log, Startup(env, log).0) == [Pinged(Local, o)]
    ensures env.localPing(log.localPings).Version? ==>
      var p := Ping(env, log, Local).0;
      Extends(p, Startup(env, log).0) &&
      var w := NewEvents(p, Startup(env, log).0);
      RetryTrace(w) && Startup(env, log).1 == if w[|w| - 1].ping.Version? then Ok(true) else Err(w[|w| - 1].ping.error)
  {
    var p := Ping(env, log, Local);
    var o := p.1;
    assert NewEvents(log, p.0) == [Pinged(Local, o)];
    if o.PingRaised? {
      if o.error.ConnectionError? {
        assert NewEvents(log, Startup(env, log).0) == [Pinged(Local, o), Closed(Local), Closed(Cloud)];
      }
    } else {
      var a := AwaitCloud(env, p.0);
      AwaitCloudSpec(env, p.0);
      NewEventsChain(log, p.0, a.0);
      var w := NewEvents(log, a.0);
      var wa := NewEvents(p.0, a.0);
      assert w == [Pinged(Local, o)] + wa;
      assert w[|w| - 1] == wa[|wa| - 1];
    }
  }

  // ----- one run of main up to the end of its first pass -----

  /**
    `main` from a fresh log over configuration `conf`: the start-up checks,
    then the first pass of the source loop.
   */
  function Replicate(env: Environment, conf: Conf): (Log, Result<(), Error>)
    requires EventuallyReachable(env)
  {
    var s := Startup(env, INITIAL_LOG);
    if s.1.Err? then (s.0, Err(s.1.error))
    else if !s.1.value then (s.0, Ok(()))
    else Pass(env, s.0, conf)
  }

  /**
    Over a whole run: every local write follows a truthy remote write of the
    batch it marks; no source is queried unless both start-up checks
    succeeded; the sources are visited as planned, completely when no
    exception escaped.
   */
  lemma ReplicateSpec(env: Environment, conf: Conf)
    requires EventuallyReachable(env)
    ensures LocalWritesConfirmed(Replicate(env, conf).0.events, env.parseFloat)
    ensures Steps(Replicate(env, conf).0.events) != [] ==> Startup(env, INITIAL_LOG).1 == Ok(true)
    ensures Steps(Replicate(env, conf).0.events) <= Plan(StreamSections(conf))
    ensures Replicate(env, conf).1.Ok? ==> Steps(Replicate(env, conf).0.events) == Plan(StreamSections(conf))
    ensures Replicate(env, conf).1.Err? ==>
      Startup(env, INITIAL_LOG).1 == Err(Replicate(env, conf).1.error) ||
      (Startup(env, INITIAL_LOG).1 == Ok(true) && PassRaised(env, Startup(env, INITIAL_LOG).0, conf) &&
       Replicate(env, conf) == Pass(env, Startup(env, INITIAL_LOG).0, conf))
  {
    var s := Startup(env, INITIAL_LOG);
    StartupQuiet(env, INITIAL_LOG);
    FromStart(s.0);
    if s.1.Ok? && s.1.value {
      assert s.1 == Ok(true);
      PassSpec(env, s.0, conf);
      var p := Pass(env, s.0, conf);
      assert Replicate(env, conf) == p;
      PassRaises(env, s.0, conf);
      PassCompose(INITIAL_LOG, s.0, p.0, p.1.Ok?, [], Plan(StreamSections(conf)), env.parseFloat);
      FromStart(p.0);
    } else {
      assert Replicate(env, conf).0 == s.0;
    }
  }

  /** Everything a log that continues the fresh one holds is new. */
  lemma FromStart(l: Log)
    requires Extends(INITIAL_LOG, l)
    ensures NewEvents(INITIAL_LOG, l) == l.events
  {
  }

  /** The start-up checks take no loop steps, query nothing and write nothing. */
  lemma StartupQuiet(env: Environment, log: Log)
    requires EventuallyReachable(env)
    ensures Extends(log, Startup(env, log).0)
    ensures Steps(NewEvents(log, Startup(env, log).0)) == []
    ensures LocalWritesConfirmed(NewEvents(log, Startup(env, log).0), env.parseFloat)
    ensures Startup(env, log).1.Ok? ==> Startup(env, log).1.value
    ensures forall e :: e in NewEvents(log, Startup(env, log).0) ==> !e.Wrote? && !e.Queried?
  {
    var p := Ping(env, log, Local);
    var o := p.1;
    var first := [Pinged(Local, o)];
    var w := NewEvents(log, Startup(env, log).0);
    assert NewEvents(log, p.0) == first;
    assert PingsAndWaits(first);
    PingsAndWaitsQuiet(first, env.parseFloat);
    if o.PingRaised? {
      if o.error.ConnectionError? {
        Append(log, p.0, Startup(env, log).0, [Closed(Local), Closed(Cloud)]);
        ClosesConfirmed(Local, Cloud, env.parseFloat);
        ConfirmedAppend(first, [Closed(Local), Closed(Cloud)], env.parseFloat);
        CloseKeepsSteps(first, w, Local, Cloud);
      }
    } else {
      var a := AwaitCloud(env, p.0);
      AwaitCloudQuiet(env, p.0, env.parseFloat);
      NewEventsChain(log, p.0, a.0);
      ConfirmedAppend(first, NewEvents(p.0, a.0), env.parseFloat);
      StepsAppend(first, NewEvents(p.0, a.0));
    }
    StartupSilent(env, log);
  }

  /** The start-up checks record only pings, waits and closes. */
  lemma StartupSilent(env: Environment, log: Log)
    requires EventuallyReachable(env)
    ensures forall e :: e in NewEvents(log, Startup(env, log).0) ==> !e.Wrote? && !e.Queried?
  {
    var p := Ping(env, log, Local);
    var first := [Pinged(Local, p.1)];
    assert NewEvents(log, p.0) == first;
    if p.1.PingRaised? {
      if p.1.error.ConnectionError? {
        Append(log, p.0, Startup(env, log).0, [Closed(Local), Closed(Cloud)]);
        Silent(first, [Closed(Local), Closed(Cloud)]);
      }
    } else {
      var a := AwaitCloud(env, p.0);
      AwaitCloudQuiet(env, p.0, env.parseFloat);
      NewEventsChain(log, p.0, a.0);
      Silent(first, NewEvents(p.0, a.0));
    }
  }

  /** Two runs of pings, waits and closes joined are still free of writes and queries. */
  lemma Silent(first: seq<Event>, rest: seq<Event>)
    requires forall j :: 0 <= j < |first| ==> first[j].Pinged? || first[j].Slept? || first[j].Closed?
    requires forall j :: 0 <= j < |rest| ==> rest[j].Pinged? || rest[j].Slept? || rest[j].Closed?
    ensures forall e :: e in first + rest ==> !e.Wrote? && !e.Queried?
  {
    forall e | e in first + rest ensures !e.Wrote? && !e.Queried? {
      if e in first {
        var j :| 0 <= j < |first| && first[j] == e;
      } else {
        assert e in rest;
        var j :| 0 <= j < |rest| && rest[j] == e;
      }
    }
  }
}
