/** `ElasticSearch`: the process that runs the embedded search node. It
    starts the node from its properties, blocks until the node is closed,
    answers readiness probes and closes the node on termination. */
module Search {
  import opened Wrappers
  import opened Decimal
  import opened Props
  import opened Engine
  import opened SearchConfig

  /** The health query readiness asks: wait for at least yellow, for at
      most three seconds. */
  const HEALTH_REQUEST := HealthRequest(Yellow, 3)

  /** Whether a health query's outcome means ready: it completed, and the
      cluster is not red. A failed query of any kind means not ready. */
  function Ready(outcome: ProbeOutcome): (ready: bool)
    ensures ready <==> outcome == Completed(Green) || outcome == Completed(Yellow)
  {
    match outcome
    case Completed(status) => status != Red
    case Failed => false
  }

  /** The three states of the `node` field. */
  datatype HandleState = Null | Live | Closed

  /** What termination does to the handle: a live node is closed, anything
      else is left as it is. */
  function AfterTerminate(s: HandleState): (r: HandleState)
    ensures r != Live
    ensures s == Live ==> r == Closed
    ensures s != Live ==> r == s
  {
    if s == Live then Closed else s
  }

  /** Terminating twice is terminating once. */
  lemma TerminateIdempotent(s: HandleState)
    ensures AfterTerminate(AfterTerminate(s)) == AfterTerminate(s)
  {
  }

  /** What happens while the wait loop sleeps between two checks of the
      node: nothing, an interrupt of the sleeping thread (caught and
      logged), a termination of the process, or the engine closing the
      node on its own. */
  datatype Event = Tick | Interrupt | Terminate | EngineExit {
    predicate Closes() {
      Terminate? || EngineExit?
    }
  }

  /** The sleep after which a live node is first found closed: the first
      closing event. None when no event closes it. */
  function ExitAfter(events: seq<Event>): (r: Option<nat>)
    ensures r.Some? ==> r.value < |events| && events[r.value].Closes()
    ensures r.Some? ==> forall j :: 0 <= j < r.value ==> !events[j].Closes()
    ensures r.None? ==> forall j :: 0 <= j < |events| ==> !events[j].Closes()
  {
    if |events| == 0 then None
    else if events[0].Closes() then Some(0)
    else
      match ExitAfter(events[1..])
      case Some(k) => Some(k + 1)
      case None => None
  }

  /** An interrupt is handled like an uneventful sleep. */
  lemma InterruptIsTick(events: seq<Event>, i: nat)
    requires i < |events| && events[i] == Interrupt
    ensures ExitAfter(events[i := Tick]) == ExitAfter(events)
  {
    var e := events[i := Tick];
    match ExitAfter(events)
    case Some(k) =>
      assert e[k].Closes();
      assert forall j :: 0 <= j < k ==> !e[j].Closes();
      ExitIsFirstClose(e, k);
    case None =>
      assert forall j :: 0 <= j < |e| ==> !e[j].Closes();
  }

  /** ExitAfter is the first closing event. */
  lemma ExitIsFirstClose(events: seq<Event>, k: nat)
    requires k < |events| && events[k].Closes()
    requires forall j :: 0 <= j < k ==> !events[j].Closes()
    ensures ExitAfter(events) == Some(k)
  {
    var r := ExitAfter(events);
    assert r != None;
    assert !(r.value < k) && !(k < r.value);
  }

  /** The events with an interrupt inserted before position `i`. */
  function WithInterrupt(events: seq<Event>, i: nat): (e: seq<Event>)
    requires i <= |events|
    ensures |e| == |events| + 1 && e[i] == Interrupt
    ensures forall j :: 0 <= j < i ==> e[j] == events[j]
    ensures forall j :: i < j < |e| ==> e[j] == events[j - 1]
  {
    events[..i] + [Interrupt] + events[i..]
  }

  /** `e` is `events` with one non-closing event inserted at position `i`. */
  ghost predicate InsertedAt(events: seq<Event>, e: seq<Event>, i: nat) {
    && i <= |events| && |e| == |events| + 1 && !e[i].Closes()
    && (forall j :: 0 <= j < i ==> e[j] == events[j])
    && (forall j :: i < j < |e| ==> e[j] == events[j - 1])
  }

  /** Inserting a non-closing event shifts the exit past it by one sleep. */
  lemma ExitAfterInsertion(events: seq<Event>, e: seq<Event>, i: nat)
    requires InsertedAt(events, e, i)
    ensures match ExitAfter(events)
      case None => ExitAfter(e) == None
      case Some(k) => ExitAfter(e) == Some(if k < i then k else k + 1)
  {
    match ExitAfter(events)
    case None =>
      forall j | 0 <= j < |e| ensures !e[j].Closes() {
        if j > i {
          assert e[j] == events[j - 1];
        }
      }
    case Some(k) =>
      var k' := if k < i then k else k + 1;
      assert e[k'] == events[k];
      forall j | 0 <= j < k' ensures !e[j].Closes() {
        if j > i {
          assert e[j] == events[j - 1];
        }
      }
      ExitIsFirstClose(e, k');
  }

  /** An interrupt slipped in anywhere does not decide whether the wait
      ends: it only delays the exit by one sleep when it comes before the
      closing event, and not at all after it. */
  lemma InterruptOnlyDelays(events: seq<Event>, i: nat)
    requires i <= |events|
    ensures match ExitAfter(events)
      case None => ExitAfter(WithInterrupt(events, i)) == None
      case Some(k) => ExitAfter(WithInterrupt(events, i)) == Some(if k < i then k else k + 1)
  {
    ExitAfterInsertion(events, WithInterrupt(events, i), i);
  }

  /** Interrupts alone never end the wait. */
  lemma InterruptsNeverExit(events: seq<Event>)
    requires forall j :: 0 <= j < |events| ==> events[j] == Tick || events[j] == Interrupt
    ensures ExitAfter(events) == None
  {
  }

  /** Why a start did not get to run the node. */
  datatype StartError =
    | Config(error: ConfigError)  // a missing property: `IllegalStateException` with error.Message()
    | LaunchFailed                // the engine failed to build or start the node

  /** How a start ended: it failed, or the node was found closed after the
      given number of sleeps, or the node was still live when the given
      events ran out (the source's loop would still be waiting). */
  datatype StartOutcome = StartFailed(error: StartError) | Stopped(sleeps: nat) | StillRunning

  class ElasticSearch {
    const props: Props
    var node: Node?

    /** `new ElasticSearch(props)`: no node yet. */
    constructor (props: Props)
      ensures this.props == props && node == null
    {
      this.props := props;
      node := null;
    }

    ghost function State(): HandleState
      reads this, node
    {
      if node == null then Null else if node.closed then Closed else Live
    }

    /** `isReady`: asks the node for its health and reports ready unless the
        cluster is red or the query fails; with no node, the query throws
        and the answer is not ready. `health` stands for the engine's
        answer to a health query. */
    method IsReady(health: HealthRequest -> ProbeOutcome) returns (ready: bool)
      ensures ready <==> node != null && health(HEALTH_REQUEST) != Failed && health(HEALTH_REQUEST).status != Red
    {
      if node == null {
        ready := false;
      } else {
        ready := Ready(health(HEALTH_REQUEST));
      }
    }

    /** `onTerminate`: closes the node when it is live, and only then. */
    method OnTerminate()
      modifies node
      ensures State() == AfterTerminate(old(State()))
      ensures node != null ==> node.closeCalls == old(node.closeCalls) + (if old(State()) == Live then 1 else 0)
    {
      if node != null && !node.IsClosed() {
        node.Close();
      }
    }

    /** The wait loop of `onStart`: while there is a live node, sleep, and
        see what happened meanwhile. Returns whether the loop ended and the
        number of sleeps; the loop also stops when the events run out, with
        the node still live. */
    method AwaitClose(events: seq<Event>) returns (exited: bool, sleeps: nat)
      modifies node
      ensures exited <==> State() != Live
      ensures old(State()) != Live ==> exited && sleeps == 0 && State() == old(State())
      ensures old(State()) == Closed ==> node.closeCalls == old(node.closeCalls)
      ensures old(State()) == Live ==>
        match ExitAfter(events)
        case Some(k) => exited && sleeps == k + 1 && node.closeCalls == old(node.closeCalls) + 1
        case None => !exited && sleeps == |events| && node.closeCalls == old(node.closeCalls)
    {
      ghost var wasLive := State() == Live;
      sleeps := 0;
      while node != null && !node.IsClosed() && sleeps < |events|
        invariant sleeps <= |events|
        decreases |events| - sleeps
        invariant !wasLive ==> sleeps == 0 && State() == old(State())
        invariant !wasLive && node != null ==> node.closeCalls == old(node.closeCalls)
        invariant wasLive ==> node != null
        invariant wasLive ==> forall j :: 0 <= j < sleeps - 1 ==> !events[j].Closes()
        invariant wasLive && State() == Live ==> forall j :: 0 <= j < sleeps ==> !events[j].Closes()
        invariant wasLive && State() == Live ==> node.closeCalls == old(node.closeCalls)
        invariant wasLive && State() != Live ==> 0 < sleeps && events[sleeps - 1].Closes()
        invariant wasLive && State() != Live ==> node.closeCalls == old(node.closeCalls) + 1
      {
        match events[sleeps] {
          case Tick =>
          case Interrupt =>
          case Terminate => OnTerminate();
          case EngineExit => node.Close();
        }
        sleeps := sleeps + 1;
      }
      exited := node == null || node.IsClosed();
      if wasLive {
        if exited {
          ExitIsFirstClose(events, sleeps - 1);
        }
      }
    }

    /** `onStart`: resolve the properties (home before port), build the
        settings, launch the node and wait until it is closed. `now` is the
        clock reading used for the node name; `launches` says whether the
        engine builds and starts the node or throws; `events` is what
        happens during the wait. */
    method OnStart(now: Int64, launches: bool, events: seq<Event>) returns (outcome: StartOutcome)
      modifies this
      ensures StartSettings(props, now).Failure? ==>
        outcome == StartFailed(Config(StartSettings(props, now).error)) && node == old(node)
      ensures StartSettings(props, now).Success? && !launches ==>
        outcome == StartFailed(LaunchFailed) && node == old(node)
      ensures StartSettings(props, now).Success? && launches ==>
        && node != null && fresh(node)
        && node.settings == StartSettings(props, now).value
        && match ExitAfter(events)
           case Some(k) => outcome == Stopped(k + 1) && State() == Closed && node.closeCalls == 1
           case None => outcome == StillRunning && State() == Live && node.closeCalls == 0
    {
      var cfg := Resolve(props);
      if cfg.Failure? {
        return StartFailed(Config(cfg.error));
      }
      var settings := BuildSettings(cfg.value, now);
      if !launches {
        return StartFailed(LaunchFailed);
      }
      node := new Node.Start(settings);
      var exited, sleeps := AwaitClose(events);
      outcome := if exited then Stopped(sleeps) else StillRunning;
    }
  }

  /** A start whose node fails to launch leaves no node behind, and a
      termination after it does nothing. */
  method LaunchFailureScenario(p: Props, now: Int64, events: seq<Event>) returns (outcome: StartOutcome, es: ElasticSearch)
    requires StartSettings(p, now).Success?
    ensures outcome == StartFailed(LaunchFailed)
    ensures es.node == null && es.State() == Null
  {
    es := new ElasticSearch(p);
    outcome := es.OnStart(now, false, events);
    es.OnTerminate();
  }

  /** A second termination changes nothing, whatever the state: the node
      is closed once if it was live, and never otherwise. */
  method TerminateTwice(es: ElasticSearch)
    modifies es.node
    ensures es.State() == AfterTerminate(old(es.State()))
    ensures es.node != null ==> es.node.closeCalls == old(es.node.closeCalls) + (if old(es.State()) == Live then 1 else 0)
  {
    es.OnTerminate();
    es.OnTerminate();
  }
}
