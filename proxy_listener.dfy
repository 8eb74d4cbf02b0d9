/**
 * The listener (`ProxyListener`): it accepts connections, keeps the set of
 * requests that have been accepted and not finished, and stops accepting
 * while that set is full. Threads and the monitor are replaced by a sequence
 * of outside steps; the monitor's `wait` becomes the guard on admission.
 */
module Listener {
  import opened Results
  import ProxyRequests

  /** What happens outside the accept loop, in order. */
  datatype Step =
    | Connect                                                  // a client connects; it waits in the backlog
    | Finish(request: ProxyRequests.ProxyRequest, success: bool) // a request thread reports
    | Fail                                                     // accept() or wait() throws

  datatype ListenerEvent =
    | Listening(port: int)
    | NotifiedAll
    | Started(request: ProxyRequests.ProxyRequest)
    | LoopEnded

  /** After the first LoopEnded event of `events[from..]`, no request is started. */
  ghost predicate NoStartAfterEnd(events: seq<ListenerEvent>, from: nat) {
    forall i, j | from <= i < j < |events| :: events[i] == LoopEnded ==> !events[j].Started?
  }

  /** The number of connections among the steps. */
  function Connects(steps: seq<Step>): (r: nat)
    ensures r <= |steps|
  {
    if steps == [] then 0 else Connects(steps[..|steps| - 1]) + (if steps[|steps| - 1].Connect? then 1 else 0)
  }

  /** The requests that report among the steps. */
  function Reporters(steps: seq<Step>): set<ProxyRequests.ProxyRequest> {
    if steps == [] then {}
    else Reporters(steps[..|steps| - 1]) + (if steps[|steps| - 1].Finish? then {steps[|steps| - 1].request} else {})
  }

  /** The requests the events start, in order. */
  function Starts(events: seq<ListenerEvent>): (r: seq<ProxyRequests.ProxyRequest>)
    ensures |r| <= |events|
  {
    if events == [] then []
    else Starts(events[..|events| - 1]) + (if events[|events| - 1].Started? then [events[|events| - 1].request] else [])
  }

  /** The requests the steps name. */
  function Named(steps: seq<Step>): set<ProxyRequests.ProxyRequest> {
    set i | 0 <= i < |steps| && steps[i].Finish? :: steps[i].request
  }

  /** The set of requests the events start. */
  function Begun(events: seq<ListenerEvent>): set<ProxyRequests.ProxyRequest> {
    set r | r in Starts(events)
  }

  /** The requests started by two stretches of events, one after the other. */
  lemma {:induction false} StartsAppend(a: seq<ListenerEvent>, b: seq<ListenerEvent>)
    ensures Starts(a + b) == Starts(a) + Starts(b)
    decreases |b|
  {
    if b != [] {
      var last := b[|b| - 1];
      var s := if last.Started? then [last.request] else [];
      assert (a + b)[..|a + b| - 1] == a + b[..|b| - 1];
      assert (a + b)[|a + b| - 1] == last;
      assert Starts(a + b) == Starts(a + b[..|b| - 1]) + s;
      assert Starts(b) == Starts(b[..|b| - 1]) + s;
      StartsAppend(a, b[..|b| - 1]);
    } else {
      assert a + b == a;
    }
  }

  /** Events appended after `start` extend what the events from `start` on start. */
  lemma Extend(events: seq<ListenerEvent>, tail: seq<ListenerEvent>, start: nat)
    requires start <= |events|
    ensures (events + tail)[start..] == events[start..] + tail
    ensures Starts((events + tail)[start..]) == Starts(events[start..]) + Starts(tail)
    ensures Begun((events + tail)[start..]) == Begun(events[start..]) + Begun(tail)
  {
    assert (events + tail)[start..] == events[start..] + tail;
    StartsAppend(events[start..], tail);
  }

  /** Taking one more step adds that step to the counts. */
  lemma StepsSnoc(steps: seq<Step>, i: nat)
    requires i < |steps|
    ensures Connects(steps[..i + 1]) == Connects(steps[..i]) + (if steps[i].Connect? then 1 else 0)
    ensures Reporters(steps[..i + 1]) == Reporters(steps[..i]) + (if steps[i].Finish? then {steps[i].request} else {})
    ensures Fail in steps[..i + 1] <==> Fail in steps[..i] || steps[i] == Fail
  {
    assert steps[..i + 1][..i] == steps[..i];
    assert steps[..i + 1] == steps[..i] + [steps[i]];
  }

  /**
   * The events of `run` once `seen` steps are taken: the port is announced
   * at `start`, no request starts after the loop ended, and the loop ends,
   * at `endAt`, exactly when a failure was among the steps.
   */
  ghost predicate Loops(events: seq<ListenerEvent>, port: int, start: nat, endAt: nat, accepting: bool,
                        steps: seq<Step>, seen: nat)
  {
    && seen <= |steps|
    && start < |events| && events[start] == Listening(port)
    && NoStartAfterEnd(events, start)
    && (!accepting ==> start < endAt < |events| && events[endAt] == LoopEnded)
    && (accepting ==> LoopEnded !in events[start..])
    && (Fail in steps[..seen] <==> !accepting)
  }

  /**
   * The requests of `run` once `seen` steps are taken: every connection
   * among them is started or waiting, and the set holds the requests that
   * were there at the start (`base`) and have not reported, along with the
   * ones started since, which are new.
   */
  ghost predicate Accounts(active: set<ProxyRequests.ProxyRequest>, events: seq<ListenerEvent>, start: nat,
                           steps: seq<Step>, seen: nat, waiting: nat, base: set<ProxyRequests.ProxyRequest>)
  {
    && seen <= |steps| && start <= |events|
    && |Starts(events[start..])| + waiting == Connects(steps[..seen])
    && active == (base - Reporters(steps[..seen])) + Begun(events[start..])
    && forall r | r in Starts(events[start..]) :: r !in base && r !in Named(steps)
  }

  /** A step that is not an admission: a connection waits, a report is taken, a failure ends the loop. */
  lemma LoopsStep(events: seq<ListenerEvent>, tail: seq<ListenerEvent>, port: int, start: nat, endAt: nat,
                  accepting: bool, steps: seq<Step>, i: nat)
    requires i < |steps| && Loops(events, port, start, endAt, accepting, steps, i)
    requires steps[i].Connect? ==> tail == []
    requires steps[i].Finish? ==> tail == [NotifiedAll]
    requires steps[i].Fail? ==> tail == if accepting then [LoopEnded] else []
    ensures Loops(events + tail, port, start, if steps[i].Fail? && accepting then |events| else endAt,
                  accepting && !steps[i].Fail?, steps, i + 1)
  {
    StepsSnoc(steps, i);
    var e := events + tail;
    assert e[start..] == events[start..] + tail;
    forall a, b | start <= a < b < |e| && e[a] == LoopEnded
      ensures !e[b].Started?
    {
      if b >= |events| {
        assert e[b] in tail;
      }
    }
  }

  /** A step's effect on the counts and the set. */
  lemma AccountsStep(active: set<ProxyRequests.ProxyRequest>, events: seq<ListenerEvent>, tail: seq<ListenerEvent>,
                     start: nat, steps: seq<Step>, i: nat, waiting: nat, base: set<ProxyRequests.ProxyRequest>)
    requires i < |steps| && Accounts(active, events, start, steps, i, waiting, base)
    requires Starts(tail) == []
    ensures Accounts(if steps[i].Finish? then active - {steps[i].request} else active, events + tail, start,
                     steps, i + 1, if steps[i].Connect? then waiting + 1 else waiting, base)
  {
    StepsSnoc(steps, i);
    Extend(events, tail, start);
    assert Starts((events + tail)[start..]) == Starts(events[start..]);
    if steps[i].Finish? {
      assert steps[i].request in Named(steps);
    }
  }

  /** An admission: a waiting connection becomes a new request in the set. */
  lemma AccountsAdmit(active: set<ProxyRequests.ProxyRequest>, events: seq<ListenerEvent>, start: nat,
                      steps: seq<Step>, seen: nat, waiting: nat, base: set<ProxyRequests.ProxyRequest>,
                      request: ProxyRequests.ProxyRequest)
    requires Accounts(active, events, start, steps, seen, waiting, base) && waiting > 0
    requires request !in base && request !in Named(steps)
    ensures Accounts(active + {request}, events + [NotifiedAll, Started(request)], start, steps, seen, waiting - 1, base)
  {
    Extend(events, [NotifiedAll, Started(request)], start);
    assert Starts([NotifiedAll, Started(request)]) == [request];
  }

  /** An admission while the loop runs appends no end, so no start follows an end. */
  lemma LoopsAdmit(events: seq<ListenerEvent>, port: int, start: nat, endAt: nat, steps: seq<Step>, seen: nat,
                   request: ProxyRequests.ProxyRequest)
    requires Loops(events, port, start, endAt, true, steps, seen)
    ensures Loops(events + [NotifiedAll, Started(request)], port, start, endAt, true, steps, seen)
  {
    var e := events + [NotifiedAll, Started(request)];
    assert e[start..] == events[start..] + [NotifiedAll, Started(request)];
    forall a | start <= a < |e|
      ensures e[a] != LoopEnded
    {
      if a < |events| {
        assert e[a] == events[start..][a - start];
      }
    }
  }

  class ProxyListener {
    /** MAX_ACTIVE_REQUESTS, and the settings handed to each request. */
    const maxActive: int
    const bufferSize: nat
    const socketTimeout: int
    var activeRequests: set<ProxyRequests.ProxyRequest>
    /** `localPort`: the port of the bound server socket, none before `run` binds it. */
    var localPort: Option<int>
    var events: seq<ListenerEvent>

    ghost predicate Valid()
      reads this
    {
      maxActive >= 1 && |activeRequests| <= maxActive
    }

    constructor (maxActive: int, bufferSize: nat, socketTimeout: int)
      requires maxActive >= 1
      ensures Valid()
      ensures this.maxActive == maxActive && this.bufferSize == bufferSize && this.socketTimeout == socketTimeout
      ensures activeRequests == {} && localPort == None && events == []
    {
      this.maxActive := maxActive;
      this.bufferSize := bufferSize;
      this.socketTimeout := socketTimeout;
      activeRequests := {};
      localPort := None;
      events := [];
    }

    /** The admission block waits while this holds. */
    predicate Full()
      reads this
    {
      |activeRequests| >= maxActive
    }

    /**
     * `finished`: the reporting request leaves the set, every other member
     * stays, and the waiting admission is woken. Removing a request that is
     * not in the set changes nothing in it.
     */
    method Finished(source: ProxyRequests.ProxyRequest, succeeded: bool)
      requires Valid()
      modifies this`activeRequests, this`events
      ensures Valid()
      ensures activeRequests == old(activeRequests) - {source}
      ensures events == old(events) + [NotifiedAll]
    {
      activeRequests := activeRequests - {source};
      events := events + [NotifiedAll];
    }

    /**
     * One admission: the accepted connection becomes a new request, which
     * is added to the set before it is started. Only reached while the set
     * is not full, so the bound holds afterwards.
     */
    method Admit() returns (request: ProxyRequests.ProxyRequest)
      requires Valid() && !Full()
      modifies this`activeRequests, this`events
      ensures Valid() && fresh(request)
      ensures activeRequests == old(activeRequests) + {request}
      ensures |activeRequests| == |old(activeRequests)| + 1
      ensures events == old(events) + [NotifiedAll, Started(request)]
    {
      request := new ProxyRequests.ProxyRequest(bufferSize, socketTimeout);
      activeRequests := activeRequests + {request};
      events := events + [NotifiedAll, Started(request)];
    }

    /**
     * `run`. If the server socket cannot be bound nothing else happens.
     * Otherwise `localPort` is its port, and after every step the loop
     * accepts waiting connections for as long as the set is not full. A
     * failure ends the loop for good; reports still arrive afterwards.
     * `waiting` is the number of connections never accepted: every
     * connection is either started or still waiting, and while the loop
     * runs connections wait only while the set is full.
     */
    method Run(port: int, binds: bool, steps: seq<Step>) returns (waiting: nat)
      requires Valid()
      modifies this`activeRequests, this`events, this`localPort
      ensures Valid()
      ensures localPort == if binds then Some(port) else old(localPort)
      ensures !binds ==> activeRequests == old(activeRequests) && events == old(events) && waiting == 0
      ensures binds ==> |events| > |old(events)| && events[|old(events)|] == Listening(port)
      ensures NoStartAfterEnd(events, |old(events)|)
      ensures binds && Fail in steps ==> LoopEnded in events[|old(events)|..]
      ensures binds && Fail !in steps ==> waiting == 0 || Full()
      ensures binds ==> |Starts(events[|old(events)|..])| + waiting == Connects(steps)
      ensures binds ==> activeRequests == (old(activeRequests) - Reporters(steps)) + Begun(events[|old(events)|..])
    {
      waiting := 0;
      if !binds {
        return;
      }
      ghost var start: nat := |events|;
      ghost var base := activeRequests;
      localPort := Some(port);
      events := events + [Listening(port)];
      RunStarts(events, port, start, steps, activeRequests);
      ghost var endAt;
      var accepting;
      accepting, waiting, endAt := Serve(port, steps, start, base);
      RunEnds(events, port, start, endAt, accepting, steps);
    }

    /** The accept loop of `run`, over all the steps. */
    method Serve(port: int, steps: seq<Step>, ghost start: nat, ghost base: set<ProxyRequests.ProxyRequest>)
      returns (accepting: bool, waiting: nat, ghost endAt: nat)
      requires Valid() && localPort == Some(port)
      requires Loops(events, port, start, start, true, steps, 0)
      requires Accounts(activeRequests, events, start, steps, 0, 0, base)
      modifies this`activeRequests, this`events
      ensures Valid() && localPort == Some(port)
      ensures Loops(events, port, start, endAt, accepting, steps, |steps|)
      ensures Accounts(activeRequests, events, start, steps, |steps|, waiting, base)
      ensures accepting ==> waiting == 0 || Full()
    {
      accepting, waiting, endAt := true, 0, start;
      var i := 0;
      while i < |steps|
        invariant 0 <= i <= |steps|
        invariant Valid() && localPort == Some(port)
        invariant Loops(events, port, start, endAt, accepting, steps, i)
        invariant Accounts(activeRequests, events, start, steps, i, waiting, base)
        invariant accepting ==> waiting == 0 || Full()
      {
        accepting, waiting, endAt := TakeStep(port, steps, i, accepting, waiting, start, endAt, base);
        waiting := AdmitWaiting(port, steps, i + 1, accepting, waiting, start, endAt, base);
        i := i + 1;
      }
    }

    /** Step number `i` of `run`: a connection waits, a report is taken, a failure ends the loop. */
    method TakeStep(port: int, steps: seq<Step>, i: nat, accepting: bool, waiting: nat,
                    ghost start: nat, ghost endAt: nat, ghost base: set<ProxyRequests.ProxyRequest>)
      returns (accepting': bool, waiting': nat, ghost endAt': nat)
      requires i < |steps| && Valid()
      requires Loops(events, port, start, endAt, accepting, steps, i)
      requires Accounts(activeRequests, events, start, steps, i, waiting, base)
      modifies this`activeRequests, this`events
      ensures Valid() && localPort == old(localPort)
      ensures Loops(events, port, start, endAt', accepting', steps, i + 1)
      ensures Accounts(activeRequests, events, start, steps, i + 1, waiting', base)
    {
      accepting', waiting', endAt' := accepting, waiting, endAt;
      match steps[i] {
        case Connect =>
          LoopsStep(events, [], port, start, endAt, accepting, steps, i);
          AccountsStep(activeRequests, events, [], start, steps, i, waiting, base);
          assert events + [] == events;
          waiting' := waiting + 1;
        case Finish(r, ok) =>
          TakeReport(port, steps, i, accepting, waiting, start, endAt, base);
        case Fail =>
          endAt' := TakeFailure(port, steps, i, accepting, waiting, start, endAt, base);
          accepting' := false;
      }
    }

    /** A report among the steps: the request leaves the set. */
    method TakeReport(port: int, steps: seq<Step>, i: nat, accepting: bool, waiting: nat,
                      ghost start: nat, ghost endAt: nat, ghost base: set<ProxyRequests.ProxyRequest>)
      requires i < |steps| && steps[i].Finish? && Valid()
      requires Loops(events, port, start, endAt, accepting, steps, i)
      requires Accounts(activeRequests, events, start, steps, i, waiting, base)
      modifies this`activeRequests, this`events
      ensures Valid()
      ensures Loops(events, port, start, endAt, accepting, steps, i + 1)
      ensures Accounts(activeRequests, events, start, steps, i + 1, waiting, base)
    {
      LoopsStep(events, [NotifiedAll], port, start, endAt, accepting, steps, i);
      AccountsStep(activeRequests, events, [NotifiedAll], start, steps, i, waiting, base);
      Finished(steps[i].request, steps[i].success);
    }

    /** A failure among the steps: the first one ends the loop, a later one changes nothing. */
    method TakeFailure(port: int, steps: seq<Step>, i: nat, accepting: bool, waiting: nat,
                       ghost start: nat, ghost endAt: nat, ghost base: set<ProxyRequests.ProxyRequest>)
      returns (ghost endAt': nat)
      requires i < |steps| && steps[i].Fail? && Valid()
      requires Loops(events, port, start, endAt, accepting, steps, i)
      requires Accounts(activeRequests, events, start, steps, i, waiting, base)
      modifies this`events
      ensures Loops(events, port, start, endAt', false, steps, i + 1)
      ensures Accounts(activeRequests, events, start, steps, i + 1, waiting, base)
    {
      endAt' := endAt;
      if accepting {
        endAt' := |events|;
        LoopsStep(events, [LoopEnded], port, start, endAt, accepting, steps, i);
        AccountsStep(activeRequests, events, [LoopEnded], start, steps, i, waiting, base);
        events := events + [LoopEnded];
      } else {
        LoopsStep(events, [], port, start, endAt, accepting, steps, i);
        AccountsStep(activeRequests, events, [], start, steps, i, waiting, base);
        assert events + [] == events;
      }
    }

    /** The admission loop after a step: accept waiting connections while the loop runs and the set is not full. */
    method AdmitWaiting(port: int, steps: seq<Step>, seen: nat, accepting: bool, waiting: nat,
                        ghost start: nat, ghost endAt: nat, ghost base: set<ProxyRequests.ProxyRequest>)
      returns (waiting': nat)
      requires Valid()
      requires Loops(events, port, start, endAt, accepting, steps, seen)
      requires Accounts(activeRequests, events, start, steps, seen, waiting, base)
      modifies this`activeRequests, this`events
      ensures Valid() && localPort == old(localPort)
      ensures Loops(events, port, start, endAt, accepting, steps, seen)
      ensures Accounts(activeRequests, events, start, steps, seen, waiting', base)
      ensures accepting ==> waiting' == 0 || Full()
    {
      waiting' := waiting;
      while accepting && waiting' > 0 && !Full()
        invariant Valid()
        invariant Loops(events, port, start, endAt, accepting, steps, seen)
        invariant Accounts(activeRequests, events, start, steps, seen, waiting', base)
        decreases waiting'
      {
        ghost var e0, a0 := events, activeRequests;
        var request := Admit();
        LoopsAdmit(e0, port, start, endAt, steps, seen, request);
        AccountsAdmit(a0, e0, start, steps, seen, waiting', base, request);
        waiting' := waiting' - 1;
      }
    }
  }

  /** Right after binding, only the announcement is there and nothing is counted. */
  lemma RunStarts(events: seq<ListenerEvent>, port: int, start: nat, steps: seq<Step>,
                  active: set<ProxyRequests.ProxyRequest>)
    requires start + 1 == |events| && events[start] == Listening(port)
    ensures Loops(events, port, start, start, true, steps, 0)
    ensures Accounts(active, events, start, steps, 0, 0, active)
  {
    assert events[start..] == [Listening(port)];
    assert Starts(events[start..]) == Starts([]) + [];
    assert steps[..0] == [];
  }

  /** After the last step the loop facts speak about all the steps. */
  lemma RunEnds(events: seq<ListenerEvent>, port: int, start: nat, endAt: nat, accepting: bool, steps: seq<Step>)
    requires Loops(events, port, start, endAt, accepting, steps, |steps|)
    ensures steps[..|steps|] == steps
    ensures Fail in steps <==> !accepting
    ensures Fail in steps ==> LoopEnded in events[start..]
  {
    assert steps[..|steps|] == steps;
    if !accepting {
      assert events[start..][endAt - start] == LoopEnded;
    }
  }
}
