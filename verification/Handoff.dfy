/** The split hand-off: a prefill thread publishes requests to decode workers
through a bounded channel of packets, in every interleaving.

Transport and scheduler locks are taken separately, so each locked section is a
step of its own. Packets are process-local (no blob), and preemption is off.
*/
module Handoff {
  import opened Common

  type Req = int

  datatype Packet = Packet(ticket: nat, request: Req, nPast: int)

  /** The prefill thread between registering a request and publishing it. */
  datatype Publication = Quiet | Registered(packet: Packet) | Sent(request: Req) | Rejected(request: Req)

  datatype Phase = Choosing | Draining | Executing

  datatype Worker = Worker(phase: Phase, batch: set<Req>, packet: Option<Packet>)

  /** How a ticket ended: committed, or timed out. */
  datatype Outcome = Outcome(ticket: nat, committed: bool)

  datatype State = State(
    tickets: nat, publication: Publication, publishing: set<Req>, pending: set<Req>, channel: seq<Packet>,
    capacity: nat,
    workers: seq<Worker>, sent: map<Req, Packet>, log: seq<Outcome>, ran: set<Req>, finished: set<Req>)

  datatype Event =
    | Register(request: Req, nPast: int)
    | Send
    | Publish
    | Take(worker: nat, picked: set<Req>)
    | Dequeue(worker: nat)
    | Match(worker: nat)
    | StopDraining(worker: nat)
    | Execute(worker: nat, yielded: set<Req>, finished: set<Req>)

  /** The registries the drain looks into: the worker's own batch, the decode
      queue, and the requests being published. */
  predicate Matches(s: State, w: Worker, p: Packet) {
    p.nPast >= 0 && (p.request in w.batch || p.request in s.pending || p.request in s.publishing)
  }

  function SetWorker(s: State, i: nat, w: Worker): State
    requires i < |s.workers|
  {
    s.(workers := s.workers[i := w])
  }

  function Next(s: State, e: Event): (r: State) {
    match e
    case Register(r, nPast) =>
      if !s.publication.Quiet? || r in s.sent || r in s.publishing then s
      else s.(tickets := s.tickets + 1, publication := Registered(Packet(s.tickets + 1, r, nPast)),
          publishing := s.publishing + {r})
    case Send =>
      if !s.publication.Registered? then s
      else
        var p := s.publication.packet;
        if |s.channel| >= s.capacity then s.(publication := Rejected(p.request))
        else s.(channel := s.channel + [p], publication := Sent(p.request), sent := s.sent[p.request := p])
    case Publish =>
      if s.publication.Sent? then
        s.(publishing := s.publishing - {s.publication.request}, pending := s.pending + {s.publication.request},
            publication := Quiet)
      else if s.publication.Rejected?
          then s.(publishing := s.publishing - {s.publication.request}, publication := Quiet)
      else s
    case Take(i, picked) =>
      if i >= |s.workers| || !s.workers[i].phase.Choosing? then s
      else SetWorker(s.(pending := s.pending - picked), i,
          s.workers[i].(phase := Draining, batch := s.workers[i].batch + s.pending * picked))
    case Dequeue(i) =>
      if i >= |s.workers| || !s.workers[i].phase.Draining? || s.workers[i].packet.Some? || s.channel == [] then s
      else SetWorker(s.(channel := s.channel[1..]), i, s.workers[i].(packet := Some(s.channel[0])))
    case Match(i) =>
      if i >= |s.workers| || s.workers[i].packet.None? then s
      else
        var p := s.workers[i].packet.value;
        SetWorker(s.(log := s.log + [Outcome(p.ticket, Matches(s, s.workers[i], p))]), i, s.workers[i].(packet := None))
    case StopDraining(i) =>
      if i >= |s.workers| || !s.workers[i].phase.Draining? || s.workers[i].packet.Some? || s.channel != [] then s
      else SetWorker(s, i, s.workers[i].(phase := Executing))
    case Execute(i, yielded, finished) =>
      if i >= |s.workers| || !s.workers[i].phase.Executing? then s
      else
        var batch := s.workers[i].batch;
        var done := batch * finished - yielded;
        SetWorker(s.(ran := s.ran + batch, pending := s.pending + batch * yielded, finished := s.finished + done), i,
            Worker(Choosing, batch - yielded - finished, None))
  }

  function Run(s: State, events: seq<Event>): (r: State)
    decreases |events|
  {
    if events == [] then s else Run(Next(s, events[0]), events[1..])
  }

  function Start(workers: nat, capacity: nat): State {
    State(0, Quiet, {}, {}, [], capacity, seq(workers, _ => Worker(Choosing, {}, None)), map[], [], {}, {})
  }

  // ---- at most one decode worker ----

  /** The only worker; with none, one that never moves. */
  function Only(s: State): Worker { if |s.workers| == 1 then s.workers[0] else Worker(Choosing, {}, None) }

  predicate InFlight(s: State, p: Packet) { p in s.channel || Only(s).packet == Some(p) }

  /** Where a published request waits for its packet or its turn. */
  predicate Known(s: State, r: Req) { r in s.publishing || r in s.pending || r in Only(s).batch }

  predicate Logged(log: seq<Outcome>, ticket: nat) { exists k :: 0 <= k < |log| && log[k].ticket == ticket }

  /** Tickets are handed out once, one per accepted request. */
  ghost predicate Tickets(s: State) {
    && (forall r :: r in s.sent ==> s.sent[r].request == r && s.sent[r].ticket <= s.tickets)
    && (forall q, r :: q in s.sent && r in s.sent && s.sent[q].ticket == s.sent[r].ticket ==> q == r)
    && (s.publication.Registered? ==>
          && s.publication.packet.ticket <= s.tickets
          && s.publication.packet.request !in s.sent
          && forall r :: r in s.sent ==> s.sent[r].ticket != s.publication.packet.ticket)
  }

  /** A packet in flight was sent for a request that has not run and is known. */
  predicate Outstanding(s: State, p: Packet) {
    p.request in s.sent && s.sent[p.request] == p && p.request !in s.ran && Known(s, p.request)
  }

  ghost predicate Packets(s: State) {
    && (forall p :: InFlight(s, p) ==> Outstanding(s, p))
    && (forall j, k :: 0 <= j < k < |s.channel| ==> s.channel[j] != s.channel[k])
    && (Only(s).packet.Some? ==> Only(s).phase.Draining? && Only(s).packet.value !in s.channel)
  }

  ghost predicate Places(s: State) {
    && (forall r :: r in s.pending || r in Only(s).batch || r in s.ran ==> r in s.sent)
    && (Only(s).phase.Executing? ==> forall r :: r in Only(s).batch ==> !InFlight(s, s.sent[r]))
    && (match s.publication
        case Quiet => forall q :: q !in s.publishing
        case Registered(p) => forall q :: q in s.publishing <==> q == p.request
        case Sent(r) => r in s.sent && forall q :: q in s.publishing <==> q == r
        case Rejected(r) => r !in s.sent && forall q :: q in s.publishing <==> q == r)
  }

  /** The verdict a logged ticket deserves. */
  ghost predicate Deserved(s: State, o: Outcome) {
    exists r :: r in s.sent && s.sent[r].ticket == o.ticket && (o.committed <==> s.sent[r].nPast >= 0)
  }

  /** A sent packet is in flight exactly until it is logged; it is logged once, and
      committed if and only if it carries a position. */
  ghost predicate Log(s: State) {
    && (forall r :: r in s.sent ==> (InFlight(s, s.sent[r]) <==> !Logged(s.log, s.sent[r].ticket)))
    && (forall j, k :: 0 <= j < k < |s.log| ==> s.log[j].ticket != s.log[k].ticket)
    && (forall k :: 0 <= k < |s.log| ==> Deserved(s, s.log[k]))
  }

  ghost predicate Inv(s: State) { |s.workers| <= 1 && Tickets(s) && Packets(s) && Places(s) && Log(s) }

  lemma LoggedMore(log: seq<Outcome>, o: Outcome, ticket: nat)
    ensures Logged(log + [o], ticket) <==> Logged(log, ticket) || o.ticket == ticket
  {
    if Logged(log, ticket) {
      var k :| 0 <= k < |log| && log[k].ticket == ticket;
      assert (log + [o])[k].ticket == ticket;
    }
    if o.ticket == ticket { assert (log + [o])[|log|].ticket == ticket; }
  }

  lemma RegisterKeeps(s: State, r: Req, nPast: int)
    requires Inv(s)
    ensures Inv(Next(s, Register(r, nPast)))
  {
    var s' := Next(s, Register(r, nPast));
    assert forall p :: InFlight(s', p) <==> InFlight(s, p);
    assert forall k :: 0 <= k < |s.log| ==> Deserved(s', s.log[k]) by {
      assert forall k :: 0 <= k < |s.log| ==> Deserved(s, s.log[k]);
    }
  }

  lemma SendKeeps(s: State)
    requires Inv(s) && s.publication.Registered? && |s.channel| < s.capacity
    ensures Inv(Next(s, Send))
  {
    var s' := Next(s, Send);
    var p := s.publication.packet;
    forall q ensures InFlight(s', q) <==> InFlight(s, q) || q == p { }
    forall k | 0 <= k < |s.log| ensures Deserved(s', s.log[k]) && s.log[k].ticket != p.ticket {
      assert Deserved(s, s.log[k]);
      var r :| r in s.sent && s.sent[r].ticket == s.log[k].ticket && (s.log[k].committed <==> s.sent[r].nPast >= 0);
      assert s'.sent[r] == s.sent[r];
    }
    assert p !in s.channel && Only(s).packet != Some(p) by { assert InFlight(s, p) ==> Outstanding(s, p); }
  }

  lemma RejectKeeps(s: State)
    requires Inv(s) && s.publication.Registered? && |s.channel| >= s.capacity
    ensures Inv(Next(s, Send))
  {
    var s' := Next(s, Send);
    assert forall p :: InFlight(s', p) <==> InFlight(s, p);
    assert forall k :: 0 <= k < |s.log| ==> Deserved(s', s.log[k]) by {
      assert forall k :: 0 <= k < |s.log| ==> Deserved(s, s.log[k]);
    }
  }

  lemma PublishKeeps(s: State)
    requires Inv(s)
    ensures Inv(Next(s, Publish))
  {
    var s' := Next(s, Publish);
    assert forall p :: InFlight(s', p) <==> InFlight(s, p);
    assert forall k :: 0 <= k < |s.log| ==> Deserved(s', s.log[k]) by {
      assert forall k :: 0 <= k < |s.log| ==> Deserved(s, s.log[k]);
    }
  }

  lemma TakeKeeps(s: State, i: nat, picked: set<Req>)
    requires Inv(s)
    ensures Inv(Next(s, Take(i, picked)))
  {
    var s' := Next(s, Take(i, picked));
    assert forall p :: InFlight(s', p) <==> InFlight(s, p);
    assert forall r :: Known(s, r) ==> Known(s', r);
    assert forall k :: 0 <= k < |s.log| ==> Deserved(s', s.log[k]) by {
      assert forall k :: 0 <= k < |s.log| ==> Deserved(s, s.log[k]);
    }
  }

  lemma DequeueKeeps(s: State, i: nat)
    requires Inv(s)
    ensures Inv(Next(s, Dequeue(i)))
  {
    var s' := Next(s, Dequeue(i));
    if s' != s {
      assert s.channel == [s.channel[0]] + s'.channel;
      forall p ensures InFlight(s', p) <==> InFlight(s, p) { }
      assert forall k :: 0 <= k < |s.log| ==> Deserved(s', s.log[k]) by {
        assert forall k :: 0 <= k < |s.log| ==> Deserved(s, s.log[k]);
      }
    }
  }

  /** With one worker the packet's request is always in one of the registries the
      drain looks into, so the verdict is the one it deserves. */
  lemma MatchKeeps(s: State, i: nat)
    requires Inv(s)
    ensures Inv(Next(s, Match(i)))
  {
    var s' := Next(s, Match(i));
    if s' != s {
      var p := s.workers[i].packet.value;
      assert InFlight(s, p) && Outstanding(s, p);
      var o := Outcome(p.ticket, Matches(s, s.workers[i], p));
      forall t { LoggedMore(s.log, o, t); }
      forall q ensures InFlight(s', q) <==> InFlight(s, q) && q != p { }
      assert Deserved(s', o) by { assert s'.sent[p.request] == p; }
      assert forall k :: 0 <= k < |s.log| ==> Deserved(s', s.log[k]) by {
        assert forall k :: 0 <= k < |s.log| ==> Deserved(s, s.log[k]);
      }
      forall k | 0 <= k < |s.log| ensures s.log[k].ticket != p.ticket { assert !Logged(s.log, p.ticket); }
    }
  }

  lemma StopKeeps(s: State, i: nat)
    requires Inv(s)
    ensures Inv(Next(s, StopDraining(i)))
  {
    var s' := Next(s, StopDraining(i));
    assert forall p :: InFlight(s', p) <==> InFlight(s, p);
    assert forall k :: 0 <= k < |s.log| ==> Deserved(s', s.log[k]) by {
      assert forall k :: 0 <= k < |s.log| ==> Deserved(s, s.log[k]);
    }
  }

  lemma ExecuteKeeps(s: State, i: nat, yielded: set<Req>, finished: set<Req>)
    requires Inv(s)
    ensures Inv(Next(s, Execute(i, yielded, finished)))
  {
    var s' := Next(s, Execute(i, yielded, finished));
    if s' != s {
      forall p ensures InFlight(s', p) <==> InFlight(s, p) { }
      forall p | InFlight(s, p) ensures Outstanding(s', p) { assert Outstanding(s, p); }
      assert forall k :: 0 <= k < |s.log| ==> Deserved(s', s.log[k]) by {
        assert forall k :: 0 <= k < |s.log| ==> Deserved(s, s.log[k]);
      }
    }
  }

  lemma StepKeeps(s: State, e: Event)
    requires Inv(s)
    ensures Inv(Next(s, e))
  {
    hide Inv;
    match e
    case Register(r, nPast) => RegisterKeeps(s, r, nPast);
    case Send => if s.publication.Registered? { if |s.channel| < s.capacity { SendKeeps(s); } else { RejectKeeps(s); } }
    case Publish => PublishKeeps(s);
    case Take(i, picked) => TakeKeeps(s, i, picked);
    case Dequeue(i) => DequeueKeeps(s, i);
    case Match(i) => MatchKeeps(s, i);
    case StopDraining(i) => StopKeeps(s, i);
    case Execute(i, yielded, finished) => ExecuteKeeps(s, i, yielded, finished);
  }

  lemma {:induction false} RunKeeps(s: State, events: seq<Event>)
    requires Inv(s)
    ensures Inv(Run(s, events))
    decreases |events|
  {
    hide Inv, Next;
    if events != [] {
      StepKeeps(s, events[0]);
      RunKeeps(Next(s, events[0]), events[1..]);
    }
  }

  /** No accepted packet that carries a position is ever timed out. */
  ghost predicate NeverTimedOut(s: State) {
    forall r, k :: r in s.sent && 0 <= k < |s.log| && s.log[k].ticket == s.sent[r].ticket && s.sent[r].nPast >= 0 ==>
        s.log[k].committed
  }

  /** With at most one decode worker, in every interleaving: no packet with a
      position times out, no ticket is decided twice, and once nothing is in
      flight every accepted packet has been decided. */
  lemma OneWorkerCommitsEveryPacket(workers: nat, capacity: nat, events: seq<Event>)
    requires workers <= 1
    ensures var s := Run(Start(workers, capacity), events);
            && NeverTimedOut(s)
            && (forall j, k :: 0 <= j < k < |s.log| ==> s.log[j].ticket != s.log[k].ticket)
            && (s.channel == [] && Only(s).packet.None? ==> forall r :: r in s.sent ==> Logged(s.log, s.sent[r].ticket))
  {
    RunKeeps(Start(workers, capacity), events);
    hide Run;
    var s := Run(Start(workers, capacity), events);
    forall r, k | r in s.sent && 0 <= k < |s.log| && s.log[k].ticket == s.sent[r].ticket && s.sent[r].nPast >= 0
      ensures s.log[k].committed
    {
      assert Deserved(s, s.log[k]);
    }
  }

  /** A request's packet is committed before its first decode step. */
  lemma CommittedBeforeTheFirstStep(workers: nat, capacity: nat, events: seq<Event>, e: Event, r: Req)
    requires workers <= 1
    requires var s := Run(Start(workers, capacity), events);
             r !in s.ran && r in Next(s, e).ran
    ensures var s := Run(Start(workers, capacity), events);
            r in s.sent && exists k ::
                0 <= k < |s.log| && s.log[k].ticket == s.sent[r].ticket && (s.sent[r].nPast >= 0 ==> s.log[k].committed)
  {
    RunKeeps(Start(workers, capacity), events);
    OneWorkerCommitsEveryPacket(workers, capacity, events);
    hide Run;
    var s := Run(Start(workers, capacity), events);
    assert r in Only(s).batch && Only(s).phase.Executing?;
    assert Logged(s.log, s.sent[r].ticket);
  }

  /** One request published, its packet in the channel, two idle workers. */
  predicate Published(s: State) {
    && |s.workers| >= 2 && s.workers[0] == Worker(Choosing, {}, None) && s.workers[1] == Worker(Choosing, {}, None)
    && s.channel == [Packet(1, 7, 0)] && s.sent == map[7 := Packet(1, 7, 0)] && s.log == []
    && 7 in s.pending && 7 !in s.publishing
  }

  lemma PublishesOne(workers: nat, capacity: nat)
    requires workers >= 2 && capacity >= 1
    ensures Published(Next(Next(Next(Start(workers, capacity), Register(7, 0)), Send), Publish))
  {
    var s1 := Next(Start(workers, capacity), Register(7, 0));
    assert s1.publication == Registered(Packet(1, 7, 0)) && s1.workers == Start(workers, capacity).workers;
    var s2 := Next(s1, Send);
    assert s2.channel == [Packet(1, 7, 0)] && s2.publication == Sent(7);
  }

  lemma StolenByTheOther(s: State)
    requires Published(s)
    ensures !NeverTimedOut(Next(Next(Next(Next(s, Take(0, {7})), Take(1, {})), Dequeue(1)), Match(1)))
  {
    var s1 := Next(s, Take(0, {7}));
    assert 7 !in s1.pending && s1.workers[1] == s.workers[1];
    var s2 := Next(s1, Take(1, {}));
    assert s2.workers[1].phase == Draining && 7 !in s2.workers[1].batch && 7 !in s2.pending && 7 !in s2.publishing;
    var s3 := Next(s2, Dequeue(1));
    var s4 := Next(s3, Match(1));
    assert s4.log == [Outcome(1, false)] && s4.sent[7].ticket == s4.log[0].ticket;
  }

  /** With a second worker, one worker's drain can take the packet of a request
      that sits in the other worker's batch, and times it out. */
  lemma TwoWorkersTimeOutAPacket(workers: nat, capacity: nat)
    requires workers >= 2 && capacity >= 1
    ensures !NeverTimedOut(Run(Start(workers, capacity),
        [Register(7, 0), Send, Publish, Take(0, {7}), Take(1, {}), Dequeue(1), Match(1)]))
  {
    PublishesOne(workers, capacity);
    StolenByTheOther(Next(Next(Next(Start(workers, capacity), Register(7, 0)), Send), Publish));
    hide Next, NeverTimedOut, Run;
    SevenSteps(Start(workers, capacity),
        [Register(7, 0), Send, Publish, Take(0, {7}), Take(1, {}), Dequeue(1), Match(1)]);
  }

  lemma SevenSteps(s: State, events: seq<Event>)
    requires |events| == 7
    ensures Run(s, events) ==
        Next(Next(Next(Next(Next(Next(Next(s, events[0]), events[1]), events[2]), events[3]), events[4]), events[5]),
            events[6])
  {
    hide Next;
    var s1 := Next(s, events[0]);
    var s2 := Next(s1, events[1]);
    var s3 := Next(s2, events[2]);
    var s4 := Next(s3, events[3]);
    var s5 := Next(s4, events[4]);
    var s6 := Next(s5, events[5]);
    assert Run(s6, events[6..]) == Next(s6, events[6]);
    assert Run(s4, events[4..]) == Run(s6, events[6..]);
    assert Run(s2, events[2..]) == Run(s4, events[4..]);
  }

  /** Exactly: the hand-off is safe on all runs if and only if there is at most one
      decode worker. */
  lemma SafeIffOneWorker(workers: nat, capacity: nat)
    requires capacity >= 1
    ensures (forall events :: NeverTimedOut(Run(Start(workers, capacity), events))) <==> workers <= 1
  {
    hide Run, NeverTimedOut;
    if workers <= 1 {
      forall events
        ensures NeverTimedOut(Run(Start(workers, capacity), events))
      {
        OneWorkerCommitsEveryPacket(workers, capacity, events);
      }
    } else {
      TwoWorkersTimeOutAPacket(workers, capacity);
    }
  }

  // ---- nobody is lost, with any number of workers ----

  datatype Place = BeingPublished | Waiting | InBatch(worker: nat) | Done

  predicate At(s: State, r: Req, place: Place) {
    match place
    case BeingPublished => r in s.publishing
    case Waiting => r in s.pending
    case InBatch(i) => i < |s.workers| && r in s.workers[i].batch
    case Done => r in s.finished
  }

  /** In one place at most; in one exactly if it was accepted; and a request that was
      not is only where it is being published. */
  ghost predicate Placed(s: State, r: Req) {
    && (forall p, q :: At(s, r, p) && At(s, r, q) ==> p == q)
    && (r in s.sent ==> exists p :: At(s, r, p))
    && (r !in s.sent ==> forall p :: At(s, r, p) ==> p.BeingPublished?)
  }

  /** The one publication under way is all there is in the registry. */
  predicate OnePublication(s: State) {
    match s.publication
    case Quiet => s.publishing == {}
    case Registered(p) => s.publishing == {p.request} && p.request !in s.sent
    case Sent(r) => s.publishing == {r} && r in s.sent
    case Rejected(r) => s.publishing == {r} && r !in s.sent
  }

  ghost predicate Kept(s: State) { OnePublication(s) && forall r :: Placed(s, r) }

  lemma PlacedStays(s: State, s': State, r: Req)
    requires Placed(s, r) && (r in s'.sent <==> r in s.sent)
    requires forall p :: At(s', r, p) <==> At(s, r, p)
    ensures Placed(s', r)
  {
    if p :| At(s, r, p) { assert At(s', r, p); }
  }

  /** Moving from one place to another. */
  lemma PlacedMoves(s: State, s': State, r: Req, from: Place, to: Place)
    requires Placed(s, r) && At(s, r, from) && At(s', r, to) && r in s'.sent
    requires forall p :: At(s', r, p) ==> p == to || (p != from && At(s, r, p))
    ensures Placed(s', r)
  {
  }

  lemma PublicationKeeps(s: State, e: Event)
    requires Kept(s) && (e.Register? || e.Send? || e.Publish?)
    ensures Kept(Next(s, e))
  {
    var s' := Next(s, e);
    forall r ensures Placed(s', r) {
      assert Placed(s, r);
      if e.Register? && s' != s && r == e.request {
        assert forall p :: At(s', r, p) ==> p == BeingPublished by {
          assert forall p :: At(s', r, p) ==> p.BeingPublished? || At(s, r, p);
        }
      } else if e.Publish? && s.publication.Sent? && r == s.publication.request {
        assert At(s, r, BeingPublished) && At(s', r, Waiting);
        PlacedMoves(s, s', r, BeingPublished, Waiting);
      } else if e.Publish? && s.publication.Rejected? && r == s.publication.request {
        assert forall p :: At(s', r, p) ==> At(s, r, p);
      } else if e.Send? && s'.publication.Sent? && r == s'.publication.request {
        assert At(s', r, BeingPublished);
        assert forall p :: At(s', r, p) <==> At(s, r, p);
      } else {
        assert forall p :: At(s', r, p) <==> At(s, r, p);
        PlacedStays(s, s', r);
      }
    }
  }

  lemma TakeKeepsAll(s: State, i: nat, picked: set<Req>)
    requires Kept(s)
    ensures Kept(Next(s, Take(i, picked)))
  {
    var s' := Next(s, Take(i, picked));
    forall r ensures Placed(s', r) {
      assert Placed(s, r);
      if s' != s && r in s.pending && r in picked {
        assert At(s, r, Waiting) && At(s', r, InBatch(i));
        PlacedMoves(s, s', r, Waiting, InBatch(i));
      } else {
        assert forall p :: At(s', r, p) <==> At(s, r, p);
        PlacedStays(s, s', r);
      }
    }
  }

  lemma ExecuteKeepsAll(s: State, i: nat, yielded: set<Req>, finished: set<Req>)
    requires Kept(s)
    ensures Kept(Next(s, Execute(i, yielded, finished)))
  {
    var s' := Next(s, Execute(i, yielded, finished));
    forall r ensures Placed(s', r) {
      assert Placed(s, r);
      if s' != s && r in s.workers[i].batch && (r in yielded || r in finished) {
        var to := if r in yielded then Waiting else Done;
        assert At(s, r, InBatch(i)) && At(s', r, to);
        PlacedMoves(s, s', r, InBatch(i), to);
      } else {
        assert forall p :: At(s', r, p) <==> At(s, r, p);
        PlacedStays(s, s', r);
      }
    }
  }

  lemma StepKeepsAll(s: State, e: Event)
    requires Kept(s)
    ensures Kept(Next(s, e))
  {
    match e
    case Take(i, picked) => TakeKeepsAll(s, i, picked);
    case Execute(i, yielded, finished) => ExecuteKeepsAll(s, i, yielded, finished);
    case Dequeue(i) => DrainKeepsAll(s, e);
    case Match(i) => DrainKeepsAll(s, e);
    case StopDraining(i) => DrainKeepsAll(s, e);
    case _ => PublicationKeeps(s, e);
  }

  lemma DrainKeepsAll(s: State, e: Event)
    requires Kept(s) && (e.Dequeue? || e.Match? || e.StopDraining?)
    ensures Kept(Next(s, e))
  {
    var s' := Next(s, e);
    forall r ensures Placed(s', r) {
      assert Placed(s, r);
      assert forall p :: At(s', r, p) <==> At(s, r, p);
      PlacedStays(s, s', r);
    }
  }

  lemma {:induction false} RunKeepsAll(s: State, events: seq<Event>)
    requires Kept(s)
    ensures Kept(Run(s, events))
    decreases |events|
  {
    hide Kept, Next;
    if events != [] {
      StepKeepsAll(s, events[0]);
      RunKeepsAll(Next(s, events[0]), events[1..]);
    }
  }

  /** On every run, with any number of workers, every accepted request is in exactly
      one place: being published, waiting, in one worker's batch, or finished. One
      that was rejected, or never offered, is in none. */
  lemma NobodyIsLost(workers: nat, capacity: nat, events: seq<Event>, r: Req)
    ensures var s := Run(Start(workers, capacity), events);
            && (forall p, q :: At(s, r, p) && At(s, r, q) ==> p == q)
            && (r in s.sent ==> exists p :: At(s, r, p))
            && (r !in s.sent && s.publication.Quiet? ==> forall p :: !At(s, r, p))
  {
    RunKeepsAll(Start(workers, capacity), events);
    assert Placed(Run(Start(workers, capacity), events), r);
  }

  /** A decode step sends the yielded back to the queue, retires the finished, and
      keeps the others. */
  lemma ExecuteSorts(s: State, i: nat, yielded: set<Req>, finished: set<Req>, r: Req)
    requires i < |s.workers| && s.workers[i].phase.Executing? && r in s.workers[i].batch
    ensures var s' := Next(s, Execute(i, yielded, finished));
            && r in s'.ran && s'.workers[i].phase.Choosing?
            && At(s', r, if r in yielded then Waiting else if r in finished then Done else InBatch(i))
  {
  }

  // ---- the channel ----

  /** A packet is accepted if and only if the channel has room, at its end. */
  lemma AcceptedIffRoom(s: State)
    requires s.publication.Registered?
    ensures var s', p, room := Next(s, Send), s.publication.packet, |s.channel| < s.capacity;
            && s'.publication == (if room then Sent(p.request) else Rejected(p.request))
            && s'.channel == (if room then s.channel + [p] else s.channel)
            && (p.request in s'.sent <==> room || p.request in s.sent)
  {
  }

  /** Everything on its way, oldest first: decided, in the worker's hands, queued,
      about to be sent. */
  function OnTheWay(s: State): seq<nat> {
    seq(|s.log|, k requires 0 <= k < |s.log| => s.log[k].ticket)
    + (if Only(s).packet.Some? then [Only(s).packet.value.ticket] else [])
    + seq(|s.channel|, k requires 0 <= k < |s.channel| => s.channel[k].ticket)
    + (if s.publication.Registered? then [s.publication.packet.ticket] else [])
  }

  /** The worker holds a packet only while it drains. */
  predicate HandsFree(s: State) { Only(s).packet.Some? ==> Only(s).phase.Draining? }

  ghost predicate InOrder(s: State) {
    && |s.workers| <= 1 && |s.channel| <= s.capacity && HandsFree(s) && Increasing(OnTheWay(s))
    && forall k :: 0 <= k < |OnTheWay(s)| ==> OnTheWay(s)[k] <= s.tickets
  }

  /** Tickets queue up behind the others; only the last one can be dropped. */
  lemma MovesOn(s: State, e: Event)
    requires |s.workers| <= 1 && |s.channel| <= s.capacity && HandsFree(s)
    ensures var s' := Next(s, e);
            && HandsFree(s') && |s'.workers| == |s.workers| && s'.capacity == s.capacity && |s'.channel| <= s'.capacity
            && (|| (OnTheWay(s') == OnTheWay(s) && s'.tickets == s.tickets)
                || (OnTheWay(s') == OnTheWay(s) + [s.tickets + 1] && s'.tickets == s.tickets + 1)
                || (|OnTheWay(s)| > 0 && OnTheWay(s') == OnTheWay(s)[..|OnTheWay(s)| - 1] && s'.tickets == s.tickets))
  {
    match e
    case Register(r, nPast) => RegisterMovesOn(s, r, nPast);
    case Send => SendMovesOn(s);
    case Dequeue(i) => DequeueMovesOn(s, i);
    case Match(i) => MatchMovesOn(s, i);
    case _ => assert OnTheWay(Next(s, e)) == OnTheWay(s);
  }

  lemma RegisterMovesOn(s: State, r: Req, nPast: int)
    ensures var s' := Next(s, Register(r, nPast));
            s' == s || OnTheWay(s') == OnTheWay(s) + [s.tickets + 1]
  {
  }

  lemma SendMovesOn(s: State)
    ensures var s' := Next(s, Send);
            || OnTheWay(s') == OnTheWay(s)
            || (|OnTheWay(s)| > 0 && OnTheWay(s') == OnTheWay(s)[..|OnTheWay(s)| - 1])
  {
  }

  lemma DequeueMovesOn(s: State, i: nat)
    requires |s.workers| <= 1
    ensures OnTheWay(Next(s, Dequeue(i))) == OnTheWay(s)
  {
  }

  lemma MatchMovesOn(s: State, i: nat)
    requires |s.workers| <= 1
    ensures OnTheWay(Next(s, Match(i))) == OnTheWay(s)
  {
  }

  lemma StaysInOrder(s: State, e: Event)
    requires InOrder(s)
    ensures InOrder(Next(s, e))
  {
    hide OnTheWay, Next, HandsFree;
    MovesOn(s, e);
  }

  lemma {:induction false} RunStaysInOrder(s: State, events: seq<Event>)
    requires InOrder(s)
    ensures InOrder(Run(s, events))
    decreases |events|
  {
    hide InOrder, Next;
    if events != [] {
      StaysInOrder(s, events[0]);
      RunStaysInOrder(Next(s, events[0]), events[1..]);
    }
  }

  /** With one decode worker packets are decided in the order they were sent, and the
      channel never holds more than its capacity. */
  lemma DecidedInOrder(workers: nat, capacity: nat, events: seq<Event>)
    requires workers <= 1
    ensures var s := Run(Start(workers, capacity), events);
            && (forall j, k :: 0 <= j < k < |s.log| ==> s.log[j].ticket < s.log[k].ticket)
            && |s.channel| <= capacity
  {
    hide Run;
    CapacityStays(Start(workers, capacity), events);
    RunStaysInOrder(Start(workers, capacity), events);
    var s := Run(Start(workers, capacity), events);
    forall j, k | 0 <= j < k < |s.log| ensures s.log[j].ticket < s.log[k].ticket {
      assert OnTheWay(s)[j] == s.log[j].ticket && OnTheWay(s)[k] == s.log[k].ticket;
    }
  }

  lemma {:induction false} CapacityStays(s: State, events: seq<Event>)
    ensures Run(s, events).capacity == s.capacity
    decreases |events|
  {
    if events != [] { CapacityStays(Next(s, events[0]), events[1..]); }
  }

  // ---- nobody is stuck ----

  function Drains(n: nat): seq<Event> { if n == 0 then [] else [Dequeue(0), Match(0)] + Drains(n - 1) }

  lemma {:induction false} RunJoins(s: State, a: seq<Event>, b: seq<Event>)
    ensures Run(s, a + b) == Run(Run(s, a), b)
    decreases |a|
  {
    hide Next;
    if a == [] {
      assert a + b == b;
    } else {
      assert (a + b)[1..] == a[1..] + b;
      RunJoins(Next(s, a[0]), a[1..], b);
    }
  }

  lemma RunOne(s: State, e: Event)
    ensures Run(s, [e]) == Next(s, e)
  {
    hide Next;
    assert [e][1..] == [];
  }

  /** A draining worker empties the channel. */
  lemma {:induction false} DrainsAll(s: State)
    requires |s.workers| == 1 && s.workers[0].phase.Draining? && s.workers[0].packet.None?
    ensures var s' := Run(s, Drains(|s.channel|));
            s'.channel == [] && s'.workers == s.workers && s'.pending == s.pending
    decreases |s.channel|
  {
    if s.channel != [] {
      var s1 := Next(s, Dequeue(0));
      var s2 := Next(s1, Match(0));
      assert s2.workers == s.workers && s2.channel == s.channel[1..] && s2.pending == s.pending;
      DrainsAll(s2);
      hide Next;
      assert Drains(|s.channel|) == [Dequeue(0), Match(0)] + Drains(|s2.channel|);
      RunJoins(s, [Dequeue(0), Match(0)], Drains(|s2.channel|));
      assert [Dequeue(0), Match(0)] == [Dequeue(0)] + [Match(0)];
      RunJoins(s, [Dequeue(0)], [Match(0)]);
      RunOne(s, Dequeue(0));
      RunOne(s1, Match(0));
    }
  }

  /** From draining, the worker can execute its batch. */
  lemma Executes(s: State, finished: set<Req>) returns (events: seq<Event>)
    requires |s.workers| == 1 && s.workers[0].phase.Draining? && s.workers[0].packet.None?
    ensures var s' := Run(s, events);
            && |s'.workers| == 1 && s'.workers[0].phase.Choosing? && s'.workers[0].packet.None?
            && s'.pending == s.pending && s.workers[0].batch * finished <= s'.finished
  {
    var n := Drains(|s.channel|);
    DrainsAll(s);
    var s1 := Run(s, n);
    var s2 := Next(s1, StopDraining(0));
    var s3 := Next(s2, Execute(0, {}, finished));
    assert s2.workers[0] == s.workers[0].(phase := Executing);
    assert s3.pending == s.pending + s.workers[0].batch * {};
    assert s3.workers[0].phase.Choosing? && s.workers[0].batch * finished <= s3.finished;
    hide Next, Drains;
    RunOne(s1, StopDraining(0));
    RunOne(s2, Execute(0, {}, finished));
    RunJoins(s, n, [StopDraining(0)]);
    RunJoins(s, n + [StopDraining(0)], [Execute(0, {}, finished)]);
    events := n + [StopDraining(0)] + [Execute(0, {}, finished)];
  }

  /** The worker can always get back to choosing, with the same requests waiting. */
  lemma Chooses(s: State) returns (events: seq<Event>)
    requires |s.workers| == 1 && (s.workers[0].packet.Some? ==> s.workers[0].phase.Draining?)
    ensures var s' := Run(s, events);
            |s'.workers| == 1 && s'.workers[0].phase.Choosing? && s'.workers[0].packet.None? && s'.pending == s.pending
  {
    if s.workers[0].phase.Choosing? {
      events := [];
    } else if s.workers[0].phase.Executing? {
      events := [Execute(0, {}, {})];
      RunOne(s, events[0]);
      assert s.pending + s.workers[0].batch * {} == s.pending;
    } else if s.workers[0].packet.None? {
      events := Executes(s, {});
    } else {
      var s1 := Next(s, Match(0));
      assert s1.workers[0].packet.None? && s1.pending == s.pending;
      var more := Executes(s1, {});
      RunOne(s, Match(0));
      RunJoins(s, [Match(0)], more);
      events := [Match(0)] + more;
    }
  }

  /** With one decode worker, whatever has happened, a waiting request can still be
      taken up, decided and finished. */
  lemma NobodyIsStuck(capacity: nat, events: seq<Event>, r: Req)
    requires r in Run(Start(1, capacity), events).pending
    ensures exists more :: r in Run(Start(1, capacity), events + more).finished
  {
    var s := Run(Start(1, capacity), events);
    RunKeeps(Start(1, capacity), events);
    WorkersStay(Start(1, capacity), events);
    assert Only(s) == s.workers[0];
    hide Run;
    var a := Chooses(s);
    var s1 := Run(s, a);
    var s2 := Next(s1, Take(0, {r}));
    assert s2.workers[0].phase.Draining? && r in s2.workers[0].batch * {r};
    var b := Executes(s2, {r});
    RunOne(s1, Take(0, {r}));
    RunJoins(s, a, [Take(0, {r})]);
    RunJoins(s, a + [Take(0, {r})], b);
    var more := a + [Take(0, {r})] + b;
    RunJoins(Start(1, capacity), events, more);
    assert r in Run(Start(1, capacity), events + more).finished;
  }

  lemma {:induction false} WorkersStay(s: State, events: seq<Event>)
    ensures |Run(s, events).workers| == |s.workers|
    decreases |events|
  {
    if events != [] { WorkersStay(Next(s, events[0]), events[1..]); }
  }

  /** A worker takes the requests it picked out of those waiting, and a published
      request waits. */
  lemma TakingAndPublishing(s: State, i: nat, picked: set<Req>, r: Req)
    ensures i < |s.workers| && s.workers[i].phase.Choosing? && r in s.pending ==>
            var s' := Next(s, Take(i, picked));
            At(s', r, if r in picked then InBatch(i) else Waiting) && s'.workers[i].phase.Draining?
    ensures s.publication == Sent(r) ==> var s' := Next(s, Publish); At(s', r, Waiting) && s'.publication.Quiet?
    ensures s.publication.Quiet? && r !in s.sent && r !in s.publishing ==>
            forall nPast :: var s' := Next(s, Register(r, nPast));
              s'.publication == Registered(Packet(s.tickets + 1, r, nPast)) && At(s', r, BeingPublished)
  {
  }
}
