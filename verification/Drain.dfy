/** Sending the answers of a query that has several (`MultiResponseQueryHandler`): chains of sends
    share a queue and a stop flag. Each chain repeats: look at the flag, pop, send, and go on from
    the callback of the send. The chains' steps interleave in any order.

    A send is the result callback of a request proxy, which fires at most once
    (`Request.CallbackOnce`); here that is the set `fired`. */
module Drain {

  type Message = string

  /** Where a chain is. Positions count from the front of the original queue. */
  datatype Pc =
    | Unstarted
    | AtCheck
    | AtPop
    | Holding(item: nat)   // popped, not yet sent
    | Waiting(item: nat)   // sent, callback outstanding
    | Ended

  /** How a send came out: the proxy's status and reply code. */
  datatype Outcome = Outcome(succeeded: bool, replyCode: int)

  datatype State = State(
    remaining: seq<Message>, stop: bool, alive: bool, ignore4xx: bool,
    chains: seq<Pc>, started: nat, launching: bool,
    popped: seq<Message>, sent: seq<nat>, lost: seq<nat>, fired: set<nat>)

  datatype Event =
    | Start                                           // the handler's loop starts the next chain
    | Check(i: nat)
    | Pop(i: nat)
    | Send(i: nat)
    | Fire(i: nat, item: nat, outcome: Outcome)       // the callback of the send of `item`
    | PlatformGone

  /** Zero means one chain; a negative number starts none. */
  function ChainCount(concurrency: int): nat {
    if concurrency == 0 then 1 else if concurrency < 0 then 0 else concurrency
  }

  function Init(queue: seq<Message>, concurrency: int, ignore4xx: bool): State {
    State(queue, false, true, ignore4xx, seq(ChainCount(concurrency), i => Unstarted), 0, false, [], [], [], {})
  }

  /** Whether the chain goes on after a send: success, or a client error that is to be ignored. */
  predicate GoesOn(ignore4xx: bool, o: Outcome) {
    o.succeeded || (ignore4xx && 400 <= o.replyCode < 500 && o.replyCode != 408)
  }

  predicate Enabled(s: State, e: Event) {
    match e
    case Start => s.started < |s.chains| && !s.launching && s.chains[s.started] == Unstarted
    case Check(i) => i < |s.chains| && s.chains[i] == AtCheck
    case Pop(i) => i < |s.chains| && s.chains[i] == AtPop
    case Send(i) => i < |s.chains| && s.chains[i].Holding?
    case Fire(i, item, _) => i < |s.chains| && s.chains[i] == Waiting(item) && item !in s.fired
    case PlatformGone => s.alive
  }

  /** Chain `i` moves; reaching a send or its end hands control back to the starting loop. */
  function Move(s: State, i: nat, pc: Pc): State
    requires i < |s.chains|
  {
    s.(chains := s.chains[i := pc],
       launching := s.launching && !(i + 1 == s.started && (pc.Waiting? || pc.Ended?)))
  }

  /** A step; an event that is not enabled does nothing. */
  function Next(s: State, e: Event): State {
    if !Enabled(s, e) then s
    else match e
      case Start => s.(chains := s.chains[s.started := AtCheck], started := s.started + 1, launching := true)
      case Check(i) => Move(s, i, if s.stop then Ended else AtPop)
      case Pop(i) =>
        if s.remaining == [] then Move(s, i, Ended).(stop := true)
        else Move(s, i, Holding(|s.popped|)).(remaining := s.remaining[1..], popped := s.popped + [s.remaining[0]])
      case Send(i) =>
        var k := s.chains[i].item;
        if s.alive then Move(s, i, Waiting(k)).(sent := s.sent + [k])
        else Move(s, i, Ended).(stop := true, lost := s.lost + [k])
      case Fire(i, k, o) =>
        if GoesOn(s.ignore4xx, o) then Move(s, i, AtCheck).(fired := s.fired + {k})
        else Move(s, i, Ended).(fired := s.fired + {k}, stop := true)
      case PlatformGone => s.(alive := false)
  }

  function Execute(s: State, es: seq<Event>): State {
    if es == [] then s else Next(Execute(s, es[..|es| - 1]), es[|es| - 1])
  }

  // ----- counting chains -----

  function Count(chains: seq<Pc>, p: Pc -> bool): (n: nat)
    ensures n <= |chains|
  {
    if chains == [] then 0
    else Count(chains[..|chains| - 1], p) + if p(chains[|chains| - 1]) then 1 else 0
  }

  lemma {:induction false} CountUpdate(chains: seq<Pc>, p: Pc -> bool, i: nat, pc: Pc)
    requires i < |chains|
    ensures Count(chains[i := pc], p) == Count(chains, p) - (if p(chains[i]) then 1 else 0) + (if p(pc) then 1 else 0)
  {
    var n := |chains| - 1;
    var after := chains[i := pc];
    if i == n {
      assert after[..n] == chains[..n];
    } else {
      assert after[..n] == chains[..n][i := pc];
      CountUpdate(chains[..n], p, i, pc);
    }
  }

  lemma {:induction false} CountNone(chains: seq<Pc>, p: Pc -> bool)
    requires forall i :: 0 <= i < |chains| ==> !p(chains[i])
    ensures Count(chains, p) == 0
  {
    if chains != [] { CountNone(chains[..|chains| - 1], p); }
  }

  const IsWaiting: Pc -> bool := (pc: Pc) => pc.Waiting?
  const IsAtPop: Pc -> bool := (pc: Pc) => pc == AtPop

  // ----- safety -----

  predicate Distinct(a: seq<nat>) {
    forall i, j :: 0 <= i < j < |a| ==> a[i] != a[j]
  }

  /** The queue is taken from the front, and every popped response is in exactly one place. */
  ghost predicate Conserved(s: State, queue: seq<Message>) {
    && s.popped + s.remaining == queue
    && Distinct(s.sent) && Distinct(s.lost)
    && (forall k :: k in s.sent ==> k < |s.popped| && k !in s.lost)
    && (forall k :: k in s.lost ==> k < |s.popped|)
    && (forall i :: 0 <= i < |s.chains| && s.chains[i].Holding? ==>
          s.chains[i].item < |s.popped| && s.chains[i].item !in s.sent && s.chains[i].item !in s.lost)
    && (forall i, j :: 0 <= i < j < |s.chains| && s.chains[i].Holding? && s.chains[j].Holding? ==>
          s.chains[i].item != s.chains[j].item)
    && (forall k :: 0 <= k < |s.popped| ==> k in s.sent || k in s.lost || Holding(k) in s.chains)
  }

  /** A callback has fired for every send no chain is waiting for, and for no other. */
  ghost predicate Tracked(s: State) {
    && (forall k :: k in s.fired ==> k in s.sent)
    && (forall i :: 0 <= i < |s.chains| && s.chains[i].Waiting? ==> s.chains[i].item in s.sent && s.chains[i].item !in s.fired)
    && (forall i, j :: 0 <= i < j < |s.chains| && s.chains[i].Waiting? && s.chains[j].Waiting? ==>
          s.chains[i].item != s.chains[j].item)
    && |s.sent| == |s.fired| + Count(s.chains, IsWaiting)
  }

  ghost predicate Safe(s: State, queue: seq<Message>) {
    Conserved(s, queue) && Tracked(s)
  }

  lemma StayedIn(chains: seq<Pc>, i: nat, pc: Pc, k: nat)
    requires i < |chains| && Holding(k) in chains && chains[i] != Holding(k)
    ensures Holding(k) in chains[i := pc]
  {
    var j :| 0 <= j < |chains| && chains[j] == Holding(k);
    assert chains[i := pc][j] == Holding(k);
  }

  /** A chain moving between places where it holds nothing. */
  lemma ConservedMove(s: State, t: State, i: nat, pc: Pc, queue: seq<Message>)
    requires Conserved(s, queue) && i < |s.chains| && !s.chains[i].Holding? && !pc.Holding?
    requires t.chains == s.chains[i := pc]
    requires t.popped == s.popped && t.remaining == s.remaining && t.sent == s.sent && t.lost == s.lost
    ensures Conserved(t, queue)
  {
    forall k | 0 <= k < |t.popped| ensures k in t.sent || k in t.lost || Holding(k) in t.chains {
      if Holding(k) in s.chains { StayedIn(s.chains, i, pc, k); }
    }
  }

  lemma ConservedPop(s: State, i: nat, queue: seq<Message>)
    requires Conserved(s, queue) && Enabled(s, Pop(i)) && s.remaining != []
    ensures Conserved(Next(s, Pop(i)), queue)
  {
    var t := Next(s, Pop(i));
    var n := |s.popped|;
    assert t.chains == s.chains[i := Holding(n)];
    assert t.chains[i] in t.chains;
    assert s.remaining == [s.remaining[0]] + s.remaining[1..];
    assert t.popped + t.remaining == s.popped + s.remaining;
    forall k | 0 <= k < |t.popped| ensures k in t.sent || k in t.lost || Holding(k) in t.chains {
      if k < n && Holding(k) in s.chains { StayedIn(s.chains, i, Holding(n), k); }
    }
  }

  /** The response in hand goes out, or is lost. */
  lemma ConservedSend(s: State, i: nat, queue: seq<Message>)
    requires Conserved(s, queue) && Enabled(s, Send(i))
    ensures Conserved(Next(s, Send(i)), queue)
  {
    var t := Next(s, Send(i));
    var n := s.chains[i].item;
    assert t.chains == s.chains[i := t.chains[i]] && !t.chains[i].Holding?;
    assert (t.sent == s.sent + [n] && t.lost == s.lost) || (t.sent == s.sent && t.lost == s.lost + [n]);
    assert forall k :: k in t.sent ==> k in s.sent || k == n;
    assert forall k :: k in t.lost ==> k in s.lost || k == n;
    assert n in s.sent + [n] && n in s.lost + [n];
    forall k | 0 <= k < |t.popped| ensures k in t.sent || k in t.lost || Holding(k) in t.chains {
      if k != n && Holding(k) in s.chains { StayedIn(s.chains, i, t.chains[i], k); }
    }
  }

  lemma Idle(s: State, e: Event)
    requires !Enabled(s, e)
    ensures Next(s, e) == s
  {}

  lemma ConservedCheck(s: State, i: nat, queue: seq<Message>)
    requires Conserved(s, queue) && Enabled(s, Check(i))
    ensures Conserved(Next(s, Check(i)), queue)
  {
    hide Conserved;
    ConservedMove(s, Next(s, Check(i)), i, Next(s, Check(i)).chains[i], queue);
  }

  lemma ConservedStart(s: State, queue: seq<Message>)
    requires Conserved(s, queue) && Enabled(s, Start)
    ensures Conserved(Next(s, Start), queue)
  {
    hide Conserved;
    ConservedMove(s, Next(s, Start), s.started, AtCheck, queue);
  }

  lemma ConservedFire(s: State, i: nat, k: nat, o: Outcome, queue: seq<Message>)
    requires Conserved(s, queue) && Enabled(s, Fire(i, k, o))
    ensures Conserved(Next(s, Fire(i, k, o)), queue)
  {
    hide Conserved;
    ConservedMove(s, Next(s, Fire(i, k, o)), i, Next(s, Fire(i, k, o)).chains[i], queue);
  }

  lemma ConservedEmpty(s: State, i: nat, queue: seq<Message>)
    requires Conserved(s, queue) && Enabled(s, Pop(i)) && s.remaining == []
    ensures Conserved(Next(s, Pop(i)), queue)
  {
    hide Conserved;
    ConservedMove(s, Next(s, Pop(i)), i, Ended, queue);
  }

  lemma ConservedNext(s: State, e: Event, queue: seq<Message>)
    requires Conserved(s, queue)
    ensures Conserved(Next(s, e), queue)
  {
    hide Conserved, Next, Enabled;
    if Enabled(s, e) {
      match e
      case Start => ConservedStart(s, queue);
      case Check(i) => ConservedCheck(s, i, queue);
      case Pop(i) => if s.remaining == [] { ConservedEmpty(s, i, queue); } else { ConservedPop(s, i, queue); }
      case Send(i) => ConservedSend(s, i, queue);
      case Fire(i, k, o) => ConservedFire(s, i, k, o, queue);
      case PlatformGone => ConservedGone(s, queue);
    } else {
      Idle(s, e);
    }
  }

  lemma ConservedGone(s: State, queue: seq<Message>)
    requires Conserved(s, queue)
    ensures Conserved(Next(s, PlatformGone), queue)
  {}

  lemma TrackedMove(s: State, t: State, i: nat, pc: Pc)
    requires Tracked(s) && i < |s.chains| && !s.chains[i].Waiting? && !pc.Waiting?
    requires t.chains == s.chains[i := pc] && t.sent == s.sent && t.fired == s.fired
    ensures Tracked(t)
  {
    CountUpdate(s.chains, IsWaiting, i, pc);
  }

  lemma TrackedSend(s: State, i: nat, queue: seq<Message>)
    requires Safe(s, queue) && Enabled(s, Send(i)) && s.alive
    ensures Tracked(Next(s, Send(i)))
  {
    hide Distinct;
    var t := Next(s, Send(i));
    var n := s.chains[i].item;
    CountUpdate(s.chains, IsWaiting, i, Waiting(n));
    assert t.chains == s.chains[i := Waiting(n)] && t.sent == s.sent + [n] && t.fired == s.fired;
    assert n in t.sent && forall k :: k in s.sent ==> k in t.sent;
  }

  /** The callback of the send of `k` fires; its chain goes on or ends. */
  lemma TrackedFire(s: State, t: State, i: nat, k: nat, pc: Pc)
    requires Tracked(s) && i < |s.chains| && s.chains[i] == Waiting(k) && !pc.Waiting?
    requires t.chains == s.chains[i := pc] && t.sent == s.sent && t.fired == s.fired + {k}
    ensures Tracked(t)
  {
    CountUpdate(s.chains, IsWaiting, i, pc);
    assert k !in s.fired && |s.fired + {k}| == |s.fired| + 1;
  }

  /** Steps that neither send nor fire a callback. */
  lemma TrackedQuiet(s: State, e: Event)
    requires Tracked(s) && Enabled(s, e) && (e.Start? || e.Check? || e.Pop? || (e.Send? && !s.alive))
    ensures Tracked(Next(s, e))
  {
    hide Tracked;
    var i := if e.Start? then s.started else e.i;
    TrackedMove(s, Next(s, e), i, Next(s, e).chains[i]);
  }

  lemma TrackedCallback(s: State, i: nat, k: nat, o: Outcome)
    requires Tracked(s) && Enabled(s, Fire(i, k, o))
    ensures Tracked(Next(s, Fire(i, k, o)))
  {
    hide Tracked;
    TrackedFire(s, Next(s, Fire(i, k, o)), i, k, Next(s, Fire(i, k, o)).chains[i]);
  }

  lemma TrackedNext(s: State, e: Event, queue: seq<Message>)
    requires Safe(s, queue)
    ensures Tracked(Next(s, e))
  {
    hide Tracked, Conserved, Next, Enabled;
    if Enabled(s, e) {
      match e
      case Send(i) => if s.alive { TrackedSend(s, i, queue); } else { TrackedQuiet(s, e); }
      case Fire(i, k, o) => TrackedCallback(s, i, k, o);
      case PlatformGone => TrackedGone(s);
      case _ => TrackedQuiet(s, e);
    } else {
      Idle(s, e);
    }
  }

  lemma TrackedGone(s: State)
    requires Tracked(s)
    ensures Tracked(Next(s, PlatformGone))
  {}

  /** Over every interleaving: the responses popped are a prefix of the queue in order, what was
      popped is sent once, lost to a destroyed platform, or in some chain's hands, and never more
      sends are outstanding than there are chains. */
  lemma {:induction false} DrainSafety(queue: seq<Message>, concurrency: int, ignore4xx: bool, es: seq<Event>)
    ensures var s := Execute(Init(queue, concurrency, ignore4xx), es);
            && Safe(s, queue)
            && |s.chains| == (if concurrency == 0 then 1 else if concurrency < 0 then 0 else concurrency)
            && |s.sent| - |s.fired| <= (if concurrency <= 1 then 1 else concurrency)
  {
    var s0 := Init(queue, concurrency, ignore4xx);
    if es == [] {
      CountNone(s0.chains, IsWaiting);
      assert [] + queue == queue;
    } else {
      hide Conserved, Next;
      var before := es[..|es| - 1];
      DrainSafety(queue, concurrency, ignore4xx, before);
      var s := Execute(s0, before);
      ConservedNext(s, es[|es| - 1], queue);
      TrackedNext(s, es[|es| - 1], queue);
      SameChains(s, es[|es| - 1]);
    }
  }

  lemma SameChains(s: State, e: Event)
    ensures |Next(s, e).chains| == |s.chains|
  {}

  // ----- order of the sends -----

  predicate InOrder(sent: seq<nat>) {
    forall i :: 0 <= i < |sent| ==> sent[i] == i
  }

  /** With one chain, what was sent is all that was popped but the item in hand. */
  ghost predicate OneChain(s: State) {
    && |s.chains| <= 1
    && InOrder(s.sent)
    && (|s.chains| == 1 && s.chains[0].Holding? ==> |s.popped| == |s.sent| + 1 && s.chains[0].item == |s.sent|)
    && (s.lost == [] && (s.chains == [] || !s.chains[0].Holding?) ==> |s.popped| == |s.sent|)
    && (s.lost != [] ==> s.chains != [] && s.chains[0] == Ended)
  }

  lemma OneChainNext(s: State, e: Event)
    requires OneChain(s)
    ensures OneChain(Next(s, e))
  {
    if Enabled(s, e) {
      match e
      case Pop(i) => OneChainPop(s, i);
      case Send(i) => OneChainSend(s, i);
      case Fire(i, _, _) => OneChainFire(s, e);
      case _ => OneChainOther(s, e);
    }
  }

  lemma OneChainFire(s: State, e: Event)
    requires OneChain(s) && Enabled(s, e) && e.Fire?
    ensures OneChain(Next(s, e))
  {}

  lemma OneChainOther(s: State, e: Event)
    requires OneChain(s) && Enabled(s, e) && (e.Start? || e.Check? || e.PlatformGone?)
    ensures OneChain(Next(s, e))
  {}

  lemma OneChainPop(s: State, i: nat)
    requires OneChain(s) && Enabled(s, Pop(i))
    ensures OneChain(Next(s, Pop(i)))
  {}

  lemma OneChainSend(s: State, i: nat)
    requires OneChain(s) && Enabled(s, Send(i))
    ensures OneChain(Next(s, Send(i)))
  {}

  lemma {:induction false} OneChainInOrder(queue: seq<Message>, concurrency: int, ignore4xx: bool, es: seq<Event>)
    requires concurrency <= 1
    ensures OneChain(Execute(Init(queue, concurrency, ignore4xx), es))
  {
    if es != [] {
      hide OneChain, Next;
      var before := es[..|es| - 1];
      OneChainInOrder(queue, concurrency, ignore4xx, before);
      OneChainNext(Execute(Init(queue, concurrency, ignore4xx), before), es[|es| - 1]);
    }
  }

  /** The chain being started is still on its way to its first send. */
  ghost predicate InFlight(pc: Pc) { pc == AtCheck || pc == AtPop || pc.Holding? }

  ghost predicate Starting(s: State) {
    && s.started <= |s.chains|
    && (forall i :: 0 <= i < |s.chains| ==> (i < s.started <==> s.chains[i] != Unstarted))
    && (s.launching ==> s.started > 0 && InFlight(s.chains[s.started - 1]))
  }

  lemma StartingMove(s: State, i: nat, pc: Pc)
    requires Starting(s) && i < |s.chains| && s.chains[i] != Unstarted && pc != Unstarted
    requires InFlight(pc) || pc.Waiting? || pc.Ended?
    ensures Starting(Move(s, i, pc))
  {}

  lemma StartingStep(s: State, e: Event)
    requires Starting(s) && Enabled(s, e) && (e.Check? || e.Pop? || e.Send? || e.Fire?)
    ensures Starting(Next(s, e))
  {
    hide Starting;
    var m := Move(s, e.i, Next(s, e).chains[e.i]);
    StartingMove(s, e.i, Next(s, e).chains[e.i]);
    StartingFrame(m, Next(s, e));
  }

  lemma StartingNext(s: State, e: Event)
    requires Starting(s)
    ensures Starting(Next(s, e))
  {
    hide Starting, Next, Enabled;
    if Enabled(s, e) {
      match e
      case Start => StartingStart(s);
      case PlatformGone => StartingGone(s);
      case _ => StartingStep(s, e);
    } else {
      Idle(s, e);
    }
  }

  lemma StartingGone(s: State)
    requires Starting(s)
    ensures Starting(Next(s, PlatformGone))
  {}

  lemma StartingStart(s: State)
    requires Starting(s) && Enabled(s, Start)
    ensures Starting(Next(s, Start))
  {}

  lemma StartingFrame(s: State, t: State)
    requires Starting(s) && t.chains == s.chains && t.started == s.started && t.launching == s.launching
    ensures Starting(t)
  {}

  /** Until the first response is sent only the first chain has been started, unless the drain has stopped. */
  ghost predicate FirstFirst(s: State) {
    && s.started <= |s.chains|
    && (0 !in s.sent ==>
      && s.sent == []
      && if s.stop then forall i :: 0 <= i < s.started ==> s.chains[i] == AtCheck || s.chains[i] == Ended
         else
           && s.started <= 1
           && (s.started == 1 ==> s.launching && (s.chains[0].Holding? ==> s.chains[0].item == 0))
           && |s.popped| == if s.started == 1 && s.chains[0].Holding? then 1 else 0)
  }

  lemma FirstFirstNext(s: State, e: Event)
    requires Starting(s) && FirstFirst(s)
    ensures FirstFirst(Next(s, e))
  {
    if Enabled(s, e) {
      match e
      case Start => FirstFirstStart(s);
      case Check(i) => FirstFirstCheck(s, i);
      case Pop(i) => FirstFirstPop(s, i);
      case Send(i) => FirstFirstSend(s, i);
      case Fire(i, k, o) => FirstFirstFire(s, e);
      case PlatformGone =>
    }
  }

  lemma FirstFirstStart(s: State)
    requires Starting(s) && FirstFirst(s) && Enabled(s, Start)
    ensures FirstFirst(Next(s, Start))
  {}

  lemma FirstFirstCheck(s: State, i: nat)
    requires Starting(s) && FirstFirst(s) && Enabled(s, Check(i))
    ensures FirstFirst(Next(s, Check(i)))
  {}

  lemma FirstFirstPop(s: State, i: nat)
    requires Starting(s) && FirstFirst(s) && Enabled(s, Pop(i))
    ensures FirstFirst(Next(s, Pop(i)))
  {}

  lemma FirstFirstSend(s: State, i: nat)
    requires Starting(s) && FirstFirst(s) && Enabled(s, Send(i))
    ensures FirstFirst(Next(s, Send(i)))
  {
    var t := Next(s, Send(i));
    if s.alive {
      assert t.sent[|s.sent|] == s.chains[i].item;
      assert forall k :: k in s.sent ==> k in t.sent;
    }
  }

  lemma FirstFirstFire(s: State, e: Event)
    requires Starting(s) && FirstFirst(s) && e.Fire? && Enabled(s, e)
    ensures FirstFirst(Next(s, e))
  {}

  lemma {:induction false} FirstSentFirst(queue: seq<Message>, concurrency: int, ignore4xx: bool, es: seq<Event>)
    ensures var s := Execute(Init(queue, concurrency, ignore4xx), es);
            Starting(s) && FirstFirst(s) && (s.sent != [] ==> s.sent[0] == 0)
  {
    if es != [] {
      hide Starting, Next, FirstFirst;
      var before := es[..|es| - 1];
      FirstSentFirst(queue, concurrency, ignore4xx, before);
      var s := Execute(Init(queue, concurrency, ignore4xx), before);
      StartingNext(s, es[|es| - 1]);
      FirstFirstNext(s, es[|es| - 1]);
      SentGrows(s, es[|es| - 1]);
      NothingSentYet(Next(s, es[|es| - 1]));
    }
  }

  lemma NothingSentYet(s: State)
    requires FirstFirst(s)
    ensures 0 !in s.sent ==> s.sent == []
  {}

  lemma SentGrows(s: State, e: Event)
    ensures s.sent <= Next(s, e).sent && |Next(s, e).sent| <= |s.sent| + 1
  {}

  /** The overtaking run: the first chain sends response 0 and, while the second chain holds
      response 1, goes on from its callback to pop and send response 2. */
  const OVERTAKING := [Start, Check(0), Pop(0), Send(0), Start, Check(1), Pop(1),
                       Fire(0, 0, Outcome(true, 200)), Check(0), Pop(0), Send(0)]

  lemma Overtaking(queue: seq<Message>, concurrency: int, ignore4xx: bool)
    requires concurrency >= 2 && |queue| >= 3
    ensures Execute(Init(queue, concurrency, ignore4xx), OVERTAKING).sent == [0, 2]
  {
    hide Next;
    var s0 := Init(queue, concurrency, ignore4xx);
    FirstSend(s0);
    var s4 := s0.(chains := s0.chains[0 := Waiting(0)], started := 1, remaining := s0.remaining[1..],
                  popped := [s0.remaining[0]], sent := [0]);
    SecondHolds(s4);
    var s7 := s4.(chains := s4.chains[1 := Holding(1)], started := 2, launching := true,
                  remaining := s4.remaining[1..], popped := s4.popped + [s4.remaining[0]]);
    FirstGoesOn(s7);
    ExecuteFour(s0, Start, Check(0), Pop(0), Send(0));
    ExecuteThree(s4, Start, Check(1), Pop(1));
    ExecuteFour(s7, Fire(0, 0, Outcome(true, 200)), Check(0), Pop(0), Send(0));
    ExecuteAppend(s0, [Start, Check(0), Pop(0), Send(0)], [Start, Check(1), Pop(1)]);
    ExecuteAppend(s0, [Start, Check(0), Pop(0), Send(0), Start, Check(1), Pop(1)],
                  [Fire(0, 0, Outcome(true, 200)), Check(0), Pop(0), Send(0)]);
    assert [Start, Check(0), Pop(0), Send(0)] + [Start, Check(1), Pop(1)]
        == [Start, Check(0), Pop(0), Send(0), Start, Check(1), Pop(1)];
    assert [Start, Check(0), Pop(0), Send(0), Start, Check(1), Pop(1)]
         + [Fire(0, 0, Outcome(true, 200)), Check(0), Pop(0), Send(0)] == OVERTAKING;
  }

  lemma {:induction false} ExecuteAppend(s: State, a: seq<Event>, b: seq<Event>)
    ensures Execute(s, a + b) == Execute(Execute(s, a), b)
  {
    hide Next;
    if b == [] {
      assert a + b == a;
    } else {
      var n := |b| - 1;
      assert (a + b)[..|a| + n] == a + b[..n];
      ExecuteAppend(s, a, b[..n]);
    }
  }

  lemma ExecuteSnoc(s: State, es: seq<Event>, e: Event)
    ensures Execute(s, es + [e]) == Next(Execute(s, es), e)
  {
    hide Next;
    assert (es + [e])[..|es|] == es;
  }

  lemma ExecuteThree(s: State, a: Event, b: Event, c: Event)
    ensures Execute(s, [a, b, c]) == Next(Next(Next(s, a), b), c)
  {
    hide Next;
    ExecuteSnoc(s, [], a);
    assert [] + [a] == [a] && [a] + [b] == [a, b] && [a, b] + [c] == [a, b, c];
    ExecuteSnoc(s, [a], b);
    ExecuteSnoc(s, [a, b], c);
  }

  lemma ExecuteFour(s: State, a: Event, b: Event, c: Event, d: Event)
    ensures Execute(s, [a, b, c, d]) == Next(Next(Next(Next(s, a), b), c), d)
  {
    hide Next, Execute;
    ExecuteThree(s, a, b, c);
    assert [a, b, c] + [d] == [a, b, c, d];
    ExecuteSnoc(s, [a, b, c], d);
  }

  lemma FirstSend(s: State)
    requires |s.chains| >= 2 && s.started == 0 && !s.launching && s.chains[0] == Unstarted && s.chains[1] == Unstarted
    requires !s.stop && s.alive && |s.remaining| >= 3 && s.popped == [] && s.sent == []
    ensures var t := Next(Next(Next(Next(s, Start), Check(0)), Pop(0)), Send(0));
            t == s.(chains := s.chains[0 := Waiting(0)], started := 1, launching := false,
                    remaining := s.remaining[1..], popped := [s.remaining[0]], sent := [0])
  {}

  lemma SecondHolds(s: State)
    requires |s.chains| >= 2 && s.started == 1 && !s.launching && s.chains[1] == Unstarted && !s.stop
    requires |s.remaining| >= 2 && |s.popped| == 1
    ensures var t := Next(Next(Next(s, Start), Check(1)), Pop(1));
            t == s.(chains := s.chains[1 := Holding(1)], started := 2, launching := true,
                    remaining := s.remaining[1..], popped := s.popped + [s.remaining[0]])
  {}

  lemma FirstGoesOn(s: State)
    requires |s.chains| >= 2 && s.started == 2 && s.chains[0] == Waiting(0) && 0 !in s.fired && !s.stop && s.alive
    requires |s.remaining| >= 1 && |s.popped| == 2 && s.sent == [0]
    ensures Next(Next(Next(Next(s, Fire(0, 0, Outcome(true, 200))), Check(0)), Pop(0)), Send(0)).sent == [0, 2]
  {}

  lemma AtMostTwo(s: State, queue: seq<Message>)
    requires Safe(s, queue) && |queue| <= 2
    requires |s.sent| > 0 ==> s.sent[0] == 0
    ensures InOrder(s.sent)
  {
    assert |s.popped| <= 2;
    assert forall i :: 0 <= i < |s.sent| ==> s.sent[i] in s.sent;
    if |s.sent| > 2 {
      assert s.sent[0] < 2 && s.sent[1] < 2 && s.sent[2] < 2;
    }
  }

  /** The responses leave in the order of the list, in every run, exactly when there is at most one
      chain or the list has at most two entries. */
  lemma SendOrder(queue: seq<Message>, concurrency: int, ignore4xx: bool)
    ensures (forall es :: InOrder(Execute(Init(queue, concurrency, ignore4xx), es).sent))
       <==> concurrency <= 1 || |queue| <= 2
  {
    var s0 := Init(queue, concurrency, ignore4xx);
    if concurrency <= 1 {
      forall es ensures InOrder(Execute(s0, es).sent) { OneChainInOrder(queue, concurrency, ignore4xx, es); }
    } else if |queue| <= 2 {
      forall es ensures InOrder(Execute(s0, es).sent) {
        DrainSafety(queue, concurrency, ignore4xx, es);
        FirstSentFirst(queue, concurrency, ignore4xx, es);
        AtMostTwo(Execute(s0, es), queue);
      }
    } else {
      Overtaking(queue, concurrency, ignore4xx);
      assert !InOrder([0, 2]) by { assert [0, 2][1] != 1; }
    }
  }

  // ----- termination -----

  function Rank(pc: Pc): nat {
    match pc
    case Holding(_) => 4
    case Unstarted => 3
    case Waiting(_) => 3
    case AtCheck => 2
    case AtPop => 1
    case Ended => 0
  }

  function RankSum(chains: seq<Pc>): nat {
    if chains == [] then 0 else RankSum(chains[..|chains| - 1]) + Rank(chains[|chains| - 1])
  }

  lemma {:induction false} RankUpdate(chains: seq<Pc>, i: nat, pc: Pc)
    requires i < |chains|
    ensures RankSum(chains[i := pc]) == RankSum(chains) - Rank(chains[i]) + Rank(pc)
  {
    var n := |chains| - 1;
    var after := chains[i := pc];
    if i == n {
      assert after[..n] == chains[..n];
    } else {
      assert after[..n] == chains[..n][i := pc];
      RankUpdate(chains[..n], i, pc);
    }
  }

  function Measure(s: State): nat {
    4 * |s.remaining| + RankSum(s.chains) + if s.alive then 1 else 0
  }

  lemma StepDecreases(s: State, e: Event)
    requires Enabled(s, e)
    ensures Measure(Next(s, e)) < Measure(s)
  {
    if !e.PlatformGone? {
      hide RankSum, Next, Enabled;
      var i := if e.Start? then s.started else e.i;
      var t := Next(s, e);
      ChainMoves(s, e, i);
      RankUpdate(s.chains, i, t.chains[i]);
    }
  }

  /** What a step does to the chain it moves, and to the queue. */
  ghost predicate Descends(s: State, t: State, i: nat) {
    && i < |s.chains| && |t.chains| == |s.chains| && t.chains == s.chains[i := t.chains[i]]
    && t.alive == s.alive
    && 4 * |t.remaining| + Rank(t.chains[i]) < 4 * |s.remaining| + Rank(s.chains[i])
  }

  lemma DescendsPop(s: State, i: nat)
    requires Enabled(s, Pop(i))
    ensures Descends(s, Next(s, Pop(i)), i)
  {}

  lemma DescendsSend(s: State, i: nat)
    requires Enabled(s, Send(i))
    ensures Descends(s, Next(s, Send(i)), i)
  {}

  lemma DescendsFire(s: State, i: nat, k: nat, o: Outcome)
    requires Enabled(s, Fire(i, k, o))
    ensures Descends(s, Next(s, Fire(i, k, o)), i)
  {}

  lemma DescendsCheck(s: State, i: nat)
    requires Enabled(s, Check(i))
    ensures Descends(s, Next(s, Check(i)), i)
  {}

  lemma ChainMoves(s: State, e: Event, i: nat)
    requires Enabled(s, e) && !e.PlatformGone? && i == if e.Start? then s.started else e.i
    ensures Descends(s, Next(s, e), i)
  {
    hide Descends;
    match e
    case Start => DescendsStart(s);
    case Check(_) => DescendsCheck(s, i);
    case Pop(_) => DescendsPop(s, i);
    case Send(_) => DescendsSend(s, i);
    case Fire(_, k, o) => DescendsFire(s, i, k, o);
  }

  lemma DescendsStart(s: State)
    requires Enabled(s, Start)
    ensures Descends(s, Next(s, Start), s.started)
  {}

  function StepsTaken(s: State, es: seq<Event>): nat {
    if es == [] then 0
    else StepsTaken(s, es[..|es| - 1]) + if Enabled(Execute(s, es[..|es| - 1]), es[|es| - 1]) then 1 else 0
  }

  lemma {:induction false} StepsBounded(s: State, es: seq<Event>)
    ensures StepsTaken(s, es) + Measure(Execute(s, es)) <= Measure(s)
  {
    if es != [] {
      var before := es[..|es| - 1];
      StepsBounded(s, before);
      if Enabled(Execute(s, before), es[|es| - 1]) { StepDecreases(Execute(s, before), es[|es| - 1]); }
    }
  }

  lemma {:induction false} InitialRank(n: nat)
    ensures RankSum(seq(n, i => Unstarted)) == 3 * n
  {
    var c := seq(n, i => Unstarted);
    if n > 0 {
      assert c[..n - 1] == seq(n - 1, i => Unstarted);
      InitialRank(n - 1);
    }
  }

  /** No run takes more than four steps per response and three per chain. */
  lemma DrainTerminates(queue: seq<Message>, concurrency: int, ignore4xx: bool, es: seq<Event>)
    ensures StepsTaken(Init(queue, concurrency, ignore4xx), es) <= 4 * |queue| + 3 * ChainCount(concurrency) + 1
  {
    StepsBounded(Init(queue, concurrency, ignore4xx), es);
    InitialRank(ChainCount(concurrency));
  }

  // ----- completeness -----

  /** No send fails in a way that stops the drain, and the platform stays. */
  predicate Favourable(ignore4xx: bool, es: seq<Event>) {
    forall i :: 0 <= i < |es| ==> es[i] != PlatformGone && (es[i].Fire? ==> Harmless(ignore4xx, es[i].outcome))
  }

  /** The send succeeded, or failed with a client error that is to be ignored; a timeout is none. */
  predicate Harmless(ignore4xx: bool, o: Outcome) {
    o.succeeded || (ignore4xx && 400 <= o.replyCode < 500 && o.replyCode != 408)
  }

  ghost predicate Progressing(s: State) {
    && s.alive && s.lost == []
    && (s.stop ==> s.remaining == [])
    && (Ended in s.chains ==> s.stop)
  }

  lemma ProgressingNext(s: State, e: Event)
    requires Progressing(s)
    requires e.Fire? ==> Harmless(s.ignore4xx, e.outcome)
    requires e != PlatformGone
    ensures Progressing(Next(s, e))
  {
    var t := Next(s, e);
    if Ended in t.chains {
      var j :| 0 <= j < |t.chains| && t.chains[j] == Ended;
      assert s.chains[j] == Ended ==> Ended in s.chains;
    }
  }

  lemma {:induction false} FavourableRun(queue: seq<Message>, concurrency: int, ignore4xx: bool, es: seq<Event>)
    requires Favourable(ignore4xx, es)
    ensures var s := Execute(Init(queue, concurrency, ignore4xx), es); Progressing(s) && s.ignore4xx == ignore4xx
  {
    if es != [] {
      var before := es[..|es| - 1];
      FavourableRun(queue, concurrency, ignore4xx, before);
      ProgressingNext(Execute(Init(queue, concurrency, ignore4xx), before), es[|es| - 1]);
    }
  }

  /** Nothing more can happen to the chains, every callback having come. */
  predicate Finished(s: State) {
    forall i :: 0 <= i < |s.chains| ==> s.chains[i] == Ended
  }

  /** Unless all chains have ended some step is possible; only the start of a chain waits for another. */
  lemma FinishedOrMoving(s: State, queue: seq<Message>, o: Outcome)
    requires Safe(s, queue) && Starting(s) && !Finished(s)
    ensures exists e :: Enabled(s, e) && (e.Fire? ==> e.outcome == o)
  {
    hide Conserved;
    var i :| 0 <= i < |s.chains| && s.chains[i] != Ended;
    var j := if s.chains[i] != Unstarted then i else if s.launching then s.started - 1 else s.started;
    match s.chains[j] {
      case AtCheck => assert Enabled(s, Check(j));
      case AtPop => assert Enabled(s, Pop(j));
      case Holding(_) => assert Enabled(s, Send(j));
      case Waiting(k) => assert Enabled(s, Fire(j, k, o));
      case Unstarted => assert Enabled(s, Start);
      case Ended =>
    }
  }

  /** Completeness: with a concurrency that is not negative, a favourable run can always go on until
      all chains have ended, and then the whole list has been sent, each response once. */
  lemma {:induction false} DrainCompletes(queue: seq<Message>, concurrency: int, ignore4xx: bool, es: seq<Event>)
    requires concurrency >= 0
    requires PlatformGone !in es
    requires forall i :: 0 <= i < |es| && es[i].Fire? && !es[i].outcome.succeeded ==>
               ignore4xx && 400 <= es[i].outcome.replyCode < 500 && es[i].outcome.replyCode != 408
    ensures var s := Execute(Init(queue, concurrency, ignore4xx), es);
            if Finished(s) then
              s.remaining == [] && Distinct(s.sent) && forall k :: k in s.sent <==> 0 <= k < |queue|
            else exists e :: Enabled(s, e) && (e.Fire? ==> e.outcome == Outcome(true, 200))
  {
    var s := Execute(Init(queue, concurrency, ignore4xx), es);
    DrainSafety(queue, concurrency, ignore4xx, es);
    assert Favourable(ignore4xx, es);
    if Finished(s) {
      FavourableRun(queue, concurrency, ignore4xx, es);
      assert s.chains[0] in s.chains;
      assert s.popped == queue by { assert s.popped + [] == s.popped; }
    } else {
      FirstSentFirst(queue, concurrency, ignore4xx, es);
      FinishedOrMoving(s, queue, Outcome(true, 200));
    }
  }

  /** The callback of a send, in every reachable state and for every outcome: after a success, or a 4xx
      other than 408 when those are ignored, its chain goes on and the flag stays as it was; after any
      other outcome the flag is set and the chain has ended, so that from then on only chains already
      past the flag check pop. */
  lemma CallbackDecides(queue: seq<Message>, concurrency: int, ignore4xx: bool, es: seq<Event>, i: nat, k: nat, o: Outcome)
    requires var s := Execute(Init(queue, concurrency, ignore4xx), es); i < |s.chains| && s.chains[i] == Waiting(k)
    ensures var s := Execute(Init(queue, concurrency, ignore4xx), es);
            var t := Execute(Init(queue, concurrency, ignore4xx), es + [Fire(i, k, o)]);
            if o.succeeded || (ignore4xx && 400 <= o.replyCode < 500 && o.replyCode != 408)
            then t == s.(chains := s.chains[i := AtCheck], fired := t.fired, launching := t.launching)
            else
              && t.stop && t.chains == s.chains[i := Ended] && t.sent == s.sent && t.popped == s.popped
              && forall later :: |Execute(t, later).popped| + Count(Execute(t, later).chains, IsAtPop)
                                   <= |s.popped| + Count(t.chains, IsAtPop)
  {
    var s0 := Init(queue, concurrency, ignore4xx);
    var s := Execute(s0, es);
    DrainSafety(queue, concurrency, ignore4xx, es);
    IgnoreStays(s0, es);
    var all := es + [Fire(i, k, o)];
    assert all[..|all| - 1] == es;
    var t := Execute(s0, all);
    if !(o.succeeded || (ignore4xx && 400 <= o.replyCode < 500 && o.replyCode != 408)) {
      forall later ensures |Execute(t, later).popped| + Count(Execute(t, later).chains, IsAtPop)
                             <= |s.popped| + Count(t.chains, IsAtPop) {
        StoppedPops(t, later);
      }
    }
  }

  lemma {:induction false} IgnoreStays(s: State, es: seq<Event>)
    ensures Execute(s, es).ignore4xx == s.ignore4xx
  {
    if es != [] {
      hide Next;
      IgnoreStays(s, es[..|es| - 1]);
      SameIgnore(Execute(s, es[..|es| - 1]), es[|es| - 1]);
    }
  }

  lemma SameIgnore(s: State, e: Event)
    ensures Next(s, e).ignore4xx == s.ignore4xx
  {}

  /** What sets the flag, in every state: popping from the empty queue, sending when the platform is
      gone, and a callback that is not harmless; nothing else, and nothing clears it. */
  lemma StopReasons(s: State, e: Event)
    requires Enabled(s, e)
    ensures e.Fire? ==>
              (Next(s, e).stop <==>
                s.stop || !(e.outcome.succeeded || (s.ignore4xx && 400 <= e.outcome.replyCode < 500 && e.outcome.replyCode != 408)))
    ensures !e.Fire? ==>
              (Next(s, e).stop <==> s.stop || (e.Pop? && s.remaining == []) || (e.Send? && !s.alive))
  {}

  /** A negative concurrency sends nothing at all. */
  lemma {:induction false} NegativeConcurrency(queue: seq<Message>, concurrency: int, ignore4xx: bool, es: seq<Event>)
    requires concurrency < 0
    ensures var s := Execute(Init(queue, concurrency, ignore4xx), es); s.chains == [] && s.sent == [] && s.remaining == queue
  {
    if es != [] { NegativeConcurrency(queue, concurrency, ignore4xx, es[..|es| - 1]); }
  }

  // ----- after the stop flag -----

  lemma StoppedNext(s: State, e: Event)
    requires s.stop
    ensures var t := Next(s, e);
            t.stop && |t.popped| + Count(t.chains, IsAtPop) <= |s.popped| + Count(s.chains, IsAtPop)
  {
    if Enabled(s, e) && !e.PlatformGone? {
      var i := if e.Start? then s.started else e.i;
      var t := Next(s, e);
      CountUpdate(s.chains, IsAtPop, i, t.chains[i]);
      assert t.chains == s.chains[i := t.chains[i]];
    }
  }

  /** Once the flag is set only chains already past the flag check pop, once each. */
  lemma {:induction false} StoppedPops(s: State, es: seq<Event>)
    requires s.stop
    ensures Execute(s, es).stop
    ensures |Execute(s, es).popped| + Count(Execute(s, es).chains, IsAtPop) <= |s.popped| + Count(s.chains, IsAtPop)
  {
    if es != [] {
      StoppedPops(s, es[..|es| - 1]);
      StoppedNext(Execute(s, es[..|es| - 1]), es[|es| - 1]);
    }
  }

  // ----- the handler's shared state, step by step -----

  class Context {
    var responses: seq<Message>
    var flag: bool
    var ignore4xx: bool
    var alive: bool
    var chains: seq<Pc>
    var started: nat
    var launching: bool
    ghost var popped: seq<Message>
    ghost var sent: seq<nat>
    ghost var lost: seq<nat>
    var fired: set<nat>

    ghost function Model(): State
      reads this
    {
      State(responses, flag, alive, ignore4xx, chains, started, launching, popped, sent, lost, fired)
    }

    constructor (queue: seq<Message>, concurrency: int, ignore: bool)
      ensures Model() == Init(queue, concurrency, ignore)
    {
      responses, flag, ignore4xx, alive := queue, false, ignore, true;
      chains := seq(ChainCount(concurrency), i => Unstarted);
      started, launching, fired := 0, false, {};
      popped, sent, lost := [], [], [];
    }

    method MoveTo(i: nat, pc: Pc)
      requires i < |chains|
      modifies this`chains, this`launching
      ensures Model() == Move(old(Model()), i, pc)
    {
      chains := chains[i := pc];
      if i + 1 == started && (pc.Waiting? || pc.Ended?) { launching := false; }
    }

    method StartNext()
      requires Enabled(Model(), Start)
      modifies this
      ensures Model() == Next(old(Model()), Start)
    {
      chains := chains[started := AtCheck];
      started := started + 1;
      launching := true;
    }

    method CheckFlag(i: nat)
      requires Enabled(Model(), Check(i))
      modifies this
      ensures Model() == Next(old(Model()), Check(i))
    {
      if flag { MoveTo(i, Ended); return; }
      MoveTo(i, AtPop);
    }

    /** Under the lock of the queue. */
    method PopFront(i: nat, position: nat)
      requires Enabled(Model(), Pop(i)) && position == |popped|
      modifies this
      ensures Model() == Next(old(Model()), Pop(i))
    {
      if responses != [] {
        popped := popped + [responses[0]];
        responses := responses[1..];
        MoveTo(i, Holding(position));
      } else {
        flag := true;
        MoveTo(i, Ended);
      }
    }

    method SendItem(i: nat)
      requires Enabled(Model(), Send(i))
      modifies this
      ensures Model() == Next(old(Model()), Send(i))
    {
      var item := chains[i].item;
      if !alive {
        lost := lost + [item];
        flag := true;
        MoveTo(i, Ended);
        return;
      }
      sent := sent + [item];
      MoveTo(i, Waiting(item));
    }

    method OnSent(i: nat, item: nat, outcome: Outcome)
      requires i < |chains| && chains[i] == Waiting(item)
      modifies this
      ensures Model() == Next(old(Model()), Fire(i, item, outcome))
    {
      if item in fired { return; }
      fired := fired + {item};
      if !outcome.succeeded {
        if !(ignore4xx && 400 <= outcome.replyCode < 500 && outcome.replyCode != 408) {
          flag := true;
          MoveTo(i, Ended);
          return;
        }
      }
      MoveTo(i, AtCheck);
    }
  }
}
