/** A list query (`RequestListImpl`): its responses arrive in batches, on any thread, and it ends when
    the batches add up to the announced total, or when nothing has arrived for too long. */
module ListRequest {
  import opened Text
  import Request

  // ----- counting: the atomic add and the judgement after it are two steps -----

  /** One thread handling one batch: `previous` is what the atomic add returned. */
  datatype Thread = Waiting | Added(previous: int) | Reported(previous: int, ends: bool)

  datatype Counting = Counting(received: int, threads: seq<Thread>)

  datatype Step = Add(i: nat) | Judge(i: nat)

  function Begin(n: nat): Counting { Counting(0, seq(n, _ => Waiting)) }

  /** Batch `i` holds `batches[i]` items, and every response announces the same `total`. */
  function Count(batches: seq<nat>, total: int, c: Counting, step: Step): (d: Counting)
    requires |c.threads| == |batches|
    ensures |d.threads| == |batches|
  {
    if step.i >= |batches| then c
    else match (step, c.threads[step.i])
      case (Add(i), Waiting) =>
        Counting(c.received + batches[i], c.threads[i := Added(c.received)])
      case (Judge(i), Added(previous)) =>
        c.(threads := c.threads[i := Reported(previous, total <= previous + batches[i])])
      case _ => c
  }

  function Interleave(batches: seq<nat>, total: int, steps: seq<Step>): (c: Counting)
    ensures |c.threads| == |batches|
  {
    if steps == [] then Begin(|batches|)
    else Count(batches, total, Interleave(batches, total, steps[..|steps| - 1]), steps[|steps| - 1])
  }

  function Sum(batches: seq<nat>): nat {
    if batches == [] then 0 else batches[0] + Sum(batches[1..])
  }

  /** What the batches not yet added hold. */
  function Outstanding(batches: seq<nat>, threads: seq<Thread>): nat
    requires |batches| == |threads|
  {
    if batches == [] then 0
    else (if threads[0].Waiting? then batches[0] else 0) + Outstanding(batches[1..], threads[1..])
  }

  lemma {:induction false} OutstandingBegin(batches: seq<nat>)
    ensures Outstanding(batches, Begin(|batches|).threads) == Sum(batches)
  {
    if batches != [] {
      OutstandingBegin(batches[1..]);
      assert Begin(|batches|).threads[1..] == Begin(|batches[1..]|).threads;
    }
  }

  lemma {:induction false} OutstandingChange(batches: seq<nat>, threads: seq<Thread>, i: nat, t: Thread)
    requires |batches| == |threads| && i < |batches| && !t.Waiting?
    ensures Outstanding(batches, threads[i := t])
         == Outstanding(batches, threads) - (if threads[i].Waiting? then batches[i] else 0)
  {
    if i == 0 {
      assert threads[0 := t][1..] == threads[1..];
    } else {
      OutstandingChange(batches[1..], threads[1..], i - 1, t);
      assert threads[i := t][1..] == threads[1..][i - 1 := t];
    }
  }

  lemma {:induction false} WaitingIsOutstanding(batches: seq<nat>, threads: seq<Thread>, i: nat)
    requires |batches| == |threads| && i < |batches| && threads[i].Waiting?
    ensures Outstanding(batches, threads) >= batches[i]
  {
    if i > 0 { WaitingIsOutstanding(batches[1..], threads[1..], i - 1); }
  }

  lemma {:induction false} NothingOutstanding(batches: seq<nat>, threads: seq<Thread>)
    requires |batches| == |threads| && forall i :: 0 <= i < |threads| ==> !threads[i].Waiting?
    ensures Outstanding(batches, threads) == 0
  {
    if batches != [] { NothingOutstanding(batches[1..], threads[1..]); }
  }

  /** The running sum thread `i` saw, its own batch included. */
  function Upto(batches: seq<nat>, c: Counting, i: nat): int
    requires |c.threads| == |batches| && i < |batches| && !c.threads[i].Waiting?
  {
    c.threads[i].previous + batches[i]
  }

  predicate Behind(batches: seq<nat>, c: Counting, i: nat, j: nat)
    requires |c.threads| == |batches| && i < |batches| && j < |batches|
    requires !c.threads[i].Waiting? && !c.threads[j].Waiting?
  {
    Upto(batches, c, i) <= c.threads[j].previous
  }

  /** The adds took disjoint stretches of what has been received, and covered it to its end. */
  ghost predicate Tally(batches: seq<nat>, total: int, c: Counting)
    requires |c.threads| == |batches|
  {
    && c.received + Outstanding(batches, c.threads) == Sum(batches)
    && (forall i :: 0 <= i < |batches| && !c.threads[i].Waiting? ==> 0 <= c.threads[i].previous && Upto(batches, c, i) <= c.received)
    && (forall i, j :: 0 <= i < j < |batches| && !c.threads[i].Waiting? && !c.threads[j].Waiting?
          ==> Behind(batches, c, i, j) || Behind(batches, c, j, i))
    && (c.received == 0 || exists i :: 0 <= i < |batches| && !c.threads[i].Waiting? && Upto(batches, c, i) == c.received)
    && (forall i :: 0 <= i < |batches| && c.threads[i].Reported?
          ==> (c.threads[i].ends <==> total <= Upto(batches, c, i)))
  }

  lemma {:induction false} TallyAdd(batches: seq<nat>, total: int, c: Counting, i: nat)
    requires |c.threads| == |batches| && Tally(batches, total, c) && i < |batches| && c.threads[i].Waiting?
    ensures Tally(batches, total, Count(batches, total, c, Add(i)))
  {
    var d := Count(batches, total, c, Add(i));
    OutstandingChange(batches, c.threads, i, Added(c.received));
    hide Outstanding, Sum;
    assert Upto(batches, d, i) == d.received;
    forall j | 0 <= j < |batches| && j != i && !d.threads[j].Waiting?
      ensures Upto(batches, d, j) == Upto(batches, c, j) && Behind(batches, d, j, i)
    {}
    forall j, k | 0 <= j < k < |batches| && !d.threads[j].Waiting? && !d.threads[k].Waiting?
      ensures Behind(batches, d, j, k) || Behind(batches, d, k, j)
    {
      if j != i && k != i { assert Behind(batches, c, j, k) || Behind(batches, c, k, j); }
    }
  }

  lemma {:induction false} TallyJudge(batches: seq<nat>, total: int, c: Counting, i: nat)
    requires |c.threads| == |batches| && Tally(batches, total, c) && i < |batches| && c.threads[i].Added?
    ensures Tally(batches, total, Count(batches, total, c, Judge(i)))
  {
    var d := Count(batches, total, c, Judge(i));
    OutstandingChange(batches, c.threads, i, d.threads[i]);
    forall j | 0 <= j < |batches| && !d.threads[j].Waiting?
      ensures Upto(batches, d, j) == Upto(batches, c, j) && d.threads[j].previous == c.threads[j].previous
    {}
    if c.received != 0 {
      var k :| 0 <= k < |batches| && !c.threads[k].Waiting? && Upto(batches, c, k) == c.received;
      assert Upto(batches, d, k) == d.received;
    }
    forall j, k | 0 <= j < k < |batches| && !d.threads[j].Waiting? && !d.threads[k].Waiting?
      ensures Behind(batches, d, j, k) || Behind(batches, d, k, j)
    {
      assert Behind(batches, c, j, k) || Behind(batches, c, k, j);
    }
  }

  lemma {:induction false} TallyRun(batches: seq<nat>, total: int, steps: seq<Step>)
    ensures Tally(batches, total, Interleave(batches, total, steps))
  {
    if steps == [] {
      OutstandingBegin(batches);
    } else {
      var c := Interleave(batches, total, steps[..|steps| - 1]);
      TallyRun(batches, total, steps[..|steps| - 1]);
      var step := steps[|steps| - 1];
      if step.i < |batches| {
        if step.Add? && c.threads[step.i].Waiting? { TallyAdd(batches, total, c, step.i); }
        if step.Judge? && c.threads[step.i].Added? { TallyJudge(batches, total, c, step.i); }
      }
    }
  }

  predicate Ends(t: Thread) { t.Reported? && t.ends }

  /** Any split of the total into batches, handled by any threads in any interleaving: a batch reports
      the end exactly when its running sum is the total; by then only empty batches may still be
      outstanding, and a second report needs an empty batch. With positive batches: all the others
      have been added, with smaller running sums, and none of them reports the end. */
  lemma {:induction false} EndReportedOnce(batches: seq<nat>, steps: seq<Step>, i: nat)
    requires i < |batches|
    ensures var c := Interleave(batches, Sum(batches), steps);
            c.threads[i].Reported? ==> (Ends(c.threads[i]) <==> Upto(batches, c, i) == Sum(batches))
    ensures var c := Interleave(batches, Sum(batches), steps);
            Ends(c.threads[i]) ==> forall j :: 0 <= j < |batches| && j != i ==>
              && (c.threads[j].Waiting? ==> batches[j] == 0)
              && (Ends(c.threads[j]) ==> batches[i] == 0 || batches[j] == 0)
              && (batches[i] > 0 && batches[j] > 0 ==> Upto(batches, c, j) < Sum(batches))
  {
    var c := Interleave(batches, Sum(batches), steps);
    TallyRun(batches, Sum(batches), steps);
    if Ends(c.threads[i]) {
      assert Upto(batches, c, i) == c.received == Sum(batches);
      forall j | 0 <= j < |batches| && j != i
        ensures c.threads[j].Waiting? ==> batches[j] == 0
        ensures Ends(c.threads[j]) ==> batches[i] == 0 || batches[j] == 0
        ensures batches[i] > 0 && batches[j] > 0 ==> !c.threads[j].Waiting? && Upto(batches, c, j) < Sum(batches)
      {
        if c.threads[j].Waiting? {
          WaitingIsOutstanding(batches, c.threads, j);
        } else {
          assert Behind(batches, c, i, j) || Behind(batches, c, j, i);
        }
      }
    }
  }

  /** Once every batch has been handled, one of them has reported the end. */
  lemma {:induction false} EndReported(batches: seq<nat>, steps: seq<Step>) returns (i: nat)
    requires Sum(batches) > 0
    requires forall k :: 0 <= k < |batches| ==> Interleave(batches, Sum(batches), steps).threads[k].Reported?
    ensures i < |batches| && Ends(Interleave(batches, Sum(batches), steps).threads[i])
  {
    var c := Interleave(batches, Sum(batches), steps);
    TallyRun(batches, Sum(batches), steps);
    NothingOutstanding(batches, c.threads);
    i :| 0 <= i < |batches| && !c.threads[i].Waiting? && Upto(batches, c, i) == c.received;
  }

  // ----- a second report -----

  /** Two batches have reported the end. */
  ghost predicate Twice(batches: seq<nat>, steps: seq<Step>) {
    exists i, j :: 0 <= i < j < |batches| && BothEnd(Interleave(batches, Sum(batches), steps), i, j)
  }

  predicate BothEnd(c: Counting, i: nat, j: nat)
    requires i < |c.threads| && j < |c.threads|
  {
    Ends(c.threads[i]) && Ends(c.threads[j])
  }

  /** The batches before `n`, one after the other, but not batch `skip`. */
  function OneByOne(n: nat, skip: nat): seq<Step> {
    if n == 0 then [] else OneByOne(n - 1, skip) + if n - 1 == skip then [] else [Add(n - 1), Judge(n - 1)]
  }

  lemma {:induction false} AfterBatch(batches: seq<nat>, steps: seq<Step>, i: nat)
    requires i < |batches| && Interleave(batches, Sum(batches), steps).threads[i].Waiting?
    ensures var c := Interleave(batches, Sum(batches), steps);
            var d := Interleave(batches, Sum(batches), steps + [Add(i), Judge(i)]);
            d.threads == c.threads[i := Reported(c.received, Sum(batches) <= c.received + batches[i])]
  {
    var c := Interleave(batches, Sum(batches), steps);
    var one, two := steps + [Add(i)], steps + [Add(i), Judge(i)];
    assert one[..|one| - 1] == steps && two[..|two| - 1] == one;
    var d := Interleave(batches, Sum(batches), one);
    assert d == Count(batches, Sum(batches), c, Add(i));
    assert Interleave(batches, Sum(batches), two) == Count(batches, Sum(batches), d, Judge(i));
  }

  predicate HandledBefore(t: Thread, done: bool) { if done then t.Reported? else t.Waiting? }

  lemma {:induction false} AfterOneByOne(batches: seq<nat>, n: nat, skip: nat)
    requires n <= |batches|
    ensures forall i :: 0 <= i < |batches| ==>
              HandledBefore(Interleave(batches, Sum(batches), OneByOne(n, skip)).threads[i], i < n && i != skip)
  {
    hide Count;
    if n == 0 {
      AtStart(batches);
    } else {
      AfterOneByOne(batches, n - 1, skip);
      var before := Interleave(batches, Sum(batches), OneByOne(n - 1, skip));
      assert forall i :: 0 <= i < |batches| ==> HandledBefore(before.threads[i], i < n - 1 && i != skip);
      assert HandledBefore(before.threads[n - 1], n - 1 < n - 1 && n - 1 != skip);
      if n - 1 == skip {
        assert OneByOne(n, skip) == OneByOne(n - 1, skip);
      } else {
        AfterBatch(batches, OneByOne(n - 1, skip), n - 1);
      }
    }
  }

  lemma AtStart(batches: seq<nat>)
    ensures Interleave(batches, Sum(batches), []) == Begin(|batches|)
  {}

  /** With the empty batch `k` handled last, it and an earlier one report the end. */
  lemma {:induction false} EmptyBatchLast(batches: seq<nat>, k: nat)
    requires k < |batches| && |batches| >= 2 && batches[k] == 0
    ensures Twice(batches, OneByOne(|batches|, k) + [Add(k), Judge(k)])
  {
    hide Count, Tally;
    var steps := OneByOne(|batches|, k);
    var c := Interleave(batches, Sum(batches), steps);
    AfterOneByOne(batches, |batches|, k);
    TallyRun(batches, Sum(batches), steps);
    forall i | 0 <= i < |batches| && i != k ensures !c.threads[i].Waiting? && HandledBefore(c.threads[i], true) {
      assert HandledBefore(c.threads[i], i < |batches| && i != k);
    }
    assert HandledBefore(c.threads[k], false);
    OnlyOutstanding(batches, c.threads, k);
    var i := EarlierEnd(batches, c, k);
    AfterBatch(batches, steps, k);
    var d := Interleave(batches, Sum(batches), steps + [Add(k), Judge(k)]);
    TallyReceived(batches, c);
    assert BothEnd(d, i, k) && BothEnd(d, k, i);
  }

  lemma TallyReceived(batches: seq<nat>, c: Counting)
    requires |c.threads| == |batches| && Tally(batches, Sum(batches), c)
    ensures c.received + Outstanding(batches, c.threads) == Sum(batches)
  {}

  lemma {:induction false} OnlyOutstanding(batches: seq<nat>, threads: seq<Thread>, k: nat)
    requires |batches| == |threads| && k < |batches|
    requires forall i :: 0 <= i < |batches| && i != k ==> !threads[i].Waiting?
    ensures Outstanding(batches, threads) <= batches[k]
  {
    if k == 0 {
      NothingOutstanding(batches[1..], threads[1..]);
    } else {
      OnlyOutstanding(batches[1..], threads[1..], k - 1);
    }
  }

  /** When all but an empty batch have been handled, one of them has reported the end. */
  lemma {:induction false} EarlierEnd(batches: seq<nat>, c: Counting, k: nat) returns (i: nat)
    requires |c.threads| == |batches| && Tally(batches, Sum(batches), c)
    requires k < |batches| && |batches| >= 2 && Outstanding(batches, c.threads) == 0
    requires forall j :: 0 <= j < |batches| ==> HandledBefore(c.threads[j], j != k)
    ensures i < |batches| && i != k && Ends(c.threads[i])
  {
    if c.received == 0 {
      i := if k == 0 then 1 else 0;
    } else {
      i :| 0 <= i < |batches| && !c.threads[i].Waiting? && Upto(batches, c, i) == c.received;
    }
    assert HandledBefore(c.threads[i], i != k) && HandledBefore(c.threads[k], false);
    assert Sum(batches) <= Upto(batches, c, i);
  }

  lemma {:induction false} TwiceNeedsEmpty(batches: seq<nat>, steps: seq<Step>)
    requires Twice(batches, steps)
    ensures |batches| >= 2 && exists k :: 0 <= k < |batches| && batches[k] == 0
  {
    hide Count;
    var i, j :| 0 <= i < j < |batches| && BothEnd(Interleave(batches, Sum(batches), steps), i, j);
    EndReportedOnce(batches, steps, i);
    assert batches[i] == 0 || batches[j] == 0;
  }

  /** For every split of the total: some interleaving lets two batches report the end if and only if
      there are at least two batches and one of them is empty. */
  lemma {:induction false} SecondReport(batches: seq<nat>)
    ensures (exists steps :: Twice(batches, steps))
       <==> |batches| >= 2 && exists k :: 0 <= k < |batches| && batches[k] == 0
  {
    hide Twice;
    if steps :| Twice(batches, steps) {
      TwiceNeedsEmpty(batches, steps);
    }
    if |batches| >= 2 {
      if k :| 0 <= k < |batches| && batches[k] == 0 {
        EmptyBatchLast(batches, k);
      }
    }
  }

  // ----- timing, in milliseconds -----

  const FIRST_RESPONSE := 5000    // the timer of every request, armed after the reply callback
  const PERIOD := 10000           // the timer of a list request
  const SILENCE := 5000           // the longest time between messages that the timer lets pass

  /** A list request that has been replied to. `ticker` is when the last message came, or the reply;
      timers fire when they are due. `deciding` is the time between storing the reply and arming the
      first timer, in which the reply callback runs and batches may come. */
  datatype State = State(
    now: int, replyAt: int, ticker: int, received: int, heard: bool, status: Request.Status, deciding: bool,
    armedAt: Option<int>, firstDue: Option<int>, tickDue: Option<int>, doneAt: Option<int>)

  datatype Event =
    | Decide(at: int)
    | Message(at: int, num: int, total: int)
    | FirstResponseTimer
    | Tick
    | Pass(at: int)       // nothing happens until then

  /** `on_reply` with a success code, up to the reply callback. */
  function Replied(at: int): State {
    State(at, at, at, 0, false, Request.Replied, true, None, None, Some(at + PERIOD), None)
  }

  predicate NotAfter(at: int, due: Option<int>) { due.Some? ==> at <= due.value }

  /** Time never passes a timer that is due. */
  predicate Reaches(s: State, at: int) { s.now <= at && NotAfter(at, s.firstDue) && NotAfter(at, s.tickDue) }

  function TimeOut(s: State): State {
    s.(status := Request.Timeout, doneAt := Some(s.now), tickDue := None)
  }

  /** The end of `on_reply`. */
  function OnDecide(s: State, at: int): State {
    var n := s.(now := at, deciding := false);
    if s.status == Request.Replied then n.(armedAt := Some(at), firstDue := Some(at + FIRST_RESPONSE)) else n
  }

  function OnMessage(s: State, at: int, num: int, total: int): State {
    var n := s.(now := at, ticker := at, heard := true, received := s.received + num, firstDue := None);
    if total <= n.received then n.(status := Request.Succeeded, doneAt := Some(at), tickDue := None) else n
  }

  function OnFirstTimer(s: State): State
    requires s.firstDue.Some?
  {
    var n := s.(now := s.firstDue.value, firstDue := None);
    if s.status == Request.Replied then TimeOut(n) else n
  }

  function OnTick(s: State): State
    requires s.tickDue.Some?
  {
    var n := s.(now := s.tickDue.value, tickDue := Some(s.tickDue.value + PERIOD));
    if n.now - s.ticker > SILENCE then TimeOut(n) else n
  }

  function Next(s: State, e: Event): State {
    match e
    case Decide(at) => if s.deciding && Reaches(s, at) then OnDecide(s, at) else s
    case Message(at, num, total) =>
      if !Reaches(s, at) then s
      else if s.doneAt.Some? then s.(now := at)
      else OnMessage(s, at, num, total)
    case FirstResponseTimer => if s.firstDue.Some? && Reaches(s, s.firstDue.value) then OnFirstTimer(s) else s
    case Tick => if s.tickDue.Some? && Reaches(s, s.tickDue.value) then OnTick(s) else s
    case Pass(at) => if Reaches(s, at) then s.(now := at) else s
  }

  function Execute(s: State, es: seq<Event>): State {
    if es == [] then s else Next(Execute(s, es[..|es| - 1]), es[|es| - 1])
  }

  predicate Pending(s: State) { s.doneAt.None? }

  predicate Timed(s: State) {
    && (Pending(s) <==> s.status == Request.Replied)
    && (Pending(s) ==>
          && s.replyAt <= s.ticker <= s.now
          && s.tickDue.Some? && s.now <= s.tickDue.value <= s.ticker + SILENCE + PERIOD
          && (s.deciding ==> s.firstDue.None? && s.armedAt.None?)
          && (!s.heard ==> s.ticker == s.replyAt && s.tickDue.value == s.replyAt + PERIOD && (s.firstDue.Some? || s.deciding))
          && (s.firstDue.Some? ==>
                s.armedAt.Some? && s.firstDue.value == s.armedAt.value + FIRST_RESPONSE
                && s.ticker <= s.armedAt.value <= s.now <= s.firstDue.value))
    && (!Pending(s) ==> s.tickDue.None?)
  }

  /** How long a timed-out request had been silent, and when at the latest it had to be timed out
      when nothing at all came after the reply. */
  predicate Deserved(s: State) {
    s.status == Request.Timeout ==>
      && s.doneAt.Some?
      && SILENCE <= s.doneAt.value - s.ticker <= SILENCE + PERIOD
      && (!s.heard ==> s.ticker == s.replyAt && s.doneAt.value <= s.replyAt + PERIOD)
      && (!s.heard && s.armedAt.Some? ==> s.doneAt.value <= s.armedAt.value + FIRST_RESPONSE)
  }

  lemma TimedNext(s: State, e: Event)
    requires Timed(s) && Deserved(s)
    ensures Timed(Next(s, e)) && Deserved(Next(s, e))
  {
    if e.Tick? { TimedTick(s); }
    else if e.FirstResponseTimer? { TimedFirst(s); }
    else { TimedOther(s, e); }
  }

  lemma TimedTick(s: State)
    requires Timed(s) && Deserved(s)
    ensures Timed(Next(s, Tick)) && Deserved(Next(s, Tick))
  {}

  lemma TimedFirst(s: State)
    requires Timed(s) && Deserved(s)
    ensures Timed(Next(s, FirstResponseTimer)) && Deserved(Next(s, FirstResponseTimer))
  {}

  lemma TimedOther(s: State, e: Event)
    requires Timed(s) && Deserved(s) && !e.Tick? && !e.FirstResponseTimer?
    ensures Timed(Next(s, e)) && Deserved(Next(s, e))
  {}

  lemma TimedReplied(replyAt: int)
    ensures Timed(Replied(replyAt)) && Deserved(Replied(replyAt))
  {}

  lemma {:induction false} TimedRun(replyAt: int, es: seq<Event>)
    ensures Timed(Execute(Replied(replyAt), es)) && Deserved(Execute(Replied(replyAt), es))
  {
    if es != [] {
      hide Next, Timed, Deserved;
      TimedRun(replyAt, es[..|es| - 1]);
      TimedNext(Execute(Replied(replyAt), es[..|es| - 1]), es[|es| - 1]);
    } else {
      TimedReplied(replyAt);
    }
  }

  // ----- the same, by the events -----

  /** The last event is a message that comes while the request is pending, no timer being overdue. */
  predicate Handles(replyAt: int, es: seq<Event>) {
    es != [] && es[|es| - 1].Message?
    && var s := Execute(Replied(replyAt), es[..|es| - 1]);
       Pending(s) && Reaches(s, es[|es| - 1].at)
  }

  /** When the last message was handled, or the reply came. */
  function LastHeard(replyAt: int, es: seq<Event>): int {
    if es == [] then replyAt
    else if Handles(replyAt, es) then es[|es| - 1].at
    else LastHeard(replyAt, es[..|es| - 1])
  }

  /** How many items the handled messages held. */
  function Items(replyAt: int, es: seq<Event>): int {
    if es == [] then 0
    else Items(replyAt, es[..|es| - 1]) + if Handles(replyAt, es) then es[|es| - 1].num else 0
  }

  predicate Silent(replyAt: int, es: seq<Event>) {
    es == [] || (Silent(replyAt, es[..|es| - 1]) && !Handles(replyAt, es))
  }

  /** When the reply callback had returned. */
  function DecidedAt(replyAt: int, es: seq<Event>): Option<int> {
    if es == [] then None
    else
      var s, before := Execute(Replied(replyAt), es[..|es| - 1]), DecidedAt(replyAt, es[..|es| - 1]);
      if before.None? && es[|es| - 1].Decide? && Reaches(s, es[|es| - 1].at) then Some(es[|es| - 1].at) else before
  }

  /** What the state records is what the events say. */
  predicate Records(replyAt: int, es: seq<Event>) {
    var t := Execute(Replied(replyAt), es);
    && t.ticker == LastHeard(replyAt, es) && t.received == Items(replyAt, es)
    && (t.heard <==> !Silent(replyAt, es))
    && (t.deciding <==> DecidedAt(replyAt, es).None?)
    && (t.armedAt.Some? ==> DecidedAt(replyAt, es) == t.armedAt)
    && (Pending(t) ==> t.armedAt == DecidedAt(replyAt, es))
  }

  lemma {:induction false} ByEvents(replyAt: int, es: seq<Event>)
    ensures Records(replyAt, es)
  {
    hide Records;
    if es == [] {
      NothingRecorded(replyAt);
    } else {
      var e := es[|es| - 1];
      ByEvents(replyAt, es[..|es| - 1]);
      if e.Message? { MessageRecorded(replyAt, es); }
      else if e.Decide? { DecideRecorded(replyAt, es); }
      else { TimerRecorded(replyAt, es); }
    }
  }

  lemma NothingRecorded(replyAt: int)
    ensures Records(replyAt, [])
  {}

  lemma MessageRecorded(replyAt: int, es: seq<Event>)
    requires es != [] && es[|es| - 1].Message? && Records(replyAt, es[..|es| - 1])
    ensures Records(replyAt, es)
  {}

  lemma {:induction false} DecideRecorded(replyAt: int, es: seq<Event>)
    requires es != [] && es[|es| - 1].Decide? && Records(replyAt, es[..|es| - 1])
    ensures Records(replyAt, es)
  {
    PendingIsReplied(Execute(Replied(replyAt), es[..|es| - 1]), replyAt, es[..|es| - 1]);
  }

  lemma TimerRecorded(replyAt: int, es: seq<Event>)
    requires es != [] && !es[|es| - 1].Message? && !es[|es| - 1].Decide? && Records(replyAt, es[..|es| - 1])
    ensures Records(replyAt, es)
  {}

  lemma {:induction false} PendingIsReplied(s: State, replyAt: int, es: seq<Event>)
    requires s == Execute(Replied(replyAt), es)
    ensures Pending(s) <==> s.status == Request.Replied
  {
    TimedRun(replyAt, es);
  }

  /** Whatever happens after the reply: a request is only timed out after a silence of at least 5 s,
      so that messages less than 5 s apart keep it alive; and it is never left pending beyond 15 s after
      its last message, or when nothing came beyond 10 s after its reply and 5 s after the reply
      callback had returned. */
  lemma {:induction false} ListTiming(replyAt: int, es: seq<Event>)
    ensures var t := Execute(Replied(replyAt), es);
            && (t.status == Request.Timeout ==> t.doneAt.Some? && t.doneAt.value - LastHeard(replyAt, es) >= 5000)
            && (Pending(t) ==> t.now <= LastHeard(replyAt, es) + 15000)
            && (Pending(t) && Silent(replyAt, es) ==> t.now <= replyAt + 10000)
            && (Pending(t) && Silent(replyAt, es) && DecidedAt(replyAt, es).Some? ==> t.now <= DecidedAt(replyAt, es).value + 5000)
  {
    hide Next;
    TimedRun(replyAt, es);
    SameReply(replyAt, es);
    ByEvents(replyAt, es);
  }

  /** A batch ends the request, at once, exactly when its total does not exceed what has come by then; any
      batch stops the first timer. */
  lemma {:induction false} MessageDecides(replyAt: int, es: seq<Event>, at: int, num: int, total: int)
    requires Handles(replyAt, es + [Message(at, num, total)])
    ensures var t := Execute(Replied(replyAt), es + [Message(at, num, total)]);
            && t.firstDue == None
            && (if total <= Items(replyAt, es) + num then t.status == Request.Succeeded && t.doneAt == Some(at)
                else Pending(t) && t.status == Request.Replied)
  {
    assert (es + [Message(at, num, total)])[..|es|] == es;
    ByEvents(replyAt, es);
    PendingIsReplied(Execute(Replied(replyAt), es), replyAt, es);
  }

  /** The timers of a pending request: the list's own first fires 10 s after the reply and times the request
      out when the last message is more than 5 s old, otherwise it fires again 10 s later; the first
      timer is armed when the reply callback has returned, for 5 s, and times it out. */
  lemma {:induction false} TimersDecide(replyAt: int, es: seq<Event>, at: int)
    requires Pending(Execute(Replied(replyAt), es))
    ensures Execute(Replied(replyAt), []).tickDue == Some(replyAt + 10000) && Execute(Replied(replyAt), []).firstDue == None
    ensures var s, t := Execute(Replied(replyAt), es), Execute(Replied(replyAt), es + [Tick]);
            s.tickDue == Some(at) && Reaches(s, at) ==>
              if at - LastHeard(replyAt, es) > 5000 then t.status == Request.Timeout && t.doneAt == Some(at)
              else Pending(t) && t.tickDue == Some(at + 10000)
    ensures var s, t := Execute(Replied(replyAt), es), Execute(Replied(replyAt), es + [FirstResponseTimer]);
            s.firstDue == Some(at) && Reaches(s, at) ==> t.status == Request.Timeout && t.doneAt == Some(at) && t.firstDue == None
    ensures var s, t := Execute(Replied(replyAt), es), Execute(Replied(replyAt), es + [Decide(at)]);
            DecidedAt(replyAt, es).None? && Reaches(s, at) ==> Pending(t) && t.firstDue == Some(at + 5000)
  {
    assert (es + [Tick])[..|es|] == es && (es + [FirstResponseTimer])[..|es|] == es && (es + [Decide(at)])[..|es|] == es;
    ByEvents(replyAt, es);
    PendingIsReplied(Execute(Replied(replyAt), es), replyAt, es);
  }

  lemma {:induction false} SameReply(replyAt: int, es: seq<Event>)
    ensures Execute(Replied(replyAt), es).replyAt == replyAt
  {
    if es != [] { SameReply(replyAt, es[..|es| - 1]); }
  }

  /** When the list's own timer will time out if nothing more comes. */
  function TickDeadline(s: State): int
    requires s.tickDue.Some?
  {
    if s.tickDue.value - s.ticker > SILENCE then s.tickDue.value else s.tickDue.value + PERIOD
  }

  /** And whichever of the timers is first. */
  function Deadline(s: State): int
    requires s.tickDue.Some?
  {
    if s.firstDue.Some? && s.firstDue.value <= TickDeadline(s) then s.firstDue.value else TickDeadline(s)
  }

  /** Still pending with the same deadline ahead, or timed out at the deadline `d`. */
  predicate Heading(t: State, d: int) {
    && Timed(t) && !t.deciding
    && (if Pending(t) then t.now <= Deadline(t) == d else t.status == Request.Timeout && t.doneAt == Some(d))
  }

  lemma HeadingNext(t: State, d: int, e: Event)
    requires Heading(t, d) && !e.Message?
    ensures Heading(Next(t, e), d)
  {}

  /** Without further messages a request whose reply has been handled times out exactly at its deadline,
      whatever else runs: while the first timer is armed 5 s after that, if its own timer does not come
      first; otherwise more than 5 s and at most 15 s after the last message. */
  lemma {:induction false} SilenceEnds(s: State, es: seq<Event>)
    requires Timed(s) && Pending(s) && !s.deciding && forall i :: 0 <= i < |es| ==> !es[i].Message?
    ensures Heading(Execute(s, es), Deadline(s))
    ensures s.ticker + SILENCE <= Deadline(s) <= s.ticker + SILENCE + PERIOD
    ensures if s.firstDue.Some? then Deadline(s) <= s.armedAt.value + FIRST_RESPONSE else s.ticker + SILENCE < Deadline(s)
    ensures !s.heard && s.armedAt.value <= s.replyAt + PERIOD - FIRST_RESPONSE ==> Deadline(s) == s.armedAt.value + FIRST_RESPONSE
  {
    if es != [] {
      SilenceEnds(s, es[..|es| - 1]);
      hide Next, Heading;
      HeadingNext(Execute(s, es[..|es| - 1]), Deadline(s), es[|es| - 1]);
    }
  }

  /** And the timers alone bring it there, in at most two steps. */
  lemma SilenceStops(s: State) returns (es: seq<Event>)
    requires Timed(s) && Pending(s) && !s.deciding
    ensures |es| <= 2 && !Pending(Execute(s, es))
  {
    if s.firstDue.Some? && s.firstDue.value <= s.tickDue.value {
      es := [FirstResponseTimer];
      assert Execute(s, es[..0]) == s;
    } else if s.tickDue.value - s.ticker > SILENCE {
      es := [Tick];
      assert Execute(s, es[..0]) == s;
    } else {
      es := [Tick, if s.firstDue.Some? then FirstResponseTimer else Tick];
      assert es[..1] == [Tick] && Execute(s, [Tick][..0]) == s;
      assert Execute(s, es[..1]) == Next(s, Tick);
    }
  }

  // ----- the object -----

  class RequestList {
    var received: int
    var sumNum: int
    var ticker: int
    var status: Request.Status
    var firstDue: Option<int>
    var tickDue: Option<int>
    ghost var now: int
    ghost var replyAt: int
    ghost var deciding: bool
    ghost var armedAt: Option<int>
    ghost var heard: bool
    ghost var doneAt: Option<int>

    ghost function Model(): State
      reads this
    {
      State(now, replyAt, ticker, received, heard, status, deciding, armedAt, firstDue, tickDue, doneAt)
    }

    /** `on_reply` up to the reply callback; an earlier response is not part of the timing. */
    constructor (at: int)
      ensures Model() == Replied(at)
    {
      received, sumNum, ticker, status := 0, 0, at, Request.Replied;
      firstDue, tickDue := None, Some(at + PERIOD);
      now, replyAt, heard, deciding, armedAt, doneAt := at, at, false, true, None, None;
    }

    method OnCompleted()
      modifies this`tickDue, this`doneAt
      ensures tickDue == None && doneAt == (if old(doneAt).Some? then old(doneAt) else Some(now))
    {
      tickDue := None;
      if doneAt.None? { doneAt := Some(now); }
    }

    /** The rest of `on_reply`. */
    method ArmFirstTimer(at: int)
      requires deciding && Reaches(Model(), at)
      modifies this
      ensures Model() == Next(old(Model()), Decide(at))
    {
      now, deciding := at, false;
      if status == Request.Replied {
        armedAt := Some(at);
        firstDue := Some(at + FIRST_RESPONSE);
      }
    }

    method OnResponse(at: int, num: int, total: int) returns (completed: bool)
      requires Reaches(Model(), at) && Pending(Model())
      modifies this
      ensures Model() == Next(old(Model()), Message(at, num, total))
      ensures completed <==> total <= old(received) + num
    {
      now, heard := at, true;
      firstDue := None;
      ticker := at;
      var before := received;
      received := received + num;
      sumNum := total;
      completed := sumNum <= before + num;
      if completed {
        tickDue := None;
        status := Request.Succeeded;
        OnCompleted();
      }
    }

    /** Returns whether the timer stays armed. */
    method OnTimer() returns (again: bool)
      requires tickDue.Some? && Reaches(Model(), tickDue.value) && Pending(Model())
      modifies this
      ensures Model() == Next(old(Model()), Tick)
      ensures again <==> Pending(Model())
    {
      now := tickDue.value;
      if tickDue.value - ticker > SILENCE {
        status := Request.Timeout;
        OnCompleted();
        return false;
      }
      tickDue := Some(tickDue.value + PERIOD);
      return true;
    }

    method OnFirstResponseTimer()
      requires firstDue.Some? && Reaches(Model(), firstDue.value) && Pending(Model())
      modifies this
      ensures Model() == Next(old(Model()), FirstResponseTimer)
    {
      now := firstDue.value;
      firstDue := None;
      if status == Request.Replied {
        status := Request.Timeout;
        OnCompleted();
      }
    }
  }
}
