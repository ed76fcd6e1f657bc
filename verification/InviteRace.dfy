/** The handlers of one INVITE session on several threads. `Invite` takes every handler as one step;
    here the lookup in the registry, the guard of `to_bye`, its request, the write of the status, the
    removal from the registry and the result callback are steps of their own, which interleave. */
module InviteRace {
  import I = Invite

  /** What a thread goes on with once a status is set. */
  datatype After = Stop | Fail | Report | Mark

  /** Where a thread is. */
  datatype Task =
    | Found(reply: I.Final)      // the session looked up for a final reply
    | Calling(after: After)      // entering `to_bye`
    | Guarded(after: After)      // past its guard on the status
    | Writing(status: I.Status, after: After, sent: bool, peer: bool)
                                 // entering `set_status`: after the request of `to_bye`, or for the peer
    | Unlisting(after: After)    // an ended status written, the entry not yet removed
    | Reporting                  // about to call the result callback
    | Marking                    // the step of the 5 s timer is over
    | Done

  datatype State = Race(s: I.State, tasks: seq<Task>)

  datatype Event = Begin(e: I.Event) | Run(k: nat)

  function Goes(after: After): Task {
    match after
    case Stop => Done
    case Fail => Writing(I.Failed, Report, false, false)
    case Report => Reporting
    case Mark => Marking
  }

  /** The choice of `to_bye` past its guard. */
  function Chosen(s: I.State, after: After): (chosen: (I.State, Task))
    ensures chosen.0.status == s.status && chosen.0.registered == s.registered
  {
    if !s.platform then (s, Writing(I.ByeSeen, after, true, false))
    else if s.transaction then (I.Emit(s, I.CancelRequest), Writing(I.Cancelled, after, true, false))
    else if s.dialog then (I.Emit(s, I.ByeRequest), Writing(I.ByeSeen, after, true, false))
    else (s, Writing(I.Cancelled, after, true, false))
  }

  function Stored(s: I.State, r: I.Final): (t: I.State)
    ensures t.status == s.status && t.registered == s.registered && t.log == s.log
  {
    s.(transaction := false, finalSeen := true, dialog := s.dialog || r.hasDialog)
  }

  predicate Usable(r: I.Final) { r.success && r.hasSdp && r.sdpParses && r.ackSent }

  function Judged(r: I.Final): Task {
    if Usable(r) then Writing(I.Acked, Report, false, false)
    else if r.success then Calling(Fail)
    else Writing(I.Failed, Report, false, false)
  }

  function Written(s: I.State, st: I.Status, peer: bool): (t: I.State)
    ensures t.status == st && t.registered == s.registered && t.log == s.log
  {
    if peer then s.(status := st, peerEnded := true) else s.(status := st)
  }

  function Removed(s: I.State): (t: I.State)
    ensures t.status == s.status && !t.registered && t.log == s.log
  {
    s.(registered := false)
  }

  function Marked(s: I.State): (t: I.State)
    ensures t.status == s.status && t.registered == s.registered && t.log == s.log
  {
    s.(timerRan := true)
  }

  /** One step of one thread. */
  function Step(s: I.State, task: Task): (I.State, Task) {
    match task
    case Found(r) => (Stored(s, r), Judged(r))
    case Calling(after) => (s, if I.Live(s.status) then Guarded(after) else Goes(after))
    case Guarded(after) => Chosen(s, after)
    case Writing(st, after, _, peer) =>
      (Written(s, st, peer), if I.Live(st) then Goes(after) else Unlisting(after))
    case Unlisting(after) => (Removed(s), Goes(after))
    case Reporting => (I.Report(s), Done)
    case Marking => (Marked(s), Done)
    case Done => (s, Done)
  }

  predicate AllDone(tasks: seq<Task>) { forall k :: 0 <= k < |tasks| ==> tasks[k] == Done }

  function Rejected(s: I.State): (t: I.State)
    ensures t.status == s.status && t.registered == s.registered
  {
    s.(started := true)
  }

  function Ticked(s: I.State): (t: I.State)
    ensures t.status == s.status && t.registered == s.registered
  {
    if s.timers > 0 then s.(timers := s.timers - 1) else s
  }

  /** A thread enters the code of an event: what it does at once, and where it is then. */
  function Enter(s: I.State, e: I.Event): (I.State, Task) {
    match e
    case Start => (I.Next(s, e), Done)
    case SendResult(ok) => (s, if !ok && s.callback then Writing(I.Failed, Report, false, false) else Done)
    case Provisional => (s, Writing(I.Trying, Stop, false, false))
    case FinalReply(r) => (s, Found(r))
    case Answer(success, hasSdp) =>
      if success && hasSdp then (I.Next(s, e), Done)
      else (Rejected(s), Writing(I.Failed, Stop, false, false))
    case AckTimer =>
      if s.status != I.Acked then (Ticked(s), Calling(Mark)) else (Marked(Ticked(s)), Done)
    case ToBye => (s, Calling(Stop))
    case PeerBye => (s, Writing(I.ByeSeen, Stop, false, true))
    case PeerCancel => (s, Writing(I.Cancelled, Stop, false, true))
    case PeerAck => (s, Writing(I.Acked, Stop, false, false))
    case PlatformGone => (I.Next(s, e), Done)
    case Destroy => (s, Calling(Stop))
  }

  /** Whether a handler may begin: as in `Invite`, and the destructor only when no thread is left. */
  predicate CanBegin(r: State, e: I.Event) { I.Enabled(r.s, e) && (e.Destroy? ==> AllDone(r.tasks)) }

  function Next(r: State, ev: Event): State {
    match ev
    case Begin(e) =>
      if !CanBegin(r, e) then r
      else var (s, task) := Enter(r.s, e); Race(s, r.tasks + [task])
    case Run(k) =>
      if k >= |r.tasks| then r
      else var (s, task) := Step(r.s, r.tasks[k]); Race(s, r.tasks[k := task])
  }

  function Execute(r: State, es: seq<Event>): State {
    if es == [] then r else Next(Execute(r, es[..|es| - 1]), es[|es| - 1])
  }

  function Created(role: I.Role): State { Race(I.Created(role), []) }

  // ----- one handler at a time -----

  function Rest(after: After): nat {
    match after case Stop => 0 case Mark => 1 case Report => 1 case Fail => 3
  }

  function Rank(task: Task): nat {
    match task
    case Found(_) => 8
    case Calling(after) => 4 + Rest(after)
    case Guarded(after) => 3 + Rest(after)
    case Writing(_, after, _, _) => 2 + Rest(after)
    case Unlisting(after) => 1 + Rest(after)
    case Reporting => 1
    case Marking => 1
    case Done => 0
  }

  /** The thread runs to its end with no other in between. */
  function Alone(s: I.State, task: Task): I.State
    decreases Rank(task)
  {
    if task == Done then s else var (t, next) := Step(s, task); Alone(t, next)
  }

  lemma AloneStep(s: I.State, task: Task)
    requires task != Done
    ensures Alone(s, task) == Alone(Step(s, task).0, Step(s, task).1)
  {}

  lemma AloneWrites(s: I.State, st: I.Status, after: After, sent: bool)
    ensures Alone(s, Writing(st, after, sent, false)) == Alone(I.SetStatus(s, st), Goes(after))
  {
    hide Alone, Goes, I.SetStatus;
    AloneStep(s, Writing(st, after, sent, false));
    if !I.Live(st) { AloneStep(Written(s, st, false), Unlisting(after)); }
    StatusParts(s, st);
  }

  lemma StatusParts(s: I.State, st: I.Status)
    ensures I.SetStatus(s, st) == if I.Live(st) then s.(status := st) else s.(status := st, registered := false)
  {}

  lemma AloneEnds(s: I.State, after: After)
    ensures Alone(s, Calling(after)) == Alone(I.End(s), Goes(after))
  {
    if I.Live(s.status) {
      var (t, next) := Chosen(s, after);
      assert Alone(s, Guarded(after)) == Alone(t, next);
      AloneWrites(t, next.status, after, true);
    }
  }

  lemma AloneFinal(s: I.State, r: I.Final)
    ensures Alone(s, Found(r)) == I.OnFinal(s, r)
  {
    hide I.SetStatus, I.End, I.Report, Alone;
    var t := Stored(s, r);
    AloneStep(s, Found(r));
    AloneReports(I.Settle(t, r));
    if r.success && r.hasSdp && r.sdpParses && r.ackSent {
      AloneWrites(t, I.Acked, Report, false);
    } else if r.success {
      AloneEnds(t, Fail);
      AloneWrites(I.End(t), I.Failed, Report, false);
    } else {
      AloneWrites(t, I.Failed, Report, false);
    }
  }

  lemma AloneReports(s: I.State)
    ensures Alone(s, Reporting) == I.Report(s)
  {
    assert Alone(I.Report(s), Done) == I.Report(s);
  }

  /** A handler that runs alone is the one step that `Invite` makes of it. */
  lemma SerialIsAtomic(s: I.State, e: I.Event)
    requires I.Enabled(s, e)
    ensures var (t, task) := Enter(s, e); Alone(t, task) == I.Next(s, e)
  {
    hide I.End, I.OnFinal, I.Report;
    match e
    case SendResult(ok) =>
      AloneWrites(s, I.Failed, Report, false);
      AloneReports(I.SetStatus(s, I.Failed));
    case Provisional => AloneWrites(s, I.Trying, Stop, false);
    case FinalReply(r) => AloneFinal(s, r);
    case Answer(success, hasSdp) => AloneWrites(s.(started := true), I.Failed, Stop, false);
    case AckTimer => AloneTimer(s);
    case ToBye => AloneEnds(s, Stop);
    case Destroy => AloneEnds(s, Stop);
    case PeerBye => AlonePeer(s, I.ByeSeen);
    case PeerCancel => AlonePeer(s, I.Cancelled);
    case PeerAck => AloneWrites(s, I.Acked, Stop, false);
    case _ =>
  }

  lemma AlonePeer(s: I.State, st: I.Status)
    requires !I.Live(st)
    ensures Alone(s, Writing(st, Stop, false, true)) == I.SetStatus(s, st).(peerEnded := true)
  {
    var t := s.(status := st, peerEnded := true);
    assert Alone(s, Writing(st, Stop, false, true)) == Alone(t, Unlisting(Stop));
    assert Alone(t, Unlisting(Stop)) == t.(registered := false);
  }

  lemma AloneMarks(s: I.State)
    ensures Alone(s, Marking) == Marked(s)
  {
    AloneStep(s, Marking);
    AloneDone(Marked(s));
  }

  lemma AloneDone(s: I.State)
    ensures Alone(s, Done) == s
  {}

  lemma TimerStep(s: I.State)
    requires s.timers > 0
    ensures I.Next(s, I.AckTimer) == if s.status != I.Acked then I.End(Marked(Ticked(s))) else Marked(Ticked(s))
  {
    hide I.End;
    assert s.(timers := s.timers - 1, timerRan := true) == Marked(Ticked(s));
  }

  lemma AloneTimer(s: I.State)
    requires s.timers > 0
    ensures var (t, task) := Enter(s, I.AckTimer); Alone(t, task) == I.Next(s, I.AckTimer)
  {
    hide I.End, I.Next, Alone, Marked, Ticked;
    TimerStep(s);
    if s.status != I.Acked {
      AloneEnds(Ticked(s), Mark);
      AloneMarks(I.End(Ticked(s)));
      MarkLast(Ticked(s));
    } else {
      AloneDone(Marked(Ticked(s)));
    }
  }

  lemma MarkLast(t: I.State)
    ensures I.End(Marked(t)) == Marked(I.End(t))
  {
    hide I.SetStatus;
    var u := t.(timerRan := true);
    MarkStatus(t, I.ByeSeen);
    MarkStatus(t, I.Cancelled);
    MarkStatus(I.Emit(t, I.CancelRequest), I.Cancelled);
    MarkStatus(I.Emit(t, I.ByeRequest), I.ByeSeen);
    if !I.Live(t.status) {
    } else if !t.platform {
    } else if t.transaction {
      assert I.Emit(u, I.CancelRequest) == I.Emit(t, I.CancelRequest).(timerRan := true);
    } else if t.dialog {
      assert I.Emit(u, I.ByeRequest) == I.Emit(t, I.ByeRequest).(timerRan := true);
    }
  }

  lemma MarkStatus(t: I.State, st: I.Status)
    ensures I.SetStatus(t.(timerRan := true), st) == I.SetStatus(t, st).(timerRan := true)
  {}

  // ----- absorption -----

  /** A live status is written to a session that has ended. */
  predicate Stale(r: State, ev: Event) {
    ev.Run? && ev.k < |r.tasks| && r.tasks[ev.k].Writing? && I.Live(r.tasks[ev.k].status) && !I.Live(r.s.status)
  }

  predicate NoneStale(r: State, es: seq<Event>) {
    es == [] || (NoneStale(r, es[..|es| - 1]) && !Stale(Execute(r, es[..|es| - 1]), es[|es| - 1]))
  }

  /** No step of the run takes the session from ended to live. */
  predicate Absorbed(r: State, es: seq<Event>) {
    es == [] || (Absorbed(r, es[..|es| - 1])
                 && (I.Live(Execute(r, es).s.status) ==> I.Live(Execute(r, es[..|es| - 1]).s.status)))
  }

  lemma StepStatus(s: I.State, task: Task)
    ensures Step(s, task).0.status == if task.Writing? then task.status else s.status
    ensures Step(s, task).0.registered == (s.registered && !task.Unlisting?)
  {
    hide I.Report, Chosen, Written, Stored, Judged, Goes, Removed, Marked;
  }

  lemma StartStatus(s: I.State, e: I.Event)
    requires e.Start? || e.PlatformGone? || (e.Answer? && e.success && e.hasSdp)
    ensures I.Next(s, e).status == s.status && (I.Next(s, e).registered ==> s.registered || !e.PlatformGone?)
  {}

  lemma EnterStatus(s: I.State, e: I.Event)
    ensures Enter(s, e).0.status == s.status
    ensures Enter(s, e).0.registered ==> s.registered || e.Start? || (e.Answer? && e.success && e.hasSdp)
  {
    hide I.Next, Rejected, Ticked, Marked;
    if e.Start? || e.PlatformGone? || (e.Answer? && e.success && e.hasSdp) { StartStatus(s, e); }
  }

  lemma RevivedExactly(r: State, ev: Event)
    ensures !I.Live(r.s.status) && I.Live(Next(r, ev).s.status) <==> Stale(r, ev)
  {
    hide Step, Enter, CanBegin;
    match ev
    case Begin(e) => EnterStatus(r.s, e);
    case Run(k) => if k < |r.tasks| { StepStatus(r.s, r.tasks[k]); }
  }

  /** Such a write is the only thing that does it. */
  lemma {:induction false} StaleRevives(r: State, es: seq<Event>)
    ensures Absorbed(r, es) <==> NoneStale(r, es)
  {
    if es != [] {
      hide Next, Stale;
      StaleRevives(r, es[..|es| - 1]);
      RevivedExactly(Execute(r, es[..|es| - 1]), es[|es| - 1]);
    }
  }

  /** `I.StartsLive` and `I.StartsOnce` at every beginning. */
  predicate StartsLive(r: State, ev: Event) { ev.Begin? ==> I.StartsLive(r.s, ev.e) }

  predicate AllStartLive(r: State, es: seq<Event>) {
    es == [] || (AllStartLive(r, es[..|es| - 1]) && StartsLive(Execute(r, es[..|es| - 1]), es[|es| - 1]))
  }

  /** A handler under way that will write a live status. */
  predicate Reviving(task: Task) {
    (task.Writing? && I.Live(task.status)) || (task.Found? && Usable(task.reply))
  }

  /** The session can still be found, or has been found by a handler that will make it live. */
  ghost predicate Open(r: State) {
    r.s.registered || exists k :: 0 <= k < |r.tasks| && Reviving(r.tasks[k])
  }

  lemma ClosedEnter(s: I.State, e: I.Event)
    requires !s.registered && !I.Live(s.status) && I.Enabled(s, e) && I.StartsLive(s, e)
    ensures !Enter(s, e).0.registered && !I.Live(Enter(s, e).0.status) && !Reviving(Enter(s, e).1)
  {
    hide I.Next, Rejected, Ticked, Marked;
    EnterStatus(s, e);
  }

  lemma ClosedStep(s: I.State, task: Task)
    requires !s.registered && !I.Live(s.status) && !Reviving(task)
    ensures !Step(s, task).0.registered && !I.Live(Step(s, task).0.status) && !Reviving(Step(s, task).1)
  {
    hide I.Report, Removed, Marked, Written, Stored;
    StepStatus(s, task);
  }

  lemma ClosedNext(r: State, ev: Event)
    requires !Open(r) && !I.Live(r.s.status) && StartsLive(r, ev)
    ensures !Open(Next(r, ev)) && !I.Live(Next(r, ev).s.status)
  {
    hide Enter, Step, Reviving, I.StartsLive;
    match ev
    case Begin(e) => if CanBegin(r, e) { ClosedEnter(r.s, e); }
    case Run(k) => if k < |r.tasks| { ClosedStep(r.s, r.tasks[k]); }
  }

  lemma {:induction false} ClosedRun(r: State, es: seq<Event>)
    requires !Open(r) && !I.Live(r.s.status) && AllStartLive(r, es)
    ensures !Open(Execute(r, es)) && !I.Live(Execute(r, es).s.status)
  {
    if es != [] {
      hide Next, Open, StartsLive;
      ClosedRun(r, es[..|es| - 1]);
      ClosedNext(Execute(r, es[..|es| - 1]), es[|es| - 1]);
    }
  }

  /** No session is started or answered. */
  predicate NoStarts(es: seq<Event>) {
    forall i :: 0 <= i < |es| && es[i].Begin? ==> !es[i].e.Start? && !es[i].e.Answer?
  }

  lemma {:induction false} NoStartsLive(r: State, es: seq<Event>)
    requires NoStarts(es)
    ensures AllStartLive(r, es)
  {
    if es != [] {
      NoStartsLive(r, es[..|es| - 1]);
      assert StartsLive(Execute(r, es[..|es| - 1]), es[|es| - 1]);
    }
  }

  lemma ExecuteTwo(r: State, a: Event, b: Event)
    ensures Execute(r, [a]) == Next(r, a) && Execute(r, [a, b]) == Next(Next(r, a), b)
  {
    hide Next;
    assert [a][..0] == [] && [a, b][..1] == [a];
    assert Execute(r, [a]) == Next(r, a);
  }

  lemma WriteRevives(r: State, k: nat)
    requires k < |r.tasks| && r.tasks[k].Writing? && I.Live(r.tasks[k].status)
    ensures I.Live(Next(r, Run(k)).s.status)
  {
    hide Written;
  }

  /** An open session is brought to life by the handler under way, or by the next acknowledgement. */
  lemma OpenRevives(r: State) returns (es: seq<Event>)
    requires Open(r)
    ensures NoStarts(es) && I.Live(Execute(r, es).s.status)
  {
    if k :| 0 <= k < |r.tasks| && Reviving(r.tasks[k]) {
      es := [Run(k), Run(k)];
      ExecuteTwo(r, Run(k), Run(k));
      if r.tasks[k].Writing? {
        es := [Run(k)];
        WriteRevives(r, k);
      } else {
        FoundWrites(r, k);
        WriteRevives(Next(r, Run(k)), k);
      }
    } else {
      var n := |r.tasks|;
      es := [Begin(I.PeerAck), Run(n)];
      ExecuteTwo(r, Begin(I.PeerAck), Run(n));
      assert Next(r, Begin(I.PeerAck)).tasks[n] == Writing(I.Acked, Stop, false, false);
      WriteRevives(Next(r, Begin(I.PeerAck)), n);
    }
  }

  lemma FoundWrites(r: State, k: nat)
    requires k < |r.tasks| && r.tasks[k].Found? && Usable(r.tasks[k].reply)
    ensures k < |Next(r, Run(k)).tasks| && Next(r, Run(k)).tasks[k] == Writing(I.Acked, Report, false, false)
  {
    hide Stored;
  }

  /** The run starts and answers the session only while it is live, and leaves it live. */
  predicate Revives(r: State, es: seq<Event>) { AllStartLive(r, es) && I.Live(Execute(r, es).s.status) }

  /** At every ended session, with starts and answers only while live: some interleaving makes it live
      again if and only if it is still in the registry, or a handler that found it there is about to write
      a live status. */
  lemma AbsorbedExactly(r: State)
    requires !I.Live(r.s.status)
    ensures (exists es :: Revives(r, es)) <==> Open(r)
  {
    hide Open, Next, StartsLive;
    if Open(r) {
      var es := OpenRevives(r);
      NoStartsLive(r, es);
      assert Revives(r, es);
    } else {
      forall es ensures !Revives(r, es) { if AllStartLive(r, es) { ClosedRun(r, es); } }
    }
  }

  ghost predicate Unlisted(tasks: seq<Task>) { exists k :: 0 <= k < |tasks| && tasks[k].Unlisting? }

  ghost predicate Listing(r: State) { r.s.registered ==> I.Live(r.s.status) || Unlisted(r.tasks) }

  lemma ListingNext(r: State, ev: Event)
    requires Listing(r) && StartsLive(r, ev) && !Stale(r, ev)
    ensures Listing(Next(r, ev))
  {
    hide Step, Enter, CanBegin, Unlisted;
    match ev
    case Begin(e) =>
      EnterStatus(r.s, e);
      if Unlisted(r.tasks) && CanBegin(r, e) { KeptByBegin(r.tasks, Enter(r.s, e).1); }
    case Run(k) =>
      if k < |r.tasks| {
        StepStatus(r.s, r.tasks[k]);
        if r.tasks[k].Writing? && !I.Live(r.tasks[k].status) {
          WrittenUnlists(r.s, r.tasks, k);
        } else if Unlisted(r.tasks) && !r.tasks[k].Unlisting? {
          KeptByRun(r.tasks, k, Step(r.s, r.tasks[k]).1);
        }
      }
  }

  lemma WrittenUnlists(s: I.State, tasks: seq<Task>, k: nat)
    requires k < |tasks| && tasks[k].Writing? && !I.Live(tasks[k].status)
    ensures Unlisted(tasks[k := Step(s, tasks[k]).1])
  {
    assert tasks[k := Step(s, tasks[k]).1][k].Unlisting?;
  }

  lemma KeptByBegin(tasks: seq<Task>, task: Task)
    requires Unlisted(tasks)
    ensures Unlisted(tasks + [task])
  {
    var j :| 0 <= j < |tasks| && tasks[j].Unlisting?;
    assert (tasks + [task])[j].Unlisting?;
  }

  lemma KeptByRun(tasks: seq<Task>, k: nat, task: Task)
    requires k < |tasks| && Unlisted(tasks) && !tasks[k].Unlisting?
    ensures Unlisted(tasks[k := task])
  {
    var j :| 0 <= j < |tasks| && tasks[j].Unlisting?;
    assert tasks[k := task][j].Unlisting?;
  }

  lemma {:induction false} ListingRun(role: I.Role, es: seq<Event>)
    requires AllStartLive(Created(role), es) && NoneStale(Created(role), es)
    ensures Listing(Execute(Created(role), es))
  {
    if es != [] {
      hide Next, Stale, Listing, StartsLive;
      ListingRun(role, es[..|es| - 1]);
      ListingNext(Execute(Created(role), es[..|es| - 1]), es[|es| - 1]);
    }
  }

  /** In such runs, when sessions are started and answered only while live: a session in the registry is
      live, or some thread is about to remove it. */
  lemma {:induction false} RegisteredIsLive(role: I.Role, es: seq<Event>)
    requires AllStartLive(Created(role), es) && NoneStale(Created(role), es)
    ensures var r := Execute(Created(role), es); r.s.registered ==> I.Live(r.s.status) || Unlisted(r.tasks)
  {
    ListingRun(role, es);
  }

  // ----- ending -----

  predicate IsSent(task: Task) { task.Writing? && task.sent }

  ghost predicate SentPending(tasks: seq<Task>) { exists k :: 0 <= k < |tasks| && IsSent(tasks[k]) }

  /** A call of `to_bye` passes from its guard to its request although the session has ended in between,
      or another call has sent its request and not yet written the status. */
  ghost predicate Late(r: State, ev: Event) {
    ev.Run? && ev.k < |r.tasks| && r.tasks[ev.k].Guarded? && (!I.Live(r.s.status) || SentPending(r.tasks))
  }

  ghost predicate NoneLate(r: State, es: seq<Event>) {
    es == [] || (NoneLate(r, es[..|es| - 1]) && !Late(Execute(r, es[..|es| - 1]), es[|es| - 1]))
  }

  predicate StartsOnce(r: State, ev: Event) { ev.Begin? ==> I.StartsOnce(r.s, ev.e) }

  predicate AllStartOnce(r: State, es: seq<Event>) {
    es == [] || (AllStartOnce(r, es[..|es| - 1]) && StartsOnce(Execute(r, es[..|es| - 1]), es[|es| - 1]))
  }

  /** What a thread may hold, given its session. */
  predicate Fits(s: I.State, task: Task) {
    match task
    case Found(_) => s.role == I.Outgoing && s.started
    case Calling(after) => after == Mark ==> s.role == I.Incoming
    case Guarded(after) => after == Mark ==> s.role == I.Incoming
    case Writing(st, after, sent, peer) =>
      && (after == Mark ==> s.role == I.Incoming)
      && (I.Live(st) ==> !sent && !peer && after != Mark && after != Fail
                         && (st == I.Acked || (st == I.Trying && s.role == I.Outgoing)))
    case Unlisting(after) => !I.Live(s.status) && (after == Mark ==> s.role == I.Incoming)
    case Reporting => true
    case Marking => s.role == I.Incoming && !I.Live(s.status)
    case Done => true
  }

  predicate Session(s: I.State) {
    && (s.transaction ==> !s.finalSeen && s.role == I.Outgoing)
    && (s.registered || s.finalSeen || s.callback ==> s.started)
    && (s.peerEnded ==> !I.Live(s.status))
    && s.results + (if s.callback then 1 else 0) <= (if s.started then 1 else 0)
    && (s.timerRan ==> s.role == I.Incoming && (s.status == I.Acked || !I.Live(s.status)))
    && (s.timers > 0 ==> s.role == I.Incoming)
  }

  /** At most one request, justified, and once it is out the session is ended or about to be. */
  ghost predicate OneRequest(r: State) {
    r.s.log == [] || (|r.s.log| == 1 && I.Justified(r.s.log[0]) && (!I.Live(r.s.status) || SentPending(r.tasks)))
  }

  ghost predicate Ending(r: State) {
    Session(r.s) && OneRequest(r) && forall k :: 0 <= k < |r.tasks| ==> Fits(r.s, r.tasks[k])
  }

  /** What other threads hold still fits after a step that keeps the role, keeps an ended session ended,
      and starts but does not unstart it. */
  lemma FitsAfter(s: I.State, t: I.State, task: Task)
    requires Fits(s, task) && t.role == s.role && (s.started ==> t.started) && (!I.Live(s.status) ==> !I.Live(t.status))
    ensures Fits(t, task)
  {}

  predicate Grows(s: I.State, t: I.State) {
    t.role == s.role && (s.started ==> t.started) && (!I.Live(s.status) ==> !I.Live(t.status))
  }

  lemma EnterStart(s: I.State, e: I.Event)
    requires Session(s) && I.Enabled(s, e) && I.StartsOnce(s, e)
    requires e.Start? || e.PlatformGone? || (e.Answer? && e.success && e.hasSdp)
    ensures Session(I.Next(s, e)) && Grows(s, I.Next(s, e)) && I.Next(s, e).log == s.log && I.Next(s, e).status == s.status
  {}

  lemma EnterSession(s: I.State, e: I.Event)
    requires Session(s) && I.Enabled(s, e) && I.StartsOnce(s, e)
    ensures var (t, task) := Enter(s, e);
            Session(t) && Fits(t, task) && Grows(s, t) && t.log == s.log && t.status == s.status && !IsSent(task)
  {
    if e.Start? || e.PlatformGone? || (e.Answer? && e.success && e.hasSdp) {
      hide I.Next, Session, Grows;
      EnterStart(s, e);
    } else if e.Answer? || e.AckTimer? {
      EnterOwn(s, e);
    } else {
      hide I.Next;
    }
  }

  lemma EnterOwn(s: I.State, e: I.Event)
    requires Session(s) && I.Enabled(s, e) && I.StartsOnce(s, e) && (e.Answer? || e.AckTimer?)
    requires e.Answer? ==> !(e.success && e.hasSdp)
    ensures var (t, task) := Enter(s, e);
            Session(t) && Fits(t, task) && Grows(s, t) && t.log == s.log && t.status == s.status && !IsSent(task)
  {
    hide I.Next;
    if e.Answer? {
      assert Session(Rejected(s));
    } else {
      TickedSession(s);
    }
  }

  lemma TickedSession(s: I.State)
    requires Session(s) && s.timers > 0
    ensures Session(Ticked(s)) && (s.status == I.Acked ==> Session(Marked(Ticked(s))))
  {}

  lemma StepSession(s: I.State, task: Task)
    requires Session(s) && Fits(s, task)
    requires task.Writing? && I.Live(task.status) ==> I.Live(s.status)
    requires task.Guarded? ==> I.Live(s.status)
    ensures var (t, next) := Step(s, task); Session(t) && Fits(t, next) && Grows(s, t)
  {
    match task
    case Found(r) => StepFound(s, r);
    case Guarded(after) => StepGuarded(s, after);
    case Writing(st, after, sent, peer) => StepWriting(s, task);
    case _ =>
  }

  lemma StepFound(s: I.State, r: I.Final)
    requires Session(s) && Fits(s, Found(r))
    ensures var (t, next) := Step(s, Found(r)); Session(t) && Fits(t, next) && Grows(s, t)
  {}

  lemma StepGuarded(s: I.State, after: After)
    requires Session(s) && Fits(s, Guarded(after)) && I.Live(s.status)
    ensures var (t, next) := Step(s, Guarded(after)); Session(t) && Fits(t, next) && Grows(s, t)
    ensures var (t, next) := Step(s, Guarded(after));
            IsSent(next) && t.status == s.status
            && (t.log == s.log || (t.log == s.log + [t.log[|s.log|]] && I.Justified(t.log[|s.log|])))
  {}

  lemma StepWriting(s: I.State, task: Task)
    requires Session(s) && Fits(s, task) && task.Writing? && (I.Live(task.status) ==> I.Live(s.status))
    ensures var (t, next) := Step(s, task); Session(t) && Fits(t, next) && Grows(s, t)
  {}

  // ----- the run -----

  lemma SentByBegin(tasks: seq<Task>, task: Task)
    requires SentPending(tasks)
    ensures SentPending(tasks + [task])
  {
    var j :| 0 <= j < |tasks| && IsSent(tasks[j]);
    assert IsSent((tasks + [task])[j]);
  }

  lemma SentByRun(tasks: seq<Task>, k: nat, task: Task)
    requires k < |tasks| && SentPending(tasks) && !IsSent(tasks[k])
    ensures SentPending(tasks[k := task])
  {
    var j :| 0 <= j < |tasks| && IsSent(tasks[j]);
    assert IsSent(tasks[k := task][j]);
  }

  lemma SentNow(tasks: seq<Task>, k: nat, task: Task)
    requires k < |tasks| && IsSent(task)
    ensures SentPending(tasks[k := task])
  {
    assert IsSent(tasks[k := task][k]);
  }

  lemma OthersFit(s: I.State, t: I.State, tasks: seq<Task>)
    requires Grows(s, t) && forall k :: 0 <= k < |tasks| ==> Fits(s, tasks[k])
    ensures forall k :: 0 <= k < |tasks| ==> Fits(t, tasks[k])
  {
    hide Fits;
    forall k | 0 <= k < |tasks| ensures Fits(t, tasks[k]) { FitsAfter(s, t, tasks[k]); }
  }

  lemma EndingBegin(r: State, e: I.Event)
    requires Ending(r) && StartsOnce(r, Begin(e))
    ensures Ending(Next(r, Begin(e)))
  {
    if CanBegin(r, e) {
      hide Enter, Fits, Session, Grows, IsSent, SentPending, I.Justified;
      EnterSession(r.s, e);
      OthersFit(r.s, Enter(r.s, e).0, r.tasks);
      if SentPending(r.tasks) { SentByBegin(r.tasks, Enter(r.s, e).1); }
    }
  }

  lemma LogKept(s: I.State, task: Task)
    requires !task.Guarded?
    ensures Step(s, task).0.log == s.log
  {
    hide I.Report, Chosen, Written, Stored, Judged, Goes, Removed, Marked;
  }

  lemma SentWrites(s: I.State, task: Task)
    requires IsSent(task) && Fits(s, task)
    ensures !I.Live(Step(s, task).0.status)
  {
    hide Written, Goes;
  }

  lemma EndingStep(r: State, k: nat)
    requires Ending(r) && !Stale(r, Run(k)) && !Late(r, Run(k)) && k < |r.tasks|
    ensures Ending(Next(r, Run(k)))
  {
    var task := r.tasks[k];
    var t, next := Step(r.s, task).0, Step(r.s, task).1;
    assert Fits(r.s, task);
    StepSession(r.s, task);
    OthersFit(r.s, t, r.tasks);
    assert OneRequest(Race(t, r.tasks[k := next])) by {
      if task.Guarded? {
        StepGuarded(r.s, task.after);
        hide Step, Fits, SentPending, IsSent;
        SentNow(r.tasks, k, next);
      } else {
        LogKept(r.s, task);
        if IsSent(task) {
          SentWrites(r.s, task);
        } else if SentPending(r.tasks) {
          SentByRun(r.tasks, k, next);
        }
      }
    }
  }

  lemma {:induction false} EndingRun(role: I.Role, es: seq<Event>)
    requires AllStartOnce(Created(role), es) && NoneStale(Created(role), es) && NoneLate(Created(role), es)
    ensures Ending(Execute(Created(role), es))
  {
    if es != [] {
      var before, ev := es[..|es| - 1], es[|es| - 1];
      hide Next, Stale, Late, Ending, StartsOnce;
      EndingRun(role, before);
      match ev
      case Begin(e) => EndingBegin(Execute(Created(role), before), e);
      case Run(k) => EndingRan(Execute(Created(role), before), k);
    }
  }

  lemma EndingRan(r: State, k: nat)
    requires Ending(r) && !Stale(r, Run(k)) && !Late(r, Run(k))
    ensures Ending(Next(r, Run(k)))
  {
    if k < |r.tasks| { EndingStep(r, k); }
  }

  /** In every interleaving with one start or answer in which no handler acts on a session that has
      ended and no call of `to_bye` overlaps the end: at most one CANCEL or BYE, justified; the result
      callback at most once; an answered session acknowledged or ended when its timer step is over. */
  lemma {:induction false} RaceEnding(role: I.Role, es: seq<Event>)
    requires AllStartOnce(Created(role), es) && NoneStale(Created(role), es) && NoneLate(Created(role), es)
    ensures var s := Execute(Created(role), es).s;
            && |s.log| <= 1
            && (forall i :: 0 <= i < |s.log| ==> I.Justified(s.log[i]))
            && s.results <= 1
            && (s.timerRan ==> s.status == I.Acked || !I.Live(s.status))
  {
    hide Next, Stale, Late, StartsOnce;
    EndingRun(role, es);
  }

  // ----- one thread at a time is enough -----

  predicate Exclusive(r: State, es: seq<Event>) {
    es == [] || (Exclusive(r, es[..|es| - 1]) && (es[|es| - 1].Begin? ==> AllDone(Execute(r, es[..|es| - 1]).tasks)))
  }

  /** Only the last thread to begin is under way. */
  predicate Solo(tasks: seq<Task>) { forall k :: 0 <= k < |tasks| - 1 ==> tasks[k] == Done }

  function Active(tasks: seq<Task>): Task { if tasks == [] then Done else tasks[|tasks| - 1] }

  predicate Steady(s: I.State, task: Task) {
    && (task.Found? || task.Guarded? || (task.Writing? && I.Live(task.status)) ==> I.Live(s.status))
    && (s.registered ==> I.Live(s.status) || task.Unlisting?)
  }

  lemma SteadyEnter(s: I.State, e: I.Event)
    requires I.Enabled(s, e) && I.StartsLive(s, e) && Steady(s, Done)
    ensures Steady(Enter(s, e).0, Enter(s, e).1)
  {
    hide I.Next, Rejected, Ticked, Marked;
    EnterStatus(s, e);
  }

  lemma SteadyStep(s: I.State, task: Task)
    requires Steady(s, task)
    ensures Steady(Step(s, task).0, Step(s, task).1)
  {
    hide I.Report, Removed, Marked, Written, Stored;
  }

  lemma SoloNext(r: State, ev: Event)
    requires Solo(r.tasks) && Steady(r.s, Active(r.tasks)) && StartsLive(r, ev) && (ev.Begin? ==> AllDone(r.tasks))
    ensures Solo(Next(r, ev).tasks) && Steady(Next(r, ev).s, Active(Next(r, ev).tasks))
    ensures !Stale(r, ev) && !Late(r, ev)
  {
    hide Enter, Step, Steady, I.StartsLive;
    match ev
    case Begin(e) => if CanBegin(r, e) { SteadyEnter(r.s, e); }
    case Run(k) =>
      if k < |r.tasks| {
        if k < |r.tasks| - 1 { StepDone(r.s); }
        SteadyStep(r.s, Active(r.tasks));
        SoloClean(r, k);
      }
  }

  lemma StepDone(s: I.State)
    ensures Step(s, Done) == (s, Done)
  {}

  lemma SoloClean(r: State, k: nat)
    requires Solo(r.tasks) && Steady(r.s, Active(r.tasks)) && k < |r.tasks|
    ensures !Stale(r, Run(k)) && !Late(r, Run(k))
  {}

  lemma {:induction false} SoloRun(role: I.Role, es: seq<Event>)
    requires AllStartLive(Created(role), es) && Exclusive(Created(role), es)
    ensures var r := Execute(Created(role), es); Solo(r.tasks) && Steady(r.s, Active(r.tasks))
    ensures NoneStale(Created(role), es) && NoneLate(Created(role), es)
  {
    if es != [] {
      hide Next, Stale, Late, Solo, Steady, StartsLive;
      SoloRun(role, es[..|es| - 1]);
      SoloNext(Execute(Created(role), es[..|es| - 1]), es[|es| - 1]);
    }
  }

  /** When a handler only begins after the others have finished, no handler acts on an ended session and
      no calls of `to_bye` overlap. */
  lemma {:induction false} ExclusiveIsClean(role: I.Role, es: seq<Event>)
    requires AllStartLive(Created(role), es) && Exclusive(Created(role), es)
    ensures NoneStale(Created(role), es) && NoneLate(Created(role), es)
  {
    SoloRun(role, es);
  }

  // ----- the exact condition of ending -----

  /** A call of `to_bye` past its guard sends although a request is out already, or the peer has ended
      the session. */
  predicate Repeats(r: State, ev: Event) {
    && ev.Run? && ev.k < |r.tasks| && r.tasks[ev.k].Guarded?
    && r.s.platform && (r.s.transaction || r.s.dialog)
    && (r.s.log != [] || r.s.peerEnded)
  }

  predicate NoneRepeats(r: State, es: seq<Event>) {
    es == [] || (NoneRepeats(r, es[..|es| - 1]) && !Repeats(Execute(r, es[..|es| - 1]), es[|es| - 1]))
  }

  predicate GoodLog(log: seq<I.Emission>) { log == [] || (|log| == 1 && I.Justified(log[0])) }

  /** What holds of every interleaving, clean or not. */
  predicate Based(s: I.State) {
    && (s.transaction ==> !s.finalSeen && s.role == I.Outgoing)
    && (s.registered || s.finalSeen || s.callback ==> s.started)
  }

  predicate FoundFits(s: I.State, task: Task) { task.Found? ==> s.role == I.Outgoing && s.started }

  predicate AllBased(r: State) {
    Based(r.s) && forall k :: 0 <= k < |r.tasks| ==> FoundFits(r.s, r.tasks[k])
  }

  predicate Later(s: I.State, t: I.State) { t.role == s.role && (s.started ==> t.started) }

  lemma BasedStart(s: I.State, e: I.Event)
    requires Based(s) && I.Enabled(s, e) && I.StartsOnce(s, e)
    requires e.Start? || e.PlatformGone? || (e.Answer? && e.success && e.hasSdp)
    ensures Based(I.Next(s, e)) && Later(s, I.Next(s, e)) && I.Next(s, e).log == s.log
  {}

  lemma BasedEnter(s: I.State, e: I.Event)
    requires Based(s) && I.Enabled(s, e) && I.StartsOnce(s, e)
    ensures var (t, task) := Enter(s, e); Based(t) && FoundFits(t, task) && Later(s, t) && t.log == s.log
  {
    if e.Start? || e.PlatformGone? || (e.Answer? && e.success && e.hasSdp) {
      hide I.Next, Based, Later;
      BasedStart(s, e);
    } else {
      hide I.Next;
    }
  }

  lemma BasedStep(s: I.State, task: Task)
    requires Based(s) && FoundFits(s, task) && !task.Guarded?
    ensures var (t, next) := Step(s, task); Based(t) && !next.Found? && Later(s, t) && t.log == s.log
  {
    BasedSmall(s);
    if task.Writing? { BasedWritten(s, task.status, task.peer); }
    if task.Found? { BasedStored(s, task.reply); }
    hide Stored, Written, Removed, Marked, I.Report, Based, Later;
  }

  lemma BasedSmall(s: I.State)
    requires Based(s)
    ensures Based(Removed(s)) && Based(Marked(s)) && Based(I.Report(s))
    ensures Later(s, Removed(s)) && Later(s, Marked(s)) && Later(s, I.Report(s)) && Later(s, s)
  {}

  lemma BasedWritten(s: I.State, st: I.Status, peer: bool)
    requires Based(s)
    ensures Based(Written(s, st, peer)) && Later(s, Written(s, st, peer))
  {}

  lemma BasedStored(s: I.State, r: I.Final)
    requires Based(s) && s.role == I.Outgoing && s.started
    ensures Based(Stored(s, r)) && Later(s, Stored(s, r))
  {}

  predicate Sends(s: I.State) { s.platform && (s.transaction || s.dialog) }

  /** A request is justified when none has been sent and the peer has not ended the session. */
  lemma ChosenLog(s: I.State, after: After)
    requires Based(s)
    ensures var (t, next) := Chosen(s, after);
            && Based(t) && !next.Found? && Later(s, t)
            && (!Sends(s) ==> t.log == s.log)
            && (Sends(s) ==> |t.log| == |s.log| + 1 && t.log[..|s.log|] == s.log && (I.Justified(t.log[|s.log|]) <==> !s.peerEnded))
  {}

  lemma GoodStep(r: State, ev: Event)
    requires AllBased(r) && StartsOnce(r, ev)
    ensures AllBased(Next(r, ev))
    ensures GoodLog(Next(r, ev).s.log) <==> GoodLog(r.s.log) && !Repeats(r, ev)
  {
    hide Enter, Step, Based, Later, FoundFits, I.StartsOnce, I.Justified;
    match ev
    case Begin(e) =>
      if CanBegin(r, e) {
        BasedEnter(r.s, e);
        AllFit(r.s, Enter(r.s, e).0, r.tasks);
      }
    case Run(k) =>
      if k < |r.tasks| {
        assert FoundFits(r.s, r.tasks[k]);
        if r.tasks[k].Guarded? { GoodSend(r, k); } else { GoodRun(r, k); }
      }
  }

  lemma AllFit(s: I.State, t: I.State, tasks: seq<Task>)
    requires Later(s, t) && forall k :: 0 <= k < |tasks| ==> FoundFits(s, tasks[k])
    ensures forall k :: 0 <= k < |tasks| ==> FoundFits(t, tasks[k])
  {}

  lemma GoodRun(r: State, k: nat)
    requires AllBased(r) && k < |r.tasks| && !r.tasks[k].Guarded?
    ensures AllBased(Next(r, Run(k))) && Next(r, Run(k)).s.log == r.s.log
  {
    var next := Step(r.s, r.tasks[k]).1;
    assert FoundFits(r.s, r.tasks[k]);
    hide Step, Based, Later;
    BasedStep(r.s, r.tasks[k]);
    AllFit(r.s, Step(r.s, r.tasks[k]).0, r.tasks);
  }

  lemma GoodSend(r: State, k: nat)
    requires AllBased(r) && k < |r.tasks| && r.tasks[k].Guarded?
    ensures AllBased(Next(r, Run(k)))
    ensures GoodLog(Next(r, Run(k)).s.log) <==> GoodLog(r.s.log) && !Repeats(r, Run(k))
  {
    hide Chosen, Based, Later, I.Justified;
    ChosenLog(r.s, r.tasks[k].after);
    AllFit(r.s, Chosen(r.s, r.tasks[k].after).0, r.tasks);
  }

  lemma {:induction false} GoodRuns(role: I.Role, es: seq<Event>)
    requires AllStartOnce(Created(role), es)
    ensures AllBased(Execute(Created(role), es))
    ensures GoodLog(Execute(Created(role), es).s.log) <==> NoneRepeats(Created(role), es)
  {
    if es != [] {
      hide Next, Repeats, AllBased, StartsOnce, GoodLog;
      GoodRuns(role, es[..|es| - 1]);
      GoodStep(Execute(Created(role), es[..|es| - 1]), es[|es| - 1]);
    } else {
      NothingYet(role);
    }
  }

  lemma NothingYet(role: I.Role)
    ensures AllBased(Created(role)) && GoodLog(Created(role).s.log)
  {}

  /** In every interleaving with one start or answer: at most one CANCEL or BYE goes out, and justified,
      if and only if no call of `to_bye` sends after another request or after the peer's end. */
  lemma {:induction false} EndingExactly(role: I.Role, es: seq<Event>)
    requires AllStartOnce(Created(role), es)
    ensures NoneRepeats(Created(role), es)
       <==> |Execute(Created(role), es).s.log| <= 1
            && forall i :: 0 <= i < |Execute(Created(role), es).s.log| ==> I.Justified(Execute(Created(role), es).s.log[i])
  {
    hide Next, Repeats, StartsOnce;
    GoodRuns(role, es);
  }

  /** Every request is a CANCEL sent before any final reply or a BYE sent within a dialog. */
  predicate InTurn(x: I.Emission) {
    (x.method' == I.CancelRequest ==> !x.finalSeen) && (x.method' == I.ByeRequest ==> x.dialog)
  }

  predicate AllInTurn(log: seq<I.Emission>) { forall i :: 0 <= i < |log| ==> InTurn(log[i]) }

  lemma ChosenInTurn(s: I.State, after: After)
    requires Based(s) && AllInTurn(s.log)
    ensures AllInTurn(Chosen(s, after).0.log)
  {}

  lemma InTurnStep(r: State, ev: Event)
    requires AllBased(r) && StartsOnce(r, ev) && AllInTurn(r.s.log)
    ensures AllInTurn(Next(r, ev).s.log)
  {
    hide Enter, AllInTurn, Based, I.StartsOnce, FoundFits;
    match ev
    case Begin(e) => if CanBegin(r, e) { BasedEnter(r.s, e); }
    case Run(k) =>
      if k < |r.tasks| {
        if r.tasks[k].Guarded? {
          hide Chosen;
          ChosenInTurn(r.s, r.tasks[k].after);
        } else {
          hide Step;
          LogKept(r.s, r.tasks[k]);
        }
      }
  }

  /** In every interleaving whatever with one start or answer: CANCEL only while no final reply has been
      seen, BYE only with a dialog. */
  lemma {:induction false} RequestsInTurn(role: I.Role, es: seq<Event>)
    requires AllStartOnce(Created(role), es)
    ensures AllInTurn(Execute(Created(role), es).s.log)
  {
    if es != [] {
      hide Next, AllInTurn, AllBased, StartsOnce;
      RequestsInTurn(role, es[..|es| - 1]);
      GoodRuns(role, es[..|es| - 1]);
      InTurnStep(Execute(Created(role), es[..|es| - 1]), es[|es| - 1]);
    }
  }

  /** Two calls past the guard at the same time do so, at every state with something to send. */
  lemma OverlapRepeats(r: State, j: nat, k: nat)
    requires j < |r.tasks| && k < |r.tasks| && j != k && r.tasks[j].Guarded? && r.tasks[k].Guarded? && Sends(r.s)
    ensures Repeats(Next(r, Run(j)), Run(k))
  {}

  /** So does a call that follows a stale acknowledgement of a session ended by a request. */
  lemma StaleRepeats(r: State, k: nat)
    requires Stale(r, Run(k)) && Sends(r.s) && r.s.log != []
    ensures var n := |r.tasks|; Repeats(Next(Next(Next(r, Run(k)), Begin(I.ToBye)), Run(n)), Run(n))
  {
    var n, task := |r.tasks|, r.tasks[k];
    var r1 := Next(r, Run(k));
    WrittenSends(r.s, task.status, task.peer);
    hide Written, Sends;
    assert r1.s == Written(r.s, task.status, task.peer) && |r1.tasks| == n;
    var r2 := Next(r1, Begin(I.ToBye));
    assert r2 == Race(r1.s, r1.tasks + [Calling(Stop)]);
    assert Next(r2, Run(n)).s == r1.s && Next(r2, Run(n)).tasks[n] == Guarded(Stop);
    SendsRepeat(Next(r2, Run(n)), n);
  }

  lemma WrittenSends(s: I.State, st: I.Status, peer: bool)
    ensures Sends(Written(s, st, peer)) == Sends(s)
  {}

  lemma SendsRepeat(r: State, n: nat)
    requires n < |r.tasks| && r.tasks[n].Guarded? && Sends(r.s) && r.s.log != []
    ensures Repeats(r, Run(n))
  {}

  // ----- when another request can still go out -----

  predicate CanGuard(task: Task) { task.Guarded? || (task.Writing? && I.Live(task.status)) }

  /** Some call of `to_bye` is past its guard or can still get there, without a final reply under way. */
  ghost predicate Acts(r: State) {
    I.Live(r.s.status) || r.s.registered || SomeGuard(r.tasks)
  }

  ghost predicate SomeGuard(tasks: seq<Task>) { exists k :: 0 <= k < |tasks| && CanGuard(tasks[k]) }

  predicate Dials(task: Task) { task.Found? && task.reply.hasDialog }

  /** There is a dialog, or a final reply can still bring one. */
  ghost predicate Dialog(r: State) {
    r.s.dialog || (r.s.role == I.Outgoing && r.s.registered) || SomeDial(r.tasks)
  }

  ghost predicate SomeDial(tasks: seq<Task>) { exists k :: 0 <= k < |tasks| && Dials(tasks[k]) }

  predicate Answers(task: Task) { task.Found? && Usable(task.reply) }

  ghost predicate SomeAnswer(tasks: seq<Task>) { exists k :: 0 <= k < |tasks| && Answers(tasks[k]) }

  /** A handler under way that has found a usable answer makes the session live, but by ending the
      transaction first: then only a dialog is left to send in. */
  ghost predicate CanSend(r: State) {
    r.s.platform && ((Acts(r) && (r.s.transaction || Dialog(r))) || (SomeAnswer(r.tasks) && Dialog(r)))
  }

  /** An outgoing session that has been started, or an incoming one. */
  predicate Begun(s: I.State) { s.role == I.Outgoing ==> s.started }

  /** What a step changes of all this. */
  predicate SamePlace(s: I.State, t: I.State) {
    t.role == s.role && t.platform == s.platform && t.transaction == s.transaction && t.dialog == s.dialog && t.log == s.log
  }

  lemma PlaceStep(s: I.State, task: Task)
    requires !task.Found? && !task.Guarded?
    ensures SamePlace(s, Step(s, task).0) && (s.started ==> Step(s, task).0.started)
    ensures !Step(s, task).1.Found? && (CanGuard(Step(s, task).1) ==> task.Calling? && I.Live(s.status))
  {
    if task.Writing? { PlaceWritten(s, task.status, task.peer); }
    PlaceSmall(s);
    hide Written, Removed, Marked, I.Report, SamePlace;
  }

  lemma PlaceWritten(s: I.State, st: I.Status, peer: bool)
    ensures SamePlace(s, Written(s, st, peer)) && Written(s, st, peer).started == s.started
  {}

  lemma PlaceSmall(s: I.State)
    ensures SamePlace(s, Removed(s)) && SamePlace(s, Marked(s)) && SamePlace(s, I.Report(s)) && SamePlace(s, s)
    ensures Removed(s).started == s.started && Marked(s).started == s.started && I.Report(s).started == s.started
  {}

  lemma PlaceStored(s: I.State, r: I.Final)
    ensures var t := Stored(s, r);
            t.role == s.role && t.platform == s.platform && !t.transaction && t.dialog == (s.dialog || r.hasDialog)
            && t.started == s.started
  {}

  lemma PlaceChosen(s: I.State, after: After)
    ensures var (t, next) := Chosen(s, after);
            && t.role == s.role && t.platform == s.platform && t.transaction == s.transaction && t.dialog == s.dialog
            && t.started == s.started && (Sends(s) ==> |t.log| == |s.log| + 1) && (!Sends(s) ==> t.log == s.log)
            && next.Writing? && !I.Live(next.status)
  {
    hide I.Emit;
    PlaceEmit(s, I.CancelRequest);
    PlaceEmit(s, I.ByeRequest);
  }

  lemma PlaceEmit(s: I.State, m: I.Method)
    ensures var t := I.Emit(s, m);
            && t.role == s.role && t.platform == s.platform && t.transaction == s.transaction && t.dialog == s.dialog
            && t.started == s.started && |t.log| == |s.log| + 1
  {}

  /** What entering the code of an event changes of it. */
  lemma PlaceEnter(s: I.State, e: I.Event)
    requires I.Enabled(s, e) && I.StartsOnce(s, e) && Begun(s)
    ensures var (t, task) := Enter(s, e);
            && t.role == s.role && t.transaction == s.transaction && t.dialog == s.dialog && t.log == s.log
            && (t.platform ==> s.platform) && Begun(t)
            && (t.registered ==> s.registered || (I.Live(s.status) && s.role == I.Incoming))
            && !task.Guarded? && (task.Found? ==> s.role == I.Outgoing && s.registered)
            && (CanGuard(task) ==> s.registered)
  {
    if e.Start? || e.PlatformGone? || (e.Answer? && e.success && e.hasSdp) {
      PlaceStart(s, e);
      hide I.Next;
    } else {
      PlaceOwn(s);
      hide I.Next, Rejected, Ticked, Marked;
    }
  }

  lemma PlaceStart(s: I.State, e: I.Event)
    requires I.Enabled(s, e) && I.StartsOnce(s, e) && Begun(s)
    requires e.Start? || e.PlatformGone? || (e.Answer? && e.success && e.hasSdp)
    ensures var t := I.Next(s, e);
            && t.role == s.role && t.transaction == s.transaction && t.dialog == s.dialog && t.log == s.log
            && (t.platform ==> s.platform) && Begun(t)
            && (t.registered ==> s.registered || (I.Live(s.status) && s.role == I.Incoming))
  {}

  lemma PlaceRejected(s: I.State)
    ensures SamePlace(s, Rejected(s)) && Rejected(s).started
  {}

  lemma PlaceTicked(s: I.State)
    ensures SamePlace(s, Ticked(s)) && Ticked(s).started == s.started
  {
    if s.timers > 0 {
      var t := s.(timers := s.timers - 1);
      assert Ticked(s) == t;
    } else {
      assert Ticked(s) == s;
    }
  }

  lemma PlaceOwn(s: I.State)
    ensures SamePlace(s, Rejected(s)) && SamePlace(s, Ticked(s)) && SamePlace(s, Marked(Ticked(s)))
    ensures Rejected(s).started && Ticked(s).started == s.started && Marked(Ticked(s)).started == s.started
  {
    PlaceRejected(s);
    PlaceTicked(s);
    PlaceSmall(Ticked(s));
    hide Rejected, Ticked, Marked;
  }

  lemma Appended(tasks: seq<Task>, task: Task)
    ensures SomeGuard(tasks + [task]) ==> SomeGuard(tasks) || CanGuard(task)
    ensures SomeDial(tasks + [task]) ==> SomeDial(tasks) || Dials(task)
    ensures SomeAnswer(tasks + [task]) ==> SomeAnswer(tasks) || Answers(task)
  {
    hide CanGuard, Dials, Answers;
  }

  lemma Replaced(tasks: seq<Task>, k: nat, task: Task)
    requires k < |tasks|
    ensures SomeGuard(tasks[k := task]) ==> SomeGuard(tasks) || CanGuard(task)
    ensures SomeDial(tasks[k := task]) ==> SomeDial(tasks) || Dials(task)
    ensures SomeAnswer(tasks[k := task]) ==> SomeAnswer(tasks) || Answers(task)
  {
    hide CanGuard, Dials, Answers;
  }

  lemma HereNow(tasks: seq<Task>, k: nat)
    requires k < |tasks|
    ensures CanGuard(tasks[k]) ==> SomeGuard(tasks)
    ensures Dials(tasks[k]) ==> SomeDial(tasks)
    ensures Answers(tasks[k]) ==> SomeAnswer(tasks)
  {}

  lemma CannotBegin(r: State, e: I.Event)
    requires !CanSend(r) && Begun(r.s) && StartsOnce(r, Begin(e))
    ensures var t := Next(r, Begin(e)); !CanSend(t) && Begun(t.s) && t.s.log == r.s.log
  {
    if CanBegin(r, e) {
      var (s, task) := Enter(r.s, e);
      hide Enter, SomeGuard, SomeDial, SomeAnswer;
      PlaceEnter(r.s, e);
      EnterStatus(r.s, e);
      Appended(r.tasks, task);
    }
  }

  lemma CannotRun(r: State, k: nat)
    requires !CanSend(r) && Begun(r.s) && k < |r.tasks|
    ensures var t := Next(r, Run(k)); !CanSend(t) && Begun(t.s) && t.s.log == r.s.log
  {
    var task := r.tasks[k];
    HereNow(r.tasks, k);
    Replaced(r.tasks, k, Step(r.s, task).1);
    StepStatus(r.s, task);
    if task.Found? {
      PlaceStored(r.s, task.reply);
      hide Stored, SomeGuard, SomeDial, SomeAnswer;
    } else if task.Guarded? {
      PlaceChosen(r.s, task.after);
      hide Chosen, SomeGuard, SomeDial, SomeAnswer;
    } else {
      PlaceStep(r.s, task);
      hide Step, SomeGuard, SomeDial, SomeAnswer;
    }
  }

  lemma {:induction false} CannotRuns(r: State, es: seq<Event>)
    requires !CanSend(r) && Begun(r.s) && AllStartOnce(r, es)
    ensures !CanSend(Execute(r, es)) && Begun(Execute(r, es).s) && Execute(r, es).s.log == r.s.log
  {
    if es != [] {
      var before, ev := es[..|es| - 1], es[|es| - 1];
      hide Next, CanSend, Begun, StartsOnce;
      CannotRuns(r, before);
      match ev
      case Begin(e) => CannotBegin(Execute(r, before), e);
      case Run(k) => if k < |Execute(r, before).tasks| { CannotRun(Execute(r, before), k); } else { RunNobody(Execute(r, before), k); }
    }
  }

  lemma RunNobody(r: State, k: nat)
    requires k >= |r.tasks|
    ensures Next(r, Run(k)) == r
  {}

  // ----- and how it does -----

  lemma {:induction false} ExecuteAppend(r: State, a: seq<Event>, b: seq<Event>)
    ensures Execute(r, a + b) == Execute(Execute(r, a), b)
  {
    hide Next;
    if b == [] {
      assert a + b == a;
    } else {
      assert (a + b)[..|a + b| - 1] == a + b[..|b| - 1];
      ExecuteAppend(r, a, b[..|b| - 1]);
    }
  }

  lemma ExecuteOne(r: State, e: Event)
    ensures Execute(r, [e]) == Next(r, e)
  {
    assert [e][..0] == [];
  }

  lemma GuardedSends(r: State, k: nat)
    requires k < |r.tasks| && r.tasks[k].Guarded? && Sends(r.s)
    ensures |Next(r, Run(k)).s.log| > |r.s.log|
  {
    PlaceChosen(r.s, r.tasks[k].after);
    hide Chosen;
  }

  /** A live session with something to send: a call of `to_bye` sends it. */
  lemma LiveSends(r: State) returns (es: seq<Event>)
    requires I.Live(r.s.status) && Sends(r.s)
    ensures NoStarts(es) && |Execute(r, es).s.log| > |r.s.log|
  {
    var n := |r.tasks|;
    es := [Begin(I.ToBye), Run(n)] + [Run(n)];
    ExecuteAppend(r, [Begin(I.ToBye), Run(n)], [Run(n)]);
    ExecuteTwo(r, Begin(I.ToBye), Run(n));
    var r2 := Next(Next(r, Begin(I.ToBye)), Run(n));
    assert Next(r, Begin(I.ToBye)) == Race(r.s, r.tasks + [Calling(Stop)]);
    assert r2.s == r.s && r2.tasks[n] == Guarded(Stop);
    ExecuteOne(r2, Run(n));
    GuardedSends(r2, n);
  }

  lemma WritingRevives(r: State, k: nat)
    requires k < |r.tasks| && r.tasks[k].Writing? && I.Live(r.tasks[k].status) && Sends(r.s)
    ensures var t := Next(r, Run(k)); I.Live(t.s.status) && Sends(t.s) && t.s.log == r.s.log
  {
    PlaceWritten(r.s, r.tasks[k].status, r.tasks[k].peer);
    hide Written;
  }

  lemma WritingSends(r: State, k: nat) returns (es: seq<Event>)
    requires k < |r.tasks| && r.tasks[k].Writing? && I.Live(r.tasks[k].status) && Sends(r.s)
    ensures NoStarts(es) && |Execute(r, es).s.log| > |r.s.log|
  {
    WritingRevives(r, k);
    var t := Next(r, Run(k));
    var rest := LiveSends(t);
    es := [Run(k)] + rest;
    ExecuteOne(r, Run(k));
    ExecuteAppend(r, [Run(k)], rest);
  }

  /** With something to send, every way to the guard leads to it. */
  lemma ActsSend(r: State) returns (es: seq<Event>)
    requires Acts(r) && Sends(r.s)
    ensures NoStarts(es) && |Execute(r, es).s.log| > |r.s.log|
  {
    if I.Live(r.s.status) {
      es := LiveSends(r);
    } else if k :| 0 <= k < |r.tasks| && CanGuard(r.tasks[k]) {
      if r.tasks[k].Guarded? {
        es := [Run(k)];
        ExecuteOne(r, Run(k));
        GuardedSends(r, k);
      } else {
        es := WritingSends(r, k);
      }
    } else {
      var n := |r.tasks|;
      var t := Next(r, Begin(I.PeerAck));
      assert t == Race(r.s, r.tasks + [Writing(I.Acked, Stop, false, false)]);
      var rest := WritingSends(t, n);
      es := [Begin(I.PeerAck)] + rest;
      ExecuteOne(r, Begin(I.PeerAck));
      ExecuteAppend(r, [Begin(I.PeerAck)], rest);
    }
  }

  lemma FoundRuns(r: State, k: nat)
    requires k < |r.tasks| && r.tasks[k].Found?
    ensures var t := Next(r, Run(k));
            && t == Race(Stored(r.s, r.tasks[k].reply), r.tasks[k := Judged(r.tasks[k].reply)])
            && t.s.platform == r.s.platform && t.s.dialog == (r.s.dialog || r.tasks[k].reply.hasDialog)
            && t.s.status == r.s.status && t.s.registered == r.s.registered && t.s.log == r.s.log && t.s.role == r.s.role
  {
    PlaceStored(r.s, r.tasks[k].reply);
    hide Stored, Judged;
  }

  lemma ActsKept(r: State, k: nat)
    requires k < |r.tasks| && r.tasks[k].Found? && Acts(r)
    ensures Acts(Next(r, Run(k)))
  {
    FoundRuns(r, k);
    hide Stored, Judged;
    if !I.Live(r.s.status) && !r.s.registered {
      var j :| 0 <= j < |r.tasks| && CanGuard(r.tasks[j]);
      assert CanGuard(Next(r, Run(k)).tasks[j]);
    }
  }

  /** A dialog is brought by a final reply, without losing the way to the guard. */
  lemma DialogComes(r: State) returns (es: seq<Event>)
    requires r.s.platform && Acts(r) && Dialog(r)
    ensures NoStarts(es) && var t := Execute(r, es); Acts(t) && Sends(t.s) && t.s.log == r.s.log
  {
    if r.s.dialog {
      es := [];
    } else if k :| 0 <= k < |r.tasks| && Dials(r.tasks[k]) {
      es := [Run(k)];
      ExecuteOne(r, Run(k));
      FoundRuns(r, k);
      ActsKept(r, k);
    } else {
      var n, reply := |r.tasks|, I.Final(false, false, false, false, true);
      var t := Next(r, Begin(I.FinalReply(reply)));
      assert t == Race(r.s, r.tasks + [Found(reply)]);
      es := [Begin(I.FinalReply(reply)), Run(n)];
      ExecuteTwo(r, Begin(I.FinalReply(reply)), Run(n));
      FoundRuns(t, n);
    }
  }

  /** A usable answer under way makes the session live, and a dialog is left. */
  lemma AnswerSends(r: State, k: nat) returns (es: seq<Event>)
    requires r.s.platform && k < |r.tasks| && Answers(r.tasks[k]) && Dialog(r) && !r.s.registered
    ensures NoStarts(es) && |Execute(r, es).s.log| > |r.s.log|
  {
    var t := Next(r, Run(k));
    FoundRuns(r, k);
    FoundWrites(r, k);
    hide Stored, Judged;
    assert CanGuard(t.tasks[k]);
    if !t.s.dialog {
      var j :| 0 <= j < |r.tasks| && Dials(r.tasks[j]);
      assert Dials(t.tasks[j]);
    }
    assert Acts(t) && Dialog(t);
    var one := DialogComes(t);
    var two := ActsSend(Execute(t, one));
    es := [Run(k)] + (one + two);
    ExecuteOne(r, Run(k));
    ExecuteAppend(r, [Run(k)], one + two);
    ExecuteAppend(t, one, two);
  }

  lemma CanIndeed(r: State) returns (es: seq<Event>)
    requires CanSend(r)
    ensures NoStarts(es) && |Execute(r, es).s.log| > |r.s.log|
  {
    if Acts(r) && r.s.transaction {
      es := ActsSend(r);
    } else if Acts(r) && Dialog(r) {
      var one := DialogComes(r);
      var two := ActsSend(Execute(r, one));
      es := one + two;
      ExecuteAppend(r, one, two);
    } else {
      var k :| 0 <= k < |r.tasks| && Answers(r.tasks[k]);
      es := AnswerSends(r, k);
    }
  }

  lemma {:induction false} NoStartsOnce(r: State, es: seq<Event>)
    requires NoStarts(es)
    ensures AllStartOnce(r, es)
  {
    if es != [] {
      NoStartsOnce(r, es[..|es| - 1]);
      assert StartsOnce(Execute(r, es[..|es| - 1]), es[|es| - 1]);
    }
  }

  /** The run starts or answers the session at most once, and sends a further request. */
  predicate SendsAgain(r: State, es: seq<Event>) { AllStartOnce(r, es) && |Execute(r, es).s.log| > |r.s.log| }

  /** At every state of a session that has been started, or is incoming, whatever has been sent or has
      ended: some interleaving sends a further CANCEL or BYE if and only if the platform is alive and a
      call of `to_bye` can still pass its guard with a transaction or a dialog. */
  lemma FurtherRequest(r: State)
    requires Begun(r.s)
    ensures (exists es :: SendsAgain(r, es)) <==> CanSend(r)
  {
    hide CanSend, Next, StartsOnce;
    if CanSend(r) {
      var es := CanIndeed(r);
      NoStartsOnce(r, es);
      assert SendsAgain(r, es);
    } else {
      forall es ensures !SendsAgain(r, es) { if AllStartOnce(r, es) { CannotRuns(r, es); } }
    }
  }

  // ----- every state that has sent something is such a state -----

  predicate Ready(s: I.State) { s.transaction || s.dialog || s.log != [] ==> Begun(s) }

  lemma ReadyEnter(s: I.State, e: I.Event)
    requires Ready(s) && I.Enabled(s, e)
    ensures Ready(Enter(s, e).0)
  {
    if e.Start? || e.PlatformGone? || (e.Answer? && e.success && e.hasSdp) {
      ReadyStart(s, e);
      hide I.Next;
    } else {
      PlaceOwn(s);
      hide I.Next, Rejected, Ticked, Marked;
    }
  }

  lemma ReadyStart(s: I.State, e: I.Event)
    requires Ready(s) && I.Enabled(s, e)
    requires e.Start? || e.PlatformGone? || (e.Answer? && e.success && e.hasSdp)
    ensures Ready(I.Next(s, e))
  {}

  lemma ReadyStep(s: I.State, task: Task)
    requires Ready(s) && FoundFits(s, task)
    ensures Ready(Step(s, task).0)
  {
    if task.Found? {
      PlaceStored(s, task.reply);
      hide Stored;
    } else if task.Guarded? {
      PlaceChosen(s, task.after);
      hide Chosen;
    } else {
      PlaceStep(s, task);
      hide Step;
    }
  }

  lemma ReadyNext(r: State, ev: Event)
    requires Ready(r.s) && AllBased(r)
    ensures Ready(Next(r, ev).s)
  {
    hide Enter, Step, Ready, FoundFits, Based;
    match ev
    case Begin(e) => if CanBegin(r, e) { ReadyEnter(r.s, e); }
    case Run(k) => if k < |r.tasks| { ReadyStep(r.s, r.tasks[k]); }
  }

  lemma {:induction false} ReadyRun(role: I.Role, es: seq<Event>)
    requires AllStartOnce(Created(role), es)
    ensures Ready(Execute(Created(role), es).s)
  {
    if es != [] {
      hide Next, Ready, AllBased, StartsOnce;
      ReadyRun(role, es[..|es| - 1]);
      GoodRuns(role, es[..|es| - 1]);
      ReadyNext(Execute(Created(role), es[..|es| - 1]), es[|es| - 1]);
    }
  }

  /** So after every run that has sent a request: a second one can go out exactly then. */
  lemma SecondRequest(role: I.Role, es: seq<Event>)
    requires AllStartOnce(Created(role), es) && Execute(Created(role), es).s.log != []
    ensures var r := Execute(Created(role), es);
            (exists more :: SendsAgain(r, more)) <==> CanSend(r)
  {
    hide Next, CanSend, StartsOnce;
    ReadyRun(role, es);
    FurtherRequest(Execute(Created(role), es));
  }
}
