/** The SIP timer: the firing task and `sip_timer_stop` race for one flag, and the loser must not
    touch the context after the winner's side has freed it (timer_impl.cpp).

    The poller runs one task at a time; the owner of the identifier calls stop at most once. The task
    that stop posts is queued, or, when stop is called on the poller's own thread, from the handler
    or from another task, runs at once inside the posting. */
module SipTimer {

  /** The delayed task on the poller: waiting, running and about to try the flag, running with the
      flag won, inside the handler, run to its end, or cancelled. */
  datatype Fire = Delayed | AtFlag | AtHandler | InHandler | Ran | Cancelled

  /** The caller of stop: not called, about to try the flag, about to post the cleanup, returned. */
  datatype Stop = NotCalled | StopAtFlag | StopAtPost | Returned

  /** The cleanup task on the poller. */
  datatype Cleanup = NotPosted | Queued | AtDelete | Done

  /** `won` is the result of stop's attempt; `touched` records a use of the context after its release. */
  datatype State = State(
    flag: bool, fire: Fire, stop: Stop, won: bool, cleanup: Cleanup,
    handlerRuns: nat, frees: nat, touched: bool)

  datatype Event = FireBegin | FireTry | FireHandle | FireReturn | StopCall | StopTry | StopPost(inside: bool) | CleanupBegin | CleanupDelete

  function Started(): State { State(false, Delayed, NotCalled, false, NotPosted, 0, 0, false) }

  /** The poller is between tasks. */
  predicate PollerFree(s: State) {
    s.fire != AtFlag && s.fire != AtHandler && s.fire != InHandler && s.cleanup != AtDelete
  }

  /** Every step that reads or writes the context. */
  function Use(s: State): State { s.(touched := s.touched || s.frees > 0) }

  /** The cleanup task: cancel the delayed task if it still waits, then free the context. */
  function Cancel(s: State): State { Use(s).(fire := if s.fire == Delayed then Cancelled else s.fire) }

  function Delete(s: State): State { Use(s).(cleanup := Done, frees := s.frees + 1) }

  function Next(s: State, e: Event): State {
    match e
    case FireBegin => if s.fire == Delayed && PollerFree(s) then s.(fire := AtFlag) else s
    case FireTry =>
      if s.fire == AtFlag then Use(s).(flag := true, fire := if s.flag then Ran else AtHandler) else s
    case FireHandle => if s.fire == AtHandler then s.(handlerRuns := s.handlerRuns + 1, fire := InHandler) else s
    case FireReturn => if s.fire == InHandler then s.(fire := Ran) else s
    case StopCall => if s.stop == NotCalled then s.(stop := StopAtFlag) else s
    case StopTry => if s.stop == StopAtFlag then Use(s).(flag := true, won := !s.flag, stop := StopAtPost) else s
    case StopPost(inside) =>
      if s.stop != StopAtPost || (inside && s.fire != InHandler && !PollerFree(s)) then s
      else if inside then Delete(Cancel(Use(s).(stop := Returned)))
      else Use(s).(cleanup := Queued, stop := Returned)
    case CleanupBegin =>
      if s.cleanup == Queued && PollerFree(s) then Cancel(s).(cleanup := AtDelete) else s
    case CleanupDelete => if s.cleanup == AtDelete then Delete(s) else s
  }

  function Execute(s: State, es: seq<Event>): State {
    if es == [] then s else Next(Execute(s, es[..|es| - 1]), es[|es| - 1])
  }

  /** What `sip_timer_stop` returns. */
  function Result(s: State): int
    requires s.stop == Returned
  {
    if s.won then 0 else -1
  }

  predicate Inv(s: State) {
    && (s.flag <==> s.fire == AtHandler || s.fire == InHandler || s.fire == Ran || s.won || s.stop == StopAtPost || s.stop == Returned)
    && (s.won ==> s.fire != AtHandler && s.fire != InHandler && s.handlerRuns == 0 && (s.stop == StopAtPost || s.stop == Returned))
    && s.handlerRuns == (if s.fire == InHandler || (s.fire == Ran && !s.won) then 1 else 0)
    && (s.fire == Ran ==> s.flag)
    && ((s.stop == StopAtPost || s.stop == Returned) && !s.won ==> s.fire == AtHandler || s.fire == InHandler || s.fire == Ran)
    && (s.cleanup != NotPosted <==> s.stop == Returned)
    && (s.cleanup == AtDelete || s.cleanup == Done ==> s.fire == Ran || s.fire == Cancelled || (s.fire == InHandler && s.cleanup == Done))
    && s.frees == (if s.cleanup == Done then 1 else 0)
    && !s.touched
  }

  lemma {:induction false} InvRun(es: seq<Event>)
    ensures Inv(Execute(Started(), es))
  {
    if es != [] {
      hide Next;
      var s := Execute(Started(), es[..|es| - 1]);
      InvRun(es[..|es| - 1]);
      InvNext(s, es[|es| - 1]);
    }
  }

  lemma InvNext(s: State, e: Event)
    requires Inv(s)
    ensures Inv(Next(s, e))
  {}

  /** In every interleaving, stop called from inside the handler included: the handler runs at most
      once, the context is freed at most once and never used afterwards. */
  lemma {:induction false} TimerSafety(es: seq<Event>)
    ensures var s := Execute(Started(), es); s.handlerRuns <= 1 && s.frees <= 1 && !s.touched
  {
    InvRun(es);
  }

  /** The steps that read or write the context: both tries of the flag, posting the cleanup, and both steps
      of the cleanup itself. */
  predicate UsesContext(s: State, e: Event) {
    || (e.FireTry? && s.fire == AtFlag)
    || (e.StopTry? && s.stop == StopAtFlag)
    || (e.StopPost? && s.stop == StopAtPost)
    || (e.CleanupBegin? && s.cleanup == Queued && PollerFree(s))
    || (e.CleanupDelete? && s.cleanup == AtDelete)
  }

  /** None of them comes after the release, in any interleaving; and a try of the flag wins exactly when the
      other side has not tried before. */
  lemma {:induction false} UsesBeforeRelease(es: seq<Event>, e: Event)
    requires UsesContext(Execute(Started(), es), e)
    ensures var s, t := Execute(Started(), es), Execute(Started(), es + [e]);
            && s.frees == 0 && s.cleanup != Done
            && (e.FireTry? ==> (t.fire == AtHandler <==> s.stop == NotCalled || s.stop == StopAtFlag))
            && (e.StopTry? ==> (t.won <==> s.fire != AtHandler && s.fire != InHandler && s.fire != Ran))
            && (t.frees == 1 <==> e.CleanupDelete? || (e.StopPost? && t.cleanup == Done))
  {
    InvRun(es);
    assert (es + [e])[..|es|] == es;
  }

  /** And if one did, in whatever state, it would be on record. */
  lemma UseRecorded(s: State, e: Event)
    requires UsesContext(s, e) && (e.StopPost? && e.inside ==> s.fire == InHandler || PollerFree(s))
    ensures Next(s, e).touched <==> s.touched || s.frees > 0
  {}

  lemma {:induction false} StopStays(s: State, es: seq<Event>)
    requires s.stop == Returned
    ensures Execute(s, es).stop == Returned && Execute(s, es).won == s.won
  {
    if es != [] { StopStays(s, es[..|es| - 1]); }
  }

  lemma {:induction false} ExecuteAppend(s: State, a: seq<Event>, b: seq<Event>)
    ensures Execute(s, a + b) == Execute(Execute(s, a), b)
  {
    hide Next;
    if b == [] {
      assert a + b == a;
    } else {
      assert (a + b)[..|a + b| - 1] == a + b[..|b| - 1];
      ExecuteAppend(s, a, b[..|b| - 1]);
    }
  }

  /** Stop returned 0: the handler has not run and never will. Stop returned -1: it has run, or the
      firing task is just about to run it. */
  lemma {:induction false} StopResult(es: seq<Event>, later: seq<Event>)
    requires Execute(Started(), es).stop == Returned
    ensures var s := Execute(Started(), es);
            && (Result(s) == 0 || Result(s) == -1)
            && (Result(s) == 0 ==> Execute(Started(), es + later).handlerRuns == 0)
            && (Result(s) == -1 ==> s.handlerRuns == 1 || Next(s, FireHandle).handlerRuns == 1)
  {
    InvRun(es);
    InvRun(es + later);
    ExecuteAppend(Started(), es, later);
    StopStays(Execute(Started(), es), later);
  }

  /** Once stopped, a poller that runs its tasks frees the context: some step is always possible until
      the cleanup has been done. */
  lemma {:induction false} CleanupHappens(es: seq<Event>)
    requires Execute(Started(), es).stop == Returned && Execute(Started(), es).cleanup != Done
    ensures exists e :: Next(Execute(Started(), es), e) != Execute(Started(), es)
  {
    var s := Execute(Started(), es);
    InvRun(es);
    if s.cleanup == AtDelete { assert Next(s, CleanupDelete) != s; }
    else if s.fire == AtFlag { assert Next(s, FireTry) != s; }
    else if s.fire == AtHandler { assert Next(s, FireHandle) != s; }
    else if s.fire == InHandler { assert Next(s, FireReturn) != s; }
    else { assert Next(s, CleanupBegin) != s; }
  }

  /** The heap context and the two contenders, step by step. */
  class TimerContext {
    var handleFlag: bool
    var fire: Fire
    var stop: Stop
    var won: bool
    var cleanup: Cleanup
    ghost var handlerRuns: nat
    ghost var frees: nat
    ghost var touched: bool

    ghost function Model(): State
      reads this
    {
      State(handleFlag, fire, stop, won, cleanup, handlerRuns, frees, touched)
    }

    /** `sip_timer_start` */
    constructor ()
      ensures Model() == Started()
    {
      handleFlag, fire, stop, won, cleanup := false, Delayed, NotCalled, false, NotPosted;
      handlerRuns, frees, touched := 0, 0, false;
    }

    method CompareExchangeStrong() returns (ok: bool)
      modifies this`handleFlag, this`touched
      ensures handleFlag && ok == !old(handleFlag) && touched == (old(touched) || frees > 0)
    {
      ok := !handleFlag;
      handleFlag := true;
      touched := touched || frees > 0;
    }

    /** The body of the delayed task, once the poller has begun it. */
    method OnTimer()
      requires fire == AtFlag
      modifies this
      ensures Model() == Next(Next(Next(old(Model()), FireTry), FireHandle), FireReturn)
    {
      var ok := CompareExchangeStrong();
      if ok {
        fire := AtHandler;
        handlerRuns := handlerRuns + 1;
      }
      fire := Ran;
    }

    /** `sip_timer_stop` on a valid identifier; the identifier is cleared by the caller. `inside` says
        whether it runs on the poller's own thread. */
    method StopTimer(inside: bool) returns (result: int)
      requires stop == NotCalled && (inside ==> fire == InHandler || PollerFree(Model()))
      modifies this
      ensures Model() == Next(Next(Next(old(Model()), StopCall), StopTry), StopPost(inside))
      ensures result == Result(Model())
    {
      hide Cancel, Delete;
      stop := StopAtFlag;
      won := CompareExchangeStrong();
      stop := StopAtPost;
      touched := touched || frees > 0;
      stop := Returned;
      if inside { OnCleanup(); } else { cleanup := Queued; }
      result := if won then 0 else -1;
    }

    /** The posted cleanup: cancel the delayed task if it is still there, then free the context. */
    method OnCleanup()
      modifies this
      ensures Model() == Delete(Cancel(old(Model())))
    {
      touched := touched || frees > 0;
      if fire == Delayed { fire := Cancelled; }
      touched := touched || frees > 0;
      cleanup := Done;
      frees := frees + 1;
    }
  }
}
