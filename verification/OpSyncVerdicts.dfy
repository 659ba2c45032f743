/** What the caller's verdict says of the history that led to it, told by its events alone. */
module OpSyncVerdicts {
  import opened Wrappers
  import opened OpSync

  type History = seq<Event>

  // ----- What a history contains -----

  predicate FiresAs(e: Event, id: CallbackId) {
    e.Fire? && e.id == id
  }

  /** The initiating call has not returned yet when the `i`-th event happens. */
  predicate InsideCall(es: History, i: nat)
    requires i <= |es|
  {
    Return !in es[..i]
  }

  function WriteCount(es: History): nat {
    if es == [] then 0 else WriteCount(es[..|es| - 1]) + if es[|es| - 1].Write? then 1 else 0
  }

  predicate LastWrite(es: History, i: int) {
    0 <= i < |es| && es[i].Write? && forall j :: i < j < |es| ==> !es[j].Write?
  }

  /** The deadline passed, and after that the wait timed out. */
  predicate TimedOut(es: History) {
    exists i, j :: 0 <= i < j < |es| && es[i] == Tick && es[j] == TimeOut
  }

  // ----- What the state knows of it -----

  predicate RecordOf(c: Callback, e: Event, insideCall: bool)
    requires e.Fire?
  {
    c.onCaller == e.onCaller && c.code == e.code && c.inside == (e.onCaller && insideCall)
  }

  ghost predicate FiringsKnown(es: History, s: State) {
    && (forall id :: id in s.callbacks ==> exists i :: 0 <= i < |es| && FiresAs(es[i], id))
    && (forall i :: 0 <= i < |es| && es[i].Fire? ==>
          es[i].id in s.callbacks && RecordOf(s.callbacks[es[i].id], es[i], InsideCall(es, i)))
  }

  predicate NotReturned(pc: CallerPc) {
    pc == Ready || pc == InCall
  }

  predicate PlaceKnown(es: History, s: State) {
    NotReturned(s.caller) <==> Return !in es
  }

  predicate TimeKnown(es: History, s: State) {
    && (s.late <==> Tick in es)
    && (s.caller == Woken(true) || s.caller == Done(NeverFired) ==> TimedOut(es))
    && (TimeOut in es ==> s.caller == Woken(true) || s.caller.Done?)
  }

  ghost predicate WritesKnown(es: History, s: State) {
    && s.fireCount == WriteCount(es)
    && (forall id :: id in Writers(s.callbacks) <==> Write(id) in es)
    && (s.fired ==> exists i :: LastWrite(es, i) && es[i].id in s.callbacks && s.callbacks[es[i].id].code == s.code)
    && (!s.fired ==> forall i :: 0 <= i < |es| ==> !es[i].Write?)
  }

  // ----- And goes on knowing -----

  lemma CallerAfter(s: State, e: Event)
    requires Enabled(s, e)
    ensures var t := Step(s, e);
            && (NotReturned(t.caller) <==> NotReturned(s.caller) && !e.Return?)
            && (t.late <==> s.late || e.Tick?)
            && (e.TimeOut? ==> s.late && s.caller == Waiting)
            && (t.caller == Woken(true) <==> e.TimeOut? || (s.caller == Woken(true) && !e.Relock?))
            && (t.caller == Done(NeverFired) ==> s.caller == Woken(true))
            && (s.caller == Woken(true) && e.Relock? ==> t.caller.Done?)
  {
    if CallersOwn(e) {
      match e {
        case Initiate => case Return => case LockToWait => case Test => case WakeSpuriously => case TimeOut =>
        case Relock => case Tick =>
      }
    } else if e.Fire? {
      FireIs(s, e);
      hide Step, Enabled;
    } else {
      CallbackStepIs(s, e);
      hide Step, Enabled;
    }
  }

  lemma TimeStep(es: History, s: State, e: Event)
    requires TimeKnown(es, s) && Enabled(s, e)
    ensures TimeKnown(es + [e], Step(s, e))
  {
    CallerAfter(s, e);
    assert !s.caller.Done?;
    hide Step, Enabled;
    if e.TimeOut? {
      var i :| 0 <= i < |es| && es[i] == Tick;
      assert (es + [e])[i] == Tick && (es + [e])[|es|] == TimeOut;
    } else if TimedOut(es) {
      var i, j :| 0 <= i < j < |es| && es[i] == Tick && es[j] == TimeOut;
      assert (es + [e])[i] == Tick && (es + [e])[j] == TimeOut;
    }
    hide TimedOut;
  }

  lemma PlaceStep(es: History, s: State, e: Event)
    requires PlaceKnown(es, s) && Enabled(s, e)
    ensures PlaceKnown(es + [e], Step(s, e))
  {
    CallerAfter(s, e);
    hide Step, Enabled;
  }

  lemma FiringsStep(es: History, s: State, e: Event)
    requires FiringsKnown(es, s) && PlaceKnown(es, s) && Enabled(s, e)
    ensures FiringsKnown(es + [e], Step(s, e))
  {
    var t, more := Step(s, e), es + [e];
    CallbacksAre(s, e);
    forall id | id in s.callbacks ensures id in t.callbacks && SameCallback(s.callbacks[id], t.callbacks[id]) {
      CallbackAfter(s, e, id);
    }
    hide Step, Enabled;
    forall i | 0 <= i < |more| && more[i].Fire?
      ensures more[i].id in t.callbacks && RecordOf(t.callbacks[more[i].id], more[i], InsideCall(more, i))
    {
      assert more[..i] == es[..i];
      if i == |es| {
        assert es[..i] == es;
      } else {
        assert more[i] == es[i] && es[i].id in s.callbacks;
      }
    }
    forall id | id in t.callbacks ensures exists i :: 0 <= i < |more| && FiresAs(more[i], id) {
      if id in s.callbacks {
        var i :| 0 <= i < |es| && FiresAs(es[i], id);
        assert FiresAs(more[i], id);
      } else {
        assert FiresAs(more[|es|], id);
      }
    }
  }

  /** The callbacks known after a step, and what a new one is recorded as. */
  lemma CallbacksAre(s: State, e: Event)
    requires Enabled(s, e)
    ensures Step(s, e).callbacks.Keys == s.callbacks.Keys + if e.Fire? then {e.id} else {}
    ensures e.Fire? ==> e.id !in s.callbacks && RecordOf(Step(s, e).callbacks[e.id], e, NotReturned(s.caller))
  {
    if CallersOwn(e) {
      CallersOwnKeeps(s, e);
    } else if e.Fire? {
      FireIs(s, e);
    } else {
      CallbackStepIs(s, e);
    }
    hide Step, Enabled;
  }

  lemma WritesStep(es: History, s: State, e: Event)
    requires WritesKnown(es, s) && Enabled(s, e)
    ensures WritesKnown(es + [e], Step(s, e))
  {
    var t, more := Step(s, e), es + [e];
    assert more[..|more| - 1] == es && more[|es|] == e;
    assert forall i :: 0 <= i < |es| ==> more[i] == es[i];
    WritersAfter(s, e);
    forall id | id in s.callbacks ensures id in t.callbacks && SameCallback(s.callbacks[id], t.callbacks[id]) {
      CallbackAfter(s, e, id);
    }
    if e.Write? {
      CallbackStepIs(s, e);
      hide Step, Enabled, Writers, WriteCount;
      assert LastWrite(more, |es|);
      assert WriteCount(more) == WriteCount(es) + 1 by { CountOne(es, e); }
    } else {
      RecordKept(s, e);
      hide Step, Enabled, Writers, WriteCount;
      assert WriteCount(more) == WriteCount(es) by { CountOne(es, e); }
      if s.fired {
        var i :| LastWrite(es, i) && es[i].id in s.callbacks && s.callbacks[es[i].id].code == s.code;
        assert LastWrite(more, i);
      }
    }
  }

  lemma CountOne(es: History, e: Event)
    ensures WriteCount(es + [e]) == WriteCount(es) + if e.Write? then 1 else 0
  {
    assert (es + [e])[..|es|] == es;
  }

  /** Everything the state knows of the history behind it. */
  ghost predicate Known(es: History, s: State) {
    FiringsKnown(es, s) && PlaceKnown(es, s) && TimeKnown(es, s) && WritesKnown(es, s)
  }

  lemma KnownStep(es: History, s: State, e: Event)
    requires Known(es, s) && Enabled(s, e)
    ensures Known(es + [e], Step(s, e))
  {
    FiringsStep(es, s, e);
    PlaceStep(es, s, e);
    TimeStep(es, s, e);
    WritesStep(es, s, e);
    hide Step, Enabled, FiringsKnown, PlaceKnown, TimeKnown, WritesKnown;
  }

  lemma {:induction false} KnownOn(before: History, s: State, es: History)
    requires Known(before, s) && IsRun(s, es)
    ensures Known(before + es, After(s, es))
    decreases |es|
  {
    hide Step, Enabled, Known;
    if es == [] {
      assert before + es == before;
    } else {
      KnownStep(before, s, es[0]);
      KnownOn(before + [es[0]], Step(s, es[0]), es[1..]);
      assert before + [es[0]] + es[1..] == before + es;
    }
  }

  lemma KnownAlways(es: History)
    requires IsRun(START, es)
    ensures Known(es, After(START, es))
  {
    assert Writers(map[]) == {};
    assert Known([], START);
    hide Known, IsRun, After;
    KnownOn([], START, es);
    assert [] + es == es;
  }

  // ----- Verdicts -----

  /** A callback of the history ran on the caller's thread, `inside` the initiating call or anywhere. */
  predicate RanOnCaller(es: History, inside: bool) {
    exists i :: 0 <= i < |es| && es[i].Fire? && es[i].onCaller && (inside ==> InsideCall(es, i))
  }

  /** The code is that of the callback that recorded itself last. */
  predicate LastCode(es: History, code: int) {
    exists i, j :: 0 <= i < |es| && LastWrite(es, i) && 0 <= j < |es| && FiresAs(es[j], es[i].id) && es[j].code == code
  }

  predicate Tells(verdict: Verdict, es: History) {
    match verdict
    case NeverFired => TimedOut(es) && WriteCount(es) == 0 && !RanOnCaller(es, false)
    case Fired(reentrant, sameThread, fireCount, code) =>
      && (reentrant <==> RanOnCaller(es, true)) && (sameThread <==> RanOnCaller(es, false))
      && fireCount == WriteCount(es) > 0 && LastCode(es, code)
  }

  /**
   The verdict tells exactly what happened: re-entrancy if and only if a callback ran inside the call, the
   caller's thread if and only if one ran on it, how many had recorded themselves and the last one's code;
   and never fired only once the deadline had passed with none of them recorded.
   */
  lemma VerdictIsExact(es: History)
    requires IsRun(START, es) && After(START, es).caller.Done?
    ensures Tells(After(START, es).caller.verdict, es)
  {
    var s := After(START, es);
    KnownAlways(es);
    InvAlways(es);
    VerdictOfState(es);
    hide IsRun, After;
    Blamed(es, s);
    assert s.caller == Conclude(s).caller;
    hide Inv, CallbacksConsistent, RanOnCaller, TimedOut;
    if s.fired {
      CodeIsLast(es, s);
      hide LastCode, FiringsKnown, PlaceKnown, TimeKnown;
    } else {
      NothingWritten(es);
      hide WritesKnown, FiringsKnown, PlaceKnown;
    }
    hide Writers;
  }

  lemma {:induction false} NothingWritten(es: History)
    ensures (forall i :: 0 <= i < |es| ==> !es[i].Write?) <==> WriteCount(es) == 0
  {
    if es != [] {
      var front := es[..|es| - 1];
      NothingWritten(front);
      assert forall i :: 0 <= i < |front| ==> front[i] == es[i];
      assert forall i :: 0 <= i < |es| ==> i < |front| || es[i] == es[|es| - 1];
    }
  }

  lemma CodeIsLast(es: History, s: State)
    requires FiringsKnown(es, s) && WritesKnown(es, s) && s.fired
    ensures LastCode(es, s.code)
  {
    hide InsideCall, WriteCount, Writers;
    var i :| LastWrite(es, i) && es[i].id in s.callbacks && s.callbacks[es[i].id].code == s.code;
    var j :| 0 <= j < |es| && FiresAs(es[j], es[i].id);
    assert RecordOf(s.callbacks[es[j].id], es[j], InsideCall(es, j));
  }

  lemma Blamed(es: History, s: State)
    requires FiringsKnown(es, s)
    ensures RanOnCaller(es, false) <==> exists id :: id in s.callbacks && s.callbacks[id].onCaller
    ensures RanOnCaller(es, true) <==> exists id :: id in s.callbacks && s.callbacks[id].inside
  {
    hide InsideCall;
    if id :| id in s.callbacks && s.callbacks[id].onCaller {
      var i :| 0 <= i < |es| && FiresAs(es[i], id);
      assert RecordOf(s.callbacks[es[i].id], es[i], InsideCall(es, i));
    }
    if id :| id in s.callbacks && s.callbacks[id].inside {
      var i :| 0 <= i < |es| && FiresAs(es[i], id);
      assert RecordOf(s.callbacks[es[i].id], es[i], InsideCall(es, i));
    }
    if RanOnCaller(es, false) {
      var i :| 0 <= i < |es| && es[i].Fire? && es[i].onCaller;
      assert es[i].id in s.callbacks && RecordOf(s.callbacks[es[i].id], es[i], InsideCall(es, i));
    }
    if RanOnCaller(es, true) {
      var i :| 0 <= i < |es| && es[i].Fire? && es[i].onCaller && InsideCall(es, i);
      assert es[i].id in s.callbacks && RecordOf(s.callbacks[es[i].id], es[i], InsideCall(es, i));
    }
    hide FiringsKnown;
  }

  /** An operation that calls back once, off the caller's thread, passes with its code, unless the wait timed out. */
  lemma OneDeferredCallbackPasses(es: History, i: nat)
    requires IsRun(START, es) && After(START, es).caller.Done?
    requires i < |es| && es[i].Fire? && !es[i].onCaller && forall j :: 0 <= j < |es| && es[j].Fire? ==> j == i
    ensures var verdict := After(START, es).caller.verdict;
            verdict == Fired(false, false, 1, es[i].code) || (verdict == NeverFired && TimedOut(es))
  {
    var s := After(START, es);
    VerdictIsExact(es);
    KnownAlways(es);
    InvAlways(es);
    hide IsRun, After, TimedOut, CallbacksConsistent;
    forall x | x in Writers(s.callbacks) ensures x == es[i].id {
      var j :| 0 <= j < |es| && FiresAs(es[j], x);
    }
    assert Writers(s.callbacks) <= {es[i].id};
    if Writers(s.callbacks) != {} {
      assert Writers(s.callbacks) == {es[i].id};
    }
    hide Writers;
  }

  /** A spurious wake-up before anything was recorded sends the caller back to wait. */
  lemma SpuriousWakeIsHarmless(es: History)
    requires IsRun(START, es) && After(START, es).caller == Waiting && After(START, es).owner == Free
    ensures var (s, loop) := (After(START, es), [WakeSpuriously, Relock, Test]); IsRun(s, loop) && After(s, loop) == s
  {
    var s := After(START, es);
    InvAlways(es);
    NoLostWakeup(es);
    assert !s.fired;
    hide IsRun, After;
    var s1 := Step(s, WakeSpuriously);
    var s2 := Step(s1, Relock);
    assert Step(s2, Test) == s;
    hide Step, Enabled, Inv;
    assert IsRun(s, []) && After(s, []) == s by { NothingYet(s); }
    Cons(s2, Test, []);
    Cons(s1, Relock, [Test] + []);
    Cons(s, WakeSpuriously, [Relock] + ([Test] + []));
    assert [WakeSpuriously] + ([Relock] + ([Test] + [])) == [WakeSpuriously, Relock, Test];
  }

  lemma NothingYet(s: State)
    ensures IsRun(s, []) && After(s, []) == s
  {
  }

  /**
   Once the operation is started, a callback may come at any time until the verdict: on another thread
   whatever the caller is doing, and on the caller's own until it takes the mutex.
   */
  lemma CallbacksComeAnyTime(s: State, id: CallbackId, code: int)
    requires id !in s.callbacks && !s.caller.Done?
    ensures Enabled(s, Fire(id, false, code)) <==> s.caller != Ready
    ensures Enabled(s, Fire(id, true, code)) <==> s.nested == None && (s.caller == InCall || s.caller == Returned)
  {
  }

  // ----- Each verdict happens -----

  predicate Leads(s: State, e: Event, t: State) {
    Enabled(s, e) && Step(s, e) == t
  }

  /** The states a history passes through. */
  predicate Path(ss: seq<State>, es: History) {
    |ss| == |es| + 1 && forall i :: 0 <= i < |es| ==> Leads(ss[i], es[i], ss[i + 1])
  }

  lemma {:induction false} PathIsRun(ss: seq<State>, es: History)
    requires Path(ss, es)
    ensures IsRun(ss[0], es) && After(ss[0], es) == ss[|es|]
    decreases |es|
  {
    hide Enabled, Step;
    if es != [] {
      assert Leads(ss[0], es[0], ss[1]);
      PathIsRun(ss[1..], es[1..]);
    }
  }

  /** Callback 0 is on top of the caller's stack, inside the call; it has recorded itself, or not yet. */
  function Nested(pc: CallbackPc, code: int): State {
    var c := Callback(true, true, code, pc, pc != Entered, pc != Entered);
    var s := START.(caller := InCall, inCall := true, nested := if pc == Left then None else Some(0),
                    owner := if HoldsMutex(c) then By(0) else Free, callbacks := map[0 := c]);
    if HasWritten(c) then Recording(s, code) else s
  }

  function Recording(s: State, code: int): State {
    s.(onCallerThread := true, reentrant := true, code := code, fired := true, fireCount := 1)
  }

  lemma NestedFires(code: int)
    ensures Leads(START, Initiate, START.(caller := InCall, inCall := true))
    ensures Leads(START.(caller := InCall, inCall := true), Fire(0, true, code), Nested(Entered, code))
  {
  }

  lemma NestedLocks(code: int)
    ensures Leads(Nested(Entered, code), Judge(0), Nested(Judged, code))
    ensures Leads(Nested(Judged, code), Lock(0), Nested(Locked, code))
  {
    JudgeIs(Nested(Entered, code), 0);
    LockIs(Nested(Judged, code), 0);
    hide Step, Enabled;
  }

  lemma NestedRecords(code: int)
    ensures Leads(Nested(Locked, code), Write(0), Nested(Written, code))
    ensures Leads(Nested(Written, code), Signal(0), Nested(Signalled, code))
    ensures Leads(Nested(Signalled, code), Unlock(0), Nested(Left, code))
  {
    WriteIs(Nested(Locked, code), 0);
    SignalIs(Nested(Written, code), 0);
    UnlockIs(Nested(Signalled, code), 0);
    hide Step, Enabled;
  }

  lemma NestedReturn(code: int)
    ensures var (s, t) := (Nested(Left, code).(caller := Returned, inCall := false),
                           Nested(Left, code).(caller := Testing, inCall := false, owner := Caller));
            && Leads(Nested(Left, code), Return, s) && Leads(s, LockToWait, t) && Leads(t, Test, Conclude(t))
            && Conclude(t).caller == Done(Fired(true, true, 1, code))
  {
  }

  /** A callback from inside the call runs to its end, with nothing to wait for, and is blamed for it. */
  lemma ReentrancyHappens(code: int)
    ensures var es := [Initiate, Fire(0, true, code), Judge(0), Lock(0), Write(0), Signal(0), Unlock(0), Return,
                       LockToWait, Test];
            IsRun(START, es) && After(START, es).caller == Done(Fired(true, true, 1, code))
  {
    NestedFires(code);
    NestedLocks(code);
    NestedRecords(code);
    NestedReturn(code);
    hide Enabled, Step, IsRun, After, Leads, Nested, Conclude;
    var s, t := Nested(Left, code).(caller := Returned, inCall := false),
                Nested(Left, code).(caller := Testing, inCall := false, owner := Caller);
    PathIsRun([START, START.(caller := InCall, inCall := true), Nested(Entered, code), Nested(Judged, code),
               Nested(Locked, code), Nested(Written, code), Nested(Signalled, code), Nested(Left, code), s, t,
               Conclude(t)],
              [Initiate, Fire(0, true, code), Judge(0), Lock(0), Write(0), Signal(0), Unlock(0), Return, LockToWait,
               Test]);
  }

  /** An operation that never calls back is failed when the deadline has passed. */
  lemma NeverFiringHappens()
    ensures var es := [Initiate, Return, LockToWait, Test, Tick, TimeOut, Relock];
            IsRun(START, es) && After(START, es).caller == Done(NeverFired)
  {
    var s1 := START.(caller := InCall, inCall := true);
    var s2 := START.(caller := Returned);
    var s3 := START.(caller := Testing, owner := Caller);
    var s4 := START.(caller := Waiting);
    var s5 := s4.(late := true);
    var s6 := s5.(caller := Woken(true));
    var s7 := s5.(caller := Done(NeverFired));
    assert Leads(START, Initiate, s1) && Leads(s1, Return, s2) && Leads(s2, LockToWait, s3) && Leads(s3, Test, s4);
    assert Leads(s4, Tick, s5) && Leads(s5, TimeOut, s6) && Leads(s6, Relock, s7);
    hide Enabled, Step, IsRun, After, Leads;
    PathIsRun([START, s1, s2, s3, s4, s5, s6, s7], [Initiate, Return, LockToWait, Test, Tick, TimeOut, Relock]);
  }
}
