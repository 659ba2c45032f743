/**
 The callback check of `capi/examples/sdk_conventions_smoke.c`: a caller starts an operation and waits
 on a condition variable with a deadline, while callbacks, on any thread, record where they ran.
 */
module OpSync {
  import opened Wrappers

  // ----- State -----

  type CallbackId = nat

  /** Where a callback is in `deferred_callback`. */
  datatype CallbackPc = Entered | Judged | Locked | Written | Signalled | Left

  datatype Callback = Callback(
    onCaller: bool, // runs on the caller's thread
    inside: bool,   // ... and was invoked from inside the initiating call
    code: int,
    pc: CallbackPc,
    sameThread: bool,
    reentrant: bool)

  datatype Verdict =
    | NeverFired
    | Fired(reentrant: bool, sameThread: bool, fireCount: nat, code: int)

  /** Where the caller is in `check_deferred`. */
  datatype CallerPc =
    | Ready
    | InCall
    | Returned
    | Testing // holds the mutex, at the head of the loop
    | Waiting
    | Woken(timedOut: bool) // out of the wait, to take the mutex again
    | Done(verdict: Verdict)

  datatype Owner = Free | Caller | By(id: CallbackId)

  datatype State = State(
    caller: CallerPc,
    nested: Option<CallbackId>, // a callback on top of the caller's stack
    owner: Owner,
    inCall: bool,
    fired: bool,
    fireCount: nat,
    code: int,
    onCallerThread: bool,
    reentrant: bool,
    late: bool, // the deadline has passed
    callbacks: map<CallbackId, Callback>)

  const START := State(Ready, None, Free, false, false, 0, 0, false, false, false, map[])

  datatype Event =
    | Initiate
    | Return
    | LockToWait
    | Test
    | WakeSpuriously
    | TimeOut
    | Relock
    | Tick
    | Fire(id: CallbackId, onCaller: bool, code: int)
    | Judge(id: CallbackId)
    | Lock(id: CallbackId)
    | Write(id: CallbackId)
    | Signal(id: CallbackId)
    | Unlock(id: CallbackId)

  // ----- Steps -----

  predicate At(s: State, id: CallbackId, pc: CallbackPc) {
    id in s.callbacks && s.callbacks[id].pc == pc
  }

  /** The caller's own code runs only when no callback is on top of its stack. */
  predicate Enabled(s: State, e: Event) {
    && !s.caller.Done?
    && match e
       case Initiate => s.caller == Ready
       case Return => s.caller == InCall && s.nested == None
       case LockToWait => s.caller == Returned && s.nested == None && s.owner == Free
       case Test => s.caller == Testing
       case WakeSpuriously => s.caller == Waiting
       case TimeOut => s.caller == Waiting && s.late
       case Relock => s.caller.Woken? && s.owner == Free
       case Tick => true
       case Fire(id, onCaller, _) =>
         && id !in s.callbacks && s.caller != Ready
         && (onCaller ==> s.nested == None && (s.caller == InCall || s.caller == Returned))
       case Judge(id) => At(s, id, Entered)
       case Lock(id) => At(s, id, Judged) && s.owner == Free
       case Write(id) => At(s, id, Locked)
       case Signal(id) => At(s, id, Written)
       case Unlock(id) => At(s, id, Signalled)
  }

  function Move(s: State, id: CallbackId, pc: CallbackPc): State
    requires id in s.callbacks
  {
    s.(callbacks := s.callbacks[id := s.callbacks[id].(pc := pc)])
  }

  /** The snapshot taken under the mutex, which is then released. */
  function Conclude(s: State): State {
    s.(owner := Free,
       caller := Done(if s.fired then Fired(s.reentrant, s.onCallerThread, s.fireCount, s.code) else NeverFired))
  }

  function Step(s: State, e: Event): State
    requires Enabled(s, e)
  {
    match e
    case Initiate => s.(caller := InCall, inCall := true)
    case Return => s.(caller := Returned, inCall := false)
    case LockToWait => s.(caller := Testing, owner := Caller)
    case Test => if s.fired then Conclude(s) else s.(caller := Waiting, owner := Free)
    case WakeSpuriously => s.(caller := Woken(false))
    case TimeOut => s.(caller := Woken(true))
    case Relock => if s.caller.timedOut then Conclude(s) else s.(caller := Testing, owner := Caller)
    case Tick => s.(late := true)
    case Fire(id, onCaller, code) =>
      var c := Callback(onCaller, onCaller && s.caller == InCall, code, Entered, false, false);
      s.(callbacks := s.callbacks[id := c],
         nested := if onCaller then Some(id) else s.nested)
    case Judge(id) =>
      var c := s.callbacks[id];
      var judged := c.(pc := Judged, sameThread := c.onCaller, reentrant := c.onCaller && s.inCall);
      s.(callbacks := s.callbacks[id := judged])
    case Lock(id) => Move(s, id, Locked).(owner := By(id))
    case Write(id) =>
      var c := s.callbacks[id];
      Move(s, id, Written).(onCallerThread := s.onCallerThread || c.sameThread,
                            reentrant := s.reentrant || (c.sameThread && c.reentrant),
                            code := c.code, fired := true, fireCount := s.fireCount + 1)
    case Signal(id) => Move(s, id, Signalled).(caller := if s.caller == Waiting then Woken(false) else s.caller)
    case Unlock(id) =>
      Move(s, id, Left).(owner := Free, nested := if s.nested == Some(id) then None else s.nested)
  }

  // ----- Invariant -----

  predicate HoldsMutex(c: Callback) {
    c.pc == Locked || c.pc == Written || c.pc == Signalled
  }

  /** It has recorded its firing. */
  predicate HasWritten(c: Callback) {
    c.pc == Written || c.pc == Signalled || c.pc == Left
  }

  ghost function Writers(callbacks: map<CallbackId, Callback>): set<CallbackId> {
    set id | id in callbacks && HasWritten(callbacks[id])
  }

  /** What one callback's record of itself comes to, given where the caller is. */
  predicate Consistent(s: State, id: CallbackId, c: Callback) {
    && (HoldsMutex(c) <==> s.owner == By(id))
    && (c.onCaller && c.pc != Left <==> s.nested == Some(id))
    && (c.inside ==> c.onCaller && (c.pc != Left ==> s.caller == InCall))
    && (c.onCaller && !c.inside && c.pc != Left ==> s.caller == Returned)
    && (c.pc != Entered ==> c.sameThread == c.onCaller && c.reentrant == c.inside)
  }

  ghost predicate CallbacksConsistent(s: State) {
    && (forall id :: id in s.callbacks ==> Consistent(s, id, s.callbacks[id]))
    && (s.owner.By? ==> s.owner.id in s.callbacks)
    && (s.nested.Some? ==> s.nested.value in s.callbacks && (s.caller == InCall || s.caller == Returned))
    && (s.caller == Ready ==> s.callbacks == map[])
  }

  ghost predicate CallerConsistent(s: State) {
    && (s.owner == Caller <==> s.caller == Testing)
    && (s.inCall <==> s.caller == InCall)
    && (s.caller == Waiting && s.fired ==> s.owner.By? && At(s, s.owner.id, Written))
    && (s.caller.Done? ==> s.caller == Conclude(s).caller)
  }

  ghost predicate Recorded(s: State) {
    && s.fireCount == |Writers(s.callbacks)| && (s.fired <==> s.fireCount > 0)
    && (s.onCallerThread <==> exists id :: id in Writers(s.callbacks) && s.callbacks[id].onCaller)
    && (s.reentrant <==> exists id :: id in Writers(s.callbacks) && s.callbacks[id].inside)
    && (s.fired ==> exists id :: id in Writers(s.callbacks) && s.callbacks[id].code == s.code)
  }

  ghost predicate Inv(s: State) {
    CallbacksConsistent(s) && CallerConsistent(s) && Recorded(s)
  }

  function Stage(pc: CallbackPc): nat {
    match pc
    case Entered => 0
    case Judged => 1
    case Locked => 2
    case Written => 3
    case Signalled => 4
    case Left => 5
  }

  // One callback step at a time.

  lemma JudgeIs(s: State, id: CallbackId)
    requires !s.caller.Done? && At(s, id, Entered)
    ensures var c := s.callbacks[id];
            && Enabled(s, Judge(id))
            && Step(s, Judge(id)) ==
               s.(callbacks := s.callbacks[id := c.(pc := Judged, sameThread := c.onCaller,
                                                    reentrant := c.onCaller && s.inCall)])
  {
  }

  lemma LockIs(s: State, id: CallbackId)
    requires !s.caller.Done? && At(s, id, Judged) && s.owner == Free
    ensures Enabled(s, Lock(id)) && Step(s, Lock(id)) == Move(s, id, Locked).(owner := By(id))
  {
  }

  lemma WriteIs(s: State, id: CallbackId)
    requires !s.caller.Done? && At(s, id, Locked)
    ensures var c := s.callbacks[id];
            && Enabled(s, Write(id))
            && Step(s, Write(id)) ==
               Move(s, id, Written).(onCallerThread := s.onCallerThread || c.sameThread,
                                     reentrant := s.reentrant || (c.sameThread && c.reentrant),
                                     code := c.code, fired := true, fireCount := s.fireCount + 1)
  {
  }

  lemma SignalIs(s: State, id: CallbackId)
    requires !s.caller.Done? && At(s, id, Written)
    ensures Enabled(s, Signal(id))
    ensures Step(s, Signal(id)) ==
            Move(s, id, Signalled).(caller := if s.caller == Waiting then Woken(false) else s.caller)
  {
  }

  lemma UnlockIs(s: State, id: CallbackId)
    requires !s.caller.Done? && At(s, id, Signalled)
    ensures Enabled(s, Unlock(id))
    ensures Step(s, Unlock(id)) ==
            Move(s, id, Left).(owner := Free, nested := if s.nested == Some(id) then None else s.nested)
  {
  }

  lemma FireIs(s: State, e: Event)
    requires Enabled(s, e) && e.Fire?
    ensures e.id !in s.callbacks && s.caller != Ready
    ensures e.onCaller ==> s.nested == None && (s.caller == InCall || s.caller == Returned)
    ensures Step(s, e) ==
            s.(callbacks := s.callbacks[e.id := Callback(e.onCaller, e.onCaller && s.caller == InCall, e.code,
                                                         Entered, false, false)],
               nested := if e.onCaller then Some(e.id) else s.nested)
  {
  }

  /** What every callback step has in common: the callback moves one stage on, and little else changes. */
  predicate StepsOn(s: State, t: State, id: CallbackId)
    requires id in s.callbacks && id in t.callbacks
  {
    var (c, d) := (s.callbacks[id], t.callbacks[id]);
    && t.callbacks == s.callbacks[id := d]
    && d.onCaller == c.onCaller && d.inside == c.inside && d.code == c.code && Stage(d.pc) == Stage(c.pc) + 1
    && (if d.pc == Judged then d.sameThread == c.onCaller && d.reentrant == (c.onCaller && s.inCall)
        else d.sameThread == c.sameThread && d.reentrant == c.reentrant)
    && t.inCall == s.inCall && t.late == s.late && (d.pc == Locked ==> s.owner == Free)
    && t.owner == (if d.pc == Locked then By(id) else if d.pc == Left then Free else s.owner)
    && t.nested == (if d.pc == Left && s.nested == Some(id) then None else s.nested)
    && t.caller == (if d.pc == Signalled && s.caller == Waiting then Woken(false) else s.caller)
  }

  /** Only writing changes the record. */
  predicate RecordsOn(s: State, t: State, id: CallbackId)
    requires id in s.callbacks && id in t.callbacks
  {
    var c := s.callbacks[id];
    if t.callbacks[id].pc == Written then
      && t.fired && t.fireCount == s.fireCount + 1 && t.code == c.code
      && t.onCallerThread == (s.onCallerThread || c.sameThread)
      && t.reentrant == (s.reentrant || (c.sameThread && c.reentrant))
    else
      && t.fired == s.fired && t.fireCount == s.fireCount && t.code == s.code
      && t.onCallerThread == s.onCallerThread && t.reentrant == s.reentrant
  }

  lemma CallbackStepIs(s: State, e: Event)
    requires Enabled(s, e) && !CallersOwn(e) && !e.Fire?
    ensures !s.caller.Done? && e.id in s.callbacks && e.id in Step(s, e).callbacks
    ensures StepsOn(s, Step(s, e), e.id) && RecordsOn(s, Step(s, e), e.id)
    ensures Step(s, e).callbacks[e.id].pc == Written <==> e.Write?
  {
    hide StepsOn, RecordsOn;
    match e {
      case Judge(x) => JudgeOn(s, x);
      case Lock(x) => LockOn(s, x);
      case Write(x) => WriteOn(s, x);
      case Signal(x) => SignalOn(s, x);
      case Unlock(x) => UnlockOn(s, x);
    }
    hide Step;
  }

  lemma JudgeOn(s: State, id: CallbackId)
    requires !s.caller.Done? && At(s, id, Entered)
    ensures id in Step(s, Judge(id)).callbacks && Step(s, Judge(id)).callbacks[id].pc == Judged
    ensures StepsOn(s, Step(s, Judge(id)), id) && RecordsOn(s, Step(s, Judge(id)), id)
  {
    JudgeIs(s, id);
    hide Step, Enabled;
  }

  lemma LockOn(s: State, id: CallbackId)
    requires !s.caller.Done? && At(s, id, Judged) && s.owner == Free
    ensures id in Step(s, Lock(id)).callbacks && Step(s, Lock(id)).callbacks[id].pc == Locked
    ensures StepsOn(s, Step(s, Lock(id)), id) && RecordsOn(s, Step(s, Lock(id)), id)
  {
    LockIs(s, id);
    hide Step, Enabled;
  }

  lemma WriteOn(s: State, id: CallbackId)
    requires !s.caller.Done? && At(s, id, Locked)
    ensures id in Step(s, Write(id)).callbacks && Step(s, Write(id)).callbacks[id].pc == Written
    ensures StepsOn(s, Step(s, Write(id)), id) && RecordsOn(s, Step(s, Write(id)), id)
  {
    WriteIs(s, id);
    hide Step, Enabled;
  }

  lemma SignalOn(s: State, id: CallbackId)
    requires !s.caller.Done? && At(s, id, Written)
    ensures id in Step(s, Signal(id)).callbacks && Step(s, Signal(id)).callbacks[id].pc == Signalled
    ensures StepsOn(s, Step(s, Signal(id)), id) && RecordsOn(s, Step(s, Signal(id)), id)
  {
    SignalIs(s, id);
    hide Step, Enabled;
  }

  lemma UnlockOn(s: State, id: CallbackId)
    requires !s.caller.Done? && At(s, id, Signalled)
    ensures id in Step(s, Unlock(id)).callbacks && Step(s, Unlock(id)).callbacks[id].pc == Left
    ensures StepsOn(s, Step(s, Unlock(id)), id) && RecordsOn(s, Step(s, Unlock(id)), id)
  {
    UnlockIs(s, id);
    hide Step, Enabled;
  }

  /** What a callback is does not change; where it is does, one step at a time. */
  lemma CallbackAfter(s: State, e: Event, id: CallbackId)
    requires Enabled(s, e) && id in s.callbacks
    ensures id in Step(s, e).callbacks
    ensures var (c, d) := (s.callbacks[id], Step(s, e).callbacks[id]);
            && d.onCaller == c.onCaller && d.inside == c.inside && d.code == c.code
            && (HasWritten(d) <==> HasWritten(c) || e == Write(id))
  {
    hide Enabled, Step;
    if CallersOwn(e) {
      CallersOwnKeeps(s, e);
    } else if e.Fire? {
      FireIs(s, e);
    } else {
      CallbackStepIs(s, e);
      assert Step(s, e).callbacks[e.id].pc == Written <==> e == Write(e.id);
    }
    hide RecordsOn, CallersOwn;
  }

  /** The caller's own steps, and the clock's. */
  predicate CallersOwn(e: Event) {
    e.Initiate? || e.Return? || e.LockToWait? || e.Test? || e.WakeSpuriously? || e.TimeOut? || e.Relock? || e.Tick?
  }

  lemma CallersOwnKeeps(s: State, e: Event)
    requires Enabled(s, e) && CallersOwn(e)
    ensures var t := Step(s, e);
            && t.callbacks == s.callbacks && t.nested == s.nested
            && (t.owner == s.owner || (t.owner == Caller && s.owner == Free) || (t.owner == Free && s.caller == Testing)
                || (t.owner == Free && s.owner == Free))
            && ((s.caller == InCall || s.caller == Returned) && s.nested.Some? ==> t.caller == s.caller)
            && (t.caller == InCall || t.caller == Returned || t.caller == Ready ==>
                  t.caller == s.caller || s.caller == Ready || s.nested == None)
  {
    match e {
      case Initiate => case Return => case LockToWait => case Test => case WakeSpuriously => case TimeOut =>
      case Relock => case Tick =>
    }
  }

  lemma KnownUnderCaller(s: State, e: Event, id: CallbackId)
    requires CallbacksConsistent(s) && CallerConsistent(s) && Enabled(s, e) && id in s.callbacks && CallersOwn(e)
    ensures Consistent(Step(s, e), id, s.callbacks[id])
  {
    CallersOwnKeeps(s, e);
    assert Consistent(s, id, s.callbacks[id]);
    hide Step, Enabled, CallbacksConsistent;
  }

  lemma SelfConsistent(s: State, t: State, id: CallbackId)
    requires id in s.callbacks && id in t.callbacks && StepsOn(s, t, id) && Consistent(s, id, s.callbacks[id])
    requires s.inCall <==> s.caller == InCall
    ensures Consistent(t, id, t.callbacks[id])
  {
  }

  lemma OtherConsistent(s: State, t: State, x: CallbackId, id: CallbackId)
    requires x in s.callbacks && x in t.callbacks && StepsOn(s, t, x) && Consistent(s, x, s.callbacks[x])
    requires id in s.callbacks && id != x && Consistent(s, id, s.callbacks[id])
    ensures id in t.callbacks && t.callbacks[id] == s.callbacks[id] && Consistent(t, id, t.callbacks[id])
  {
  }

  lemma KnownUnderFire(s: State, e: Event, id: CallbackId)
    requires Enabled(s, e) && e.Fire? && id in s.callbacks && Consistent(s, id, s.callbacks[id])
    ensures id in Step(s, e).callbacks && Consistent(Step(s, e), id, Step(s, e).callbacks[id])
  {
    FireIs(s, e);
    hide Enabled, Step;
  }

  lemma KnownUnderCallback(s: State, e: Event, id: CallbackId)
    requires CallbacksConsistent(s) && Enabled(s, e) && id in s.callbacks && !CallersOwn(e)
    requires s.inCall <==> s.caller == InCall
    ensures id in Step(s, e).callbacks && Consistent(Step(s, e), id, Step(s, e).callbacks[id])
  {
    hide Consistent, StepsOn, RecordsOn;
    assert Consistent(s, id, s.callbacks[id]);
    if e.Fire? {
      KnownUnderFire(s, e, id);
    } else {
      CallbackStepIs(s, e);
      assert Consistent(s, e.id, s.callbacks[e.id]);
      if e.id == id {
        SelfConsistent(s, Step(s, e), id);
      } else {
        OtherConsistent(s, Step(s, e), e.id, id);
      }
    }
    hide Enabled, Step, CallbacksConsistent;
  }

  lemma KnownConsistent(s: State, e: Event, id: CallbackId)
    requires CallbacksConsistent(s) && CallerConsistent(s) && Enabled(s, e) && id in s.callbacks
    ensures id in Step(s, e).callbacks && Consistent(Step(s, e), id, Step(s, e).callbacks[id])
  {
    if CallersOwn(e) {
      KnownUnderCaller(s, e, id);
      CallersOwnKeeps(s, e);
    } else {
      KnownUnderCallback(s, e, id);
    }
    hide Step, Enabled, CallbacksConsistent, CallerConsistent, Consistent, CallersOwn;
  }

  lemma CallbacksStep(s: State, e: Event)
    requires CallbacksConsistent(s) && CallerConsistent(s) && Enabled(s, e)
    ensures CallbacksConsistent(Step(s, e))
  {
    var t := Step(s, e);
    forall id | id in t.callbacks ensures Consistent(t, id, t.callbacks[id]) {
      if id in s.callbacks {
        KnownConsistent(s, e, id);
      }
      hide CallbacksConsistent;
    }
    hide Consistent, CallerConsistent;
  }

  lemma CallerStep(s: State, e: Event)
    requires CallbacksConsistent(s) && CallerConsistent(s) && Enabled(s, e)
    ensures CallerConsistent(Step(s, e))
  {
    hide Consistent, CallerConsistent;
    if s.owner.By? {
      assert s.owner.id in s.callbacks && Consistent(s, s.owner.id, s.callbacks[s.owner.id]);
    }
    if CallersOwn(e) {
      CallerUnderCaller(s, e);
    } else if e.Fire? {
      CallerUnderFire(s, e);
    } else {
      CallbackStepIs(s, e);
      assert Consistent(s, e.id, s.callbacks[e.id]);
      hide Step, Enabled, StepsOn, RecordsOn;
      CallerUnderCallback(s, Step(s, e), e.id);
    }
    hide Step, Enabled, CallbacksConsistent;
  }

  lemma CallerUnderFire(s: State, e: Event)
    requires CallerConsistent(s) && Enabled(s, e) && e.Fire?
    ensures CallerConsistent(Step(s, e))
  {
    FireIs(s, e);
    assert !s.caller.Done?;
    hide Step, Enabled;
  }

  lemma CallerUnderCallback(s: State, t: State, id: CallbackId)
    requires CallerConsistent(s) && !s.caller.Done? && id in s.callbacks && id in t.callbacks
    requires StepsOn(s, t, id) && RecordsOn(s, t, id) && Consistent(s, id, s.callbacks[id])
    ensures CallerConsistent(t)
  {
  }

  lemma CallerUnderCaller(s: State, e: Event)
    requires CallerConsistent(s) && Enabled(s, e) && CallersOwn(e)
    requires s.owner.By? ==> s.owner.id in s.callbacks && Consistent(s, s.owner.id, s.callbacks[s.owner.id])
    ensures CallerConsistent(Step(s, e))
  {
    match e {
      case Initiate => case Return => case LockToWait => case Test => case WakeSpuriously => case TimeOut =>
      case Relock => case Tick =>
    }
  }

  lemma WritersAfter(s: State, e: Event)
    requires Enabled(s, e)
    ensures Writers(Step(s, e).callbacks) == if e.Write? then Writers(s.callbacks) + {e.id} else Writers(s.callbacks)
    ensures e.Write? ==> e.id !in Writers(s.callbacks)
  {
    forall id ensures id in Writers(Step(s, e).callbacks) <==> id in Writers(s.callbacks) || e == Write(id) {
      if id in s.callbacks {
        CallbackAfter(s, e, id);
      }
    }
    hide Writers;
  }

  /** The record goes with who has written. */
  lemma RecordFits(s: State, t: State, e: Event)
    requires Recorded(s)
    requires forall id :: id in s.callbacks ==>
               id in t.callbacks && SameCallback(s.callbacks[id], t.callbacks[id])
    requires if e.Write? then
               && e.id in s.callbacks && e.id in t.callbacks && RecordsOn(s, t, e.id) && t.callbacks[e.id].pc == Written
               && s.callbacks[e.id].sameThread == s.callbacks[e.id].onCaller
               && s.callbacks[e.id].reentrant == s.callbacks[e.id].inside
               && (s.callbacks[e.id].inside ==> s.callbacks[e.id].onCaller)
               && Writers(t.callbacks) == Writers(s.callbacks) + {e.id} && e.id !in Writers(s.callbacks)
             else SameRecord(s, t) && Writers(t.callbacks) == Writers(s.callbacks)
    ensures Recorded(t)
  {
    var before, after := Writers(s.callbacks), Writers(t.callbacks);
    assert forall x :: x in before ==> x in s.callbacks;
    assert e.Write? ==> SameCallback(s.callbacks[e.id], t.callbacks[e.id]);
    hide Writers;
    if t.onCallerThread {
      var x :| if s.onCallerThread then x in before && s.callbacks[x].onCaller else e.Write? && x == e.id;
      assert x in after && t.callbacks[x].onCaller;
    }
    if t.reentrant {
      var x :| if s.reentrant then x in before && s.callbacks[x].inside else e.Write? && x == e.id;
      assert x in after && t.callbacks[x].inside;
    }
    if t.fired {
      var x :| if e.Write? then x == e.id else x in before && s.callbacks[x].code == s.code;
      assert x in after && t.callbacks[x].code == t.code;
    }
    assert forall x :: x in after ==> x in before || (e.Write? && x == e.id);
  }

  predicate SameCallback(c: Callback, d: Callback) {
    d.onCaller == c.onCaller && d.inside == c.inside && d.code == c.code
  }

  predicate SameRecord(s: State, t: State) {
    && t.fired == s.fired && t.fireCount == s.fireCount && t.code == s.code
    && t.onCallerThread == s.onCallerThread && t.reentrant == s.reentrant
  }

  lemma RecordedStep(s: State, e: Event)
    requires Inv(s) && Enabled(s, e)
    ensures Recorded(Step(s, e))
  {
    hide Recorded, CallerConsistent;
    var t := Step(s, e);
    WritersAfter(s, e);
    forall id | id in s.callbacks ensures id in t.callbacks && SameCallback(s.callbacks[id], t.callbacks[id]) {
      CallbackAfter(s, e, id);
    }
    if e.Write? {
      CallbackStepIs(s, e);
      assert Consistent(s, e.id, s.callbacks[e.id]);
    } else {
      RecordKept(s, e);
    }
    hide Step, Enabled, CallbacksConsistent, Writers, SameCallback, SameRecord;
    RecordFits(s, t, e);
  }

  lemma RecordKept(s: State, e: Event)
    requires Enabled(s, e) && !e.Write?
    ensures SameRecord(s, Step(s, e))
  {
    if CallersOwn(e) {
      match e {
        case Initiate => case Return => case LockToWait => case Test => case WakeSpuriously => case TimeOut =>
        case Relock => case Tick =>
      }
    } else if e.Fire? {
      FireIs(s, e);
      hide Enabled, Step;
    } else {
      CallbackStepIs(s, e);
      hide Enabled, Step;
    }
  }

  // ----- Histories -----

  ghost predicate IsRun(s: State, es: seq<Event>)
    decreases |es|
  {
    es != [] ==> Enabled(s, es[0]) && IsRun(Step(s, es[0]), es[1..])
  }

  ghost function After(s: State, es: seq<Event>): State
    requires IsRun(s, es)
    decreases |es|
  {
    if es == [] then s else After(Step(s, es[0]), es[1..])
  }

  lemma {:induction false} InvAfter(s: State, es: seq<Event>)
    requires Inv(s) && IsRun(s, es)
    ensures Inv(After(s, es))
    decreases |es|
  {
    hide CallbacksConsistent, CallerConsistent, Recorded, Step, Enabled;
    if es != [] {
      CallbacksStep(s, es[0]);
      CallerStep(s, es[0]);
      RecordedStep(s, es[0]);
      InvAfter(Step(s, es[0]), es[1..]);
    }
  }

  lemma InvAlways(es: seq<Event>)
    requires IsRun(START, es)
    ensures Inv(After(START, es))
  {
    assert Writers(map[]) == {};
    InvAfter(START, es);
    hide Inv;
  }

  /** By the time of the verdict every callback that ran on the caller's thread has recorded itself. */
  lemma CallersCallbacksWrote(s: State, id: CallbackId)
    requires Inv(s) && s.caller.Done? && id in s.callbacks && s.callbacks[id].onCaller
    ensures id in Writers(s.callbacks)
  {
    assert Consistent(s, id, s.callbacks[id]);
    hide Recorded, CallerConsistent;
  }

  /** The verdict, as the state has it: what callbacks there are, and which have recorded themselves. */
  lemma VerdictOfState(es: seq<Event>)
    requires IsRun(START, es) && After(START, es).caller.Done?
    ensures var s := After(START, es);
            match s.caller.verdict
            case NeverFired =>
              Writers(s.callbacks) == {} && forall id :: id in s.callbacks ==> !s.callbacks[id].onCaller
            case Fired(reentrant, sameThread, fireCount, code) =>
              && (reentrant <==> exists id :: id in s.callbacks && s.callbacks[id].inside)
              && (sameThread <==> exists id :: id in s.callbacks && s.callbacks[id].onCaller)
              && fireCount == |Writers(s.callbacks)| > 0
              && exists id :: id in Writers(s.callbacks) && s.callbacks[id].code == code
  {
    var s := After(START, es);
    InvAlways(es);
    hide IsRun, After;
    forall id | id in s.callbacks && s.callbacks[id].onCaller ensures id in Writers(s.callbacks) {
      CallersCallbacksWrote(s, id);
    }
    forall id | id in s.callbacks && s.callbacks[id].inside ensures s.callbacks[id].onCaller {
      assert Consistent(s, id, s.callbacks[id]);
    }
    assert forall id :: id in Writers(s.callbacks) ==> id in s.callbacks;
    hide Writers, CallbacksConsistent;
  }

  /** The caller never sleeps through a firing: if one has been recorded, its signal is about to be sent. */
  lemma NoLostWakeup(es: seq<Event>)
    requires IsRun(START, es) && After(START, es).caller == Waiting
    ensures var s := After(START, es);
            if s.owner == Free then Writers(s.callbacks) == {}
            else s.fired ==> s.owner.By? && Enabled(s, Signal(s.owner.id))
                             && Step(s, Signal(s.owner.id)).caller == Woken(false)
  {
    InvAlways(es);
    hide IsRun, After, CallbacksConsistent, Writers;
  }

  // ----- Progress -----

  ghost function Before(callbacks: map<CallbackId, Callback>, stage: nat): set<CallbackId> {
    set id | id in callbacks && Stage(callbacks[id].pc) < stage
  }

  /** How many steps the callbacks still have to take. */
  ghost function Remaining(callbacks: map<CallbackId, Callback>): nat {
    |Before(callbacks, 1)| + |Before(callbacks, 2)| + |Before(callbacks, 3)| + |Before(callbacks, 4)|
    + |Before(callbacks, 5)|
  }

  function Distance(pc: CallerPc): nat {
    match pc
    case Ready => 8
    case InCall => 7
    case Returned => 6
    case Woken(false) => 5
    case Testing => 4
    case Waiting => 3
    case Woken(true) => 2
    case Done(_) => 0
  }

  ghost function Rank(s: State): nat {
    10 * Remaining(s.callbacks) + (if s.late then 0 else 10) + Distance(s.caller)
  }

  lemma OneStageOn(callbacks: map<CallbackId, Callback>, id: CallbackId, c: Callback)
    requires id in callbacks && Stage(c.pc) == Stage(callbacks[id].pc) + 1
    ensures Remaining(callbacks[id := c]) == Remaining(callbacks) - 1
  {
    var moved, stage := callbacks[id := c], Stage(c.pc);
    forall k: nat ensures Before(moved, k) == if k == stage then Before(callbacks, k) - {id} else Before(callbacks, k) {
    }
    assert id in Before(callbacks, stage);
    hide Before;
    assert stage == 1 || stage == 2 || stage == 3 || stage == 4 || stage == 5;
  }

  /** Every step but a new callback, a spurious wake-up or an idle tick brings the verdict nearer. */
  lemma EveryStepCounts(s: State, e: Event)
    requires Enabled(s, e) && !e.Fire? && !e.WakeSpuriously? && !(e.Tick? && s.late)
    ensures Rank(Step(s, e)) < Rank(s)
  {
    if !CallersOwn(e) {
      CallbackStepIs(s, e);
      OneStageOn(s.callbacks, e.id, Step(s, e).callbacks[e.id]);
      hide Remaining, Step, Enabled;
    } else {
      hide Remaining;
      match e {
        case Initiate => case Return => case LockToWait => case Test => case TimeOut => case Relock => case Tick =>
      }
    }
  }

  function NextOf(c: Callback, id: CallbackId): Event {
    match c.pc
    case Entered => Judge(id)
    case Judged => Lock(id)
    case Locked => Write(id)
    case Written => Signal(id)
    case _ => Unlock(id)
  }

  /** And there is always such a step to take: nothing deadlocks, re-entrant callbacks included. */
  lemma NeverStuck(es: seq<Event>)
    requires IsRun(START, es) && !After(START, es).caller.Done?
    ensures exists e :: Enabled(After(START, es), e) && Rank(Step(After(START, es), e)) < Rank(After(START, es))
  {
    var s := After(START, es);
    InvAlways(es);
    hide IsRun, After, Recorded;
    if s.nested.Some? {
      assert Consistent(s, s.nested.value, s.callbacks[s.nested.value]);
    }
    if s.owner.By? {
      assert Consistent(s, s.owner.id, s.callbacks[s.owner.id]);
    }
    var e := Next(s);
    NextEnabled(s);
    EveryStepCounts(s, e);
    hide Enabled, Step, Rank, Next;
  }

  /** The mutex holder's step, else the nested callback's, else the caller's. */
  function Next(s: State): Event
    requires s.owner.By? ==> s.owner.id in s.callbacks
    requires s.nested.Some? ==> s.nested.value in s.callbacks
  {
    if s.owner.By? then NextOf(s.callbacks[s.owner.id], s.owner.id)
    else if s.nested.Some? then NextOf(s.callbacks[s.nested.value], s.nested.value)
    else match s.caller
      case Ready => Initiate
      case InCall => Return
      case Returned => LockToWait
      case Testing => Test
      case Waiting => if s.late then TimeOut else Tick
      case Woken(_) => Relock
      case Done(_) => Tick
  }

  lemma NextEnabled(s: State)
    requires !s.caller.Done? && (s.owner == Caller <==> s.caller == Testing)
    requires s.owner.By? ==> s.owner.id in s.callbacks && Consistent(s, s.owner.id, s.callbacks[s.owner.id])
    requires s.nested.Some? ==>
               && s.nested.value in s.callbacks && Consistent(s, s.nested.value, s.callbacks[s.nested.value])
               && (s.caller == InCall || s.caller == Returned)
    ensures Enabled(s, Next(s)) && !Next(s).Fire? && !Next(s).WakeSpuriously? && !(Next(s).Tick? && s.late)
  {
  }

  // ----- The struct -----

  /** The fields both threads write. */
  class OpSync {
    var mu: Owner
    var fired: bool
    var fireCount: nat
    var code: int
    var onCallerThread: bool
    var reentrant: bool
    var inCall: bool

    predicate Matches(s: State)
      reads this
    {
      && mu == s.owner && fired == s.fired && fireCount == s.fireCount && code == s.code
      && onCallerThread == s.onCallerThread && reentrant == s.reentrant && inCall == s.inCall
    }

    constructor ()
      ensures Matches(START)
    {
      mu, fired, fireCount, code := Free, false, 0, 0;
      onCallerThread, reentrant, inCall := false, false, false;
    }

    /** `deferred_callback` with the mutex free: its statements are the machine's five callback steps. */
    method DeferredCallback(onCaller: bool, status: int, ghost s: State, ghost id: CallbackId)
      requires Matches(s) && !s.caller.Done? && mu == Free
      requires At(s, id, Entered) && s.callbacks[id].onCaller == onCaller && s.callbacks[id].code == status
      modifies this
      ensures IsRun(s, CallbackSteps(id)) && Matches(After(s, CallbackSteps(id)))
    {
      var sameThread := onCaller;
      var nestedInCall := sameThread && inCall;
      if sameThread {
        onCallerThread := true;
        if nestedInCall {
          reentrant := true;
        }
      }
      code := status;
      fired := true;
      fireCount := fireCount + 1;
      CallbackEffect(s, id);
      hide IsRun, After;
    }
  }

  /** What `deferred_callback` does from its first statement to its last. */
  function CallbackSteps(id: CallbackId): seq<Event> {
    [Judge(id), Lock(id), Write(id), Signal(id), Unlock(id)]
  }

  lemma CallbackEffect(s: State, id: CallbackId)
    requires !s.caller.Done? && At(s, id, Entered) && s.owner == Free
    ensures IsRun(s, CallbackSteps(id))
    ensures var (t, c) := (After(s, CallbackSteps(id)), s.callbacks[id]);
            && t.owner == Free && t.fired && t.fireCount == s.fireCount + 1 && t.code == c.code && t.inCall == s.inCall
            && t.onCallerThread == (s.onCallerThread || c.onCaller)
            && t.reentrant == (s.reentrant || (c.onCaller && s.inCall))
  {
    hide Step, Enabled, IsRun, After;
    JudgeIs(s, id);
    var s1 := Step(s, Judge(id));
    LockIs(s1, id);
    var s2 := Step(s1, Lock(id));
    WriteIs(s2, id);
    var s3 := Step(s2, Write(id));
    SignalIs(s3, id);
    var s4 := Step(s3, Signal(id));
    UnlockIs(s4, id);
    FiveSteps(s, s1, s2, s3, s4, id);
  }

  lemma {:induction false} FiveSteps(s: State, s1: State, s2: State, s3: State, s4: State, id: CallbackId)
    requires Enabled(s, Judge(id)) && s1 == Step(s, Judge(id))
    requires Enabled(s1, Lock(id)) && s2 == Step(s1, Lock(id))
    requires Enabled(s2, Write(id)) && s3 == Step(s2, Write(id))
    requires Enabled(s3, Signal(id)) && s4 == Step(s3, Signal(id))
    requires Enabled(s4, Unlock(id))
    ensures IsRun(s, CallbackSteps(id)) && After(s, CallbackSteps(id)) == Step(s4, Unlock(id))
  {
    hide Step, Enabled;
    var s5 := Step(s4, Unlock(id));
    assert IsRun(s5, []) && After(s5, []) == s5;
    hide IsRun, After;
    Cons(s4, Unlock(id), []);
    Cons(s3, Signal(id), [Unlock(id)] + []);
    Cons(s2, Write(id), [Signal(id)] + ([Unlock(id)] + []));
    Cons(s1, Lock(id), [Write(id)] + ([Signal(id)] + ([Unlock(id)] + [])));
    Cons(s, Judge(id), [Lock(id)] + ([Write(id)] + ([Signal(id)] + ([Unlock(id)] + []))));
    assert [Judge(id)] + ([Lock(id)] + ([Write(id)] + ([Signal(id)] + ([Unlock(id)] + [])))) == CallbackSteps(id);
  }

  lemma Cons(s: State, e: Event, es: seq<Event>)
    requires Enabled(s, e) && IsRun(Step(s, e), es)
    ensures IsRun(s, [e] + es) && After(s, [e] + es) == After(Step(s, e), es)
  {
    hide Enabled, Step;
    assert ([e] + es)[1..] == es;
  }
}
