/** What an SDK handle's state is, told by the events alone; and what a dropped handle leaves alone. */
module HandleRecords {
  import opened Wrappers
  import opened HandleLifecycle
  import opened HandleTheorems
  import opened HandleEngines

  // ----- Histories by their last step -----

  lemma {:induction false} LastStep(s: State, es: History)
    requires IsRun(s, es) && es != []
    ensures var front, last := es[..|es| - 1], es[|es| - 1];
            && IsRun(s, front) && Enabled(After(s, front), last) && After(s, es) == Step(After(s, front), last)
    decreases |es|
  {
    hide Step, Enabled;
    if |es| == 1 {
      assert es[..0] == [] && es[1..] == [];
    } else {
      LastStep(Step(s, es[0]), es[1..]);
      assert es[1..][..|es| - 2] == es[..|es| - 1][1..];
    }
  }

  // ----- Dropped handles -----

  /** Somebody else is left to use what a C handle refers to: another handle, or an operation in flight. */
  predicate OthersRemain(s: State, h: HandleId) {
    (exists x :: x in s.handles && x != h) || (exists op :: op in s.ops && Active(s.ops[op]))
  }

  predicate Cold(s: State) {
    s.bundle == None && s.slot == None && s.lock == Free
  }

  /**
   Dropping a handle changes nothing but that it is gone: a C handle while others remain, a Python surface
   always, and a Python `Cognee` that has built nothing.
   */
  lemma DropLeavesAlone(s: State, h: HandleId, t: TeardownId)
    requires Enabled(s, Drop(h, t))
    requires match s.handles[h]
             case CHandle => OthersRemain(s, h)
             case PyMain => Cold(s)
             case PySurface => true
    ensures Step(s, Drop(h, t)) == s.(handles := s.handles - {h})
  {
    assert h in s.handles.Keys;
    assert forall x :: x in s.handles <==> x in s.handles.Keys;
  }

  /**
   Otherwise it begins a release, and the handle goes when that is done: the last C handle with nothing in
   flight, and a `Cognee` that has built something or is building it.
   */
  lemma DropBeginsRelease(s: State, h: HandleId, t: TeardownId)
    requires Enabled(s, Drop(h, t))
    requires match s.handles[h]
             case CHandle => !OthersRemain(s, h) && forall x :: x in s.teardowns ==> s.teardowns[x].pc == Finished
             case PyMain => !Cold(s)
             case PySurface => false
    ensures Step(s, Drop(h, t)) ==
            s.(teardowns := s.teardowns[t := Teardown(false, Some(h), Begun)], dying := s.dying + {h})
  {
    assert h in s.handles.Keys;
    assert forall x :: x in s.handles <==> x in s.handles.Keys;
  }

  /** As long as some C handle is usable on an open state: nothing closed, nothing evicted, no release begun. */
  predicate CShared(s: State) {
    && (forall h :: h in s.handles ==> s.handles[h] == CHandle)
    && (s.dying != {} ==> s.handles.Keys <= s.dying)
    && (s.dying != {} || s.handles == map[] || s.closed || Undisturbed(s))
  }

  predicate Undisturbed(s: State) {
    && (forall t :: t in s.teardowns ==> s.teardowns[t].mark && s.teardowns[t].pc == Begun)
    && (forall c :: c in s.conns ==> !s.conns[c].closed)
    && (s.conns != map[] ==> s.slot.Some?)
  }

  lemma CSharedUnderOp(s: State, e: Event)
    requires CacheSound(s) && CShared(s) && Enabled(s, e) && OfOp(e)
    ensures CShared(Step(s, e))
  {
    match e {
      case Guard(_) => case ReadVersion(_) => case TryFast(_) => case TrySlow(_) => case Build(_, _) =>
      case BuildFails(_) => case Store(_) => case End(_) =>
    }
  }

  lemma CSharedUnderTeardown(s: State, e: Event)
    requires CShared(s) && Enabled(s, e) && OfTeardown(e)
    ensures CShared(Step(s, e))
  {
    hide InUse;
    match e {
      case Mark(_) => case TakeBundle(_) => case CloseSlot(_) => case Unlock(_) =>
    }
  }

  lemma CSharedStep(s: State, e: Event)
    requires Inv(s) && CShared(s) && Enabled(s, e)
    ensures CShared(Step(s, e))
  {
    if OfOp(e) {
      Cached(s);
      CSharedUnderOp(s, e);
      hide Step, CShared, Inv;
    } else if OfTeardown(e) {
      CSharedUnderTeardown(s, e);
      hide Step, CShared, Inv;
    } else {
      hide Inv, InUse;
      match e {
        case Clone(_, _, _) => case Configure(_) => case Close(_, _) => case Drop(_, _) => case Call(_, _) =>
      }
    }
  }

  lemma {:induction false} CSharedAfter(s: State, es: History)
    requires Inv(s) && CShared(s) && IsRun(s, es)
    ensures CShared(After(s, es))
    decreases |es|
  {
    if es != [] {
      CSharedStep(s, es[0]);
      InvStep(s, es[0]);
      hide Inv, CShared, Step, Enabled;
      CSharedAfter(Step(s, es[0]), es[1..]);
    }
  }

  /**
   In every history of a C handle: until a close has marked the state or its last handle is destroyed,
   no engines have been closed, and what was built is in the cache or was replaced there.
   */
  lemma OpenUntilClosedOrDestroyed(h: HandleId, es: History, x: HandleId)
    requires IsRun(Start(h, CHandle), es)
    requires !After(Start(h, CHandle), es).closed && Usable(After(Start(h, CHandle), es), x)
    ensures var s := After(Start(h, CHandle), es);
            (forall c :: c in s.conns ==> !s.conns[c].closed) && (s.conns != map[] ==> s.slot.Some?)
  {
    CSharedAfter(Start(h, CHandle), es);
    hide IsRun, After;
  }

  /**
   Through a usable handle anything can be begun at any time, whatever is in flight, on a closed state too:
   only a Python surface cannot be closed.
   */
  lemma CallsAreNeverHeldUp(s: State, h: HandleId, to: HandleId, op: OpId, t: TeardownId)
    requires Usable(s, h)
    ensures Enabled(s, Configure(h)) && (op !in s.ops ==> Enabled(s, Call(op, h)))
    ensures t !in s.teardowns ==> Enabled(s, Drop(h, t)) && (Enabled(s, Close(h, t)) <==> s.handles[h] != PySurface)
    ensures to !in s.handles ==>
              Enabled(s, Clone(h, to, if s.handles[h] == CHandle then CHandle else PySurface))
  {
  }

  // ----- Versions and flags -----

  function Configures(es: History): nat {
    if es == [] then 0 else Configures(es[..|es| - 1]) + if es[|es| - 1].Configure? then 1 else 0
  }

  predicate CallsAt(es: History, i: nat, op: OpId) {
    i < |es| && es[i].Call? && es[i].op == op
  }

  predicate BuildsAt(es: History, i: nat, c: ConnId) {
    i < |es| && es[i].Build? && es[i].conn == c
  }

  /** Some close has got as far as setting the flag. */
  predicate Closed(es: History) {
    exists i, j :: 0 <= i < j < |es| && es[i].Close? && es[j] == Mark(es[i].t)
  }

  predicate Closes(es: History, t: TeardownId) {
    exists i :: 0 <= i < |es| && es[i].Close? && es[i].t == t
  }

  ghost predicate OpsTold(es: History, s: State) {
    forall i: nat, op :: CallsAt(es, i, op) ==> op in s.ops && s.ops[op].bornVersion == Configures(es[..i])
  }

  ghost predicate ConnsTold(es: History, s: State) {
    forall c :: c in s.conns ==>
      exists i: nat :: BuildsAt(es, i, c) && s.conns[c].version == Configures(es[..i])
  }

  ghost predicate FlagTold(es: History, s: State) {
    && (s.closed <==> Closed(es))
    && (forall t :: t in s.teardowns ==> (s.teardowns[t].mark <==> Closes(es, t)))
    && (forall t :: Closes(es, t) ==> t in s.teardowns)
  }

  lemma OpsFrame(s: State, e: Event)
    requires Enabled(s, e)
    ensures forall op :: op in s.ops ==>
              op in Step(s, e).ops && Step(s, e).ops[op].bornVersion == s.ops[op].bornVersion
    ensures e.Call? ==> e.op !in s.ops && e.op in Step(s, e).ops && Step(s, e).ops[e.op].bornVersion == s.version
    ensures Step(s, e).version == s.version + if e.Configure? then 1 else 0
  {
    hide Releases, InUse, Hit, SlotCurrent;
    match e {
      case Clone(_, _, _) => case Configure(_) => case Close(_, _) => case Drop(_, _) => case Call(_, _) =>
      case Guard(_) => case ReadVersion(_) => case TryFast(_) => case TrySlow(_) => case Build(_, _) =>
      case BuildFails(_) => case Store(_) => case End(_) => case Mark(_) => case TakeBundle(_) =>
      case CloseSlot(_) => case Unlock(_) =>
    }
  }

  lemma ConnsFrame(s: State, e: Event)
    requires Enabled(s, e)
    ensures forall c :: c in Step(s, e).conns ==>
              if c in s.conns then Step(s, e).conns[c].version == s.conns[c].version
              else e.Build? && e.conn == c && Step(s, e).conns[c].version == s.version
  {
    hide Releases, InUse;
    match e {
      case Clone(_, _, _) => case Configure(_) => case Close(_, _) => case Drop(_, _) => case Call(_, _) =>
      case Guard(_) => case ReadVersion(_) => case TryFast(_) => case TrySlow(_) => case Build(_, _) =>
      case BuildFails(_) => case Store(_) => case End(_) => case Mark(_) => case TakeBundle(_) =>
      case CloseSlot(_) => case Unlock(_) =>
    }
  }

  lemma FlagFrame(s: State, e: Event)
    requires Enabled(s, e)
    ensures Step(s, e).closed <==> s.closed || (e.Mark? && s.teardowns[e.t].mark)
    ensures forall t :: t in Step(s, e).teardowns ==>
              if t in s.teardowns then Step(s, e).teardowns[t].mark == s.teardowns[t].mark && !(e.Close? && e.t == t)
              else (e.Close? || e.Drop?) && e.t == t && (Step(s, e).teardowns[t].mark <==> e.Close?)
    ensures forall t :: t in s.teardowns ==> t in Step(s, e).teardowns
    ensures e.Close? ==> e.t in Step(s, e).teardowns
  {
    hide Releases, InUse;
    match e {
      case Clone(_, _, _) => case Configure(_) => case Close(_, _) => case Drop(_, _) => case Call(_, _) =>
      case Guard(_) => case ReadVersion(_) => case TryFast(_) => case TrySlow(_) => case Build(_, _) =>
      case BuildFails(_) => case Store(_) => case End(_) => case Mark(_) => case TakeBundle(_) =>
      case CloseSlot(_) => case Unlock(_) =>
    }
  }

  lemma OpsOn(front: History, s: State, e: Event)
    requires OpsTold(front, s) && s.version == Configures(front) && Enabled(s, e)
    ensures OpsTold(front + [e], Step(s, e)) && Step(s, e).version == Configures(front + [e])
  {
    var es := front + [e];
    OpsFrame(s, e);
    hide Step, Enabled;
    assert es[..|front|] == front && es[|front|] == e;
    forall i: nat, op | CallsAt(es, i, op)
      ensures op in Step(s, e).ops && Step(s, e).ops[op].bornVersion == Configures(es[..i])
    {
      if i < |front| {
        assert CallsAt(front, i, op) && es[..i] == front[..i];
      }
    }
  }

  lemma ConnsOn(front: History, s: State, e: Event)
    requires ConnsTold(front, s) && s.version == Configures(front) && Enabled(s, e)
    ensures ConnsTold(front + [e], Step(s, e))
  {
    var es := front + [e];
    ConnsFrame(s, e);
    hide Step, Enabled, Configures;
    assert es[..|front|] == front && es[|front|] == e;
    forall c | c in Step(s, e).conns
      ensures exists i: nat :: BuildsAt(es, i, c) && Step(s, e).conns[c].version == Configures(es[..i])
    {
      if c in s.conns {
        var i: nat :| BuildsAt(front, i, c) && s.conns[c].version == Configures(front[..i]);
        assert BuildsAt(es, i, c) && es[..i] == front[..i];
      } else {
        assert BuildsAt(es, |front|, c);
      }
    }
  }

  lemma FlagOn(front: History, s: State, e: Event)
    requires FlagTold(front, s) && Enabled(s, e)
    ensures FlagTold(front + [e], Step(s, e))
  {
    var es := front + [e];
    FlagFrame(s, e);
    assert e.Mark? ==> e.t in s.teardowns;
    hide Step, Enabled;
    assert es[|front|] == e && forall i :: 0 <= i < |front| ==> es[i] == front[i];
    ClosesOn(front, e);
    ClosedOn(front, e);
    hide Closes, Closed;
  }

  lemma ClosesOn(front: History, e: Event)
    ensures forall t :: Closes(front + [e], t) <==> Closes(front, t) || (e.Close? && e.t == t)
  {
    var es := front + [e];
    assert es[|front|] == e && forall i :: 0 <= i < |front| ==> es[i] == front[i];
  }

  lemma ClosedOn(front: History, e: Event)
    ensures Closed(front + [e]) <==> Closed(front) || (e.Mark? && Closes(front, e.t))
  {
    var es := front + [e];
    assert es[|front|] == e && forall i :: 0 <= i < |front| ==> es[i] == front[i];
  }

  lemma {:induction false} AllTold(h: HandleId, kind: Kind, es: History)
    requires IsRun(Start(h, kind), es)
    ensures var s := After(Start(h, kind), es);
            OpsTold(es, s) && ConnsTold(es, s) && FlagTold(es, s) && s.version == Configures(es)
    decreases |es|
  {
    if es != [] {
      var front, e := es[..|es| - 1], es[|es| - 1];
      LastStep(Start(h, kind), es);
      assert front + [e] == es;
      var s := After(Start(h, kind), front);
      hide IsRun, After, Step, Enabled, OpsTold, ConnsTold, FlagTold, Configures;
      AllTold(h, kind, front);
      OpsOn(front, s, e);
      ConnsOn(front, s, e);
      FlagOn(front, s, e);
    }
  }

  /** In every history a handle is closed exactly when a close has got as far as setting the flag. */
  lemma ClosedExactlyByClose(h: HandleId, kind: Kind, es: History)
    requires IsRun(Start(h, kind), es)
    ensures After(Start(h, kind), es).closed <==> Closed(es)
  {
    AllTold(h, kind, es);
    hide IsRun, After, OpsTold, ConnsTold;
  }

  /**
   In every history, what an operation runs on was built under the configuration of its moment, and after
   every configuration change that came before the operation was called.
   */
  lemma ServicesSeeConfiguration(h: HandleId, kind: Kind, es: History, i: nat, op: OpId)
    requires IsRun(Start(h, kind), es) && CallsAt(es, i, op)
    ensures var s := After(Start(h, kind), es);
            && op in s.ops
            && (s.ops[op].pc.Running? ==>
                  exists j: nat :: BuildsAt(es, j, s.ops[op].pc.conn) && Configures(es[..i]) <= Configures(es[..j]))
  {
    var s := After(Start(h, kind), es);
    AllTold(h, kind, es);
    InvAlways(h, kind, es);
    hide IsRun, After, FlagTold, Configures;
    assert op in s.ops && s.ops[op].bornVersion == Configures(es[..i]);
    SoundOp(s, op);
    hide Inv, OpsTold;
  }

  // ----- Built once -----

  function Stores(es: History): nat {
    if es == [] then 0 else Stores(es[..|es| - 1]) + if es[|es| - 1].Store? then 1 else 0
  }

  /** Nothing came up that calls for building again. */
  predicate Steady(es: History) {
    forall i :: 0 <= i < |es| ==> !es[i].Configure? && !es[i].TakeBundle?
  }

  predicate Only(pc: OpPc) {
    match pc
    case Versioned(ver) => ver == 0
    case Missed(ver) => ver == 0
    case Building(ver) => ver == 0
    case Built(ver, _) => ver == 0
    case _ => true
  }

  ghost predicate OneBundle(s: State, stores: nat) {
    && s.version == 0 && (forall op :: op in s.ops ==> Only(s.ops[op].pc))
    && (if s.bundle.Some? then s.bundle.value.0 == 0 && stores == 1 && !s.lock.ByOp? else stores == 0)
  }

  lemma OneBundleStep(s: State, e: Event, stores: nat)
    requires OneBundle(s, stores) && Enabled(s, e) && !e.Configure? && !e.TakeBundle?
    requires OfOp(e) ==> OpSound(s, e.op, s.ops[e.op])
    ensures OneBundle(Step(s, e), stores + if e.Store? then 1 else 0)
  {
    hide Releases, InUse, SlotCurrent;
    match e {
      case Clone(_, _, _) => case Close(_, _) => case Drop(_, _) => case Call(_, _) =>
      case Guard(_) => case ReadVersion(_) => case TryFast(_) => case TrySlow(_) => case Build(_, _) =>
      case BuildFails(_) => case Store(_) => case End(_) => case Mark(_) => case CloseSlot(_) => case Unlock(_) =>
    }
  }

  /** However many operations race to be first, one builds the services and the others are given them. */
  lemma {:induction false} BuiltOnce(h: HandleId, kind: Kind, es: History)
    requires IsRun(Start(h, kind), es) && Steady(es)
    ensures Stores(es) <= 1 && OneBundle(After(Start(h, kind), es), Stores(es))
    decreases |es|
  {
    if es != [] {
      var front, e := es[..|es| - 1], es[|es| - 1];
      LastStep(Start(h, kind), es);
      InvAlways(h, kind, front);
      var s := After(Start(h, kind), front);
      hide IsRun, After, OneBundle;
      if OfOp(e) {
        SoundOp(s, e.op);
      }
      hide Step, Inv;
      BuiltOnce(h, kind, front);
      OneBundleStep(s, e, Stores(front));
      hide Enabled;
    }
    hide OneBundle;
  }
}
