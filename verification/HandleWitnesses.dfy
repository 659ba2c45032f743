/** Histories of an SDK handle in which engines are left open. */
module HandleWitnesses {
  import opened Wrappers
  import opened HandleLifecycle
  import opened HandleTheorems
  import opened HandleEngines

  /** An operation that builds new engines `c`, up to the point where it runs. */
  function Warm(op: OpId, h: HandleId, c: ConnId): History {
    [Call(op, h)] + ([Guard(op), ReadVersion(op), TryFast(op)] + [TrySlow(op), Build(op, c), Store(op)])
  }

  function Warmed(s: State, op: OpId, c: ConnId): State {
    s.(ops := s.ops[op := Op(Running(c), false, s.version)], bundle := Some((s.version, c)), slot := Some(c),
       conns := s.conns[c := Conn(s.version, false)])
  }

  lemma WarmRuns(s: State, op: OpId, h: HandleId, c: ConnId)
    requires Usable(s, h) && op !in s.ops && s.lock == Free && !s.closed && c !in s.conns
    requires !Hit(s, s.version) && !SlotCurrent(s)
    ensures IsRun(s, Warm(op, h, c)) && After(s, Warm(op, h, c)) == Warmed(s, op, c)
  {
    var s1 := Step(s, Call(op, h));
    assert s1 == s.(ops := s.ops[op := Op(Called, false, s.version)]);
    hide Step, Enabled;
    ServicesRuns(s1, op, c, Succeeds);
    assert Hit(s1, s1.version) == Hit(s, s.version) && SlotCurrent(s1) == SlotCurrent(s);
    assert Served(s1, op, c, Succeeds) == Warmed(s, op, c);
    assert ServicesPath(s1, op, c, Succeeds) ==
           [Guard(op), ReadVersion(op), TryFast(op)] + [TrySlow(op), Build(op, c), Store(op)];
    hide IsRun, After, Served, Warmed, ServicesPath;
    CallGoesOn(s, op, h, c);
  }

  lemma CallGoesOn(s: State, op: OpId, h: HandleId, c: ConnId)
    requires Usable(s, h) && op !in s.ops
    requires IsRun(Step(s, Call(op, h)),
                   [Guard(op), ReadVersion(op), TryFast(op)] + [TrySlow(op), Build(op, c), Store(op)])
    ensures IsRun(s, Warm(op, h, c))
    ensures After(s, Warm(op, h, c)) ==
            After(Step(s, Call(op, h)),
                  [Guard(op), ReadVersion(op), TryFast(op)] + [TrySlow(op), Build(op, c), Store(op)])
  {
    assert Enabled(s, Call(op, h));
    hide Step, Enabled, IsRun, After;
    Cons(s, Call(op, h), [Guard(op), ReadVersion(op), TryFast(op)] + [TrySlow(op), Build(op, c), Store(op)]);
  }

  lemma EndIs(s: State, op: OpId)
    requires op in s.ops && s.ops[op].pc.Running?
    ensures IsRun(s, [End(op)]) && After(s, [End(op)]) == OpTo(s, op, Ended)
  {
    assert Enabled(s, End(op)) && Step(s, End(op)) == OpTo(s, op, Ended);
    hide Step, Enabled;
    OneStep(s, End(op));
    hide IsRun, After;
  }

  lemma ConfigureIs(s: State, h: HandleId)
    requires Usable(s, h)
    ensures IsRun(s, [Configure(h)]) && After(s, [Configure(h)]) == s.(version := s.version + 1)
  {
    assert Enabled(s, Configure(h)) && Step(s, Configure(h)) == s.(version := s.version + 1);
    hide Step, Enabled;
    OneStep(s, Configure(h));
    hide IsRun, After;
  }

  lemma DropRuns(s: State, h: HandleId, t: TeardownId)
    requires Usable(s, h) && t !in s.teardowns
    ensures IsRun(s, [Drop(h, t)])
    ensures After(s, [Drop(h, t)]) ==
            if Releases(s, h) then
              s.(teardowns := s.teardowns[t := Teardown(false, Some(h), Begun)], dying := s.dying + {h})
            else s.(handles := s.handles - {h})
  {
    hide Releases;
    assert Enabled(s, Drop(h, t));
    OneStep(s, Drop(h, t));
    hide IsRun, After, Enabled;
  }

  lemma CloneIs(s: State, from: HandleId, to: HandleId)
    requires Usable(s, from) && to !in s.handles && s.handles[from] == PyMain
    ensures IsRun(s, [Clone(from, to, PySurface)])
    ensures After(s, [Clone(from, to, PySurface)]) == s.(handles := s.handles[to := PySurface])
  {
    var e := Clone(from, to, PySurface);
    assert Enabled(s, e) && Step(s, e) == s.(handles := s.handles[to := PySurface]);
    hide Step, Enabled;
    OneStep(s, e);
    hide IsRun, After;
  }

  lemma CloseRuns(s: State, h: HandleId, t: TeardownId)
    requires Usable(s, h) && s.handles[h] != PySurface && t !in s.teardowns && s.lock == Free
    ensures IsRun(s, CloseSteps(h, t))
    ensures After(s, CloseSteps(h, t)) ==
            s.(closed := true, bundle := None, slot := None, conns := SlotClosed(s, true),
               teardowns := s.teardowns[t := Teardown(true, None, Finished)])
  {
    var s1 := s.(teardowns := s.teardowns[t := Teardown(true, None, Begun)]);
    assert Enabled(s, Close(h, t)) && Step(s, Close(h, t)) == s1;
    hide Step, Enabled;
    TeardownRuns(s1, t);
    SameSlotClosed(s, s1, true);
    assert TornDown(s1, t) == s.(closed := true, bundle := None, slot := None, conns := SlotClosed(s, true),
                                 teardowns := s.teardowns[t := Teardown(true, None, Finished)]);
    hide IsRun, After, TornDown, SlotClosed;
    Cons(s, Close(h, t), TeardownSteps(t));
  }

  // ----- Superseded -----

  /** Warm, change the configuration, warm again, close: nothing in flight at the close. */
  function Reconfigured(): History {
    Warm(0, 0, 0) + ([End(0)] + ([Configure(0)] + (Warm(1, 0, 1) + ([End(1)] + CloseSteps(0, 0)))))
  }

  /** The close returns with the first engines open, and so they stay. */
  lemma ReconfiguringStrandsEngines()
    ensures IsRun(Start(0, CHandle), Reconfigured())
    ensures var end := After(Start(0, CHandle), Reconfigured());
            && end.closed && CacheEmpty(end) && NoneSlippedPast(end) && Quiescent(end)
            && Stray(end, 0) && 1 in end.conns && end.conns[1].closed
  {
    hide IsRun, After;
    var s0 := Start(0, CHandle);
    WarmRuns(s0, 0, 0, 0);
    var s1 := Warmed(s0, 0, 0);
    EndIs(s1, 0);
    var s2 := OpTo(s1, 0, Ended);
    ConfigureIs(s2, 0);
    var s3 := s2.(version := 1);
    WarmRuns(s3, 1, 0, 1);
    var s4 := Warmed(s3, 1, 1);
    EndIs(s4, 1);
    var s5 := OpTo(s4, 1, Ended);
    CloseRuns(s5, 0, 0);
    assert s5.conns == map[0 := Conn(0, false), 1 := Conn(1, false)] && s5.slot == Some(1);
    assert s5.ops == map[0 := Op(Ended, false, 0), 1 := Op(Ended, false, 1)] && s5.teardowns == map[];
    hide Warmed, OpTo, InUse;
    Concat(s4, [End(1)], CloseSteps(0, 0));
    Concat(s3, Warm(1, 0, 1), [End(1)] + CloseSteps(0, 0));
    Concat(s2, [Configure(0)], Warm(1, 0, 1) + ([End(1)] + CloseSteps(0, 0)));
    Concat(s1, [End(0)], [Configure(0)] + (Warm(1, 0, 1) + ([End(1)] + CloseSteps(0, 0))));
    Concat(s0, Warm(0, 0, 0), [End(0)] + ([Configure(0)] + (Warm(1, 0, 1) + ([End(1)] + CloseSteps(0, 0)))));
  }

  // ----- Spared -----

  /** A `Cognee` is dropped while an operation started on a surface of it is running. */
  function DroppedInUse(): History {
    [Clone(0, 1, PySurface)] + (Warm(0, 1, 0) + ([Drop(0, 0)] + (TeardownSteps(0) + [End(0)])))
  }

  /** The release spares the operation's engines; when it has ended nothing closes them. */
  lemma ReleaseInUseStrandsEngines()
    ensures IsRun(Start(0, PyMain), DroppedInUse())
    ensures var end := After(Start(0, PyMain), DroppedInUse()); Quiescent(end) && Stray(end, 0)
  {
    hide IsRun, After;
    var s0 := Start(0, PyMain);
    CloneIs(s0, 0, 1);
    var s1 := s0.(handles := map[0 := PyMain, 1 := PySurface]);
    WarmRuns(s1, 0, 1, 0);
    var s2 := Warmed(s1, 0, 0);
    DropRuns(s2, 0, 0);
    var s3 := s2.(teardowns := map[0 := Teardown(false, Some(0), Begun)], dying := {0});
    assert s2.dying + {0} == {0} && s2.teardowns[0 := Teardown(false, Some(0), Begun)] == s3.teardowns;
    assert After(s2, [Drop(0, 0)]) == s3;
    TeardownRuns(s3, 0);
    assert s3.ops == map[0 := Op(Running(0), false, 0)] && InUse(s3, 0);
    var s4 := TornDown(s3, 0);
    assert s4.conns == map[0 := Conn(0, false)] && s4.teardowns == map[0 := Teardown(false, Some(0), Finished)];
    EndIs(s4, 0);
    assert OpTo(s4, 0, Ended).ops == map[0 := Op(Ended, false, 0)];
    hide Warmed, InUse;
    Concat(s3, TeardownSteps(0), [End(0)]);
    Concat(s2, [Drop(0, 0)], TeardownSteps(0) + [End(0)]);
    Concat(s1, Warm(0, 1, 0), [Drop(0, 0)] + (TeardownSteps(0) + [End(0)]));
    Concat(s0, [Clone(0, 1, PySurface)], Warm(0, 1, 0) + ([Drop(0, 0)] + (TeardownSteps(0) + [End(0)])));
  }

  // ----- The last handle -----

  /** The last C handle is destroyed while an operation is in flight. */
  function DestroyedInFlight(): History {
    Warm(0, 0, 0) + ([Drop(0, 0)] + [End(0)])
  }

  lemma InFlightDestroyClosesNothing()
    ensures IsRun(Start(0, CHandle), DestroyedInFlight())
    ensures var end := After(Start(0, CHandle), DestroyedInFlight());
            end.handles == map[] && Quiescent(end) && 0 in end.conns && !end.conns[0].closed
  {
    hide IsRun, After;
    var s0 := Start(0, CHandle);
    WarmRuns(s0, 0, 0, 0);
    var s1 := Warmed(s0, 0, 0);
    assert Active(s1.ops[0]);
    DropRuns(s1, 0, 0);
    var s2 := s1.(handles := map[]);
    EndIs(s2, 0);
    assert OpTo(s2, 0, Ended).ops == map[0 := Op(Ended, false, 0)];
    hide Warmed;
    Concat(s1, [Drop(0, 0)], [End(0)]);
    Concat(s0, Warm(0, 0, 0), [Drop(0, 0)] + [End(0)]);
  }

  /** A surface outlives its `Cognee`, builds, and is dropped. */
  function SurfaceOutlives(): History {
    [Clone(0, 1, PySurface)] + ([Drop(0, 0)] + (Warm(0, 1, 0) + ([End(0)] + [Drop(1, 1)])))
  }

  lemma OutlivingSurfaceClosesNothing()
    ensures IsRun(Start(0, PyMain), SurfaceOutlives())
    ensures var end := After(Start(0, PyMain), SurfaceOutlives());
            end.handles == map[] && Quiescent(end) && 0 in end.conns && !end.conns[0].closed
  {
    hide IsRun, After;
    var s0 := Start(0, PyMain);
    CloneIs(s0, 0, 1);
    var s1 := s0.(handles := map[0 := PyMain, 1 := PySurface]);
    DropRuns(s1, 0, 0);
    var s2 := s1.(handles := map[1 := PySurface]);
    assert s1.handles - {0} == s2.handles;
    assert After(s1, [Drop(0, 0)]) == s2;
    WarmRuns(s2, 0, 1, 0);
    var s3 := Warmed(s2, 0, 0);
    EndIs(s3, 0);
    var s4 := OpTo(s3, 0, Ended);
    assert s4.ops == map[0 := Op(Ended, false, 0)];
    DropRuns(s4, 1, 1);
    assert s4.handles - {1} == map[];
    assert After(s4, [Drop(1, 1)]) == s4.(handles := map[]);
    hide Warmed;
    Concat(s3, [End(0)], [Drop(1, 1)]);
    Concat(s2, Warm(0, 1, 0), [End(0)] + [Drop(1, 1)]);
    Concat(s1, [Drop(0, 0)], Warm(0, 1, 0) + ([End(0)] + [Drop(1, 1)]));
    Concat(s0, [Clone(0, 1, PySurface)], [Drop(0, 0)] + (Warm(0, 1, 0) + ([End(0)] + [Drop(1, 1)])));
  }
}
