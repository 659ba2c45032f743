/**
 The life of an SDK handle: operations that build services on demand, closes, releases, configuration
 changes, clones and drops, interleaved step by step (`crates/bindings-common/src/handle.rs` behind
 `python/src/sdk.rs` and `capi/include/cognee_sdk.h`).
 */
module HandleLifecycle {
  import opened Wrappers

  // ----- State -----

  type HandleId = nat
  type OpId = nat
  type TeardownId = nat
  type ConnId = nat

  /** A C handle, a Python `Cognee`, or a Python surface such as `cognee.datasets`, sharing one state. */
  datatype Kind = CHandle | PyMain | PySurface

  /** A set of open engines, and the configuration version they were built for. */
  datatype Conn = Conn(version: nat, closed: bool)

  /** Where an operation is in `services()`, and after. */
  datatype OpPc =
    | Called
    | Guarded // found the handle not closed
    | Versioned(ver: nat)
    | Missed(ver: nat)
    | Building(ver: nat)
    | Built(ver: nat, conn: ConnId)
    | Running(conn: ConnId)
    | Refused
    | Failed
    | Ended

  datatype Op = Op(pc: OpPc, bornClosed: bool, bornVersion: nat)

  datatype TeardownPc = Begun | Marked | Locked | Emptied | Finished

  /** `close` marks the handle closed, `release` does not; a drop goes with a release. */
  datatype Teardown = Teardown(mark: bool, dropping: Option<HandleId>, pc: TeardownPc)

  datatype Lock = Free | ByOp(op: OpId) | ByTeardown(t: TeardownId)

  datatype State = State(
    handles: map<HandleId, Kind>,
    dying: set<HandleId>,
    closed: bool,
    version: nat,
    bundle: Option<(nat, ConnId)>, // the services cache, keyed by version
    slot: Option<ConnId>,          // the component manager's cache
    conns: map<ConnId, Conn>,
    lock: Lock,
    ops: map<OpId, Op>,
    teardowns: map<TeardownId, Teardown>)

  function Start(h: HandleId, kind: Kind): State {
    State(map[h := kind], {}, false, 0, None, None, map[], Free, map[], map[])
  }

  datatype Event =
    | Clone(from: HandleId, to: HandleId, kind: Kind)
    | Configure(h: HandleId)
    | Close(h: HandleId, t: TeardownId)
    | Drop(h: HandleId, t: TeardownId)
    | Call(op: OpId, h: HandleId)
    | Guard(op: OpId)
    | ReadVersion(op: OpId)
    | TryFast(op: OpId)
    | TrySlow(op: OpId)
    | Build(op: OpId, conn: ConnId)
    | BuildFails(op: OpId)
    | Store(op: OpId)
    | End(op: OpId)
    | Mark(t: TeardownId)
    | TakeBundle(t: TeardownId)
    | CloseSlot(t: TeardownId)
    | Unlock(t: TeardownId)

  // ----- Steps -----

  predicate Usable(s: State, h: HandleId) {
    h in s.handles && h !in s.dying
  }

  predicate OpAt(s: State, op: OpId, pc: OpPc) {
    op in s.ops && s.ops[op].pc == pc
  }

  predicate TeardownAt(s: State, t: TeardownId, pc: TeardownPc) {
    t in s.teardowns && s.teardowns[t].pc == pc
  }

  /** It still holds a reference to the shared state. */
  predicate Active(op: Op) {
    !op.pc.Refused? && !op.pc.Failed? && !op.pc.Ended?
  }

  predicate Quiescent(s: State) {
    && (forall op :: op in s.ops ==> !Active(s.ops[op]))
    && (forall t :: t in s.teardowns ==> s.teardowns[t].pc == Finished)
  }

  /** Whether dropping a handle gives the resources back: the last C handle, or the Python object. */
  predicate Releases(s: State, h: HandleId)
    requires h in s.handles
  {
    match s.handles[h]
    case CHandle => s.handles.Keys == {h} && Quiescent(s)
    case PyMain => s.bundle.Some? || s.slot.Some? || s.lock != Free
    case PySurface => false
  }

  predicate Enabled(s: State, e: Event) {
    match e
    case Clone(from, to, kind) =>
      Usable(s, from) && to !in s.handles && kind == if s.handles[from] == CHandle then CHandle else PySurface
    case Configure(h) => Usable(s, h)
    case Close(h, t) => Usable(s, h) && s.handles[h] != PySurface && t !in s.teardowns
    case Drop(h, t) => Usable(s, h) && t !in s.teardowns
    case Call(op, h) => Usable(s, h) && op !in s.ops
    case Guard(op) => OpAt(s, op, Called)
    case ReadVersion(op) => OpAt(s, op, Guarded)
    case TryFast(op) => op in s.ops && s.ops[op].pc.Versioned? && s.lock == Free
    case TrySlow(op) => op in s.ops && s.ops[op].pc.Missed? && s.lock == Free
    case Build(op, conn) => op in s.ops && s.ops[op].pc.Building? && conn !in s.conns
    case BuildFails(op) => op in s.ops && (s.ops[op].pc.Building? || s.ops[op].pc.Built?)
    case Store(op) => op in s.ops && s.ops[op].pc.Built?
    case End(op) => op in s.ops && s.ops[op].pc.Running?
    case Mark(t) => TeardownAt(s, t, Begun)
    case TakeBundle(t) => TeardownAt(s, t, Marked) && s.lock == Free
    case CloseSlot(t) => TeardownAt(s, t, Locked)
    case Unlock(t) => TeardownAt(s, t, Emptied)
  }

  function OpTo(s: State, op: OpId, pc: OpPc): State
    requires op in s.ops
  {
    s.(ops := s.ops[op := s.ops[op].(pc := pc)])
  }

  function TeardownTo(s: State, t: TeardownId, pc: TeardownPc): State
    requires t in s.teardowns
  {
    s.(teardowns := s.teardowns[t := s.teardowns[t].(pc := pc)])
  }

  predicate Hit(s: State, ver: nat) {
    s.bundle.Some? && s.bundle.value.0 == ver
  }

  /** The slot already holds engines for the current version. */
  predicate SlotCurrent(s: State) {
    s.slot.Some? && s.slot.value in s.conns && s.conns[s.slot.value].version == s.version
  }

  predicate InUse(s: State, c: ConnId) {
    exists op :: op in s.ops && s.ops[op].pc == Running(c)
  }

  function SlotClosed(s: State, mark: bool): map<ConnId, Conn> {
    if s.slot.Some? && s.slot.value in s.conns && (mark || !InUse(s, s.slot.value)) then
      s.conns[s.slot.value := s.conns[s.slot.value].(closed := true)]
    else s.conns
  }

  function Step(s: State, e: Event): State
    requires Enabled(s, e)
  {
    match e
    case Clone(_, to, kind) => s.(handles := s.handles[to := kind])
    case Configure(_) => s.(version := s.version + 1)
    case Close(_, t) => s.(teardowns := s.teardowns[t := Teardown(true, None, Begun)])
    case Drop(h, t) =>
      if Releases(s, h) then s.(teardowns := s.teardowns[t := Teardown(false, Some(h), Begun)], dying := s.dying + {h})
      else s.(handles := s.handles - {h})
    case Call(op, _) => s.(ops := s.ops[op := Op(Called, s.closed, s.version)])
    case Guard(op) => OpTo(s, op, if s.closed then Refused else Guarded)
    case ReadVersion(op) => OpTo(s, op, Versioned(s.version))
    case TryFast(op) =>
      var ver := s.ops[op].pc.ver;
      OpTo(s, op, if Hit(s, ver) then Running(s.bundle.value.1) else Missed(ver))
    case TrySlow(op) =>
      var ver := s.ops[op].pc.ver;
      if Hit(s, ver) then OpTo(s, op, Running(s.bundle.value.1)) else OpTo(s, op, Building(ver)).(lock := ByOp(op))
    case Build(op, conn) =>
      var ver := s.ops[op].pc.ver;
      if SlotCurrent(s) then OpTo(s, op, Built(ver, s.slot.value))
      else OpTo(s, op, Built(ver, conn)).(conns := s.conns[conn := Conn(s.version, false)], slot := Some(conn))
    case BuildFails(op) => OpTo(s, op, Failed).(lock := Free)
    case Store(op) =>
      var pc := s.ops[op].pc;
      OpTo(s, op, Running(pc.conn)).(bundle := Some((pc.ver, pc.conn)), lock := Free)
    case End(op) => OpTo(s, op, Ended)
    case Mark(t) => TeardownTo(s, t, Marked).(closed := s.closed || s.teardowns[t].mark)
    case TakeBundle(t) => TeardownTo(s, t, Locked).(lock := ByTeardown(t), bundle := None)
    case CloseSlot(t) => TeardownTo(s, t, Emptied).(conns := SlotClosed(s, s.teardowns[t].mark), slot := None)
    case Unlock(t) =>
      TeardownTo(s, t, Finished)
        .(lock := Free,
          handles := match s.teardowns[t].dropping
            case Some(h) => s.handles - {h}
            case None => s.handles)
  }

  // ----- Invariant -----

  predicate PastGuard(pc: OpPc) {
    pc.Guarded? || pc.Versioned? || pc.Missed? || pc.Building? || pc.Built?
  }

  predicate Known(s: State, c: ConnId, least: nat) {
    c in s.conns && least <= s.conns[c].version <= s.version
  }

  /** One operation: what it has read and been given is current enough, and open while it is being built. */
  predicate OpSound(s: State, id: OpId, op: Op) {
    && op.bornVersion <= s.version
    && (op.bornClosed ==> s.closed && (op.pc == Called || op.pc == Refused))
    && ((op.pc.Building? || op.pc.Built?) <==> s.lock == ByOp(id))
    && match op.pc
       case Versioned(ver) => op.bornVersion <= ver <= s.version
       case Missed(ver) => op.bornVersion <= ver <= s.version
       case Building(ver) => op.bornVersion <= ver <= s.version
       case Built(ver, conn) => op.bornVersion <= ver && Known(s, conn, ver) && s.slot == Some(conn)
       case Running(conn) => Known(s, conn, op.bornVersion)
       case _ => true
  }

  predicate TeardownSound(s: State, id: TeardownId, t: Teardown) {
    && (t.pc != Begun && t.mark ==> s.closed)
    && ((t.pc == Locked || t.pc == Emptied) <==> s.lock == ByTeardown(id))
    && (t.pc == Locked ==> s.bundle == None)
    && (t.pc == Emptied ==> s.bundle == None && s.slot == None)
  }

  /** What is cached is open, and recent enough for its key. */
  predicate CacheSound(s: State) {
    && (s.slot.Some? ==> Known(s, s.slot.value, 0) && !s.conns[s.slot.value].closed)
    && (s.bundle.Some? ==>
          && s.bundle.value.0 <= s.version && Known(s, s.bundle.value.1, s.bundle.value.0)
          && !s.conns[s.bundle.value.1].closed)
    && (s.lock.ByOp? ==> s.lock.op in s.ops) && (s.lock.ByTeardown? ==> s.lock.t in s.teardowns)
  }

  ghost predicate Inv(s: State) {
    && CacheSound(s)
    && (forall id :: id in s.ops ==> OpSound(s, id, s.ops[id]))
    && (forall id :: id in s.teardowns ==> TeardownSound(s, id, s.teardowns[id]))
  }

  predicate OfOp(e: Event) {
    e.Guard? || e.ReadVersion? || e.TryFast? || e.TrySlow? || e.Build? || e.BuildFails? || e.Store? || e.End?
  }

  predicate OfTeardown(e: Event) {
    e.Mark? || e.TakeBundle? || e.CloseSlot? || e.Unlock?
  }

  lemma CacheUnderOp(s: State, e: Event)
    requires CacheSound(s) && Enabled(s, e) && OfOp(e) && OpSound(s, e.op, s.ops[e.op])
    ensures CacheSound(Step(s, e))
  {
    match e {
      case Guard(_) => case ReadVersion(_) => case TryFast(_) => case TrySlow(_) => case Build(_, _) =>
      case BuildFails(_) => case Store(_) => case End(_) =>
    }
  }

  lemma CacheUnderTeardown(s: State, e: Event)
    requires CacheSound(s) && Enabled(s, e) && OfTeardown(e) && TeardownSound(s, e.t, s.teardowns[e.t])
    ensures CacheSound(Step(s, e))
  {
    hide InUse;
    match e {
      case Mark(_) => case TakeBundle(_) => case CloseSlot(_) => case Unlock(_) =>
    }
  }

  lemma CacheStep(s: State, e: Event)
    requires Inv(s) && Enabled(s, e)
    ensures CacheSound(Step(s, e))
  {
    if OfOp(e) {
      CacheUnderOp(s, e);
      hide Step, CacheSound, OpSound;
    } else if OfTeardown(e) {
      CacheUnderTeardown(s, e);
      hide Step, CacheSound, TeardownSound;
    } else {
      hide Releases;
      match e {
        case Clone(_, _, _) => case Configure(_) => case Close(_, _) => case Drop(_, _) => case Call(_, _) =>
      }
    }
  }

  /** What the operations' states depend on never goes back. */
  lemma Monotone(s: State, e: Event)
    requires CacheSound(s) && Enabled(s, e)
    ensures var t := Step(s, e);
            && (s.closed ==> t.closed) && s.version <= t.version
            && (forall c :: c in s.conns ==> c in t.conns && t.conns[c].version == s.conns[c].version)
            && (forall c :: c in s.conns && s.conns[c].closed ==> t.conns[c].closed)
  {
    hide Releases, InUse;
    match e {
      case Clone(_, _, _) => case Configure(_) => case Close(_, _) => case Drop(_, _) => case Call(_, _) =>
      case Guard(_) => case ReadVersion(_) => case TryFast(_) => case TrySlow(_) => case Build(_, _) =>
      case BuildFails(_) => case Store(_) => case End(_) => case Mark(_) => case TakeBundle(_) =>
      case CloseSlot(_) => case Unlock(_) =>
    }
  }

  /** Who may touch lock and slot: the operation that builds, or the teardown that holds the lock. */
  lemma LockAndSlot(s: State, e: Event)
    requires Enabled(s, e)
    ensures var t := Step(s, e);
            && (t.lock == s.lock || (e.TrySlow? && s.lock == Free && t.lock == ByOp(e.op))
                || (e.BuildFails? && t.lock == Free) || (e.Store? && t.lock == Free)
                || (e.TakeBundle? && s.lock == Free && t.lock == ByTeardown(e.t)) || (e.Unlock? && t.lock == Free))
            && (t.slot == s.slot || e.Build? || e.CloseSlot?)
            && (t.bundle == s.bundle || e.Store? || e.TakeBundle?)
            && (OfOp(e) || e.Call? || t.ops == s.ops)
            && (OfTeardown(e) || e.Close? || e.Drop? || t.teardowns == s.teardowns)
  {
    hide Releases, InUse;
    match e {
      case Clone(_, _, _) => case Configure(_) => case Close(_, _) => case Drop(_, _) => case Call(_, _) =>
      case Guard(_) => case ReadVersion(_) => case TryFast(_) => case TrySlow(_) => case Build(_, _) =>
      case BuildFails(_) => case Store(_) => case End(_) => case Mark(_) => case TakeBundle(_) =>
      case CloseSlot(_) => case Unlock(_) =>
    }
  }

  /** The operation whose step it is. */
  lemma OwnStep(s: State, e: Event)
    requires CacheSound(s) && Enabled(s, e) && OfOp(e) && OpSound(s, e.op, s.ops[e.op])
    ensures e.op in Step(s, e).ops && OpSound(Step(s, e), e.op, Step(s, e).ops[e.op])
  {
    match e {
      case Guard(_) => case ReadVersion(_) => case TryFast(_) => case TrySlow(_) => case Build(_, _) =>
      case BuildFails(_) => case Store(_) => case End(_) =>
    }
  }

  lemma OtherOps(s: State, e: Event)
    requires Enabled(s, e) && OfOp(e)
    ensures Step(s, e).ops.Keys == s.ops.Keys
    ensures forall id :: id in s.ops && id != e.op ==> Step(s, e).ops[id] == s.ops[id]
  {
    match e {
      case Guard(_) => case ReadVersion(_) => case TryFast(_) => case TrySlow(_) => case Build(_, _) =>
      case BuildFails(_) => case Store(_) => case End(_) =>
    }
  }

  lemma OtherTeardowns(s: State, e: Event)
    requires Enabled(s, e) && OfTeardown(e)
    ensures Step(s, e).teardowns.Keys == s.teardowns.Keys
    ensures forall id :: id in s.teardowns && id != e.t ==> Step(s, e).teardowns[id] == s.teardowns[id]
  {
    hide InUse;
    match e {
      case Mark(_) => case TakeBundle(_) => case CloseSlot(_) => case Unlock(_) =>
    }
  }

  /** Which pc an operation must be at to take its step, as far as lock and slot are concerned. */
  lemma HoldsWhatItTouches(s: State, e: Event)
    requires Inv(s) && Enabled(s, e)
    ensures e.Build? || e.BuildFails? || e.Store? ==> s.lock == ByOp(e.op)
    ensures e.CloseSlot? || e.Unlock? ==> s.lock == ByTeardown(e.t)
  {
    if e.Build? || e.BuildFails? || e.Store? {
      assert OpSound(s, e.op, s.ops[e.op]);
    }
    if e.CloseSlot? || e.Unlock? {
      assert TeardownSound(s, e.t, s.teardowns[e.t]);
    }
  }

  /** Any other operation. */
  lemma OpKept(s: State, e: Event, id: OpId)
    requires Inv(s) && Enabled(s, e) && id in s.ops && !(OfOp(e) && e.op == id)
    ensures OpSound(Step(s, e), id, s.ops[id])
  {
    Monotone(s, e);
    LockAndSlot(s, e);
    HoldsWhatItTouches(s, e);
    assert OpSound(s, id, s.ops[id]);
    hide Step, Enabled, Inv, CacheSound;
  }

  lemma OpsStep(s: State, e: Event, id: OpId)
    requires Inv(s) && Enabled(s, e) && id in Step(s, e).ops
    ensures OpSound(Step(s, e), id, Step(s, e).ops[id])
  {
    hide OpSound, Releases;
    LockAndSlot(s, e);
    if OfOp(e) {
      OtherOps(s, e);
      if e.op == id {
        OwnStep(s, e);
      } else {
        OpKept(s, e, id);
      }
    } else if id in s.ops {
      OpKept(s, e, id);
      assert Step(s, e).ops[id] == s.ops[id];
    } else {
      NewOp(s, e);
    }
  }

  lemma NewOp(s: State, e: Event)
    requires Inv(s) && Enabled(s, e) && e.Call?
    ensures OpSound(Step(s, e), e.op, Step(s, e).ops[e.op])
  {
  }

  lemma TeardownKept(s: State, e: Event, id: TeardownId)
    requires Inv(s) && Enabled(s, e) && id in s.teardowns && !(OfTeardown(e) && e.t == id)
    ensures TeardownSound(Step(s, e), id, s.teardowns[id])
  {
    Monotone(s, e);
    LockAndSlot(s, e);
    HoldsWhatItTouches(s, e);
    assert TeardownSound(s, id, s.teardowns[id]);
    hide Step, Enabled, Inv, CacheSound;
  }

  lemma OwnTeardownStep(s: State, e: Event)
    requires Enabled(s, e) && OfTeardown(e) && TeardownSound(s, e.t, s.teardowns[e.t])
    ensures e.t in Step(s, e).teardowns && TeardownSound(Step(s, e), e.t, Step(s, e).teardowns[e.t])
  {
    hide InUse;
    match e {
      case Mark(_) => case TakeBundle(_) => case CloseSlot(_) => case Unlock(_) =>
    }
  }

  lemma TeardownsStep(s: State, e: Event, id: TeardownId)
    requires Inv(s) && Enabled(s, e) && id in Step(s, e).teardowns
    ensures TeardownSound(Step(s, e), id, Step(s, e).teardowns[id])
  {
    hide Releases, InUse;
    LockAndSlot(s, e);
    if OfTeardown(e) {
      OtherTeardowns(s, e);
      if e.t == id {
        OwnTeardownStep(s, e);
      } else {
        TeardownKept(s, e, id);
      }
      hide Step, Enabled, TeardownSound;
    } else if id in s.teardowns {
      TeardownKept(s, e, id);
      assert Step(s, e).teardowns[id] == s.teardowns[id];
      hide TeardownSound;
    } else {
      assert s.lock != ByTeardown(id);
    }
  }

  lemma InvStep(s: State, e: Event)
    requires Inv(s) && Enabled(s, e)
    ensures Inv(Step(s, e))
  {
    CacheStep(s, e);
    hide Step, Enabled, CacheSound, OpSound, TeardownSound;
    forall id | id in Step(s, e).ops ensures OpSound(Step(s, e), id, Step(s, e).ops[id]) {
      OpsStep(s, e, id);
    }
    forall id | id in Step(s, e).teardowns ensures TeardownSound(Step(s, e), id, Step(s, e).teardowns[id]) {
      TeardownsStep(s, e, id);
    }
  }
}
