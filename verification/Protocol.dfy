/**
 The reader/writer exclusion protocol that the four synchronous containers share, as
 interleaved atomic steps of any number of threads on one container.
 `begin_read`, `begin_write`, the guards and `WriteLock` are spelled out down to single loads,
 stores and read-modify-writes; everything a thread does outside those two calls is its
 own code, run while its program counter is `User`.
 */
module Protocol {
  import opened Sequential

  type Tid = nat
  type Gid = nat

  /** The instruction a thread is about to execute. */
  datatype Pc =
    | User              // own code: outside begin_read and begin_write
    | RegLock           // reader_count_for: waiting for the registry mutex
    | RegPush           // reader_count_for: about to push a counter
    | RegFree(k: nat)   // reader_count_for: about to release the registry mutex
    | Inc(k: nat)       // begin_read: about to increment counter k
    | Check(k: nat)     // begin_read: about to load `writing`
    | Undo(k: nat)      // begin_read: saw a writer, about to decrement counter k
    | WLock             // begin_write: waiting for the write mutex
    | Raise             // begin_write: about to store true in `writing`
    | ScanLock          // begin_write: waiting for the registry mutex
    | Scan(i: nat)      // begin_write: counters below i were loaded as zero
    | Fail              // begin_write: loaded a nonzero counter, about to unlock the registry
    | Pass              // begin_write: all loaded as zero, about to unlock the registry
    | Clear             // WriteLock::drop: about to store false in `writing`
    | Unlock            // WriteLock::drop: about to release the write mutex

  /** A live read guard or read iterator. A leaked one is never released by anybody. */
  datatype Guard = Guard(owner: Tid, slot: nat, mobile: bool, leaked: bool)

  /** A write section: the update under way with the contents it started from, and those done. */
  datatype Section<S, O, R> = Section(pending: Option<(O, S)>, log: seq<Done<O, R>>)

  datatype State<S, O, R> = State(
    pc: seq<Pc>,
    slot: map<Tid, nat>,             // the thread-local directory, for this container
    counters: seq<int>,              // the registry
    reg: Option<Tid>,                // holder of the registry mutex
    write: Option<Tid>,              // holder of the write mutex
    writing: bool,
    content: S,                      // `dirty`
    secs: map<Tid, Section<S, O, R>>,// threads between begin_write and the drop of its WriteLock
    guards: map<Gid, Guard>,         // a guard is named by the index of its event in `hist`
    hist: seq<Event<O, R>>)

  datatype Step<S, O> =
    | CallRead(t: Tid) | LockReg(t: Tid) | PushSlot(t: Tid) | FreeReg(t: Tid)
    | FetchAdd(t: Tid) | LoadFlag(t: Tid, mobile: bool) | Retract(t: Tid)
    | Access(t: Tid, g: Gid) | Drop(t: Tid, g: Gid) | HandOver(t: Tid, g: Gid, to: Tid) | Leak(t: Tid, g: Gid)
    | CallWrite(t: Tid) | LockWrite(t: Tid) | StoreTrue(t: Tid)
    | LockScan(t: Tid) | LoadCounter(t: Tid) | EndScan(t: Tid) | FreeFail(t: Tid) | Enter(t: Tid)
    | BeginOp(t: Tid, o: O) | Tear(t: Tid, junk: S) | EndOp(t: Tid)
    | Release(t: Tid) | StoreFalse(t: Tid) | UnlockWrite(t: Tid)

  // ---------------------------------------------------------------- the step relation

  predicate At<S, O, R>(s: State<S, O, R>, t: Tid, p: Pc) {
    t < |s.pc| && s.pc[t] == p
  }

  /** `t` can use or release guard `g`: it owns it and is in its own code. */
  predicate Holds<S, O, R>(s: State<S, O, R>, t: Tid, g: Gid) {
    At(s, t, User) && g in s.guards && s.guards[g].owner == t && !s.guards[g].leaked
  }

  /** `t` is in its own code with the container's `WriteLock` in hand. */
  predicate Writes<S, O, R>(s: State<S, O, R>, t: Tid) {
    At(s, t, User) && t in s.secs
  }

  predicate Enabled<S, O, R>(s: State<S, O, R>, st: Step<S, O>) {
    st.t < |s.pc| &&
    var p := s.pc[st.t];
    match st
    case CallRead(t) => p.User?
    case LockReg(t) => p.RegLock? && s.reg.None?
    case PushSlot(t) => p.RegPush?
    case FreeReg(t) => p.RegFree?
    case FetchAdd(t) => p.Inc? && p.k < |s.counters|
    case LoadFlag(t, _) => p.Check?
    case Retract(t) => p.Undo? && p.k < |s.counters|
    case Access(t, g) => Holds(s, t, g)
    case Drop(t, g) => Holds(s, t, g) && s.guards[g].slot < |s.counters|
    case HandOver(t, g, to) => Holds(s, t, g) && s.guards[g].mobile && At(s, to, User)
    case Leak(t, g) => Holds(s, t, g)
    case CallWrite(t) => p.User?
    case LockWrite(t) => p.WLock? && s.write.None?
    case StoreTrue(t) => p.Raise?
    case LockScan(t) => p.ScanLock? && s.reg.None?
    case LoadCounter(t) => p.Scan? && p.i < |s.counters|
    case EndScan(t) => p.Scan? && p.i >= |s.counters|
    case FreeFail(t) => p.Fail?
    case Enter(t) => p.Pass?
    case BeginOp(t, _) => Writes(s, t) && s.secs[t].pending.None?
    case Tear(t, _) => Writes(s, t) && s.secs[t].pending.Some?
    case EndOp(t) => Writes(s, t) && s.secs[t].pending.Some?
    case Release(t) => Writes(s, t) && s.secs[t].pending.None?
    case StoreFalse(t) => p.Clear? && t in s.secs
    case UnlockWrite(t) => p.Unlock?
  }

  function Do<S, O, R>(obj: Object<S, O, R>, s: State<S, O, R>, st: Step<S, O>): State<S, O, R>
    requires Enabled(s, st)
  {
    match st
    case CallRead(t) => s.(pc := s.pc[t := if t in s.slot then Inc(s.slot[t]) else RegLock])
    case LockReg(t) => s.(pc := s.pc[t := RegPush], reg := Some(t))
    case PushSlot(t) =>
      var k := |s.counters|;
      s.(pc := s.pc[t := RegFree(k)], counters := s.counters + [0], slot := s.slot[t := k])
    case FreeReg(t) => s.(pc := s.pc[t := Inc(s.pc[t].k)], reg := None)
    case FetchAdd(t) =>
      var k := s.pc[t].k;
      s.(pc := s.pc[t := Check(k)], counters := s.counters[k := s.counters[k] + 1])
    case LoadFlag(t, mobile) =>
      var k := s.pc[t].k;
      if s.writing then s.(pc := s.pc[t := Undo(k)])
      else s.(pc := s.pc[t := User], guards := s.guards[|s.hist| := Guard(t, k, mobile, false)],
              hist := s.hist + [Read(t)])
    case Retract(t) =>
      var k := s.pc[t].k;
      s.(pc := s.pc[t := Inc(k)], counters := s.counters[k := s.counters[k] - 1])
    case Access(_, _) => s
    case Drop(_, g) =>
      var k := s.guards[g].slot;
      s.(counters := s.counters[k := s.counters[k] - 1], guards := s.guards - {g})
    case HandOver(_, g, to) => s.(guards := s.guards[g := s.guards[g].(owner := to)])
    case Leak(_, g) => s.(guards := s.guards[g := s.guards[g].(leaked := true)])
    case CallWrite(t) => s.(pc := s.pc[t := WLock])
    case LockWrite(t) => s.(pc := s.pc[t := Raise], write := Some(t))
    case StoreTrue(t) => s.(pc := s.pc[t := ScanLock], writing := true)
    case LockScan(t) => s.(pc := s.pc[t := Scan(0)], reg := Some(t))
    case LoadCounter(t) =>
      var i := s.pc[t].i;
      s.(pc := s.pc[t := if s.counters[i] == 0 then Scan(i + 1) else Fail])
    case EndScan(t) => s.(pc := s.pc[t := Pass])
    case FreeFail(t) => s.(pc := s.pc[t := ScanLock], reg := None)
    case Enter(t) => s.(pc := s.pc[t := User], reg := None, secs := s.secs[t := Section(None, [])])
    case BeginOp(t, o) => s.(secs := s.secs[t := Section(Some((o, s.content)), s.secs[t].log)])
    case Tear(_, junk) => s.(content := junk)
    case EndOp(t) =>
      var (o, base) := s.secs[t].pending.value;
      var (next, r) := obj.apply(o, base);
      s.(content := next, secs := s.secs[t := Section(None, s.secs[t].log + [Done(o, r)])])
    case Release(t) => s.(pc := s.pc[t := Clear])
    case StoreFalse(t) =>
      s.(pc := s.pc[t := Unlock], writing := false, secs := s.secs - {t}, hist := s.hist + [Write(t, s.secs[t].log)])
    case UnlockWrite(t) => s.(pc := s.pc[t := User], write := None)
  }

  /** A container just created, with `n` threads running their own code. */
  function Start<S, O, R>(obj: Object<S, O, R>, n: nat): State<S, O, R> {
    State(seq(n, _ => User), map[], [], None, None, false, obj.init, map[], map[], [])
  }

  predicate Runs<S, O, R>(obj: Object<S, O, R>, s: State<S, O, R>, steps: seq<Step<S, O>>)
    decreases |steps|
  {
    steps == [] || (Enabled(s, steps[0]) && Runs(obj, Do(obj, s, steps[0]), steps[1..]))
  }

  function Exec<S, O, R>(obj: Object<S, O, R>, s: State<S, O, R>, steps: seq<Step<S, O>>): State<S, O, R>
    requires Runs(obj, s, steps)
    decreases |steps|
  {
    if steps == [] then s else Exec(obj, Do(obj, s, steps[0]), steps[1..])
  }

  lemma RunsCons<S, O, R>(obj: Object<S, O, R>, s: State<S, O, R>, st: Step<S, O>, s': State<S, O, R>,
                          rest: seq<Step<S, O>>)
    requires Enabled(s, st) && s' == Do(obj, s, st) && Runs(obj, s', rest)
    ensures Runs(obj, s, [st] + rest) && Exec(obj, s, [st] + rest) == Exec(obj, s', rest)
  {
    var steps := [st] + rest;
    assert steps[0] == st && steps[1..] == rest;
  }

  lemma {:induction false} RunsConcat<S, O, R>(obj: Object<S, O, R>, s: State<S, O, R>, a: seq<Step<S, O>>,
                                               b: seq<Step<S, O>>)
    requires Runs(obj, s, a) && Runs(obj, Exec(obj, s, a), b)
    ensures Runs(obj, s, a + b) && Exec(obj, s, a + b) == Exec(obj, Exec(obj, s, a), b)
    decreases |a|
  {
    HeadOfConcat(a, b);
    if a == [] {
    } else {
      var s' := Do(obj, s, a[0]);
      RunsConcat(obj, s', a[1..], b);
      RunsCons(obj, s, a[0], s', a[1..] + b);
    }
  }

  // ---------------------------------------------------------------- the invariant

  predicate HoldsReg(p: Pc) { p.RegPush? || p.RegFree? || p.Scan? || p.Fail? || p.Pass? }

  predicate HoldsWrite(p: Pc) { p.Raise? || Raised(p) || p.Unlock? }

  predicate Raised(p: Pc) { p.ScanLock? || p.Scan? || p.Fail? || p.Pass? || p.Clear? }

  predicate Tries(p: Pc, k: nat) { p == Check(k) || p == Undo(k) }

  /** In begin_read. */
  predicate InRead(p: Pc) { p.RegLock? || p.RegPush? || p.RegFree? || p.Inc? || p.Check? || p.Undo? }

  /** In begin_write. */
  predicate InWrite(p: Pc) { p.WLock? || p.Raise? || p.ScanLock? || p.Scan? || p.Fail? || p.Pass? }

  predicate UsesSlot(p: Pc) { p.RegFree? || p.Inc? || p.Check? || p.Undo? }

  /** The registry mutex is held by the thread whose next instruction says so, and by no other. */
  ghost predicate RegMutex<S, O, R>(s: State<S, O, R>) {
    && (s.reg.Some? ==> s.reg.value < |s.pc|)
    && (forall t :: 0 <= t < |s.pc| ==> (s.reg == Some(t) <==> HoldsReg(s.pc[t])))
  }

  ghost predicate WriterState<S, O, R>(s: State<S, O, R>, t: Tid)
    requires t < |s.pc|
  {
    && (s.write == Some(t) <==> HoldsWrite(s.pc[t]) || t in s.secs)
    && (t in s.secs ==> s.pc[t].Clear? || !HoldsWrite(s.pc[t]))
    && (s.pc[t].Clear? ==> t in s.secs && s.secs[t].pending.None?)
  }

  /** The write mutex is held from `lock` in begin_write to the end of the drop of the WriteLock. */
  ghost predicate WriteMutex<S, O, R>(s: State<S, O, R>) {
    && (s.write.Some? ==> s.write.value < |s.pc|)
    && (forall t :: t in s.secs ==> t < |s.pc|)
    && (forall t :: 0 <= t < |s.pc| ==> WriterState(s, t))
  }

  /** `writing` is up exactly while the holder of the write mutex is past its store of true. */
  ghost predicate FlagUp<S, O, R>(s: State<S, O, R>) {
    s.writing <==> exists t :: 0 <= t < |s.pc| && s.write == Some(t) && (Raised(s.pc[t]) || t in s.secs)
  }

  ghost predicate Locks<S, O, R>(s: State<S, O, R>) {
    RegMutex(s) && WriteMutex(s) && FlagUp(s)
  }

  ghost predicate ReaderState<S, O, R>(s: State<S, O, R>, t: Tid)
    requires t < |s.pc|
  {
    && (UsesSlot(s.pc[t]) ==> t in s.slot && s.slot[t] == s.pc[t].k)
    && (s.pc[t].RegLock? || s.pc[t].RegPush? ==> t !in s.slot)
  }

  /** Every thread has at most one counter, shared with no other thread, and works on no other. */
  ghost predicate OwnSlots<S, O, R>(s: State<S, O, R>) {
    && (forall t :: t in s.slot ==> t < |s.pc| && s.slot[t] < |s.counters|)
    && (forall t, u :: t in s.slot && u in s.slot && s.slot[t] == s.slot[u] ==> t == u)
    && (forall t :: 0 <= t < |s.pc| ==> ReaderState(s, t))
  }

  ghost predicate GuardsKnown<S, O, R>(s: State<S, O, R>) {
    forall g :: g in s.guards ==>
      s.guards[g].slot < |s.counters| && s.guards[g].owner < |s.pc| && g < |s.hist|
  }

  ghost predicate Slots<S, O, R>(s: State<S, O, R>) {
    OwnSlots(s) && GuardsKnown(s)
  }

  ghost function GuardsAt(guards: map<Gid, Guard>, k: nat): set<Gid> {
    set g | g in guards && guards[g].slot == k
  }

  ghost function Attempts(pc: seq<Pc>, k: nat): set<Tid> {
    set t | 0 <= t < |pc| && Tries(pc[t], k)
  }

  /** Slot conservation: a counter is the live guards charged to it plus the attempts under way. */
  ghost predicate Conserved<S, O, R>(s: State<S, O, R>) {
    forall k :: 0 <= k < |s.counters| ==> s.counters[k] == |GuardsAt(s.guards, k)| + |Attempts(s.pc, k)|
  }

  /**
   Exclusion. It speaks of granted guards on the scanned prefix, not of counters: failed
   attempts move the counters all the time, and the registry grows during and after scans.
   */
  ghost predicate Quiet<S, O, R>(s: State<S, O, R>) {
    && (forall t, g :: 0 <= t < |s.pc| && s.pc[t].Scan? && g in s.guards ==> s.pc[t].i <= s.guards[g].slot)
    && (forall t :: 0 <= t < |s.pc| && (s.pc[t].Pass? || t in s.secs) ==> s.guards == map[])
  }

  /** The contents at the start of the update under way, or now if there is none. */
  function Settled<S, O, R>(s: State<S, O, R>, t: Tid): S
    requires t in s.secs
  {
    match s.secs[t].pending
    case None => s.content
    case Some((o, base)) => base
  }

  /** The memory against the history. */
  ghost predicate Explained<S, O, R>(obj: Object<S, O, R>, s: State<S, O, R>) {
    && Legal(obj, s.hist)
    && (s.secs == map[] ==> s.content == After(obj, s.hist))
    && (forall t :: t in s.secs ==>
          && Faithful(obj, After(obj, s.hist), s.secs[t].log)
          && Settled(s, t) == Replay(obj, After(obj, s.hist), s.secs[t].log))
    && (forall g, j :: g in s.guards && g <= j < |s.hist| ==> s.hist[j].Read?)
  }

  ghost predicate Inv<S, O, R>(obj: Object<S, O, R>, s: State<S, O, R>) {
    Locks(s) && Slots(s) && Conserved(s) && Quiet(s) && Explained(obj, s)
  }

  // ---------------------------------------------------------------- its preservation

  lemma AttemptsUpdate(pc: seq<Pc>, t: Tid, p: Pc, k: nat)
    requires t < |pc|
    ensures |Attempts(pc[t := p], k)| + (if Tries(pc[t], k) then 1 else 0)
            == |Attempts(pc, k)| + (if Tries(p, k) then 1 else 0)
  {
    var rest := Attempts(pc, k) - {t};
    assert Attempts(pc, k) == if Tries(pc[t], k) then rest + {t} else rest;
    assert Attempts(pc[t := p], k) == if Tries(p, k) then rest + {t} else rest;
  }

  lemma GuardsAtAdd(guards: map<Gid, Guard>, g: Gid, d: Guard, k: nat)
    requires g !in guards
    ensures |GuardsAt(guards[g := d], k)| == |GuardsAt(guards, k)| + (if d.slot == k then 1 else 0)
  {
    assert GuardsAt(guards[g := d], k) == if d.slot == k then GuardsAt(guards, k) + {g} else GuardsAt(guards, k);
  }

  lemma GuardsAtRemove(guards: map<Gid, Guard>, g: Gid, k: nat)
    requires g in guards
    ensures |GuardsAt(guards - {g}, k)| == |GuardsAt(guards, k)| - (if guards[g].slot == k then 1 else 0)
  {
    assert GuardsAt(guards - {g}, k) == GuardsAt(guards, k) - {g};
  }

  lemma GuardsAtChange(guards: map<Gid, Guard>, g: Gid, d: Guard, k: nat)
    requires g in guards && guards[g].slot == d.slot
    ensures GuardsAt(guards[g := d], k) == GuardsAt(guards, k)
  {
  }

  /** A step changes the program counter, the section and the slot of its own thread only. */
  ghost predicate Local<S, O, R>(s: State<S, O, R>, s': State<S, O, R>, t: Tid)
    requires t < |s.pc|
  {
    && |s'.pc| == |s.pc|
    && s'.pc == s.pc[t := s'.pc[t]]
    && s'.secs - {t} == s.secs - {t}
    && s'.slot - {t} == s.slot - {t}
  }

  lemma LocalPc<S, O, R>(obj: Object<S, O, R>, s: State<S, O, R>, st: Step<S, O>)
    requires Enabled(s, st)
    ensures var s' := Do(obj, s, st); |s'.pc| == |s.pc| && s'.pc == s.pc[st.t := s'.pc[st.t]]
  {
  }

  lemma SecsStep<S, O, R>(obj: Object<S, O, R>, s: State<S, O, R>, st: Step<S, O>)
    requires Enabled(s, st)
    ensures var secs' := Do(obj, s, st).secs;
            if st.Enter? || st.BeginOp? || st.EndOp? then st.t in secs' && secs' == s.secs[st.t := secs'[st.t]]
            else secs' == if st.StoreFalse? then s.secs - {st.t} else s.secs
  {
    if st.Enter? || st.BeginOp? || st.EndOp? {
    } else {
      SecsStay(obj, s, st);
    }
  }

  lemma SecsStay<S, O, R>(obj: Object<S, O, R>, s: State<S, O, R>, st: Step<S, O>)
    requires Enabled(s, st) && !st.Enter? && !st.BeginOp? && !st.EndOp?
    ensures Do(obj, s, st).secs == if st.StoreFalse? then s.secs - {st.t} else s.secs
  {
  }

  /** The directory changes when a thread registers, and then grows by a counter of its own. */
  lemma SlotStep<S, O, R>(obj: Object<S, O, R>, s: State<S, O, R>, st: Step<S, O>)
    requires Enabled(s, st)
    ensures var s' := Do(obj, s, st);
            if st.PushSlot? then s'.slot == s.slot[st.t := |s.counters|] && |s'.counters| == |s.counters| + 1
            else s'.slot == s.slot && |s'.counters| == |s.counters|
  {
  }

  lemma LocalStep<S, O, R>(obj: Object<S, O, R>, s: State<S, O, R>, st: Step<S, O>)
    requires Enabled(s, st)
    ensures Local(s, Do(obj, s, st), st.t)
  {
    LocalPc(obj, s, st);
    SecsStep(obj, s, st);
    SlotStep(obj, s, st);
    LocalAll(s, Do(obj, s, st), st.t);
  }

  lemma LocalAll<S, O, R>(s: State<S, O, R>, s': State<S, O, R>, t: Tid)
    requires t < |s.pc| && |s'.pc| == |s.pc| && s'.pc == s.pc[t := s'.pc[t]]
    requires s'.secs == s.secs || s'.secs == s.secs - {t} || (t in s'.secs && s'.secs == s.secs[t := s'.secs[t]])
    requires s'.slot == s.slot || s'.slot == s.slot[t := |s.counters|]
    ensures Local(s, s', t)
  {
  }

  /** The rest of the state, seen from another thread. */
  lemma OtherThread<S, O, R>(s: State<S, O, R>, s': State<S, O, R>, t: Tid, u: Tid)
    requires t < |s.pc| && Local(s, s', t) && u != t
    ensures u < |s.pc| ==> s'.pc[u] == s.pc[u]
    ensures (u in s'.secs <==> u in s.secs) && (u in s.secs ==> s'.secs[u] == s.secs[u])
    ensures (u in s'.slot <==> u in s.slot) && (u in s.slot ==> s'.slot[u] == s.slot[u])
  {
    assert u in s'.secs <==> u in s'.secs - {t};
    assert u in s.secs <==> u in s.secs - {t};
    assert u in s.secs ==> (s.secs - {t})[u] == s.secs[u] && (s'.secs - {t})[u] == s'.secs[u];
    assert u in s'.slot <==> u in s'.slot - {t};
    assert u in s.slot <==> u in s.slot - {t};
    assert u in s.slot ==> (s.slot - {t})[u] == s.slot[u] && (s'.slot - {t})[u] == s'.slot[u];
  }

  lemma RegMutexStep<S, O, R>(obj: Object<S, O, R>, s: State<S, O, R>, st: Step<S, O>)
    requires RegMutex(s) && Enabled(s, st)
    ensures RegMutex(Do(obj, s, st))
  {
    LocalPc(obj, s, st);
    RegMoves(obj, s, st);
    HoldsRegPc(obj, s, st);
    RegMutexFrom(s, Do(obj, s, st), st);
  }

  /** A step takes, keeps or gives back the registry mutex as its thread's next instruction says. */
  lemma RegMoves<S, O, R>(obj: Object<S, O, R>, s: State<S, O, R>, st: Step<S, O>)
    requires Enabled(s, st)
    ensures Do(obj, s, st).reg == if st.LockReg? || st.LockScan? then Some(st.t)
                                  else if st.FreeReg? || st.FreeFail? || st.Enter? then None else s.reg
  {
  }

  lemma HoldsRegPc<S, O, R>(obj: Object<S, O, R>, s: State<S, O, R>, st: Step<S, O>)
    requires Enabled(s, st)
    ensures HoldsReg(Do(obj, s, st).pc[st.t])
            <==> st.LockReg? || st.LockScan? || (HoldsReg(s.pc[st.t]) && !st.FreeReg? && !st.FreeFail? && !st.Enter?)
  {
  }

  lemma RegMutexFrom<S, O, R>(s: State<S, O, R>, s': State<S, O, R>, st: Step<S, O>)
    requires RegMutex(s) && Enabled(s, st) && |s.pc| == |s'.pc| && s'.pc == s.pc[st.t := s'.pc[st.t]]
    requires s'.reg == if st.LockReg? || st.LockScan? then Some(st.t)
                       else if st.FreeReg? || st.FreeFail? || st.Enter? then None else s.reg
    requires HoldsReg(s'.pc[st.t])
             <==> st.LockReg? || st.LockScan? || (HoldsReg(s.pc[st.t]) && !st.FreeReg? && !st.FreeFail? && !st.Enter?)
    ensures RegMutex(s')
  {
  }

  /** How the write mutex and the flag change hands. */
  lemma LockMoves<S, O, R>(obj: Object<S, O, R>, s: State<S, O, R>, st: Step<S, O>)
    requires Enabled(s, st)
    ensures var s' := Do(obj, s, st);
            && s'.write == (if st.LockWrite? then Some(st.t) else if st.UnlockWrite? then None else s.write)
            && s'.writing == if st.StoreTrue? then true else if st.StoreFalse? then false else s.writing
  {
  }

  lemma WriterOwn<S, O, R>(obj: Object<S, O, R>, s: State<S, O, R>, st: Step<S, O>)
    requires Enabled(s, st) && WriterState(s, st.t)
    ensures |Do(obj, s, st).pc| == |s.pc| && WriterState(Do(obj, s, st), st.t)
  {
    LockMoves(obj, s, st);
    SecsStep(obj, s, st);
    LocalPc(obj, s, st);
    HoldsWritePc(obj, s, st);
    ClearPc(obj, s, st);
    WriterFrom(s, Do(obj, s, st), st);
  }

  /** Where the thread of a step stands with the write mutex before and after. */
  lemma HoldsWritePc<S, O, R>(obj: Object<S, O, R>, s: State<S, O, R>, st: Step<S, O>)
    requires Enabled(s, st)
    ensures HoldsWrite(Do(obj, s, st).pc[st.t])
            <==> st.LockWrite? || st.Release? || (HoldsWrite(s.pc[st.t]) && !st.Enter? && !st.UnlockWrite?)
  {
  }

  lemma ClearPc<S, O, R>(obj: Object<S, O, R>, s: State<S, O, R>, st: Step<S, O>)
    requires Enabled(s, st)
    ensures Do(obj, s, st).pc[st.t].Clear? <==> st.Release?
  {
  }

  lemma WriterFrom<S, O, R>(s: State<S, O, R>, s': State<S, O, R>, st: Step<S, O>)
    requires Enabled(s, st) && WriterState(s, st.t) && |s'.pc| == |s.pc|
    requires s'.write == if st.LockWrite? then Some(st.t) else if st.UnlockWrite? then None else s.write
    requires if st.Enter? || st.BeginOp? || st.EndOp? then st.t in s'.secs && s'.secs == s.secs[st.t := s'.secs[st.t]]
             else s'.secs == if st.StoreFalse? then s.secs - {st.t} else s.secs
    requires var p, p' := s.pc[st.t], s'.pc[st.t];
             && (HoldsWrite(p') <==> st.LockWrite? || st.Release? || (HoldsWrite(p) && !st.Enter? && !st.UnlockWrite?))
             && (p'.Clear? <==> st.Release?)
    ensures WriterState(s', st.t)
  {
  }

  lemma SectionThreads<S, O, R>(obj: Object<S, O, R>, s: State<S, O, R>, st: Step<S, O>)
    requires Enabled(s, st)
    ensures Do(obj, s, st).secs.Keys <= s.secs.Keys + {st.t}
  {
    SecsStep(obj, s, st);
  }

  lemma WriteMutexStep<S, O, R>(obj: Object<S, O, R>, s: State<S, O, R>, st: Step<S, O>)
    requires WriteMutex(s) && Enabled(s, st)
    ensures WriteMutex(Do(obj, s, st))
  {
    var s' := Do(obj, s, st);
    assert WriterState(s, st.t);
    WriterOwn(obj, s, st);
    LockMoves(obj, s, st);
    LocalStep(obj, s, st);
    SectionThreads(obj, s, st);
    forall u | 0 <= u < |s'.pc| && u != st.t ensures WriterState(s', u) {
      assert WriterState(s, u);
      OtherThread(s, s', st.t, u);
    }
  }

  lemma WriteHolder<S, O, R>(s: State<S, O, R>)
    requires WriteMutex(s)
    ensures forall t :: 0 <= t < |s.pc| ==> (s.write == Some(t) <==> HoldsWrite(s.pc[t]) || t in s.secs)
  {
    forall t | 0 <= t < |s.pc| ensures s.write == Some(t) <==> HoldsWrite(s.pc[t]) || t in s.secs {
      assert WriterState(s, t);
    }
  }

  /** Write sections exclude each other, and the flag is up during each of them. */
  lemma SectionAlone<S, O, R>(s: State<S, O, R>, t: Tid)
    requires WriteMutex(s) && FlagUp(s) && t in s.secs
    ensures s.write == Some(t) && s.writing && s.secs.Keys == {t}
    ensures forall u :: 0 <= u < |s.pc| && HoldsWrite(s.pc[u]) ==> u == t
  {
    WriteHolder(s);
  }

  lemma FlagUpStep<S, O, R>(obj: Object<S, O, R>, s: State<S, O, R>, st: Step<S, O>)
    requires WriteMutex(s) && FlagUp(s) && Enabled(s, st)
    ensures FlagUp(Do(obj, s, st))
  {
    var s' := Do(obj, s, st);
    WriteMutexStep(obj, s, st);
    WriteHolder(s);
    WriteHolder(s');
  }

  lemma OwnSlot<S, O, R>(obj: Object<S, O, R>, s: State<S, O, R>, st: Step<S, O>)
    requires Enabled(s, st) && ReaderState(s, st.t)
    ensures |Do(obj, s, st).pc| == |s.pc| && ReaderState(Do(obj, s, st), st.t)
  {
    LocalPc(obj, s, st);
    UsesPc(obj, s, st);
    SlotStep(obj, s, st);
    RegisterPc(obj, s, st);
  }

  /** Where the counter comes from that a thread is going to use. */
  lemma UsesPc<S, O, R>(obj: Object<S, O, R>, s: State<S, O, R>, st: Step<S, O>)
    requires Enabled(s, st)
    ensures var p, p' := s.pc[st.t], Do(obj, s, st).pc[st.t];
            UsesSlot(p') ==>
              if st.CallRead? then st.t in s.slot && p'.k == s.slot[st.t]
              else if st.PushSlot? then p'.k == |s.counters|
              else UsesSlot(p) && p'.k == p.k
  {
  }

  lemma RegisterPc<S, O, R>(obj: Object<S, O, R>, s: State<S, O, R>, st: Step<S, O>)
    requires Enabled(s, st)
    ensures var p, p' := s.pc[st.t], Do(obj, s, st).pc[st.t];
            p'.RegLock? || p'.RegPush? ==> !st.PushSlot? && (p.RegLock? || p.RegPush? || st.t !in s.slot)
  {
  }

  lemma OwnSlotsStep<S, O, R>(obj: Object<S, O, R>, s: State<S, O, R>, st: Step<S, O>)
    requires OwnSlots(s) && Enabled(s, st)
    ensures OwnSlots(Do(obj, s, st))
  {
    var s' := Do(obj, s, st);
    assert ReaderState(s, st.t);
    OwnSlot(obj, s, st);
    LocalStep(obj, s, st);
    SlotStep(obj, s, st);
    forall u | 0 <= u < |s'.pc| && u != st.t ensures ReaderState(s', u) {
      assert ReaderState(s, u);
      OtherThread(s, s', st.t, u);
    }
  }

  lemma GuardsKnownStep<S, O, R>(obj: Object<S, O, R>, s: State<S, O, R>, st: Step<S, O>)
    requires OwnSlots(s) && GuardsKnown(s) && Enabled(s, st)
    ensures GuardsKnown(Do(obj, s, st))
  {
    var s' := Do(obj, s, st);
    LocalPc(obj, s, st);
    SlotStep(obj, s, st);
    assert ReaderState(s, st.t);
    if st.LoadFlag? || st.Drop? || st.HandOver? || st.Leak? {
      assert |s'.hist| >= |s.hist|;
    } else {
      GuardsStay(obj, s, st);
    }
  }

  /** Only its owner, in its own code, drops a guard, passes it on or leaks it. */
  lemma GuardStep<S, O, R>(obj: Object<S, O, R>, s: State<S, O, R>, st: Step<S, O>, g: Gid)
    requires Enabled(s, st) && g in s.guards && g != |s.hist|
    ensures var s' := Do(obj, s, st);
            || (g in s'.guards && s'.guards[g] == s.guards[g])
            || (Holds(s, st.t, g) && st == Drop(st.t, g) && g !in s'.guards)
            || (Holds(s, st.t, g) && (st.HandOver? || st.Leak?) && g in s'.guards
               && s'.guards[g].slot == s.guards[g].slot)
  {
    if (st.LoadFlag? && !s.writing) || st.Drop? || st.HandOver? || st.Leak? {
    } else {
      GuardsStay(obj, s, st);
    }
  }

  lemma GuardsStay<S, O, R>(obj: Object<S, O, R>, s: State<S, O, R>, st: Step<S, O>)
    requires Enabled(s, st) && (st.LoadFlag? ==> s.writing) && !st.Drop? && !st.HandOver? && !st.Leak?
    ensures Do(obj, s, st).guards == s.guards && |Do(obj, s, st).hist| >= |s.hist|
  {
  }

  lemma ConservedStep<S, O, R>(obj: Object<S, O, R>, s: State<S, O, R>, st: Step<S, O>)
    requires Slots(s) && Conserved(s) && Enabled(s, st)
    ensures Conserved(Do(obj, s, st))
  {
    var s' := Do(obj, s, st);
    forall k | 0 <= k < |s'.counters|
      ensures s'.counters[k] == |GuardsAt(s'.guards, k)| + |Attempts(s'.pc, k)|
    {
      AttemptsUpdate(s.pc, st.t, s'.pc[st.t], k);
      match st
      case LoadFlag(t, mobile) =>
        if !s.writing {
          GuardsAtAdd(s.guards, |s.hist|, s'.guards[|s.hist|], k);
        }
      case Drop(t, g) => GuardsAtRemove(s.guards, g, k);
      case HandOver(_, g, _) => GuardsAtChange(s.guards, g, s'.guards[g], k);
      case Leak(_, g) => GuardsAtChange(s.guards, g, s'.guards[g], k);
      case PushSlot(t) =>
        if k == |s.counters| {
          assert GuardsAt(s.guards, k) == {};
          forall u | 0 <= u < |s.pc| ensures !Tries(s.pc[u], k) {
            assert ReaderState(s, u);
          }
          assert Attempts(s.pc, k) == {};
        }
      case _ =>
    }
  }

  lemma ZeroMeansNoGuard<S, O, R>(s: State<S, O, R>, g: Gid)
    requires Conserved(s) && g in s.guards && s.guards[g].slot < |s.counters|
    ensures s.counters[s.guards[g].slot] >= 1
  {
    assert g in GuardsAt(s.guards, s.guards[g].slot);
  }

  /** Scans start at the first counter and pass after the last; only then is the section entered. */
  lemma ScanMoves<S, O, R>(obj: Object<S, O, R>, s: State<S, O, R>, st: Step<S, O>)
    requires Enabled(s, st) && !st.LoadCounter?
    ensures var s' := Do(obj, s, st); var p, p' := s.pc[st.t], s'.pc[st.t];
            && (p'.Scan? ==> p' == p || p'.i == 0)
            && (p'.Pass? ==> p.Pass? || (p.Scan? && p.i >= |s.counters|))
            && (st.t in s'.secs ==> st.t in s.secs || p.Pass?)
  {
  }

  /** What Quiet says of one thread. */
  ghost predicate QuietFor<S, O, R>(s: State<S, O, R>, t: Tid)
    requires t < |s.pc|
  {
    && (s.pc[t].Scan? ==> forall g :: g in s.guards ==> s.pc[t].i <= s.guards[g].slot)
    && (s.pc[t].Pass? || t in s.secs ==> s.guards == map[])
  }

  /** The thread of a step that leaves the guards alone: scanning on, it has seen a counter at zero. */
  lemma QuietOwn<S, O, R>(obj: Object<S, O, R>, s: State<S, O, R>, st: Step<S, O>)
    requires GuardsKnown(s) && Conserved(s) && Enabled(s, st) && QuietFor(s, st.t)
    requires Do(obj, s, st).guards == s.guards && |Do(obj, s, st).pc| == |s.pc|
    ensures QuietFor(Do(obj, s, st), st.t)
  {
    if st.LoadCounter? {
      forall g | g in s.guards && s.guards[g].slot == s.pc[st.t].i ensures s.counters[s.pc[st.t].i] != 0 {
        ZeroMeansNoGuard(s, g);
      }
    } else {
      ScanMoves(obj, s, st);
      if s.pc[st.t].Scan? && s.pc[st.t].i >= |s.counters| {
        assert forall g :: g !in s.guards;
      }
    }
  }

  /** A grant happens while nobody scans or is in a section. */
  lemma QuietGrant<S, O, R>(obj: Object<S, O, R>, s: State<S, O, R>, st: Step<S, O>)
    requires Locks(s) && Enabled(s, st) && st.LoadFlag? && !s.writing
    ensures Quiet(Do(obj, s, st))
  {
    WriteHolder(s);
  }

  /** Releasing a guard, or passing it on, adds none to any slot. */
  lemma QuietGuards<S, O, R>(obj: Object<S, O, R>, s: State<S, O, R>, st: Step<S, O>)
    requires Quiet(s) && Enabled(s, st) && (st.Drop? || st.HandOver? || st.Leak?)
    ensures Quiet(Do(obj, s, st))
  {
    var s' := Do(obj, s, st);
    assert s'.pc == s.pc && s'.secs == s.secs && s'.guards.Keys <= s.guards.Keys;
    assert forall g :: g in s'.guards ==> s'.guards[g].slot == s.guards[g].slot;
  }

  lemma QuietFrame<S, O, R>(s: State<S, O, R>, s': State<S, O, R>, t: Tid)
    requires Quiet(s) && t < |s.pc| && Local(s, s', t) && s'.guards == s.guards && QuietFor(s', t)
    ensures Quiet(s')
  {
    forall u, g | 0 <= u < |s'.pc| && s'.pc[u].Scan? && g in s'.guards ensures s'.pc[u].i <= s'.guards[g].slot {
      if u != t {
        OtherThread(s, s', t, u);
      }
    }
    forall u | 0 <= u < |s'.pc| && (s'.pc[u].Pass? || u in s'.secs) ensures s'.guards == map[] {
      if u != t {
        OtherThread(s, s', t, u);
      }
    }
  }

  lemma QuietStep<S, O, R>(obj: Object<S, O, R>, s: State<S, O, R>, st: Step<S, O>)
    requires Locks(s) && Slots(s) && Conserved(s) && Quiet(s) && Enabled(s, st)
    ensures Quiet(Do(obj, s, st))
  {
    if st.LoadFlag? && !s.writing {
      QuietGrant(obj, s, st);
    } else if st.Drop? || st.HandOver? || st.Leak? {
      QuietGuards(obj, s, st);
    } else {
      GuardsStay(obj, s, st);
      LocalStep(obj, s, st);
      QuietOwn(obj, s, st);
      QuietFrame(s, Do(obj, s, st), st.t);
    }
  }

  /** Steps that touch neither the contents nor the history and grant no guard. */
  lemma ExplainedFrame<S, O, R>(obj: Object<S, O, R>, s: State<S, O, R>, s': State<S, O, R>)
    requires Explained(obj, s)
    requires s'.hist == s.hist && s'.content == s.content && s'.secs == s.secs
    requires s'.guards.Keys <= s.guards.Keys
    ensures Explained(obj, s')
  {
    forall t | t in s'.secs ensures Settled(s', t) == Settled(s, t) {
    }
  }

  lemma NoSection<S, O, R>(s: State<S, O, R>)
    requires WriteMutex(s) && FlagUp(s) && !s.writing
    ensures s.secs == map[]
  {
    forall t | t in s.secs ensures false {
      SectionAlone(s, t);
    }
  }

  /** A read is granted on the state of the history. */
  lemma ExplainedGrant<S, O, R>(obj: Object<S, O, R>, s: State<S, O, R>, st: Step<S, O>)
    requires Explained(obj, s) && s.secs == map[] && Enabled(s, st) && st.LoadFlag? && !s.writing
    ensures Explained(obj, Do(obj, s, st))
  {
    AfterSnoc(obj, s.hist, Read(st.t));
    MoreReads(obj, s, Do(obj, s, st), st.t);
  }

  lemma MoreReads<S, O, R>(obj: Object<S, O, R>, s: State<S, O, R>, s': State<S, O, R>, t: Tid)
    requires Explained(obj, s) && s.secs == map[]
    requires s'.secs == map[] && s'.content == s.content && s'.hist == s.hist + [Read(t)]
    requires s'.guards.Keys <= s.guards.Keys + {|s.hist|}
    requires Legal(obj, s'.hist) && After(obj, s'.hist) == After(obj, s.hist)
    ensures Explained(obj, s')
  {
    forall g, j | g in s'.guards && g <= j < |s'.hist| ensures s'.hist[j].Read? {
      if j < |s.hist| {
        assert g in s.guards && s.hist[j].Read?;
      }
    }
  }

  lemma ExplainedEnter<S, O, R>(obj: Object<S, O, R>, s: State<S, O, R>, st: Step<S, O>)
    requires Inv(obj, s) && Enabled(s, st) && st.Enter?
    ensures Explained(obj, Do(obj, s, st))
  {
    assert WriterState(s, st.t);
    forall u | u in s.secs ensures false {
      SectionAlone(s, u);
    }
    assert s.secs == map[];
  }

  lemma ExplainedTear<S, O, R>(obj: Object<S, O, R>, s: State<S, O, R>, st: Step<S, O>)
    requires Inv(obj, s) && Enabled(s, st) && (st.BeginOp? || st.Tear?)
    ensures Explained(obj, Do(obj, s, st))
  {
    var t, s' := st.t, Do(obj, s, st);
    SectionAlone(s, t);
    assert Settled(s', t) == Settled(s, t) && s'.secs[t].log == s.secs[t].log;
    assert s'.secs.Keys == {t};
  }

  lemma ExplainedEndOp<S, O, R>(obj: Object<S, O, R>, s: State<S, O, R>, st: Step<S, O>)
    requires Inv(obj, s) && Enabled(s, st) && st.EndOp?
    ensures Explained(obj, Do(obj, s, st))
  {
    var t, s' := st.t, Do(obj, s, st);
    SectionAlone(s, t);
    var (o, base) := s.secs[t].pending.value;
    assert Settled(s, t) == base;
    ReplaySnoc(obj, After(obj, s.hist), s.secs[t].log, Done(o, obj.apply(o, base).1));
    assert s'.secs.Keys == {t};
  }

  lemma ExplainedCommit<S, O, R>(obj: Object<S, O, R>, s: State<S, O, R>, st: Step<S, O>)
    requires Inv(obj, s) && Enabled(s, st) && st.StoreFalse?
    ensures Explained(obj, Do(obj, s, st))
  {
    assert WriterState(s, st.t);
    AfterSnoc(obj, s.hist, Write(st.t, s.secs[st.t].log));
    SectionAlone(s, st.t);
  }

  lemma ExplainedStep<S, O, R>(obj: Object<S, O, R>, s: State<S, O, R>, st: Step<S, O>)
    requires Inv(obj, s) && Enabled(s, st)
    ensures Explained(obj, Do(obj, s, st))
  {
    if st.LoadFlag? && !s.writing {
      NoSection(s);
      ExplainedGrant(obj, s, st);
    } else if st.Enter? {
      ExplainedEnter(obj, s, st);
    } else if st.BeginOp? || st.Tear? {
      ExplainedTear(obj, s, st);
    } else if st.EndOp? {
      ExplainedEndOp(obj, s, st);
    } else if st.StoreFalse? {
      ExplainedCommit(obj, s, st);
    } else {
      ExplainedFrame(obj, s, Do(obj, s, st));
    }
  }

  lemma InvStep<S, O, R>(obj: Object<S, O, R>, s: State<S, O, R>, st: Step<S, O>)
    requires Inv(obj, s) && Enabled(s, st)
    ensures Inv(obj, Do(obj, s, st))
  {
    RegMutexStep(obj, s, st);
    WriteMutexStep(obj, s, st);
    FlagUpStep(obj, s, st);
    OwnSlotsStep(obj, s, st);
    GuardsKnownStep(obj, s, st);
    ConservedStep(obj, s, st);
    QuietStep(obj, s, st);
    ExplainedStep(obj, s, st);
  }

  lemma {:induction false} InvRun<S, O, R>(obj: Object<S, O, R>, s: State<S, O, R>, steps: seq<Step<S, O>>)
    requires Inv(obj, s) && Runs(obj, s, steps)
    ensures Inv(obj, Exec(obj, s, steps))
    decreases |steps|
  {
    if steps == [] {
    } else {
      InvStep(obj, s, steps[0]);
      InvRun(obj, Do(obj, s, steps[0]), steps[1..]);
    }
  }

  lemma InvStart<S, O, R>(obj: Object<S, O, R>, n: nat)
    ensures Inv(obj, Start(obj, n))
  {
  }
}
