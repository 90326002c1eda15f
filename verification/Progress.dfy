/**
 Progress. If no thread starts a call while it holds a guard, and guards are eventually dropped,
 every reachable state can complete all pending calls within an explicit number of steps. No
 unconditional statement holds: retrying readers can make every scan fail.
 */
module Progress {
  import opened Sequential
  import opened Protocol

  // ---------------------------------------------------------------- the discipline

  /** No call on the container by a thread that holds a guard or the WriteLock of it; no leaks. */
  ghost predicate Careful<S, O, R>(s: State<S, O, R>, st: Step<S, O>) {
    && (st.CallRead? || st.CallWrite? ==>
          st.t !in s.secs && forall g :: g in s.guards ==> s.guards[g].owner != st.t)
    && !st.Leak?
  }

  ghost predicate CarefulRun<S, O, R>(obj: Object<S, O, R>, s: State<S, O, R>, steps: seq<Step<S, O>>)
    requires Runs(obj, s, steps)
    decreases |steps|
  {
    steps == [] || (Careful(s, steps[0]) && CarefulRun(obj, Do(obj, s, steps[0]), steps[1..]))
  }

  /** What the discipline keeps: whoever could release something is in its own code. */
  ghost predicate Free<S, O, R>(s: State<S, O, R>) {
    && (forall g :: g in s.guards ==> !s.guards[g].leaked && At(s, s.guards[g].owner, User))
    && (forall t :: t in s.secs ==> t < |s.pc| && (s.pc[t].User? || s.pc[t].Clear?))
  }

  ghost predicate FreeGuard<S, O, R>(s: State<S, O, R>, g: Gid)
    requires g in s.guards
  {
    !s.guards[g].leaked && At(s, s.guards[g].owner, User)
  }

  lemma FreeGuardStep<S, O, R>(obj: Object<S, O, R>, s: State<S, O, R>, st: Step<S, O>, g: Gid)
    requires Quiet(s) && Enabled(s, st) && Careful(s, st) && g in Do(obj, s, st).guards
    requires g in s.guards ==> FreeGuard(s, g)
    ensures FreeGuard(Do(obj, s, st), g)
  {
    if (st.LoadFlag? && !s.writing) || st.Drop? || st.HandOver? {
    } else {
      GuardsStay(obj, s, st);
      StaysHome(obj, s, st, s.guards[g].owner);
    }
  }

  /** The owner of a guard is still in its own code after a careful step. */
  lemma StaysHome<S, O, R>(obj: Object<S, O, R>, s: State<S, O, R>, st: Step<S, O>, t: Tid)
    requires Enabled(s, st) && At(s, t, User) && (st.CallRead? || st.CallWrite? ==> st.t != t)
    requires st.t == t ==> t !in s.secs
    ensures At(Do(obj, s, st), t, User)
  {
    LocalPc(obj, s, st);
  }

  lemma FreeSectionStep<S, O, R>(obj: Object<S, O, R>, s: State<S, O, R>, st: Step<S, O>, t: Tid)
    requires Free(s) && Enabled(s, st) && Careful(s, st) && t in Do(obj, s, st).secs
    ensures var s' := Do(obj, s, st); t < |s'.pc| && (s'.pc[t].User? || s'.pc[t].Clear?)
  {
    if t != st.t {
      LocalStep(obj, s, st);
      OtherThread(s, Do(obj, s, st), st.t, t);
    }
  }

  lemma FreeStep<S, O, R>(obj: Object<S, O, R>, s: State<S, O, R>, st: Step<S, O>)
    requires Free(s) && Quiet(s) && Enabled(s, st) && Careful(s, st)
    ensures Free(Do(obj, s, st))
  {
    var s' := Do(obj, s, st);
    forall g | g in s'.guards ensures FreeGuard(s', g) {
      FreeGuardStep(obj, s, st, g);
    }
    forall t | t in s'.secs ensures t < |s'.pc| && (s'.pc[t].User? || s'.pc[t].Clear?) {
      FreeSectionStep(obj, s, st, t);
    }
  }

  lemma {:induction false} FreeRun<S, O, R>(obj: Object<S, O, R>, s: State<S, O, R>, steps: seq<Step<S, O>>)
    requires Inv(obj, s) && Free(s) && Runs(obj, s, steps) && CarefulRun(obj, s, steps)
    ensures Free(Exec(obj, s, steps))
    decreases |steps|
  {
    if steps == [] {
    } else {
      FreeStep(obj, s, steps[0]);
      InvStep(obj, s, steps[0]);
      FreeRun(obj, Do(obj, s, steps[0]), steps[1..]);
    }
  }

  // ---------------------------------------------------------------- the measure

  ghost function Registering(pc: seq<Pc>): set<Tid> {
    set t | 0 <= t < |pc| && (pc[t].RegLock? || pc[t].RegPush?)
  }

  /** A bound on the registry that registering does not raise: counters now plus counters to come. */
  ghost function Room<S, O, R>(s: State<S, O, R>): nat {
    |s.counters| + |Registering(s.pc)|
  }

  /** How many steps thread `t` is from its own code, with a registry of `room` at most. */
  function Rank<S, O, R>(s: State<S, O, R>, room: nat, t: Tid): nat
    requires t < |s.pc|
  {
    match s.pc[t]
    case User => if t !in s.secs then 0 else if s.secs[t].pending.Some? then 4 else 3
    case Check(_) => if s.writing then 5 else 2
    case Inc(_) => 3
    case RegFree(_) => 4
    case Undo(_) => 4
    case RegPush => 5
    case RegLock => 6
    case Unlock => 1
    case Clear => 2
    case Pass => 5
    case Scan(i) => 6 + if i <= room then room - i else 0
    case ScanLock => room + 7
    case Fail => room + 8
    case Raise => room + 9
    case WLock => room + 10
  }

  function Ranks<S, O, R>(s: State<S, O, R>, room: nat, n: nat): nat
    requires n <= |s.pc|
  {
    if n == 0 then 0 else Ranks(s, room, n - 1) + Rank(s, room, n - 1)
  }

  /** Steps that suffice: one for each live guard, and for each thread its rank. */
  ghost function Measure<S, O, R>(s: State<S, O, R>): nat {
    |s.guards| + Ranks(s, Room(s), |s.pc|)
  }

  lemma {:induction false} RanksDrop<S, O, R>(s: State<S, O, R>, s': State<S, O, R>, room: nat, n: nat, t: Tid, d: nat)
    requires n <= |s.pc| == |s'.pc|
    requires forall u :: 0 <= u < n && u != t ==> Rank(s', room, u) <= Rank(s, room, u)
    requires t < n ==> Rank(s', room, t) + d <= Rank(s, room, t)
    ensures Ranks(s', room, n) + (if t < n then d else 0) <= Ranks(s, room, n)
  {
    if n == 0 {
    } else {
      RanksDrop(s, s', room, n - 1, t, d);
    }
  }

  lemma SameRoom<S, O, R>(obj: Object<S, O, R>, s: State<S, O, R>, st: Step<S, O>)
    requires Enabled(s, st) && !st.CallRead?
    ensures Room(Do(obj, s, st)) == Room(s)
  {
    var s' := Do(obj, s, st);
    LocalPc(obj, s, st);
    SlotStep(obj, s, st);
    if st.PushSlot? {
      assert Registering(s'.pc) == Registering(s.pc) - {st.t};
      assert st.t in Registering(s.pc);
    } else {
      StaysRegistering(obj, s, st);
      assert Registering(s'.pc) == Registering(s.pc);
    }
  }

  lemma StaysRegistering<S, O, R>(obj: Object<S, O, R>, s: State<S, O, R>, st: Step<S, O>)
    requires Enabled(s, st) && !st.CallRead? && !st.PushSlot?
    ensures var p, p' := s.pc[st.t], Do(obj, s, st).pc[st.t];
            p'.RegLock? || p'.RegPush? <==> p.RegLock? || p.RegPush?
  {
  }

  /** A step changes the rank of another thread only by raising the flag. */
  lemma OthersKeepRank<S, O, R>(obj: Object<S, O, R>, s: State<S, O, R>, st: Step<S, O>, room: nat, u: Tid)
    requires Enabled(s, st) && u < |s.pc| && u != st.t
    requires (Do(obj, s, st).writing ==> s.writing) || !s.pc[u].Check?
    ensures Rank(Do(obj, s, st), room, u) <= Rank(s, room, u)
  {
    LocalStep(obj, s, st);
    RankElsewhere(s, Do(obj, s, st), st.t, room, u);
  }

  lemma RankElsewhere<S, O, R>(s: State<S, O, R>, s': State<S, O, R>, t: Tid, room: nat, u: Tid)
    requires t < |s.pc| && Local(s, s', t) && u < |s.pc| && u != t
    requires (s'.writing ==> s.writing) || !s.pc[u].Check?
    ensures Rank(s', room, u) <= Rank(s, room, u)
  {
    OtherThread(s, s', t, u);
  }

  /** A step that lowers the rank of its thread by more than the guards it adds lowers the measure. */
  lemma Lowers<S, O, R>(obj: Object<S, O, R>, s: State<S, O, R>, st: Step<S, O>, d: nat)
    requires Enabled(s, st) && !st.CallRead?
    requires var s' := Do(obj, s, st);
             && ((s'.writing ==> s.writing) || forall u :: 0 <= u < |s.pc| ==> !s.pc[u].Check?)
             && Rank(s', Room(s), st.t) + d <= Rank(s, Room(s), st.t)
             && |s'.guards| < |s.guards| + d
    ensures Measure(Do(obj, s, st)) < Measure(s)
  {
    SameRoom(obj, s, st);
    forall u | 0 <= u < |s.pc| && u != st.t
      ensures Rank(Do(obj, s, st), Room(s), u) <= Rank(s, Room(s), u)
    {
      OthersKeepRank(obj, s, st, Room(s), u);
    }
    RanksDrop(s, Do(obj, s, st), Room(s), |s.pc|, st.t, d);
  }

  // ---------------------------------------------------------------- the registry mutex

  /** How many steps the holder of the registry mutex needs to release it. */
  function Hold(p: Pc, counters: nat): nat {
    match p
    case RegPush => 2
    case Scan(i) => 2 + if i <= counters then counters - i else 0
    case _ => 1
  }

  /** The next step of the holder, by which it comes closer to the release. */
  lemma RegistryHolderMoves<S, O, R>(obj: Object<S, O, R>, s: State<S, O, R>, t: Tid) returns (st: Step<S, O>)
    requires RegMutex(s) && s.reg == Some(t)
    ensures t < |s.pc| && !s.pc[t].WLock? && st.t == t && Enabled(s, st)
    ensures var s' := Do(obj, s, st);
            s'.reg.Some? ==> s'.reg == s.reg && Hold(s'.pc[t], |s'.counters|) < Hold(s.pc[t], |s.counters|)
    ensures Do(obj, s, st).reg.None? ==> Hold(s.pc[t], |s.counters|) >= 1
  {
    assert HoldsReg(s.pc[t]);
    match s.pc[t]
    case RegPush => st := PushSlot(t);
    case RegFree(_) => st := FreeReg(t);
    case Fail => st := FreeFail(t);
    case Pass => st := Enter(t);
    case Scan(i) => st := if i < |s.counters| then LoadCounter(t) else EndScan(t);
  }

  /**
   The two mutexes cannot form a cycle: in every state, with guards live and attempts under way, the
   holder of the registry mutex releases it by steps of its own, no more than one for each
   counter and two, whatever the holder of the write mutex does or does not do.
   */
  lemma {:induction false} RegistryReleased<S, O, R>(obj: Object<S, O, R>, s: State<S, O, R>, t: Tid)
    returns (steps: seq<Step<S, O>>)
    requires RegMutex(s) && s.reg == Some(t)
    ensures Runs(obj, s, steps) && Exec(obj, s, steps).reg.None?
    ensures forall st :: st in steps ==> st.t == t
    ensures t < |s.pc| && |steps| <= Hold(s.pc[t], |s.counters|) <= |s.counters| + 2
    decreases if t < |s.pc| then Hold(s.pc[t], |s.counters|) else 0
  {
    var st := RegistryHolderMoves(obj, s, t);
    var s' := Do(obj, s, st);
    RegMutexStep(obj, s, st);
    var rest := [];
    if s'.reg.Some? {
      rest := RegistryReleased(obj, s', t);
    }
    steps := [st] + rest;
    RunsCons(obj, s, st, s', rest);
  }

  // ---------------------------------------------------------------- a schedule

  ghost predicate Idle<S, O, R>(s: State<S, O, R>) {
    s.guards == map[] && s.secs == map[] && forall t :: 0 <= t < |s.pc| ==> s.pc[t].User?
  }

  /** The step starts no call, hands nothing over, leaks nothing and raises no flag while a guard is live. */
  ghost predicate Gentle<S, O, R>(s: State<S, O, R>, st: Step<S, O>) {
    NoCall(st) && !st.Leak? && (st.StoreTrue? ==> s.guards == map[])
  }

  predicate NoCall<S, O>(st: Step<S, O>) { !st.CallRead? && !st.CallWrite? && !st.HandOver? }

  /** Step `st` is allowed and brings the state closer to completion. */
  ghost predicate Advances<S, O, R>(obj: Object<S, O, R>, s: State<S, O, R>, st: Step<S, O>) {
    Gentle(s, st) && Enabled(s, st) && Measure(Do(obj, s, st)) < Measure(s)
  }

  lemma DropAGuard<S, O, R>(obj: Object<S, O, R>, s: State<S, O, R>, g: Gid)
    requires GuardsKnown(s) && g in s.guards && Holds(s, s.guards[g].owner, g)
    ensures Advances(obj, s, Drop(s.guards[g].owner, g))
  {
    var st := Drop(s.guards[g].owner, g);
    assert (s.guards - {g}).Keys == s.guards.Keys - {g};
    assert |s.guards.Keys - {g}| < |s.guards.Keys|;
    Lowers(obj, s, st, 0);
  }

  /** The next step of a thread in its own code towards the drop of its WriteLock. */
  function Leaving<S, O, R>(s: State<S, O, R>, t: Tid): Step<S, O>
    requires t in s.secs
  {
    if s.secs[t].pending.Some? then EndOp(t) else Release(t)
  }

  lemma LeaveSection<S, O, R>(obj: Object<S, O, R>, s: State<S, O, R>, st: Step<S, O>)
    requires Enabled(s, st) && (st.EndOp? || st.Release?)
    ensures Advances(obj, s, st)
  {
    var s' := Do(obj, s, st);
    assert Rank(s', Room(s), st.t) + 1 <= Rank(s, Room(s), st.t);
    assert s'.guards == s.guards;
    Lowers(obj, s, st, 1);
  }

  /** At an instruction that waits for nothing, of an attempt, a registration or the drop of a WriteLock. */
  predicate Quick(p: Pc) { p.Check? || p.Undo? || p.RegPush? || p.RegFree? || p.Clear? || p.Unlock? }

  lemma QuickStep<S, O, R>(obj: Object<S, O, R>, s: State<S, O, R>, t: Tid) returns (st: Step<S, O>)
    requires Inv(obj, s) && t < |s.pc| && Quick(s.pc[t])
    ensures st.t == t && Advances(obj, s, st)
  {
    assert ReaderState(s, t) && WriterState(s, t);
    if s.pc[t].Check? || s.pc[t].Undo? {
      if t in s.secs {
        SectionAlone(s, t);
      }
      st := FinishAttempt(obj, s, t);
    } else if s.pc[t].RegPush? || s.pc[t].RegFree? {
      st := Register(obj, s, t);
    } else {
      st := LetGo(obj, s, t);
    }
  }

  lemma FinishAttempt<S, O, R>(obj: Object<S, O, R>, s: State<S, O, R>, t: Tid) returns (st: Step<S, O>)
    requires ReaderSlot(s, t) && GuardsKnown(s) && (t in s.secs ==> s.writing) && (s.pc[t].Check? || s.pc[t].Undo?)
    ensures st.t == t && Advances(obj, s, st)
  {
    st := if s.pc[t].Check? then LoadFlag(t, false) else Retract(t);
    if st.LoadFlag? && !s.writing {
      assert |s.hist| !in s.guards;
      Lowers(obj, s, st, 2);
    } else {
      Lowers(obj, s, st, 1);
    }
  }

  ghost predicate ReaderSlot<S, O, R>(s: State<S, O, R>, t: Tid) {
    t < |s.pc| && (UsesSlot(s.pc[t]) ==> s.pc[t].k < |s.counters|)
  }

  lemma Register<S, O, R>(obj: Object<S, O, R>, s: State<S, O, R>, t: Tid) returns (st: Step<S, O>)
    requires t < |s.pc| && (s.pc[t].RegPush? || s.pc[t].RegFree?)
    ensures st.t == t && Advances(obj, s, st)
  {
    st := if s.pc[t].RegPush? then PushSlot(t) else FreeReg(t);
    Lowers(obj, s, st, 1);
  }

  lemma LetGo<S, O, R>(obj: Object<S, O, R>, s: State<S, O, R>, t: Tid) returns (st: Step<S, O>)
    requires t < |s.pc| && WriterState(s, t) && (s.pc[t].Clear? || s.pc[t].Unlock?)
    ensures st.t == t && Advances(obj, s, st)
  {
    st := if s.pc[t].Clear? then StoreFalse(t) else UnlockWrite(t);
    Lowers(obj, s, st, 1);
  }

  /** Nothing in the way: no flag of a reader, no guard of a writer, no holder of the write mutex. */
  predicate Unhindered<S, O, R>(s: State<S, O, R>, t: Tid) {
    t < |s.pc| &&
    match s.pc[t]
    case RegLock => !s.writing
    case Inc(_) => !s.writing
    case WLock => s.write.None?
    case Raise => s.guards == map[]
    case ScanLock => s.guards == map[]
    case Scan(_) => s.guards == map[]
    case Fail => s.guards == map[]
    case Pass => s.guards == map[]
    case _ => false
  }

  lemma NextStep<S, O, R>(obj: Object<S, O, R>, s: State<S, O, R>, t: Tid) returns (st: Step<S, O>)
    requires Inv(obj, s) && Unhindered(s, t)
    requires forall u :: 0 <= u < |s.pc| ==> !Quick(s.pc[u])
    ensures st.t == t && Advances(obj, s, st)
  {
    assert ReaderState(s, t) && WriterState(s, t);
    RegistryIsFree(obj, s, t);
    if s.pc[t].Scan? {
      st := FinishScan(obj, s, t);
    } else if s.pc[t].RegLock? || s.pc[t].Inc? || s.pc[t].WLock? {
      st := ReaderOrLock(obj, s, t);
    } else {
      st := WriterMoves(obj, s, t);
    }
  }

  /** Nobody else has the registry mutex when a reader without a flag, or the writer, wants it. */
  lemma RegistryIsFree<S, O, R>(obj: Object<S, O, R>, s: State<S, O, R>, t: Tid)
    requires Inv(obj, s) && Unhindered(s, t)
    requires forall u :: 0 <= u < |s.pc| ==> !Quick(s.pc[u])
    ensures s.pc[t].RegLock? || s.pc[t].ScanLock? ==> s.reg.None?
  {
    WriteHolder(s);
    if s.reg.Some? {
      assert HoldsReg(s.pc[s.reg.value]);
    }
  }

  lemma ReaderOrLock<S, O, R>(obj: Object<S, O, R>, s: State<S, O, R>, t: Tid) returns (st: Step<S, O>)
    requires Unhindered(s, t) && ReaderSlot(s, t) && WriterState(s, t)
    requires (s.pc[t].RegLock? || s.pc[t].Inc? || s.pc[t].WLock?)
    requires s.pc[t].RegLock? ==> s.reg.None?
    ensures st.t == t && Advances(obj, s, st)
  {
    st := if s.pc[t].RegLock? then LockReg(t) else if s.pc[t].Inc? then FetchAdd(t) else LockWrite(t);
    Lowers(obj, s, st, 1);
  }

  lemma WriterMoves<S, O, R>(obj: Object<S, O, R>, s: State<S, O, R>, t: Tid) returns (st: Step<S, O>)
    requires t < |s.pc| && s.guards == map[] && WriterState(s, t)
    requires s.pc[t].Raise? || (s.pc[t].ScanLock? && s.reg.None?) || s.pc[t].Fail? || s.pc[t].Pass?
    requires forall u :: 0 <= u < |s.pc| ==> !s.pc[u].Check?
    ensures st.t == t && Advances(obj, s, st)
  {
    st := if s.pc[t].Raise? then StoreTrue(t) else if s.pc[t].ScanLock? then LockScan(t)
          else if s.pc[t].Fail? then FreeFail(t) else Enter(t);
    Lowers(obj, s, st, 1);
  }

  /** With no guard and no attempt the scan goes through. */
  lemma FinishScan<S, O, R>(obj: Object<S, O, R>, s: State<S, O, R>, t: Tid) returns (st: Step<S, O>)
    requires Conserved(s) && t < |s.pc| && s.pc[t].Scan? && s.guards == map[]
    requires forall u :: 0 <= u < |s.pc| ==> !s.pc[u].Check? && !s.pc[u].Undo?
    ensures st.t == t && Advances(obj, s, st)
  {
    var i := s.pc[t].i;
    if i < |s.counters| {
      st := LoadCounter(t);
      assert GuardsAt(s.guards, i) == {};
      assert Attempts(s.pc, i) == {};
      assert s.counters[i] == 0;
    } else {
      st := EndScan(t);
    }
    Lowers(obj, s, st, 1);
  }

  /** Unless everything is done, some allowed step brings completion closer. */
  lemma Advance<S, O, R>(obj: Object<S, O, R>, s: State<S, O, R>) returns (st: Step<S, O>)
    requires Inv(obj, s) && Free(s) && !Idle(s)
    ensures Advances(obj, s, st)
  {
    if g :| g in s.guards {
      st := Drop(s.guards[g].owner, g);
      DropAGuard(obj, s, g);
    } else if t :| t in s.secs && s.pc[t].User? {
      st := Leaving(s, t);
      LeaveSection(obj, s, st);
    } else if t :| 0 <= t < |s.pc| && Quick(s.pc[t]) {
      st := QuickStep(obj, s, t);
    } else {
      assert s.guards == map[] && s.secs == map[];
      var t := SomebodyUnhindered(obj, s);
      st := NextStep(obj, s, t);
    }
  }

  lemma SomebodyUnhindered<S, O, R>(obj: Object<S, O, R>, s: State<S, O, R>) returns (t: Tid)
    requires Inv(obj, s) && !Idle(s) && s.guards == map[] && s.secs == map[]
    requires forall u :: 0 <= u < |s.pc| ==> !Quick(s.pc[u])
    ensures Unhindered(s, t)
  {
    WriteHolder(s);
    if s.write.Some? {
      t := s.write.value;
    } else {
      t :| 0 <= t < |s.pc| && !s.pc[t].User?;
    }
  }

  /**
   From a state in which everybody who holds something is in its own code, some careful
   schedule of at most Measure(s) steps completes every pending call and drops every guard.
   */
  lemma {:induction false} Complete<S, O, R>(obj: Object<S, O, R>, s: State<S, O, R>) returns (steps: seq<Step<S, O>>)
    requires Inv(obj, s) && Free(s)
    ensures Runs(obj, s, steps) && CarefulRun(obj, s, steps) && Idle(Exec(obj, s, steps))
    ensures |steps| <= Measure(s)
    ensures forall st :: st in steps ==> NoCall(st)
    decreases Measure(s)
  {
    if Idle(s) {
      steps := [];
    } else {
      var st := Advance(obj, s);
      InvStep(obj, s, st);
      FreeStep(obj, s, st);
      var rest := Complete(obj, Do(obj, s, st));
      steps := [st] + rest;
      assert steps[1..] == rest;
    }
  }

  /** Deadlock freedom under the discipline: every state a careful run reaches can be completed. */
  lemma CarefulRunsComplete<S, O, R>(obj: Object<S, O, R>, n: nat, sofar: seq<Step<S, O>>)
    returns (steps: seq<Step<S, O>>)
    requires Runs(obj, Start(obj, n), sofar) && CarefulRun(obj, Start(obj, n), sofar)
    ensures var s := Exec(obj, Start(obj, n), sofar);
            Runs(obj, s, steps) && CarefulRun(obj, s, steps) && Idle(Exec(obj, s, steps)) && |steps| <= Measure(s)
  {
    InvStart(obj, n);
    InvRun(obj, Start(obj, n), sofar);
    FreeRun(obj, Start(obj, n), sofar);
    steps := Complete(obj, Exec(obj, Start(obj, n), sofar));
  }

  // ---------------------------------------------------------------- without a choice of schedule

  /** No guard is live and no thread is in begin_read. */
  ghost predicate Calm<S, O, R>(s: State<S, O, R>) {
    s.guards == map[] && forall u :: 0 <= u < |s.pc| ==> !InRead(s.pc[u])
  }

  /** So it is at every moment of the run. */
  ghost predicate CalmRun<S, O, R>(obj: Object<S, O, R>, s: State<S, O, R>, steps: seq<Step<S, O>>)
    requires Runs(obj, s, steps)
    decreases |steps|
  {
    Calm(s) && (steps == [] || CalmRun(obj, Do(obj, s, steps[0]), steps[1..]))
  }

  /** How many of the steps are steps of `w`. */
  function StepsBy<S, O>(steps: seq<Step<S, O>>, w: Tid): nat {
    if steps == [] then 0 else (if steps[0].t == w then 1 else 0) + StepsBy(steps[1..], w)
  }

  /** In begin_write, past the lock of the write mutex. */
  predicate PastLock(p: Pc) { InWrite(p) && !p.WLock? }

  /** How many steps of its own a writer needs until it returns. */
  function Left(p: Pc, counters: nat): nat
    requires PastLock(p)
  {
    match p
    case Raise => counters + 5
    case Fail => counters + 5
    case ScanLock => counters + 4
    case Scan(i) => 3 + if i <= counters then counters - i else 0
    case Pass => 1
  }

  lemma AllAtZero<S, O, R>(s: State<S, O, R>, i: nat)
    requires Conserved(s) && Calm(s) && i < |s.counters|
    ensures s.counters[i] == 0
  {
    assert GuardsAt(s.guards, i) == {};
    assert Attempts(s.pc, i) == {};
  }

  lemma OwnScanStep<S, O, R>(obj: Object<S, O, R>, s: State<S, O, R>, st: Step<S, O>)
    requires Conserved(s) && Calm(s) && Enabled(s, st) && PastLock(s.pc[st.t])
    ensures var s' := Do(obj, s, st);
            if st.Enter? then At(s', st.t, User) && st.t in s'.secs
            else PastLock(s'.pc[st.t]) && Left(s'.pc[st.t], |s.counters|) < Left(s.pc[st.t], |s.counters|)
  {
    if st.LoadCounter? {
      AllAtZero(s, s.pc[st.t].i);
    }
  }

  lemma NoNewCounter<S, O, R>(obj: Object<S, O, R>, s: State<S, O, R>, st: Step<S, O>)
    requires Calm(s) && Enabled(s, st)
    ensures |Do(obj, s, st).counters| == |s.counters|
  {
    SlotStep(obj, s, st);
    assert !InRead(s.pc[st.t]);
  }

  /** One step of anybody, as far as the writer is concerned. */
  lemma CalmStep<S, O, R>(obj: Object<S, O, R>, s: State<S, O, R>, st: Step<S, O>, s': State<S, O, R>, w: Tid)
    requires Conserved(s) && Calm(s) && Enabled(s, st) && s' == Do(obj, s, st) && w < |s.pc| && PastLock(s.pc[w])
    ensures |s'.counters| == |s.counters| && w < |s'.pc|
    ensures if st.t == w && st.Enter? then At(s', w, User) && w in s'.secs
            else PastLock(s'.pc[w])
                 && Left(s'.pc[w], |s.counters|) + (if st.t == w then 1 else 0) <= Left(s.pc[w], |s.counters|)
  {
    LocalPc(obj, s, st);
    NoNewCounter(obj, s, st);
    if st.t == w {
      OwnScanStep(obj, s, st);
    }
  }

  ghost predicate Counting<S, O, R>(s: State<S, O, R>) { Slots(s) && Conserved(s) }

  lemma CountingStep<S, O, R>(obj: Object<S, O, R>, s: State<S, O, R>, st: Step<S, O>)
    requires Counting(s) && Enabled(s, st)
    ensures Counting(Do(obj, s, st))
  {
    OwnSlotsStep(obj, s, st);
    GuardsKnownStep(obj, s, st);
    ConservedStep(obj, s, st);
  }

  lemma Prefixed<S, O, R>(obj: Object<S, O, R>, s: State<S, O, R>, steps: seq<Step<S, O>>, s': State<S, O, R>,
                          rest: seq<Step<S, O>>, b: seq<Step<S, O>>, w: Tid)
    requires steps != [] && steps[1..] == rest + b && Enabled(s, steps[0]) && s' == Do(obj, s, steps[0])
    requires Runs(obj, s', rest)
    ensures steps == ([steps[0]] + rest) + b
    ensures Runs(obj, s, [steps[0]] + rest) && Exec(obj, s, [steps[0]] + rest) == Exec(obj, s', rest)
    ensures StepsBy([steps[0]] + rest, w) == (if steps[0].t == w then 1 else 0) + StepsBy(rest, w)
  {
    RunsCons(obj, s, steps[0], s', rest);
    var a := [steps[0]] + rest;
    assert a[0] == steps[0] && a[1..] == rest;
  }

  /**
   Whatever the schedule: once attempts to read have stopped and guards are dropped, a writer that has
   the write mutex returns after at most counters + 5 steps of its own.
   */
  lemma {:induction false} ScanEndsWithin<S, O, R>(obj: Object<S, O, R>, s: State<S, O, R>, steps: seq<Step<S, O>>,
                                                   w: Tid)
    returns (a: seq<Step<S, O>>, b: seq<Step<S, O>>)
    requires Counting(s) && Runs(obj, s, steps) && CalmRun(obj, s, steps)
    requires w < |s.pc| && PastLock(s.pc[w]) && StepsBy(steps, w) >= Left(s.pc[w], |s.counters|)
    ensures steps == a + b && StepsBy(a, w) <= Left(s.pc[w], |s.counters|) <= |s.counters| + 5
    ensures Runs(obj, s, a) && At(Exec(obj, s, a), w, User) && w in Exec(obj, s, a).secs
    decreases |steps|
  {
    var s' := Do(obj, s, steps[0]);
    CalmStep(obj, s, steps[0], s', w);
    CountingStep(obj, s, steps[0]);
    var rest;
    if steps[0].t == w && steps[0].Enter? {
      rest, b := [], steps[1..];
      assert rest + b == steps[1..];
    } else {
      rest, b := ScanEndsWithin(obj, s', steps[1..], w);
    }
    a := [steps[0]] + rest;
    Prefixed(obj, s, steps, s', rest, b, w);
  }
}
