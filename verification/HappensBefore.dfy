/**
 Data-race freedom. The interleaved protocol is run with causal histories: every thread
 carries the set of accesses to `dirty` that happen before its next instruction, and every
 atomic, mutex and handover passes such sets on as its memory ordering says. The sets are
 what vector clocks encode; the numbers are the positions of the accesses in the run.
 */
module HappensBefore {
  import opened Sequential
  import opened Protocol
  import opened Guarantees

  /** An access to `dirty`, with the accesses that happen before it. */
  datatype Touch =
    | Reading(thread: Tid, before: set<nat>, g: Gid, k: nat)
    | Writing(thread: Tid, before: set<nat>)

  datatype Causal<S, O, R> = Causal(
    p: State<S, O, R>,
    past: seq<set<nat>>,      // per thread: what happens before its next instruction
    cell: seq<set<nat>>,      // per counter: what its release sequence publishes
    flag: set<nat>,           // published by the latest store to `writing`
    wlock: set<nat>,          // published by the latest unlock of `write`
    rlock: set<nat>,          // published by the latest unlock of the registry
    log: seq<Touch>)

  /** One past per thread, one cell per counter. */
  predicate Fits<S, O, R>(c: Causal<S, O, R>) {
    |c.past| == |c.p.pc| && |c.cell| == |c.p.counters|
  }

  predicate CanStep<S, O, R>(c: Causal<S, O, R>, st: Step<S, O>) {
    Fits(c) && Enabled(c.p, st)
  }

  function Acquire(past: seq<set<nat>>, t: Tid, from: set<nat>): seq<set<nat>>
    requires t < |past|
  {
    past[t := past[t] + from]
  }

  /** An access becomes part of the thread's own past. */
  function Record<S, O, R>(c: Causal<S, O, R>, t: Tid, a: Touch): Causal<S, O, R>
    requires t < |c.past|
  {
    c.(past := Acquire(c.past, t, {|c.log|}), log := c.log + [a])
  }

  /**
   Read-modify-writes on a counter extend its release sequence, so its cell only grows. A SeqCst
   one and a load of a counter also acquire; the Release decrement of a dropped guard does not.
   A store to `writing` starts afresh, and mutexes hand over from unlock to lock.
   */
  function Sync<S, O, R>(c: Causal<S, O, R>, st: Step<S, O>): Causal<S, O, R>
    requires CanStep(c, st)
  {
    var t := st.t;
    var mine := c.past[t];
    match st
    case LockReg(_) => c.(past := Acquire(c.past, t, c.rlock))
    case PushSlot(_) => c.(cell := c.cell + [{}])
    case FreeReg(_) => c.(rlock := mine)
    case FetchAdd(_) =>
      var k := c.p.pc[t].k;
      c.(past := Acquire(c.past, t, c.cell[k]), cell := c.cell[k := c.cell[k] + mine])
    case LoadFlag(_, _) => c.(past := Acquire(c.past, t, c.flag))
    case Retract(_) =>
      var k := c.p.pc[t].k;
      c.(past := Acquire(c.past, t, c.cell[k]), cell := c.cell[k := c.cell[k] + mine])
    case Access(_, g) => Record(c, t, Reading(t, mine, g, c.p.guards[g].slot))
    case Drop(_, g) =>
      var k := c.p.guards[g].slot;
      c.(cell := c.cell[k := c.cell[k] + mine])
    case HandOver(_, _, to) => c.(past := Acquire(c.past, to, mine))
    case LockWrite(_) => c.(past := Acquire(c.past, t, c.wlock))
    case StoreTrue(_) => c.(flag := mine)
    case LockScan(_) => c.(past := Acquire(c.past, t, c.rlock))
    case LoadCounter(_) => c.(past := Acquire(c.past, t, c.cell[c.p.pc[t].i]))
    case FreeFail(_) => c.(rlock := mine)
    case Enter(_) => c.(rlock := mine)
    case BeginOp(_, _) => Record(c, t, Writing(t, mine))
    case Tear(_, _) => Record(c, t, Writing(t, mine))
    case EndOp(_) => Record(c, t, Writing(t, mine))
    case StoreFalse(_) => c.(flag := mine)
    case UnlockWrite(_) => c.(wlock := mine)
    case _ => c
  }

  function CDo<S, O, R>(obj: Object<S, O, R>, c: Causal<S, O, R>, st: Step<S, O>): (c': Causal<S, O, R>)
    requires CanStep(c, st)
    ensures Fits(c')
  {
    Sync(c, st).(p := Do(obj, c.p, st))
  }

  function CStart<S, O, R>(obj: Object<S, O, R>, n: nat): (c: Causal<S, O, R>)
    ensures Fits(c)
  {
    Causal(Start(obj, n), seq(n, _ => {}), [], {}, {}, {}, [])
  }

  /** The causal run along `steps`; what it adds never decides which steps are possible. */
  function CExec<S, O, R>(obj: Object<S, O, R>, c: Causal<S, O, R>, steps: seq<Step<S, O>>): (c': Causal<S, O, R>)
    requires Fits(c) && Runs(obj, c.p, steps)
    ensures Fits(c') && c'.p == Exec(obj, c.p, steps)
    decreases |steps|
  {
    if steps == [] then c else CExec(obj, CDo(obj, c, steps[0]), steps[1..])
  }

  // ---------------------------------------------------------------- where past accesses are published

  /** Writes: with the holder of the write mutex, behind a lowered flag, and with every guard owner. */
  ghost predicate WriteKnown<S, O, R>(c: Causal<S, O, R>, e: nat)
    requires Fits(c)
  {
    && (c.p.write.None? ==> e in c.wlock)
    && (c.p.write.Some? && c.p.write.value < |c.past| ==> e in c.past[c.p.write.value])
    && (!c.p.writing ==> e in c.flag)
    && (forall g :: g in c.p.guards && !c.p.guards[g].leaked && c.p.guards[g].owner < |c.past| ==>
          e in c.past[c.p.guards[g].owner])
  }

  /** Thread `w` knows the read if its scan has passed the counter, or all counters. */
  ghost predicate ScannerKnows<S, O, R>(c: Causal<S, O, R>, e: nat, k: nat, w: Tid)
    requires Fits(c) && w < |c.past|
  {
    && (c.p.pc[w].Scan? && k < c.p.pc[w].i ==> e in c.past[w])
    && (c.p.pc[w].Pass? || w in c.p.secs ==> e in c.past[w])
  }

  /** A read through guard `g` of slot `k`: in the counter once the guard is dropped; a scan collects it. */
  ghost predicate Published<S, O, R>(c: Causal<S, O, R>, e: nat, g: Gid, k: nat)
    requires Fits(c)
  {
    && k < |c.cell|
    && g < |c.p.hist|
    && (g in c.p.guards ==> c.p.guards[g].slot == k)
    && (g !in c.p.guards ==> e in c.cell[k])
    && (forall w :: 0 <= w < |c.past| ==> ScannerKnows(c, e, k, w))
  }

  /** Until then the owner of the guard knows it. */
  ghost predicate OwnerKnows<S, O, R>(c: Causal<S, O, R>, e: nat, g: Gid)
    requires Fits(c)
  {
    g in c.p.guards && !c.p.guards[g].leaked && c.p.guards[g].owner < |c.past| ==> e in c.past[c.p.guards[g].owner]
  }

  /** Where access number `e` can be learnt of, whoever made it. */
  ghost predicate Tracked<S, O, R>(c: Causal<S, O, R>, e: nat)
    requires Fits(c) && e < |c.log|
  {
    match c.log[e]
    case Writing(_, _) => WriteKnown(c, e)
    case Reading(_, _, g, k) => Published(c, e, g, k)
  }

  /** And reads are known to the owners of their guards. */
  ghost predicate Known<S, O, R>(c: Causal<S, O, R>, e: nat)
    requires Fits(c) && e < |c.log|
  {
    Tracked(c, e) && (c.log[e].Reading? ==> OwnerKnows(c, e, c.log[e].g))
  }

  predicate Conflict(a: Touch, b: Touch) { a.Writing? || b.Writing? }

  /** Conflicting accesses are ordered by happens-before. */
  ghost predicate RaceFree(log: seq<Touch>) {
    forall d, e :: 0 <= d < e < |log| && Conflict(log[d], log[e]) ==> d in log[e].before
  }

  ghost predicate HInv<S, O, R>(obj: Object<S, O, R>, c: Causal<S, O, R>) {
    && Fits(c)
    && Inv(obj, c.p)
    && RaceFree(c.log)
    && (forall e :: 0 <= e < |c.log| ==> Tracked(c, e))
  }

  ghost predicate CInv<S, O, R>(obj: Object<S, O, R>, c: Causal<S, O, R>) {
    HInv(obj, c) && forall e :: 0 <= e < |c.log| ==> Known(c, e)
  }

  /** A guard is dropped by a thread that knows all reads made through it. */
  ghost predicate DropKnows<S, O, R>(c: Causal<S, O, R>, st: Step<S, O>)
    requires CanStep(c, st)
  {
    st.Drop? ==> forall e :: 0 <= e < |c.log| && c.log[e].Reading? && c.log[e].g == st.g ==> e in c.past[st.t]
  }

  // ---------------------------------------------------------------- preservation

  /** What happens before something, and what a counter publishes, is never lost. */
  ghost predicate Grown<S, O, R>(c: Causal<S, O, R>, d: Causal<S, O, R>) {
    && |d.past| == |c.past| && |c.cell| <= |d.cell|
    && (forall t :: 0 <= t < |c.past| ==> c.past[t] <= d.past[t])
    && (forall k :: 0 <= k < |c.cell| ==> c.cell[k] <= d.cell[k])
  }

  lemma SyncGrows<S, O, R>(c: Causal<S, O, R>, st: Step<S, O>)
    requires CanStep(c, st)
    ensures Grown(c, Sync(c, st))
    ensures |c.log| <= |Sync(c, st).log| && Sync(c, st).log[..|c.log|] == c.log
  {
  }

  /** Accesses are known of only after they were made. */
  ghost predicate Bounded<S, O, R>(c: Causal<S, O, R>) {
    && (forall t :: 0 <= t < |c.past| ==> Below(c.past[t], |c.log|))
    && (forall k :: 0 <= k < |c.cell| ==> Below(c.cell[k], |c.log|))
    && Below(c.flag, |c.log|) && Below(c.wlock, |c.log|) && Below(c.rlock, |c.log|)
  }

  ghost predicate Below(known: set<nat>, n: nat) {
    forall e :: e in known ==> e < n
  }

  lemma BoundedStep<S, O, R>(obj: Object<S, O, R>, c: Causal<S, O, R>, st: Step<S, O>)
    requires CanStep(c, st) && Bounded(c)
    ensures Bounded(CDo(obj, c, st))
  {
    SyncBounded(c, st);
  }

  lemma SyncBounded<S, O, R>(c: Causal<S, O, R>, st: Step<S, O>)
    requires CanStep(c, st) && Bounded(c)
    ensures Bounded(Sync(c, st))
  {
    assert Below(c.past[st.t], |c.log|);
  }

  /** Who takes over what the write mutex and the flag publish, and who publishes there. */
  lemma SyncSources<S, O, R>(c: Causal<S, O, R>, st: Step<S, O>)
    requires CanStep(c, st)
    ensures var d := Sync(c, st);
            && d.wlock == (if st.UnlockWrite? then c.past[st.t] else c.wlock)
            && d.flag == (if st.StoreTrue? || st.StoreFalse? then c.past[st.t] else c.flag)
            && (st.LockWrite? ==> c.wlock <= d.past[st.t])
            && (st.LoadFlag? ==> c.flag <= d.past[st.t])
            && (st.HandOver? ==> st.to < |c.past| && c.past[st.t] <= d.past[st.to])
            && (st.Drop? ==> c.past[st.t] <= d.cell[c.p.guards[st.g].slot])
  {
  }

  /** A guard passes to another owner by a handover, and is made when the flag is down. */
  lemma GuardMoves<S, O, R>(obj: Object<S, O, R>, s: State<S, O, R>, st: Step<S, O>, g: Gid)
    requires Enabled(s, st) && g in Do(obj, s, st).guards && !Do(obj, s, st).guards[g].leaked
    ensures var o := Do(obj, s, st).guards[g].owner;
            || (g in s.guards && !s.guards[g].leaked && s.guards[g].owner == o)
            || (g in s.guards && !s.guards[g].leaked && s.guards[g].owner == st.t && st.HandOver? && o == st.to)
            || (st.LoadFlag? && !s.writing && o == st.t && g == |s.hist|)
  {
  }

  lemma WriteStaysKnown<S, O, R>(obj: Object<S, O, R>, c: Causal<S, O, R>, st: Step<S, O>, e: nat)
    requires WriteMutex(c.p) && CanStep(c, st) && WriteKnown(c, e)
    ensures WriteKnown(CDo(obj, c, st), e)
  {
    var d, s' := Sync(c, st), Do(obj, c.p, st);
    SyncGrows(c, st);
    SyncSources(c, st);
    LockMoves(obj, c.p, st);
    LockHandsOver(obj, c, d, st, s', e);
    forall g | g in s'.guards && !s'.guards[g].leaked && s'.guards[g].owner < |d.past|
      ensures e in d.past[s'.guards[g].owner]
    {
      GuardMoves(obj, c.p, st, g);
    }
  }

  lemma LockHandsOver<S, O, R>(obj: Object<S, O, R>, c: Causal<S, O, R>, d: Causal<S, O, R>, st: Step<S, O>,
                               s': State<S, O, R>, e: nat)
    requires WriteMutex(c.p) && CanStep(c, st) && WriteKnown(c, e) && Grown(c, d)
    requires d.wlock == (if st.UnlockWrite? then c.past[st.t] else c.wlock)
    requires d.flag == (if st.StoreTrue? || st.StoreFalse? then c.past[st.t] else c.flag)
    requires st.LockWrite? ==> c.wlock <= d.past[st.t]
    requires s'.write == if st.LockWrite? then Some(st.t) else if st.UnlockWrite? then None else c.p.write
    requires s'.writing == if st.StoreTrue? then true else if st.StoreFalse? then false else c.p.writing
    ensures s'.write.None? ==> e in d.wlock
    ensures s'.write.Some? && s'.write.value < |d.past| ==> e in d.past[s'.write.value]
    ensures !s'.writing ==> e in d.flag
  {
    assert WriterState(c.p, st.t);
  }

  lemma OwnerStill<S, O, R>(obj: Object<S, O, R>, c: Causal<S, O, R>, st: Step<S, O>, e: nat, g: Gid)
    requires CanStep(c, st) && OwnerKnows(c, e, g) && g < |c.p.hist|
    ensures OwnerKnows(CDo(obj, c, st), e, g)
  {
    SyncGrows(c, st);
    SyncSources(c, st);
    var s' := Do(obj, c.p, st);
    if g in s'.guards && !s'.guards[g].leaked {
      GuardMoves(obj, c.p, st, g);
    }
  }

  /** What is published stays so; a guard is dropped by a thread that knows the read. */
  lemma StaysPublished<S, O, R>(obj: Object<S, O, R>, c: Causal<S, O, R>, st: Step<S, O>, e: nat, g: Gid, k: nat)
    requires CanStep(c, st) && Conserved(c.p) && Published(c, e, g, k)
    requires st.Drop? && st.g == g ==> e in c.past[st.t]
    ensures Published(CDo(obj, c, st), e, g, k)
  {
    InCounter(obj, c, st, e, g, k);
    forall w | 0 <= w < |c.past| ensures ScannerKnows(CDo(obj, c, st), e, k, w) {
      assert ScannerKnows(c, e, k, w);
      if st.LoadCounter? && st.t == w {
        ReadCollected(obj, c, st, e, g, k);
      } else {
        ScannerStays(obj, c, st, e, k, w);
      }
    }
  }

  lemma InCounter<S, O, R>(obj: Object<S, O, R>, c: Causal<S, O, R>, st: Step<S, O>, e: nat, g: Gid, k: nat)
    requires CanStep(c, st) && Published(c, e, g, k)
    requires st.Drop? && st.g == g ==> e in c.past[st.t]
    ensures var c' := CDo(obj, c, st);
            && |c'.past| == |c.past| && k < |c'.cell| && g < |c'.p.hist|
            && (g in c'.p.guards ==> c'.p.guards[g].slot == k)
            && (g !in c'.p.guards ==> e in c'.cell[k])
  {
    SyncGrows(c, st);
    SyncSources(c, st);
    SameGuard(obj, c.p, st, g);
  }

  lemma SameGuard<S, O, R>(obj: Object<S, O, R>, s: State<S, O, R>, st: Step<S, O>, g: Gid)
    requires Enabled(s, st) && g < |s.hist|
    ensures var s' := Do(obj, s, st);
            && g < |s'.hist|
            && (g in s'.guards ==> g in s.guards && s'.guards[g].slot == s.guards[g].slot)
            && (g in s.guards && g !in s'.guards ==>
                  st == Drop(st.t, g) && s.guards[g].owner == st.t && !s.guards[g].leaked)
  {
    StepGrows(obj, s, st);
    if g in s.guards {
      GuardStep(obj, s, st, g);
    }
  }

  /** The scan acquires the reads of a counter when it loads zero: no guard of that slot is live. */
  lemma ReadCollected<S, O, R>(obj: Object<S, O, R>, c: Causal<S, O, R>, st: Step<S, O>, e: nat, g: Gid, k: nat)
    requires CanStep(c, st) && Conserved(c.p) && Published(c, e, g, k) && st.LoadCounter?
    ensures ScannerKnows(CDo(obj, c, st), e, k, st.t)
  {
    assert ScannerKnows(c, e, k, st.t);
    if c.p.pc[st.t].i == k && g in c.p.guards {
      ZeroMeansNoGuard(c.p, g);
    }
  }

  lemma ScannerStays<S, O, R>(obj: Object<S, O, R>, c: Causal<S, O, R>, st: Step<S, O>, e: nat, k: nat, w: Tid)
    requires CanStep(c, st) && k < |c.cell| && w < |c.past| && ScannerKnows(c, e, k, w)
    requires !(st.LoadCounter? && st.t == w)
    ensures ScannerKnows(CDo(obj, c, st), e, k, w)
  {
    var s' := Do(obj, c.p, st);
    SyncGrows(c, st);
    LocalStep(obj, c.p, st);
    if w == st.t {
      ScanMoves(obj, c.p, st);
    } else {
      OtherThread(c.p, s', st.t, w);
    }
    ScannerFrom(c, Sync(c, st), s', e, k, w);
  }

  lemma ScannerFrom<S, O, R>(c: Causal<S, O, R>, d: Causal<S, O, R>, s': State<S, O, R>, e: nat, k: nat, w: Tid)
    requires Fits(c) && k < |c.cell| && w < |c.past| && ScannerKnows(c, e, k, w) && Grown(c, d)
    requires Fits(d.(p := s')) && |s'.pc| == |c.p.pc|
    requires s'.pc[w].Scan? ==> s'.pc[w] == c.p.pc[w] || s'.pc[w].i == 0
    requires s'.pc[w].Pass? ==> c.p.pc[w].Pass? || (c.p.pc[w].Scan? && c.p.pc[w].i >= |c.p.counters|)
    requires w in s'.secs ==> w in c.p.secs || c.p.pc[w].Pass?
    ensures ScannerKnows(d.(p := s'), e, k, w)
  {
  }

  lemma NewTouch<S, O, R>(obj: Object<S, O, R>, c: Causal<S, O, R>, st: Step<S, O>)
    requires HInv(obj, c) && CanStep(c, st)
    requires st.Access? || st.BeginOp? || st.Tear? || st.EndOp?
    ensures var c' := CDo(obj, c, st);
            && |c'.log| == |c.log| + 1 && c'.log[..|c.log|] == c.log
            && Known(c', |c.log|)
            && forall d :: 0 <= d < |c.log| && Conflict(c.log[d], c'.log[|c.log|]) ==> d in c'.log[|c.log|].before
  {
    var c', t := CDo(obj, c, st), st.t;
    assert WriterState(c.p, t);
    if t in c.p.secs {
      SectionAlone(c.p, t);
    }
    forall d | 0 <= d < |c.log| && Conflict(c.log[d], c'.log[|c.log|])
      ensures d in c'.log[|c.log|].before
    {
      assert Tracked(c, d);
      if c.log[d].Reading? {
        assert ScannerKnows(c, d, c.log[d].k, t);
      }
    }
  }

  lemma StaysTracked<S, O, R>(obj: Object<S, O, R>, c: Causal<S, O, R>, st: Step<S, O>, e: nat)
    requires WriteMutex(c.p) && Conserved(c.p) && CanStep(c, st) && DropKnows(c, st) && e < |c.log| && Tracked(c, e)
    ensures var c' := CDo(obj, c, st); |c'.log| >= |c.log| && c'.log[e] == c.log[e] && Tracked(c', e)
  {
    SyncGrows(c, st);
    assert CDo(obj, c, st).log[..|c.log|][e] == c.log[e];
    if c.log[e].Writing? {
      WriteStaysKnown(obj, c, st, e);
    } else {
      StaysPublished(obj, c, st, e, c.log[e].g, c.log[e].k);
    }
  }

  lemma StaysKnown<S, O, R>(obj: Object<S, O, R>, c: Causal<S, O, R>, st: Step<S, O>, e: nat)
    requires CanStep(c, st) && e < |c.log| && Known(c, e)
    requires var c' := CDo(obj, c, st); |c'.log| >= |c.log| && c'.log[e] == c.log[e] && Tracked(c', e)
    ensures Known(CDo(obj, c, st), e)
  {
    if c.log[e].Reading? {
      OwnerStill(obj, c, st, e, c.log[e].g);
    }
  }

  lemma NoTouch<S, O, R>(obj: Object<S, O, R>, c: Causal<S, O, R>, st: Step<S, O>)
    requires CanStep(c, st) && !st.Access? && !st.BeginOp? && !st.Tear? && !st.EndOp?
    ensures CDo(obj, c, st).log == c.log
  {
  }

  lemma OneMoreTouch(log: seq<Touch>, log': seq<Touch>)
    requires RaceFree(log) && |log'| == |log| + 1 && log'[..|log|] == log
    requires forall d :: 0 <= d < |log| && Conflict(log[d], log'[|log|]) ==> d in log'[|log|].before
    ensures RaceFree(log')
  {
    forall d, e | 0 <= d < e < |log'| && Conflict(log'[d], log'[e]) ensures d in log'[e].before {
      assert log'[d] == log[d] && (e < |log| ==> log'[e] == log[e]);
    }
  }

  lemma HInvStep<S, O, R>(obj: Object<S, O, R>, c: Causal<S, O, R>, st: Step<S, O>)
    requires HInv(obj, c) && CanStep(c, st) && DropKnows(c, st)
    ensures HInv(obj, CDo(obj, c, st))
    ensures |c.log| <= |CDo(obj, c, st).log| <= |c.log| + 1 && CDo(obj, c, st).log[..|c.log|] == c.log
    ensures |CDo(obj, c, st).log| > |c.log| ==> Known(CDo(obj, c, st), |c.log|)
  {
    var c' := CDo(obj, c, st);
    InvStep(obj, c.p, st);
    if st.Access? || st.BeginOp? || st.Tear? || st.EndOp? {
      NewTouch(obj, c, st);
      OneMoreTouch(c.log, c'.log);
    } else {
      NoTouch(obj, c, st);
    }
    forall e | 0 <= e < |c'.log| ensures Tracked(c', e) {
      if e < |c.log| {
        StaysTracked(obj, c, st, e);
      }
    }
  }

  lemma OwnersDrop<S, O, R>(obj: Object<S, O, R>, c: Causal<S, O, R>, st: Step<S, O>)
    requires CInv(obj, c) && CanStep(c, st)
    ensures DropKnows(c, st)
  {
    if st.Drop? {
      forall e | 0 <= e < |c.log| && c.log[e].Reading? && c.log[e].g == st.g ensures e in c.past[st.t] {
        assert Known(c, e);
      }
    }
  }

  lemma CInvStep<S, O, R>(obj: Object<S, O, R>, c: Causal<S, O, R>, st: Step<S, O>)
    requires CInv(obj, c) && CanStep(c, st)
    ensures CInv(obj, CDo(obj, c, st))
  {
    var c' := CDo(obj, c, st);
    OwnersDrop(obj, c, st);
    HInvStep(obj, c, st);
    forall e | 0 <= e < |c'.log| ensures Known(c', e) {
      if e < |c.log| {
        assert c'.log[..|c.log|][e] == c.log[e];
        StaysKnown(obj, c, st, e);
      }
    }
  }

  lemma {:induction false} CInvRun<S, O, R>(obj: Object<S, O, R>, c: Causal<S, O, R>, steps: seq<Step<S, O>>)
    requires CInv(obj, c) && Runs(obj, c.p, steps)
    ensures CInv(obj, CExec(obj, c, steps))
    decreases |steps|
  {
    if steps == [] {
    } else {
      CInvStep(obj, c, steps[0]);
      CInvRun(obj, CDo(obj, c, steps[0]), steps[1..]);
    }
  }

  /**
   Data-race freedom: in every run, of any two accesses to `dirty` of which one is a write, the
   earlier happens before the later. This includes iterators moved to and dropped by other threads.
   */
  lemma DataRaceFree<S, O, R>(obj: Object<S, O, R>, n: nat, steps: seq<Step<S, O>>)
    requires Runs(obj, Start(obj, n), steps)
    ensures RaceFree(CExec(obj, CStart(obj, n), steps).log)
  {
    InvStart(obj, n);
    CInvRun(obj, CStart(obj, n), steps);
  }
}
