/**
 Happens-before as a relation between the steps of a run: program order, handovers, and the edges from
 a release to the acquires that read from it, closed under transitivity. What each step does to which
 location is a table of its own, read off the orderings in the source. The sets that
 HappensBefore.dfy carries along hold exactly the accesses that this relation puts before a thread's
 next instruction: no fewer, so nothing is missed, and no more, so no race is hidden.
 */
module Ordering {
  import opened Sequential
  import opened Protocol
  import opened Guarantees
  import opened HappensBefore

  /** What threads synchronize on: the counters, `writing` and the two mutexes. */
  datatype Loc = Counter(k: nat) | Flag | WriteLock | Registry

  /** Locking a mutex loads what the last unlock stored. */
  datatype Action =
    | Nothing
    | Touches(write: bool)               // an access to `dirty`
    | Load(loc: Loc)                     // acquires
    | Store(loc: Loc)                    // releases
    | Update(loc: Loc, acquires: bool)   // read-modify-write: releases, and acquires if SeqCst
    | Hand(to: Tid)                      // an iterator moves to another thread

  datatype Ev = Ev(t: Tid, action: Action)

  function Label<S, O, R>(s: State<S, O, R>, st: Step<S, O>): Action
    requires Enabled(s, st)
  {
    match st
    case FetchAdd(t) => Update(Counter(s.pc[t].k), true)
    case Retract(t) => Update(Counter(s.pc[t].k), true)
    case Drop(_, g) => Update(Counter(s.guards[g].slot), false)
    case LoadCounter(t) => Load(Counter(s.pc[t].i))
    case LoadFlag(_, _) => Load(Flag)
    case StoreTrue(_) => Store(Flag)
    case StoreFalse(_) => Store(Flag)
    case LockReg(_) => Load(Registry)
    case LockScan(_) => Load(Registry)
    case FreeReg(_) => Store(Registry)
    case FreeFail(_) => Store(Registry)
    case Enter(_) => Store(Registry)
    case LockWrite(_) => Load(WriteLock)
    case UnlockWrite(_) => Store(WriteLock)
    case HandOver(_, _, to) => Hand(to)
    case Access(_, _) => Touches(false)
    case BeginOp(_, _) => Touches(true)
    case Tear(_, _) => Touches(true)
    case EndOp(_) => Touches(true)
    case _ => Nothing
  }

  predicate Acquires(a: Action, l: Loc) { a == Load(l) || a == Update(l, true) }

  predicate Releases(a: Action, l: Loc) { a == Store(l) || (a.Update? && a.loc == l) }

  /** Read-modify-writes carry a release sequence on, stores end it. */
  ghost predicate Unbroken(evs: seq<Ev>, l: Loc, m: nat, n: nat)
    requires n <= |evs|
  {
    forall x :: m < x < n ==> evs[x].action != Store(l)
  }

  /** The acquire at `n` reads from the release sequence of the release at `m`. */
  ghost predicate Synchronizes(evs: seq<Ev>, l: Loc, m: nat, n: nat)
    requires m < n < |evs|
  {
    Releases(evs[m].action, l) && Acquires(evs[n].action, l) && Unbroken(evs, l, m, n)
  }

  ghost predicate Edge(evs: seq<Ev>, m: nat, n: nat)
    requires m < n < |evs|
  {
    || evs[m].t == evs[n].t
    || evs[m].action == Hand(evs[n].t)
    || exists l :: Synchronizes(evs, l, m, n)
  }

  /** A chain of edges from `i` to `j`. */
  ghost predicate Hb(evs: seq<Ev>, i: nat, j: nat)
    requires j < |evs|
    decreases j
  {
    exists m :: i <= m < j && Edge(evs, m, j) && (m == i || Hb(evs, i, m))
  }

  ghost predicate Upto(evs: seq<Ev>, i: nat, m: nat)
    requires m < |evs|
  {
    m == i || Hb(evs, i, m)
  }

  /** Step `i` happens before whatever thread `t` does from `n` on. */
  ghost predicate Reaches(evs: seq<Ev>, i: nat, t: Tid, n: nat)
    requires n <= |evs|
  {
    exists m :: i <= m < n && (evs[m].t == t || evs[m].action == Hand(t)) && Upto(evs, i, m)
  }

  /** Step `i` happens before whatever acquires `l` at `n`. */
  ghost predicate Released(evs: seq<Ev>, i: nat, l: Loc, n: nat)
    requires n <= |evs|
  {
    exists m :: i <= m < n && Releases(evs[m].action, l) && Unbroken(evs, l, m, n) && Upto(evs, i, m)
  }

  lemma HbSplits(evs: seq<Ev>, i: nat, n: nat)
    requires i < n < |evs|
    ensures Hb(evs, i, n) <==>
            Reaches(evs, i, evs[n].t, n) || exists l :: Acquires(evs[n].action, l) && Released(evs, i, l, n)
  {
    if Hb(evs, i, n) {
      var m :| i <= m < n && Edge(evs, m, n) && (m == i || Hb(evs, i, m));
      assert Upto(evs, i, m);
      if l :| Synchronizes(evs, l, m, n) {
        assert Released(evs, i, l, n);
      }
    }
    if Reaches(evs, i, evs[n].t, n) {
      var m :| i <= m < n && (evs[m].t == evs[n].t || evs[m].action == Hand(evs[n].t)) && Upto(evs, i, m);
      assert Edge(evs, m, n);
    }
    if l :| Acquires(evs[n].action, l) && Released(evs, i, l, n) {
      var m :| i <= m < n && Releases(evs[m].action, l) && Unbroken(evs, l, m, n) && Upto(evs, i, m);
      assert Synchronizes(evs, l, m, n);
      assert Edge(evs, m, n);
    }
  }

  lemma ReachesNext(evs: seq<Ev>, i: nat, t: Tid, n: nat)
    requires i <= n < |evs|
    ensures Reaches(evs, i, t, n + 1) <==>
            Reaches(evs, i, t, n) || (Upto(evs, i, n) && (evs[n].t == t || evs[n].action == Hand(t)))
  {
    if Reaches(evs, i, t, n) {
      var m :| i <= m < n && (evs[m].t == t || evs[m].action == Hand(t)) && Upto(evs, i, m);
      assert i <= m < n + 1;
    }
  }

  lemma ReleasedNext(evs: seq<Ev>, i: nat, l: Loc, n: nat)
    requires i <= n < |evs|
    ensures Released(evs, i, l, n + 1) <==>
            || (Upto(evs, i, n) && Releases(evs[n].action, l))
            || (Released(evs, i, l, n) && evs[n].action != Store(l))
  {
    if Released(evs, i, l, n + 1) {
      var m :| i <= m < n + 1 && Releases(evs[m].action, l) && Unbroken(evs, l, m, n + 1) && Upto(evs, i, m);
      if m < n {
        assert Unbroken(evs, l, m, n) && evs[n].action != Store(l);
      }
    }
    if Upto(evs, i, n) && Releases(evs[n].action, l) {
      assert Unbroken(evs, l, n, n + 1);
    }
    if Released(evs, i, l, n) && evs[n].action != Store(l) {
      var m :| i <= m < n && Releases(evs[m].action, l) && Unbroken(evs, l, m, n) && Upto(evs, i, m);
      assert Unbroken(evs, l, m, n + 1);
    }
  }

  // ---------------------------------------------------------------- the sets, step by step

  /** What location `l` publishes. */
  function At<S, O, R>(c: Causal<S, O, R>, l: Loc): set<nat> {
    match l
    case Counter(k) => if k < |c.cell| then c.cell[k] else {}
    case Flag => c.flag
    case WriteLock => c.wlock
    case Registry => c.rlock
  }

  /** What a thread learns from a step, and nothing else. */
  lemma Learns<S, O, R>(c: Causal<S, O, R>, st: Step<S, O>, u: Tid, e: nat)
    requires CanStep(c, st) && u < |c.past|
    ensures |Sync(c, st).past| == |c.past|
    ensures e in Sync(c, st).past[u] <==>
            || e in c.past[u]
            || (u == st.t && exists l :: Acquires(Label(c.p, st), l) && e in At(c, l))
            || (Label(c.p, st) == Hand(u) && e in c.past[st.t])
            || (u == st.t && Label(c.p, st).Touches? && e == |c.log|)
  {
    var a := Label(c.p, st);
    if a.Load? || a.Update? {
      assert forall l :: Acquires(a, l) ==> l == a.loc;
      assert a.Load? || a.acquires ==> Acquires(a, a.loc);
    }
  }

  /** What a location publishes after a step, and nothing else. */
  lemma Publishes<S, O, R>(c: Causal<S, O, R>, st: Step<S, O>, l: Loc, e: nat)
    requires CanStep(c, st)
    ensures e in At(Sync(c, st), l) <==>
            || (Releases(Label(c.p, st), l) && e in c.past[st.t])
            || (Label(c.p, st) != Store(l) && e in At(c, l))
  {
  }

  /** Drop, a Release decrement, teaches nobody anything. */
  lemma DropLearnsNothing<S, O, R>(c: Causal<S, O, R>, st: Step<S, O>)
    requires CanStep(c, st) && st.Drop?
    ensures Sync(c, st).past == c.past
  {
  }

  // ---------------------------------------------------------------- the sets, over a run

  /** The causal states of a run, one before each step and one after the last. */
  function Moments<S, O, R>(obj: Object<S, O, R>, c: Causal<S, O, R>, steps: seq<Step<S, O>>): seq<Causal<S, O, R>>
    requires Fits(c) && Runs(obj, c.p, steps)
    decreases |steps|
  {
    if steps == [] then [c] else [c] + Moments(obj, CDo(obj, c, steps[0]), steps[1..])
  }

  /** What the steps of a run do to the locations; only the protocol's states are looked at. */
  function Events<S, O, R>(obj: Object<S, O, R>, s: State<S, O, R>, steps: seq<Step<S, O>>): seq<Ev>
    requires Runs(obj, s, steps)
    decreases |steps|
  {
    if steps == [] then []
    else [Ev(steps[0].t, Label(s, steps[0]))] + Events(obj, Do(obj, s, steps[0]), steps[1..])
  }

  ghost predicate MomentAt<S, O, R>(obj: Object<S, O, R>, cs: seq<Causal<S, O, R>>, steps: seq<Step<S, O>>,
                                    evs: seq<Ev>, i: nat)
    requires |cs| == |steps| + 1 && |evs| == |steps| && i < |steps|
  {
    && CanStep(cs[i], steps[i]) && cs[i + 1] == CDo(obj, cs[i], steps[i])
    && evs[i] == Ev(steps[i].t, Label(cs[i].p, steps[i]))
  }

  ghost predicate Along<S, O, R>(obj: Object<S, O, R>, cs: seq<Causal<S, O, R>>, steps: seq<Step<S, O>>, evs: seq<Ev>) {
    && |cs| == |steps| + 1 && |evs| == |steps|
    && forall i :: 0 <= i < |steps| ==> MomentAt(obj, cs, steps, evs, i)
  }

  lemma AlongCons<S, O, R>(obj: Object<S, O, R>, c: Causal<S, O, R>, st: Step<S, O>, cs: seq<Causal<S, O, R>>,
                           rest: seq<Step<S, O>>, evs: seq<Ev>, x: Ev)
    requires CanStep(c, st) && Along(obj, cs, rest, evs) && cs[0] == CDo(obj, c, st)
    requires x == Ev(st.t, Label(c.p, st))
    ensures Along(obj, [c] + cs, [st] + rest, [x] + evs)
  {
    var cs', steps, evs' := [c] + cs, [st] + rest, [x] + evs;
    assert MomentAt(obj, cs', steps, evs', 0);
    forall i | 1 <= i < |steps| ensures MomentAt(obj, cs', steps, evs', i) {
      assert MomentAt(obj, cs, rest, evs, i - 1);
      assert cs'[i] == cs[i - 1] && cs'[i + 1] == cs[i];
    }
  }

  lemma {:induction false} MomentsAlong<S, O, R>(obj: Object<S, O, R>, c: Causal<S, O, R>, steps: seq<Step<S, O>>)
    requires Fits(c) && Runs(obj, c.p, steps)
    ensures Along(obj, Moments(obj, c, steps), steps, Events(obj, c.p, steps))
    ensures Moments(obj, c, steps)[0] == c && Moments(obj, c, steps)[|steps|] == CExec(obj, c, steps)
    decreases |steps|
  {
    if steps == [] {
    } else {
      var c' := CDo(obj, c, steps[0]);
      MomentsAlong(obj, c', steps[1..]);
      AlongCons(obj, c, steps[0], Moments(obj, c', steps[1..]), steps[1..], Events(obj, c'.p, steps[1..]),
                Ev(steps[0].t, Label(c.p, steps[0])));
      assert steps == [steps[0]] + steps[1..];
    }
  }

  /** The number that the access made by step `i` gets. */
  function Number<S, O, R>(cs: seq<Causal<S, O, R>>, i: nat): nat
    requires i < |cs|
  {
    |cs[i].log|
  }

  lemma LogStep<S, O, R>(c: Causal<S, O, R>, st: Step<S, O>)
    requires CanStep(c, st)
    ensures |Sync(c, st).log| == |c.log| + if Label(c.p, st).Touches? then 1 else 0
    ensures Sync(c, st).log[..|c.log|] == c.log
    ensures Label(c.p, st).Touches? ==>
              var a := Sync(c, st).log[|c.log|]; a.before == c.past[st.t] && (a.Writing? <==> Label(c.p, st).write)
  {
  }

  /** Later logs begin with earlier ones, and an access is in all logs after it was made. */
  lemma {:induction false} LogsGrow<S, O, R>(obj: Object<S, O, R>, cs: seq<Causal<S, O, R>>, steps: seq<Step<S, O>>,
                                             evs: seq<Ev>, i: nat, n: nat)
    requires Along(obj, cs, steps, evs) && i <= n <= |steps|
    ensures cs[i].log <= cs[n].log
    ensures i < n && evs[i].action.Touches? ==> |cs[i].log| < |cs[n].log|
    decreases n
  {
    if i < n {
      assert MomentAt(obj, cs, steps, evs, n - 1);
      LogStep(cs[n - 1], steps[n - 1]);
      LogsGrow(obj, cs, steps, evs, i, n - 1);
    }
  }

  lemma {:induction false} AllBounded<S, O, R>(obj: Object<S, O, R>, cs: seq<Causal<S, O, R>>, steps: seq<Step<S, O>>,
                                               evs: seq<Ev>, n: nat)
    requires Along(obj, cs, steps, evs) && n <= |steps| && Bounded(cs[0])
    ensures Bounded(cs[n])
  {
    if n == 0 {
    } else {
      assert MomentAt(obj, cs, steps, evs, n - 1);
      AllBounded(obj, cs, steps, evs, n - 1);
      BoundedStep(obj, cs[n - 1], steps[n - 1]);
    }
  }

  ghost predicate ThreadAgrees<S, O, R>(c: Causal<S, O, R>, evs: seq<Ev>, e: nat, i: nat, n: nat, t: Tid)
    requires t < |c.past| && n <= |evs|
  {
    e in c.past[t] <==> Reaches(evs, i, t, n)
  }

  ghost predicate LocAgrees<S, O, R>(c: Causal<S, O, R>, evs: seq<Ev>, e: nat, i: nat, n: nat, l: Loc)
    requires n <= |evs|
  {
    e in At(c, l) <==> Released(evs, i, l, n)
  }

  /** The sets know of access `e`, made by step `i`, what the relation says of step `i`. */
  ghost predicate Agrees<S, O, R>(c: Causal<S, O, R>, evs: seq<Ev>, e: nat, i: nat, n: nat)
    requires n <= |evs|
  {
    && (forall t :: 0 <= t < |c.past| ==> ThreadAgrees(c, evs, e, i, n, t))
    && (forall l :: LocAgrees(c, evs, e, i, n, l))
  }

  /** Just before step `i` nobody knows of its access. */
  lemma AgreesAtFirst<S, O, R>(c: Causal<S, O, R>, evs: seq<Ev>, i: nat)
    requires Bounded(c) && i <= |evs|
    ensures Agrees(c, evs, |c.log|, i, i)
  {
    forall l ensures LocAgrees(c, evs, |c.log|, i, i, l) {
    }
  }

  /** Step `n` adds to both the same. */
  lemma AgreesNext<S, O, R>(obj: Object<S, O, R>, c: Causal<S, O, R>, evs: seq<Ev>, st: Step<S, O>, e: nat, i: nat,
                            n: nat)
    requires i <= n < |evs| && CanStep(c, st) && evs[n] == Ev(st.t, Label(c.p, st))
    requires Agrees(c, evs, e, i, n)
    requires i == n ==> evs[n].action.Touches? && e == |c.log|
    requires i < n ==> e < |c.log|
    ensures Agrees(CDo(obj, c, st), evs, e, i, n + 1)
  {
    var c', n' := CDo(obj, c, st), n + 1;
    forall t | 0 <= t < |c'.past| ensures ThreadAgrees(c', evs, e, i, n', t) {
      ThreadAgreesNext(c, evs, st, e, i, n, t);
    }
    forall l ensures LocAgrees(c', evs, e, i, n', l) {
      LocAgreesNext(c, evs, st, e, i, n, l);
    }
  }

  /** What has happened before step `n` itself: what its thread knows, and what it acquires. */
  lemma UptoKnown<S, O, R>(c: Causal<S, O, R>, evs: seq<Ev>, st: Step<S, O>, e: nat, i: nat, n: nat)
    requires i < n < |evs| && CanStep(c, st) && evs[n] == Ev(st.t, Label(c.p, st))
    requires Agrees(c, evs, e, i, n)
    ensures Upto(evs, i, n) <==>
            e in c.past[st.t] || exists l :: Acquires(Label(c.p, st), l) && e in At(c, l)
  {
    HbSplits(evs, i, n);
    assert ThreadAgrees(c, evs, e, i, n, st.t);
    if l :| Acquires(Label(c.p, st), l) && e in At(c, l) {
      assert LocAgrees(c, evs, e, i, n, l);
    }
    if l :| Acquires(Label(c.p, st), l) && Released(evs, i, l, n) {
      assert LocAgrees(c, evs, e, i, n, l);
    }
  }

  lemma ThreadAgreesNext<S, O, R>(c: Causal<S, O, R>, evs: seq<Ev>, st: Step<S, O>, e: nat, i: nat, n: nat, t: Tid)
    requires i <= n < |evs| && CanStep(c, st) && evs[n] == Ev(st.t, Label(c.p, st)) && t < |c.past|
    requires Agrees(c, evs, e, i, n)
    requires i == n ==> evs[n].action.Touches? && e == |c.log|
    requires i < n ==> e < |c.log|
    ensures |Sync(c, st).past| == |c.past| && ThreadAgrees(Sync(c, st), evs, e, i, n + 1, t)
  {
    Learns(c, st, t, e);
    ReachesNext(evs, i, t, n);
    assert ThreadAgrees(c, evs, e, i, n, t);
    if i < n {
      UptoKnown(c, evs, st, e, i, n);
    }
  }

  lemma LocAgreesNext<S, O, R>(c: Causal<S, O, R>, evs: seq<Ev>, st: Step<S, O>, e: nat, i: nat, n: nat, l: Loc)
    requires i <= n < |evs| && CanStep(c, st) && evs[n] == Ev(st.t, Label(c.p, st))
    requires Agrees(c, evs, e, i, n)
    requires i == n ==> evs[n].action.Touches? && e == |c.log|
    ensures LocAgrees(Sync(c, st), evs, e, i, n + 1, l)
  {
    Publishes(c, st, l, e);
    ReleasedNext(evs, i, l, n);
    assert LocAgrees(c, evs, e, i, n, l);
    if i < n {
      UptoKnown(c, evs, st, e, i, n);
    }
  }

  lemma {:induction false} AgreesAlways<S, O, R>(obj: Object<S, O, R>, cs: seq<Causal<S, O, R>>, steps: seq<Step<S, O>>,
                                                 evs: seq<Ev>, i: nat, n: nat)
    requires Along(obj, cs, steps, evs) && Bounded(cs[0])
    requires i <= n <= |steps| && i < |steps| && evs[i].action.Touches?
    ensures Agrees(cs[n], evs, Number(cs, i), i, n)
    decreases n
  {
    if n == i {
      AllBounded(obj, cs, steps, evs, i);
      AgreesAtFirst(cs[i], evs, i);
    } else {
      AgreesAlways(obj, cs, steps, evs, i, n - 1);
      assert MomentAt(obj, cs, steps, evs, n - 1);
      LogsGrow(obj, cs, steps, evs, i, n - 1);
      AgreesNext(obj, cs[n - 1], evs, steps[n - 1], Number(cs, i), i, n - 1);
    }
  }

  /**
   The sets of accesses that HappensBefore.dfy carries along a run are happens-before: a thread's past
   holds the access made by a step exactly if that step happens before what the thread does next.
   */
  lemma PastIsHb<S, O, R>(obj: Object<S, O, R>, n: nat, steps: seq<Step<S, O>>, i: nat, t: Tid)
    requires Runs(obj, Start(obj, n), steps) && i < |steps| && t < n
    ensures var evs, cs := Events(obj, Start(obj, n), steps), Moments(obj, CStart(obj, n), steps);
            && |evs| == |steps| && |cs| == |steps| + 1
            && |CExec(obj, CStart(obj, n), steps).past| == n
            && (evs[i].action.Touches? ==>
                  (Number(cs, i) in CExec(obj, CStart(obj, n), steps).past[t] <==> Reaches(evs, i, t, |steps|)))
  {
    var evs, cs := Events(obj, Start(obj, n), steps), Moments(obj, CStart(obj, n), steps);
    MomentsAlong(obj, CStart(obj, n), steps);
    ThreadsFixed(obj, Start(obj, n), steps);
    if evs[i].action.Touches? {
      AgreesAlways(obj, cs, steps, evs, i, |steps|);
      assert ThreadAgrees(cs[|steps|], evs, Number(cs, i), i, |steps|, t);
    }
  }

  /** The access made by step `i` is in the log with what happens before it. */
  lemma LoggedAs<S, O, R>(obj: Object<S, O, R>, cs: seq<Causal<S, O, R>>, steps: seq<Step<S, O>>, evs: seq<Ev>, j: nat)
    requires Along(obj, cs, steps, evs) && j < |steps| && evs[j].action.Touches?
    ensures Number(cs, j) < |cs[|steps|].log| && steps[j].t < |cs[j].past|
    ensures var a := cs[|steps|].log[Number(cs, j)];
            a.before == cs[j].past[steps[j].t] && (a.Writing? <==> evs[j].action.write)
  {
    assert MomentAt(obj, cs, steps, evs, j);
    LogStep(cs[j], steps[j]);
    LogsGrow(obj, cs, steps, evs, j + 1, |steps|);
  }

  /**
   Data-race freedom in terms of the run alone: of two accesses to `dirty`, one of them a write, the
   earlier happens before the later, by a chain of program order, handovers and releases that are read from.
   */
  lemma AccessesOrdered<S, O, R>(obj: Object<S, O, R>, n: nat, steps: seq<Step<S, O>>, i: nat, j: nat)
    requires Runs(obj, Start(obj, n), steps) && i < j < |steps|
    ensures var evs := Events(obj, Start(obj, n), steps);
            && |evs| == |steps|
            && (evs[i].action.Touches? && evs[j].action.Touches? && (evs[i].action.write || evs[j].action.write) ==>
                  Hb(evs, i, j))
  {
    var evs, cs := Events(obj, Start(obj, n), steps), Moments(obj, CStart(obj, n), steps);
    MomentsAlong(obj, CStart(obj, n), steps);
    if evs[i].action.Touches? && evs[j].action.Touches? && (evs[i].action.write || evs[j].action.write) {
      DataRaceFree(obj, n, steps);
      LoggedAs(obj, cs, steps, evs, i);
      LoggedAs(obj, cs, steps, evs, j);
      LogsGrow(obj, cs, steps, evs, i, j);
      AgreesAlways(obj, cs, steps, evs, i, j);
      assert MomentAt(obj, cs, steps, evs, j);
      assert ThreadAgrees(cs[j], evs, Number(cs, i), i, j, steps[j].t);
      HbSplits(evs, i, j);
    }
  }
}
