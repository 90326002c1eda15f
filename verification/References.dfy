/**
 References that outlive what they were taken from. `next` of a read iterator hands out references to
 elements, and `next` of a write iterator mutable ones; both live as long as the borrow of the
 container, not of the iterator, and may be used when the slot or the WriteLock is long released.
 Uses that happen before the end of the iterator keep every guarantee. Once a reference is
 kept longer, exactly then, something can go wrong.
 */
module References {
  import opened Sequential
  import opened Protocol
  import opened Guarantees
  import opened Progress
  import opened HappensBefore
  import opened Schedules
  import opened Worlds
  import opened Deadlocks

  type Rid = nat

  /** A reference to an element, from the iterator with guard `g` on slot `k`, or from the section number `n`. */
  datatype Origin = Shared(g: Gid, k: nat) | Mutable(n: nat)

  datatype Ref = Ref(holder: Tid, origin: Origin)

  datatype Config<S, O, R> = Config(c: Causal<S, O, R>, refs: map<Rid, Ref>, next: Rid)

  datatype Act<S, O> =
    | Plain(st: Step<S, O>)           // a step of the protocol
    | Next(t: Tid, g: Gid)            // next of a read iterator
    | NextMut(t: Tid)                 // next of a write iterator
    | Give(t: Tid, r: Rid, to: Tid)   // a shared reference goes to another thread
    | Tell(t: Tid, to: Tid)           // any other synchronization of two threads: a join, a channel
    | Forget(t: Tid, r: Rid)          // the reference will not be used again
    | Look(t: Tid, r: Rid)            // a load through a shared reference
    | Put(t: Tid, r: Rid, o: O)       // an update through a mutable reference

  /** The iterator is there and its slot counted; the section is there and its WriteLock is not being dropped. */
  ghost predicate Live<S, O, R>(s: State<S, O, R>, r: Ref) {
    match r.origin
    case Shared(g, _) => g in s.guards
    case Mutable(n) => n == |s.hist| && r.holder in s.secs && r.holder < |s.pc| && !s.pc[r.holder].Clear?
  }

  /** Thread `t`, in its own code, has reference `r`. */
  ghost predicate Has<S, O, R>(s: Config<S, O, R>, t: Tid, r: Rid) {
    At(s.c.p, t, User) && r in s.refs && s.refs[r].holder == t
  }

  ghost predicate AEnabled<S, O, R>(s: Config<S, O, R>, a: Act<S, O>) {
    Fits(s.c) &&
    match a
    case Plain(st) => Enabled(s.c.p, st)
    case Next(t, g) => Holds(s.c.p, t, g)
    case NextMut(t) => Writes(s.c.p, t) && s.c.p.secs[t].pending.None?
    case Give(t, r, to) => Has(s, t, r) && s.refs[r].origin.Shared? && At(s.c.p, to, User)
    case Tell(t, to) => At(s.c.p, t, User) && At(s.c.p, to, User)
    case Forget(t, r) => Has(s, t, r)
    case Look(t, r) => Has(s, t, r) && s.refs[r].origin.Shared?
    case Put(t, r, _) =>
      && Has(s, t, r) && s.refs[r].origin.Mutable?
      && (Live(s.c.p, s.refs[r]) ==> s.c.p.secs[t].pending.None?)
  }

  /** What `t` knows becomes known to `to`. */
  function Synced<S, O, R>(c: Causal<S, O, R>, t: Tid, to: Tid): Causal<S, O, R>
    requires t < |c.past| && to < |c.past|
  {
    c.(past := Acquire(c.past, to, c.past[t]))
  }

  /** An update of the section under way: the protocol's own steps. */
  function Update<S, O, R>(obj: Object<S, O, R>, c: Causal<S, O, R>, t: Tid, o: O): (c': Causal<S, O, R>)
    requires CanStep(c, BeginOp(t, o))
    ensures Fits(c')
  {
    CDo(obj, CDo(obj, c, BeginOp(t, o)), EndOp(t))
  }

  /** A store into memory that nobody has locked for it. */
  function Overwrite<S, O, R>(obj: Object<S, O, R>, c: Causal<S, O, R>, t: Tid, o: O): Causal<S, O, R>
    requires t < |c.past|
  {
    Record(c, t, Writing(t, c.past[t])).(p := c.p.(content := obj.apply(o, c.p.content).0))
  }

  ghost function ADo<S, O, R>(obj: Object<S, O, R>, s: Config<S, O, R>, a: Act<S, O>): (s': Config<S, O, R>)
    requires AEnabled(s, a)
    ensures Fits(s'.c)
  {
    match a
    case Plain(st) => s.(c := CDo(obj, s.c, st))
    case Next(t, g) => s.(refs := s.refs[s.next := Ref(t, Shared(g, s.c.p.guards[g].slot))], next := s.next + 1)
    case NextMut(t) => s.(refs := s.refs[s.next := Ref(t, Mutable(|s.c.p.hist|))], next := s.next + 1)
    case Give(t, r, to) => s.(refs := s.refs[r := Ref(to, s.refs[r].origin)], c := Synced(s.c, t, to))
    case Tell(t, to) => s.(c := Synced(s.c, t, to))
    case Forget(_, r) => s.(refs := s.refs - {r})
    case Look(t, r) => s.(c := Record(s.c, t, Reading(t, s.c.past[t], s.refs[r].origin.g, s.refs[r].origin.k)))
    case Put(t, r, o) =>
      s.(c := if Live(s.c.p, s.refs[r]) then Update(obj, s.c, t, o) else Overwrite(obj, s.c, t, o))
  }

  function AStart<S, O, R>(obj: Object<S, O, R>, n: nat): Config<S, O, R> {
    Config(CStart(obj, n), map[], 0)
  }

  ghost predicate ARuns<S, O, R>(obj: Object<S, O, R>, s: Config<S, O, R>, run: seq<Act<S, O>>)
    decreases |run|
  {
    run == [] || (AEnabled(s, run[0]) && ARuns(obj, ADo(obj, s, run[0]), run[1..]))
  }

  ghost function AExec<S, O, R>(obj: Object<S, O, R>, s: Config<S, O, R>, run: seq<Act<S, O>>): Config<S, O, R>
    requires ARuns(obj, s, run)
    decreases |run|
  {
    if run == [] then s else AExec(obj, ADo(obj, s, run[0]), run[1..])
  }

  // ---------------------------------------------------------------- uses in time

  /**
   Uses happen before the end of what the reference was taken from: the iterator or section is there
   at the use, and the thread that drops an iterator knows of all uses. References in `loose` are
   excused.
   */
  ghost predicate Timely<S, O, R>(s: Config<S, O, R>, a: Act<S, O>, loose: set<Rid>)
    requires AEnabled(s, a)
  {
    match a
    case Plain(st) => DropKnows(s.c, st)
    case Look(_, r) => Live(s.c.p, s.refs[r]) || r in loose
    case Put(_, r, _) => Live(s.c.p, s.refs[r]) || r in loose
    case _ => true
  }

  ghost predicate TimelyRun<S, O, R>(obj: Object<S, O, R>, s: Config<S, O, R>, run: seq<Act<S, O>>, loose: set<Rid>)
    requires ARuns(obj, s, run)
    decreases |run|
  {
    run == [] || (Timely(s, run[0], loose) && TimelyRun(obj, ADo(obj, s, run[0]), run[1..], loose))
  }

  /** The step does not change the memory under a guard. */
  ghost predicate Steady<S, O, R>(s: State<S, O, R>, s': State<S, O, R>) {
    forall g :: g in s.guards && g in s'.guards ==> s'.content == s.content
  }

  /** At no moment of the run does the memory change under a live guard. */
  ghost predicate Undisturbed<S, O, R>(obj: Object<S, O, R>, s: Config<S, O, R>, run: seq<Act<S, O>>)
    requires ARuns(obj, s, run)
    decreases |run|
  {
    run == [] || (Steady(s.c.p, ADo(obj, s, run[0]).c.p) && Undisturbed(obj, ADo(obj, s, run[0]), run[1..]))
  }

  // ---------------------------------------------------------------- what uses in time keep

  ghost predicate RefKnown<S, O, R>(s: State<S, O, R>, r: Ref) {
    && r.holder < |s.pc|
    && match r.origin
       case Shared(g, k) => g < |s.hist| && k < |s.counters| && (g in s.guards ==> s.guards[g].slot == k)
       case Mutable(n) => n <= |s.hist|
  }

  ghost predicate RefsKnown<S, O, R>(s: Config<S, O, R>) {
    forall r :: r in s.refs ==> r < s.next && RefKnown(s.c.p, s.refs[r])
  }

  /** Whoever has a shared reference knows all writes. */
  ghost predicate HolderKnows<S, O, R>(c: Causal<S, O, R>, r: Ref)
    requires Fits(c)
  {
    r.origin.Shared? && Live(c.p, r) && r.holder < |c.past| ==>
      forall e :: 0 <= e < |c.log| && c.log[e].Writing? ==> e in c.past[r.holder]
  }

  ghost predicate RInv<S, O, R>(obj: Object<S, O, R>, s: Config<S, O, R>) {
    && HInv(obj, s.c)
    && RefsKnown(s)
    && (forall r :: r in s.refs ==> HolderKnows(s.c, s.refs[r]))
    && Bounded(s.c)
  }

  lemma RefKnownStep<S, O, R>(obj: Object<S, O, R>, s: State<S, O, R>, st: Step<S, O>, r: Ref)
    requires Enabled(s, st) && RefKnown(s, r)
    ensures RefKnown(Do(obj, s, st), r)
    ensures r.origin.Shared? && Live(Do(obj, s, st), r) ==> Live(s, r)
  {
    StepGrows(obj, s, st);
    SlotStep(obj, s, st);
    if r.origin.Shared? && r.origin.g in s.guards {
      GuardStep(obj, s, st, r.origin.g);
    }
  }

  /** No shared reference is live while a thread writes. */
  lemma HolderStill<S, O, R>(obj: Object<S, O, R>, c: Causal<S, O, R>, st: Step<S, O>, r: Ref)
    requires HInv(obj, c) && CanStep(c, st) && RefKnown(c.p, r) && HolderKnows(c, r)
    ensures HolderKnows(CDo(obj, c, st), r)
  {
    var c' := CDo(obj, c, st);
    SyncGrows(c, st);
    RefKnownStep(obj, c.p, st, r);
    if r.origin.Shared? && Live(c'.p, r) {
      GuardSeesGrant(obj, c.p, r.origin.g);
      NoNewWrite(c, st);
    }
  }

  lemma NoNewWrite<S, O, R>(c: Causal<S, O, R>, st: Step<S, O>)
    requires CanStep(c, st) && c.p.secs == map[]
    ensures forall e :: 0 <= e < |Sync(c, st).log| && Sync(c, st).log[e].Writing? ==> e < |c.log| && c.log[e].Writing?
  {
  }

  lemma PlainStep<S, O, R>(obj: Object<S, O, R>, s: Config<S, O, R>, st: Step<S, O>)
    requires RInv(obj, s) && CanStep(s.c, st) && DropKnows(s.c, st)
    ensures RInv(obj, s.(c := CDo(obj, s.c, st)))
  {
    HInvStep(obj, s.c, st);
    BoundedStep(obj, s.c, st);
    forall r | r in s.refs
      ensures RefKnown(Do(obj, s.c.p, st), s.refs[r]) && HolderKnows(CDo(obj, s.c, st), s.refs[r])
    {
      RefKnownStep(obj, s.c.p, st, s.refs[r]);
      HolderStill(obj, s.c, st, s.refs[r]);
    }
  }

  /** More synchronization does no harm. */
  lemma MoreSync<S, O, R>(obj: Object<S, O, R>, c: Causal<S, O, R>, t: Tid, to: Tid)
    requires HInv(obj, c) && t < |c.past| && to < |c.past|
    ensures HInv(obj, Synced(c, t, to))
  {
    var c' := Synced(c, t, to);
    forall e | 0 <= e < |c'.log| ensures Tracked(c', e) {
      assert Tracked(c, e);
      MorePast(c, c', e);
    }
  }

  lemma MorePast<S, O, R>(c: Causal<S, O, R>, c': Causal<S, O, R>, e: nat)
    requires Fits(c) && Fits(c') && e < |c.log| && |c'.log| >= |c.log| && c'.log[e] == c.log[e] && Tracked(c, e)
    requires c'.p == c.p && c'.cell == c.cell && c'.flag == c.flag && c'.wlock == c.wlock
    requires forall t :: 0 <= t < |c.past| ==> c.past[t] <= c'.past[t]
    ensures Tracked(c', e)
  {
    if c.log[e].Reading? {
      forall w | 0 <= w < |c'.past| ensures ScannerKnows(c', e, c.log[e].k, w) {
        assert ScannerKnows(c, e, c.log[e].k, w);
      }
    }
  }

  /** A load through the reference of a live iterator, wherever the iterator is. */
  lemma LookStep<S, O, R>(obj: Object<S, O, R>, c: Causal<S, O, R>, t: Tid, r: Ref)
    requires HInv(obj, c) && r.origin.Shared? && r.holder == t && t < |c.past|
    requires RefKnown(c.p, r) && Live(c.p, r) && HolderKnows(c, r)
    ensures HInv(obj, Record(c, t, Reading(t, c.past[t], r.origin.g, r.origin.k)))
  {
    var a := Reading(t, c.past[t], r.origin.g, r.origin.k);
    var c' := Record(c, t, a);
    OneMoreTouch(c.log, c'.log);
    forall e | 0 <= e < |c'.log| ensures Tracked(c', e) {
      if e < |c.log| {
        assert Tracked(c, e);
        MorePast(c, c', e);
      } else {
        NewLook(c', e);
      }
    }
  }

  lemma NewLook<S, O, R>(c: Causal<S, O, R>, e: nat)
    requires Fits(c) && Quiet(c.p) && e < |c.log| && c.log[e].Reading?
    requires c.log[e].g in c.p.guards && c.log[e].g < |c.p.hist|
    requires c.log[e].k < |c.cell| && c.p.guards[c.log[e].g].slot == c.log[e].k
    ensures Tracked(c, e)
  {
    forall w | 0 <= w < |c.past| ensures ScannerKnows(c, e, c.log[e].k, w) {
    }
  }

  /** The owner of an iterator knows all writes, so whoever asks it for an element does. */
  lemma AskerKnows<S, O, R>(obj: Object<S, O, R>, c: Causal<S, O, R>, t: Tid, g: Gid)
    requires HInv(obj, c) && Holds(c.p, t, g)
    ensures g < |c.p.hist| && c.p.guards[g].slot < |c.p.counters|
    ensures HolderKnows(c, Ref(t, Shared(g, c.p.guards[g].slot)))
  {
    forall e | 0 <= e < |c.log| && c.log[e].Writing? ensures e in c.past[t] {
      assert Tracked(c, e);
    }
  }

  lemma GivenKnows<S, O, R>(c: Causal<S, O, R>, t: Tid, to: Tid, r: Ref)
    requires Fits(c) && t < |c.past| && to < |c.past| && HolderKnows(c, r)
    ensures HolderKnows(Synced(c, t, to), r)
    ensures r.holder == t ==> HolderKnows(Synced(c, t, to), Ref(to, r.origin))
  {
  }

  lemma GiveStep<S, O, R>(obj: Object<S, O, R>, s: Config<S, O, R>, a: Act<S, O>)
    requires RInv(obj, s) && AEnabled(s, a) && (a.Give? || a.Tell?)
    ensures RInv(obj, ADo(obj, s, a))
  {
    var s' := ADo(obj, s, a);
    MoreSync(obj, s.c, a.t, a.to);
    assert Below(s.c.past[a.t], |s.c.log|);
    forall r | r in s'.refs ensures r < s'.next && RefKnown(s'.c.p, s'.refs[r]) && HolderKnows(s'.c, s'.refs[r]) {
      assert RefKnown(s.c.p, s.refs[r]);
      GivenKnows(s.c, a.t, a.to, s.refs[r]);
    }
  }

  lemma TakeStep<S, O, R>(obj: Object<S, O, R>, s: Config<S, O, R>, a: Act<S, O>)
    requires RInv(obj, s) && AEnabled(s, a) && (a.Next? || a.NextMut? || a.Forget?)
    ensures RInv(obj, ADo(obj, s, a))
  {
    if a.Next? {
      AskerKnows(obj, s.c, a.t, a.g);
    }
  }

  lemma LookKeeps<S, O, R>(obj: Object<S, O, R>, s: Config<S, O, R>, a: Act<S, O>)
    requires RInv(obj, s) && AEnabled(s, a) && a.Look? && Live(s.c.p, s.refs[a.r])
    ensures RInv(obj, ADo(obj, s, a))
  {
    var s' := ADo(obj, s, a);
    LookStep(obj, s.c, a.t, s.refs[a.r]);
    assert Below(s.c.past[a.t], |s.c.log|);
    forall r | r in s'.refs ensures RefKnown(s'.c.p, s'.refs[r]) && HolderKnows(s'.c, s'.refs[r]) {
      assert RefKnown(s.c.p, s.refs[r]) && HolderKnows(s.c, s.refs[r]);
    }
  }

  /** An update through a live reference is an update of the section. */
  lemma PutKeeps<S, O, R>(obj: Object<S, O, R>, s: Config<S, O, R>, a: Act<S, O>)
    requires RInv(obj, s) && AEnabled(s, a) && a.Put? && Live(s.c.p, s.refs[a.r])
    ensures RInv(obj, ADo(obj, s, a))
  {
    PutIsUpdate(obj, s, a);
    UpdateKeeps(obj, s, a.t, a.o, s.(c := CDo(obj, s.c, BeginOp(a.t, a.o))));
  }

  lemma PutIsUpdate<S, O, R>(obj: Object<S, O, R>, s: Config<S, O, R>, a: Act<S, O>)
    requires AEnabled(s, a) && a.Put? && Live(s.c.p, s.refs[a.r])
    ensures CanStep(s.c, BeginOp(a.t, a.o)) && CanStep(CDo(obj, s.c, BeginOp(a.t, a.o)), EndOp(a.t))
    ensures ADo(obj, s, a) == s.(c := CDo(obj, CDo(obj, s.c, BeginOp(a.t, a.o)), EndOp(a.t)))
  {
  }

  lemma UpdateKeeps<S, O, R>(obj: Object<S, O, R>, s: Config<S, O, R>, t: Tid, o: O, m: Config<S, O, R>)
    requires RInv(obj, s) && CanStep(s.c, BeginOp(t, o)) && m == s.(c := CDo(obj, s.c, BeginOp(t, o)))
    requires CanStep(m.c, EndOp(t))
    ensures RInv(obj, s.(c := CDo(obj, m.c, EndOp(t))))
  {
    PlainStep(obj, s, BeginOp(t, o));
    PlainStep(obj, m, EndOp(t));
  }

  lemma RInvStep<S, O, R>(obj: Object<S, O, R>, s: Config<S, O, R>, a: Act<S, O>)
    requires RInv(obj, s) && AEnabled(s, a) && Timely(s, a, {})
    ensures RInv(obj, ADo(obj, s, a))
  {
    match a
    case Plain(st) => PlainStep(obj, s, st);
    case Give(_, _, _) => GiveStep(obj, s, a);
    case Tell(_, _) => GiveStep(obj, s, a);
    case Look(_, _) => LookKeeps(obj, s, a);
    case Put(_, _, _) => PutKeeps(obj, s, a);
    case _ => TakeStep(obj, s, a);
  }

  /** No act in time changes the memory under a guard. */
  lemma SteadyStep<S, O, R>(obj: Object<S, O, R>, s: Config<S, O, R>, a: Act<S, O>)
    requires RInv(obj, s) && AEnabled(s, a) && Timely(s, a, {})
    ensures Steady(s.c.p, ADo(obj, s, a).c.p)
  {
    if a.Plain? {
      SteadyPlain(obj, s.c.p, a.st);
    } else if a.Put? {
      assert s.c.p.guards == map[];
    }
  }

  lemma SteadyPlain<S, O, R>(obj: Object<S, O, R>, s: State<S, O, R>, st: Step<S, O>)
    requires Inv(obj, s) && Enabled(s, st)
    ensures Steady(s, Do(obj, s, st))
  {
    var s' := Do(obj, s, st);
    InvStep(obj, s, st);
    StepGrows(obj, s, st);
    forall g | g in s.guards && g in s'.guards ensures s'.content == s.content {
      GuardSeesGrant(obj, s, g);
      GuardSeesGrant(obj, s', g);
      assert s'.hist[..g] == s.hist[..g];
    }
  }

  lemma {:induction false} RInvRun<S, O, R>(obj: Object<S, O, R>, s: Config<S, O, R>, run: seq<Act<S, O>>)
    requires RInv(obj, s) && ARuns(obj, s, run) && TimelyRun(obj, s, run, {})
    ensures RInv(obj, AExec(obj, s, run)) && Undisturbed(obj, s, run)
    decreases |run|
  {
    if run == [] {
    } else {
      RInvStep(obj, s, run[0]);
      SteadyStep(obj, s, run[0]);
      RInvRun(obj, ADo(obj, s, run[0]), run[1..]);
    }
  }

  /** The protocol steps of an act in time. */
  function StepsOf<S, O>(a: Act<S, O>): seq<Step<S, O>> {
    match a
    case Plain(st) => [st]
    case Put(t, _, o) => [BeginOp(t, o)] + [EndOp(t)]
    case _ => []
  }

  function Underlying<S, O>(run: seq<Act<S, O>>): seq<Step<S, O>> {
    if run == [] then [] else StepsOf(run[0]) + Underlying(run[1..])
  }

  lemma UnderlyingAct<S, O, R>(obj: Object<S, O, R>, s: Config<S, O, R>, a: Act<S, O>, p': State<S, O, R>,
                               rest: seq<Step<S, O>>)
    requires AEnabled(s, a) && Timely(s, a, {}) && p' == ADo(obj, s, a).c.p && Runs(obj, p', rest)
    ensures Runs(obj, s.c.p, StepsOf(a) + rest) && Exec(obj, s.c.p, StepsOf(a) + rest) == Exec(obj, p', rest)
  {
    if a.Plain? {
      RunsCons(obj, s.c.p, a.st, p', rest);
    } else if a.Put? {
      UpdateRuns(obj, s.c, a.t, a.o, p', rest);
    } else {
      assert [] + rest == rest && p' == s.c.p;
    }
  }

  lemma UpdateRuns<S, O, R>(obj: Object<S, O, R>, c: Causal<S, O, R>, t: Tid, o: O, p': State<S, O, R>,
                            rest: seq<Step<S, O>>)
    requires CanStep(c, BeginOp(t, o)) && p' == Update(obj, c, t, o).p && Runs(obj, p', rest)
    ensures Runs(obj, c.p, [BeginOp(t, o)] + [EndOp(t)] + rest)
    ensures Exec(obj, c.p, [BeginOp(t, o)] + [EndOp(t)] + rest) == Exec(obj, p', rest)
  {
    var m := Do(obj, c.p, BeginOp(t, o));
    RunsCons(obj, m, EndOp(t), p', rest);
    RunsCons(obj, c.p, BeginOp(t, o), m, [EndOp(t)] + rest);
    assert [BeginOp(t, o)] + ([EndOp(t)] + rest) == [BeginOp(t, o)] + [EndOp(t)] + rest;
  }

  /** They are a run of the protocol, so whatever holds of all those runs holds of all runs in time. */
  lemma {:induction false} TimelyIsProtocol<S, O, R>(obj: Object<S, O, R>, s: Config<S, O, R>, run: seq<Act<S, O>>)
    requires ARuns(obj, s, run) && TimelyRun(obj, s, run, {})
    ensures Runs(obj, s.c.p, Underlying(run)) && Exec(obj, s.c.p, Underlying(run)) == AExec(obj, s, run).c.p
    decreases |run|
  {
    if run == [] {
    } else {
      var s' := ADo(obj, s, run[0]);
      TimelyIsProtocol(obj, s', run[1..]);
      UnderlyingAct(obj, s, run[0], s'.c.p, Underlying(run[1..]));
    }
  }

  lemma RInvStart<S, O, R>(obj: Object<S, O, R>, n: nat)
    ensures RInv(obj, AStart(obj, n))
  {
    InvStart(obj, n);
  }

  /**
   The guarantees for references: in every run in which each use happens before the end of its iterator
   or section, accesses do not race, no memory changes under a guard, a section finds no live
   reference of an iterator, and the containers go through a run of the protocol.
   */
  lemma UsesInTimeAreSafe<S, O, R>(obj: Object<S, O, R>, n: nat, run: seq<Act<S, O>>)
    requires ARuns(obj, AStart(obj, n), run) && TimelyRun(obj, AStart(obj, n), run, {})
    ensures var e := AExec(obj, AStart(obj, n), run);
            && RaceFree(e.c.log)
            && (forall r :: r in e.refs && e.refs[r].origin.Shared? && Live(e.c.p, e.refs[r]) ==> e.c.p.secs == map[])
            && Runs(obj, Start(obj, n), Underlying(run)) && Exec(obj, Start(obj, n), Underlying(run)) == e.c.p
    ensures Undisturbed(obj, AStart(obj, n), run)
  {
    var s, e := AStart(obj, n), AExec(obj, AStart(obj, n), run);
    RInvStart(obj, n);
    RInvRun(obj, s, run);
    TimelyIsProtocol(obj, s, run);
    forall r | r in e.refs && e.refs[r].origin.Shared? && Live(e.c.p, e.refs[r]) ensures e.c.p.secs == map[] {
      GuardSeesGrant(obj, e.c.p, e.refs[r].origin.g);
    }
  }

  // ---------------------------------------------------------------- references kept too long

  /** What the reference was taken from is gone. */
  ghost function Stale<S, O, R>(s: Config<S, O, R>): set<Rid> {
    set r | r in s.refs && !Live(s.c.p, s.refs[r])
  }

  /** From `s` something goes wrong, all uses being in time but those of references in `loose`. */
  ghost predicate CanRace<S(!new), O(!new), R>(obj: Object<S, O, R>, s: Config<S, O, R>, loose: set<Rid>) {
    exists run :: ARuns(obj, s, run) && TimelyRun(obj, s, run, loose) && !RaceFree(AExec(obj, s, run).c.log)
  }

  /** A run leads from `s` to `e`, all uses being in time but those of references in `loose`. */
  ghost predicate Goes<S, O, R>(obj: Object<S, O, R>, s: Config<S, O, R>, run: seq<Act<S, O>>, loose: set<Rid>,
                                e: Config<S, O, R>) {
    ARuns(obj, s, run) && TimelyRun(obj, s, run, loose) && AExec(obj, s, run) == e
  }

  lemma GoesFirst<S, O, R>(obj: Object<S, O, R>, s: Config<S, O, R>, a: Act<S, O>, s': Config<S, O, R>,
                           rest: seq<Act<S, O>>,
                           loose: set<Rid>, e: Config<S, O, R>)
    requires AEnabled(s, a) && Timely(s, a, loose) && s' == ADo(obj, s, a) && Goes(obj, s', rest, loose, e)
    ensures Goes(obj, s, [a] + rest, loose, e)
    ensures Undisturbed(obj, s, [a] + rest) ==> Undisturbed(obj, s', rest)
  {
    var run := [a] + rest;
    assert run[0] == a && run[1..] == rest;
  }

  /** First any run of the protocol, as long as owners know what was read through their guards. */
  lemma {:induction false} GoesPlainly<S, O, R>(obj: Object<S, O, R>, s: Config<S, O, R>, steps: seq<Step<S, O>>,
                                                rest: seq<Act<S, O>>, loose: set<Rid>, e: Config<S, O, R>)
    returns (run: seq<Act<S, O>>)
    requires CInv(obj, s.c) && Runs(obj, s.c.p, steps)
    requires Goes(obj, s.(c := CExec(obj, s.c, steps)), rest, loose, e)
    ensures Goes(obj, s, run, loose, e)
    ensures Undisturbed(obj, s, run) ==> Undisturbed(obj, s.(c := CExec(obj, s.c, steps)), rest)
    decreases |steps|
  {
    if steps == [] {
      assert s.(c := CExec(obj, s.c, steps)) == s;
      run := rest;
    } else {
      var s' := s.(c := CDo(obj, s.c, steps[0]));
      CInvStep(obj, s.c, steps[0]);
      OwnersDrop(obj, s.c, steps[0]);
      var more := GoesPlainly(obj, s', steps[1..], rest, loose, e);
      GoesFirst(obj, s, Plain(steps[0]), s', more, loose, e);
      run := [Plain(steps[0])] + more;
    }
  }

  lemma RaceAfter<S(!new), O(!new), R>(obj: Object<S, O, R>, s: Config<S, O, R>, a: Act<S, O>, s': Config<S, O, R>,
                                       loose: set<Rid>)
    requires AEnabled(s, a) && Timely(s, a, loose) && s' == ADo(obj, s, a) && CanRace(obj, s', loose)
    ensures CanRace(obj, s, loose)
  {
    var rest :| ARuns(obj, s', rest) && TimelyRun(obj, s', rest, loose) && !RaceFree(AExec(obj, s', rest).c.log);
    GoesFirst(obj, s, a, s', rest, loose, AExec(obj, s', rest));
  }

  lemma RaceAfterRun<S(!new), O(!new), R>(obj: Object<S, O, R>, s: Config<S, O, R>, steps: seq<Step<S, O>>,
                                          loose: set<Rid>)
    requires CInv(obj, s.c) && Runs(obj, s.c.p, steps)
    requires CanRace(obj, s.(c := CExec(obj, s.c, steps)), loose)
    ensures CanRace(obj, s, loose)
  {
    var m := s.(c := CExec(obj, s.c, steps));
    var rest :| ARuns(obj, m, rest) && TimelyRun(obj, m, rest, loose) && !RaceFree(AExec(obj, m, rest).c.log);
    var run := GoesPlainly(obj, s, steps, rest, loose, AExec(obj, m, rest));
  }

  lemma {:induction false} BoundedRun<S, O, R>(obj: Object<S, O, R>, c: Causal<S, O, R>, steps: seq<Step<S, O>>)
    requires Fits(c) && Bounded(c) && Runs(obj, c.p, steps)
    ensures Bounded(CExec(obj, c, steps))
    decreases |steps|
  {
    if steps == [] {
    } else {
      BoundedStep(obj, c, steps[0]);
      BoundedRun(obj, CDo(obj, c, steps[0]), steps[1..]);
    }
  }

  // ---------------------------------------------------------------- a writer enters

  ghost predicate AloneIn<S, O, R>(s: State<S, O, R>, w: Tid) {
    && w < |s.pc| && s.guards == map[]
    && (forall u :: 0 <= u < |s.pc| && u != w ==> s.pc[u].User?)
  }

  lemma EnterStep<S, O, R>(obj: Object<S, O, R>, s: State<S, O, R>, st: Step<S, O>, w: Tid)
    requires Enabled(s, st) && st.t == w && InWrite(s.pc[w])
    ensures Do(obj, s, st).guards == s.guards
    ensures var s' := Do(obj, s, st);
            s'.secs == if st.Enter? then s.secs[w := Section(None, [])] else s.secs
    ensures var s' := Do(obj, s, st);
            w < |s'.pc| && (if st.Enter? then s'.pc[w].User? else InWrite(s'.pc[w]))
  {
  }

  lemma AloneStep<S, O, R>(obj: Object<S, O, R>, s: State<S, O, R>, w: Tid) returns (st: Step<S, O>)
    requires Inv(obj, s) && AloneIn(s, w) && InWrite(s.pc[w]) && s.secs == map[]
    ensures Enabled(s, st) && st.t == w && Measure(Do(obj, s, st)) < Measure(s)
  {
    WriteHolder(s);
    st := NextStep(obj, s, w);
  }

  lemma {:induction false} EnterRun<S, O, R>(obj: Object<S, O, R>, s: State<S, O, R>, w: Tid)
    returns (steps: seq<Step<S, O>>)
    requires Inv(obj, s) && AloneIn(s, w) && InWrite(s.pc[w]) && s.secs == map[]
    ensures Runs(obj, s, steps)
    ensures var e := Exec(obj, s, steps);
            AloneIn(e, w) && |e.pc| == |s.pc| && e.pc[w].User? && e.secs == map[w := Section(None, [])]
    decreases Measure(s)
  {
    var st := AloneStep(obj, s, w);
    var s' := Do(obj, s, st);
    LocalPc(obj, s, st);
    EnterStep(obj, s, st, w);
    InvStep(obj, s, st);
    var rest := [];
    if !st.Enter? {
      rest := EnterRun(obj, s', w);
    }
    steps := [st] + rest;
    RunsCons(obj, s, st, s', rest);
  }

  // ---------------------------------------------------------------- the race

  /** Thread `w` has begun to write, and another thread uses its stale reference. */
  lemma RaceNow<S(!new), O(!new), R>(obj: Object<S, O, R>, s: Config<S, O, R>, w: Tid, r: Rid, o: O, loose: set<Rid>)
    requires Fits(s.c) && s.c.log != [] && s.c.log[|s.c.log| - 1].Writing?
    requires r in loose && r in s.refs && s.refs[r].holder != w && At(s.c.p, s.refs[r].holder, User)
    requires Below(s.c.past[s.refs[r].holder], |s.c.log| - 1) && s.refs[r].holder !in s.c.p.secs
    ensures CanRace(obj, s, loose)
  {
    var t, d := s.refs[r].holder, |s.c.log| - 1;
    var a := if s.refs[r].origin.Shared? then Look(t, r) else Put(t, r, o);
    var s' := ADo(obj, s, a);
    assert s'.c.log[..|s.c.log|] == s.c.log && |s'.c.log| == |s.c.log| + 1;
    assert Conflict(s'.c.log[d], s'.c.log[d + 1]) && d !in s'.c.log[d + 1].before;
    assert ARuns(obj, s', []) && TimelyRun(obj, s', [], loose) && AExec(obj, s', []) == s';
    RaceAfter(obj, s, a, s', loose);
  }

  /** When nothing is going on, a second thread starts to write; then the reference is used. */
  lemma IdleRaces<S(!new), O(!new), R>(obj: Object<S, O, R>, s: Config<S, O, R>, w: Tid, r: Rid, o: O, loose: set<Rid>)
    requires CInv(obj, s.c) && Bounded(s.c) && Idle(s.c.p) && w < |s.c.p.pc|
    requires r in s.refs && r in loose && s.refs[r].holder < |s.c.p.pc| && s.refs[r].holder != w
    ensures CanRace(obj, s, loose)
  {
    var steps := WriterEnters(obj, s.c.p, w);
    var m := s.(c := CExec(obj, s.c, steps));
    BoundedRun(obj, s.c, steps);
    WriterRaces(obj, m, w, r, o, loose);
    RaceAfterRun(obj, s, steps, loose);
  }

  lemma WriterEnters<S, O, R>(obj: Object<S, O, R>, s: State<S, O, R>, w: Tid) returns (steps: seq<Step<S, O>>)
    requires Inv(obj, s) && Idle(s) && w < |s.pc|
    ensures Runs(obj, s, steps)
    ensures var e := Exec(obj, s, steps);
            AloneIn(e, w) && |e.pc| == |s.pc| && e.pc[w].User? && e.secs == map[w := Section(None, [])]
  {
    var s' := Do(obj, s, CallWrite(w));
    InvStep(obj, s, CallWrite(w));
    var rest := EnterRun(obj, s', w);
    steps := [CallWrite(w)] + rest;
    RunsCons(obj, s, CallWrite(w), s', rest);
  }

  lemma WriterRaces<S(!new), O(!new), R>(obj: Object<S, O, R>, s: Config<S, O, R>, w: Tid, r: Rid, o: O,
                                         loose: set<Rid>)
    requires Fits(s.c) && Bounded(s.c) && AloneIn(s.c.p, w) && s.c.p.pc[w].User?
    requires s.c.p.secs == map[w := Section(None, [])]
    requires r in s.refs && r in loose && s.refs[r].holder < |s.c.p.pc| && s.refs[r].holder != w
    ensures CanRace(obj, s, loose)
  {
    var st := BeginOp(w, o);
    var s' := s.(c := CDo(obj, s.c, st));
    assert Below(s.c.past[s.refs[r].holder], |s.c.log|);
    RaceNow(obj, s', w, r, o, loose);
    RaceAfter(obj, s, Plain(st), s', loose);
  }

  lemma StaleRaces<S(!new), O(!new), R>(obj: Object<S, O, R>, s: Config<S, O, R>, r: Rid, o: O, loose: set<Rid>)
    requires CInv(obj, s.c) && Bounded(s.c) && |s.c.p.pc| >= 2
    requires NoLeak([s.c.p]) && NoDeadlock([s.c.p])
    requires r in s.refs && r in loose && s.refs[r].holder < |s.c.p.pc|
    ensures CanRace(obj, s, loose)
  {
    var steps := SoloCompletes(obj, s.c.p);
    BoundedRun(obj, s.c, steps);
    CInvRun(obj, s.c, steps);
    IdleRaces(obj, s.(c := CExec(obj, s.c, steps)), if s.refs[r].holder == 0 then 1 else 0, r, o, loose);
    RaceAfterRun(obj, s, steps, loose);
  }

  /** Nothing goes wrong from here on, as long as no further reference is kept too long. */
  ghost predicate SafeFrom<S(!new), O(!new), R>(obj: Object<S, O, R>, s: Config<S, O, R>) {
    forall run :: ARuns(obj, s, run) && TimelyRun(obj, s, run, Stale(s)) ==>
      RaceFree(AExec(obj, s, run).c.log) && Undisturbed(obj, s, run)
  }

  lemma NoStaleIsSafe<S(!new), O(!new), R>(obj: Object<S, O, R>, s: Config<S, O, R>)
    requires RInv(obj, s) && Stale(s) == {}
    ensures SafeFrom(obj, s)
  {
    forall run | ARuns(obj, s, run) && TimelyRun(obj, s, run, Stale(s))
      ensures RaceFree(AExec(obj, s, run).c.log) && Undisturbed(obj, s, run)
    {
      RInvRun(obj, s, run);
    }
  }

  /**
   Exactly when references are harmless. From a state in which calls and guards can be completed and
   owners know what was read through their iterators: every continuation that keeps no further
   reference too long is free of races and changes no memory under a guard, if and only if no
   thread has a reference whose iterator or WriteLock is gone.
   */
  lemma SafeIff<S(!new), O(!new), R>(obj: Object<S, O, R>, s: Config<S, O, R>, o: O)
    requires RInv(obj, s) && CInv(obj, s.c) && |s.c.p.pc| >= 2
    requires NoLeak([s.c.p]) && NoDeadlock([s.c.p])
    ensures SafeFrom(obj, s) <==> Stale(s) == {}
  {
    if Stale(s) == {} {
      NoStaleIsSafe(obj, s);
    } else {
      var r :| r in Stale(s);
      assert RefKnown(s.c.p, s.refs[r]);
      StaleRaces(obj, s, r, o, Stale(s));
    }
  }

  /** Forgetting the only stale reference makes every continuation safe again. */
  lemma ForgettingHeals<S(!new), O(!new), R>(obj: Object<S, O, R>, s: Config<S, O, R>, t: Tid, r: Rid)
    requires RInv(obj, s) && AEnabled(s, Forget(t, r)) && Stale(s) == {r}
    ensures SafeFrom(obj, ADo(obj, s, Forget(t, r)))
  {
    var s' := ADo(obj, s, Forget(t, r));
    RInvStep(obj, s, Forget(t, r));
    assert Stale(s') <= Stale(s) - {r};
    NoStaleIsSafe(obj, s');
  }

  /** Giving a reference away, and its use there. */
  lemma Lend<S, O, R>(obj: Object<S, O, R>, s: Config<S, O, R>, t: Tid, r: Rid, to: Tid) returns (used: Config<S, O, R>)
    requires AEnabled(s, Give(t, r, to)) && t != to
    ensures var lent := ADo(obj, s, Give(t, r, to));
            && Has(lent, to, r) && !Has(lent, t, r)
            && AEnabled(lent, Look(to, r)) && used == ADo(obj, lent, Look(to, r))
    ensures used.c.p == s.c.p && |used.c.past| == |s.c.past| && used.c.past[t] == s.c.past[t]
    ensures |used.c.log| == |s.c.log| + 1 && used.c.log[..|s.c.log|] == s.c.log
    ensures |s.c.log| in used.c.past[to]
    ensures used.c.log[|s.c.log|].Reading?
    ensures s.refs[r].origin.Shared? ==> used.c.log[|s.c.log|].g == s.refs[r].origin.g
  {
    used := ADo(obj, ADo(obj, s, Give(t, r, to)), Look(to, r));
  }

  /**
   A reference may be used by another thread, but the owner of the iterator has to be told before it drops
   the iterator: with nothing but the order of the run between the use and the drop, the drop is
   too early, and with any synchronization between the two threads it is in time.
   */
  lemma LoanMustReturn<S, O, R>(obj: Object<S, O, R>, s: Config<S, O, R>, t: Tid, g: Gid, r: Rid, to: Tid)
    requires Fits(s.c) && Bounded(s.c) && Enabled(s.c.p, Drop(t, g)) && DropKnows(s.c, Drop(t, g))
    requires AEnabled(s, Give(t, r, to)) && t != to && s.refs[r].origin.Shared? && s.refs[r].origin.g == g
    ensures AEnabled(ADo(obj, s, Give(t, r, to)), Look(to, r))
    ensures var used := ADo(obj, ADo(obj, s, Give(t, r, to)), Look(to, r));
            && AEnabled(used, Plain(Drop(t, g))) && !Timely(used, Plain(Drop(t, g)), {})
            && AEnabled(used, Tell(to, t)) && AEnabled(ADo(obj, used, Tell(to, t)), Plain(Drop(t, g)))
            && Timely(ADo(obj, used, Tell(to, t)), Plain(Drop(t, g)), {})
  {
    var used := Lend(obj, s, t, r, to);
    var told := ADo(obj, used, Tell(to, t));
    assert Below(s.c.past[t], |s.c.log|);
    forall e | 0 <= e < |told.c.log| && told.c.log[e].Reading? && told.c.log[e].g == g ensures e in told.c.past[t] {
      if e < |s.c.log| {
        assert used.c.log[..|s.c.log|][e] == s.c.log[e];
      }
    }
  }

  // ---------------------------------------------------------------- two runs that go wrong

  /** Thread 0 has made an iterator on a new container. */
  lemma IteratorMade<S(!new), O(!new), R>(obj: Object<S, O, R>) returns (c: Causal<S, O, R>, steps: seq<Step<S, O>>)
    ensures Runs(obj, Start(obj, 2), steps) && c == CExec(obj, CStart(obj, 2), steps)
    ensures CInv(obj, c) && Bounded(c) && c.p == HasRead(Start(obj, 2), 0, true)
  {
    FirstRead(obj, Start(obj, 2), 0, true);
    steps :| Led(obj, Start(obj, 2), {0}, steps, HasRead(Start(obj, 2), 0, true));
    c := CExec(obj, CStart(obj, 2), steps);
    InvStart(obj, 2);
    CInvRun(obj, CStart(obj, 2), steps);
    BoundedRun(obj, CStart(obj, 2), steps);
  }

  /** It has asked for an element, dropped the iterator and kept the reference. */
  lemma IteratorDropped<S(!new), O(!new), R>(obj: Object<S, O, R>, s: Config<S, O, R>)
    returns (run: seq<Act<S, O>>, e: Config<S, O, R>)
    requires CInv(obj, s.c) && Bounded(s.c) && s.c.p == HasRead(Start(obj, 2), 0, true) && s.refs == map[]
    requires s.next == 0
    ensures Goes(obj, s, run, {}, e)
    ensures CInv(obj, e.c) && Bounded(e.c) && Idle(e.c.p) && |e.c.p.pc| == 2
    ensures e.refs == map[0 := Ref(0, Shared(0, 0))]
  {
    assert s.c.p.guards == map[0 := Guard(0, 0, true, false)];
    var m := ADo(obj, s, Next(0, 0));
    assert m.refs == map[0 := Ref(0, Shared(0, 0))];
    var st := Drop(0, 0);
    e := m.(c := CDo(obj, m.c, st));
    OwnersDrop(obj, m.c, st);
    CInvStep(obj, m.c, st);
    BoundedStep(obj, m.c, st);
    assert e.c.p.guards == map[];
    GoesFirst(obj, m, Plain(st), e, [], {}, e);
    GoesFirst(obj, s, Next(0, 0), m, [Plain(st)] + [], {}, e);
    run := [Next(0, 0)] + ([Plain(st)] + []);
  }

  /**
   A kept `&V` races: thread 0 asks an iterator for an element and drops the iterator; all is well, and
   no guard is live. But when thread 1 writes, a use of the reference is not ordered with it.
   */
  lemma KeptReferenceRaces<S(!new), O(!new), R>(obj: Object<S, O, R>, o: O)
    returns (run: seq<Act<S, O>>, e: Config<S, O, R>)
    ensures Goes(obj, AStart(obj, 2), run, {}, e)
    ensures RaceFree(e.c.log) && Idle(e.c.p) && e.refs == map[0 := Ref(0, Shared(0, 0))]
    ensures CanRace(obj, e, {0})
  {
    var c, steps := IteratorMade(obj);
    var rest;
    rest, e := IteratorDropped(obj, AStart(obj, 2).(c := c));
    InvStart(obj, 2);
    run := GoesPlainly(obj, AStart(obj, 2), steps, rest, {}, e);
    IdleRaces(obj, e, 1, 0, o, {0});
  }

  /** Thread 0 is in a section of a new container, the first ever. */
  function Entered<S, O, R>(obj: Object<S, O, R>): State<S, O, R> {
    Start(obj, 2).(write := Some(0), writing := true, secs := map[0 := Section(None, [])])
  }

  /** It has left it, without having changed anything. */
  function Left<S, O, R>(obj: Object<S, O, R>): State<S, O, R> {
    Start(obj, 2).(hist := [Write(0, [])])
  }

  lemma EntersFirst<S(!new), O(!new), R>(obj: Object<S, O, R>)
    ensures Leads(obj, Start(obj, 2), {0} + {0}, Entered(obj))
  {
    var s := Start(obj, 2);
    RaiseFlag(obj, s, 0);
    ScansNothing(obj, HasRaised(s, 0));
    assert HasRaised(s, 0).pc[0 := User] == s.pc;
    LeadsOn(obj, s, {0}, HasRaised(s, 0), {0}, Entered(obj));
  }

  /** With an empty registry the scan is over at once. */
  lemma ScansNothing<S(!new), O(!new), R>(obj: Object<S, O, R>, s: State<S, O, R>)
    requires At(s, 0, ScanLock) && s.reg.None? && s.counters == []
    ensures Leads(obj, s, {0}, s.(pc := s.pc[0 := User], secs := s.secs[0 := Section(None, [])]))
  {
    var s1 := s.(pc := s.pc[0 := Scan(0)], reg := Some(0));
    var e := s.(pc := s.pc[0 := User], secs := s.secs[0 := Section(None, [])]);
    assert s1.pc[0 := User] == e.pc;
    ScanPasses(obj, s1);
    Before(obj, s, LockScan(0), s1, {0}, e);
  }

  lemma ScanPasses<S(!new), O(!new), R>(obj: Object<S, O, R>, s: State<S, O, R>)
    requires At(s, 0, Scan(0)) && s.reg == Some(0) && s.counters == []
    ensures Leads(obj, s, {0}, s.(pc := s.pc[0 := User], reg := None, secs := s.secs[0 := Section(None, [])]))
  {
    var s1 := s.(pc := s.pc[0 := Pass]);
    var e := s.(pc := s.pc[0 := User], reg := None, secs := s.secs[0 := Section(None, [])]);
    Here(obj, e, {0});
    Before(obj, s1, Enter(0), e, {0}, e);
    Before(obj, s, EndScan(0), s1, {0}, e);
  }

  lemma LeavesFirst<S(!new), O(!new), R>(obj: Object<S, O, R>)
    ensures Leads(obj, Entered(obj), {0}, Left(obj))
  {
    var s, e := Entered(obj), Left(obj);
    var s1 := s.(pc := s.pc[0 := Clear]);
    assert s1.pc[0 := User] == e.pc && s1.hist + [Write(0, [])] == e.hist;
    LockDropped(obj, s1);
    Before(obj, s, Release(0), s1, {0}, e);
  }

  lemma LockDropped<S(!new), O(!new), R>(obj: Object<S, O, R>, s: State<S, O, R>)
    requires At(s, 0, Clear) && s.secs == map[0 := Section(None, [])]
    ensures Leads(obj, s, {0}, s.(pc := s.pc[0 := User], write := None, writing := false, secs := map[],
                                  hist := s.hist + [Write(0, [])]))
  {
    var s1 := s.(pc := s.pc[0 := Unlock], writing := false, secs := map[], hist := s.hist + [Write(0, [])]);
    var e := s1.(pc := s.pc[0 := User], write := None);
    assert s.secs - {0} == map[];
    Here(obj, e, {0});
    Before(obj, s1, UnlockWrite(0), e, {0}, e);
    Before(obj, s, StoreFalse(0), s1, {0}, e);
  }

  /** Thread 0 asks a write iterator for an element; later thread 1 reads, and thread 0 stores. */
  lemma StoreAtLast<S, O, R>(obj: Object<S, O, R>, s: Config<S, O, R>, o: O) returns (e: Config<S, O, R>)
    requires Fits(s.c) && s.c.p == HasRead(Left(obj), 1, false) && s.refs == map[0 := Ref(0, Mutable(0))]
    ensures Goes(obj, s, [Put(0, 0, o)], {0}, e)
    ensures e.c.p == s.c.p.(content := obj.apply(o, obj.init).0)
    ensures obj.apply(o, obj.init).0 != obj.init ==> !Undisturbed(obj, s, [Put(0, 0, o)])
  {
    var a := Put(0, 0, o);
    assert Left(obj).hist == [Write(0, [])] && !Live(s.c.p, s.refs[0]);
    e := ADo(obj, s, a);
    assert 1 in s.c.p.guards;
    GoesFirst(obj, s, a, e, [], {0}, e);
    assert [a] + [] == [a];
  }

  lemma ReadsThenStores<S(!new), O(!new), R>(obj: Object<S, O, R>, s: Config<S, O, R>, o: O)
    returns (run: seq<Act<S, O>>, e: Config<S, O, R>)
    requires CInv(obj, s.c) && s.c.p == Left(obj) && s.refs == map[0 := Ref(0, Mutable(0))]
    ensures Goes(obj, s, run, {0}, e)
    ensures e.c.p == HasRead(Left(obj), 1, false).(content := obj.apply(o, obj.init).0)
    ensures obj.apply(o, obj.init).0 != obj.init ==> !Undisturbed(obj, s, run)
  {
    FirstRead(obj, Left(obj), 1, false);
    var steps :| Led(obj, Left(obj), {1}, steps, HasRead(Left(obj), 1, false));
    e := StoreAtLast(obj, s.(c := CExec(obj, s.c, steps)), o);
    run := GoesPlainly(obj, s, steps, [Put(0, 0, o)], {0}, e);
  }

  lemma AsksThenLeaves<S(!new), O(!new), R>(obj: Object<S, O, R>, s: Config<S, O, R>, o: O)
    returns (run: seq<Act<S, O>>, e: Config<S, O, R>)
    requires CInv(obj, s.c) && s.c.p == Entered(obj) && s.refs == map[] && s.next == 0
    ensures Goes(obj, s, run, {0}, e)
    ensures e.c.p == HasRead(Left(obj), 1, false).(content := obj.apply(o, obj.init).0)
    ensures obj.apply(o, obj.init).0 != obj.init ==> !Undisturbed(obj, s, run)
  {
    var m := ADo(obj, s, NextMut(0));
    assert m.refs == map[0 := Ref(0, Mutable(0))];
    LeavesFirst(obj);
    var steps :| Led(obj, Entered(obj), {0}, steps, Left(obj));
    CInvRun(obj, m.c, steps);
    var rest;
    rest, e := ReadsThenStores(obj, m.(c := CExec(obj, m.c, steps)), o);
    var more := GoesPlainly(obj, m, steps, rest, {0}, e);
    GoesFirst(obj, s, NextMut(0), m, more, {0}, e);
    run := [NextMut(0)] + more;
  }

  /**
   A kept `&mut V` reaches under guards: thread 0 asks a write iterator for an element and drops the
   iterator, and with it the WriteLock; thread 1 gets a read guard; then thread 0 stores through
   the reference. The guard is live, and what it sees is not the state of its grant.
   */
  lemma KeptReferenceDisturbs<S(!new), O(!new), R>(obj: Object<S, O, R>, o: O)
    returns (run: seq<Act<S, O>>, e: Config<S, O, R>)
    ensures Goes(obj, AStart(obj, 2), run, {0}, e)
    ensures e.c.p.guards == map[1 := Guard(1, 0, false, false)] && e.c.p.hist == [Write(0, []), Read(1)]
    ensures e.c.p.content == obj.apply(o, obj.init).0 && After(obj, [Write(0, [])]) == obj.init
    ensures obj.apply(o, obj.init).0 != obj.init ==> !Undisturbed(obj, AStart(obj, 2), run)
  {
    EntersFirst(obj);
    var steps :| Led(obj, Start(obj, 2), {0} + {0}, steps, Entered(obj));
    InvStart(obj, 2);
    CInvRun(obj, CStart(obj, 2), steps);
    var rest;
    rest, e := AsksThenLeaves(obj, AStart(obj, 2).(c := CExec(obj, CStart(obj, 2), steps)), o);
    run := GoesPlainly(obj, AStart(obj, 2), steps, rest, {0}, e);
    NothingChanged(obj);
  }

  lemma NothingChanged<S, O, R>(obj: Object<S, O, R>)
    ensures After<S, O, R>(obj, [Write(0, [])]) == obj.init
    ensures HasRead(Left(obj), 1, false).guards == map[1 := Guard(1, 0, false, false)]
    ensures HasRead(Left(obj), 1, false).hist == [Write(0, []), Read(1)]
  {
    var hist: seq<Event<O, R>> := [Write(0, [])];
    assert hist[..0] == [];
  }
}
