/**
 `begin_read`, `begin_write`, the drop of a WriteLock, and the operations built from them, as
 the loops the containers run. Between any two atomic instructions of the calling thread the
 other threads do whatever they like: `env` says what, batch by batch, and a batch entry that
 is not possible when its turn comes is skipped. A call that needs more turns than there are
 batches ends where it is, still waiting or spinning.
 */
module Calls {
  import opened Sequential
  import opened Protocol
  import opened Guarantees

  ghost predicate Kept<S, O, R>(s: State<S, O, R>, s': State<S, O, R>, t: Tid) {
    && |s'.pc| == |s.pc|
    && (t < |s.pc| ==> s'.pc[t] == s.pc[t])
    && (t in s'.secs <==> t in s.secs) && (t in s.secs ==> s'.secs[t] == s.secs[t])
    && (t in s'.slot <==> t in s.slot) && (t in s.slot ==> s'.slot[t] == s.slot[t])
    && (t < |s.pc| && HoldsReg(s.pc[t]) ==> |s'.counters| == |s.counters|)
    && KeptGuards(s, s', t)
  }

  ghost predicate KeptGuards<S, O, R>(s: State<S, O, R>, s': State<S, O, R>, t: Tid) {
    && (forall g :: g in s.guards && s.guards[g].owner == t ==> g in s'.guards && s'.guards[g] == s.guards[g])
    && s.hist <= s'.hist
  }

  /** What another thread does leaves `t`'s own state and its guards alone. */
  lemma OthersFrame<S, O, R>(obj: Object<S, O, R>, s: State<S, O, R>, st: Step<S, O>, t: Tid)
    requires GuardsKnown(s) && RegMutex(s) && Enabled(s, st) && st.t != t && t < |s.pc|
    ensures Kept(s, Do(obj, s, st), t)
  {
    OthersGuards(obj, s, st, t);
    LocalStep(obj, s, st);
    OtherThread(s, Do(obj, s, st), st.t, t);
    SlotStep(obj, s, st);
    if st.PushSlot? {
      assert HoldsReg(s.pc[st.t]);
    }
  }

  lemma OthersGuards<S, O, R>(obj: Object<S, O, R>, s: State<S, O, R>, st: Step<S, O>, t: Tid)
    requires GuardsKnown(s) && Enabled(s, st) && st.t != t
    ensures KeptGuards(s, Do(obj, s, st), t)
  {
    OwnEvent(obj, s, st);
    OwnGuards(obj, s, st);
    forall g | g in s.guards && s.guards[g].owner == t ensures g != |s.hist| {
      assert g < |s.hist|;
    }
  }

  /** A step changes the guards of its own thread, or makes a new one. */
  lemma OwnGuards<S, O, R>(obj: Object<S, O, R>, s: State<S, O, R>, st: Step<S, O>)
    requires Enabled(s, st)
    ensures var s' := Do(obj, s, st);
            forall g :: g in s.guards && g != |s.hist| && s.guards[g].owner != st.t ==>
              g in s'.guards && s'.guards[g] == s.guards[g]
  {
    var s' := Do(obj, s, st);
    forall g | g in s.guards && g != |s.hist| && s.guards[g].owner != st.t
      ensures g in s'.guards && s'.guards[g] == s.guards[g]
    {
      GuardStep(obj, s, st, g);
    }
  }

  /** While `t` is in its write section the others neither touch the memory nor take effect. */
  lemma SectionFrame<S, O, R>(obj: Object<S, O, R>, s: State<S, O, R>, st: Step<S, O>, t: Tid)
    requires Inv(obj, s) && Enabled(s, st) && st.t != t && t in s.secs
    ensures Do(obj, s, st).content == s.content && Do(obj, s, st).hist == s.hist
  {
    SectionAlone(s, t);
    assert WriterState(s, st.t);
  }

  /** What a thread has done, the last step outermost. */
  datatype Path<S, O> = Nothing | Then(path: Path<S, O>, st: Step<S, O>)

  /** The notes on thread `t`: its steps, and what its last load of the flag found. */
  datatype Notes<S, O> = Notes(did: Path<S, O>, up: bool)

  function Noted<S, O, R>(notes: Notes<S, O>, s: State<S, O, R>, st: Step<S, O>, t: Tid): Notes<S, O> {
    if st.t != t then notes
    else Notes(Then(notes.did, st), if st.LoadFlag? then s.writing else notes.up)
  }

  /** A run written out: before step `past[i]` the state is `run[i]`, and `notes[i]` is what is noted on `t`. */
  datatype Trace<S, O, R> = Trace(t: Tid, run: seq<State<S, O, R>>, past: seq<Step<S, O>>, notes: seq<Notes<S, O>>)

  ghost predicate Shaped<S, O, R>(tr: Trace<S, O, R>) {
    |tr.run| == |tr.past| + 1 == |tr.notes|
  }

  ghost predicate StepAt<S, O, R>(obj: Object<S, O, R>, tr: Trace<S, O, R>, i: nat)
    requires Shaped(tr) && i < |tr.past|
  {
    && Enabled(tr.run[i], tr.past[i]) && tr.run[i + 1] == Do(obj, tr.run[i], tr.past[i])
    && tr.notes[i + 1] == Noted(tr.notes[i], tr.run[i], tr.past[i], tr.t)
  }

  /** `tr` is a run of the protocol from the creation of the container to state `s`. */
  ghost predicate Reached<S, O, R>(obj: Object<S, O, R>, n: nat, tr: Trace<S, O, R>, s: State<S, O, R>) {
    && Shaped(tr)
    && tr.run[0] == Start(obj, n) && tr.run[|tr.past|] == s
    && tr.notes[0] == Notes(Nothing, false)
    && forall i :: 0 <= i < |tr.past| ==> StepAt(obj, tr, i)
  }

  /** Traces are the runs the guarantees speak of. */
  lemma {:induction false} TraceRuns<S, O, R>(obj: Object<S, O, R>, n: nat, tr: Trace<S, O, R>, i: nat)
    requires Shaped(tr) && i <= |tr.past| && tr.run[0] == Start(obj, n)
    requires forall i :: 0 <= i < |tr.past| ==> StepAt(obj, tr, i)
    ensures Runs(obj, Start(obj, n), tr.past[..i]) && Exec(obj, Start(obj, n), tr.past[..i]) == tr.run[i]
  {
    if i == 0 {
    } else {
      TraceRuns(obj, n, tr, i - 1);
      assert StepAt(obj, tr, i - 1);
      var one := [tr.past[i - 1]];
      assert one[1..] == [];
      assert Runs(obj, tr.run[i - 1], one);
      RunsConcat(obj, Start(obj, n), tr.past[..i - 1], one);
      assert tr.past[..i] == tr.past[..i - 1] + one;
    }
  }

  lemma ReachedInv<S, O, R>(obj: Object<S, O, R>, n: nat, tr: Trace<S, O, R>, s: State<S, O, R>)
    requires Reached(obj, n, tr, s)
    ensures Inv(obj, s)
  {
    TraceRuns(obj, n, tr, |tr.past|);
    Reachable(obj, n, tr.past[..|tr.past|]);
  }

  function Longer<S, O, R>(obj: Object<S, O, R>, tr: Trace<S, O, R>, s: State<S, O, R>, st: Step<S, O>): Trace<S, O, R>
    requires Shaped(tr) && Enabled(s, st)
  {
    var notes := Noted(tr.notes[|tr.past|], s, st, tr.t);
    Trace(tr.t, tr.run + [Do(obj, s, st)], tr.past + [st], tr.notes + [notes])
  }

  lemma ReachMore<S, O, R>(obj: Object<S, O, R>, n: nat, tr: Trace<S, O, R>, s: State<S, O, R>, st: Step<S, O>)
    requires Reached(obj, n, tr, s) && Enabled(s, st)
    ensures Reached(obj, n, Longer(obj, tr, s, st), Do(obj, s, st))
  {
    var tr' := Longer(obj, tr, s, st);
    forall i | 0 <= i < |tr'.past| ensures StepAt(obj, tr', i) {
      if i < |tr.past| {
        assert StepAt(obj, tr, i);
      }
    }
  }

  /** One entry of a batch of `t`'s environment, if it is possible. */
  lemma OneOther<S, O, R>(obj: Object<S, O, R>, n: nat, tr: Trace<S, O, R>, s: State<S, O, R>, st: Step<S, O>, t: Tid)
    requires Reached(obj, n, tr, s) && Enabled(s, st) && st.t != t && t < |s.pc|
    ensures Kept(s, Do(obj, s, st), t)
    ensures t in s.secs ==> Do(obj, s, st).content == s.content && Do(obj, s, st).hist == s.hist
  {
    ReachedInv(obj, n, tr, s);
    OthersFrame(obj, s, st, t);
    if t in s.secs {
      SectionFrame(obj, s, st, t);
    }
  }

  /** A counter in use exists. */
  lemma InRegistry<S, O, R>(obj: Object<S, O, R>, n: nat, tr: Trace<S, O, R>, s: State<S, O, R>, t: Tid)
    requires Reached(obj, n, tr, s) && t < |s.pc| && UsesSlot(s.pc[t])
    ensures s.pc[t].k < |s.counters|
  {
    ReachedInv(obj, n, tr, s);
    assert ReaderState(s, t);
  }

  /** A thread past the scan is alone, with the state of the history. */
  lemma Alone<S, O, R>(obj: Object<S, O, R>, n: nat, tr: Trace<S, O, R>, s: State<S, O, R>, t: Tid)
    requires Reached(obj, n, tr, s) && t < |s.pc| && s.pc[t].Pass?
    ensures s.guards == map[] && s.writing && s.write == Some(t) && s.secs == map[] && s.content == After(obj, s.hist)
  {
    ReachedInv(obj, n, tr, s);
    assert WriterState(s, t);
    if u :| u in s.secs {
      SectionAlone(s, u);
    }
    assert s.secs == map[];
  }

  /** A guard sees the state at its place in the history. */
  lemma Sees<S, O, R>(obj: Object<S, O, R>, n: nat, tr: Trace<S, O, R>, s: State<S, O, R>, g: Gid)
    requires Reached(obj, n, tr, s) && g in s.guards
    ensures g < |s.hist| && s.guards[g].slot < |s.counters| && s.content == After(obj, s.hist[..g])
  {
    ReachedInv(obj, n, tr, s);
    GuardSeesGrant(obj, s, g);
  }

  // ---------------------------------------------------------------- what the others do, and what `t` did

  /** The state after the entries of `batch` that are possible when their turn comes, none of them by `t`. */
  function Played<S, O, R>(obj: Object<S, O, R>, s: State<S, O, R>, batch: seq<Step<S, O>>, t: Tid): State<S, O, R> {
    if batch == [] then s
    else
      var m, st := Played(obj, s, batch[..|batch| - 1], t), batch[|batch| - 1];
      if st.t != t && Enabled(m, st) then Do(obj, m, st) else m
  }

  /** `t` waits for a mutex that another thread has. */
  ghost predicate Blocked<S, O, R>(s: State<S, O, R>, t: Tid)
    requires t < |s.pc|
  {
    || ((s.pc[t].RegLock? || s.pc[t].ScanLock?) && s.reg.Some?)
    || (s.pc[t].WLock? && s.write.Some?)
  }

  /** One batch: the states of the run before and after it. */
  datatype Turn = Turn(from: nat, to: nat)

  function EndOf(turns: seq<Turn>, j: nat): nat
    requires j <= |turns|
  {
    if j == 0 then 0 else turns[j - 1].to
  }

  /**
   Batch `j` was played as a piece of the run. Between it and the batch before it `t` has taken one
   instruction, or it has taken none and could not or need not: it is blocked, or in its own code.
   */
  ghost predicate TurnDone<S, O, R>(obj: Object<S, O, R>, env: seq<seq<Step<S, O>>>, tr: Trace<S, O, R>,
                                    turns: seq<Turn>, j: nat)
    requires Shaped(tr) && j < |turns| && j < |env|
  {
    var u, last := turns[j], EndOf(turns, j);
    && last <= u.from <= last + 1 && u.from <= u.to <= |tr.past|
    && tr.t < |tr.run[u.from].pc|
    && (u.from == last ==> Idles(tr.run[u.from], tr.t))
    && tr.run[u.to] == Played(obj, tr.run[u.from], env[j], tr.t)
  }

  ghost predicate Idles<S, O, R>(s: State<S, O, R>, t: Tid)
    requires t < |s.pc|
  {
    s.pc[t].User? || Blocked(s, t)
  }

  /** Every batch so far is in the run; after the last one `t` has taken one instruction or none, as `moved` says. */
  ghost predicate Recorded<S, O, R>(obj: Object<S, O, R>, env: seq<seq<Step<S, O>>>, tr: Trace<S, O, R>,
                                    turns: seq<Turn>, moved: bool)
    requires Shaped(tr)
  {
    && |turns| <= |env|
    && (|turns| < |env| ==> |tr.past| == EndOf(turns, |turns|) + if moved then 1 else 0)
    && forall j {:trigger TurnDone(obj, env, tr, turns, j)} :: 0 <= j < |turns| ==> TurnDone(obj, env, tr, turns, j)
  }

  /** One more step. */
  lemma TurnsStay<S, O, R>(obj: Object<S, O, R>, env: seq<seq<Step<S, O>>>, tr: Trace<S, O, R>,
                           turns: seq<Turn>, s: State<S, O, R>, st: Step<S, O>, j: nat)
    requires Shaped(tr) && j < |turns| && j < |env| && TurnDone(obj, env, tr, turns, j) && Enabled(s, st)
    ensures TurnDone(obj, env, Longer(obj, tr, s, st), turns, j)
  {
  }

  lemma RecordedMore<S, O, R>(obj: Object<S, O, R>, env: seq<seq<Step<S, O>>>, tr: Trace<S, O, R>,
                              turns: seq<Turn>, moved: bool, s: State<S, O, R>, st: Step<S, O>)
    requires Shaped(tr) && Recorded(obj, env, tr, turns, moved) && Enabled(s, st)
    requires !moved || |turns| == |env|
    ensures Recorded(obj, env, Longer(obj, tr, s, st), turns, true)
  {
    var tr' := Longer(obj, tr, s, st);
    forall j | 0 <= j < |turns| ensures TurnDone(obj, env, tr', turns, j) {
      TurnsStay(obj, env, tr, turns, s, st, j);
    }
  }

  /** Trace `b` goes on from `a`. */
  ghost predicate GoesOn<S, O, R>(a: Trace<S, O, R>, b: Trace<S, O, R>) {
    a.t == b.t && a.run <= b.run && |a.past| <= |b.past|
  }

  /** The next batch has been played: it is what the run has got longer by. */
  lemma RecordedTurn<S, O, R>(obj: Object<S, O, R>, env: seq<seq<Step<S, O>>>, a: Trace<S, O, R>, b: Trace<S, O, R>,
                              turns: seq<Turn>, moved: bool, u: Turn)
    requires Shaped(a) && Shaped(b) && GoesOn(a, b) && |turns| < |env|
    requires Recorded(obj, env, a, turns, moved) && u == Turn(|a.past|, |b.past|)
    requires a.t < |a.run[|a.past|].pc| && (moved || Idles(a.run[|a.past|], a.t))
    requires b.run[|b.past|] == Played(obj, a.run[|a.past|], env[|turns|], a.t)
    ensures Recorded(obj, env, b, turns + [u], false)
  {
    var turns' := turns + [u];
    forall j | 0 <= j < |turns'| ensures TurnDone(obj, env, b, turns', j) {
      if j < |turns| {
        assert TurnDone(obj, env, a, turns, j);
      }
    }
  }

  /** From batch `from` on nobody does anything. */
  ghost predicate Silent<S, O>(env: seq<seq<Step<S, O>>>, from: nat) {
    forall j :: from <= j < |env| ==> env[j] == []
  }

  // The instructions of the calls, added to what was done before. The loops differ in how often they turn.

  function Registering<S, O>(path: Path<S, O>, t: Tid): Path<S, O> {
    Then(Then(Then(path, LockReg(t)), PushSlot(t)), FreeReg(t))
  }

  function Entering<S, O>(path: Path<S, O>, t: Tid, known: bool): Path<S, O> {
    if known then Then(path, CallRead(t)) else Registering(Then(path, CallRead(t)), t)
  }

  /** A turn of begin_read that finds the flag up. */
  function Retreating<S, O>(path: Path<S, O>, t: Tid, mobile: bool): Path<S, O> {
    Then(Then(Then(path, FetchAdd(t)), LoadFlag(t, mobile)), Retract(t))
  }

  function Spinning<S, O>(path: Path<S, O>, t: Tid, mobile: bool, turns: nat): Path<S, O> {
    if turns == 0 then path else Retreating(Spinning(path, t, mobile, turns - 1), t, mobile)
  }

  /** The turn that finds the flag down. */
  function Granting<S, O>(path: Path<S, O>, t: Tid, mobile: bool): Path<S, O> {
    Then(Then(path, FetchAdd(t)), LoadFlag(t, mobile))
  }

  /** begin_read, up to its return. */
  function Reading<S, O>(path: Path<S, O>, t: Tid, known: bool, mobile: bool, turns: nat): Path<S, O> {
    Granting(Spinning(Entering(path, t, known), t, mobile, turns), t, mobile)
  }

  function Loading<S, O>(path: Path<S, O>, t: Tid, n: nat): Path<S, O> {
    if n == 0 then path else Then(Loading(path, t, n - 1), LoadCounter(t))
  }

  /** A scan that loads `n` counters, the last of them nonzero. */
  function Failing<S, O>(path: Path<S, O>, t: Tid, n: nat): Path<S, O> {
    Then(Loading(Then(path, LockScan(t)), t, n), FreeFail(t))
  }

  /** The scans that failed: how many counters each of them loaded. */
  function Scanning<S, O>(path: Path<S, O>, t: Tid, stops: seq<nat>): Path<S, O> {
    if stops == [] then path else Failing(Scanning(path, t, stops[..|stops| - 1]), t, stops[|stops| - 1])
  }

  lemma ScanningMore<S, O>(path: Path<S, O>, t: Tid, stops: seq<nat>, n: nat)
    ensures Scanning(path, t, stops + [n]) == Failing(Scanning(path, t, stops), t, n)
  {
    assert (stops + [n])[..|stops|] == stops;
  }

  function Locking<S, O>(path: Path<S, O>, t: Tid): Path<S, O> {
    Then(Then(Then(path, CallWrite(t)), LockWrite(t)), StoreTrue(t))
  }

  /** A scan that finds all counters at zero, `n` in number. */
  function Passing<S, O>(path: Path<S, O>, t: Tid, n: nat): Path<S, O> {
    Then(Loading(Then(path, LockScan(t)), t, n), EndScan(t))
  }

  /** begin_write, up to its return. */
  function Writing<S, O>(path: Path<S, O>, t: Tid, stops: seq<nat>, n: nat): Path<S, O> {
    Then(Passing(Scanning(Locking(path, t), t, stops), t, n), Enter(t))
  }

  function Tearing<S, O>(path: Path<S, O>, t: Tid, junk: seq<S>): Path<S, O> {
    if junk == [] then path else Then(Tearing(path, t, junk[..|junk| - 1]), Tear(t, junk[|junk| - 1]))
  }

  lemma TearingMore<S, O>(path: Path<S, O>, t: Tid, junk: seq<S>, j: nat)
    requires j < |junk|
    ensures Tearing(path, t, junk[..j + 1]) == Then(Tearing(path, t, junk[..j]), Tear(t, junk[j]))
  {
    assert junk[..j + 1][..j] == junk[..j];
  }

  function Updating<S, O>(path: Path<S, O>, t: Tid, o: O, junk: seq<S>): Path<S, O> {
    Then(Tearing(Then(path, BeginOp(t, o)), t, junk), EndOp(t))
  }

  function Leaving<S, O>(path: Path<S, O>, t: Tid): Path<S, O> {
    Then(Then(Then(path, Release(t)), StoreFalse(t)), UnlockWrite(t))
  }

  function Using<S, O>(path: Path<S, O>, t: Tid, g: Gid, n: nat): Path<S, O> {
    if n == 0 then path else Then(Using(path, t, g, n - 1), Access(t, g))
  }

  /**
   A container as thread `t` uses it. The others do what `env` says: the batch at `at` comes next, and
   whenever `t` pauses between two instructions it is their turn.
   */
  class Container<S, O, R> {
    const obj: Object<S, O, R>
    const env: seq<seq<Step<S, O>>>
    const t: Tid
    var s: State<S, O, R>
    var at: nat
    ghost const threads: nat
    ghost var trace: Trace<S, O, R>            // everything done to the container so far
    ghost var notes: Notes<S, O>               // on `t`
    ghost var played: seq<Turn>                // the batches among it
    ghost var moved: bool                      // whether `t` has taken an instruction since the last of them

    /** The run so far, also while the others have their turn. */
    ghost predicate Going()
      reads this
    {
      Reached(obj, threads, trace, s) && trace.t == t < |s.pc| && trace.notes[|trace.past|] == notes
    }

    ghost predicate Valid()
      reads this
    {
      Going() && Recorded(obj, env, trace, played, moved) && |played| == at
    }

    /** The others have had their turn since the last instruction of `t`, as long as they have turns left. */
    ghost predicate Ready()
      reads this
    {
      moved ==> at == |env|
    }

    constructor (obj: Object<S, O, R>, n: nat, t: Tid, env: seq<seq<Step<S, O>>>)
      requires t < n
      ensures Valid() && this.obj == obj && this.t == t && this.env == env
      ensures s == Start(obj, n) && at == 0 && notes.did == Nothing && Ready()
    {
      this.obj, this.threads, this.t, this.env := obj, n, t, env;
      this.s, this.at := Start(obj, n), 0;
      this.notes, this.played, this.moved := Notes(Nothing, false), [], false;
      this.trace := Trace(t, [Start(obj, n)], [], [Notes(Nothing, false)]);
    }

    /** One atomic instruction of `t`. Between any two of them the others have a turn. */
    method Act(st: Step<S, O>)
      requires Valid() && Enabled(s, st) && st.t == t && Ready()
      modifies this
      ensures Valid() && s == Do(obj, old(s), st) && at == old(at) && moved
      ensures notes == Notes(Then(old(notes).did, st), if st.LoadFlag? then old(s).writing else old(notes).up)
    {
      ReachMore(obj, threads, trace, s, st);
      RecordedMore(obj, env, trace, played, moved, s, st);
      LocalPc(obj, s, st);
      notes := Noted(notes, s, st, t);
      trace := Longer(obj, trace, s, st);
      s := Do(obj, s, st);
      moved := true;
    }

    /** One entry of a batch. */
    method Other(st: Step<S, O>)
      requires Going()
      modifies this`s, this`trace
      ensures Going() && Kept(old(s), s, t) && GoesOn(old(trace), trace)
      ensures s == if st.t != t && Enabled(old(s), st) then Do(obj, old(s), st) else old(s)
      ensures t in old(s.secs) ==> s.content == old(s.content) && s.hist == old(s.hist)
    {
      if st.t != t && Enabled(s, st) {
        OneOther(obj, threads, trace, s, st, t);
        ReachMore(obj, threads, trace, s, st);
        LocalPc(obj, s, st);
        trace := Longer(obj, trace, s, st);
        s := Do(obj, s, st);
      }
    }

    /** What the other threads do between two instructions of `t`. */
    method Others(batch: seq<Step<S, O>>)
      requires Going()
      modifies this`s, this`trace
      ensures Going() && Kept(old(s), s, t) && GoesOn(old(trace), trace)
      ensures s == Played(obj, old(s), batch, t)
      ensures t in old(s.secs) ==> s.content == old(s.content) && s.hist == old(s.hist)
    {
      for i := 0 to |batch|
        invariant Going() && Kept(old(s), s, t) && GoesOn(old(trace), trace)
        invariant s == Played(obj, old(s), batch[..i], t)
        invariant t in old(s.secs) ==> s.content == old(s.content) && s.hist == old(s.hist)
      {
        assert batch[..i + 1][..i] == batch[..i];
        Other(batch[i]);
      }
      assert batch[..|batch|] == batch;
    }

    /** The turn of the others, if they have one left. Inside a call `t` waits for it only if it is blocked. */
    method Pause()
      requires Valid() && (moved || Idles(s, t))
      modifies this
      ensures Valid() && Kept(old(s), s, t) && at == (if old(at) < |env| then old(at) + 1 else old(at))
      ensures notes == old(notes) && Ready()
      ensures t in old(s.secs) ==> s.content == old(s.content) && s.hist == old(s.hist)
      ensures Silent(env, old(at)) ==> s == old(s)
    {
      if at < |env| {
        ghost var before := trace;
        Others(env[at]);
        ghost var u := Turn(|before.past|, |trace.past|);
        RecordedTurn(obj, env, before, trace, played, moved, u);
        played, at, moved := played + [u], at + 1, false;
      }
    }

    /** `t` goes on with its own code before it makes a call. */
    method Linger()
      requires Valid() && At(s, t, User)
      modifies this
      ensures Valid() && Ready() && At(s, t, User) && notes == old(notes)
      ensures old(s.hist) <= s.hist && at == (if old(at) < |env| then old(at) + 1 else old(at))
      ensures t in s.slot <==> t in old(s.slot)
      ensures Silent(env, old(at)) ==> s == old(s)
    {
      Pause();
    }

    /** reader_count_for: find the thread's counter, or register one under the registry mutex. */
    method ReaderCount() returns (ok: bool)
      requires Valid() && At(s, t, User) && Ready()
      modifies this
      ensures Valid() && old(s.hist) <= s.hist && at >= old(at) && (ok ==> moved)
      ensures t in s.secs <==> t in old(s.secs)
      ensures t in old(s.slot) ==> ok && at == old(at) && t in s.slot && s.slot[t] == old(s.slot)[t]
      ensures if ok then t in s.slot && s.pc[t] == Inc(s.slot[t])
              else s.pc[t].RegLock? && s.reg.Some? && at == |env|
      ensures notes.did == if ok then Entering(old(notes).did, t, t in old(s.slot))
                           else Then(old(notes).did, CallRead(t))
      ensures Silent(env, old(at)) ==> s.writing == old(s.writing) && (ok <==> t in old(s.slot) || old(s.reg).None?)
    {
      Act(CallRead(t));
      ok := s.pc[t].Inc?;
      if !ok {
        Pause();
        while s.reg.Some?
          invariant Valid() && old(s.hist) <= s.hist && at >= old(at) && Ready()
          invariant t in s.secs <==> t in old(s.secs)
          invariant s.pc[t].RegLock? && t !in old(s.slot)
          invariant notes.did == Then(old(notes).did, CallRead(t))
          invariant Silent(env, old(at)) ==> s.writing == old(s.writing) && s.reg == old(s.reg)
          decreases |env| - at
        {
          if at == |env| {
            return;
          }
          Pause();
        }
        Register();
        ok := true;
      }
    }

    /** Push a counter under the registry mutex. */
    method Register()
      requires Valid() && At(s, t, RegLock) && s.reg.None? && Ready()
      modifies this
      ensures Valid() && old(s.hist) <= s.hist && at >= old(at) && moved
      ensures t in s.secs <==> t in old(s.secs)
      ensures t in s.slot && s.pc[t] == Inc(s.slot[t])
      ensures notes.did == Registering(old(notes).did, t)
      ensures Silent(env, old(at)) ==> s.writing == old(s.writing)
    {
      Act(LockReg(t));
      Pause();
      Act(PushSlot(t));
      Pause();
      Act(FreeReg(t));
    }

    /** A read that has not returned: it waits for the registry mutex, or has found the flag up every time. */
    ghost predicate StillReading(before: Path<S, O>, known: bool, mobile: bool, turns: nat)
      reads this
    {
      if turns == 0 then s.reg.Some? && !known && notes.did == Then(before, CallRead(t))
      else notes.did == Spinning(Entering(before, t, known), t, mobile, turns)
    }

    /**
     begin_read. The guard granted is named by the event of its grant; `turns` is how often the flag
     was found up.
     */
    method BeginRead(mobile: bool) returns (granted: Option<Gid>, ghost turns: nat)
      requires Valid() && At(s, t, User)
      modifies this
      ensures Valid() && old(s.hist) <= s.hist && at >= old(at)
      ensures granted.Some? ==>
                && |old(s.hist)| <= granted.value && Granted(granted.value)
                && notes.did == Reading(old(notes).did, t, t in old(s.slot), mobile, turns)
      ensures granted.None? ==>
                InRead(s.pc[t]) && at == |env| &&
                StillReading(old(notes).did, t in old(s.slot), mobile, turns)
      ensures Silent(env, old(at)) && !old(s.writing) && (t in old(s.slot) || old(s.reg).None?) ==>
                granted.Some? && turns == 0
    {
      Linger();
      granted, turns := None, 0;
      var ok := ReaderCount();
      if ok {
        Pause();
        granted, turns := Spin(mobile);
      }
    }

    /** The loop of begin_read. It ends with the first turn that finds the flag down. */
    method Spin(mobile: bool) returns (granted: Option<Gid>, ghost turns: nat)
      requires Valid() && s.pc[t].Inc? && Ready()
      modifies this
      ensures Valid() && old(s.hist) <= s.hist && at >= old(at) && (granted.Some? ==> moved)
      ensures if granted.None? then s.pc[t].Inc? else |old(s.hist)| <= granted.value && Granted(granted.value)
      ensures var d := Spinning(old(notes).did, t, mobile, turns);
              notes.did == if granted.None? then d else Granting(d, t, mobile)
      ensures granted.None? ==> at == |env| && turns > 0
      ensures Silent(env, old(at)) && !old(s.writing) ==> granted.Some? && turns == 0
    {
      turns := 0;
      while true
        invariant Valid() && old(s.hist) <= s.hist && at >= old(at) && Ready()
        invariant s.pc[t].Inc? && notes.did == Spinning(old(notes).did, t, mobile, turns)
        invariant Silent(env, old(at)) && !old(s.writing) ==> !s.writing && turns == 0
        decreases |env| - at
      {
        granted := Attempt(mobile);
        if granted.Some? {
          return;
        }
        turns := turns + 1;
        if at == |env| {
          return;
        }
        Pause();
      }
    }

    /** `t` has guard `g`, granted by a read of `t`, and the memory is the state of that moment. */
    ghost predicate Granted(g: Gid)
      reads this
    {
      Holds(s, t, g) && g < |s.hist| && s.hist[g] == Read(t) && s.content == After(obj, s.hist[..g])
    }

    /** The load of the flag, and what it decides. */
    method CheckFlag(mobile: bool) returns (granted: Option<Gid>)
      requires Valid() && s.pc[t].Check? && Ready()
      modifies this
      ensures Valid() && old(s.hist) <= s.hist && at == old(at) && moved
      ensures if granted.None? then s.pc[t].Undo? else |old(s.hist)| <= granted.value && Granted(granted.value)
      ensures notes.did == Then(old(notes).did, LoadFlag(t, mobile))
      ensures granted.None? == notes.up == old(s.writing)
      ensures granted.Some? ==> s.guards[granted.value] == Guard(t, old(s).pc[t].k, mobile, false)
    {
      granted := if s.writing then None else Some(|s.hist|);
      Act(LoadFlag(t, mobile));
      if granted.Some? {
        Sees(obj, threads, trace, s, granted.value);
      }
    }

    /** One turn of the loop of begin_read: increment, load the flag, and take it back if it is up. */
    method Attempt(mobile: bool) returns (granted: Option<Gid>)
      requires Valid() && s.pc[t].Inc? && Ready()
      modifies this
      ensures Valid() && old(s.hist) <= s.hist && at >= old(at) && moved
      ensures if granted.None? then s.pc[t].Inc? else |old(s.hist)| <= granted.value && Granted(granted.value)
      ensures notes.did == if granted.None? then Retreating(old(notes).did, t, mobile)
                           else Granting(old(notes).did, t, mobile)
      ensures granted.None? <==> notes.up
      ensures Silent(env, old(at)) ==> (granted.None? <==> old(s.writing))
    {
      InRegistry(obj, threads, trace, s, t);
      Act(FetchAdd(t));
      Pause();
      granted := CheckFlag(mobile);
      if granted.None? {
        Pause();
        InRegistry(obj, threads, trace, s, t);
        Act(Retract(t));
      }
    }

    /** A write that has not returned: it waits for one of the mutexes, or every scan has failed. */
    ghost predicate StillWriting(before: Path<S, O>, stops: seq<nat>)
      requires t < |s.pc|
      reads this
    {
      if s.pc[t].WLock? then s.write.Some? && notes.did == Then(before, CallWrite(t))
      else (stops == [] ==> s.reg.Some?) && notes.did == Scanning(Locking(before, t), t, stops)
    }

    /** begin_write. `stops` tells of every scan that failed how many counters it loaded. */
    method BeginWrite() returns (entered: bool, ghost stops: seq<nat>)
      requires Valid() && At(s, t, User)
      modifies this
      ensures Valid() && old(s.hist) <= s.hist && at >= old(at)
      ensures entered ==>
                && Writes(s, t) && s.secs[t] == Section(None, [])
                && s.guards == map[] && s.writing && s.write == Some(t)
                && s.content == After(obj, s.hist)
                && notes.did == Writing(old(notes).did, t, stops, |s.counters|)
      ensures !entered ==>
                InWrite(s.pc[t]) && at == |env| && StillWriting(old(notes).did, stops)
      ensures Silent(env, old(at)) && old(s.write).None? && old(s.reg).None? && Zeros(old(s.counters)) ==>
                entered && stops == []
    {
      entered, stops := false, [];
      var locked := LockWriters();
      if locked {
        entered, stops := AwaitReaders();
        if entered {
          Act(Enter(t));
        }
      }
    }

    static ghost predicate Zeros(counters: seq<int>) {
      forall k :: 0 <= k < |counters| ==> counters[k] == 0
    }

    /** The loop of begin_write: scan under the registry mutex until a scan finds nothing. */
    method AwaitReaders() returns (zero: bool, ghost stops: seq<nat>)
      requires Valid() && At(s, t, ScanLock) && Ready()
      modifies this
      ensures Valid() && old(s.hist) <= s.hist && at >= old(at) && (zero ==> Ready())
      ensures s.pc[t] == if zero then Pass else ScanLock
      ensures zero ==> s.guards == map[] && s.secs == map[] && s.content == After(obj, s.hist)
      ensures if zero then s.writing && s.write == Some(t) else at == |env| && (stops == [] ==> s.reg.Some?)
      ensures var d := Scanning(old(notes).did, t, stops);
              notes.did == if zero then Passing(d, t, |s.counters|) else d
      ensures Silent(env, old(at)) && old(s.reg).None? && Zeros(old(s.counters)) ==> zero && stops == []
    {
      stops := [];
      while true
        invariant Valid() && old(s.hist) <= s.hist && at >= old(at) && Ready()
        invariant s.pc[t] == ScanLock && notes.did == Scanning(old(notes).did, t, stops)
        invariant Silent(env, old(at)) && old(s.reg).None? && Zeros(old(s.counters)) ==>
                    s.reg.None? && s.counters == old(s.counters) && stops == []
        decreases |env| - at
      {
        ghost var n;
        zero, n := Sweep();
        if zero {
          return;
        }
        if n > 0 {
          ScanningMore(old(notes).did, t, stops, n);
          stops := stops + [n];
        }
        if at == |env| {
          return;
        }
        Pause();
      }
    }

    /** One turn: wait for the registry mutex, scan, and let go of it unless the scan has passed. */
    method Sweep() returns (zero: bool, ghost n: nat)
      requires Valid() && At(s, t, ScanLock) && Ready()
      modifies this
      ensures Valid() && old(s.hist) <= s.hist && at >= old(at) && (if zero then Ready() else n > 0 ==> moved)
      ensures s.pc[t] == if zero then Pass else ScanLock
      ensures zero ==> s.guards == map[] && s.secs == map[] && s.content == After(obj, s.hist)
      ensures if zero then n == |s.counters| && s.writing && s.write == Some(t)
              else n > 0 || (s.reg.Some? && at == |env|)
      ensures notes.did == if zero then Passing(old(notes).did, t, n)
                        else if n > 0 then Failing(old(notes).did, t, n) else old(notes).did
      ensures Silent(env, old(at)) && old(s.reg).None? && Zeros(old(s.counters)) ==> zero
    {
      zero, n := false, 0;
      while s.reg.Some?
        invariant Valid() && old(s.hist) <= s.hist && at >= old(at) && Ready()
        invariant s.pc[t].ScanLock? && notes.did == old(notes).did
        invariant Silent(env, old(at)) ==> s.reg == old(s.reg) && s.counters == old(s.counters)
        decreases |env| - at
      {
        if at == |env| {
          return;
        }
        Pause();
      }
      zero, n := AllZero();
      if !zero {
        Act(FreeFail(t));
      }
    }

    /** The write mutex. */
    method LockMutex() returns (locked: bool)
      requires Valid() && At(s, t, User) && Ready()
      modifies this
      ensures Valid() && old(s.hist) <= s.hist && at >= old(at) && (locked ==> moved)
      ensures if locked then s.pc[t] == Raise else s.pc[t] == WLock && s.write.Some? && at == |env|
      ensures var d := Then(old(notes).did, CallWrite(t));
              notes.did == if locked then Then(d, LockWrite(t)) else d
      ensures Silent(env, old(at)) ==>
                (locked <==> old(s.write).None?) && s.reg == old(s.reg) && s.counters == old(s.counters)
    {
      locked := false;
      Act(CallWrite(t));
      Pause();
      while s.write.Some?
        invariant Valid() && old(s.hist) <= s.hist && at >= old(at) && Ready()
        invariant s.pc[t].WLock? && notes.did == Then(old(notes).did, CallWrite(t))
        invariant Silent(env, old(at)) ==>
                    s.write == old(s.write) && s.reg == old(s.reg) && s.counters == old(s.counters)
        decreases |env| - at
      {
        if at == |env| {
          return;
        }
        Pause();
      }
      Act(LockWrite(t));
      locked := true;
    }

    /** The write mutex, then the flag. */
    method LockWriters() returns (locked: bool)
      requires Valid() && At(s, t, User)
      modifies this
      ensures Valid() && old(s.hist) <= s.hist && at >= old(at) && (locked ==> Ready())
      ensures if locked then s.pc[t] == ScanLock else s.pc[t] == WLock && s.write.Some? && at == |env|
      ensures notes.did == if locked then Locking(old(notes).did, t) else Then(old(notes).did, CallWrite(t))
      ensures Silent(env, old(at)) && old(s.write).None? ==>
                locked && s.reg == old(s.reg) && s.counters == old(s.counters)
    {
      Linger();
      locked := LockMutex();
      if locked {
        Pause();
        Act(StoreTrue(t));
        Pause();
      }
    }

    /** One load of the scan. */
    method LoadOne(c: nat) returns (zero: bool)
      requires Valid() && At(s, t, Scan(c)) && c < |s.counters| && Ready()
      modifies this
      ensures Valid() && old(s.hist) <= s.hist && at >= old(at) && Ready()
      ensures zero <==> old(s.counters)[c] == 0
      ensures s.pc[t] == (if zero then Scan(c + 1) else Fail) && |s.counters| == |old(s.counters)|
      ensures notes.did == Then(old(notes).did, LoadCounter(t))
      ensures Silent(env, old(at)) ==> s.counters == old(s.counters)
    {
      zero := s.counters[c] == 0;
      Act(LoadCounter(t));
      Pause();
    }

    /** One load after the other, `n` in all, up to the first nonzero. */
    method LoadAll() returns (zero: bool, ghost n: nat)
      requires Valid() && At(s, t, Scan(0)) && Ready()
      modifies this
      ensures Valid() && old(s.hist) <= s.hist && at >= old(at) && Ready()
      ensures s.pc[t] == if zero then Scan(|s.counters|) else Fail
      ensures notes.did == Loading(old(notes).did, t, n) && if zero then n == |s.counters| else n > 0
      ensures Silent(env, old(at)) && Zeros(old(s.counters)) ==> zero
    {
      zero, n := true, 0;
      var c := 0;
      while zero && c < |s.counters|
        invariant Valid() && old(s.hist) <= s.hist && at >= old(at) && Ready()
        invariant c <= |s.counters| && n == if zero then c else c + 1
        invariant s.pc[t] == if zero then Scan(c) else Fail
        invariant notes.did == Loading(old(notes).did, t, n)
        invariant Silent(env, old(at)) && Zeros(old(s.counters)) ==> zero && s.counters == old(s.counters)
        decreases |s.counters| - c, zero
      {
        zero := LoadOne(c);
        n := n + 1;
        if zero {
          c := c + 1;
        }
      }
    }

    /** Take the registry mutex and load the counters. */
    method ScanAll() returns (zero: bool, ghost n: nat)
      requires Valid() && At(s, t, ScanLock) && s.reg.None? && Ready()
      modifies this
      ensures Valid() && old(s.hist) <= s.hist && at >= old(at) && Ready()
      ensures s.pc[t] == if zero then Scan(|s.counters|) else Fail
      ensures notes.did == Loading(Then(old(notes).did, LockScan(t)), t, n)
      ensures if zero then n == |s.counters| else n > 0
      ensures Silent(env, old(at)) && Zeros(old(s.counters)) ==> zero
    {
      Act(LockScan(t));
      Pause();
      zero, n := LoadAll();
    }

    /** `registry.iter().all(|c| c.load() == 0)`, under the registry mutex. `n` loads tell. */
    method AllZero() returns (zero: bool, ghost n: nat)
      requires Valid() && At(s, t, ScanLock) && s.reg.None? && Ready()
      modifies this
      ensures Valid() && old(s.hist) <= s.hist && at >= old(at) && Ready()
      ensures s.pc[t] == if zero then Pass else Fail
      ensures zero ==>
                && s.guards == map[] && s.secs == map[] && s.content == After(obj, s.hist)
                && s.writing && s.write == Some(t)
      ensures notes.did == if zero then Passing(old(notes).did, t, n)
                           else Loading(Then(old(notes).did, LockScan(t)), t, n)
      ensures if zero then n == |s.counters| else n > 0
      ensures Silent(env, old(at)) && Zeros(old(s.counters)) ==> zero
    {
      zero, n := ScanAll();
      if zero {
        Act(EndScan(t));
        Pause();
        Alone(obj, threads, trace, s, t);
      }
    }

    /** The memory while an update runs: whatever it writes in passing. */
    method Garble(junk: seq<S>)
      requires Valid() && Writes(s, t) && s.secs[t].pending.Some? && Ready()
      modifies this
      ensures Valid() && at >= old(at) && Ready()
      ensures Writes(s, t) && s.secs[t] == old(s).secs[t] && s.hist == old(s.hist)
      ensures s.content == if junk == [] then old(s.content) else junk[|junk| - 1]
      ensures notes.did == Tearing(old(notes).did, t, junk)
    {
      for j := 0 to |junk|
        invariant Valid() && at >= old(at) && Ready()
        invariant Writes(s, t) && s.secs[t] == old(s).secs[t] && s.hist == old(s.hist)
        invariant s.content == if j == 0 then old(s.content) else junk[j - 1]
        invariant notes.did == Tearing(old(notes).did, t, junk[..j])
      {
        TearingMore(old(notes).did, t, junk, j);
        Act(Tear(t, junk[j]));
        Pause();
      }
      assert junk[..|junk|] == junk;
    }

    /** One update of the contents in place, torn while it runs. */
    method Update(o: O, junk: seq<S>) returns (r: R)
      requires Valid() && Writes(s, t) && s.secs[t].pending.None? && Ready()
      modifies this
      ensures Valid() && at >= old(at) && moved
      ensures Writes(s, t) && s.secs[t] == Section(None, old(s.secs[t].log) + [Done(o, r)])
      ensures s.hist == old(s.hist) && (s.content, r) == obj.apply(o, old(s.content))
      ensures notes.did == Updating(old(notes).did, t, o, junk)
    {
      var base := s.content;
      Act(BeginOp(t, o));
      Pause();
      Garble(junk);
      r := obj.apply(o, base).1;
      Act(EndOp(t));
    }

    /** The drop of a WriteLock: the flag first, then the mutex. */
    method EndWrite()
      requires Valid() && Writes(s, t) && s.secs[t].pending.None? && Ready()
      modifies this
      ensures Valid() && At(s, t, User) && t !in s.secs && at >= old(at) && moved
      ensures old(s.hist) + [Write(t, old(s.secs[t].log))] <= s.hist
      ensures notes.did == Leaving(old(notes).did, t) && s.write.None?
    {
      Act(Release(t));
      Pause();
      Act(StoreFalse(t));
      Pause();
      Act(UnlockWrite(t));
    }

    /** The section of a call: one update, and the drop of the WriteLock. */
    method ChangeOnce(o: O, junk: seq<S>) returns (r: R)
      requires Valid() && Writes(s, t) && s.secs[t] == Section(None, [])
      modifies this
      ensures Valid() && At(s, t, User) && t !in s.secs && at >= old(at)
      ensures old(s.hist) + [Write(t, [Done(o, r)])] <= s.hist && r == obj.apply(o, old(s.content)).1
      ensures notes.did == Leaving(Updating(old(notes).did, t, o, junk), t)
    {
      ghost var base, before := s.content, s.hist;
      Pause();
      assert s.content == base && s.hist == before;
      r := Update(o, junk);
      assert s.secs[t].log == [Done(o, r)];
      Pause();
      EndWrite();
    }

    /**
     insert, remove, push, pop, clear and the other updates: begin_write, change the contents, drop
     the WriteLock. The result is the sequential object's at position `p` of the history; `n` is how
     many counters the scan that passed has loaded.
     */
    method WriteOp(o: O, junk: seq<S>) returns (r: Option<R>, p: nat, ghost stops: seq<nat>, ghost n: nat)
      requires Valid() && At(s, t, User)
      modifies this
      ensures Valid() && old(s.hist) <= s.hist && at >= old(at)
      ensures r.Some? ==>
                && At(s, t, User) && t !in s.secs
                && |old(s.hist)| <= p < |s.hist| && s.hist[p] == Write(t, [Done(o, r.value)])
                && r.value == obj.apply(o, After(obj, s.hist[..p])).1
                && notes.did == Leaving(Updating(Writing(old(notes).did, t, stops, n), t, o, junk), t)
      ensures r.None? ==>
                && InWrite(s.pc[t]) && at == |env|
                && StillWriting(old(notes).did, stops)
      ensures Silent(env, old(at)) && old(s.write).None? && old(s.reg).None? && Zeros(old(s.counters)) ==>
                r.Some? && stops == []
    {
      r, p, n := None, 0, 0;
      var entered;
      entered, stops := BeginWrite();
      if entered {
        n := |s.counters|;
        p := |s.hist|;
        ghost var before := s.hist;
        assert old(s.hist) <= before;
        var x := ChangeOnce(o, junk);
        assert s.hist[..p] == before;
        r := Some(x);
      }
    }

    /**
     get, contains, len and the other reads: begin_read, look at the contents, decrement. The
     result is what the query gives on the state of the sequential object at position `p`.
     */
    method ReadOp<V>(query: S -> V) returns (v: Option<V>, p: nat, ghost turns: nat)
      requires Valid() && At(s, t, User)
      modifies this
      ensures Valid() && old(s.hist) <= s.hist && at >= old(at)
      ensures v.Some? ==>
                && At(s, t, User)
                && |old(s.hist)| <= p < |s.hist| && s.hist[p] == Read(t)
                && v.value == query(After(obj, s.hist[..p])) && p !in s.guards
                && var d := Reading(old(notes).did, t, t in old(s.slot), false, turns);
                   notes.did == Then(Then(d, Access(t, p)), Drop(t, p))
      ensures v.None? ==>
                InRead(s.pc[t]) && at == |env| &&
                StillReading(old(notes).did, t in old(s.slot), false, turns)
      ensures Silent(env, old(at)) && !old(s.writing) && (t in old(s.slot) || old(s.reg).None?) ==>
                v.Some? && turns == 0
    {
      v, p := None, 0;
      var granted;
      granted, turns := BeginRead(false);
      if granted.Some? {
        p := granted.value;
        HoldOn(p);
        Act(Access(t, p));
        v := Some(query(s.content));
        EndRead(p);
      }
    }

    /** Others go on while `t` holds guard `g`. */
    method HoldOn(g: Gid)
      requires Valid() && Granted(g)
      modifies this
      ensures Valid() && old(s.hist) <= s.hist && Ready()
      ensures at == if old(at) < |env| then old(at) + 1 else old(at)
      ensures notes.did == old(notes).did
      ensures Granted(g) && s.hist[..g] == old(s.hist)[..g] && s.content == old(s.content)
    {
      Pause();
      Sees(obj, threads, trace, s, g);
      assert s.hist[..g] == old(s.hist)[..g];
    }

    /** The drop of a guard or iterator. */
    method EndRead(g: Gid)
      requires Valid() && Granted(g)
      modifies this
      ensures Valid() && old(s.hist) <= s.hist && at >= old(at)
      ensures notes.did == Then(old(notes).did, Drop(t, g))
      ensures At(s, t, User) && g !in s.guards && g < |s.hist| && s.hist[g] == Read(t)
      ensures s.hist[..g] == old(s.hist)[..g]
    {
      HoldOn(g);
      Sees(obj, threads, trace, s, g);
      Act(Drop(t, g));
    }

    /** What `next` hands out until the iterator is through: references, here positions in the memory. */
    method HandOut<V>(g: Gid, view: S -> seq<V>) returns (refs: seq<nat>)
      requires Valid() && Granted(g)
      modifies this
      ensures Valid() && old(s.hist) <= s.hist && at >= old(at) && (old(Ready()) ==> Ready())
      ensures at == old(at) + |refs| || at == |env|
      ensures notes.did == old(notes).did
      ensures Granted(g) && s.hist[..g] == old(s.hist)[..g] && s.content == old(s.content)
      ensures |refs| == |view(s.content)| && forall j :: 0 <= j < |refs| ==> refs[j] == j
    {
      refs := [];
      while |refs| < |view(s.content)|
        invariant Valid() && old(s.hist) <= s.hist && at >= old(at) && (old(Ready()) ==> Ready())
        invariant at == old(at) + |refs| || at == |env|
        invariant notes.did == old(notes).did
        invariant Granted(g) && s.hist[..g] == old(s.hist)[..g] && s.content == old(s.content)
        invariant |refs| <= |view(s.content)| && forall j :: 0 <= j < |refs| ==> refs[j] == j
        decreases |view(s.content)| - |refs|
      {
        refs := refs + [|refs|];
        HoldOn(g);
      }
    }

    /** Loads through references that an iterator has handed out, before it is dropped. */
    method ReadThrough<V>(g: Gid, view: S -> seq<V>, refs: seq<nat>) returns (got: seq<V>)
      requires Valid() && Granted(g) && Ready()
      requires |refs| == |view(s.content)| && forall j :: 0 <= j < |refs| ==> refs[j] == j
      modifies this
      ensures Valid() && old(s.hist) <= s.hist && at >= old(at) && Ready()
      ensures notes.did == Using(old(notes).did, t, g, |refs|)
      ensures Granted(g) && s.hist[..g] == old(s.hist)[..g] && s.content == old(s.content)
      ensures got == view(old(s.content))
    {
      got := [];
      while |got| < |refs|
        invariant Valid() && old(s.hist) <= s.hist && at >= old(at) && Ready()
        invariant notes.did == Using(old(notes).did, t, g, |got|)
        invariant Granted(g) && s.hist[..g] == old(s.hist)[..g] && s.content == old(s.content)
        invariant got <= view(old(s.content)) && |got| <= |refs|
        decreases |refs| - |got|
      {
        Act(Access(t, g));
        got := got + [view(s.content)[refs[|got|]]];
        HoldOn(g);
      }
    }

    /**
     iter: `next` hands out references, here positions in the live memory, and the caller reads through
     them as others go on. As long as the iterator is not dropped they show the elements of one
     abstract state, each once and in order.
     */
    method Iterate<V>(view: S -> seq<V>) returns (out: Option<seq<V>>, p: nat, ghost turns: nat)
      requires Valid() && At(s, t, User)
      modifies this
      ensures Valid() && old(s.hist) <= s.hist && at >= old(at)
      ensures out.Some? ==>
                && At(s, t, User)
                && |old(s.hist)| <= p < |s.hist| && s.hist[p] == Read(t)
                && out.value == view(After(obj, s.hist[..p])) && p !in s.guards
                && var d := Reading(old(notes).did, t, t in old(s.slot), true, turns);
                   notes.did == Then(Using(d, t, p, |out.value|), Drop(t, p))
      ensures out.None? ==>
                InRead(s.pc[t]) && at == |env| &&
                StillReading(old(notes).did, t in old(s.slot), true, turns)
      ensures Silent(env, old(at)) && !old(s.writing) && (t in old(s.slot) || old(s.reg).None?) ==>
                out.Some? && turns == 0
    {
      out, p := None, 0;
      var granted;
      granted, turns := BeginRead(true);
      if granted.Some? {
        p := granted.value;
        HoldOn(p);
        var refs := HandOut(p, view);
        var got := ReadThrough(p, view, refs);
        EndRead(p);
        out := Some(got);
      }
    }
  }
}
