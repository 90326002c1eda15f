/**
 The wait group: `add` is a load and a store, every dropped handle sends one message, and `wait`
 receives messages until it has as many as a `total` that may move meanwhile. Any number of
 threads use it at once; each step below is one atomic operation or one channel operation.
 */
module WaitGroups {
  type Hid = nat   // a handle, that is, a value of type WaitGroup

  /** A call of `add` on handle `h` that has loaded `total` and not stored it yet. */
  datatype Adding = Adding(h: Hid, amount: nat, seen: nat, clone: bool)

  /** A call of `wait` on handle `h` inside its loop: it has received `current` messages. */
  datatype Waiting = Waiting(h: Hid, current: nat, reload: bool)

  datatype Group = Group(
    total: nat,
    queue: nat,               // messages in the channel, each of them 1
    live: set<Hid>,
    adds: map<nat, Adding>,
    waits: map<nat, Waiting>,
    next: nat,                // above every name given to a handle, add or wait so far
    // what has happened so far
    stored: nat,              // the amounts of all `add`s that have stored
    clones: nat,
    drops: nat,
    received: nat,
    finished: nat,            // messages received by calls of `wait` that left the loop
    returned: nat)            // calls of `wait` that left the loop

  datatype Step =
    | AddLoad(h: Hid, amount: nat)    // add: fetch_or(0)
    | CloneLoad(h: Hid)               // clone calls add(1)
    | AddStore(a: nat)                // add: store(current + v); clone then has its new handle
    | Drop(h: Hid)
    | Wait(h: Hid)                    // wait: the first load of total
    | Recv(w: nat)
    | Reload(w: nat)                  // wait: load total, leave the loop if current >= total

  predicate Borrowed(g: Group, h: Hid) {
    (exists a :: a in g.adds && g.adds[a].h == h) || (exists w :: w in g.waits && g.waits[w].h == h)
  }

  predicate Enabled(g: Group, st: Step) {
    match st
    case AddLoad(h, _) => h in g.live
    case CloneLoad(h) => h in g.live
    case AddStore(a) => a in g.adds
    case Drop(h) => h in g.live && !Borrowed(g, h)
    case Wait(h) => h in g.live
    case Recv(w) => w in g.waits && !g.waits[w].reload && g.queue > 0
    case Reload(w) => w in g.waits && g.waits[w].reload
  }

  function Do(g: Group, st: Step): Group
    requires Enabled(g, st)
  {
    match st
    case AddLoad(h, v) => g.(adds := g.adds[g.next := Adding(h, v, g.total, false)], next := g.next + 1)
    case CloneLoad(h) => g.(adds := g.adds[g.next := Adding(h, 1, g.total, true)], next := g.next + 1)
    case AddStore(a) =>
      var d := g.adds[a];
      var g' := g.(total := d.seen + d.amount, stored := g.stored + d.amount, adds := g.adds - {a});
      if d.clone then g'.(live := g.live + {g.next}, next := g.next + 1, clones := g.clones + 1) else g'
    case Drop(h) => g.(live := g.live - {h}, queue := g.queue + 1, drops := g.drops + 1)
    case Wait(h) =>
      if g.total == 0 then g
      else g.(waits := g.waits[g.next := Waiting(h, 0, false)], next := g.next + 1)
    case Recv(w) =>
      g.(waits := g.waits[w := g.waits[w].(current := g.waits[w].current + 1, reload := true)],
         queue := g.queue - 1, received := g.received + 1)
    case Reload(w) =>
      if g.waits[w].current >= g.total then
        g.(waits := g.waits - {w}, finished := g.finished + g.waits[w].current, returned := g.returned + 1)
      else
        g.(waits := g.waits[w := g.waits[w].(reload := false)])
  }

  /** WaitGroup::new: one handle, named 0. */
  predicate New(g: Group) {
    g == Group(0, 0, {0}, map[], map[], 1, 0, 0, 0, 0, 0, 0)
  }

  predicate Runs(g: Group, steps: seq<Step>)
    decreases |steps|
  {
    steps == [] || (Enabled(g, steps[0]) && Runs(Do(g, steps[0]), steps[1..]))
  }

  function Exec(g: Group, steps: seq<Step>): Group
    requires Runs(g, steps)
    decreases |steps|
  {
    if steps == [] then g else Exec(Do(g, steps[0]), steps[1..])
  }

  /** Calls of `add` and `clone` do not overlap: none starts before the last has stored. */
  predicate Serial(g: Group, st: Step) {
    st.AddLoad? || st.CloneLoad? ==> g.adds == map[]
  }

  predicate SerialRun(g: Group, steps: seq<Step>)
    decreases |steps|
  {
    steps == [] || (Enabled(g, steps[0]) && Serial(g, steps[0]) && SerialRun(Do(g, steps[0]), steps[1..]))
  }

  lemma {:induction false} SerialRuns(g: Group, steps: seq<Step>)
    requires SerialRun(g, steps)
    ensures Runs(g, steps)
    decreases |steps|
  {
    if steps == [] {
    } else {
      SerialRuns(Do(g, steps[0]), steps[1..]);
    }
  }

  // ---------------------------------------------------------------- what every run keeps

  ghost predicate Named(g: Group) {
    && (forall h :: h in g.live ==> h < g.next)
    && (forall a :: a in g.adds ==> a < g.next && g.adds[a].h in g.live && (g.adds[a].clone ==> g.adds[a].amount == 1))
    && (forall w :: w in g.waits ==> w < g.next && g.waits[w].h in g.live)
  }

  /** Conservation of handles and of messages, and `total` never above what was added. */
  ghost predicate Counted(g: Group) {
    && |g.live| + g.drops == 1 + g.clones
    && g.drops == g.queue + g.received
    && g.clones <= g.stored
    && g.total <= g.stored
    && (forall a :: a in g.adds ==> g.adds[a].seen <= g.stored)
    && (forall w :: w in g.waits ==> g.waits[w].current <= g.received)
  }

  ghost predicate Inv(g: Group) { Named(g) && Counted(g) }

  lemma InvStep(g: Group, st: Step)
    requires Inv(g) && Enabled(g, st)
    ensures Inv(Do(g, st))
  {
    if st.AddStore? {
      assert g.next !in g.live;
    }
  }

  lemma InvNew(g: Group)
    requires New(g)
    ensures SInv(g)
  {
  }

  lemma {:induction false} InvRun(g: Group, steps: seq<Step>)
    requires Inv(g) && Runs(g, steps)
    ensures Inv(Exec(g, steps))
    decreases |steps|
  {
    if steps == [] {
    } else {
      InvStep(g, steps[0]);
      InvRun(Do(g, steps[0]), steps[1..]);
    }
  }

  lemma Undercounts(g: Group, steps: seq<Step>)
    requires Inv(g) && Runs(g, steps)
    ensures var e := Exec(g, steps);
            && e.total <= e.stored
            && |e.live| == 1 + e.clones - e.drops
            && e.drops == e.queue + e.received
  {
    InvRun(g, steps);
  }

  /** In every interleaving, racing `add`s only undercount; handles and messages are conserved. */
  lemma OnlyUndercounts(g0: Group, steps: seq<Step>)
    requires New(g0) && Runs(g0, steps)
    ensures var g := Exec(g0, steps);
            && g.total <= g.stored
            && |g.live| == 1 + g.clones - g.drops
            && g.drops == g.queue + g.received
  {
    InvNew(g0);
    Undercounts(g0, steps);
  }

  /** This step makes call `w` of `wait` leave its loop. */
  predicate Leaves(g: Group, w: nat) {
    Enabled(g, Reload(w)) && g.waits[w].current >= g.total
  }

  /** Whatever the interleaving, `wait` is right as long as no clone was lost from `total`. */
  lemma RightUnlessLost(g: Group, w: nat)
    requires Inv(g) && Leaves(g, w) && g.clones <= g.total
    ensures g.live == {g.waits[w].h} && g.queue == 0
    ensures g.waits[w].current == g.received == g.drops == g.clones == g.total
  {
    var h := g.waits[w].h;
    assert |g.live - {h}| == 0;
  }

  // ---------------------------------------------------------------- adds that do not overlap

  /** One `add` at a time, and its load is still right. */
  ghost predicate Orderly(g: Group) {
    |g.adds| <= 1 && forall a :: a in g.adds ==> g.adds[a].seen == g.total
  }

  /** Without overlap `total` is exact. */
  ghost predicate Exact(g: Group) {
    g.total == g.stored && Orderly(g)
  }

  /** Every message is received once: by a call that has returned, or by one that still waits. */
  ghost predicate Shared(g: Group) {
    && (forall w :: w in g.waits ==> g.finished + g.waits[w].current <= g.received)
    && (forall v, w :: v in g.waits && w in g.waits && v != w ==>
          g.finished + g.waits[v].current + g.waits[w].current <= g.received)
    && (forall w :: w in g.waits ==>
         if g.waits[w].reload then g.waits[w].current >= 1 else g.waits[w].current < g.total)
    && (g.returned == 0 ==> g.finished == 0)
    && (g.returned >= 1 ==> 1 <= g.finished <= g.received)
    && g.returned <= 1
  }

  ghost predicate SInv(g: Group) { Inv(g) && Exact(g) && Shared(g) }

  lemma OrderlyStep(g: Group, st: Step)
    requires Orderly(g) && Enabled(g, st) && Serial(g, st)
    ensures Orderly(Do(g, st)) && Do(g, st).total == g.total + (if st.AddStore? then g.adds[st.a].amount else 0)
  {
    if st.AddStore? {
      var a := st.a;
      assert a in g.adds.Keys && |g.adds.Keys - {a}| == 0;
      assert Do(g, st).adds == map[];
    } else if st.AddLoad? || st.CloneLoad? {
      assert Do(g, st).adds.Keys == {g.next};
    }
  }

  lemma ExactStep(g: Group, st: Step)
    requires Exact(g) && Enabled(g, st) && Serial(g, st)
    ensures Exact(Do(g, st))
  {
    OrderlyStep(g, st);
  }

  lemma SharedStep(g: Group, st: Step)
    requires SInv(g) && Enabled(g, st)
    ensures Shared(Do(g, st))
  {
    if st.Reload? && Leaves(g, st.w) {
      SharedLeave(g, st.w);
    } else if st.Wait? || st.Recv? || st.Reload? {
      SharedWait(g, st);
    }
  }

  /** The first call to leave has received everything, so the others have received nothing. */
  lemma SharedLeave(g: Group, w: nat)
    requires SInv(g) && Leaves(g, w)
    ensures Shared(Do(g, Reload(w)))
  {
    RightUnlessLost(g, w);
  }

  lemma SharedWait(g: Group, st: Step)
    requires Named(g) && Counted(g) && Shared(g) && Enabled(g, st) && (st.Wait? || st.Recv? || st.Reload?)
    requires !(st.Reload? && Leaves(g, st.w))
    ensures Shared(Do(g, st))
  {
  }

  lemma SInvStep(g: Group, st: Step)
    requires SInv(g) && Enabled(g, st) && Serial(g, st)
    ensures SInv(Do(g, st))
  {
    InvStep(g, st);
    ExactStep(g, st);
    SharedStep(g, st);
  }

  lemma {:induction false} SInvRun(g: Group, steps: seq<Step>)
    requires SInv(g) && SerialRun(g, steps)
    ensures Runs(g, steps) && SInv(Exec(g, steps))
    decreases |steps|
  {
    if steps == [] {
    } else {
      SInvStep(g, steps[0]);
      SInvRun(Do(g, steps[0]), steps[1..]);
    }
  }

  lemma SerialWaitIsSafe(g: Group, steps: seq<Step>, w: nat)
    requires SInv(g) && SerialRun(g, steps) && Runs(g, steps)
    requires Leaves(Exec(g, steps), w)
    ensures Exec(g, steps).live == {Exec(g, steps).waits[w].h}
    ensures Exec(g, steps).queue == 0
  {
    SInvRun(g, steps);
    RightUnlessLost(Exec(g, steps), w);
  }

  /**
   Safety: if calls of `add` do not overlap, then when any `wait` leaves its loop the handle it
   was called on is the only one left, even if handles were cloned while it waited.
   */
  lemma WaitIsSafe(g0: Group, steps: seq<Step>, w: nat)
    requires New(g0) && SerialRun(g0, steps) && Runs(g0, steps)
    requires Leaves(Exec(g0, steps), w)
    ensures Exec(g0, steps).live == {Exec(g0, steps).waits[w].h}
    ensures Exec(g0, steps).queue == 0
  {
    InvNew(g0);
    SerialWaitIsSafe(g0, steps, w);
  }

  /** The same when `wait` returns at its first load because `total` is zero. */
  lemma EarlyReturnIsSafe(g: Group, h: Hid)
    requires Inv(g) && h in g.live && g.total == 0 && g.clones <= g.total
    ensures g.live == {h}
  {
    assert |g.live - {h}| == 0;
  }

  /** The messages are one supply for all calls of `wait`: at most one call gets out of its loop. */
  lemma WaitsAtMostOnce(g0: Group, steps: seq<Step>)
    requires New(g0) && SerialRun(g0, steps)
    ensures Runs(g0, steps) && Exec(g0, steps).returned <= 1
  {
    InvNew(g0);
    SInvRun(g0, steps);
  }

  // ---------------------------------------------------------------- after adds that did overlap

  /** This step ends a call of `wait` on handle `h`: at its first load, or by leaving the loop. */
  predicate Ends(g: Group, st: Step, h: Hid) {
    Enabled(g, st) &&
    match st
    case Wait(h') => h' == h && g.total == 0
    case Reload(w) => g.waits[w].h == h && g.waits[w].current >= g.total
    case _ => false
  }

  /** The handles on which calls of `wait` are in progress. They cannot be dropped. */
  ghost function Waited(g: Group): set<Hid> {
    set w | w in g.waits :: g.waits[w].h
  }

  /** How many handles are live at least when a call of `wait` ends too early, the first that does. */
  ghost function Fewest(g: Group): nat {
    if |Waited(g)| <= 2 then 2 else |Waited(g)|
  }

  /**
   A call that has received `current` messages cannot reach `total` before its handle is alone:
   not with the messages in the queue and those the other handles are going to send.
   */
  ghost predicate FarOff(g: Group, current: nat) {
    current + g.queue + |g.live| < g.total + Fewest(g)
  }

  /** So it is for every call of `wait`, in progress or still to come. */
  ghost predicate Sufficient(g: Group) {
    FarOff(g, 0) && forall w :: w in g.waits ==> FarOff(g, g.waits[w].current)
  }

  ghost predicate Covered(g: Group) {
    Inv(g) && Sufficient(g) && Orderly(g)
  }

  lemma WaitedLive(g: Group)
    requires Named(g)
    ensures Waited(g) <= g.live && |Waited(g)| <= |g.live|
  {
    SubsetSize(Waited(g), g.live);
  }

  lemma {:induction false} SubsetSize(a: set<Hid>, b: set<Hid>)
    requires a <= b
    ensures |a| <= |b|
    decreases a
  {
    if a == {} {
    } else {
      var x :| x in a;
      SubsetSize(a - {x}, b - {x});
    }
  }

  lemma CoveredEnds(g: Group, st: Step, h: Hid)
    requires Covered(g) && Ends(g, st, h)
    ensures g.live == {h}
  {
    WaitedLive(g);
    assert |g.live - {h}| == 0;
  }

  lemma CoveredStep(g: Group, st: Step)
    requires Covered(g) && Enabled(g, st) && Serial(g, st)
    ensures Covered(Do(g, st))
  {
    InvStep(g, st);
    OrderlyStep(g, st);
    if st.AddStore? {
      CoveredStore(g, st);
    } else if st.AddLoad? || st.CloneLoad? {
      assert Waited(Do(g, st)) == Waited(g);
    } else if st.Reload? && Leaves(g, st.w) {
      CoveredLeave(g, st);
    } else {
      CoveredWait(g, st);
    }
  }

  lemma CoveredStore(g: Group, st: Step)
    requires Covered(g) && Enabled(g, st) && st.AddStore? && Inv(Do(g, st)) && Orderly(Do(g, st))
    requires Do(g, st).total == g.total + g.adds[st.a].amount
    ensures Covered(Do(g, st))
  {
    assert Waited(Do(g, st)) == Waited(g);
  }

  /** Nothing is left to be received when a call ends, so calls on the same handle go on waiting. */
  lemma CoveredLeave(g: Group, st: Step)
    requires Covered(g) && st.Reload? && Leaves(g, st.w) && Inv(Do(g, st))
    ensures Covered(Do(g, st))
  {
    var g' := Do(g, st);
    WaitedLive(g);
    WaitedLive(g');
    forall w | w in g'.waits ensures FarOff(g', g'.waits[w].current) {
      assert FarOff(g, g.waits[w].current);
    }
  }

  lemma CoveredWait(g: Group, st: Step)
    requires Covered(g) && Enabled(g, st) && Inv(Do(g, st))
    requires st.Drop? || st.Wait? || st.Recv? || (st.Reload? && !Leaves(g, st.w))
    ensures Covered(Do(g, st))
  {
    var g' := Do(g, st);
    WaitedGrows(g, st);
    forall w | w in g'.waits ensures FarOff(g', g'.waits[w].current) {
      assert w in g.waits ==> FarOff(g, g.waits[w].current);
    }
  }

  lemma WaitedGrows(g: Group, st: Step)
    requires Named(g) && Enabled(g, st) && (st.Reload? ==> !Leaves(g, st.w))
    ensures Waited(g) <= Waited(Do(g, st)) && |Waited(g)| <= |Waited(Do(g, st))|
    ensures !st.Wait? ==> Waited(Do(g, st)) == Waited(g)
  {
    var g' := Do(g, st);
    forall h | h in Waited(g) ensures h in Waited(g') {
      var w :| w in g.waits && g.waits[w].h == h;
      assert w in g'.waits && g'.waits[w].h == h;
    }
    forall h | h in Waited(g') && !st.Wait? ensures h in Waited(g) {
      var w :| w in g'.waits && g'.waits[w].h == h;
      assert w in g.waits && g.waits[w].h == h;
    }
    SubsetSize(Waited(g), Waited(g'));
  }

  lemma {:induction false} CoveredRunEnds(g: Group, steps: seq<Step>, st: Step, h: Hid)
    requires Covered(g) && SerialRun(g, steps) && Runs(g, steps) && Ends(Exec(g, steps), st, h)
    ensures Exec(g, steps).live == {h}
    decreases |steps|
  {
    if steps == [] {
      CoveredEnds(g, st, h);
    } else {
      CoveredStep(g, steps[0]);
      CoveredRunEnds(Do(g, steps[0]), steps[1..], st, h);
    }
  }

  /** Some continuation with non-overlapping adds ends a call of `wait` while another handle is live. */
  ghost predicate CanGoWrong(g: Group) {
    exists steps, st, h: Hid ::
      SerialRun(g, steps) && Runs(g, steps) && Ends(Exec(g, steps), st, h) && Exec(g, steps).live != {h}
  }

  lemma CoveredNeverWrong(g: Group)
    requires Covered(g)
    ensures !CanGoWrong(g)
  {
    forall steps, st, h: Hid | SerialRun(g, steps) && Runs(g, steps) && Ends(Exec(g, steps), st, h)
      ensures Exec(g, steps).live == {h}
    {
      CoveredRunEnds(g, steps, st, h);
    }
  }

  lemma WrongAfter(g: Group, st: Step)
    requires Enabled(g, st) && Serial(g, st) && CanGoWrong(Do(g, st))
    ensures CanGoWrong(g)
  {
    var rest, e, h: Hid :| SerialRun(Do(g, st), rest) && Runs(Do(g, st), rest)
                      && Ends(Exec(Do(g, st), rest), e, h) && Exec(Do(g, st), rest).live != {h};
    var steps := [st] + rest;
    assert steps[1..] == rest;
    assert SerialRun(g, steps) && Runs(g, steps) && Exec(g, steps) == Exec(Do(g, st), rest);
  }

  lemma WrongNow(g: Group, st: Step, h: Hid)
    requires Ends(g, st, h) && g.live != {h}
    ensures CanGoWrong(g)
  {
    assert SerialRun(g, []) && Runs(g, []) && Exec(g, []) == g;
  }

  /** With enough messages in the queue a waiting call gets out whoever else is live. */
  lemma {:induction false} WaitEndsEarly(g: Group, w: nat)
    requires w in g.waits && |g.live| >= 2
    requires g.waits[w].current + g.queue >= g.total
    requires g.waits[w].reload || g.queue > 0
    ensures CanGoWrong(g)
    decreases g.queue, g.waits[w].reload
  {
    if Ends(g, Reload(w), g.waits[w].h) {
      WrongNow(g, Reload(w), g.waits[w].h);
    } else {
      var st := if g.waits[w].reload then Reload(w) else Recv(w);
      WaitEndsEarly(Do(g, st), w);
      WrongAfter(g, st);
    }
  }

  /** Some continuation with non-overlapping adds lets call `w` return. */
  ghost predicate CanReturn(g: Group, w: nat) {
    exists steps :: SerialRun(g, steps) && Runs(g, steps) && w !in Exec(g, steps).waits
  }

  lemma OneMore(g: Group, st: Step, w: nat)
    requires Enabled(g, st) && Serial(g, st) && CanReturn(Do(g, st), w)
    ensures CanReturn(g, w)
  {
    var rest :| SerialRun(Do(g, st), rest) && Runs(Do(g, st), rest) && w !in Exec(Do(g, st), rest).waits;
    var steps := [st] + rest;
    assert steps[1..] == rest;
    assert SerialRun(g, steps) && Runs(g, steps) && Exec(g, steps) == Exec(Do(g, st), rest);
  }

  /** A clone, and back to a state with no `add` in progress: one handle more, and one more in `total`. */
  lemma CloneNow(g: Group, h: Hid, w: nat) returns (g': Group)
    requires Inv(g) && g.adds == map[] && h in g.live
    ensures Inv(g') && g'.adds == map[] && g'.waits == g.waits && Waited(g') == Waited(g) && g'.queue == g.queue
    ensures g'.total == g.total + 1 && |g'.live| == |g.live| + 1 && g.live <= g'.live
    ensures (CanGoWrong(g') ==> CanGoWrong(g)) && (CanReturn(g', w) ==> CanReturn(g, w))
  {
    var m := Do(g, CloneLoad(h));
    InvStep(g, CloneLoad(h));
    InvStep(m, AddStore(g.next));
    g' := Do(m, AddStore(g.next));
    assert m.adds - {g.next} == map[];
    if CanGoWrong(g') {
      WrongAfter(m, AddStore(g.next));
      WrongAfter(g, CloneLoad(h));
    }
    if CanReturn(g', w) {
      OneMore(m, AddStore(g.next), w);
      OneMore(g, CloneLoad(h), w);
    }
  }

  /** One of the handles nobody waits on is dropped. */
  lemma DropNow(g: Group, w: nat) returns (g': Group)
    requires Inv(g) && g.adds == map[] && |g.live| > |Waited(g)|
    ensures Inv(g') && g'.adds == map[] && g'.waits == g.waits && Waited(g') == Waited(g)
    ensures g'.total == g.total && |g'.live| == |g.live| - 1 && g'.queue == g.queue + 1
    ensures (CanGoWrong(g') ==> CanGoWrong(g)) && (CanReturn(g', w) ==> CanReturn(g, w))
  {
    WaitedLive(g);
    if g.live <= Waited(g) {
      SubsetSize(g.live, Waited(g));
    }
    var h :| h in g.live && h !in Waited(g);
    InvStep(g, Drop(h));
    g' := Do(g, Drop(h));
    if CanGoWrong(g') {
      WrongAfter(g, Drop(h));
    }
    if CanReturn(g', w) {
      OneMore(g, Drop(h), w);
    }
  }

  /** Other handles are dropped until call `w` finds enough messages. */
  lemma {:induction false} DropsMislead(g: Group, w: nat)
    requires Inv(g) && g.adds == map[] && w in g.waits && |g.live| >= 2
    requires !FarOff(g, g.waits[w].current)
    ensures CanGoWrong(g)
    decreases |g.live|
  {
    WaitedLive(g);
    if g.waits[w].current + g.queue >= g.total && (g.waits[w].reload || g.queue > 0) {
      WaitEndsEarly(g, w);
    } else if |g.live| > Fewest(g) {
      var g' := DropNow(g, w);
      DropsMislead(g', w);
    } else {
      var more := CloneNow(g, g.waits[w].h, w);
      var g' := DropNow(more, w);
      WaitEndsEarly(g', w);
    }
  }

  lemma LostMisleads(g: Group, w: nat)
    requires Inv(g) && g.adds == map[] && w in g.waits && !FarOff(g, g.waits[w].current)
    ensures CanGoWrong(g)
  {
    if |g.live| >= 2 {
      DropsMislead(g, w);
    } else {
      var more := CloneNow(g, g.waits[w].h, w);
      assert |{g.waits[w].h}| <= |g.live| by { SubsetSize({g.waits[w].h}, g.live); }
      DropsMislead(more, w);
    }
  }

  /** A call to come is no better off than one that starts now. */
  lemma NewWaitMisleads(g: Group, h: Hid)
    requires Inv(g) && g.adds == map[] && g.waits == map[] && h in g.live && !FarOff(g, 0)
    ensures CanGoWrong(g)
    decreases g.total == 0
  {
    assert Waited(g) == {};
    if g.total == 0 {
      assert |{h}| == 1;
      var more := CloneNow(g, h, g.next);
      NewWaitMisleads(more, h);
    } else {
      InvStep(g, Wait(h));
      var g' := Do(g, Wait(h));
      assert g'.waits == map[g.next := Waiting(h, 0, false)] && g.next in g'.waits;
      assert Waited(g') == {h};
      LostMisleads(g', g.next);
      WrongAfter(g, Wait(h));
    }
  }

  /**
   Exactly when `wait` can be trusted, also after adds that overlapped. From any state with no `add`
   in progress: in every continuation with non-overlapping adds every call of `wait`, old or new,
   ends with the only live handle, if and only if no call is near enough to `total`.
   */
  lemma SafeForeverIff(g: Group)
    requires Inv(g) && g.adds == map[] && g.live != {}
    ensures !CanGoWrong(g) <==> Sufficient(g)
  {
    if Sufficient(g) {
      CoveredNeverWrong(g);
    } else if FarOff(g, 0) {
      var w :| w in g.waits && !FarOff(g, g.waits[w].current);
      LostMisleads(g, w);
    } else if w :| w in g.waits {
      LostMisleads(g, w);
    } else {
      var h :| h in g.live;
      NewWaitMisleads(g, h);
    }
  }

  /** When nobody waits either: the clones lost from `total` are no more than the messages received so far. */
  lemma SafeAgainIff(g: Group)
    requires Inv(g) && g.adds == map[] && g.waits == map[] && g.live != {}
    ensures !CanGoWrong(g) <==> g.clones <= g.total + g.received
  {
    SafeForeverIff(g);
    assert Waited(g) == {};
  }

  // ---------------------------------------------------------------- when a wait returns

  /** The call leaves its loop at its next load. */
  predicate AboutToLeave(g: Group, w: nat)
    requires w in g.waits
  {
    g.waits[w].reload && g.waits[w].current >= g.total
  }

  /** The handles that no drop can turn into a message for call `w`: its own, and those of calls that go on waiting. */
  ghost function Occupied(g: Group, w: nat): set<Hid>
    requires w in g.waits
  {
    {g.waits[w].h} + set v | v in g.waits && !AboutToLeave(g, v) :: g.waits[v].h
  }

  /** What it has received, what is in the queue and what the other handles can send is enough for call `w`. */
  ghost predicate Enough(g: Group, w: nat)
    requires w in g.waits
  {
    g.total + |Occupied(g, w)| <= g.waits[w].current + g.queue + |g.live|
  }

  lemma OccupiedStep(g: Group, st: Step, w: nat)
    requires Named(g) && Orderly(g) && Enabled(g, st) && Serial(g, st) && w in g.waits && w in Do(g, st).waits
    requires !st.Recv? || st.w == w
    ensures |Occupied(g, w)| <= |Occupied(Do(g, st), w)|
  {
    var g' := Do(g, st);
    OrderlyStep(g, st);
    forall h | h in Occupied(g, w) ensures h in Occupied(g', w) {
      if h != g.waits[w].h {
        var v :| v in g.waits && !AboutToLeave(g, v) && g.waits[v].h == h;
        assert v in g'.waits && !AboutToLeave(g', v) && g'.waits[v].h == h;
      }
    }
    SubsetSize(Occupied(g, w), Occupied(g', w));
  }

  /** Another call that receives a message takes one away, and gets at most its own handle out of the way. */
  lemma OccupiedRecv(g: Group, v: nat, w: nat)
    requires Enabled(g, Recv(v)) && w in g.waits && v != w
    ensures |Occupied(g, w)| <= |Occupied(Do(g, Recv(v)), w)| + 1
  {
    var g', more := Do(g, Recv(v)), Occupied(Do(g, Recv(v)), w) + {g.waits[v].h};
    forall h | h in Occupied(g, w) && h != g.waits[v].h ensures h in Occupied(g', w) {
      if h != g.waits[w].h {
        var u :| u in g.waits && !AboutToLeave(g, u) && g.waits[u].h == h;
        assert u in g'.waits && !AboutToLeave(g', u) && g'.waits[u].h == h;
      }
    }
    SubsetSize(Occupied(g, w), more);
  }

  lemma OwnHandle(g: Group, w: nat)
    requires Named(g) && w in g.waits
    ensures |Occupied(g, w)| <= |g.live|
  {
    SubsetSize(Occupied(g, w), g.live);
  }

  /** A call about to leave has enough. */
  lemma ShortWaits(g: Group, st: Step, w: nat)
    requires Named(g) && Enabled(g, st) && w in g.waits && !Enough(g, w)
    ensures w in Do(g, st).waits
  {
    OwnHandle(g, w);
  }

  /** What call `w` could get to see, less what it needs. */
  function Tally(g: Group, w: nat): int
    requires w in g.waits
  {
    g.waits[w].current + g.queue + |g.live| - g.total
  }

  /** No step brings call `w` more messages than it brings clones to `total`. */
  lemma TallyStep(g: Group, st: Step, w: nat)
    requires Named(g) && Orderly(g) && Enabled(g, st) && Serial(g, st) && w in g.waits && w in Do(g, st).waits
    ensures Tally(Do(g, st), w) + (if st.Recv? && st.w != w then 1 else 0) <= Tally(g, w)
  {
    if st.AddStore? {
      TallyStore(g, st.a, w);
    }
  }

  lemma TallyStore(g: Group, a: nat, w: nat)
    requires Named(g) && a in g.adds && g.adds[a].seen == g.total && w in g.waits
    ensures w in Do(g, AddStore(a)).waits && Tally(Do(g, AddStore(a)), w) <= Tally(g, w)
  {
    assert g.next !in g.live;
  }

  lemma ShortStep(g: Group, st: Step, w: nat)
    requires Inv(g) && Orderly(g) && Enabled(g, st) && Serial(g, st) && w in g.waits && !Enough(g, w)
    ensures w in Do(g, st).waits && !Enough(Do(g, st), w)
  {
    ShortWaits(g, st, w);
    TallyStep(g, st, w);
    if st.Recv? && st.w != w {
      OccupiedRecv(g, st.w, w);
    } else {
      OccupiedStep(g, st, w);
    }
  }

  lemma {:induction false} ShortStays(g: Group, steps: seq<Step>, w: nat)
    requires Inv(g) && Orderly(g) && SerialRun(g, steps) && w in g.waits && !Enough(g, w)
    ensures Runs(g, steps) && w in Exec(g, steps).waits
    decreases |steps|
  {
    if steps == [] {
    } else {
      ShortStep(g, steps[0], w);
      InvStep(g, steps[0]);
      OrderlyStep(g, steps[0]);
      ShortStays(Do(g, steps[0]), steps[1..], w);
    }
  }

  lemma ReturnsNow(g: Group, w: nat)
    requires w in g.waits && AboutToLeave(g, w)
    ensures CanReturn(g, w)
  {
    var g' := Do(g, Reload(w));
    assert SerialRun(g', []) && Runs(g', []) && Exec(g', []) == g';
    OneMore(g, Reload(w), w);
  }

  lemma {:induction false} QueueSuffices(g: Group, w: nat)
    requires w in g.waits && g.waits[w].current + g.queue >= g.total && (g.waits[w].reload || g.queue > 0)
    ensures CanReturn(g, w)
    decreases g.queue, g.waits[w].reload
  {
    if AboutToLeave(g, w) {
      ReturnsNow(g, w);
    } else {
      var st := if g.waits[w].reload then Reload(w) else Recv(w);
      QueueSuffices(Do(g, st), w);
      OneMore(g, st, w);
    }
  }

  /** The handles nobody waits on are dropped; a clone dropped again is a message that costs nothing. */
  lemma {:induction false} DropsSuffice(g: Group, w: nat)
    requires Inv(g) && g.adds == map[] && w in g.waits
    requires g.total + |Waited(g)| <= g.waits[w].current + g.queue + |g.live|
    ensures CanReturn(g, w)
    decreases |g.live|
  {
    WaitedLive(g);
    if g.waits[w].current + g.queue >= g.total && (g.waits[w].reload || g.queue > 0) {
      QueueSuffices(g, w);
    } else if |g.live| > |Waited(g)| {
      var g' := DropNow(g, w);
      DropsSuffice(g', w);
    } else {
      var more := CloneNow(g, g.waits[w].h, w);
      var g' := DropNow(more, w);
      QueueSuffices(g', w);
    }
  }

  /** Another call that leaves costs nothing. */
  lemma OtherLeaves(g: Group, v: nat, w: nat)
    requires v in g.waits && AboutToLeave(g, v) && w in g.waits && v != w && Enough(g, w)
    ensures var g' := Do(g, Reload(v));
            w in g'.waits && |g'.waits| < |g.waits| && Enough(g', w)
  {
    var g' := Do(g, Reload(v));
    assert g'.waits.Keys == g.waits.Keys - {v} && |g'.waits.Keys| < |g.waits.Keys|;
    forall h | h in Occupied(g', w) ensures h in Occupied(g, w) {
      if h != g.waits[w].h {
        var u :| u in g'.waits && !AboutToLeave(g', u) && g'.waits[u].h == h;
        assert u in g.waits && !AboutToLeave(g, u) && g.waits[u].h == h;
      }
    }
    SubsetSize(Occupied(g', w), Occupied(g, w));
  }

  /** First the other calls that can leave do so. */
  lemma {:induction false} EnoughReturns(g: Group, w: nat)
    requires Inv(g) && g.adds == map[] && w in g.waits && Enough(g, w)
    ensures CanReturn(g, w)
    decreases |g.waits|
  {
    if AboutToLeave(g, w) {
      ReturnsNow(g, w);
    } else if v :| v in g.waits && AboutToLeave(g, v) {
      InvStep(g, Reload(v));
      OtherLeaves(g, v, w);
      EnoughReturns(Do(g, Reload(v)), w);
      OneMore(g, Reload(v), w);
    } else {
      assert Occupied(g, w) == Waited(g);
      DropsSuffice(g, w);
    }
  }

  /**
   Exactly when a call of `wait` that is inside its loop can still return, whatever overlapped before:
   its messages, the queue and the handles that can still be dropped make up for `total`.
   */
  lemma WaitReturnsIff(g: Group, w: nat)
    requires Inv(g) && g.adds == map[] && w in g.waits
    ensures CanReturn(g, w) <==> Enough(g, w)
  {
    if Enough(g, w) {
      EnoughReturns(g, w);
    } else {
      forall steps | SerialRun(g, steps) && Runs(g, steps) ensures w in Exec(g, steps).waits {
        ShortStays(g, steps, w);
      }
    }
  }

  /**
   If adds have never overlapped: only clones have raised `total`, `w` has received every message so
   far, and no other call waits on another handle.
   */
  ghost predicate Promising(g: Group, w: nat)
    requires w in g.waits
  {
    && g.stored == g.clones
    && g.received == g.waits[w].current
    && (forall v :: v in g.waits ==> g.waits[v].h == g.waits[w].h)
  }

  lemma PromisingIsEnough(g: Group, w: nat)
    requires SInv(g) && w in g.waits
    ensures Promising(g, w) <==> Enough(g, w)
  {
    assert g.waits[w].h in Occupied(g, w);
    if Promising(g, w) {
      assert Occupied(g, w) == {g.waits[w].h};
    } else if Enough(g, w) {
      assert |Occupied(g, w) - {g.waits[w].h}| == 0;
      forall v | v in g.waits ensures g.waits[v].h == g.waits[w].h {
        assert v != w ==> !AboutToLeave(g, v);
        assert v != w ==> g.waits[v].h in Occupied(g, w);
      }
    }
  }

  lemma SerialWaitReturnsIff(g: Group, w: nat)
    requires SInv(g) && g.adds == map[] && w in g.waits
    ensures CanReturn(g, w) <==> Promising(g, w)
  {
    WaitReturnsIff(g, w);
    PromisingIsEnough(g, w);
  }

  /** No lost wake-up: the last handle finds exactly the messages it still needs in the queue. */
  lemma NoLostWakeup(g: Group, w: nat)
    requires SInv(g) && w in g.waits && Promising(g, w) && g.live == {g.waits[w].h}
    ensures g.queue == g.total - g.waits[w].current
  {
  }

  /** The receive loop of `wait`, once no other handle is live. */
  method FinishWait(g0: Group, w: nat) returns (g: Group, current: nat)
    requires SInv(g0) && w in g0.waits && Promising(g0, w)
    requires g0.live == {g0.waits[w].h} && !g0.waits[w].reload && g0.waits[w].current < g0.total
    ensures SInv(g) && w !in g.waits && g.returned == g0.returned + 1
    ensures current == g0.total && g.queue == 0 && g.live == g0.live
  {
    g := g0;
    current := g.waits[w].current;
    while true
      invariant SInv(g) && w in g.waits && Promising(g, w) && !g.waits[w].reload
      invariant current == g.waits[w].current < g.total
      invariant g.total == g0.total && g.live == g0.live == {g.waits[w].h} && g.returned == g0.returned
      decreases g.total - current
    {
      NoLostWakeup(g, w);
      SInvStep(g, Recv(w));
      g := Do(g, Recv(w));
      current := current + 1;
      var total := g.total;
      SInvStep(g, Reload(w));
      if current >= total {
        NoLostWakeup(g, w);
        g := Do(g, Reload(w));
        return;
      }
      g := Do(g, Reload(w));
    }
  }

  // ---------------------------------------------------------------- a lost update

  /**
   Two clones whose `add`s overlap lose an update, and `wait` leaves its loop while a clone
   is still live.
   */
  lemma LostUpdate(g0: Group) returns (steps: seq<Step>, w: nat)
    requires New(g0)
    ensures Runs(g0, steps)
    ensures var g := Exec(g0, steps);
            && Leaves(g, w) && g.waits[w].h == 0
            && g.live == {0, 4} && g.clones == 2 && g.total == 1
  {
    var raced := Race(g0);
    var rest := DropAndWait(Exec(g0, raced));
    RunsConcat(g0, raced, rest);
    steps, w := raced + rest, 5;
  }

  lemma Cons(g: Group, st: Step, g': Group, rest: seq<Step>) returns (steps: seq<Step>)
    requires Enabled(g, st) && Do(g, st) == g' && Runs(g', rest)
    ensures Runs(g, steps) && Exec(g, steps) == Exec(g', rest)
  {
    steps := [st] + rest;
    assert steps[1..] == rest;
  }

  lemma DropAndWait(g: Group) returns (steps: seq<Step>)
    requires g == Group(1, 0, {0, 3, 4}, map[], map[], 5, 2, 2, 0, 0, 0, 0)
    ensures Runs(g, steps)
    ensures Exec(g, steps) == Group(1, 0, {0, 4}, map[], map[5 := Waiting(0, 1, true)], 6, 2, 2, 1, 1, 0, 0)
  {
    var g1 := Group(1, 1, {0, 4}, map[], map[], 5, 2, 2, 1, 0, 0, 0);
    var g2 := Group(1, 1, {0, 4}, map[], map[5 := Waiting(0, 0, false)], 6, 2, 2, 1, 0, 0, 0);
    var g3 := Group(1, 0, {0, 4}, map[], map[5 := Waiting(0, 1, true)], 6, 2, 2, 1, 1, 0, 0);
    steps := Cons(g2, Recv(5), g3, []);
    steps := Cons(g1, Wait(0), g2, steps);
    steps := Cons(g, Drop(3), g1, steps);
  }

  lemma Race(g0: Group) returns (steps: seq<Step>)
    requires New(g0)
    ensures Runs(g0, steps)
    ensures Exec(g0, steps) == Group(1, 0, {0, 3, 4}, map[], map[], 5, 2, 2, 0, 0, 0, 0)
  {
    var d := Adding(0, 1, 0, true);
    var g1 := g0.(adds := map[1 := d], next := 2);
    var g2 := g0.(adds := map[1 := d, 2 := d], next := 3);
    var g3 := Group(1, 0, {0, 3}, map[2 := d], map[], 4, 1, 1, 0, 0, 0, 0);
    var g4 := Group(1, 0, {0, 3, 4}, map[], map[], 5, 2, 2, 0, 0, 0, 0);
    steps := Cons(g3, AddStore(2), g4, []);
    steps := Cons(g2, AddStore(1), g3, steps);
    steps := Cons(g1, CloneLoad(0), g2, steps);
    steps := Cons(g0, CloneLoad(0), g1, steps);
  }

  lemma {:induction false} RunsConcat(g: Group, a: seq<Step>, b: seq<Step>)
    requires Runs(g, a) && Runs(Exec(g, a), b)
    ensures Runs(g, a + b) && Exec(g, a + b) == Exec(Exec(g, a), b)
    decreases |a|
  {
    if a == [] {
      assert a + b == b;
    } else {
      RunsConcat(Do(g, a[0]), a[1..], b);
      assert (a + b)[1..] == a[1..] + b;
    }
  }

  // ---------------------------------------------------------------- the calls

  /** What holds of the group, for callers that keep `add`s apart and for those that do not. */
  ghost predicate Kept(g: Group, serial: bool) {
    Inv(g) && (serial ==> SInv(g))
  }

  lemma KeptStep(g: Group, st: Step, serial: bool)
    requires Kept(g, serial) && Enabled(g, st) && (serial ==> Serial(g, st))
    ensures Kept(Do(g, st), serial)
  {
    InvStep(g, st);
    if serial {
      SInvStep(g, st);
    }
  }

  /** Others leave a call of `wait` alone. */
  lemma OtherWait(g: Group, st: Step, w: nat)
    requires Named(g) && Enabled(g, st) && w in g.waits && st != Recv(w) && st != Reload(w)
    ensures w in Do(g, st).waits && Do(g, st).waits[w] == g.waits[w]
    ensures Do(g, st).returned >= g.returned && Do(g, st).finished >= g.finished
  {
  }

  /** Others leave a call of `add` alone, but not what it has loaded. */
  ghost predicate Interfered(g: Group, g': Group, a: nat)
    requires a in g.adds
  {
    && a in g'.adds && g'.adds[a] == g.adds[a]
    && g'.next >= g.next && g'.stored >= g.stored && g'.clones >= g.clones
  }

  lemma OtherAdd(g: Group, st: Step, a: nat)
    requires Named(g) && Enabled(g, st) && a in g.adds && st != AddStore(a)
    ensures Interfered(g, Do(g, st), a)
  {
  }

  /** With one `add` at a time its load stays right until its store. */
  ghost predicate Untouched(g: Group, g': Group) {
    && g'.adds == g.adds && g'.live <= g.live
    && g'.total == g.total && g'.stored == g.stored && g'.clones == g.clones
  }

  lemma OnlyOne(g: Group, a: nat)
    requires Exact(g) && a in g.adds
    ensures g.adds.Keys == {a} && g.adds - {a} == map[]
  {
    assert |g.adds.Keys - {a}| == 0;
  }

  lemma OnlyAdd(g: Group, st: Step, a: nat)
    requires Exact(g) && Enabled(g, st) && Serial(g, st) && a in g.adds && st != AddStore(a)
    ensures Untouched(g, Do(g, st))
  {
    OnlyOne(g, a);
  }

  /** What the entries of `batch` that are possible in their turn lead to, those in `mine` left out. */
  function Played(g: Group, batch: seq<Step>, serial: bool, mine: set<Step>): Group {
    if batch == [] then g
    else
      var m, st := Played(g, batch[..|batch| - 1], serial, mine), batch[|batch| - 1];
      if st !in mine && Enabled(m, st) && (serial ==> Serial(m, st)) then Do(m, st) else m
  }

  /** Nobody else does anything. */
  ghost predicate Silent(env: seq<seq<Step>>) {
    forall i :: 0 <= i < |env| ==> env[i] == []
  }

  /** What a call of `wait` does itself. */
  function OfWait(w: nat): set<Step> { {Recv(w), Reload(w)} }

  /**
   A wait group used by many threads. `serial` says whether all callers keep their `add`s apart.
   Between two operations of a call the other threads do what the batches of `env` say;
   entries that are not possible are skipped.
   */
  class WaitGroup {
    const serial: bool
    var g: Group
    ghost var heard: nat     // batches that the others have had

    ghost predicate Valid()
      reads this
    {
      Kept(g, serial)
    }

    constructor (serial: bool)
      ensures Valid() && New(g) && this.serial == serial && heard == 0
    {
      this.serial := serial;
      g := Group(0, 0, {0}, map[], map[], 1, 0, 0, 0, 0, 0, 0);
      new;
      heard := 0;
      InvNew(g);
    }

    /** One operation of any thread. */
    method Act(st: Step)
      requires Valid() && Enabled(g, st) && (serial ==> Serial(g, st))
      modifies this
      ensures Valid() && g == Do(old(g), st) && heard == old(heard)
    {
      KeptStep(g, st, serial);
      g := Do(g, st);
    }

    /** Everything but what concerns call `w` of `wait`. */
    method Others(w: nat, batch: seq<Step>)
      requires Valid() && w in g.waits
      modifies this
      ensures Valid() && g == Played(old(g), batch, serial, OfWait(w)) && heard == old(heard) + 1
      ensures w in g.waits && g.waits[w] == old(g.waits[w])
      ensures g.returned >= old(g.returned) && g.finished >= old(g.finished)
    {
      for i := 0 to |batch|
        invariant Valid() && g == Played(old(g), batch[..i], serial, OfWait(w)) && heard == old(heard)
        invariant w in g.waits && g.waits[w] == old(g.waits[w])
        invariant g.returned >= old(g.returned) && g.finished >= old(g.finished)
      {
        assert batch[..i + 1][..i] == batch[..i];
        var st := batch[i];
        if st !in OfWait(w) && Enabled(g, st) && (serial ==> Serial(g, st)) {
          OtherWait(g, st, w);
          Act(st);
        }
      }
      assert batch[..|batch|] == batch;
      heard := heard + 1;
    }

    /** What others do between the load and the store of call `a` of add; if adds are kept apart they do not add. */
    method Between(a: nat, batch: seq<Step>)
      requires Valid() && a in g.adds
      modifies this
      ensures Valid() && g == Played(old(g), batch, serial, {AddStore(a)})
      ensures Interfered(old(g), g, a)
      ensures serial ==> Untouched(old(g), g)
    {
      for i := 0 to |batch|
        invariant Valid() && g == Played(old(g), batch[..i], serial, {AddStore(a)})
        invariant Interfered(old(g), g, a)
        invariant serial ==> Untouched(old(g), g)
      {
        assert batch[..i + 1][..i] == batch[..i];
        if batch[i] !in {AddStore(a)} && Enabled(g, batch[i]) && (serial ==> Serial(g, batch[i])) {
          OtherAdd(g, batch[i], a);
          if serial {
            OnlyAdd(g, batch[i], a);
          }
          Act(batch[i]);
        }
      }
      assert batch[..|batch|] == batch;
    }

    /**
     add: a load, and a store of the sum. Its store wins over whatever was added in between; kept
     apart, nothing was.
     */
    method Add(h: Hid, v: nat, between: seq<Step>)
      requires Valid() && h in g.live
      requires serial ==> g.adds == map[]
      modifies this
      ensures Valid() && h in g.live
      ensures var a := old(g.next); var m := Played(Do(old(g), AddLoad(h, v)), between, serial, {AddStore(a)});
              a in m.adds && g == m.(total := old(g.total) + v, stored := m.stored + v, adds := m.adds - {a})
      ensures g.total == old(g.total) + v && g.stored >= old(g.stored) + v && g.clones >= old(g.clones)
      ensures serial ==>
                g.adds == map[] && g.stored == old(g.stored) + v && g.clones == old(g.clones) && g.live <= old(g.live)
    {
      var a := g.next;
      Act(AddLoad(h, v));
      Between(a, between);
      if serial {
        OnlyOne(g, a);
      }
      Act(AddStore(a));
    }

    /** clone: add(1), and a new handle. */
    method Clone(h: Hid, between: seq<Step>) returns (h': Hid)
      requires Valid() && h in g.live
      requires serial ==> g.adds == map[]
      modifies this
      ensures Valid() && h in g.live && h' in g.live && h' !in old(g.live)
      ensures var a := old(g.next); var m := Played(Do(old(g), CloneLoad(h)), between, serial, {AddStore(a)});
              && a in m.adds && h' !in m.live && g.live == m.live + {h'} && g.adds == m.adds - {a}
              && g.queue == m.queue && g.waits == m.waits && g.stored == m.stored + 1 && g.clones == m.clones + 1
      ensures g.total == old(g.total) + 1 && g.clones >= old(g.clones) + 1
      ensures serial ==> g.adds == map[] && g.clones == old(g.clones) + 1 && g.live <= old(g.live) + {h'}
    {
      var a := g.next;
      Act(CloneLoad(h));
      Between(a, between);
      h' := g.next;
      if serial {
        OnlyOne(g, a);
      }
      Act(AddStore(a));
    }

    /** Drop::drop: one message. */
    method Drop(h: Hid)
      requires Valid() && h in g.live && !Borrowed(g, h)
      modifies this
      ensures Valid() && g.live == old(g.live) - {h} && g.queue == old(g.queue) + 1 && g.total == old(g.total)
      ensures g == old(g).(live := g.live, queue := g.queue, drops := old(g.drops) + 1)
    {
      Act(Step.Drop(h));
    }

    /**
     wait. `current` messages have been received by call `w`, and `i` batches were played. If the call
     returns and no clone is missing from `total`, `h` is the only handle left, whatever was cloned and
     dropped meanwhile. It waits for nothing but a message: if the batches run out first, the queue is empty.
     */
    method Wait(h: Hid, env: seq<seq<Step>>) returns (done: bool, ghost w: nat, current: nat, i: nat)
      requires Valid() && h in g.live
      modifies this
      ensures Valid() && i <= |env|
      ensures heard == old(heard) + i
      ensures done && (serial || g.clones <= g.total) ==> g.live == {h}
      ensures old(g.total) == 0 ==> done && g == old(g)
      ensures old(g.total) != 0 && done ==>
                && w !in g.waits && current >= g.total
                && g.returned > old(g.returned) && g.finished >= old(g.finished) + current
      ensures !done ==>
                && w in g.waits && g.waits[w] == Waiting(h, current, false)
                && old(g.total) != 0 && g.queue == 0 && i == |env|
      ensures Silent(env) ==> (done <==> old(g.queue) >= old(g.total))
      ensures Silent(env) && done ==> g.queue == old(g.queue) - old(g.total) && g.total == old(g.total)
    {
      done, w, current, i := false, g.next, 0, 0;
      if g.total == 0 {
        if g.clones <= g.total {
          EarlyReturnIsSafe(g, h);
        }
        return true, w, 0, 0;
      }
      var call := g.next;
      Act(Step.Wait(h));
      done, current, i := ReceiveAll(call, env, i);
    }

    /** The loop of wait: turns until a load of `total` is no more than the messages received. */
    method ReceiveAll(call: nat, env: seq<seq<Step>>, i0: nat) returns (done: bool, current: nat, i: nat)
      requires Valid() && call in g.waits && g.waits[call].current == 0 && !g.waits[call].reload && g.total != 0
      requires i0 <= |env|
      modifies this
      ensures Valid() && i <= |env|
      ensures heard == old(heard) + i - i0
      ensures done && (serial || g.clones <= g.total) ==> g.live == {old(g.waits[call].h)}
      ensures done ==>
                && call !in g.waits && current >= g.total
                && g.returned > old(g.returned) && g.finished >= old(g.finished) + current
      ensures !done ==>
                && call in g.waits && g.waits[call] == old(g.waits[call]).(current := current)
                && g.queue == 0 && i == |env|
      ensures Silent(env) ==> g.total == old(g.total) && g.queue + current == old(g.queue)
      ensures Silent(env) ==> if done then current == g.total else current < g.total
    {
      done, current, i := false, 0, i0;
      while !done
        invariant Valid() && i <= |env| && heard == old(heard) + i - i0
        invariant done && (serial || g.clones <= g.total) ==> g.live == {old(g.waits[call].h)}
        invariant done ==>
                    && call !in g.waits && current >= g.total
                    && g.returned > old(g.returned) && g.finished >= old(g.finished) + current
        invariant !done ==>
                    && call in g.waits && g.waits[call] == old(g.waits[call]).(current := current)
                    && g.returned >= old(g.returned) && g.finished >= old(g.finished)
        invariant Silent(env) ==> g.total == old(g.total) && g.queue + current == old(g.queue)
        invariant Silent(env) ==> if done then current == g.total else current < g.total
        decreases |env| - i, g.queue, !done
      {
        i := AwaitMessage(call, env, i);
        if g.queue == 0 {
          return;
        }
        done, i := Receive(call, env, i);
        current := current + 1;
      }
    }

    /** The next batch of the others, if there is one left. */
    method Pause(w: nat, env: seq<seq<Step>>, i: nat) returns (j: nat)
      requires Valid() && w in g.waits && i <= |env|
      modifies this
      ensures Valid() && j == (if i < |env| then i + 1 else i)
      ensures heard == old(heard) + j - i
      ensures g == if i < |env| then Played(old(g), env[i], serial, OfWait(w)) else old(g)
      ensures w in g.waits && g.waits[w] == old(g.waits[w])
      ensures g.returned >= old(g.returned) && g.finished >= old(g.finished)
      ensures Silent(env) ==> g == old(g)
    {
      j := i;
      if i < |env| {
        Others(w, env[i]);
        j := i + 1;
      }
    }

    /** The turn of the others before a recv, which blocks as long as there is no message. */
    method AwaitMessage(w: nat, env: seq<seq<Step>>, i0: nat) returns (i: nat)
      requires Valid() && w in g.waits && i0 <= |env|
      modifies this
      ensures Valid() && i0 <= i <= |env| && (g.queue == 0 ==> i == |env|)
      ensures heard == old(heard) + i - i0
      ensures i == i0 ==> g == old(g)
      ensures w in g.waits && g.waits[w] == old(g.waits[w])
      ensures g.returned >= old(g.returned) && g.finished >= old(g.finished)
      ensures Silent(env) ==> g == old(g)
    {
      i := Pause(w, env, i0);
      while g.queue == 0 && i < |env|
        invariant Valid() && i0 <= i <= |env| && (i == i0 ==> g == old(g))
        invariant heard == old(heard) + i - i0
        invariant w in g.waits && g.waits[w] == old(g.waits[w])
        invariant g.returned >= old(g.returned) && g.finished >= old(g.finished)
        invariant Silent(env) ==> g == old(g)
        decreases |env| - i
      {
        i := Pause(w, env, i);
      }
    }

    /** The receipt of a message, and what others do before `total` is loaded. */
    method TakeOne(call: nat, env: seq<seq<Step>>, i0: nat) returns (i: nat)
      requires Valid() && call in g.waits && !g.waits[call].reload && g.queue > 0 && i0 <= |env|
      modifies this
      ensures Valid() && i == (if i0 < |env| then i0 + 1 else i0)
      ensures i == i0 ==> g.queue == old(g.queue) - 1
      ensures heard == old(heard) + i - i0
      ensures call in g.waits
      ensures g.waits[call] == Waiting(old(g.waits[call].h), old(g.waits[call].current) + 1, true)
      ensures g.returned >= old(g.returned) && g.finished >= old(g.finished)
      ensures Silent(env) ==> g.total == old(g.total) && g.queue == old(g.queue) - 1
    {
      Act(Recv(call));
      i := Pause(call, env, i0);
    }

    /** One turn of the loop: receive a message, then load `total` and leave if it is reached. */
    method Receive(call: nat, env: seq<seq<Step>>, i0: nat) returns (done: bool, i: nat)
      requires Valid() && call in g.waits && !g.waits[call].reload && g.queue > 0 && i0 <= |env|
      modifies this
      ensures Valid() && i0 <= i <= |env|
      ensures heard == old(heard) + i - i0
      ensures i == (if i0 < |env| then i0 + 1 else i0) && (i == i0 ==> g.queue == old(g.queue) - 1)
      ensures g.returned >= old(g.returned) && g.finished >= old(g.finished)
      ensures done ==>
                && call !in g.waits && old(g.waits[call].current) + 1 >= g.total
                && g.returned > old(g.returned) && g.finished >= old(g.finished) + old(g.waits[call].current) + 1
      ensures done && (serial || g.clones <= g.total) ==> g.live == {old(g.waits[call].h)}
      ensures !done ==>
                && call in g.waits && g.waits[call] == old(g.waits[call]).(current := old(g.waits[call].current) + 1)
                && g.waits[call].current < g.total
      ensures Silent(env) ==> g.total == old(g.total) && g.queue == old(g.queue) - 1
    {
      i := TakeOne(call, env, i0);
      done := g.waits[call].current >= g.total;
      if done && (serial || g.clones <= g.total) {
        RightUnlessLost(g, call);
      }
      Act(Reload(call));
    }
  }
}
