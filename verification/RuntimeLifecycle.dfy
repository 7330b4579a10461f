/** Background loops and process shutdown. Every critical section is one atomic
    step, channels have identities, and a run is any list of enabled actions of
    tasks, waiters, stoppers and the shutdown thread. */
module RuntimeLifecycle {
  import opened Basics

  const HTTP_SHUTDOWN_SECONDS := 30
  const MAX_HTTP_SHUTDOWN_SECONDS := 40

  // ---------- the loops ----------

  /** `closed` lists the channels closed so far, in order; `issued` counts identities handed out. */
  datatype Loops = Loops(stopping: bool, active: int, idle: nat, issued: nat, closed: seq<nat>)

  const NEW_LOOPS := Loops(false, 0, 0, 1, [0])

  function Admit(l: Loops): Loops {
    if l.stopping then l
    else if l.active == 0 then l.(active := 1, idle := l.issued, issued := l.issued + 1)
    else l.(active := l.active + 1)
  }

  function Finish(l: Loops): Loops {
    var left := l.(active := l.active - 1);
    if left.active == 0 then left.(closed := left.closed + [left.idle]) else left
  }

  function Halt(l: Loops): Loops {
    l.(stopping := true)
  }

  /** The current channel is closed exactly when nothing is active, and no channel twice. */
  ghost predicate LoopsInv(l: Loops) {
    && l.active >= 0
    && l.idle < l.issued && (forall c | c in l.closed :: c < l.issued)
    && (l.idle in l.closed <==> l.active == 0)
    && Distinct(l.closed)
  }

  lemma {:induction false} FinishKeepsLoops(l: Loops)
    requires LoopsInv(l) && l.active > 0
    ensures LoopsInv(Finish(l))
  {
    DistinctConcat(l.closed, [l.idle]);
  }

  // ---------- the object ----------

  class Channel {
    var closed: bool
    ghost const id: nat

    constructor (ghost id: nat)
      ensures !closed && this.id == id
    {
      this.id := id;
      closed := false;
    }

    /** Closing a closed channel panics, so callers must rule it out. */
    method Close()
      requires !closed
      modifies this
      ensures closed
    {
      closed := true;
    }
  }

  class RuntimeLoops {
    var stopping: bool
    var active: int
    var idle: Channel
    ghost var issued: nat
    ghost var closedIds: seq<nat>

    ghost function View(): Loops
      reads this
    {
      Loops(stopping, active, idle.id, issued, closedIds)
    }

    ghost predicate Valid()
      reads this, idle
    {
      LoopsInv(View()) && (idle.closed <==> idle.id in closedIds)
    }

    constructor ()
      ensures Valid() && View() == NEW_LOOPS && fresh(idle)
    {
      var channel := new Channel(0);
      channel.Close();
      stopping, active, idle := false, 0, channel;
      this.issued, closedIds := 1, [0];
    }

    /** Admission under the lock; the admitted task calls `Done` when it ends. */
    method Go() returns (admitted: bool)
      requires Valid()
      modifies this
      ensures Valid() && View() == Admit(old(View())) && admitted == !old(stopping)
      ensures idle == old(idle) || fresh(idle)
    {
      if stopping {
        return false;
      }
      if active == 0 {
        idle := new Channel(this.issued);
        this.issued := this.issued + 1;
      }
      active := active + 1;
      return true;
    }

    method Done()
      requires Valid() && active > 0
      modifies this, idle
      ensures Valid() && View() == Finish(old(View())) && idle == old(idle)
    {
      FinishKeepsLoops(View());
      active := active - 1;
      if active == 0 {
        idle.Close();
        closedIds := closedIds + [idle.id];
      }
    }

    method Stop()
      requires Valid()
      modifies this
      ensures Valid() && View() == Halt(old(View())) && idle == old(idle)
    {
      stopping := true;
    }
  }

  // ---------- waiting ----------

  /** A waiter holds the channel it read. `sawIdle` records whether nothing was
      active at some moment since, `afterStop` whether Stop came before. */
  datatype Waiter = Waiter(channel: nat, afterStop: bool, sawIdle: bool)

  function Snapshot(l: Loops): Waiter {
    Waiter(l.idle, l.stopping, l.active == 0)
  }

  function Observe(w: Waiter, l: Loops): Waiter {
    w.(sawIdle := w.sawIdle || l.active == 0)
  }

  ghost predicate WaiterInv(l: Loops, w: Waiter) {
    && (w.channel in l.closed <==> w.sawIdle)
    && (!w.sawIdle ==> w.channel == l.idle && l.active > 0)
    && w.channel < l.issued
    && (w.afterStop ==> l.stopping && w.channel == l.idle)
  }

  /** A waiter's channel is closed exactly when there was an idle moment since it looked. */
  lemma {:induction false} WaiterFollows(l: Loops, l': Loops, w: Waiter)
    requires LoopsInv(l) && WaiterInv(l, w)
    requires l' == Admit(l) || l' == Halt(l) || (l.active > 0 && l' == Finish(l))
    ensures WaiterInv(l', Observe(w, l'))
  {
  }

  /** Nothing runs and nothing can start. */
  predicate Quiet(l: Loops) {
    l.stopping && l.active == 0
  }

  // ---------- shutdown ----------

  datatype StoreStep = FlushQuota | FlushBatch | FlushPerf | CloseValkey | CloseDB

  /** Which optional steps are provided; `stores` lists the store steps among them, in order. */
  datatype Wiring = Wiring(stopLoops: bool, drainSockets: bool, shutdownHTTP: bool, waitLoops: bool, waitRefunds: bool,
                           stores: seq<StoreStep>)

  datatype StoreFlags = StoreFlags(flushQuota: bool, flushBatch: bool, flushPerf: bool,
    closeValkey: bool, closeDB: bool)

  datatype Pc =
    | AtStop | AtSockets | AtHTTP | AtSnapshot | AtWait | AtDecide | AtRefunds | AtStores(next: nat) | Finished

  datatype Shutdown = Shutdown(pc: Pc, drainFailed: bool, refundsComplete: bool, waiter: Waiter, stores: seq<StoreStep>)

  function WiredStores(f: StoreFlags): seq<StoreStep> {
    (if f.flushQuota then [FlushQuota] else []) + (if f.flushBatch then [FlushBatch] else [])
    + (if f.flushPerf then [FlushPerf] else []) + (if f.closeValkey then [CloseValkey] else [])
    + (if f.closeDB then [CloseDB] else [])
  }

  /** The outcome of every step when the procedure runs alone. */
  datatype Outcomes = Outcomes(sockets: bool, http: bool, loops: bool, refundsComplete: bool,
    refunds: bool, valkey: bool, db: bool)

  predicate MayTouchStores(w: Wiring, o: Outcomes) {
    DrainsSucceed(w, o) && (w.waitRefunds ==> o.refundsComplete)
  }

  /** The stores are flushed and closed, all of them and in order, exactly when
      every drain succeeded and the refunds are complete; any error is reported. */
  method ShutdownRuntime(w: Wiring, f: StoreFlags, o: Outcomes) returns (stores: seq<StoreStep>, ok: bool)
    requires w.stores == WiredStores(f)
    ensures stores == if MayTouchStores(w, o) then w.stores else []
    ensures ok <==> MayTouchStores(w, o) && (w.waitRefunds ==> o.refunds)
                    && (f.closeValkey ==> o.valkey) && (f.closeDB ==> o.db)
  {
    ok := true;
    if w.drainSockets {
      ok := ok && o.sockets;
    }
    if w.shutdownHTTP {
      ok := ok && o.http;
    }
    if w.waitLoops {
      ok := ok && o.loops;
    }
    if !ok {
      return [], false;
    }
    if w.waitRefunds {
      ok := ok && o.refunds;
      if !o.refundsComplete {
        return [], false;
      }
    }
    var closed: bool;
    stores, closed := FlushAndClose(f, o);
    ok := ok && closed;
  }

  method FlushAndClose(f: StoreFlags, o: Outcomes) returns (stores: seq<StoreStep>, ok: bool)
    ensures stores == WiredStores(f)
    ensures ok <==> (f.closeValkey ==> o.valkey) && (f.closeDB ==> o.db)
  {
    stores, ok := [], true;
    if f.flushQuota {
      stores := stores + [FlushQuota];
    }
    if f.flushBatch {
      stores := stores + [FlushBatch];
    }
    if f.flushPerf {
      stores := stores + [FlushPerf];
    }
    if f.closeValkey {
      stores := stores + [CloseValkey];
      ok := ok && o.valkey;
    }
    if f.closeDB {
      stores := stores + [CloseDB];
      ok := ok && o.db;
    }
  }

  predicate DrainsSucceed(w: Wiring, o: Outcomes) {
    (w.drainSockets ==> o.sockets) && (w.shutdownHTTP ==> o.http) && (w.waitLoops ==> o.loops)
  }

  function ConfiguredShutdownSeconds(seconds: int): (r: int)
    ensures 0 < r <= MAX_HTTP_SHUTDOWN_SECONDS
    ensures 0 < seconds <= MAX_HTTP_SHUTDOWN_SECONDS ==> r == seconds
  {
    if seconds <= 0 then HTTP_SHUTDOWN_SECONDS
    else if seconds > MAX_HTTP_SHUTDOWN_SECONDS then MAX_HTTP_SHUTDOWN_SECONDS
    else seconds
  }

  // ---------- every interleaving ----------

  datatype System = System(loops: Loops, tasks: set<nat>, nextTask: nat, waiters: map<nat, Waiter>, shutdown: Shutdown)

  /** `viaChannel` picks the channel in the shutdown's own wait, `ok` is the
      outcome of a drain, `complete` that of the refund drain. */
  datatype Action =
    | Go
    | Done(task: nat)
    | Stop
    | Look(waiter: nat)
    | Shut(ok: bool, complete: bool, viaChannel: bool)

  const START := System(NEW_LOOPS, {}, 0, map[], Shutdown(AtStop, false, false, Waiter(0, false, true), []))

  predicate Enabled(w: Wiring, s: System, a: Action) {
    match a
    case Go => true
    case Done(task) => task in s.tasks
    case Stop => true
    case Look(_) => true
    case Shut(_, _, viaChannel) =>
      !s.shutdown.pc.Finished? && (s.shutdown.pc.AtWait? && viaChannel ==> s.shutdown.waiter.channel in s.loops.closed)
  }

  function WithLoops(s: System, l: Loops): System {
    s.(loops := l,
       waiters := map k | k in s.waiters :: Observe(s.waiters[k], l),
       shutdown := s.shutdown.(waiter := Observe(s.shutdown.waiter, l)))
  }

  function Apply(w: Wiring, s: System, a: Action): System {
    match a
    case Go =>
      if s.loops.stopping then s
      else WithLoops(s.(tasks := s.tasks + {s.nextTask}, nextTask := s.nextTask + 1), Admit(s.loops))
    case Done(task) => WithLoops(s.(tasks := s.tasks - {task}), Finish(s.loops))
    case Stop => WithLoops(s, Halt(s.loops))
    case Look(k) => s.(waiters := s.waiters[k := Snapshot(s.loops)])
    case Shut(ok, complete, viaChannel) => ApplyShut(w, s, ok, complete, viaChannel)
  }

  function ApplyShut(w: Wiring, s: System, ok: bool, complete: bool, viaChannel: bool): System {
    var d := s.shutdown;
    match d.pc
    case AtStop =>
      var s' := if w.stopLoops then WithLoops(s, Halt(s.loops)) else s;
      s'.(shutdown := s'.shutdown.(pc := AtSockets))
    case AtSockets => s.(shutdown := d.(pc := AtHTTP, drainFailed := d.drainFailed || (w.drainSockets && !ok)))
    case AtHTTP => s.(shutdown := d.(pc := AtSnapshot, drainFailed := d.drainFailed || (w.shutdownHTTP && !ok)))
    case AtSnapshot =>
      if w.waitLoops then s.(shutdown := d.(pc := AtWait, waiter := Snapshot(s.loops)))
      else s.(shutdown := d.(pc := AtDecide))
    case AtWait => s.(shutdown := d.(pc := AtDecide, drainFailed := d.drainFailed || !viaChannel || !ok))
    case AtDecide => s.(shutdown := d.(pc := if d.drainFailed then Finished else AtRefunds))
    case AtRefunds =>
      s.(shutdown := d.(pc := if w.waitRefunds && !complete then Finished else AtStores(0),
                           refundsComplete := complete))
    case AtStores(i) =>
      if i < |w.stores| then s.(shutdown := d.(pc := AtStores(i + 1), stores := d.stores + [w.stores[i]]))
      else s.(shutdown := d.(pc := Finished))
    case Finished => s
  }

  /** The state after a list of actions, and whether each was enabled when taken. */
  function Exec(w: Wiring, run: seq<Action>): System {
    if run == [] then START else Apply(w, Exec(w, run[..|run| - 1]), run[|run| - 1])
  }

  predicate IsRun(w: Wiring, run: seq<Action>) {
    forall i :: 0 <= i < |run| ==> Enabled(w, Exec(w, run[..i]), run[i])
  }

  // ---------- what every run keeps ----------

  ghost predicate LoopsKept(s: System) {
    && LoopsInv(s.loops)
    && s.loops.active == |s.tasks| && (forall t | t in s.tasks :: t < s.nextTask)
    && (forall k | k in s.waiters :: WaiterInv(s.loops, s.waiters[k]))
  }

  /** The producers are known to be drained once the shutdown has decided to go on. */
  predicate Drained(w: Wiring, s: System) {
    !s.shutdown.drainFailed && (w.stopLoops && w.waitLoops ==> Quiet(s.loops))
  }

  ghost predicate ShutdownKept(w: Wiring, s: System) {
    var d := s.shutdown;
    && (!d.pc.AtStop? && w.stopLoops ==> s.loops.stopping)
    && match d.pc
       case AtWait => d.stores == [] && WaiterInv(s.loops, d.waiter) && (w.stopLoops ==> d.waiter.afterStop)
       case AtDecide => d.stores == [] && (d.drainFailed || Drained(w, s))
       case AtRefunds => d.stores == [] && Drained(w, s)
       case AtStores(i) => i <= |w.stores| && d.stores == w.stores[..i] && Drained(w, s) && RefundsDone(w, d)
       case Finished =>
         if d.drainFailed || !RefundsDone(w, d) then d.stores == [] else d.stores == w.stores && Drained(w, s)
       case _ => d.stores == []
  }

  predicate RefundsDone(w: Wiring, d: Shutdown) {
    w.waitRefunds ==> d.refundsComplete
  }

  ghost predicate Kept(w: Wiring, s: System) {
    LoopsKept(s) && ShutdownKept(w, s)
  }

  /** What a step of the loops does to everybody watching them. */
  lemma {:induction false} LoopStepKeeps(w: Wiring, s: System, t: System, l: Loops)
    requires Kept(w, s) && t.waiters == s.waiters && t.shutdown == s.shutdown
    requires l == Admit(s.loops) || l == Halt(s.loops) || (s.loops.active > 0 && l == Finish(s.loops))
    requires LoopsInv(l) && l.active == |t.tasks| && (forall k | k in t.tasks :: k < t.nextTask)
    ensures Kept(w, WithLoops(t, l))
  {
    forall k | k in s.waiters ensures WaiterInv(l, Observe(s.waiters[k], l)) {
      WaiterFollows(s.loops, l, s.waiters[k]);
    }
    if s.shutdown.pc.AtWait? {
      WaiterFollows(s.loops, l, s.shutdown.waiter);
    }
  }

  lemma {:induction false} TaskStepKeeps(w: Wiring, s: System, a: Action)
    requires Kept(w, s) && Enabled(w, s, a) && !a.Shut?
    ensures Kept(w, Apply(w, s, a))
  {
    match a
    case Go =>
      if !s.loops.stopping {
        LoopStepKeeps(w, s, s.(tasks := s.tasks + {s.nextTask}, nextTask := s.nextTask + 1), Admit(s.loops));
      }
    case Done(task) =>
      assert s.tasks == (s.tasks - {task}) + {task};
      FinishKeepsLoops(s.loops);
      LoopStepKeeps(w, s, s.(tasks := s.tasks - {task}), Finish(s.loops));
    case Stop => LoopStepKeeps(w, s, s, Halt(s.loops));
    case Look(_) =>
  }

  lemma {:induction false} DrainStepKeeps(w: Wiring, s: System, ok: bool, complete: bool, viaChannel: bool)
    requires Kept(w, s) && Enabled(w, s, Shut(ok, complete, viaChannel))
    requires s.shutdown.pc.AtSockets? || s.shutdown.pc.AtHTTP? || s.shutdown.pc.AtSnapshot? || s.shutdown.pc.AtWait?
    ensures Kept(w, ApplyShut(w, s, ok, complete, viaChannel))
  {
  }

  lemma {:induction false} StoreStepKeeps(w: Wiring, s: System, ok: bool, complete: bool, viaChannel: bool)
    requires Kept(w, s) && (s.shutdown.pc.AtDecide? || s.shutdown.pc.AtRefunds? || s.shutdown.pc.AtStores?)
    ensures Kept(w, ApplyShut(w, s, ok, complete, viaChannel))
  {
    if s.shutdown.pc.AtStores? {
      var i := s.shutdown.pc.next;
      assert i < |w.stores| ==> w.stores[..i + 1] == w.stores[..i] + [w.stores[i]];
      assert w.stores[..|w.stores|] == w.stores;
    }
  }

  lemma {:induction false} ShutStepKeeps(w: Wiring, s: System, ok: bool, complete: bool, viaChannel: bool)
    requires Kept(w, s) && Enabled(w, s, Shut(ok, complete, viaChannel))
    ensures Kept(w, ApplyShut(w, s, ok, complete, viaChannel))
  {
    if s.shutdown.pc.AtStop? {
      LoopStepKeeps(w, s, s, Halt(s.loops));
    } else if s.shutdown.pc.AtDecide? || s.shutdown.pc.AtRefunds? || s.shutdown.pc.AtStores? {
      StoreStepKeeps(w, s, ok, complete, viaChannel);
    } else {
      DrainStepKeeps(w, s, ok, complete, viaChannel);
    }
  }

  lemma {:induction false} RunsKeep(w: Wiring, run: seq<Action>)
    requires IsRun(w, run)
    ensures Kept(w, Exec(w, run))
    decreases |run|
  {
    if run != [] {
      var before, a := run[..|run| - 1], run[|run| - 1];
      assert forall i | 0 <= i < |before| :: before[..i] == run[..i];
      RunsKeep(w, before);
      var s := Exec(w, before);
      if a.Shut? {
        ShutStepKeeps(w, s, a.ok, a.complete, a.viaChannel);
      } else {
        TaskStepKeeps(w, s, a);
      }
    }
  }

  // ---------- the promises ----------

  lemma {:induction false} QuietStep(w: Wiring, s: System, a: Action)
    requires Kept(w, s) && Quiet(s.loops) && Enabled(w, s, a)
    ensures Quiet(Apply(w, s, a).loops)
  {
    assert s.tasks == {};
  }

  /** Quiet is for ever. */
  lemma {:induction false} QuietForever(w: Wiring, run: seq<Action>, more: seq<Action>)
    requires IsRun(w, run + more) && Quiet(Exec(w, run).loops)
    ensures Quiet(Exec(w, run + more).loops) && Exec(w, run + more).tasks == {}
    decreases |more|
  {
    if more == [] {
      assert run + more == run;
      QuietIsIdle(w, run);
    } else {
      var before, a := run + more[..|more| - 1], more[|more| - 1];
      assert run + more == before + [a];
      LastAction(w, before, a);
      QuietForever(w, run, more[..|more| - 1]);
      RunsKeep(w, before);
      QuietStep(w, Exec(w, before), a);
      QuietIsIdle(w, before + [a]);
    }
  }

  lemma {:induction false} LastAction(w: Wiring, run: seq<Action>, a: Action)
    requires IsRun(w, run + [a])
    ensures IsRun(w, run) && Enabled(w, Exec(w, run), a) && Exec(w, run + [a]) == Apply(w, Exec(w, run), a)
  {
    RunPrefix(w, run, [a]);
    assert (run + [a])[..|run|] == run;
  }

  lemma {:induction false} QuietIsIdle(w: Wiring, run: seq<Action>)
    requires IsRun(w, run) && Quiet(Exec(w, run).loops)
    ensures Exec(w, run).tasks == {}
  {
    RunsKeep(w, run);
  }

  /** In every reachable state: the counter is the number of admitted unfinished
      tasks, the current channel is closed exactly at zero, and no channel has
      been closed twice. */
  lemma {:induction false} LoopsAreExact(w: Wiring, run: seq<Action>)
    requires IsRun(w, run)
    ensures var s := Exec(w, run);
            s.loops.active == |s.tasks| && (s.loops.idle in s.loops.closed <==> s.tasks == {})
            && Distinct(s.loops.closed)
  {
    RunsKeep(w, run);
  }

  /** A waiter can return nil exactly when there was an idle moment since it
      looked; if it looked after Stop, the loops are then quiet for ever. */
  lemma {:induction false} WaitIsExact(w: Wiring, run: seq<Action>, k: nat, more: seq<Action>)
    requires IsRun(w, run + more) && k in Exec(w, run).waiters
    ensures var s, waiter := Exec(w, run), Exec(w, run).waiters[k];
            waiter.channel in s.loops.closed <==> waiter.sawIdle
    ensures var waiter := Exec(w, run).waiters[k];
            waiter.afterStop && waiter.sawIdle ==> Quiet(Exec(w, run + more).loops) && Exec(w, run + more).tasks == {}
  {
    RunPrefix(w, run, more);
    RunsKeep(w, run);
    var waiter := Exec(w, run).waiters[k];
    if waiter.afterStop && waiter.sawIdle {
      QuietForever(w, run, more);
    }
  }

  lemma {:induction false} RunPrefix(w: Wiring, run: seq<Action>, more: seq<Action>)
    requires IsRun(w, run + more)
    ensures IsRun(w, run)
  {
    assert forall i | 0 <= i < |run| :: run[..i] == (run + more)[..i] && run[i] == (run + more)[i];
  }

  /** Looking before Stop proves nothing: the channel may be an old one. */
  lemma {:induction false} StaleWaiterReturns(w: Wiring)
    ensures IsRun(w, [Look(0), Go]) && 0 in Exec(w, [Look(0), Go]).waiters
    ensures var s := Exec(w, [Look(0), Go]);
            s.waiters[0].channel in s.loops.closed && s.tasks == {0} && !s.waiters[0].afterStop
  {
    var run := [Look(0), Go];
    assert run[..0] == [] && run[..1] == [Look(0)] && [Look(0)][..0] == [];
    var looked := Apply(w, START, Look(0));
    assert Exec(w, [Look(0)]) == looked;
    assert Exec(w, run) == Apply(w, looked, Go);
  }

  predicate InStores(s: System) {
    s.shutdown.pc.AtStores? || s.shutdown.stores != []
  }

  /** No store is touched unless every drain succeeded and the refunds are done,
      the stores touched are the wired ones in order, and a finished shutdown has
      touched all of them or none. */
  lemma {:induction false} StoresNeedDrains(w: Wiring, run: seq<Action>)
    requires IsRun(w, run)
    ensures var d := Exec(w, run).shutdown;
            d.stores <= w.stores
            && (InStores(Exec(w, run)) ==> !d.drainFailed && RefundsDone(w, d))
            && (d.pc.Finished? ==> d.stores == if d.drainFailed || !RefundsDone(w, d) then [] else w.stores)
  {
    RunsKeep(w, run);
    StoresKept(w, Exec(w, run));
  }

  lemma {:induction false} StoresKept(w: Wiring, s: System)
    requires ShutdownKept(w, s)
    ensures s.shutdown.stores <= w.stores
    ensures InStores(s) ==> Drained(w, s) && RefundsDone(w, s.shutdown)
  {
  }

  ghost predicate QuietInStores(w: Wiring) {
    forall run :: IsRun(w, run) && InStores(Exec(w, run)) ==> Exec(w, run).tasks == {}
  }

  /** Once a store is touched no task is live and none can ever start again. */
  lemma {:induction false} StoresAreQuietForever(w: Wiring, run: seq<Action>, more: seq<Action>)
    requires w.stopLoops && w.waitLoops && IsRun(w, run + more) && InStores(Exec(w, run))
    ensures Quiet(Exec(w, run + more).loops) && Exec(w, run + more).tasks == {}
  {
    RunPrefix(w, run, more);
    RunsKeep(w, run);
    StoresKept(w, Exec(w, run));
    QuietForever(w, run, more);
  }

  // ---------- both the stop and the wait are needed ----------

  lemma {:induction false} Extend(w: Wiring, run: seq<Action>, a: Action)
    requires IsRun(w, run) && Enabled(w, Exec(w, run), a)
    ensures IsRun(w, run + [a]) && Exec(w, run + [a]) == Apply(w, Exec(w, run), a)
  {
    var longer := run + [a];
    assert longer[..|run|] == run;
    assert forall i | 0 <= i < |run| :: longer[..i] == run[..i] && longer[i] == run[i];
  }

  function Onward(w: Wiring, pc: Pc): Pc {
    match pc
    case AtStop => AtSockets
    case AtSockets => AtHTTP
    case AtHTTP => AtSnapshot
    case AtSnapshot => if w.waitLoops then AtWait else AtDecide
    case AtWait => AtDecide
    case AtDecide => AtRefunds
    case _ => AtStores(0)
  }

  /** The shutdown can always go on while its drains succeed. */
  ghost predicate Promising(w: Wiring, run: seq<Action>, pc: Pc, tasks: set<nat>) {
    IsRun(w, run) && var s := Exec(w, run);
    && s.shutdown.pc == pc && !s.shutdown.drainFailed
    && s.tasks == tasks && (tasks == {} ==> s.nextTask == 0)
    && (!w.stopLoops ==> !s.loops.stopping)
    && (pc.AtWait? ==> s.shutdown.waiter.channel == s.loops.idle)
  }

  lemma {:induction false} GoOn(w: Wiring, run: seq<Action>, pc: Pc, tasks: set<nat>) returns (longer: seq<Action>)
    requires Promising(w, run, pc, tasks) && !pc.AtStores? && !pc.Finished? && (pc.AtWait? ==> tasks == {})
    ensures Promising(w, longer, Onward(w, pc), tasks)
  {
    RunsKeep(w, run);
    var a := Shut(true, true, true);
    Extend(w, run, a);
    longer := run + [a];
  }

  lemma {:induction false} ReachDecide(w: Wiring, run: seq<Action>, tasks: set<nat>) returns (longer: seq<Action>)
    requires Promising(w, run, AtStop, tasks) && (w.waitLoops ==> tasks == {})
    ensures Promising(w, longer, AtDecide, tasks)
  {
    longer := GoOn(w, run, AtStop, tasks);
    longer := GoOn(w, longer, AtSockets, tasks);
    longer := GoOn(w, longer, AtHTTP, tasks);
    longer := GoOn(w, longer, AtSnapshot, tasks);
    if w.waitLoops {
      longer := GoOn(w, longer, AtWait, tasks);
    }
  }

  lemma {:induction false} ReachStores(w: Wiring, run: seq<Action>, tasks: set<nat>) returns (longer: seq<Action>)
    requires Promising(w, run, AtStop, tasks) && (w.waitLoops ==> tasks == {})
    ensures Promising(w, longer, AtStores(0), tasks)
  {
    longer := ReachDecide(w, run, tasks);
    longer := GoOn(w, longer, AtDecide, tasks);
    longer := GoOn(w, longer, AtRefunds, tasks);
  }

  lemma {:induction false} LiveTaskInStores(w: Wiring) returns (run: seq<Action>)
    requires !(w.stopLoops && w.waitLoops)
    ensures IsRun(w, run) && InStores(Exec(w, run)) && Exec(w, run).tasks == {0}
  {
    assert Promising(w, [], AtStop, {});
    if !w.waitLoops {
      Extend(w, [], Go);
      run := ReachStores(w, [] + [Go], {0});
    } else {
      var quiet := ReachStores(w, [], {});
      Extend(w, quiet, Go);
      run := quiet + [Go];
    }
  }

  /** Stores are only ever touched with no task live exactly when the shutdown is
      given both the stop and the wait. */
  lemma {:induction false} QuietNeedsStopAndWait(w: Wiring)
    ensures QuietInStores(w) <==> w.stopLoops && w.waitLoops
  {
    if w.stopLoops && w.waitLoops {
      forall run | IsRun(w, run) && InStores(Exec(w, run)) ensures Exec(w, run).tasks == {} {
        assert run + [] == run;
        StoresAreQuietForever(w, run, []);
      }
    } else {
      var run := LiveTaskInStores(w);
      assert 0 in Exec(w, run).tasks;
    }
  }
}
