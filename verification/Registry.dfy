// The shared app-server registry (crates/arky-codex/src/registry.rs): one server per key,
// shut down when its last lease is gone. Leases release by key, not by server.

module RegistrySteps {
  const USIZE_MAX: nat := 0xFFFF_FFFF_FFFF_FFFF

  datatype Slot = Slot(server: nat, immediate: bool, refCount: nat, idle: bool)

  /** A dropped lease still has its release to come. */
  datatype Stage = Live | Dropped | Released

  datatype Lease = Lease(key: string, server: nat, stage: Stage)

  /** `timers` are the idle timers started so far, aborted or not; `down` the servers shut
      down by the registry. `immediate` is a zero idle timeout. */
  datatype State = State(slots: map<string, Slot>, spawned: nat, down: set<nat>, timers: seq<string>,
      leases: seq<Lease>)

  datatype Step =
    | Acquire(key: string, immediate: bool, alive: bool, spawns: bool)
    | Reconfigure(key: string, immediate: bool, spawns: bool)
    | DropLease(lease: nat)
    | Release(lease: nat)
    | FireTimer(timer: nat)
    | DisposeAll(reached: set<nat>)

  const INIT: State := State(map[], 0, {}, [], [])

  function SaturatingAdd(n: nat): nat {
    if n < USIZE_MAX then n + 1 else USIZE_MAX
  }

  predicate Possible(s: State, step: Step) {
    match step
    case DropLease(l) => l < |s.leases| && s.leases[l].stage.Live?
    case Release(l) => l < |s.leases| && s.leases[l].stage.Dropped?
    case FireTimer(t) => t < |s.timers|
    case _ => true
  }

  /** `slots.remove` and the shutdown of what was there. */
  function Retire(s: State, key: string): State {
    if key in s.slots then s.(slots := s.slots - {key}, down := s.down + {s.slots[key].server}) else s
  }

  /** The part of `acquire` that starts a server. */
  function Spawn(s: State, key: string, immediate: bool, spawns: bool): State {
    if spawns then
      s.(slots := s.slots[key := Slot(s.spawned, immediate, 1, false)], spawned := s.spawned + 1,
         leases := s.leases + [Lease(key, s.spawned, Live)])
    else s
  }

  function AfterAcquire(s: State, key: string, immediate: bool, alive: bool, spawns: bool): State {
    if key in s.slots && alive then
      var slot := s.slots[key];
      s.(slots := s.slots[key := slot.(refCount := SaturatingAdd(slot.refCount), idle := false)],
         leases := s.leases + [Lease(key, slot.server, Live)])
    else Spawn(Retire(s, key), key, immediate, spawns)
  }

  /** `release_key` */
  function AfterReleaseKey(s: State, key: string): State {
    if key !in s.slots then s
    else
      var slot := s.slots[key];
      if slot.refCount > 1 then s.(slots := s.slots[key := slot.(refCount := slot.refCount - 1)])
      else if slot.immediate then Retire(s, key)
      else s.(slots := s.slots[key := slot.(refCount := 0, idle := true)], timers := s.timers + [key])
  }

  /** `finalize_idle_shutdown` */
  function AfterFireTimer(s: State, key: string): State {
    if key in s.slots && s.slots[key].refCount == 0 then Retire(s, key) else s
  }

  function Servers(slots: map<string, Slot>): set<nat> {
    set k | k in slots :: slots[k].server
  }

  /** `dispose_all` forgets every server; a failing shutdown spares those not yet reached. */
  function AfterDisposeAll(s: State, reached: set<nat>): State {
    s.(slots := map[], down := s.down + Servers(s.slots) * reached)
  }

  function SetStage(leases: seq<Lease>, l: nat, stage: Stage): seq<Lease>
    requires l < |leases|
  {
    leases[l := leases[l].(stage := stage)]
  }

  function After(s: State, step: Step): State
    requires Possible(s, step)
  {
    match step
    case Acquire(key, immediate, alive, spawns) => AfterAcquire(s, key, immediate, alive, spawns)
    case Reconfigure(key, immediate, spawns) => Spawn(Retire(s, key), key, immediate, spawns)
    case DropLease(l) => s.(leases := SetStage(s.leases, l, Dropped))
    case Release(l) => AfterReleaseKey(s.(leases := SetStage(s.leases, l, Released)), s.leases[l].key)
    case FireTimer(t) => AfterFireTimer(s, s.timers[t])
    case DisposeAll(reached) => AfterDisposeAll(s, reached)
  }

  predicate Outstanding(lease: Lease, key: string) {
    lease.key == key && !lease.stage.Released?
  }

  /** Leases of `key` that are live, or dropped but not yet released. */
  function Holders(leases: seq<Lease>, key: string): nat {
    if leases == [] then 0
    else Holders(leases[..|leases| - 1], key) + if Outstanding(leases[|leases| - 1], key) then 1 else 0
  }

  lemma {:induction false} HoldersUpdate(leases: seq<Lease>, l: nat, stage: Stage, key: string)
    requires l < |leases| && (stage.Released? ==> !leases[l].stage.Released?)
    requires leases[l].stage.Released? ==> stage.Released?
    ensures Holders(SetStage(leases, l, stage), key)
         == Holders(leases, key) - if stage.Released? && leases[l].key == key then 1 else 0
  {
    var n := |leases| - 1;
    if l == n {
      assert SetStage(leases, l, stage)[..n] == leases[..n];
    } else {
      HoldersUpdate(leases[..n], l, stage, key);
      assert SetStage(leases, l, stage)[..n] == SetStage(leases[..n], l, stage);
    }
  }

  lemma {:induction false} HoldersSnoc(leases: seq<Lease>, lease: Lease, key: string)
    ensures Holders(leases + [lease], key) == Holders(leases, key) + if Outstanding(lease, key) then 1 else 0
  {}

  lemma {:induction false} NoHolders(leases: seq<Lease>, key: string)
    ensures Holders(leases, key) <= |leases|
    ensures Holders(leases, key) == 0 <==> forall l | 0 <= l < |leases| :: !Outstanding(leases[l], key)
  {
    if leases != [] {
      var n := |leases| - 1;
      NoHolders(leases[..n], key);
      if Outstanding(leases[n], key) {
      } else {
        assert forall l | 0 <= l < n :: leases[..n][l] == leases[l];
      }
    }
  }
}

module RegistrySafety {
  import opened RegistrySteps

  /** Reference counts are exact, and every lease not yet released has its server running
      under its key. */
  predicate CountsExact(s: State) {
    forall k | k in s.slots :: s.slots[k].refCount == Holders(s.leases, k)
  }

  predicate Served(s: State, lease: Lease) {
    lease.stage.Released?
    || (lease.key in s.slots && s.slots[lease.key].server == lease.server && lease.server !in s.down)
  }

  predicate EveryoneServed(s: State) {
    forall l | 0 <= l < |s.leases| :: Served(s, s.leases[l])
  }

  predicate ServersDistinct(s: State) {
    && (forall d | d in s.down :: d < s.spawned)
    && (forall k | k in s.slots :: s.slots[k].server < s.spawned && s.slots[k].server !in s.down)
    && (forall j, k | j in s.slots && k in s.slots && j != k :: s.slots[j].server != s.slots[k].server)
  }

  predicate Good(s: State) {
    CountsExact(s) && EveryoneServed(s) && ServersDistinct(s)
  }

  /** A server is replaced, reconfigured or disposed of only while nobody leases it. */
  predicate Orderly(s: State, step: Step) {
    match step
    case Acquire(key, _, alive, _) => key in s.slots && !alive ==> Holders(s.leases, key) == 0
    case Reconfigure(key, _, _) => Holders(s.leases, key) == 0
    case DisposeAll(_) => forall k | k in s.slots :: Holders(s.leases, k) == 0
    case _ => true
  }

  lemma {:induction false} RetireKeeps(s: State, key: string)
    requires Good(s) && Holders(s.leases, key) == 0
    ensures Good(Retire(s, key)) && key !in Retire(s, key).slots
  {
    NoHolders(s.leases, key);
    var t := Retire(s, key);
    forall l | 0 <= l < |t.leases| ensures Served(t, t.leases[l]) {
      assert Served(s, s.leases[l]);
      assert !Outstanding(s.leases[l], key);
    }
  }

  lemma {:induction false} UnheldWhenAbsent(s: State, key: string)
    requires Good(s) && key !in s.slots
    ensures Holders(s.leases, key) == 0
  {
    NoHolders(s.leases, key);
    forall l | 0 <= l < |s.leases| ensures !Outstanding(s.leases[l], key) {
      assert Served(s, s.leases[l]);
    }
  }

  lemma {:induction false} SpawnKeeps(s: State, key: string, immediate: bool, spawns: bool)
    requires Good(s) && key !in s.slots
    ensures Good(Spawn(s, key, immediate, spawns))
  {
    if spawns {
      var t := Spawn(s, key, immediate, spawns);
      UnheldWhenAbsent(s, key);
      forall k ensures Holders(t.leases, k) == Holders(s.leases, k) + if k == key then 1 else 0 {
        HoldersSnoc(s.leases, Lease(key, s.spawned, Live), k);
      }
      forall l | 0 <= l < |t.leases| ensures Served(t, t.leases[l]) {
        if l < |s.leases| {
          assert Served(s, s.leases[l]);
        }
      }
    }
  }

  lemma {:induction false} AcquireKeeps(s: State, key: string, immediate: bool, alive: bool, spawns: bool)
    requires Good(s) && |s.leases| < USIZE_MAX && Orderly(s, Acquire(key, immediate, alive, spawns))
    ensures Good(AfterAcquire(s, key, immediate, alive, spawns))
  {
    if key in s.slots && alive {
      var t := AfterAcquire(s, key, immediate, alive, spawns);
      NoHolders(s.leases, key);
      forall k ensures Holders(t.leases, k) == Holders(s.leases, k) + if k == key then 1 else 0 {
        HoldersSnoc(s.leases, Lease(key, s.slots[key].server, Live), k);
      }
      forall l | 0 <= l < |t.leases| ensures Served(t, t.leases[l]) {
        if l < |s.leases| {
          assert Served(s, s.leases[l]);
        }
      }
    } else {
      if key !in s.slots {
        UnheldWhenAbsent(s, key);
      }
      RetireKeeps(s, key);
      SpawnKeeps(Retire(s, key), key, immediate, spawns);
    }
  }

  lemma {:induction false} DropKeeps(s: State, l: nat)
    requires Good(s) && Possible(s, DropLease(l))
    ensures Good(After(s, DropLease(l)))
  {
    var t := After(s, DropLease(l));
    forall k ensures Holders(t.leases, k) == Holders(s.leases, k) {
      HoldersUpdate(s.leases, l, Dropped, k);
    }
    forall m | 0 <= m < |t.leases| ensures Served(t, t.leases[m]) {
      assert Served(s, s.leases[m]);
    }
  }

  lemma {:induction false} ReleaseKeeps(s: State, l: nat)
    requires Good(s) && Possible(s, Release(l))
    ensures Good(After(s, Release(l)))
  {
    var key := s.leases[l].key;
    var u := s.(leases := SetStage(s.leases, l, Released));
    forall k ensures Holders(u.leases, k) == Holders(s.leases, k) - if k == key then 1 else 0 {
      HoldersUpdate(s.leases, l, Released, k);
    }
    assert Served(s, s.leases[l]);
    forall m | 0 <= m < |u.leases| ensures Served(u, u.leases[m]) {
      assert Served(s, s.leases[m]);
    }
    ReleaseKeyKeeps(u, key);
  }

  /** One holder of `key` more on the count than among the leases. */
  predicate OneTooMany(u: State, key: string) {
    && key in u.slots && u.slots[key].refCount == Holders(u.leases, key) + 1
    && (forall k | k in u.slots && k != key :: u.slots[k].refCount == Holders(u.leases, k))
    && EveryoneServed(u) && ServersDistinct(u)
  }

  lemma {:induction false} LoweredCountIsGood(u: State, key: string, idle: bool, timers: seq<string>)
    requires OneTooMany(u, key)
    ensures Good(u.(slots := u.slots[key := u.slots[key].(refCount := u.slots[key].refCount - 1, idle := idle)],
                    timers := timers))
  {}

  lemma {:induction false} ReleaseKeyKeeps(u: State, key: string)
    requires OneTooMany(u, key)
    ensures Good(AfterReleaseKey(u, key))
  {
    var slot := u.slots[key];
    LoweredCountIsGood(u, key, slot.idle, u.timers);
    LoweredCountIsGood(u, key, true, u.timers + [key]);
    if slot.refCount == 1 && slot.immediate {
      var lowered := u.(slots := u.slots[key := slot.(refCount := 0)]);
      RetireKeeps(lowered, key);
      assert Retire(u, key) == Retire(lowered, key) by {
        assert lowered.slots - {key} == u.slots - {key};
      }
    }
  }

  lemma {:induction false} FireTimerKeeps(s: State, key: string)
    requires Good(s)
    ensures Good(AfterFireTimer(s, key))
  {
    if key in s.slots && s.slots[key].refCount == 0 {
      RetireKeeps(s, key);
    }
  }

  lemma {:induction false} DisposeAllKeeps(s: State, reached: set<nat>)
    requires Good(s) && Orderly(s, DisposeAll(reached))
    ensures Good(AfterDisposeAll(s, reached))
  {
    var t := AfterDisposeAll(s, reached);
    forall l | 0 <= l < |t.leases| ensures Served(t, t.leases[l]) {
      var lease := s.leases[l];
      assert Served(s, lease);
      NoHolders(s.leases, lease.key);
    }
  }

  lemma {:induction false} OrderlyStepKeeps(s: State, step: Step)
    requires Good(s) && Possible(s, step) && Orderly(s, step) && |s.leases| < USIZE_MAX
    ensures Good(After(s, step))
  {
    match step
    case Acquire(key, immediate, alive, spawns) => AcquireKeeps(s, key, immediate, alive, spawns);
    case Reconfigure(key, immediate, spawns) =>
      RetireKeeps(s, key);
      SpawnKeeps(Retire(s, key), key, immediate, spawns);
    case DropLease(l) => DropKeeps(s, l);
    case Release(l) => ReleaseKeeps(s, l);
    case FireTimer(t) => FireTimerKeeps(s, s.timers[t]);
    case DisposeAll(reached) => DisposeAllKeeps(s, reached);
  }

  /** Replacing, reconfiguring or disposing of a leased server takes it away from its holder. */
  lemma {:induction false} DisorderlyStepBreaks(s: State, step: Step)
    requires Good(s) && Possible(s, step) && !Orderly(s, step)
    ensures !Good(After(s, step))
  {
    var key: string;
    if step.DisposeAll? {
      key :| key in s.slots && Holders(s.leases, key) != 0;
    } else {
      key := step.key;
    }
    NoHolders(s.leases, key);
    var l :| 0 <= l < |s.leases| && Outstanding(s.leases[l], key);
    assert Served(s, s.leases[l]);
    var server := s.leases[l].server;
    var t := After(s, step);
    assert step.DisposeAll? || server in t.down;
    assert t.leases[l] == s.leases[l] && !Served(t, t.leases[l]);
  }

  /** A run; steps that are not possible where they stand change nothing. */
  function Run(steps: seq<Step>): State {
    if steps == [] then INIT
    else
      var s, step := Run(steps[..|steps| - 1]), steps[|steps| - 1];
      if Possible(s, step) then After(s, step) else s
  }

  predicate OrderlyRun(steps: seq<Step>) {
    forall i | 0 <= i < |steps| :: Possible(Run(steps[..i]), steps[i]) ==> Orderly(Run(steps[..i]), steps[i])
  }

  lemma {:induction false} RunOneMore(steps: seq<Step>, i: nat)
    requires i < |steps|
    ensures var s := Run(steps[..i]);
            Run(steps[..i + 1]) == if Possible(s, steps[i]) then After(s, steps[i]) else s
  {
    assert steps[..i + 1][..i] == steps[..i];
  }

  lemma {:induction false} LeasesOnlyGrow(steps: seq<Step>, i: nat)
    requires i <= |steps|
    ensures |Run(steps[..i]).leases| <= |Run(steps).leases|
    decreases |steps| - i
  {
    if i == |steps| {
      assert steps[..i] == steps;
    } else {
      LeasesOnlyGrow(steps, i + 1);
      RunOneMore(steps, i);
    }
  }

  /** While no more than `usize::MAX` leases are given out, the registry is exact and safe
      all along a run precisely when every step of the run is orderly. */
  lemma {:induction false} SafeExactlyWhenOrderly(steps: seq<Step>)
    requires |Run(steps).leases| <= USIZE_MAX
    ensures (forall i | 0 <= i <= |steps| :: Good(Run(steps[..i]))) <==> OrderlyRun(steps)
  {
    if OrderlyRun(steps) {
      forall i | 0 <= i <= |steps| ensures Good(Run(steps[..i])) {
        OrderlyPrefixIsGood(steps, i);
      }
    } else {
      var i :| 0 <= i < |steps| && Possible(Run(steps[..i]), steps[i]) && !Orderly(Run(steps[..i]), steps[i]);
      RunOneMore(steps, i);
      if Good(Run(steps[..i])) {
        DisorderlyStepBreaks(Run(steps[..i]), steps[i]);
      }
    }
  }

  lemma {:induction false} OrderlyPrefixIsGood(steps: seq<Step>, i: nat)
    requires i <= |steps| && OrderlyRun(steps) && |Run(steps).leases| <= USIZE_MAX
    ensures Good(Run(steps[..i]))
  {
    if i > 0 {
      OrderlyPrefixIsGood(steps, i - 1);
      RunOneMore(steps, i - 1);
      LeasesOnlyGrow(steps, i - 1);
      LeasesOnlyGrow(steps, i);
      var s, step := Run(steps[..i - 1]), steps[i - 1];
      if Possible(s, step) {
        if |s.leases| == USIZE_MAX {
          FullRegistryKeeps(s, step);
        } else {
          OrderlyStepKeeps(s, step);
        }
      }
    }
  }

  /** With all leases given out, a step that adds none is as safe as any other. */
  lemma {:induction false} FullRegistryKeeps(s: State, step: Step)
    requires Good(s) && Possible(s, step) && Orderly(s, step) && |After(s, step).leases| == |s.leases|
    ensures Good(After(s, step))
  {
    match step
    case Acquire(key, _, alive, _) =>
      if key in s.slots { RetireKeeps(s, key); }
    case Reconfigure(key, _, _) => RetireKeeps(s, key);
    case DropLease(l) => DropKeeps(s, l);
    case Release(l) => ReleaseKeeps(s, l);
    case FireTimer(t) => FireTimerKeeps(s, s.timers[t]);
    case DisposeAll(reached) => DisposeAllKeeps(s, reached);
  }

  /** In an orderly run no release and no idle timer, stale or not, ever shuts down a server
      that is still leased, and leases of one key share one server. */
  lemma {:induction false} LeasedServersStayUp(steps: seq<Step>, l: nat, m: nat)
    requires OrderlyRun(steps) && |Run(steps).leases| <= USIZE_MAX
    requires l < |Run(steps).leases| && !Run(steps).leases[l].stage.Released?
    requires m < |Run(steps).leases| && !Run(steps).leases[m].stage.Released?
    ensures var s := Run(steps); var lease := s.leases[l];
            && lease.server !in s.down
            && lease.key in s.slots && s.slots[lease.key].server == lease.server
            && s.slots[lease.key].refCount == Holders(s.leases, lease.key)
            && (s.leases[m].key == lease.key <==> s.leases[m].server == lease.server)
  {
    OrderlyPrefixIsGood(steps, |steps|);
    assert steps[..|steps|] == steps;
    var s := Run(steps);
    assert Served(s, s.leases[l]) && Served(s, s.leases[m]);
  }

  /** A server that dies while leased: the old lease's release takes down its successor. */
  lemma {:induction false} DeathLetsStaleLeaseShutDown()
    ensures var s := Run([Acquire("k", true, true, true), Acquire("k", true, false, true), DropLease(0), Release(0)]);
            |s.leases| == 2 && s.leases[1] == Lease("k", 1, Live) && 1 in s.down
  {
    var a, b, c, d := Acquire("k", true, true, true), Acquire("k", true, false, true), DropLease(0), Release(0);
    assert Run([a]) == After(INIT, a) by {
      assert [a][..0] == [];
    }
    assert Run([a, b]) == After(Run([a]), b) by {
      assert [a, b][..1] == [a];
    }
    assert Run([a, b, c]) == After(Run([a, b]), c) by {
      assert [a, b, c][..2] == [a, b];
    }
    assert Run([a, b, c, d]) == After(Run([a, b, c]), d) by {
      assert [a, b, c, d][..3] == [a, b, c];
    }
  }
}

module Registry {
  import opened RegistrySteps

  class CodexServerRegistry {
    var slots: map<string, Slot>
    /** The servers and timers started so far, and the servers shut down. */
    var spawned: nat
    var down: set<nat>
    var timers: seq<string>
    /** Every lease given out. */
    ghost var leases: seq<Lease>

    ghost function Now(): State
      reads this
    {
      State(slots, spawned, down, timers, leases)
    }

    constructor ()
      ensures Now() == INIT
    {
      slots, spawned, down, timers, leases := map[], 0, {}, [], [];
    }

    /** `slots.remove(&key)` and a shutdown of the server found there. */
    method RetireServer(key: string)
      modifies this`slots, this`down
      ensures Now() == Retire(old(Now()), key)
    {
      if key in slots {
        down := down + {slots[key].server};
        slots := slots - {key};
      }
    }

    /** `acquire`, as one step for its key. `alive` is the answer of a server found under
        the key, `spawns` whether starting a new one succeeds. */
    method AcquireLease(key: string, immediate: bool, alive: bool, spawns: bool) returns (ok: bool, server: nat)
      modifies this
      ensures Now() == After(old(Now()), Acquire(key, immediate, alive, spawns))
      ensures ok == (spawns || (key in old(slots) && alive))
      ensures ok ==> leases == old(leases) + [Lease(key, server, Live)]
    {
      if key in slots && alive {
        var slot := slots[key];
        if slot.idle {
          slot := slot.(idle := false);
        }
        slot := slot.(refCount := SaturatingAdd(slot.refCount));
        slots := slots[key := slot];
        leases := leases + [Lease(key, slot.server, Live)];
        return true, slot.server;
      }
      RetireServer(key);
      ok, server := StartServer(key, immediate, spawns);
    }

    method StartServer(key: string, immediate: bool, spawns: bool) returns (ok: bool, server: nat)
      modifies this
      ensures Now() == Spawn(old(Now()), key, immediate, spawns)
      ensures ok == spawns && (ok ==> leases == old(leases) + [Lease(key, server, Live)])
    {
      ok, server := spawns, spawned;
      if spawns {
        spawned := spawned + 1;
        slots := slots[key := Slot(server, immediate, 1, false)];
        leases := leases + [Lease(key, server, Live)];
      }
    }

    /** `reconfigure`: the server under the key is replaced whoever leases it. */
    method ReconfigureKey(key: string, immediate: bool, spawns: bool) returns (ok: bool, server: nat)
      modifies this
      ensures Now() == After(old(Now()), Reconfigure(key, immediate, spawns))
    {
      RetireServer(key);
      ok, server := AcquireLease(key, immediate, false, spawns);
    }

    /** `release_key`, run for a lease dropped earlier. */
    method ReleaseLease(key: string, ghost lease: nat)
      requires lease < |leases| && leases[lease].stage.Dropped? && leases[lease].key == key
      modifies this
      ensures Now() == After(old(Now()), Release(lease))
    {
      leases := SetStage(leases, lease, Released);
      if key !in slots {
        return;
      }
      var slot := slots[key];
      if slot.refCount > 1 {
        slots := slots[key := slot.(refCount := slot.refCount - 1)];
        return;
      }
      if slot.immediate {
        RetireServer(key);
      } else {
        timers := timers + [key];
        slots := slots[key := slot.(refCount := 0, idle := true)];
      }
    }

    /** `finalize_idle_shutdown`, run by an idle timer. */
    method FinalizeIdleShutdown(timer: nat)
      requires timer < |timers|
      modifies this
      ensures Now() == After(old(Now()), FireTimer(timer))
    {
      var key := timers[timer];
      if key in slots && slots[key].refCount == 0 {
        RetireServer(key);
      }
    }

    /** `dispose_all` */
    method DisposeAllServers(fails: nat -> bool) returns (ok: bool, ghost reached: set<nat>)
      modifies this
      ensures Now() == After(old(Now()), DisposeAll(reached)) && reached <= Servers(old(slots))
      ensures ok <==> forall server | server in Servers(old(slots)) :: !fails(server)
      ensures ok ==> reached == Servers(old(slots))
      ensures !ok ==> exists server :: server in reached && fails(server)
    {
      var servers := Servers(slots);
      slots := map[];
      reached := {};
      while servers != {}
        invariant slots == map[] && spawned == old(spawned) && timers == old(timers) && leases == old(leases)
        invariant reached + servers == Servers(old(slots)) && down == old(down) + reached
        invariant forall server | server in reached :: !fails(server)
        decreases servers
      {
        var server :| server in servers;
        servers := servers - {server};
        reached := reached + {server};
        down := down + {server};
        if fails(server) {
          assert Servers(old(slots)) * reached == reached;
          return false, reached;
        }
      }
      assert Servers(old(slots)) * reached == reached;
      ok := true;
    }

    /** A holder lets go of its lease; its release is scheduled. */
    ghost method Drop(lease: nat)
      requires lease < |leases| && leases[lease].stage.Live?
      modifies this`leases
      ensures Now() == After(old(Now()), DropLease(lease))
    {
      leases := SetStage(leases, lease, Dropped);
    }
  }
}
