/**
 The job manager and its goroutines as interleaved steps. Each action is one step of one goroutine:
 a mutex-guarded section, an atomic operation on a job's flag, the start or end of an execution, or
 the cancellation of a context. Disabled actions do nothing, so a run is any sequence of actions.
 */
module JobRunner {
  import opened Wrappers

  datatype Phase = Spawned | Waiting | Executing | Returned

  /** The goroutine that startJob spawned for one job under the context of one Start. */
  datatype Loop = Loop(job: nat, ctx: nat, phase: Phase)

  /** A QueueJob call past its guarded check; it appends its job outside the lock. */
  datatype Queuer = Queuer(startImmediately: bool, appended: bool)

  /** A Start call past its guarded section: it reads how many jobs are queued, then spawns their loops one by one. */
  datatype Starter = Starter(ctx: nat, next: nat, listed: Option<nat>)

  datatype StopPhase = TookCancel | Cancelled | Stopped

  /** A Stop call past its first guarded section, with its copy of the manager's cancel function. */
  datatype Stopper = Stopper(ctx: nat, phase: StopPhase)

  /**
   immediate and flags are per job; current is the context whose cancel function the manager holds;
   contexts counts the contexts made so far, which are numbered from 0.
   */
  datatype Manager = Manager(
    immediate: seq<bool>,
    flags: seq<bool>,
    isRunning: bool,
    current: nat,
    contexts: nat,
    cancelled: set<nat>,
    loops: seq<Loop>,
    queuers: seq<Queuer>,
    starters: seq<Starter>,
    stoppers: seq<Stopper>)

  const NEW_MANAGER := Manager([], [], false, 0, 0, {}, [], [], [], [])

  datatype Action =
    | QueueJob(startImmediately: bool)
    | AppendJob(queuer: nat)
    | Start
    | ListJobs(starter: nat)
    | Spawn(starter: nat)
    | Stop
    | StopCancels(stopper: nat)
    | StopEnds(stopper: nat)
    | ParentCancels(ctx: nat)
    | LoopBegins(loop: nat)
    | Tick(loop: nat)
    | ExecutionEnds(loop: nat)
    | LoopExits(loop: nat)

  function WithPhase(m: Manager, l: nat, phase: Phase, flag: bool): Manager
    requires l < |m.loops| && m.loops[l].job < |m.flags|
  {
    m.(loops := m.loops[l := m.loops[l].(phase := phase)], flags := m.flags[m.loops[l].job := flag])
  }

  predicate LoopIs(m: Manager, l: nat, phase: Phase) {
    l < |m.loops| && m.loops[l].phase == phase && m.loops[l].job < |m.flags| && m.loops[l].job < |m.immediate|
  }

  function Do(m: Manager, a: Action): Manager {
    match a
    case QueueJob(startImmediately) =>
      if m.isRunning then m
      else m.(queuers := m.queuers + [Queuer(startImmediately, false)])
    case AppendJob(i) =>
      if i < |m.queuers| && !m.queuers[i].appended then
        m.(immediate := m.immediate + [m.queuers[i].startImmediately], flags := m.flags + [false],
           queuers := m.queuers[i := m.queuers[i].(appended := true)])
      else m
    case Start =>
      if m.isRunning then m
      else m.(isRunning := true, current := m.contexts, contexts := m.contexts + 1,
              starters := m.starters + [Starter(m.contexts, 0, None)])
    case ListJobs(i) =>
      if i < |m.starters| && m.starters[i].listed == None then
        m.(starters := m.starters[i := m.starters[i].(listed := Some(|m.immediate|))])
      else m
    case Spawn(i) =>
      if i < |m.starters| && m.starters[i].listed.Some? && m.starters[i].next < m.starters[i].listed.value then
        m.(loops := m.loops + [Loop(m.starters[i].next, m.starters[i].ctx, Spawned)],
           starters := m.starters[i := m.starters[i].(next := m.starters[i].next + 1)])
      else m
    case Stop =>
      if m.isRunning then m.(stoppers := m.stoppers + [Stopper(m.current, TookCancel)]) else m
    case StopCancels(i) =>
      if i < |m.stoppers| && m.stoppers[i].phase == TookCancel then
        m.(cancelled := m.cancelled + {m.stoppers[i].ctx},
           stoppers := m.stoppers[i := m.stoppers[i].(phase := Cancelled)])
      else m
    case StopEnds(i) =>
      if i < |m.stoppers| && m.stoppers[i].phase == Cancelled then
        m.(isRunning := false, stoppers := m.stoppers[i := m.stoppers[i].(phase := Stopped)])
      else m
    case ParentCancels(ctx) =>
      if ctx < m.contexts then m.(cancelled := m.cancelled + {ctx}) else m
    case LoopBegins(l) =>
      if !LoopIs(m, l, Spawned) then m
      else if m.immediate[m.loops[l].job] then WithPhase(m, l, Executing, true)
      else WithPhase(m, l, Waiting, m.flags[m.loops[l].job])
    case Tick(l) =>
      // compare-and-swap: a tick that finds the job running is skipped
      if LoopIs(m, l, Waiting) && !m.flags[m.loops[l].job] then WithPhase(m, l, Executing, true) else m
    case ExecutionEnds(l) =>
      if LoopIs(m, l, Executing) then WithPhase(m, l, Waiting, false) else m
    case LoopExits(l) =>
      if LoopIs(m, l, Waiting) && m.loops[l].ctx in m.cancelled
      then WithPhase(m, l, Returned, m.flags[m.loops[l].job]) else m
  }

  predicate WellFormed(m: Manager) {
    && |m.flags| == |m.immediate|
    && (forall l :: 0 <= l < |m.loops| ==> m.loops[l].job < |m.flags| && m.loops[l].ctx < m.contexts)
    && (forall i :: 0 <= i < |m.starters| ==> m.starters[i].ctx < m.contexts)
    && (forall i :: 0 <= i < |m.starters| && m.starters[i].listed.Some? ==> m.starters[i].listed.value <= |m.flags|)
    && (forall i :: 0 <= i < |m.stoppers| ==> m.stoppers[i].ctx < m.contexts)
    && (m.isRunning ==> m.current < m.contexts)
  }

  lemma WellFormedStep(m: Manager, a: Action)
    requires WellFormed(m)
    ensures WellFormed(Do(m, a))
  {
  }

  // ---------- at most one execution ----------

  predicate InFlight(m: Manager, l: nat, job: nat) {
    l < |m.loops| && m.loops[l].job == job && m.loops[l].phase == Executing
  }

  /** At most one execution of the job is in flight, and its flag says running exactly then. */
  ghost predicate Exclusive(m: Manager, job: nat) {
    && (forall k: nat, l: nat :: InFlight(m, k, job) && InFlight(m, l, job) ==> k == l)
    && (job < |m.flags| ==> (m.flags[job] <==> exists l: nat :: InFlight(m, l, job)))
  }

  /** An immediate run that begins while the flag already says running. */
  predicate Overtakes(m: Manager, a: Action, job: nat) {
    && a.LoopBegins? && LoopIs(m, a.loop, Spawned)
    && m.loops[a.loop].job == job && m.immediate[job] && m.flags[job]
  }

  lemma InFlightAfter(m: Manager, a: Action, job: nat)
    requires WellFormed(m)
    ensures var begun := (a.LoopBegins? && LoopIs(m, a.loop, Spawned) && m.immediate[m.loops[a.loop].job])
                         || (a.Tick? && LoopIs(m, a.loop, Waiting) && !m.flags[m.loops[a.loop].job]);
            forall l: nat :: InFlight(Do(m, a), l, job) <==>
              if begun && l == a.loop then m.loops[l].job == job
              else InFlight(m, l, job) && !(a.ExecutionEnds? && l == a.loop)
  {
  }

  /** Exclusiveness is lost exactly when an immediate run begins while the flag says running. */
  lemma ExclusiveStep(m: Manager, a: Action, job: nat)
    requires WellFormed(m) && Exclusive(m, job)
    requires job >= |m.flags| ==> forall l :: 0 <= l < |m.loops| ==> m.loops[l].job != job
    ensures Exclusive(Do(m, a), job) <==> !Overtakes(m, a, job)
  {
    InFlightAfter(m, a, job);
    var n := Do(m, a);
    if Overtakes(m, a, job) {
      var l: nat :| InFlight(m, l, job);
      assert InFlight(n, l, job) && InFlight(n, a.loop, job) && l != a.loop;
    } else if a.ExecutionEnds? && InFlight(m, a.loop, job) {
      assert forall l: nat :: !InFlight(n, l, job);
      assert !n.flags[job];
    } else if (a.LoopBegins? || a.Tick?) && InFlight(n, a.loop, job) && !InFlight(m, a.loop, job) {
      assert !m.flags[job] && n.flags[job];
    } else {
      assert forall l: nat :: InFlight(n, l, job) <==> InFlight(m, l, job);
    }
  }

  // ---------- runs ----------

  function After(actions: seq<Action>): Manager {
    if actions == [] then NEW_MANAGER
    else Do(After(actions[..|actions| - 1]), actions[|actions| - 1])
  }

  lemma {:induction false} AfterIsWellFormed(actions: seq<Action>)
    ensures WellFormed(After(actions))
  {
    if actions != [] {
      AfterIsWellFormed(actions[..|actions| - 1]);
      WellFormedStep(After(actions[..|actions| - 1]), actions[|actions| - 1]);
    }
  }

  /** The manager before action i of a run. */
  function Before(actions: seq<Action>, i: nat): Manager
    requires i <= |actions|
  {
    After(actions[..i])
  }

  lemma BeforeNext(actions: seq<Action>, i: nat)
    requires i < |actions|
    ensures Before(actions, i + 1) == Do(Before(actions, i), actions[i]) && WellFormed(Before(actions, i))
  {
    assert actions[..i + 1][..i] == actions[..i];
    AfterIsWellFormed(actions[..i]);
  }

  lemma {:induction false} ExclusiveUntil(actions: seq<Action>, job: nat, n: nat)
    requires n <= |actions| && forall i: nat :: i < n ==> !Overtakes(Before(actions, i), actions[i], job)
    ensures Exclusive(Before(actions, n), job)
  {
    if n > 0 {
      ExclusiveUntil(actions, job, n - 1);
      BeforeNext(actions, n - 1);
      ExclusiveStep(Before(actions, n - 1), actions[n - 1], job);
    }
  }

  /** A run keeps a job exclusive throughout exactly when no immediate run of it begins while its flag says running. */
  lemma ExclusiveThroughout(actions: seq<Action>, job: nat)
    ensures (forall n: nat :: n <= |actions| ==> Exclusive(Before(actions, n), job))
            <==> (forall i: nat :: i < |actions| ==> !Overtakes(Before(actions, i), actions[i], job))
  {
    if forall i: nat :: i < |actions| ==> !Overtakes(Before(actions, i), actions[i], job) {
      forall n: nat | n <= |actions| ensures Exclusive(Before(actions, n), job) {
        ExclusiveUntil(actions, job, n);
      }
    }
    if forall n: nat :: n <= |actions| ==> Exclusive(Before(actions, n), job) {
      forall i: nat | i < |actions| ensures !Overtakes(Before(actions, i), actions[i], job) {
        BeforeNext(actions, i);
        assert Exclusive(Before(actions, i), job) && Exclusive(Before(actions, i + 1), job);
        ExclusiveStep(Before(actions, i), actions[i], job);
      }
    }
  }

  /** Whatever the interleaving, a job queued without WithStartImmediate is executed at most once at a time. */
  lemma {:induction false} PlainJobsAreExclusive(actions: seq<Action>, job: nat)
    requires job < |After(actions).immediate| ==> !After(actions).immediate[job]
    ensures Exclusive(After(actions), job)
  {
    if actions != [] {
      var before := After(actions[..|actions| - 1]);
      AfterIsWellFormed(actions[..|actions| - 1]);
      PlainJobsAreExclusive(actions[..|actions| - 1], job);
      ExclusiveStep(before, actions[|actions| - 1], job);
    }
  }

  // ---------- loops and their contexts ----------

  predicate LoopOf(m: Manager, l: nat, ctx: nat, job: nat) {
    l < |m.loops| && m.loops[l].ctx == ctx && m.loops[l].job == job
  }

  ghost predicate HasLoop(m: Manager, ctx: nat, job: nat) {
    exists l: nat :: LoopOf(m, l, ctx, job)
  }

  /** Contexts and Start calls are numbered alike, and none has come further than the jobs it listed. */
  predicate StartsInOrder(m: Manager) {
    && |m.starters| == m.contexts
    && forall i :: 0 <= i < m.contexts ==>
         && m.starters[i].ctx == i
         && m.starters[i].next <= (if m.starters[i].listed.Some? then m.starters[i].listed.value else 0)
  }

  /** No Start has made a loop for a job that it has not come to, or two for one job. */
  predicate NoLoopTooMany(m: Manager) {
    && StartsInOrder(m)
    && (forall l :: 0 <= l < |m.loops| ==>
          m.loops[l].ctx < m.contexts && m.loops[l].job < m.starters[m.loops[l].ctx].next)
    && (forall k, l :: 0 <= k < l < |m.loops| ==> m.loops[k].ctx != m.loops[l].ctx || m.loops[k].job != m.loops[l].job)
  }

  /** Each Start has made exactly one loop, under its own context, for each job that it has come to so far. */
  ghost predicate LoopsMatchStarts(m: Manager) {
    && NoLoopTooMany(m)
    && forall i: nat, job: nat :: i < m.contexts && job < m.starters[i].next ==> HasLoop(m, i, job)
  }

  lemma StartsInOrderStep(m: Manager, a: Action)
    requires WellFormed(m) && StartsInOrder(m)
    ensures StartsInOrder(Do(m, a))
    ensures forall i :: 0 <= i < m.contexts ==>
              Do(m, a).starters[i].next
              == m.starters[i].next + if a == Spawn(i) && Do(m, a) != m then 1 else 0
  {
  }

  lemma NoLoopTooManyStep(m: Manager, a: Action)
    requires WellFormed(m) && NoLoopTooMany(m)
    ensures NoLoopTooMany(Do(m, a))
  {
    var n := Do(m, a);
    StartsInOrderStep(m, a);
    NothingUndone(m, a);
    if a.Spawn? && n != m {
      assert n.loops == m.loops + [Loop(m.starters[a.starter].next, a.starter, Spawned)];
    } else {
      LoopsKept(m, a);
    }
  }

  lemma LoopsKept(m: Manager, a: Action)
    requires WellFormed(m) && !(a.Spawn? && Do(m, a) != m)
    ensures |Do(m, a).loops| == |m.loops|
  {
  }

  lemma LoopsMatchStartsStep(m: Manager, a: Action)
    requires WellFormed(m) && LoopsMatchStarts(m)
    ensures LoopsMatchStarts(Do(m, a))
  {
    var n := Do(m, a);
    NoLoopTooManyStep(m, a);
    forall i: nat, job: nat | i < n.contexts && job < n.starters[i].next
      ensures HasLoop(n, i, job)
    {
      if i < m.contexts && job < m.starters[i].next {
        LoopStays(m, a, i, job);
      } else {
        assert LoopOf(n, |m.loops|, i, job);
      }
    }
  }

  lemma LoopStays(m: Manager, a: Action, ctx: nat, job: nat)
    requires WellFormed(m) && HasLoop(m, ctx, job)
    ensures HasLoop(Do(m, a), ctx, job)
  {
    NothingUndone(m, a);
    var l: nat :| LoopOf(m, l, ctx, job);
    assert LoopOf(Do(m, a), l, ctx, job);
  }

  /** In every run each Start makes exactly one loop per job, among those queued when it read the list. */
  lemma {:induction false} OneLoopPerStartAndJob(actions: seq<Action>)
    ensures LoopsMatchStarts(After(actions))
  {
    if actions != [] {
      AfterIsWellFormed(actions[..|actions| - 1]);
      OneLoopPerStartAndJob(actions[..|actions| - 1]);
      LoopsMatchStartsStep(After(actions[..|actions| - 1]), actions[|actions| - 1]);
    }
  }

  lemma ReturnsUnderCancelled(m: Manager, a: Action, l: nat)
    requires WellFormed(m) && l < |Do(m, a).loops| && Do(m, a).loops[l].phase == Returned
    ensures (l < |m.loops| && m.loops[l].phase == Returned)
            || (a == LoopExits(l) && Do(m, a).loops[l].ctx in m.cancelled)
  {
  }

  /** In every run a loop that has returned ran under a context that was cancelled. */
  lemma {:induction false} ReturnedMeansCancelled(actions: seq<Action>, l: nat)
    requires l < |After(actions).loops| && After(actions).loops[l].phase == Returned
    ensures After(actions).loops[l].ctx in After(actions).cancelled
  {
    var before, a := After(actions[..|actions| - 1]), actions[|actions| - 1];
    AfterIsWellFormed(actions[..|actions| - 1]);
    NothingUndone(before, a);
    ReturnsUnderCancelled(before, a, l);
    if l < |before.loops| && before.loops[l].phase == Returned {
      ReturnedMeansCancelled(actions[..|actions| - 1], l);
    }
  }

  /** What is done stays done: jobs, loops and their contexts, cancellations, and the return of a loop. */
  lemma NothingUndone(m: Manager, a: Action)
    requires WellFormed(m)
    ensures var n := Do(m, a);
            && m.immediate <= n.immediate && m.cancelled <= n.cancelled && m.contexts <= n.contexts
            && |m.loops| <= |n.loops|
            && forall l :: 0 <= l < |m.loops| ==>
                 && n.loops[l].ctx == m.loops[l].ctx && n.loops[l].job == m.loops[l].job
                 && (m.loops[l].phase == Returned ==> n.loops[l].phase == Returned)
  {
  }

  /** A context is cancelled by the Stop that took it or from outside, and by nothing else. */
  lemma CancelledByStop(m: Manager, a: Action, c: nat)
    ensures c in Do(m, a).cancelled <==>
            || c in m.cancelled
            || (a.ParentCancels? && a.ctx == c && c < m.contexts)
            || (a.StopCancels? && a.stopper < |m.stoppers| && m.stoppers[a.stopper] == Stopper(c, TookCancel))
  {
  }

  /** While the manager runs no job is accepted and no second Start or context is made. */
  lemma RunningRefuses(m: Manager, a: Action)
    requires m.isRunning && (a.QueueJob? || a.Start?)
    ensures Do(m, a) == m
  {
  }

  /** With a single effective Start there is at most one loop per job. */
  predicate OneLoopPerJob(m: Manager) {
    && |m.starters| == m.contexts
    && (m.contexts <= 1 ==>
          && (forall l :: 0 <= l < |m.loops| ==> |m.starters| == 1 && m.loops[l].job < m.starters[0].next)
          && (forall k, l :: 0 <= k < l < |m.loops| ==> m.loops[k].job != m.loops[l].job))
  }

  lemma StartedOnceOneLoopPerJob(actions: seq<Action>)
    ensures OneLoopPerJob(After(actions))
  {
    OneLoopPerStartAndJob(actions);
    OneStartOneLoop(After(actions));
  }

  lemma OneStartOneLoop(m: Manager)
    requires NoLoopTooMany(m)
    ensures OneLoopPerJob(m)
  {
    if m.contexts <= 1 && |m.loops| > 0 {
      assert m.loops[0].ctx < m.contexts;
      assert |m.starters| == 1;
      assert forall l :: 0 <= l < |m.loops| ==> m.loops[l].ctx == 0;
      assert forall l :: 0 <= l < |m.loops| ==> m.loops[l].job < m.starters[0].next;
    }
  }

  /** A manager that was started only once executes every job at most once at a time, immediate or not. */
  lemma {:induction false} StartedOnceIsExclusive(actions: seq<Action>, job: nat)
    requires After(actions).contexts <= 1
    ensures Exclusive(After(actions), job)
  {
    if actions != [] {
      var before, a := After(actions[..|actions| - 1]), actions[|actions| - 1];
      AfterIsWellFormed(actions[..|actions| - 1]);
      StartedOnceOneLoopPerJob(actions[..|actions| - 1]);
      NothingUndone(before, a);
      StartedOnceIsExclusive(actions[..|actions| - 1], job);
      ExclusiveStep(before, a, job);
      if Overtakes(before, a, job) {
        assert false;
      }
    }
  }

  lemma AfterOneMore(actions: seq<Action>, a: Action)
    ensures After(actions + [a]) == Do(After(actions), a)
  {
    assert (actions + [a])[..|actions|] == actions;
  }

  lemma ImmediateRunBegins() returns (actions: seq<Action>)
    ensures After(actions)
            == Manager([true], [true], true, 0, 1, {}, [Loop(0, 0, Executing)], [Queuer(true, true)],
                       [Starter(0, 1, Some(1))], [])
  {
    var s0: seq<Action> := [];
    AfterOneMore(s0, QueueJob(true));
    var q0 := s0 + [QueueJob(true)];
    AfterOneMore(q0, AppendJob(0));
    var s1 := q0 + [AppendJob(0)];
    AfterOneMore(s1, Start);
    var s2 := s1 + [Start];
    AfterOneMore(s2, ListJobs(0));
    var s3 := s2 + [ListJobs(0)];
    AfterOneMore(s3, Spawn(0));
    var s4 := s3 + [Spawn(0)];
    AfterOneMore(s4, LoopBegins(0));
    actions := s4 + [LoopBegins(0)];
  }

  lemma RestartDuringRun() returns (actions: seq<Action>)
    ensures After(actions)
            == Manager([true], [true], true, 1, 2, {0}, [Loop(0, 0, Executing)], [Queuer(true, true)],
                       [Starter(0, 1, Some(1)), Starter(1, 0, None)], [Stopper(0, Stopped)])
  {
    var s0 := ImmediateRunBegins();
    AfterOneMore(s0, Stop);
    var s1 := s0 + [Stop];
    AfterOneMore(s1, StopCancels(0));
    var s2 := s1 + [StopCancels(0)];
    AfterOneMore(s2, StopEnds(0));
    var s3 := s2 + [StopEnds(0)];
    AfterOneMore(s3, Start);
    actions := s3 + [Start];
  }

  /** Restarted while an immediate run is still going on, a job is executed twice at the same time. */
  lemma RestartOverlapsImmediateJob()
    ensures exists actions, k: nat, l: nat ::
              InFlight(After(actions), k, 0) && InFlight(After(actions), l, 0) && k != l && After(actions).contexts == 2
  {
    var s0 := RestartDuringRun();
    AfterOneMore(s0, ListJobs(1));
    var s1 := s0 + [ListJobs(1)];
    AfterOneMore(s1, Spawn(1));
    var s2 := s1 + [Spawn(1)];
    AfterOneMore(s2, LoopBegins(1));
    var s3 := s2 + [LoopBegins(1)];
    assert InFlight(After(s3), 0, 0) && InFlight(After(s3), 1, 0);
  }

  // ---------- stopping ----------

  /** Every context made so far is cancelled, but for that of a running manager's last Start. */
  ghost predicate Tidy(m: Manager) {
    forall c: nat :: c < m.contexts && (m.isRunning ==> c != m.current) ==> c in m.cancelled
  }

  /** A Stop that ends while the manager's current context, made after that Stop took its own, is still live. */
  predicate Abandons(m: Manager, a: Action) {
    && a.StopEnds? && a.stopper < |m.stoppers| && m.stoppers[a.stopper].phase == Cancelled
    && m.isRunning && m.current !in m.cancelled
  }

  lemma TidyStep(m: Manager, a: Action)
    requires WellFormed(m) && Tidy(m)
    ensures Tidy(Do(m, a)) <==> !Abandons(m, a)
  {
  }

  lemma {:induction false} TidyUntil(actions: seq<Action>, n: nat)
    requires n <= |actions| && forall i: nat :: i < n ==> !Abandons(Before(actions, i), actions[i])
    ensures Tidy(Before(actions, n))
  {
    if n > 0 {
      TidyUntil(actions, n - 1);
      BeforeNext(actions, n - 1);
      TidyStep(Before(actions, n - 1), actions[n - 1]);
    }
  }

  /** A manager that is not running has cancelled every context it ever made. */
  ghost predicate StoppedIsCancelled(m: Manager) {
    !m.isRunning ==> forall c: nat :: c < m.contexts ==> c in m.cancelled
  }

  /** A run leaves no live context behind at any stop exactly when no Stop of it ends over a live current context. */
  lemma StoppedMeansCancelledExactlyWhen(actions: seq<Action>)
    ensures (forall n: nat :: n <= |actions| ==> StoppedIsCancelled(Before(actions, n)))
            <==> (forall i: nat :: i < |actions| ==> !Abandons(Before(actions, i), actions[i]))
  {
    if forall i: nat :: i < |actions| ==> !Abandons(Before(actions, i), actions[i]) {
      forall n: nat | n <= |actions| ensures StoppedIsCancelled(Before(actions, n)) {
        TidyUntil(actions, n);
      }
    }
    if forall n: nat :: n <= |actions| ==> StoppedIsCancelled(Before(actions, n)) {
      forall i: nat | i < |actions| ensures !Abandons(Before(actions, i), actions[i]) {
        BeforeNext(actions, i);
        assert StoppedIsCancelled(Before(actions, i + 1));
      }
    }
  }

  // ---------- calls of Stop that do not overlap ----------

  predicate Unfinished(m: Manager, i: nat) {
    i < |m.stoppers| && m.stoppers[i].phase != Stopped
  }

  /** No two Stop calls are under way at once. */
  ghost predicate StopsApart(m: Manager) {
    forall i: nat, j: nat :: Unfinished(m, i) && Unfinished(m, j) ==> i == j
  }

  /** A Stop under way is after the current context of a running manager. */
  ghost predicate StopSound(m: Manager) {
    forall i: nat :: Unfinished(m, i) ==>
      && m.isRunning && m.stoppers[i].ctx == m.current
      && (m.stoppers[i].phase == Cancelled ==> m.current in m.cancelled)
  }

  lemma StopSoundStep(m: Manager, a: Action)
    requires WellFormed(m) && StopSound(m) && StopsApart(m)
    ensures StopSound(Do(m, a)) && !Abandons(m, a)
  {
    var n := Do(m, a);
    assert forall i: nat :: Unfinished(n, i) ==> Unfinished(m, i) || (a.Stop? && i == |m.stoppers|);
    if a.StopEnds? && n != m {
      assert Unfinished(m, a.stopper);
    }
  }

  lemma {:induction false} StopsAreSound(actions: seq<Action>, n: nat)
    requires n <= |actions| && forall i: nat :: i <= |actions| ==> StopsApart(Before(actions, i))
    ensures StopSound(Before(actions, n))
  {
    if n > 0 {
      StopsAreSound(actions, n - 1);
      BeforeNext(actions, n - 1);
      StopSoundStep(Before(actions, n - 1), actions[n - 1]);
    }
  }

  /** Unless Stop calls overlapped, a manager not running has cancelled every context it ever handed to a loop. */
  lemma StoppedMeansCancelled(actions: seq<Action>)
    requires forall n: nat :: n <= |actions| ==> StopsApart(Before(actions, n))
    requires !After(actions).isRunning
    ensures forall l :: 0 <= l < |After(actions).loops| ==> After(actions).loops[l].ctx in After(actions).cancelled
    ensures forall i :: 0 <= i < |After(actions).starters| ==>
              After(actions).starters[i].ctx in After(actions).cancelled
    ensures forall c: nat :: c < After(actions).contexts ==> c in After(actions).cancelled
  {
    forall i: nat | i < |actions| ensures !Abandons(Before(actions, i), actions[i]) {
      StopsAreSound(actions, i);
      BeforeNext(actions, i);
      StopSoundStep(Before(actions, i), actions[i]);
    }
    StoppedMeansCancelledExactlyWhen(actions);
    assert actions[..|actions|] == actions;
    assert StoppedIsCancelled(Before(actions, |actions|));
    AfterIsWellFormed(actions);
  }

  /** Two overlapping Stop calls with a restart between their ends leave a stopped manager with a live context. */
  lemma OverlappingStopsLeaveContext()
    ensures exists actions ::
              !After(actions).isRunning && After(actions).contexts == 2 && 1 !in After(actions).cancelled
  {
    var s0: seq<Action> := [];
    AfterOneMore(s0, Start);
    var s1 := s0 + [Start];
    AfterOneMore(s1, Stop);
    var s2 := s1 + [Stop];
    AfterOneMore(s2, Stop);
    var s3 := s2 + [Stop];
    AfterOneMore(s3, StopCancels(0));
    var s4 := s3 + [StopCancels(0)];
    AfterOneMore(s4, StopEnds(0));
    var s5 := s4 + [StopEnds(0)];
    AfterOneMore(s5, Start);
    var s6 := s5 + [Start];
    AfterOneMore(s6, StopCancels(1));
    var s7 := s6 + [StopCancels(1)];
    AfterOneMore(s7, StopEnds(1));
    var s8 := s7 + [StopEnds(1)];
    assert !After(s8).isRunning;
  }
}
