/**
 MutexQueue: a lock granted in first-come order. Each caller appends a mutex of its own, locked,
 and waits for the mutex that was last in the list before it.

 Any number of threads interleave at every lock, unlock and list operation. Mutexes are numbered
 in the order in which they are appended, so mutex `m` belongs to thread `appends[m]`.
 */
module MutexQueue {
  import opened Basics

  datatype PC =
    | Out
    | Calling                                // in Lock, before mq.mu.Lock
    | Has                                    // holds mq.mu
    | Pushed(m: nat, prev: Option<nat>)      // appended m; prev is the former tail
    | Locked(m: nat, prev: Option<nat>)      // locked m
    | Waiting(m: nat, p: nat)                // released mq.mu, before p.Lock
    | Passing(m: nat, p: nat)                // locked p, before p.Unlock
    | Inside(m: nat)                         // Lock returned
    | Leaving(m: nat)                        // in Unlock, before mq.mu.Lock
    | LeavingHas(m: nat)                     // holds mq.mu
    | Removed(f: nat)                        // took f from the front of the list
    | Unlocked                               // unlocked it, before mq.mu.Unlock

  /** `held` are the locked mutexes; `appends` and `grants` record who appended and who got in. */
  datatype State = State(
    pcs: seq<PC>, mu: Option<nat>, list: seq<nat>, held: set<nat>,
    appends: seq<nat>, grants: seq<nat>, crashed: bool)

  function Init(n: nat): State {
    State(seq(n, _ => Out), None, [], {}, [], [], false)
  }

  function Goto(s: State, t: nat, pc: PC): State
    requires t < |s.pcs|
  {
    s.(pcs := s.pcs[t := pc])
  }

  /** A thread blocks only on a locked mutex. */
  predicate Enabled(s: State, t: nat) {
    && t < |s.pcs|
    && match s.pcs[t] {
      case Calling => s.mu.None?
      case Leaving(_) => s.mu.None?
      case Pushed(m, _) => m !in s.held
      case Waiting(_, p) => p !in s.held
      case _ => true
    }
  }

  /** One operation of thread `t`; unlocking a free mutex or removing from an empty list crashes. */
  function Step(s: State, t: nat): State
    requires Enabled(s, t)
  {
    match s.pcs[t]
    case Out => Goto(s, t, Calling)
    case Calling => Goto(s, t, Has).(mu := Some(t))
    case Has =>
      var m := |s.appends|;
      var prev := if s.list == [] then None else Some(s.list[|s.list| - 1]);
      Goto(s, t, Pushed(m, prev)).(list := s.list + [m], appends := s.appends + [t])
    case Pushed(m, prev) => Goto(s, t, Locked(m, prev)).(held := s.held + {m})
    case Locked(m, None) => Goto(s, t, Inside(m)).(mu := None, grants := s.grants + [t])
    case Locked(m, Some(p)) => Goto(s, t, Waiting(m, p)).(mu := None)
    case Waiting(m, p) => Goto(s, t, Passing(m, p)).(held := s.held + {p})
    case Passing(m, p) =>
      if p !in s.held then s.(crashed := true)
      else Goto(s, t, Inside(m)).(held := s.held - {p}, grants := s.grants + [t])
    case Inside(m) => Goto(s, t, Leaving(m))
    case Leaving(m) => Goto(s, t, LeavingHas(m)).(mu := Some(t))
    case LeavingHas(_) =>
      if s.list == [] then s.(crashed := true)
      else Goto(s, t, Removed(s.list[0])).(list := s.list[1..])
    case Removed(f) =>
      if f !in s.held then s.(crashed := true)
      else Goto(s, t, Unlocked).(held := s.held - {f})
    case Unlocked => Goto(s, t, Out).(mu := None)
  }

  /** A run: at each point some thread takes a step if it can. */
  function Run(n: nat, schedule: seq<nat>): State {
    if schedule == [] then Init(n)
    else
      var s, t := Run(n, schedule[..|schedule| - 1]), schedule[|schedule| - 1];
      if Enabled(s, t) then Step(s, t) else s
  }

  // ----------------------------------------------------------------- invariant

  /** How many mutexes were removed: the list is always first, first + 1, ... */
  function First(s: State): int { |s.appends| - |s.list| }

  predicate HoldsMu(pc: PC) {
    pc.Has? || pc.Pushed? || pc.Locked? || pc.LeavingHas? || pc.Removed? || pc.Unlocked?
  }

  /** Inside the critical section: from Lock's return until Unlock takes the list. */
  predicate In(pc: PC) { pc.Inside? || pc.Leaving? || pc.LeavingHas? }

  predicate HasMutex(pc: PC, m: nat) {
    (pc.Pushed? || pc.Locked? || pc.Waiting? || pc.Passing? || In(pc)) && pc.m == m
  }

  predicate InList(s: State, t: nat, m: nat) {
    0 <= First(s) <= m < |s.appends| && s.appends[m] == t
  }

  predicate PrevOk(s: State, m: nat, prev: Option<nat>) {
    match prev
    case None => m == First(s)
    case Some(p) => First(s) <= p == m - 1
  }

  /** Whether the owner of the front mutex got in. */
  predicate FrontIn(s: State) {
    && 0 <= First(s) < |s.appends|
    && s.appends[First(s)] < |s.pcs|
    && In(s.pcs[s.appends[First(s)]])
  }

  predicate FrontWaits(s: State) {
    0 <= First(s) < |s.appends| ==>
      var t := s.appends[First(s)];
      t < |s.pcs| && s.pcs[t].Waiting? && s.pcs[t].m == First(s) && s.pcs[t].p == First(s) - 1
  }

  predicate Local(s: State, t: nat)
    requires t < |s.pcs|
  {
    match s.pcs[t]
    case Pushed(m, prev) => InList(s, t, m) && m == |s.appends| - 1 && m !in s.held && PrevOk(s, m, prev)
    case Locked(m, prev) => InList(s, t, m) && m == |s.appends| - 1 && m in s.held && PrevOk(s, m, prev)
    case Waiting(m, p) => InList(s, t, m) && m in s.held && p == m - 1
    case Passing(m, p) => InList(s, t, m) && m in s.held && p == m - 1 && m == First(s) && p in s.held
    case Inside(m) => InList(s, t, m) && m in s.held && m == First(s)
    case Leaving(m) => InList(s, t, m) && m in s.held && m == First(s)
    case LeavingHas(m) => InList(s, t, m) && m in s.held && m == First(s)
    case Removed(f) => f == First(s) - 1 && f in s.held && FrontWaits(s)
    case _ => true
  }

  ghost predicate MuOk(s: State) {
    forall t :: 0 <= t < |s.pcs| ==> (HoldsMu(s.pcs[t]) <==> s.mu == Some(t))
  }

  predicate ListOk(s: State) {
    && 0 <= First(s)
    && (forall i :: 0 <= i < |s.list| ==> s.list[i] == First(s) + i)
  }

  /** Every mutex in the list has its owner at work. */
  predicate OwnersOk(s: State) {
    && (s.mu.Some? ==> s.mu.value < |s.pcs|)
    && (forall m :: 0 <= First(s) <= m < |s.appends| ==> s.appends[m] < |s.pcs| && HasMutex(s.pcs[s.appends[m]], m))
  }

  /** A removed mutex stays locked only until its owner unlocks it or while the next owner passes. */
  predicate HeldOk(s: State) {
    forall m <- s.held :: m < |s.appends| && m >= First(s) - 1
      && (m == First(s) - 1 ==> RemovedHolds(s, m) || PassingHolds(s, m))
  }

  predicate RemovedHolds(s: State, m: nat) {
    s.mu.Some? && s.mu.value < |s.pcs| && s.pcs[s.mu.value] == Removed(m)
  }

  predicate PassingHolds(s: State, m: nat) {
    && m + 1 == First(s) < |s.appends|
    && s.appends[m + 1] < |s.pcs|
    && s.pcs[s.appends[m + 1]] == Passing(m + 1, m)
  }

  /** The lock is granted in the order of the appends. */
  predicate GrantsOk(s: State) {
    && 0 <= First(s)
    && var g := First(s) + (if FrontIn(s) then 1 else 0);
    g <= |s.appends| && s.grants == s.appends[..g]
  }

  ghost predicate Locals(s: State) {
    forall t :: 0 <= t < |s.pcs| ==> Local(s, t)
  }

  ghost predicate Inv(s: State) {
    !s.crashed && MuOk(s) && ListOk(s) && OwnersOk(s) && HeldOk(s) && Locals(s) && GrantsOk(s)
  }

  // ---------------------------------------------------------- steps keep it

  /** Mutexes in the list are locked, except the one being appended. */
  lemma ListedHeld(s: State, m: nat)
    requires Inv(s) && First(s) <= m < |s.appends| - 1
    ensures m in s.held
  {
    assert Local(s, s.appends[m]);
  }

  /** A free predecessor was removed, so the waiter is in front. */
  lemma FreeMeansFront(s: State, t: nat)
    requires Inv(s) && t < |s.pcs| && s.pcs[t].Waiting? && s.pcs[t].p !in s.held
    ensures s.pcs[t].m == First(s)
  {
    assert Local(s, t);
    if First(s) <= s.pcs[t].p { ListedHeld(s, s.pcs[t].p); }
  }

  /** With mq.mu free or held by another thread, the second in the list waits for the first. */
  lemma SecondWaits(s: State, t: nat, m: nat)
    requires Inv(s) && t < |s.pcs| && s.pcs[t] == LeavingHas(m) && m + 1 < |s.appends|
    ensures var u := s.appends[m + 1]; u != t && u < |s.pcs| && s.pcs[u] == Waiting(m + 1, m)
  {
    assert Local(s, t);
    var u := s.appends[m + 1];
    assert HasMutex(s.pcs[u], m + 1);
    assert Local(s, u);
    assert HoldsMu(s.pcs[t]) && s.mu == Some(t);
  }

  lemma StepInv(s: State, t: nat)
    requires Inv(s) && Enabled(s, t)
    ensures Inv(Step(s, t)) && |Step(s, t).pcs| == |s.pcs|
  {
    hide Inv;
    match s.pcs[t]
    case Out => Call(s, t);
    case Calling => Acquire(s, t);
    case Has => Append(s, t);
    case Pushed(_, _) => LockOwn(s, t);
    case Locked(_, _) => Release(s, t);
    case Waiting(_, _) => Pass(s, t);
    case Passing(_, _) => Enter(s, t);
    case Inside(_) => Leave(s, t);
    case Leaving(_) => Acquire(s, t);
    case LeavingHas(_) => Remove(s, t);
    case Removed(_) => Unlock(s, t);
    case Unlocked => Done(s, t);
  }

  lemma Call(s: State, t: nat)
    requires Inv(s) && t < |s.pcs| && s.pcs[t].Out?
    ensures Inv(Step(s, t))
  {
    var s1 := Step(s, t);
    forall u | 0 <= u < |s1.pcs| ensures Local(s1, u) { assert Local(s, u); }
  }

  lemma Leave(s: State, t: nat)
    requires Inv(s) && t < |s.pcs| && s.pcs[t].Inside?
    ensures Inv(Step(s, t))
  {
    assert Local(s, t);
    var s1 := Step(s, t);
    forall u | 0 <= u < |s1.pcs| ensures Local(s1, u) { assert Local(s, u); }
  }

  lemma Acquire(s: State, t: nat)
    requires Inv(s) && Enabled(s, t) && (s.pcs[t].Calling? || s.pcs[t].Leaving?)
    ensures Inv(Step(s, t))
  {
    assert Local(s, t);
    var s1 := Step(s, t);
    forall u | 0 <= u < |s1.pcs| ensures Local(s1, u) { assert Local(s, u); }
  }

  lemma Append(s: State, t: nat)
    requires Inv(s) && t < |s.pcs| && s.pcs[t].Has?
    ensures Inv(Step(s, t))
  {
    var s1 := Step(s, t);
    assert s1.mu == Some(t);
    forall u | 0 <= u < |s1.pcs| ensures Local(s1, u) { assert Local(s, u); }
  }

  lemma LockOwn(s: State, t: nat)
    requires Inv(s) && t < |s.pcs| && s.pcs[t].Pushed?
    ensures Enabled(s, t) && Inv(Step(s, t))
  {
    assert Local(s, t);
    var s1 := Step(s, t);
    forall u | 0 <= u < |s1.pcs| ensures Local(s1, u) { assert Local(s, u); }
  }

  lemma Release(s: State, t: nat)
    requires Inv(s) && t < |s.pcs| && s.pcs[t].Locked?
    ensures Inv(Step(s, t))
  {
    assert Local(s, t);
    var s1 := Step(s, t);
    forall u | 0 <= u < |s1.pcs| ensures Local(s1, u) { assert Local(s, u); }
  }

  lemma Pass(s: State, t: nat)
    requires Inv(s) && Enabled(s, t) && s.pcs[t].Waiting?
    ensures Inv(Step(s, t))
  {
    assert Local(s, t);
    FreeMeansFront(s, t);
    var s1 := Step(s, t);
    forall u | 0 <= u < |s1.pcs| ensures Local(s1, u) { assert Local(s, u); }
  }

  lemma Enter(s: State, t: nat)
    requires Inv(s) && t < |s.pcs| && s.pcs[t].Passing?
    ensures Inv(Step(s, t))
  {
    assert Local(s, t);
    var s1 := Step(s, t);
    forall u | 0 <= u < |s1.pcs| ensures Local(s1, u) { assert Local(s, u); }
  }

  lemma Remove(s: State, t: nat)
    requires Inv(s) && t < |s.pcs| && s.pcs[t].LeavingHas?
    ensures Inv(Step(s, t))
  {
    assert Local(s, t);
    var m := s.pcs[t].m;
    if m + 1 < |s.appends| { SecondWaits(s, t, m); }
    var s1 := Step(s, t);
    forall u | 0 <= u < |s1.pcs| ensures Local(s1, u) { assert Local(s, u); }
  }

  lemma Unlock(s: State, t: nat)
    requires Inv(s) && t < |s.pcs| && s.pcs[t].Removed?
    ensures Inv(Step(s, t))
  {
    assert Local(s, t);
    var s1 := Step(s, t);
    forall u | 0 <= u < |s1.pcs| ensures Local(s1, u) { assert Local(s, u); }
  }

  lemma Done(s: State, t: nat)
    requires Inv(s) && t < |s.pcs| && s.pcs[t].Unlocked?
    ensures Inv(Step(s, t))
  {
    var s1 := Step(s, t);
    forall u | 0 <= u < |s1.pcs| ensures Local(s1, u) { assert Local(s, u); }
  }

  // ------------------------------------------------------------- what follows

  lemma InitInv(n: nat)
    ensures Inv(Init(n))
  {
  }

  lemma {:induction false} RunInv(n: nat, schedule: seq<nat>)
    ensures Inv(Run(n, schedule)) && |Run(n, schedule).pcs| == n
  {
    hide Inv, Step, Enabled;
    if schedule == [] {
      InitInv(n);
    } else {
      var s, t := Run(n, schedule[..|schedule| - 1]), schedule[|schedule| - 1];
      RunInv(n, schedule[..|schedule| - 1]);
      if Enabled(s, t) { StepInv(s, t); }
    }
  }

  /** Two threads are never inside together. */
  lemma MutualExclusion(s: State, n: nat, schedule: seq<nat>, t: nat, u: nat)
    requires s == Run(n, schedule) && t < n && u < n
    requires |s.pcs| == n && In(s.pcs[t]) && In(s.pcs[u])
    ensures t == u
  {
    RunInv(n, schedule);
    assert Local(s, t) && Local(s, u);
  }

  /** The lock is granted in the order in which threads appended themselves. */
  lemma FirstComeFirstServed(s: State, n: nat, schedule: seq<nat>)
    requires s == Run(n, schedule)
    ensures !s.crashed && s.grants <= s.appends
  {
    RunInv(n, schedule);
  }

  predicate WaitsFor(pc: PC, p: nat) { (pc.Waiting? || pc.Passing?) && pc.p == p }

  /** A mutex has at most one waiter. */
  lemma OneWaiter(s: State, n: nat, schedule: seq<nat>, p: nat, t: nat, u: nat)
    requires s == Run(n, schedule) && t < |s.pcs| && u < |s.pcs| && WaitsFor(s.pcs[t], p) && WaitsFor(s.pcs[u], p)
    ensures t == u
  {
    RunInv(n, schedule);
    hide Run;
    assert Local(s, t) && Local(s, u);
    assert s.pcs[t].m == s.pcs[u].m == p + 1;
  }

  /** A mutex with a successor in the list has a waiter, unless that one is still in its call to append. */
  lemma SomeWaiter(s: State, n: nat, schedule: seq<nat>, p: nat)
    requires s == Run(n, schedule) && First(s) <= p && p + 1 < |s.appends|
    ensures var t := s.appends[p + 1]; t < |s.pcs| && (WaitsFor(s.pcs[t], p) || s.mu == Some(t))
  {
    RunInv(n, schedule);
    hide Run;
    var t := s.appends[p + 1];
    assert HasMutex(s.pcs[t], p + 1);
    assert Local(s, t);
  }

  predicate InsideOrMoving(s: State, m: nat, t: nat) {
    && t < |s.pcs|
    && (In(s.pcs[t]) || Enabled(s, t) || (m > 0 && s.pcs[t] == Waiting(m, m - 1) && RemovedHolds(s, m - 1)))
  }

  lemma FrontMoves(s: State)
    requires Inv(s) && s.list != []
    ensures s.list[0] < |s.appends| && InsideOrMoving(s, s.list[0], s.appends[s.list[0]])
    ensures HasMutex(s.pcs[s.appends[s.list[0]]], s.list[0])
  {
    var m := s.list[0];
    assert m == First(s);
    var t := s.appends[m];
    assert HasMutex(s.pcs[t], m);
    assert Local(s, t);
  }

  /**
   No lost wakeup: the owner of the front mutex is inside, or enabled, or waits for the mutex
   which the thread holding mq.mu unlocks in its next step.
   */
  lemma NoLostWakeup(s: State, n: nat, schedule: seq<nat>)
    requires s == Run(n, schedule) && s.list != []
    ensures s.list[0] < |s.appends| && InsideOrMoving(s, s.list[0], s.appends[s.list[0]])
  {
    hide Inv;
    RunInv(n, schedule);
    FrontMoves(s);
  }

  lemma SomeoneMoves(s: State, t: nat) returns (u: nat)
    requires Inv(s) && t < |s.pcs| && !s.pcs[t].Out?
    ensures Enabled(s, u) && !s.pcs[u].Out?
  {
    if s.mu.Some? {
      u := s.mu.value;
      assert HoldsMu(s.pcs[u]) && Local(s, u);
    } else if s.list != [] {
      FrontMoves(s);
      u := s.appends[s.list[0]];
    } else {
      u := t;
      assert Local(s, t) && !HoldsMu(s.pcs[t]);
    }
  }

  /** No deadlock: while any thread is between the start of Lock and the end of Unlock, one of those can step. */
  lemma NoDeadlock(s: State, n: nat, schedule: seq<nat>, t: nat)
    requires s == Run(n, schedule) && t < |s.pcs| && !s.pcs[t].Out?
    ensures exists u: nat :: Enabled(s, u) && !s.pcs[u].Out?
  {
    hide Inv;
    RunInv(n, schedule);
    var u := SomeoneMoves(s, t);
  }

  // ---------------------------------------------------------------- everybody gets through

  /** How far a thread is from the end of its Unlock, in steps. */
  function Left(pc: PC): nat {
    match pc
    case Out => 0
    case Calling => 11
    case Has => 10
    case Pushed(_, _) => 9
    case Locked(_, _) => 8
    case Waiting(_, _) => 7
    case Passing(_, _) => 6
    case Inside(_) => 5
    case Leaving(_) => 4
    case LeavingHas(_) => 3
    case Removed(_) => 2
    case Unlocked => 1
  }

  /** Whether a step records that the thread appended itself, or that it got in. */
  predicate Appends(pc: PC) { pc.Has? }
  predicate GetsIn(pc: PC) { pc.Passing? || (pc.Locked? && pc.prev.None?) }

  /**
   Every step brings its thread to the next operation and moves no other: one step closer to the end of
   Unlock, except that an empty list saves the two steps of waiting. Appends and entries are recorded as they happen.
   */
  lemma NextOperation(s: State, t: nat)
    requires Inv(s) && Enabled(s, t)
    ensures var u := Step(s, t);
      && |u.pcs| == |s.pcs| && u.pcs == s.pcs[t := u.pcs[t]]
      && (if s.pcs[t].Out? then u.pcs[t].Calling?
          else if s.pcs[t].Locked? && s.pcs[t].prev.None? then u.pcs[t].Inside?
          else Left(u.pcs[t]) == Left(s.pcs[t]) - 1)
      && u.appends == (if Appends(s.pcs[t]) then s.appends + [t] else s.appends)
      && u.grants == (if GetsIn(s.pcs[t]) then s.grants + [t] else s.grants)
  {
    assert Local(s, t);
  }

  function Total(pcs: seq<PC>): nat {
    if pcs == [] then 0 else Total(pcs[..|pcs| - 1]) + Left(pcs[|pcs| - 1])
  }

  lemma {:induction false} TotalWith(pcs: seq<PC>, t: nat, pc: PC)
    requires t < |pcs|
    ensures Total(pcs[t := pc]) == Total(pcs) - Left(pcs[t]) + Left(pc)
  {
    hide Left;
    var last := |pcs| - 1;
    if t < last {
      TotalWith(pcs[..last], t, pc);
      assert pcs[t := pc][..last] == pcs[..last][t := pc];
    } else {
      assert pcs[t := pc][..last] == pcs[..last];
    }
  }

  /** As long as no thread calls Lock anew, every step brings all of them together closer to the end. */
  lemma Closer(s: State, t: nat)
    requires Inv(s) && Enabled(s, t) && !s.pcs[t].Out?
    ensures Total(Step(s, t).pcs) < Total(s.pcs)
  {
    hide Inv, Step;
    NextOperation(s, t);
    TotalWith(s.pcs, t, Step(s, t).pcs[t]);
  }

  predicate AllOut(s: State) { forall t :: 0 <= t < |s.pcs| ==> s.pcs[t].Out? }

  /** Steps that can be taken one after the other, none of which starts a new call. */
  predicate Draining(n: nat, schedule: seq<nat>, more: seq<nat>)
    decreases |more|
  {
    more == [] ||
    var before, t := more[..|more| - 1], more[|more| - 1];
    var s := Run(n, schedule + before);
    Draining(n, schedule, before) && Enabled(s, t) && !s.pcs[t].Out?
  }

  lemma RunMore(n: nat, schedule: seq<nat>, more: seq<nat>, t: nat)
    ensures var s := Run(n, schedule + more);
      Run(n, schedule + (more + [t])) == if Enabled(s, t) then Step(s, t) else s
  {
    var all := schedule + (more + [t]);
    assert all[..|all| - 1] == schedule + more && all[|all| - 1] == t;
  }

  /** Without new calls only so many steps are left, whatever the schedule. */
  lemma {:induction false} DrainBound(n: nat, schedule: seq<nat>, more: seq<nat>)
    requires Draining(n, schedule, more)
    ensures |more| + Total(Run(n, schedule + more).pcs) <= Total(Run(n, schedule).pcs)
    decreases |more|
  {
    hide Step, Total, Run, Inv;
    if more == [] {
      assert schedule + more == schedule;
    } else {
      var before, t := more[..|more| - 1], more[|more| - 1];
      DrainBound(n, schedule, before);
      RunInv(n, schedule + before);
      Closer(Run(n, schedule + before), t);
      RunMore(n, schedule, before, t);
      assert before + [t] == more;
    }
  }

  /**
   Nobody starves: however the threads that have called Lock are scheduled, when none of them can go on all
   are through, and every one that appended itself was let in.
   */
  lemma Drained(n: nat, schedule: seq<nat>, s: State)
    requires s == Run(n, schedule) && forall t: nat :: Enabled(s, t) ==> s.pcs[t].Out?
    ensures AllOut(s) && s.list == [] && s.grants == s.appends
  {
    hide Run;
    RunInv(n, schedule);
    forall t | 0 <= t < |s.pcs| ensures s.pcs[t].Out? {
      if !s.pcs[t].Out? {
        hide Inv;
        var u := SomeoneMoves(s, t);
      }
    }
    if s.list != [] {
      FrontMoves(s);
    }
  }
}
