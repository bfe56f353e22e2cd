/** Turns of any number of users, each under its user's lock and one of fifty slots. */
module TurnScheduler {
  type User = string

  /** How far a turn has got. `Called`: not begun. `WantLock`: before the directory check.
      `Preparing`: with the lock, in the directory check. `WantTurn`: before the second locking.
      `WantSlot`: with the lock. `Running`: with lock and slot. `Leaving`: slot given back, lock not yet. */
  datatype Phase = Called | WantLock | Preparing | WantTurn | WantSlot | Running | Leaving | Done

  datatype Turn = Turn(user: User, workspace: bool, phase: Phase, cancelled: bool)

  const SLOTS: nat := 50

  /** `locks` is the table of user locks, true while held; `slots` the semaphore's count. */
  datatype State = State(turns: seq<Turn>, locks: map<User, bool>, slots: nat)

  datatype Step =
    | Arrive(user: User, workspace: bool)
    | Cancel(i: nat)
    | Begin(i: nat)
    | LockForPrepare(i: nat)
    | Prepare(i: nat, ok: bool)
    | LockForTurn(i: nat)
    | TakeSlot(i: nat)
    | GiveUp(i: nat)
    | Finish(i: nat)
    | Unlock(i: nat)

  predicate At(s: State, i: nat, phase: Phase) { i < |s.turns| && s.turns[i].phase == phase }

  predicate LockFree(s: State, user: User) { user in s.locks && !s.locks[user] }

  predicate Enabled(s: State, step: Step) {
    match step
    case Arrive(_, _) => true
    case Cancel(i) => i < |s.turns|
    case Begin(i) => At(s, i, Called)
    case LockForPrepare(i) => At(s, i, WantLock) && LockFree(s, s.turns[i].user)
    case Prepare(i, _) => At(s, i, Preparing)
    case LockForTurn(i) => At(s, i, WantTurn) && LockFree(s, s.turns[i].user)
    case TakeSlot(i) => At(s, i, WantSlot) && s.slots < SLOTS
    case GiveUp(i) => At(s, i, WantSlot) && s.turns[i].cancelled
    case Finish(i) => At(s, i, Running)
    case Unlock(i) => At(s, i, Leaving)
  }

  function Moved(s: State, i: nat, phase: Phase): seq<Turn>
    requires i < |s.turns|
  {
    s.turns[i := s.turns[i].(phase := phase)]
  }

  function SetLock(s: State, i: nat, held: bool): map<User, bool>
    requires i < |s.turns|
  {
    s.locks[s.turns[i].user := held]
  }

  function Next(s: State, step: Step): State
    requires Enabled(s, step)
  {
    match step
    case Arrive(user, workspace) => s.(turns := s.turns + [Turn(user, workspace, Called, false)])
    case Cancel(i) => s.(turns := s.turns[i := s.turns[i].(cancelled := true)])
    case Begin(i) =>
      if !s.turns[i].workspace then s.(turns := Moved(s, i, Done))
      else s.(turns := Moved(s, i, WantLock), locks := if s.turns[i].user in s.locks then s.locks else SetLock(s, i, false))
    case LockForPrepare(i) => s.(turns := Moved(s, i, Preparing), locks := SetLock(s, i, true))
    case Prepare(i, ok) => s.(turns := Moved(s, i, if ok then WantTurn else Done), locks := SetLock(s, i, false))
    case LockForTurn(i) => s.(turns := Moved(s, i, WantSlot), locks := SetLock(s, i, true))
    case TakeSlot(i) => s.(turns := Moved(s, i, Running), slots := s.slots + 1)
    case GiveUp(i) => s.(turns := Moved(s, i, Done), locks := SetLock(s, i, false))
    case Finish(i) => s.(turns := Moved(s, i, Leaving), slots := if s.slots > 0 then s.slots - 1 else 0)
    case Unlock(i) => s.(turns := Moved(s, i, Done), locks := SetLock(s, i, false))
  }

  // ---- Shared state, changed step by step ----

  class Orchestrator {
    var turns: seq<Turn>
    var userLocks: map<User, bool>
    var globalConcurrencyLimit: nat

    function Shared(): State
      reads this
    {
      State(turns, userLocks, globalConcurrencyLimit)
    }

    constructor ()
      ensures Shared() == State([], map[], 0)
    {
      turns, userLocks, globalConcurrencyLimit := [], map[], 0;
    }

    /** `LoadOrStore` of the user's lock. */
    method GetUserLock(user: User)
      modifies this`userLocks
      ensures userLocks == if user in old(userLocks) then old(userLocks) else old(userLocks)[user := false]
    {
      if user !in userLocks {
        userLocks := userLocks[user := false];
      }
    }

    method Start(i: nat)
      requires Enabled(Shared(), Begin(i))
      modifies this
      ensures Shared() == Next(old(Shared()), Begin(i))
    {
      if !turns[i].workspace {
        turns := turns[i := turns[i].(phase := Done)];
        return;
      }
      GetUserLock(turns[i].user);
      turns := turns[i := turns[i].(phase := WantLock)];
    }

    /** `lock.Lock()` returning: before the directory check or before the turn. */
    method Lock(i: nat)
      requires At(Shared(), i, WantLock) || At(Shared(), i, WantTurn)
      requires LockFree(Shared(), turns[i].user)
      modifies this
      ensures Shared() == Next(old(Shared()), if old(turns)[i].phase.WantLock? then LockForPrepare(i) else LockForTurn(i))
    {
      userLocks := userLocks[turns[i].user := true];
      turns := turns[i := turns[i].(phase := if turns[i].phase.WantLock? then Preparing else WantSlot)];
    }

    method InitUserDir(i: nat, ok: bool)
      requires Enabled(Shared(), Prepare(i, ok))
      modifies this
      ensures Shared() == Next(old(Shared()), Prepare(i, ok))
    {
      userLocks := userLocks[turns[i].user := false];
      turns := turns[i := turns[i].(phase := if ok then WantTurn else Done)];
    }

    /** The `select`: a slot, or the end of a cancelled turn, either when both are there. */
    method Select(i: nat, slot: bool)
      requires Enabled(Shared(), if slot then TakeSlot(i) else GiveUp(i))
      modifies this
      ensures Shared() == Next(old(Shared()), if slot then TakeSlot(i) else GiveUp(i))
    {
      if slot {
        globalConcurrencyLimit := globalConcurrencyLimit + 1;
        turns := turns[i := turns[i].(phase := Running)];
      } else {
        userLocks := userLocks[turns[i].user := false];
        turns := turns[i := turns[i].(phase := Done)];
      }
    }

    /** The deferred releases, slot first. */
    method Release(i: nat)
      requires Enabled(Shared(), Finish(i)) && globalConcurrencyLimit > 0
      modifies this
      ensures Enabled(Next(old(Shared()), Finish(i)), Unlock(i))
      ensures Shared() == Next(Next(old(Shared()), Finish(i)), Unlock(i))
    {
      globalConcurrencyLimit := globalConcurrencyLimit - 1;
      turns := turns[i := turns[i].(phase := Leaving)];
      userLocks := userLocks[turns[i].user := false];
      turns := turns[i := turns[i].(phase := Done)];
    }
  }

  // ---- Counting ----

  /** The turn holds its user's lock. */
  predicate Holds(t: Turn) { t.phase in {Preparing, WantSlot, Running, Leaving} }

  function Holders(turns: seq<Turn>, user: User): nat {
    if turns == [] then 0
    else Holders(turns[..|turns| - 1], user)
         + if turns[|turns| - 1].user == user && Holds(turns[|turns| - 1]) then 1 else 0
  }

  function RunningTurns(turns: seq<Turn>): nat {
    if turns == [] then 0 else RunningTurns(turns[..|turns| - 1]) + if turns[|turns| - 1].phase.Running? then 1 else 0
  }

  /** How many steps a turn has before it at most. */
  function Rank(phase: Phase): nat {
    match phase
    case Called => 7 case WantLock => 6 case Preparing => 5 case WantTurn => 4
    case WantSlot => 3 case Running => 2 case Leaving => 1 case Done => 0
  }

  function Work(turns: seq<Turn>): nat {
    if turns == [] then 0 else Work(turns[..|turns| - 1]) + Rank(turns[|turns| - 1].phase)
  }

  function One(b: bool): nat { if b then 1 else 0 }

  lemma {:induction false} CountsUpdate(turns: seq<Turn>, i: nat, t: Turn, user: User)
    requires i < |turns|
    ensures Holders(turns[i := t], user) + One(turns[i].user == user && Holds(turns[i]))
            == Holders(turns, user) + One(t.user == user && Holds(t))
    ensures RunningTurns(turns[i := t]) + One(turns[i].phase.Running?) == RunningTurns(turns) + One(t.phase.Running?)
    ensures Work(turns[i := t]) + Rank(turns[i].phase) == Work(turns) + Rank(t.phase)
  {
    var last := |turns| - 1;
    if i == last {
      assert turns[i := t][..last] == turns[..last];
    } else {
      assert turns[i := t][..last] == turns[..last][i := t];
      CountsUpdate(turns[..last], i, t, user);
    }
  }

  lemma CountsAppend(turns: seq<Turn>, t: Turn, user: User)
    requires t.phase == Called
    ensures Holders(turns + [t], user) == Holders(turns, user)
    ensures RunningTurns(turns + [t]) == RunningTurns(turns)
    ensures Work(turns + [t]) == Work(turns) + 7
  {
    assert (turns + [t])[..|turns|] == turns;
  }

  // ---- Safety ----

  predicate Begun(t: Turn) { !t.phase.Called? && !t.phase.Done? }

  /** A lock is held exactly while one turn of its user holds it, and the semaphore
      counts the running turns. */
  ghost predicate Consistent(s: State) {
    && (forall user :: Holders(s.turns, user) == if user in s.locks && s.locks[user] then 1 else 0)
    && (forall i :: 0 <= i < |s.turns| && Begun(s.turns[i]) ==> s.turns[i].user in s.locks)
    && s.slots == RunningTurns(s.turns) <= SLOTS
  }

  lemma HolderCounts(turns: seq<Turn>, i: nat)
    requires i < |turns| && Holds(turns[i])
    ensures Holders(turns, turns[i].user) >= 1
    ensures turns[i].phase.Running? ==> RunningTurns(turns) >= 1
  {
    CountsUpdate(turns, i, turns[i].(phase := Done), turns[i].user);
  }

  predicate Locked(locks: map<User, bool>, user: User) { user in locks && locks[user] }

  /** One turn moves, and its user's lock and the semaphore with it. */
  lemma MoveKeepsConsistent(s: State, i: nat, turn: Turn, locks: map<User, bool>, slots: nat)
    requires Consistent(s) && i < |s.turns| && turn.user == s.turns[i].user
    requires s.locks.Keys <= locks.Keys && (Begun(turn) ==> turn.user in locks)
    requires forall user :: user != turn.user ==> Locked(locks, user) == Locked(s.locks, user)
    requires One(Locked(locks, turn.user)) + One(Holds(s.turns[i])) == One(Locked(s.locks, turn.user)) + One(Holds(turn))
    requires slots + One(s.turns[i].phase.Running?) == s.slots + One(turn.phase.Running?) && slots <= SLOTS
    ensures Consistent(State(s.turns[i := turn], locks, slots))
  {
    hide Holders, RunningTurns, Work;
    var turns := s.turns[i := turn];
    forall user ensures Holders(turns, user) == if Locked(locks, user) then 1 else 0 {
      CountsUpdate(s.turns, i, turn, user);
      assert Holders(s.turns, user) == One(Locked(s.locks, user));
    }
    CountsUpdate(s.turns, i, turn, "");
  }

  lemma ArriveKeepsConsistent(s: State, user: User, workspace: bool)
    requires Consistent(s)
    ensures Consistent(Next(s, Arrive(user, workspace)))
  {
    var turn := Turn(user, workspace, Called, false);
    forall u ensures Holders(s.turns + [turn], u) == Holders(s.turns, u) {
      CountsAppend(s.turns, turn, u);
    }
    CountsAppend(s.turns, turn, "");
  }

  /** A turn of this phase has its user's lock in the table, held if the turn holds it. */
  lemma HolderLocks(s: State, i: nat)
    requires Consistent(s) && i < |s.turns|
    ensures Begun(s.turns[i]) ==> s.turns[i].user in s.locks
    ensures Holds(s.turns[i]) ==> s.locks[s.turns[i].user]
    ensures s.turns[i].phase.Running? ==> s.slots > 0
  {
    if Holds(s.turns[i]) { HolderCounts(s.turns, i); }
  }

  lemma StepKeepsConsistent(s: State, step: Step)
    requires Consistent(s) && Enabled(s, step)
    ensures Consistent(Next(s, step))
  {
    hide Consistent;
    if step.Arrive? {
      ArriveKeepsConsistent(s, step.user, step.workspace);
    } else {
      var i, t := step.i, Next(s, step);
      HolderLocks(s, i);
      StepSlots(s);
      MoveKeepsConsistent(s, i, t.turns[i], t.locks, t.slots);
    }
  }

  lemma StepSlots(s: State)
    requires Consistent(s)
    ensures s.slots <= SLOTS
  {
  }

  predicate CanRun(s: State, steps: seq<Step>)
    decreases |steps|
  {
    steps == [] || (Enabled(s, steps[0]) && CanRun(Next(s, steps[0]), steps[1..]))
  }

  function Run(s: State, steps: seq<Step>): State
    requires CanRun(s, steps)
    decreases |steps|
  {
    if steps == [] then s else Run(Next(s, steps[0]), steps[1..])
  }

  lemma {:induction false} RunKeepsConsistent(s: State, steps: seq<Step>)
    requires Consistent(s) && CanRun(s, steps)
    ensures Consistent(Run(s, steps))
    decreases |steps|
  {
    if steps != [] {
      StepKeepsConsistent(s, steps[0]);
      RunKeepsConsistent(Next(s, steps[0]), steps[1..]);
    }
  }

  /** Mutual exclusion, in every reachable state: no two turns of one user hold its lock,
      so none runs while another prepares or runs; at most fifty run, as the semaphore counts. */
  lemma MutualExclusion(steps: seq<Step>, i: nat, j: nat)
    requires CanRun(State([], map[], 0), steps)
    ensures var s := Run(State([], map[], 0), steps);
            && (i < j < |s.turns| && Holds(s.turns[i]) && Holds(s.turns[j]) ==> s.turns[i].user != s.turns[j].user)
            && RunningTurns(s.turns) == s.slots <= 50
  {
    RunKeepsConsistent(State([], map[], 0), steps);
    var s := Run(State([], map[], 0), steps);
    if i < j < |s.turns| && Holds(s.turns[i]) && Holds(s.turns[j]) && s.turns[i].user == s.turns[j].user {
      var without := s.turns[i := s.turns[i].(phase := Done)];
      CountsUpdate(s.turns, i, s.turns[i].(phase := Done), s.turns[i].user);
      HolderCounts(without, j);
    }
  }

  // ---- Progress ----

  predicate AllDone(s: State) { forall i :: 0 <= i < |s.turns| ==> s.turns[i].phase.Done? }

  /** A step of a turn itself, not of those who call or cancel it. */
  predicate OwnStep(step: Step) { !step.Arrive? && !step.Cancel? }

  lemma {:induction false} FindRunning(turns: seq<Turn>) returns (i: nat)
    requires RunningTurns(turns) > 0
    ensures i < |turns| && turns[i].phase.Running?
  {
    if turns[|turns| - 1].phase.Running? {
      i := |turns| - 1;
    } else {
      i := FindRunning(turns[..|turns| - 1]);
    }
  }

  lemma {:induction false} FindHolder(turns: seq<Turn>, user: User) returns (i: nat)
    requires Holders(turns, user) > 0
    ensures i < |turns| && Holds(turns[i])
  {
    if turns[|turns| - 1].user == user && Holds(turns[|turns| - 1]) {
      i := |turns| - 1;
    } else {
      i := FindHolder(turns[..|turns| - 1], user);
    }
  }

  /** Whoever holds a lock can move, itself or after a running turn. */
  lemma HolderMoves(s: State, i: nat) returns (step: Step)
    requires Consistent(s) && i < |s.turns| && Holds(s.turns[i])
    ensures OwnStep(step) && Enabled(s, step)
  {
    match s.turns[i].phase {
      case Preparing => step := Prepare(i, true);
      case Running => step := Finish(i);
      case Leaving => step := Unlock(i);
      case _ =>
        if s.slots < SLOTS {
          step := TakeSlot(i);
        } else {
          var j := FindRunning(s.turns);
          step := Finish(j);
        }
    }
  }

  /** No deadlock: while any turn is unfinished some turn can make a step of its own. */
  lemma NoDeadlock(s: State) returns (step: Step)
    requires Consistent(s) && !AllDone(s)
    ensures OwnStep(step) && Enabled(s, step)
  {
    var i: nat :| i < |s.turns| && !s.turns[i].phase.Done?;
    var user := s.turns[i].user;
    if Holds(s.turns[i]) {
      step := HolderMoves(s, i);
    } else if s.turns[i].phase.Called? {
      step := Begin(i);
    } else if s.locks[user] {
      assert Holders(s.turns, user) == 1;
      var j := FindHolder(s.turns, user);
      step := HolderMoves(s, j);
    } else {
      step := if s.turns[i].phase.WantLock? then LockForPrepare(i) else LockForTurn(i);
    }
  }

  /** Every step of a turn brings it closer to its end; a cancel changes nothing here. */
  lemma OwnStepWorks(s: State, step: Step)
    requires Enabled(s, step)
    ensures OwnStep(step) ==> Work(Next(s, step).turns) < Work(s.turns)
    ensures step.Cancel? ==> Work(Next(s, step).turns) == Work(s.turns)
    ensures step.Arrive? ==> Work(Next(s, step).turns) == Work(s.turns) + 7
  {
    hide Holders, RunningTurns, Work;
    if step.Arrive? {
      CountsAppend(s.turns, Turn(step.user, step.workspace, Called, false), "");
    } else {
      CountsUpdate(s.turns, step.i, Next(s, step).turns[step.i], "");
    }
  }

  function OwnSteps(steps: seq<Step>): nat { if steps == [] then 0 else One(OwnStep(steps[0])) + OwnSteps(steps[1..]) }

  function Arrivals(steps: seq<Step>): nat { if steps == [] then 0 else One(steps[0].Arrive?) + Arrivals(steps[1..]) }

  lemma {:induction false} RunWorks(s: State, steps: seq<Step>)
    requires CanRun(s, steps)
    ensures OwnSteps(steps) + Work(Run(s, steps).turns) <= Work(s.turns) + 7 * Arrivals(steps)
    decreases |steps|
  {
    if steps != [] {
      OwnStepWorks(s, steps[0]);
      RunWorks(Next(s, steps[0]), steps[1..]);
    }
  }

  /** Liveness. In any run at most seven steps are made for each turn that arrived, and
      a run that cannot go on, however the steps interleaved and whatever was
      cancelled, has finished every turn and given back every lock and slot. */
  lemma EveryTurnFinishes(steps: seq<Step>)
    requires CanRun(State([], map[], 0), steps)
    ensures var s := Run(State([], map[], 0), steps);
            && OwnSteps(steps) <= 7 * Arrivals(steps)
            && ((forall step :: OwnStep(step) ==> !Enabled(s, step)) ==>
                  AllDone(s) && s.slots == 0 && forall user :: user in s.locks ==> !s.locks[user])
  {
    var s := Run(State([], map[], 0), steps);
    RunWorks(State([], map[], 0), steps);
    RunKeepsConsistent(State([], map[], 0), steps);
    if forall step :: OwnStep(step) ==> !Enabled(s, step) {
      if !AllDone(s) { var step := NoDeadlock(s); }
      forall user | user in s.locks ensures !s.locks[user] {
        if s.locks[user] { var i := FindHolder(s.turns, user); }
      }
      if s.slots > 0 { var i := FindRunning(s.turns); }
    }
  }

  // ---- Which turns run ----

  /** What the steps so far say of turn `i`, in the phase it is in. */
  ghost predicate Traced(past: seq<Step>, i: nat, t: Turn) {
    && (t.cancelled <==> Cancel(i) in past)
    && (GiveUp(i) in past ==> t.phase.Done? && Cancel(i) in past)
    && (t.phase in {Called, WantLock, Preparing} ==> Prepare(i, true) !in past && Prepare(i, false) !in past)
    && (t.phase in {WantTurn, WantSlot, Running, Leaving} ==> Prepare(i, true) in past && Prepare(i, false) !in past)
    && (t.phase in {WantLock, Preparing, WantTurn, WantSlot, Running, Leaving} ==> t.workspace)
    && (t.phase in {Called, WantLock, Preparing, WantTurn, WantSlot} ==> TakeSlot(i) !in past)
    && (t.phase in {Running, Leaving} ==> TakeSlot(i) in past)
    && (Finish(i) in past <==> TakeSlot(i) in past && t.phase in {Leaving, Done})
    && (Unlock(i) in past <==> TakeSlot(i) in past && t.phase.Done?)
    && !(Prepare(i, true) in past && Prepare(i, false) in past)
    && (t.phase.Done? ==> (TakeSlot(i) in past <==> t.workspace && Prepare(i, true) in past && GiveUp(i) !in past))
  }

  /** No step is about a turn that has not arrived. */
  ghost predicate AllTraced(past: seq<Step>, s: State) {
    && (forall i: nat :: i < |s.turns| ==> Traced(past, i, s.turns[i]))
    && (forall step :: step in past && !step.Arrive? ==> step.i < |s.turns|)
  }

  lemma MoveTraced(past: seq<Step>, s: State, step: Step)
    requires Enabled(s, step) && !step.Arrive? && step.i < |s.turns| && Traced(past, step.i, s.turns[step.i])
    ensures Traced(past + [step], step.i, Next(s, step).turns[step.i])
  {
    var i := step.i;
    assert forall x :: x in past + [step] <==> x in past || x == step;
  }

  lemma OthersTraced(past: seq<Step>, step: Step, i: nat, t: Turn)
    requires Traced(past, i, t) && (step.Arrive? || step.i != i)
    ensures Traced(past + [step], i, t)
  {
    assert forall x :: x in past + [step] <==> x in past || x == step;
  }

  lemma StepTraced(past: seq<Step>, s: State, step: Step)
    requires AllTraced(past, s) && Enabled(s, step)
    ensures AllTraced(past + [step], Next(s, step))
  {
    hide Traced;
    var t := Next(s, step);
    forall i: nat | i < |t.turns| ensures Traced(past + [step], i, t.turns[i]) {
      if !step.Arrive? && i == step.i {
        MoveTraced(past, s, step);
      } else if i < |s.turns| {
        OthersTraced(past, step, i, s.turns[i]);
      } else {
        ArrivedTraced(past + [step], i, t.turns[i]);
      }
    }
  }

  lemma ArrivedTraced(past: seq<Step>, i: nat, t: Turn)
    requires t.phase == Called && !t.cancelled && forall step :: step in past && !step.Arrive? ==> step.i < i
    ensures Traced(past, i, t)
  {
  }

  lemma {:induction false} RunTraced(past: seq<Step>, s: State, steps: seq<Step>)
    requires AllTraced(past, s) && CanRun(s, steps)
    ensures AllTraced(past + steps, Run(s, steps))
    decreases |steps|
  {
    hide AllTraced;
    if steps == [] {
      assert past + [] == past;
    } else {
      StepTraced(past, s, steps[0]);
      RunTraced(past + [steps[0]], Next(s, steps[0]), steps[1..]);
      assert past + [steps[0]] + steps[1..] == past + steps;
    }
  }

  /** A turn that is over has run, giving back its slot and lock, if and only if it had a workspace, its
      directory was made and it did not give up waiting; only a cancelled turn gives
      up. A turn running has had all of this. */
  lemma RanIff(steps: seq<Step>, i: nat)
    requires CanRun(State([], map[], 0), steps) && i < |Run(State([], map[], 0), steps).turns|
    ensures var t := Run(State([], map[], 0), steps).turns[i];
            && (t.phase.Done? ==> (TakeSlot(i) in steps <==> t.workspace && Prepare(i, true) in steps && GiveUp(i) !in steps))
            && (t.phase.Done? && TakeSlot(i) in steps ==> Finish(i) in steps && Unlock(i) in steps)
            && (t.phase.Running? ==> t.workspace && Prepare(i, true) in steps && TakeSlot(i) in steps)
            && (GiveUp(i) in steps ==> Cancel(i) in steps && t.phase.Done?)
            && !(Prepare(i, true) in steps && Prepare(i, false) in steps)
  {
    RunTraced([], State([], map[], 0), steps);
    assert [] + steps == steps;
  }

  /** A turn with its lock gets a slot at once exactly if fewer than fifty run. */
  lemma SlotIffFewerThanFifty(steps: seq<Step>, i: nat)
    requires CanRun(State([], map[], 0), steps) && At(Run(State([], map[], 0), steps), i, WantSlot)
    ensures var s := Run(State([], map[], 0), steps); Enabled(s, TakeSlot(i)) <==> RunningTurns(s.turns) < 50
  {
    RunKeepsConsistent(State([], map[], 0), steps);
  }
}
