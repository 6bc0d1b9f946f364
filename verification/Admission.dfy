/**
 Task admission: two semaphores, two counters and one session table, shared by any number of
 concurrent creations, cleanups and cancellations. Every await is a point where others may run.
 */
module Admission {
  import opened Wrappers

  datatype Limits = Limits(maxConcurrent: nat, maxQueued: nat)

  /** A registered session; a config-setup session was never admitted. */
  datatype Session = Session(serial: nat, admitted: bool)

  /** The manager's own fields. */
  datatype Manager = Manager(taskSlot: int, activeSlots: int, systemGate: int, waitingCount: int,
    sessions: map<string, Session>)

  function NewManager(l: Limits): Manager {
    Manager(l.maxConcurrent, 0, l.maxConcurrent + l.maxQueued, 0, map[])
  }

  function EnterGate(m: Manager): Manager {
    m.(systemGate := m.systemGate - 1, waitingCount := m.waitingCount + 1)
  }

  function TakeSlot(m: Manager, l: Limits): Manager {
    m.(taskSlot := m.taskSlot - 1, activeSlots := m.activeSlots + 1,
       waitingCount := if l.maxQueued > 0 then m.waitingCount - 1 else m.waitingCount)
  }

  function GiveUp(m: Manager): Manager {
    m.(systemGate := m.systemGate + 1, waitingCount := m.waitingCount - 1)
  }

  function ReleaseAdmission(m: Manager, l: Limits): Manager {
    m.(taskSlot := m.taskSlot + 1, activeSlots := m.activeSlots - 1,
       systemGate := if l.maxQueued > 0 then m.systemGate + 1 else m.systemGate)
  }

  /** The manager's code between awaits; a semaphore is a counter that never goes below zero. */
  class TaskManager {
    const limits: Limits
    var taskSlot: int
    var activeSlots: int
    var systemGate: int
    var waitingCount: int
    var tasksSessions: map<string, Session>

    ghost function View(): Manager
      reads this
    {
      Manager(taskSlot, activeSlots, systemGate, waitingCount, tasksSessions)
    }

    constructor (limits: Limits)
      ensures this.limits == limits && View() == NewManager(limits)
    {
      this.limits := limits;
      taskSlot, activeSlots := limits.maxConcurrent, 0;
      systemGate, waitingCount := limits.maxConcurrent + limits.maxQueued, 0;
      tasksSessions := map[];
    }

    /** Phase one of queued admission; false is the admission timeout. */
    method AcquireGate() returns (entered: bool)
      modifies this
      ensures entered <==> old(systemGate) > 0
      ensures View() == if entered then EnterGate(old(View())) else old(View())
    {
      entered := systemGate > 0;
      if entered {
        systemGate := systemGate - 1;
        waitingCount := waitingCount + 1;
      }
    }

    /** Phase two, or the whole of direct admission; when queued, failing gives the gate permit back. */
    method AcquireSlot() returns (acquired: bool)
      modifies this
      ensures acquired <==> old(taskSlot) > 0
      ensures View() == if acquired then TakeSlot(old(View()), limits)
                        else if limits.maxQueued > 0 then GiveUp(old(View())) else old(View())
    {
      acquired := taskSlot > 0;
      if acquired {
        taskSlot := taskSlot - 1;
      } else if limits.maxQueued > 0 {
        systemGate := systemGate + 1;
      }
      if limits.maxQueued > 0 {
        waitingCount := waitingCount - 1;
      }
      if acquired {
        activeSlots := activeSlots + 1;
      }
    }

    /** Any other end of the wait for a slot, such as cancellation. */
    method Abandon()
      modifies this
      ensures View() == GiveUp(old(View()))
    {
      systemGate := systemGate + 1;
      waitingCount := waitingCount - 1;
    }

    /** Gives back one admission: an admitted call that never registered, or a cleaned-up session. */
    method Undo()
      modifies this
      ensures View() == ReleaseAdmission(old(View()), limits)
    {
      activeSlots := activeSlots - 1;
      taskSlot := taskSlot + 1;
      if limits.maxQueued > 0 {
        systemGate := systemGate + 1;
      }
    }

    /** Validate and register; a duplicate id undoes this call's admission and touches nothing else. */
    method Register(taskId: string, serial: nat) returns (registered: bool)
      modifies this
      ensures registered <==> taskId !in old(tasksSessions)
      ensures View() == if registered then old(View()).(sessions := old(tasksSessions)[taskId := Session(serial, true)])
                        else ReleaseAdmission(old(View()), limits)
    {
      if taskId in tasksSessions {
        Undo();
        return false;
      }
      tasksSessions := tasksSessions[taskId := Session(serial, true)];
      return true;
    }

    /** The atomic pop of a cleanup; only the cleanup that gets the session goes on to release. */
    method PopSession(taskId: string) returns (session: Option<Session>)
      modifies this
      ensures session == if taskId in old(tasksSessions) then Some(old(tasksSessions)[taskId]) else None
      ensures View() == old(View()).(sessions := old(tasksSessions) - {taskId})
    {
      session := None;
      if taskId in tasksSessions {
        session := Some(tasksSessions[taskId]);
      }
      tasksSessions := tasksSessions - {taskId};
    }
  }

  // ── All interleavings ──

  /**
   Who stands where. `queued` hold a gate permit, `admitted` a slot but no session yet, `cleaning`
   are popped sessions whose slot is still to be released. `released` are the admitted sessions
   whose slot was given back, `leaked` the calls cancelled while admitted, `surplus` the slots
   given back for sessions that never held one. `seen` are the call ids used so far.
   */
  datatype State = State(
    m: Manager, queued: set<nat>, admitted: set<nat>, cleaning: set<Session>,
    registered: set<nat>, released: set<nat>, leaked: set<nat>, surplus: nat, seen: set<nat>)

  datatype Act =
    | Enter(call: nat)                  // gate permit acquired
    | Slot(call: nat)                   // slot acquired
    | Abandon(call: nat)                // timed out or cancelled while queued
    | Create(call: nat, task: string)   // registered, or rejected as a duplicate
    | Cancel(call: nat)                 // cancelled between admission and registration
    | Setup(call: nat, task: string)    // a config-setup session, which is not admitted
    | SetupFails(task: string)          // its failed start pops it without releasing
    | Pop(task: string)                 // a cleanup, from a finish, a cancel or a shutdown
    | Release(session: Session)         // that cleanup's final release

  function Start(l: Limits): State {
    State(NewManager(l), {}, {}, {}, {}, {}, {}, 0, {})
  }

  function Do(s: State, act: Act, l: Limits): State {
    match act
    case Enter(c) =>
      if l.maxQueued == 0 || c in s.seen || s.m.systemGate <= 0 then s
      else s.(m := EnterGate(s.m), queued := s.queued + {c}, seen := s.seen + {c})
    case Slot(c) =>
      if s.m.taskSlot <= 0 then s
      else if l.maxQueued == 0 then
        if c in s.seen then s
        else s.(m := TakeSlot(s.m, l), admitted := s.admitted + {c}, seen := s.seen + {c})
      else if c in s.queued then s.(m := TakeSlot(s.m, l), queued := s.queued - {c}, admitted := s.admitted + {c})
      else s
    case Abandon(c) =>
      if c !in s.queued then s else s.(m := GiveUp(s.m), queued := s.queued - {c})
    case Create(c, task) =>
      if c !in s.admitted then s
      else if task in s.m.sessions then s.(m := ReleaseAdmission(s.m, l), admitted := s.admitted - {c})
      else
        s.(m := s.m.(sessions := s.m.sessions[task := Session(c, true)]), admitted := s.admitted - {c},
          registered := s.registered + {c})
    case Cancel(c) =>
      if c !in s.admitted then s else s.(admitted := s.admitted - {c}, leaked := s.leaked + {c})
    case Setup(c, task) =>
      if c in s.seen || task in s.m.sessions then s
      else s.(m := s.m.(sessions := s.m.sessions[task := Session(c, false)]), seen := s.seen + {c})
    case SetupFails(task) =>
      if task !in s.m.sessions || s.m.sessions[task].admitted then s
      else s.(m := s.m.(sessions := s.m.sessions - {task}))
    case Pop(task) =>
      if task !in s.m.sessions then s
      else s.(m := s.m.(sessions := s.m.sessions - {task}), cleaning := s.cleaning + {s.m.sessions[task]})
    case Release(x) =>
      if x !in s.cleaning then s
      else
        var t := s.(m := ReleaseAdmission(s.m, l), cleaning := s.cleaning - {x});
        if x.admitted then t.(released := s.released + {x.serial}) else t.(surplus := s.surplus + 1)
  }

  function After(acts: seq<Act>, l: Limits): State {
    if acts == [] then Start(l) else Do(After(acts[..|acts| - 1], l), acts[|acts| - 1], l)
  }

  /** The call ids of the admitted sessions among those in the table. */
  function Live(sessions: map<string, Session>): set<nat> {
    set t | t in sessions && sessions[t].admitted :: sessions[t].serial
  }

  function Admitted(sessions: set<Session>): set<nat> {
    set x | x in sessions && x.admitted :: x.serial
  }

  ghost predicate DistinctSerials(sessions: map<string, Session>) {
    forall t, u | t in sessions && u in sessions && sessions[t].serial == sessions[u].serial :: t == u
  }

  /** Every registration is live, being cleaned, or released: exactly one of the three. */
  ghost predicate Partition(s: State) {
    var live, cleaning := Live(s.m.sessions), Admitted(s.cleaning);
    && s.registered == live + cleaning + s.released
    && live !! cleaning && live !! s.released && cleaning !! s.released
  }

  /** No two sessions, live or being cleaned, share a serial. */
  ghost predicate SerialsDiffer(s: State) {
    && DistinctSerials(s.m.sessions)
    && (forall t, x | t in s.m.sessions && x in s.cleaning :: s.m.sessions[t].serial != x.serial)
    && (forall x, y | x in s.cleaning && y in s.cleaning && x.serial == y.serial :: x == y)
  }

  /** A call id is in one place at a time, and every serial is the id of a call seen. */
  ghost predicate CallsDiffer(s: State) {
    && (forall t | t in s.m.sessions :: s.m.sessions[t].serial in s.seen)
    && (forall x | x in s.cleaning :: x.serial in s.seen)
    && (forall t | t in s.m.sessions :: s.m.sessions[t].serial !in s.queued + s.admitted)
    && (forall x | x in s.cleaning :: x.serial !in s.queued + s.admitted)
    && s.registered !! s.queued + s.admitted
    && (forall t | t in s.m.sessions && !s.m.sessions[t].admitted :: s.m.sessions[t].serial !in s.registered)
    && s.queued !! s.admitted && s.leaked !! s.queued + s.admitted
    && s.queued + s.admitted + s.registered + s.leaked <= s.seen
  }

  /** Serials and call ids name one thing each. */
  ghost predicate Names(s: State) {
    SerialsDiffer(s) && CallsDiffer(s)
  }

  /** The books: what is free, what is busy, and why. */
  ghost predicate Books(s: State, l: Limits) {
    && s.m.taskSlot >= 0
    && s.m.taskSlot + s.m.activeSlots == l.maxConcurrent
    && s.m.waitingCount == |s.queued|
    && (if l.maxQueued > 0 then s.m.systemGate + s.m.waitingCount + s.m.activeSlots == l.maxConcurrent + l.maxQueued
        else s.queued == {} && s.m.systemGate == l.maxConcurrent)
    && s.m.activeSlots == Busy(s)
  }

  /** Slots that are held, less those given back without having been held. */
  function Busy(s: State): int {
    |s.admitted| + |Live(s.m.sessions)| + |Admitted(s.cleaning)| + |s.leaked| - s.surplus
  }

  ghost predicate Inv(s: State, l: Limits) {
    Books(s, l) && Partition(s) && Names(s)
  }

  lemma LivePut(sessions: map<string, Session>, t: string, x: Session)
    requires t !in sessions
    ensures Live(sessions[t := x]) == Live(sessions) + (if x.admitted then {x.serial} else {})
  {
    var more := sessions[t := x];
    forall n | n in Live(sessions) ensures n in Live(more) {
      var u :| u in sessions && sessions[u].admitted && sessions[u].serial == n;
      assert u in more && more[u] == sessions[u];
    }
    if x.admitted {
      assert t in more && more[t].serial == x.serial;
    }
  }

  lemma LivePop(sessions: map<string, Session>, t: string)
    requires t in sessions && DistinctSerials(sessions)
    ensures Live(sessions - {t}) == Live(sessions) - (if sessions[t].admitted then {sessions[t].serial} else {})
    ensures sessions[t].admitted ==> sessions[t].serial in Live(sessions)
  {
    var less := sessions - {t};
    forall n | n in Live(sessions) && !(sessions[t].admitted && n == sessions[t].serial) ensures n in Live(less) {
      var u :| u in sessions && sessions[u].admitted && sessions[u].serial == n;
      assert u in less;
    }
  }

  lemma AdmittedAdd(cleaning: set<Session>, x: Session)
    ensures Admitted(cleaning + {x}) == Admitted(cleaning) + (if x.admitted then {x.serial} else {})
  {
    forall n | n in Admitted(cleaning) ensures n in Admitted(cleaning + {x}) {
      var y :| y in cleaning && y.admitted && y.serial == n;
      assert y in cleaning + {x};
    }
    if x.admitted {
      assert x in cleaning + {x};
    }
  }

  lemma AdmittedRemove(cleaning: set<Session>, x: Session)
    requires x in cleaning && forall y | y in cleaning && y.serial == x.serial :: y == x
    ensures Admitted(cleaning - {x}) == Admitted(cleaning) - (if x.admitted then {x.serial} else {})
    ensures x.admitted ==> x.serial in Admitted(cleaning)
  {
    forall n | n in Admitted(cleaning) && !(x.admitted && n == x.serial) ensures n in Admitted(cleaning - {x}) {
      var y :| y in cleaning && y.admitted && y.serial == n;
      assert y in cleaning - {x};
    }
  }

  /** How each act changes the sets that are counted. */
  lemma SetsChange(s: State, act: Act, l: Limits)
    requires Names(s)
    ensures var t := Do(s, act, l);
      var live, cleaning := Live(s.m.sessions), Admitted(s.cleaning);
      var live', cleaning' := Live(t.m.sessions), Admitted(t.cleaning);
      match act
      case Create(c, task) =>
        (live' == if c in s.admitted && task !in s.m.sessions then live + {c} else live) && cleaning' == cleaning
      case Pop(task) =>
        if task in s.m.sessions && s.m.sessions[task].admitted then
          var n := s.m.sessions[task].serial;
          n in live && live' == live - {n} && cleaning' == cleaning + {n}
        else live' == live && cleaning' == cleaning
      case Release(x) =>
        live' == live &&
        (if x in s.cleaning && x.admitted then x.serial in cleaning
          && cleaning' == cleaning - {x.serial} else cleaning' == cleaning)
      case _ => live' == live && cleaning' == cleaning
  {
    match act
    case Create(c, task) => if task !in s.m.sessions { LivePut(s.m.sessions, task, Session(c, true)); }
    case Setup(c, task) => if task !in s.m.sessions { LivePut(s.m.sessions, task, Session(c, false)); }
    case SetupFails(task) => if task in s.m.sessions { LivePop(s.m.sessions, task); }
    case Pop(task) =>
      if task in s.m.sessions {
        LivePop(s.m.sessions, task);
        AdmittedAdd(s.cleaning, s.m.sessions[task]);
      }
    case Release(x) => if x in s.cleaning { AdmittedRemove(s.cleaning, x); }
    case _ =>
  }

  lemma CallsKeepNames(s: State, act: Act, l: Limits)
    requires Names(s) && (act.Enter? || act.Slot? || act.Abandon? || act.Cancel?)
    ensures Names(Do(s, act, l))
  {
  }

  lemma CreateKeepsSerials(s: State, act: Act, l: Limits)
    requires Names(s) && (act.Create? || act.Setup? || act.SetupFails?)
    ensures SerialsDiffer(Do(s, act, l))
  {
  }

  lemma CreateKeepsCalls(s: State, act: Act, l: Limits)
    requires CallsDiffer(s) && (act.Create? || act.Setup? || act.SetupFails?)
    ensures CallsDiffer(Do(s, act, l))
  {
  }

  lemma CleanupKeepsSerials(s: State, act: Act, l: Limits)
    requires SerialsDiffer(s) && (act.Pop? || act.Release?)
    ensures SerialsDiffer(Do(s, act, l))
  {
  }

  lemma CleanupKeepsCalls(s: State, act: Act, l: Limits)
    requires CallsDiffer(s) && (act.Pop? || act.Release?)
    ensures CallsDiffer(Do(s, act, l))
  {
  }

  lemma NamesKeeps(s: State, act: Act, l: Limits)
    requires Names(s)
    ensures Names(Do(s, act, l))
  {
    hide SerialsDiffer, CallsDiffer, Do;
    if act.Create? || act.Setup? || act.SetupFails? {
      CreateKeepsSerials(s, act, l);
      CreateKeepsCalls(s, act, l);
    } else if act.Pop? || act.Release? {
      CleanupKeepsSerials(s, act, l);
      CleanupKeepsCalls(s, act, l);
    } else {
      CallsKeepNames(s, act, l);
    }
  }

  lemma LiveFacts(s: State)
    requires Names(s)
    ensures Live(s.m.sessions) !! s.queued + s.admitted && Admitted(s.cleaning) !! s.queued + s.admitted
    ensures s.queued !! s.admitted && s.leaked !! s.queued + s.admitted && s.queued + s.admitted + s.leaked <= s.seen
  {
  }

  lemma PartitionKeeps(s: State, act: Act, l: Limits)
    requires Partition(s) && Names(s)
    ensures Partition(Do(s, act, l))
  {
    hide Live, Admitted, Names;
    SetsChange(s, act, l);
    LiveFacts(s);
    if act.Create? && act.call in s.admitted { CreatedIsNew(s, act); }
  }

  lemma CreatedIsNew(s: State, act: Act)
    requires Names(s) && act.Create? && act.call in s.admitted
    ensures act.call !in s.registered
  {
  }

  lemma OneMore(x: set<nat>, c: nat)
    ensures c !in x ==> |x + {c}| == |x| + 1
    ensures c in x ==> |x - {c}| == |x| - 1
  {
  }

  /** The active counter moves with the slots held. */
  ghost predicate Balances(s: State, t: State) {
    Busy(t) - Busy(s) == t.m.activeSlots - s.m.activeSlots
  }

  lemma BusyCalls(s: State, act: Act, l: Limits)
    requires Names(s) && (act.Slot? || act.Create? || act.Cancel?)
    ensures Balances(s, Do(s, act, l))
  {
    match act
    case Slot(_) => BusySlot(s, act, l);
    case Create(_, _) => BusyCreate(s, act, l);
    case Cancel(_) => BusyCancel(s, act, l);
    hide *;
  }

  /** A slot is refused, or taken for a call that had none. */
  lemma SlotTaken(s: State, act: Act, l: Limits)
    requires Names(s) && act.Slot?
    ensures var t := Do(s, act, l);
      && t.m.sessions == s.m.sessions && t.cleaning == s.cleaning && t.leaked == s.leaked && t.surplus == s.surplus
      && if t.m.activeSlots == s.m.activeSlots then t.admitted == s.admitted
         else act.call !in s.admitted && t.admitted == s.admitted + {act.call} && t.m.activeSlots == s.m.activeSlots + 1
  {
  }

  lemma BusySlot(s: State, act: Act, l: Limits)
    requires Names(s) && act.Slot?
    ensures Balances(s, Do(s, act, l))
  {
    hide Names, Do, Live, Admitted;
    SlotTaken(s, act, l);
    OneMore(s.admitted, act.call);
  }

  lemma BusyCreate(s: State, act: Act, l: Limits)
    requires Names(s) && act.Create?
    ensures Balances(s, Do(s, act, l))
  {
    SetsChange(s, act, l);
    LiveFacts(s);
    hide Live, Admitted, Names;
    OneMore(s.admitted, act.call);
    OneMore(Live(s.m.sessions), act.call);
  }

  lemma BusyCancel(s: State, act: Act, l: Limits)
    requires Names(s) && act.Cancel?
    ensures Balances(s, Do(s, act, l))
  {
    SetsChange(s, act, l);
    hide Live, Admitted, Names;
    OneMore(s.admitted, act.call);
    OneMore(s.leaked, act.call);
  }

  lemma PopOnlyMoves(s: State, task: string, l: Limits)
    ensures var t := Do(s, Pop(task), l);
      t.admitted == s.admitted && t.leaked == s.leaked && t.surplus == s.surplus && t.m.activeSlots == s.m.activeSlots
  {
  }

  lemma BusyPop(s: State, task: string, l: Limits)
    requires Partition(s) && Names(s)
    ensures Balances(s, Do(s, Pop(task), l))
  {
    hide Names;
    SetsChange(s, Pop(task), l);
    PopOnlyMoves(s, task, l);
    var live, cleaning := Live(s.m.sessions), Admitted(s.cleaning);
    assert live !! cleaning;
    hide Live, Admitted, Names, Partition, Do;
    if task in s.m.sessions && s.m.sessions[task].admitted {
      var n := s.m.sessions[task].serial;
      OneMore(live, n);
      OneMore(cleaning, n);
    }
  }

  lemma BusyRelease(s: State, x: Session, l: Limits)
    requires Names(s)
    ensures Balances(s, Do(s, Release(x), l))
  {
    SetsChange(s, Release(x), l);
    hide Live, Admitted, Names;
    OneMore(Admitted(s.cleaning), x.serial);
  }

  lemma BusyMoves(s: State, act: Act, l: Limits)
    requires Partition(s) && Names(s)
    ensures Balances(s, Do(s, act, l))
  {
    hide Partition, Names;
    match act
    case Slot(_) => BusyCalls(s, act, l);
    case Create(_, _) => BusyCalls(s, act, l);
    case Cancel(_) => BusyCalls(s, act, l);
    case Pop(task) => BusyPop(s, task, l);
    case Release(x) => BusyRelease(s, x, l);
    case _ => SetsChange(s, act, l);
  }

  /** The waiting counter moves with the queue. */
  ghost predicate InStep(s: State, t: State) {
    |t.queued| - |s.queued| == t.m.waitingCount - s.m.waitingCount
  }

  lemma QueueStill(s: State, act: Act, l: Limits)
    requires !act.Enter? && !act.Slot? && !act.Abandon?
    ensures Do(s, act, l).queued == s.queued && Do(s, act, l).m.waitingCount == s.m.waitingCount
  {
  }

  lemma QueueMoves(s: State, act: Act, l: Limits)
    requires Names(s) && (l.maxQueued == 0 ==> s.queued == {})
    ensures InStep(s, Do(s, act, l))
    ensures l.maxQueued == 0 ==> Do(s, act, l).queued == {}
  {
    LiveFacts(s);
    hide Names, Live, Admitted;
    if act.Enter? || act.Slot? || act.Abandon? {
      OneMore(s.queued, act.call);
    } else {
      hide Do;
      QueueStill(s, act, l);
    }
  }

  /** Semaphores and counters move together. */
  lemma CountersMove(s: State, act: Act, l: Limits)
    requires s.m.taskSlot >= 0 && (l.maxQueued == 0 ==> s.queued == {})
    ensures var m, n := s.m, Do(s, act, l).m;
      && n.taskSlot >= 0 && n.taskSlot + n.activeSlots == m.taskSlot + m.activeSlots
      && if l.maxQueued > 0 then n.systemGate + n.waitingCount + n.activeSlots == m.systemGate + m.waitingCount
        + m.activeSlots
         else n.systemGate == m.systemGate
  {
  }

  lemma BooksKeeps(s: State, act: Act, l: Limits)
    requires Inv(s, l)
    ensures Books(Do(s, act, l), l)
  {
    hide Names, Partition, Busy, Do;
    BusyMoves(s, act, l);
    QueueMoves(s, act, l);
    CountersMove(s, act, l);
  }

  lemma {:induction false} AfterKeeps(acts: seq<Act>, l: Limits)
    ensures Inv(After(acts, l), l)
    decreases |acts|
  {
    if acts == [] {
      assert Live(map[]) == {} && Admitted({}) == {};
    } else {
      var s, act := After(acts[..|acts| - 1], l), acts[|acts| - 1];
      AfterKeeps(acts[..|acts| - 1], l);
      NamesKeeps(s, act, l);
      PartitionKeeps(s, act, l);
      BooksKeeps(s, act, l);
    }
  }

  // ── What holds over every run ──

  /** Slots are conserved: the counters agree with each other and with who holds what. */
  lemma Conservation(acts: seq<Act>, l: Limits)
    ensures var s := After(acts, l);
      && 0 <= s.m.taskSlot && s.m.taskSlot + s.m.activeSlots == l.maxConcurrent
      && s.m.waitingCount == |s.queued|
      && (l.maxQueued > 0 ==> s.m.systemGate + s.m.waitingCount + s.m.activeSlots == l.maxConcurrent + l.maxQueued)
      && (l.maxQueued == 0 ==> s.m.systemGate == l.maxConcurrent && s.m.waitingCount == 0)
      && |s.admitted| + |Live(s.m.sessions)| + |Admitted(s.cleaning)| + |s.leaked| == s.m.activeSlots + s.surplus
  {
    AfterKeeps(acts, l);
  }

  /** The number of acts in a run that gave back the slot of one registration. */
  function Releases(acts: seq<Act>, call: nat, l: Limits): nat {
    if acts == [] then 0
    else
      var s, act := After(acts[..|acts| - 1], l), acts[|acts| - 1];
      Releases(acts[..|acts| - 1], call, l)
        + (if act.Release? && act.session == Session(call, true) && act.session in s.cleaning then 1 else 0)
  }

  /**
   However many cleanups race for a session, its slot is given back exactly once, and until then it
   is held by a live or a cleaning session.
   */
  lemma ReleasedOnce(acts: seq<Act>, call: nat, l: Limits)
    ensures var s := After(acts, l);
      && Releases(acts, call, l) == (if call in s.released then 1 else 0)
      && (call in s.registered && call !in s.released ==>
        (call in Live(s.m.sessions)) != (call in Admitted(s.cleaning)))
      && (call in s.released ==> call in s.registered && call !in Live(s.m.sessions) && call !in Admitted(s.cleaning))
  {
    hide After, Names, Books, Live, Admitted, Releases;
    AfterKeeps(acts, l);
    CountsReleases(acts, call, l);
  }

  lemma {:induction false} CountsReleases(acts: seq<Act>, call: nat, l: Limits)
    ensures Releases(acts, call, l) == if call in After(acts, l).released then 1 else 0
    decreases |acts|
  {
    hide Names, Books, Partition, Do;
    if acts != [] {
      CountsReleases(acts[..|acts| - 1], call, l);
      AfterKeeps(acts[..|acts| - 1], l);
      ReleaseStep(After(acts[..|acts| - 1], l), acts[|acts| - 1], call, l);
    }
  }

  lemma ReleaseStep(s: State, act: Act, call: nat, l: Limits)
    requires Partition(s)
    ensures var gives := act.Release? && act.session == Session(call, true) && act.session in s.cleaning;
      && (gives ==> call !in s.released)
      && (call in Do(s, act, l).released <==> call in s.released || gives)
  {
    hide Live;
  }

  /** Once nothing is queued, admitted, live or being cleaned, exactly the leaked slots are missing. */
  lemma SlotsComeBack(acts: seq<Act>, l: Limits)
    requires var s := After(acts, l); s.queued == s.admitted == {} && s.m.sessions == map[] && s.cleaning == {}
    ensures var s := After(acts, l);
      && s.m.taskSlot == l.maxConcurrent - |s.leaked| + s.surplus
      && (s.m.taskSlot == l.maxConcurrent <==> |s.leaked| == s.surplus)
      && (l.maxQueued > 0 ==> s.m.systemGate == l.maxConcurrent + l.maxQueued - |s.leaked| + s.surplus)
  {
    Conservation(acts, l);
    assert Live(map[]) == {} && Admitted({}) == {};
  }

  /** More than `maxConcurrent` slots are held only when some were given back unheld. */
  lemma NeverOverAdmits(acts: seq<Act>, l: Limits)
    ensures var s := After(acts, l);
      |s.admitted| + |Live(s.m.sessions)| + |Admitted(s.cleaning)| + |s.leaked| <= l.maxConcurrent + s.surplus
  {
    Conservation(acts, l);
  }

  /** No cancellation mid-creation and no config setup: nothing leaks and nothing is given back twice. */
  lemma {:induction false} CleanRuns(acts: seq<Act>, l: Limits)
    requires forall a | a in acts :: !a.Cancel? && !a.Setup?
    ensures var s := After(acts, l); s.leaked == {} && s.surplus == 0
    ensures forall t | t in After(acts, l).m.sessions :: After(acts, l).m.sessions[t].admitted
    ensures forall x | x in After(acts, l).cleaning :: x.admitted
    decreases |acts|
  {
    if acts != [] {
      CleanRuns(acts[..|acts| - 1], l);
      assert acts[|acts| - 1] in acts;
    }
  }

  lemma Then(acts: seq<Act>, act: Act, l: Limits)
    ensures After(acts + [act], l) == Do(After(acts, l), act, l)
  {
    assert (acts + [act])[..|acts|] == acts;
  }

  /** A creation cancelled between admission and registration keeps its slot for ever. */
  lemma CancelledCreationLeaks()
    ensures var s := After([Slot(0), Cancel(0)], Limits(1, 0));
      s.queued == s.admitted == {} && s.m.sessions == map[] && s.cleaning == {} && s.m.taskSlot == 0
  {
    Then([], Slot(0), Limits(1, 0));
    Then([Slot(0)], Cancel(0), Limits(1, 0));
    assert [] + [Slot(0)] == [Slot(0)] && [Slot(0)] + [Cancel(0)] == [Slot(0), Cancel(0)];
  }

  /** In any state, one config-setup session that is cleaned up adds a slot the limit does not know of. */
  lemma SetupCleanupAddsSlot(s: State, c: nat, task: string, l: Limits)
    requires Names(s) && c !in s.seen && task !in s.m.sessions
    ensures var x := Session(c, false);
      Do(Do(Do(s, Setup(c, task), l), Pop(task), l), Release(x), l)
      == s.(m := ReleaseAdmission(s.m, l), surplus := s.surplus + 1, seen := s.seen + {c})
  {
    var x := Session(c, false);
    var s1 := Do(s, Setup(c, task), l);
    assert s1.m.sessions - {task} == s.m.sessions;
    assert x !in s.cleaning;
    hide Names;
    assert s.cleaning + {x} - {x} == s.cleaning;
  }

  /** So two calls pass where one may. */
  lemma SetupCleanupOverAdmits()
    ensures var s := After([Setup(1, "b"), Pop("b"), Release(Session(1, false)), Slot(0), Slot(2)], Limits(1, 0));
      s.admitted == {0, 2} && s.surplus == 1
  {
    var l, y := Limits(1, 0), Session(1, false);
    var acts := [Setup(1, "b"), Pop("b"), Release(y), Slot(0), Slot(2)];
    Reach(acts, 0, l); Reach(acts, 1, l); Reach(acts, 2, l); Reach(acts, 3, l); Reach(acts, 4, l);
    assert acts[..0] == [] && acts[..5] == acts;
    hide Do;
    SetupCleanupAddsSlot(Start(l), 1, "b", l);
    AddedSlotAdmits();
  }

  lemma AddedSlotAdmits()
    ensures var l := Limits(1, 0);
      var s := Start(l).(m := ReleaseAdmission(Start(l).m, l), surplus := 1, seen := {} + {1});
      var t := Do(Do(s, Slot(0), l), Slot(2), l);
      t.admitted == {0, 2} && t.surplus == 1
  {
  }

  function Reaches(acts: seq<Act>, n: nat, l: Limits): State
    requires n <= |acts|
  {
    After(acts[..n], l)
  }

  lemma Reach(acts: seq<Act>, n: nat, l: Limits)
    requires n < |acts|
    ensures Reaches(acts, n + 1, l) == Do(Reaches(acts, n, l), acts[n], l)
  {
    assert acts[..n + 1] == acts[..n] + [acts[n]];
    Then(acts[..n], acts[n], l);
  }
}
