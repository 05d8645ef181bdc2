/** Creating, sharing and closing a semaphore set by processes that may die
    between any two kernel calls: `sem_create`, `sem_close`, `sem_wait` and
    `sem_signal` as a machine whose steps are single semop() and semctl() calls. */
module SemaphoreProtocol {
  import opened SysVSemaphores

  type Pid = nat

  /** Where a process stands. `Got` to `Ready` are inside sem_create, `Closing` to
      `Overflow` inside sem_close. `Open` and `Holding` processes completed a create.
      `Borrowed` ones only carry the identifier: forked children, whose adjustments
      start empty, and processes whose create returned a removed set's identifier.
      `Unprotected` is a bracketed section entered although sem_wait failed. */
  datatype Where =
    | Got | Waiting | Locked | Fresh | Half | Ready
    | Open | Holding
    | Closing | Last | Unlocking | Overflow
    | Borrowed | BorrowedHolding | Unprotected

  datatype Pc = Out | At(place: Where, id: nat)

  /** `gen` identifies the newest set; identifiers are never used again. `val` and
      `adj` belong to that set while it is `live`. */
  datatype State = State(live: bool, gen: nat, val: Triple, adj: map<Pid, Triple>, pc: map<Pid, Pc>)

  const INITVAL := 1

  datatype Action =
    | SemGet(p: Pid) | TryLock(p: Pid) | WakeLock(p: Pid) | GetVal(p: Pid)
    | SetValue(p: Pid) | SetCounter(p: Pid) | EndCreate(p: Pid)
    | Wait(p: Pid) | Signal(p: Pid)
    | CloseLock(p: Pid) | CloseGetVal(p: Pid) | Remove(p: Pid) | Unlock(p: Pid)
    | Fork(p: Pid, child: Pid) | Die(p: Pid)

  function PcOf(s: State, p: Pid): Pc {
    if p in s.pc then s.pc[p] else Out
  }

  function AdjOf(s: State, p: Pid): Triple {
    if p in s.adj then s.adj[p] else ZERO
  }

  predicate Is(s: State, p: Pid, w: Where) {
    PcOf(s, p).At? && PcOf(s, p).place == w
  }

  predicate Live(s: State, p: Pid) {
    PcOf(s, p).At? && s.live && PcOf(s, p).id == s.gen
  }

  function Go(s: State, p: Pid, w: Where): State
    requires PcOf(s, p).At?
  {
    s.(pc := s.pc[p := At(w, PcOf(s, p).id)])
  }

  function Leave(s: State, p: Pid): State {
    s.(pc := s.pc[p := Out])
  }

  function Try(s: State, p: Pid, ops: seq<Sembuf>): Attempt
    requires WellFormed(ops)
  {
    Semop(s.val, AdjOf(s, p), ops)
  }

  function Apply(s: State, p: Pid, r: Attempt): State
    requires r.Done?
  {
    s.(val := r.val, adj := s.adj[p := r.adj])
  }

  /** SETVAL stores a value and clears that semaphore's adjustment in every process. */
  function SetVal0(s: State, n: int): State {
    s.(val := s.val.(value := n), adj := map p | p in s.adj :: s.adj[p].(value := 0))
  }

  function SetVal1(s: State, n: int): State {
    s.(val := s.val.(procs := n), adj := map p | p in s.adj :: s.adj[p].(procs := 0))
  }

  // ---------- The kernel calls, one atomic step each ----------

  /** `semget(key, 3, 0666 | IPC_CREAT)`: the existing set, or a new one of zeros. */
  function DoSemGet(s: State, p: Pid): State {
    if s.live then s.(pc := s.pc[p := At(Got, s.gen)])
    else State(true, s.gen + 1, ZERO, map[], s.pc[p := At(Got, s.gen + 1)])
  }

  /** The first semop() of a create. On a removed set it fails with EINVAL and the
      create starts again. */
  function DoTryLock(s: State, p: Pid): State
    requires PcOf(s, p).At?
  {
    if !Live(s, p) then Leave(s, p)
    else if Try(s, p, OP_LOCK).Blocks? then Go(s, p, Waiting)
    else Go(Apply(s, p, Try(s, p, OP_LOCK)), p, Locked)
  }

  predicate CanWake(s: State, p: Pid) {
    Is(s, p, Waiting) && (Live(s, p) ==> Try(s, p, OP_LOCK).Done?)
  }

  /** A create that was put to sleep. If the set was removed meanwhile the semop()
      fails with EIDRM, which the create does not retry: its remaining calls fail
      too and it returns the removed identifier. */
  function DoWakeLock(s: State, p: Pid): State
    requires CanWake(s, p)
  {
    if !Live(s, p) then Go(s, p, Borrowed) else Go(Apply(s, p, Try(s, p, OP_LOCK)), p, Locked)
  }

  function DoGetVal(s: State, p: Pid): State
    requires PcOf(s, p).At?
  {
    Go(s, p, if s.val.procs == 0 then Fresh else Ready)
  }

  predicate CanEndCreate(s: State, p: Pid) {
    Is(s, p, Ready) && Live(s, p) && Try(s, p, OP_ENDCREATE).Done?
  }

  function DoEndCreate(s: State, p: Pid): State
    requires CanEndCreate(s, p)
  {
    Go(Apply(s, p, Try(s, p, OP_ENDCREATE)), p, Open)
  }

  predicate CanWait(s: State, p: Pid) {
    (Is(s, p, Open) || Is(s, p, Borrowed)) && (Live(s, p) ==> Try(s, p, OpOp(-1)).Done?)
  }

  /** sem_wait. On a removed set it reports the error and returns all the same. */
  function DoWait(s: State, p: Pid): State
    requires CanWait(s, p)
  {
    if !Live(s, p) then Go(s, p, Unprotected)
    else Go(Apply(s, p, Try(s, p, OpOp(-1))), p, if Is(s, p, Open) then Holding else BorrowedHolding)
  }

  predicate CanSignal(s: State, p: Pid) {
    && (Is(s, p, Holding) || Is(s, p, BorrowedHolding) || Is(s, p, Unprotected))
    && (Live(s, p) ==> Try(s, p, OpOp(1)).Done?)
  }

  function DoSignal(s: State, p: Pid): State
    requires CanSignal(s, p)
  {
    Go(if Live(s, p) then Apply(s, p, Try(s, p, OpOp(1))) else s, p, if Is(s, p, Holding) then Open else Borrowed)
  }

  predicate CanCloseLock(s: State, p: Pid) {
    (Is(s, p, Open) || Is(s, p, Borrowed)) && (Live(s, p) ==> Try(s, p, OP_CLOSE).Done?)
  }

  function DoCloseLock(s: State, p: Pid): (t: State)
    requires CanCloseLock(s, p)
    ensures Live(s, p) ==> Is(t, p, Closing) && Live(t, p)
  {
    if !Live(s, p) then Leave(s, p) else Go(Apply(s, p, Try(s, p, OP_CLOSE)), p, Closing)
  }

  /** The decision of sem_close; the first outcome only prints a message. */
  function DoCloseGetVal(s: State, p: Pid): State
    requires PcOf(s, p).At?
  {
    Go(s, p, if s.val.procs > BIGCOUNT then Overflow else if s.val.procs == BIGCOUNT then Last else Unlocking)
  }

  function DoRemove(s: State, p: Pid): State {
    Leave(s.(live := false, adj := map[]), p)
  }

  predicate CanUnlock(s: State, p: Pid) {
    Is(s, p, Unlocking) && Live(s, p) && Try(s, p, OP_UNLOCK).Done?
  }

  function DoUnlock(s: State, p: Pid): State
    requires CanUnlock(s, p)
  {
    Leave(Apply(s, p, Try(s, p, OP_UNLOCK)), p)
  }

  /** A forked child shares the identifier; its adjustments start at zero. */
  function DoFork(s: State, p: Pid, c: Pid): State
    requires PcOf(s, p).At?
  {
    s.(pc := s.pc[c := At(Borrowed, PcOf(s, p).id)])
  }

  function DoDie(s: State, p: Pid): State {
    Leave(s.(val := Undo(s.val, AdjOf(s, p)), adj := s.adj - {p}), p)
  }

  predicate Enabled(s: State, a: Action) {
    match a
    case SemGet(p) => PcOf(s, p) == Out
    case TryLock(p) => Is(s, p, Got)
    case WakeLock(p) => CanWake(s, p)
    case GetVal(p) => Is(s, p, Locked) && Live(s, p)
    case SetValue(p) => Is(s, p, Fresh) && Live(s, p)
    case SetCounter(p) => Is(s, p, Half) && Live(s, p)
    case EndCreate(p) => CanEndCreate(s, p)
    case Wait(p) => CanWait(s, p)
    case Signal(p) => CanSignal(s, p)
    case CloseLock(p) => CanCloseLock(s, p)
    case CloseGetVal(p) => Is(s, p, Closing) && Live(s, p)
    case Remove(p) => Is(s, p, Last) && Live(s, p)
    case Unlock(p) => CanUnlock(s, p)
    case Fork(p, c) => (Is(s, p, Open) || Is(s, p, Borrowed)) && PcOf(s, c) == Out
    case Die(p) => PcOf(s, p).At?
  }

  /** One kernel call of the running code, a fork, or a death with its undo. */
  function Next(s: State, a: Action): State
    requires Enabled(s, a)
  {
    match a
    case SemGet(p) => DoSemGet(s, p)
    case TryLock(p) => DoTryLock(s, p)
    case WakeLock(p) => DoWakeLock(s, p)
    case GetVal(p) => DoGetVal(s, p)
    case SetValue(p) => Go(SetVal0(s, INITVAL), p, Half)
    case SetCounter(p) => Go(SetVal1(s, BIGCOUNT), p, Ready)
    case EndCreate(p) => DoEndCreate(s, p)
    case Wait(p) => DoWait(s, p)
    case Signal(p) => DoSignal(s, p)
    case CloseLock(p) => DoCloseLock(s, p)
    case CloseGetVal(p) => DoCloseGetVal(s, p)
    case Remove(p) => DoRemove(s, p)
    case Unlock(p) => DoUnlock(s, p)
    case Fork(p, c) => DoFork(s, p, c)
    case Die(p) => DoDie(s, p)
  }

  // ---------- Who is where ----------

  predicate IsLocker(pc: Pc) {
    pc.At? && pc.place in {Locked, Fresh, Half, Ready, Closing, Last, Unlocking, Overflow}
  }

  predicate IsOpen(pc: Pc) {
    pc.At? && (pc.place == Open || pc.place == Holding)
  }

  predicate IsHolder(pc: Pc) {
    pc.At? && (pc.place == Holding || pc.place == BorrowedHolding)
  }

  /** The processes inside the section that lock [2] guards. */
  function Lockers(s: State): set<Pid> {
    set p | p in s.pc && IsLocker(s.pc[p])
  }

  /** The processes that completed sem_create and have not closed. */
  function Opens(s: State): set<Pid> {
    set p | p in s.pc && IsOpen(s.pc[p])
  }

  /** The processes inside a sem_wait/sem_signal bracket of the newest set. */
  function Holders(s: State): set<Pid> {
    set p | p in s.pc && IsHolder(s.pc[p]) && s.pc[p].id == s.gen
  }

  /** The discipline under which the counters are exact: a create takes the lock
      only while fewer than BIGCOUNT processes are open, and whoever closes opened. */
  predicate Disciplined(s: State, a: Action) {
    match a
    case TryLock(_) => |Opens(s)| < BIGCOUNT
    case WakeLock(_) => |Opens(s)| < BIGCOUNT
    case CloseLock(p) => Is(s, p, Open)
    case _ => true
  }

  // ---------- The invariant ----------

  /** What a process of the newest set gives back when it dies. */
  function Owed(s: State, p: Pid): Triple {
    var pc := PcOf(s, p);
    if pc.Out? || pc.id != s.gen then ZERO
    else Triple(if IsHolder(pc) then 1 else 0, if IsOpen(pc) then 1 else 0, if IsLocker(pc) then -1 else 0)
  }

  ghost predicate Ledger(s: State) {
    forall p: Pid :: AdjOf(s, p) == Owed(s, p)
  }

  /** The numbers the invariant speaks of. Counter [1] has been set up when it is
      not zero or somebody is open. */
  datatype Summary = Summary(live: bool, gen: nat, initialised: bool, value: int, lockers: nat, opens: nat, holders: nat)

  function Sum(s: State): Summary {
    Summary(s.live, s.gen, s.val.procs != 0 || |Opens(s)| != 0, s.val.value, |Lockers(s)|, |Opens(s)|, |Holders(s)|)
  }

  predicate CountsExact(val: Triple, n: Summary) {
    && val.lock == n.lockers <= 1
    && 0 <= val.value
    && 0 <= val.procs
    && (if n.initialised then
          && val.procs == BIGCOUNT - n.opens
          && val.value == INITVAL - n.holders
        else
          n.holders == 0)
  }

  /** What a process's place says about the counters. */
  predicate PlaceAgrees(n: Summary, pc: Pc) {
    pc.At? ==>
      && pc.id <= n.gen
      && (IsLocker(pc) || IsOpen(pc) ==> n.live && pc.id == n.gen)
      && (n.live && pc.id == n.gen ==>
            && (pc.place in {Fresh, Half} ==> !n.initialised)
            && (pc.place == Half ==> n.value == INITVAL)
            && (pc.place in {Ready, Closing, Last, Unlocking, Borrowed, BorrowedHolding} ==> n.initialised)
            && (pc.place in {Locked, Ready} ==> n.opens < BIGCOUNT)
            && (pc.place == Last ==> n.opens == 0)
            && pc.place != Overflow
            && pc.place != Unprotected)
  }

  predicate PlacesAgree(n: Summary, pc: map<Pid, Pc>) {
    forall p :: p in pc ==> PlaceAgrees(n, pc[p])
  }

  ghost predicate Inv(s: State) {
    && PlacesAgree(Sum(s), s.pc)
    && (s.live ==> Ledger(s) && CountsExact(s.val, Sum(s)))
  }

  predicate Initial(s: State) {
    !s.live && forall p :: p in s.pc ==> s.pc[p] == Out
  }

  // ---------- Sets of processes under one update ----------

  function One(b: bool): nat {
    if b then 1 else 0
  }

  lemma SetsAfter(s: State, p: Pid, pc: Pc, t: State)
    requires t.pc == s.pc[p := pc]
    ensures Lockers(t) == if IsLocker(pc) then Lockers(s) + {p} else Lockers(s) - {p}
    ensures Opens(t) == if IsOpen(pc) then Opens(s) + {p} else Opens(s) - {p}
    ensures t.gen == s.gen ==> Holders(t) == if IsHolder(pc) && pc.id == s.gen then Holders(s) + {p} else Holders(s) - {p}
  {
  }

  lemma CountsAfter(s: State, p: Pid, t: State)
    requires t.pc == s.pc[p := PcOf(t, p)] && t.gen == s.gen
    ensures
      var before, after := PcOf(s, p), PcOf(t, p);
      && |Lockers(t)| == |Lockers(s)| - One(IsLocker(before)) + One(IsLocker(after))
      && |Opens(t)| == |Opens(s)| - One(IsOpen(before)) + One(IsOpen(after))
      && |Holders(t)| == |Holders(s)| - One(IsHolder(before) && before.id == s.gen) + One(IsHolder(after) && after.id == s.gen)
  {
    SetsAfter(s, p, PcOf(t, p), t);
    Resize(Lockers(s), p, IsLocker(PcOf(s, p)));
    Resize(Opens(s), p, IsOpen(PcOf(s, p)));
    Resize(Holders(s), p, IsHolder(PcOf(s, p)) && PcOf(s, p).id == s.gen);
  }

  lemma Resize(a: set<Pid>, p: Pid, was: bool)
    requires p in a <==> was
    ensures |a + {p}| == |a| + 1 - One(was)
    ensures |a - {p}| == |a| - One(was)
  {
    if was {
      assert a + {p} == a;
    } else {
      assert a - {p} == a;
    }
  }

  lemma AtMostOne(s: set<Pid>, p: Pid, q: Pid)
    requires |s| <= 1 && p in s && q in s
    ensures p == q
  {
    if p != q {
      assert {p, q} <= s;
      SubsetSize({p, q}, s);
    }
  }

  lemma SubsetSize(a: set<Pid>, b: set<Pid>)
    requires a <= b
    ensures |a| <= |b|
  {
    assert b == a + (b - a);
  }

  // ---------- Every step keeps the invariant ----------

  /** The lock and its holder: a locker is the only one. */
  lemma LockerIsAlone(s: State, p: Pid)
    requires Inv(s) && p in s.pc && IsLocker(s.pc[p])
    ensures s.live && Lockers(s) == {p} && s.val.lock == 1
    ensures forall q :: q in s.pc && q != p ==> !IsLocker(s.pc[q])
  {
    assert p in Lockers(s);
    forall q | q in s.pc && IsLocker(s.pc[q]) ensures q == p {
      assert q in Lockers(s);
      AtMostOne(Lockers(s), p, q);
    }
  }

  /** With nobody counted as open, no place is open. */
  lemma NobodyOpen(s: State, p: Pid)
    requires |Opens(s)| == 0
    ensures !IsOpen(PcOf(s, p))
  {
    assert p !in Opens(s);
  }

  lemma NobodyHolds(s: State, p: Pid)
    requires |Holders(s)| == 0
    ensures IsHolder(PcOf(s, p)) ==> PcOf(s, p).id != s.gen
  {
    assert p !in Holders(s);
  }

  lemma OpenCounts(s: State, p: Pid)
    requires IsOpen(PcOf(s, p))
    ensures |Opens(s)| > 0
  {
    assert p in Opens(s);
  }

  /** A step of one process: the other processes' adjustments stay right. */
  lemma LedgerAfter(s: State, p: Pid, t: State)
    requires Ledger(s) && t.gen == s.gen
    requires forall q: Pid :: q != p ==> AdjOf(t, q) == AdjOf(s, q) && PcOf(t, q) == PcOf(s, q)
    requires AdjOf(t, p) == Owed(t, p)
    ensures Ledger(t)
  {
    forall q: Pid ensures AdjOf(t, q) == Owed(t, q) {
      assert AdjOf(s, q) == Owed(s, q);
    }
  }

  /** A step of one process: the other places stay right if nothing they depend on changed. */
  lemma PlacesAfter(s: State, p: Pid, t: State)
    requires PlacesAgree(Sum(s), s.pc) && t.pc == s.pc[p := PcOf(t, p)]
    requires PlaceAgrees(Sum(t), PcOf(t, p))
    requires forall q :: q in s.pc && q != p && PlaceAgrees(Sum(s), s.pc[q]) ==> PlaceAgrees(Sum(t), s.pc[q])
    ensures PlacesAgree(Sum(t), t.pc)
  {
  }

  lemma GetKeeps(s: State, p: Pid)
    requires Inv(s) && PcOf(s, p) == Out
    ensures Inv(DoSemGet(s, p))
  {
    var t := DoSemGet(s, p);
    if s.live {
      CountsAfter(s, p, t);
      assert AdjOf(s, p) == Owed(s, p);
      LedgerAfter(s, p, t);
      PlacesAfter(s, p, t);
    } else {
      assert Lockers(t) == {} && Opens(t) == {} && Holders(t) == {};
    }
  }

  lemma TryLockKeeps(s: State, p: Pid)
    requires Inv(s) && Is(s, p, Got) && |Opens(s)| < BIGCOUNT
    ensures Inv(DoTryLock(s, p))
  {
    var t := DoTryLock(s, p);
    hide Semop;
    LockMeans(s.val, AdjOf(s, p));
    CountsAfter(s, p, t);
    if s.live {
      assert AdjOf(s, p) == Owed(s, p);
      LedgerAfter(s, p, t);
    }
    PlacesAfter(s, p, t);
  }

  lemma WakeLockKeeps(s: State, p: Pid)
    requires Inv(s) && CanWake(s, p) && |Opens(s)| < BIGCOUNT
    ensures Inv(DoWakeLock(s, p))
  {
    var t := DoWakeLock(s, p);
    hide Semop;
    LockMeans(s.val, AdjOf(s, p));
    CountsAfter(s, p, t);
    if s.live {
      assert AdjOf(s, p) == Owed(s, p);
      LedgerAfter(s, p, t);
    }
    PlacesAfter(s, p, t);
  }

  /** With [1] found zero nobody is open and nobody holds. */
  lemma GetValKeeps(s: State, p: Pid)
    requires Inv(s) && Is(s, p, Locked) && Live(s, p)
    ensures Inv(DoGetVal(s, p))
    ensures Is(DoGetVal(s, p), p, Fresh) <==> !Sum(s).initialised
  {
    var t := DoGetVal(s, p);
    CountsAfter(s, p, t);
    assert PlaceAgrees(Sum(s), s.pc[p]);
    assert AdjOf(s, p) == Owed(s, p);
    LedgerAfter(s, p, t);
    PlacesAfter(s, p, t);
  }

  /** SETVAL on [0] and [1] finds every adjustment of these two already zero, so
      clearing them loses nobody's undo. */
  lemma NothingToClear(s: State, p: Pid, q: Pid)
    requires Inv(s) && (Is(s, p, Fresh) || Is(s, p, Half)) && Live(s, p)
    ensures AdjOf(s, q).value == 0 && AdjOf(s, q).procs == 0
  {
    assert PlaceAgrees(Sum(s), s.pc[p]);
    assert AdjOf(s, q) == Owed(s, q);
    NobodyOpen(s, q);
    NobodyHolds(s, q);
  }

  lemma SetValueKeeps(s: State, p: Pid)
    requires Inv(s) && Is(s, p, Fresh) && Live(s, p)
    ensures Inv(Go(SetVal0(s, INITVAL), p, Half))
  {
    var t := Go(SetVal0(s, INITVAL), p, Half);
    assert PlaceAgrees(Sum(s), s.pc[p]);
    CountsAfter(s, p, t);
    forall q: Pid ensures AdjOf(t, q) == AdjOf(s, q) {
      NothingToClear(s, p, q);
    }
    assert AdjOf(s, p) == Owed(s, p);
    LedgerAfter(s, p, t);
    LockerIsAlone(s, p);
    PlacesAfter(s, p, t);
  }

  lemma SetCounterKeeps(s: State, p: Pid)
    requires Inv(s) && Is(s, p, Half) && Live(s, p)
    ensures Inv(Go(SetVal1(s, BIGCOUNT), p, Ready))
  {
    var t := Go(SetVal1(s, BIGCOUNT), p, Ready);
    assert PlaceAgrees(Sum(s), s.pc[p]);
    CountsAfter(s, p, t);
    forall q: Pid ensures AdjOf(t, q) == AdjOf(s, q) {
      NothingToClear(s, p, q);
    }
    assert AdjOf(s, p) == Owed(s, p);
    LedgerAfter(s, p, t);
    LockerIsAlone(s, p);
    PlacesAfter(s, p, t);
  }

  /** The end of a create, with the operation written out. */
  function Ended(s: State, p: Pid): State
    requires PcOf(s, p).At?
  {
    var adj := AdjOf(s, p);
    Go(s.(val := Triple(s.val.value, s.val.procs - 1, s.val.lock - 1), adj := s.adj[p := Triple(adj.value, adj.procs + 1, adj.lock + 1)]),
       p, Open)
  }

  lemma EndCreateIs(s: State, p: Pid)
    requires CanEndCreate(s, p) && s.val.lock >= 1
    ensures DoEndCreate(s, p) == Ended(s, p) && s.val.procs >= 1
  {
    hide Semop;
    EndCreateMeans(s.val, AdjOf(s, p));
    hide AdjOf, Live;
  }

  lemma EndCreateKeeps(s: State, p: Pid)
    requires Inv(s) && CanEndCreate(s, p)
    ensures Inv(DoEndCreate(s, p))
  {
    LockerIsAlone(s, p);
    EndCreateIs(s, p);
    hide *;
    EndedKeeps(s, p);
  }

  lemma EndedKeeps(s: State, p: Pid)
    requires Inv(s) && Is(s, p, Ready) && Live(s, p) && s.val.procs >= 1 && Lockers(s) == {p}
    requires forall q :: q in s.pc && q != p ==> !IsLocker(s.pc[q])
    ensures Inv(Ended(s, p))
  {
    var t := Ended(s, p);
    CountsAfter(s, p, t);
    assert PlaceAgrees(Sum(s), s.pc[p]);
    assert AdjOf(s, p) == Owed(s, p);
    LedgerAfter(s, p, t);
    PlacesAfter(s, p, t);
  }

  lemma WaitKeeps(s: State, p: Pid)
    requires Inv(s) && CanWait(s, p)
    ensures Inv(DoWait(s, p))
  {
    if Live(s, p) {
      WaitTakes(s, p);
    } else {
      var t := DoWait(s, p);
      CountsAfter(s, p, t);
      if s.live {
        assert AdjOf(s, p) == Owed(s, p);
        LedgerAfter(s, p, t);
      }
      PlacesAfter(s, p, t);
    }
  }

  lemma WaitIsTaken(s: State, p: Pid)
    requires CanWait(s, p) && Live(s, p) && s.val.value >= 0
    ensures DoWait(s, p) == Taken(s, p) && s.val.value >= 1
  {
    hide Semop;
    OpMeans(s.val, AdjOf(s, p), -1);
  }

  /** Whoever may wait on a set finds it set up, with the value one at most. */
  lemma WaiterFinds(s: State, p: Pid)
    requires Inv(s) && Live(s, p) && (Is(s, p, Open) || Is(s, p, Borrowed))
    ensures 0 <= s.val.value <= 1 && Ledger(s) && s.live
  {
    WaitSum(s, p);
    hide Ledger, PlacesAgree, Sum, Is;
  }

  lemma WaitTakes(s: State, p: Pid)
    requires Inv(s) && CanWait(s, p) && Live(s, p)
    ensures Inv(DoWait(s, p))
    ensures s.val.value == 1 && DoWait(s, p).val == s.val.(value := 0)
  {
    WaiterFinds(s, p);
    WaitIsTaken(s, p);
    hide Try, DoWait, Sum, PlacesAgree, Ledger, CountsExact;
    TakenLedger(s, p);
    TakenPlaces(s, p);
  }

  /** sem_wait when it succeeds, with the operation written out. */
  function Taken(s: State, p: Pid): State
    requires PcOf(s, p).At?
  {
    var adj := AdjOf(s, p);
    Go(s.(val := s.val.(value := s.val.value - 1), adj := s.adj[p := adj.(value := adj.value + 1)]),
       p, if Is(s, p, Open) then Holding else BorrowedHolding)
  }

  lemma TakenLedger(s: State, p: Pid)
    requires s.live && Ledger(s) && Live(s, p) && (Is(s, p, Open) || Is(s, p, Borrowed))
    ensures Ledger(Taken(s, p))
  {
    assert AdjOf(s, p) == Owed(s, p);
    LedgerAfter(s, p, Taken(s, p));
  }

  lemma TakenPlaces(s: State, p: Pid)
    requires Inv(s) && Live(s, p) && (Is(s, p, Open) || Is(s, p, Borrowed)) && s.val.value == 1
    ensures PlacesAgree(Sum(Taken(s, p)), Taken(s, p).pc) && CountsExact(Taken(s, p).val, Sum(Taken(s, p)))
  {
    var t := Taken(s, p);
    WaitSum(s, p);
    CountsAfter(s, p, t);
    forall q | q in s.pc && q != p ensures PlaceAgrees(Sum(t), s.pc[q]) {
      SetUpStays(Sum(s), Sum(t), s.pc[q]);
    }
    PlacesAfter(s, p, t);
  }

  lemma SetUpStays(n: Summary, m: Summary, pc: Pc)
    requires n.initialised && PlaceAgrees(n, pc)
    requires m == n.(value := m.value, holders := m.holders)
    ensures PlaceAgrees(m, pc)
  {
  }

  lemma WaitSum(s: State, p: Pid)
    requires Inv(s) && Live(s, p) && (Is(s, p, Open) || Is(s, p, Borrowed))
    ensures Sum(s).initialised
  {
    assert PlaceAgrees(Sum(s), s.pc[p]);
    if Is(s, p, Open) {
      OpenCounts(s, p);
    }
  }

  lemma SignalKeeps(s: State, p: Pid)
    requires Inv(s) && CanSignal(s, p)
    ensures Inv(DoSignal(s, p))
  {
    var t := DoSignal(s, p);
    CountsAfter(s, p, t);
    if Live(s, p) {
      OpMeans(s.val, AdjOf(s, p), 1);
    }
    if s.live {
      assert AdjOf(s, p) == Owed(s, p);
      LedgerAfter(s, p, t);
      assert PlaceAgrees(Sum(s), s.pc[p]);
      if Is(s, p, Holding) {
        OpenCounts(s, p);
      }
    }
    PlacesAfter(s, p, t);
  }

  lemma CloseLockKeeps(s: State, p: Pid)
    requires Inv(s) && CanCloseLock(s, p) && Is(s, p, Open)
    ensures Inv(DoCloseLock(s, p))
  {
    var t := DoCloseLock(s, p);
    assert PlaceAgrees(Sum(s), s.pc[p]);
    OpenCounts(s, p);
    hide Semop;
    CloseMeans(s.val, AdjOf(s, p));
    CountsAfter(s, p, t);
    assert AdjOf(s, p) == Owed(s, p);
    LedgerAfter(s, p, t);
    PlacesAfter(s, p, t);
  }

  lemma CloseGetValKeeps(s: State, p: Pid)
    requires Inv(s) && Is(s, p, Closing) && Live(s, p)
    ensures Inv(DoCloseGetVal(s, p))
  {
    var t := DoCloseGetVal(s, p);
    assert PlaceAgrees(Sum(s), s.pc[p]);
    CountsAfter(s, p, t);
    assert AdjOf(s, p) == Owed(s, p);
    LedgerAfter(s, p, t);
    PlacesAfter(s, p, t);
  }

  lemma RemoveKeeps(s: State, p: Pid)
    requires Inv(s) && Is(s, p, Last) && Live(s, p)
    ensures Inv(DoRemove(s, p))
  {
    var t := DoRemove(s, p);
    LockerIsAlone(s, p);
    assert PlaceAgrees(Sum(s), s.pc[p]);
    forall q | q in t.pc ensures PlaceAgrees(Sum(t), t.pc[q]) {
      NobodyOpen(s, q);
    }
  }

  lemma UnlockKeeps(s: State, p: Pid)
    requires Inv(s) && CanUnlock(s, p)
    ensures Inv(DoUnlock(s, p))
  {
    var t := DoUnlock(s, p);
    LockerIsAlone(s, p);
    hide Semop;
    UnlockMeans(s.val, AdjOf(s, p));
    CountsAfter(s, p, t);
    assert AdjOf(s, p) == Owed(s, p);
    LedgerAfter(s, p, t);
    PlacesAfter(s, p, t);
  }

  lemma ForkKeeps(s: State, p: Pid, c: Pid)
    requires Inv(s) && (Is(s, p, Open) || Is(s, p, Borrowed)) && PcOf(s, c) == Out
    ensures Inv(DoFork(s, p, c))
  {
    var t := DoFork(s, p, c);
    CountsAfter(s, c, t);
    assert PlaceAgrees(Sum(s), s.pc[p]);
    if Is(s, p, Open) {
      OpenCounts(s, p);
    }
    if s.live {
      assert AdjOf(s, c) == Owed(s, c);
      LedgerAfter(s, c, t);
    }
    PlacesAfter(s, c, t);
  }

  /** The undo of a dying process gives back exactly what it holds, and stays in range. */
  lemma DieGivesBack(s: State, p: Pid)
    requires Inv(s) && PcOf(s, p).At? && s.live
    ensures DoDie(s, p).val == Triple(s.val.value + Owed(s, p).value, s.val.procs + Owed(s, p).procs, s.val.lock + Owed(s, p).lock)
    ensures IsOpen(s.pc[p]) ==> |Opens(s)| > 0
    ensures IsLocker(s.pc[p]) ==> Lockers(s) == {p} && s.val.lock == 1
    ensures !Sum(s).initialised ==> Owed(s, p).value == 0 && Owed(s, p).procs == 0
  {
    assert AdjOf(s, p) == Owed(s, p);
    if IsOpen(s.pc[p]) {
      OpenCounts(s, p);
    }
    if IsLocker(s.pc[p]) {
      LockerIsAlone(s, p);
    }
    if !Sum(s).initialised {
      NobodyHoldsUnlessReady(s, p);
    }
  }

  lemma DieKeeps(s: State, p: Pid)
    requires Inv(s) && PcOf(s, p).At?
    ensures Inv(DoDie(s, p))
  {
    var t := DoDie(s, p);
    CountsAfter(s, p, t);
    assert PlaceAgrees(Sum(s), s.pc[p]);
    if s.live {
      DieGivesBack(s, p);
      assert AdjOf(s, p) == Owed(s, p);
      LedgerAfter(s, p, t);
      hide Undo;
    }
    PlacesAfter(s, p, t);
  }

  lemma NobodyHoldsUnlessReady(s: State, p: Pid)
    requires s.live && CountsExact(s.val, Sum(s)) && !Sum(s).initialised
    ensures Owed(s, p).value == 0 && Owed(s, p).procs == 0
  {
    NobodyOpen(s, p);
    NobodyHolds(s, p);
  }

  /** Every step of every process, and every death, keeps the invariant. */
  lemma NextKeepsInv(s: State, a: Action)
    requires Inv(s) && Enabled(s, a) && Disciplined(s, a)
    ensures Inv(Next(s, a))
  {
    match a
    case SemGet(p) => GetKeeps(s, p);
    case TryLock(p) => TryLockKeeps(s, p);
    case WakeLock(p) => WakeLockKeeps(s, p);
    case GetVal(p) => GetValKeeps(s, p);
    case SetValue(p) => SetValueKeeps(s, p);
    case SetCounter(p) => SetCounterKeeps(s, p);
    case EndCreate(p) => EndCreateKeeps(s, p);
    case Wait(p) => WaitKeeps(s, p);
    case Signal(p) => SignalKeeps(s, p);
    case CloseLock(p) => CloseLockKeeps(s, p);
    case CloseGetVal(p) => CloseGetValKeeps(s, p);
    case Remove(p) => RemoveKeeps(s, p);
    case Unlock(p) => UnlockKeeps(s, p);
    case Fork(p, c) => ForkKeeps(s, p, c);
    case Die(p) => DieKeeps(s, p);
  }

  // ---------- Whole runs ----------

  /** `acts` leads from `s` to `t`; a `strict` run keeps the discipline throughout. */
  predicate Runs(s: State, acts: seq<Action>, t: State, strict: bool)
    decreases |acts|
  {
    if acts == [] then s == t
    else Enabled(s, acts[0]) && (strict ==> Disciplined(s, acts[0])) && Runs(Next(s, acts[0]), acts[1..], t, strict)
  }

  ghost predicate Reachable(t: State) {
    exists s, acts :: Initial(s) && Runs(s, acts, t, true)
  }

  lemma {:induction false} RunsKeepInv(s: State, acts: seq<Action>, t: State)
    requires Inv(s) && Runs(s, acts, t, true)
    ensures Inv(t)
    decreases |acts|
  {
    if acts != [] {
      NextKeepsInv(s, acts[0]);
      RunsKeepInv(Next(s, acts[0]), acts[1..], t);
    }
  }

  lemma ReachableInv(t: State)
    requires Reachable(t)
    ensures Inv(t)
  {
    var s, acts :| Initial(s) && Runs(s, acts, t, true);
    RunsKeepInv(s, acts, t);
  }

  lemma {:induction false} RunsAppend(s: State, a: seq<Action>, t: State, b: seq<Action>, u: State, strict: bool)
    requires Runs(s, a, t, strict) && Runs(t, b, u, strict)
    ensures Runs(s, a + b, u, strict)
    decreases |a|
  {
    if a == [] {
      assert a + b == b;
    } else {
      assert (a + b)[0] == a[0] && (a + b)[1..] == a[1..] + b;
      RunsAppend(Next(s, a[0]), a[1..], t, b, u, strict);
    }
  }

  lemma RunsThree(s: State, a: seq<Action>, t: State, b: seq<Action>, u: State, c: seq<Action>, v: State, strict: bool)
    requires Runs(s, a, t, strict) && Runs(t, b, u, strict) && Runs(u, c, v, strict)
    ensures Runs(s, a + b + c, v, strict)
  {
    RunsAppend(s, a, t, b, u, strict);
    RunsAppend(s, a + b, u, c, v, strict);
  }

  lemma RunsOne(s: State, a: Action, strict: bool)
    requires Enabled(s, a) && (strict ==> Disciplined(s, a))
    ensures Runs(s, [a], Next(s, a), strict)
  {
    assert [a][1..] == [];
  }

  lemma RunsMore(s: State, acts: seq<Action>, t: State, a: Action, strict: bool)
    requires Runs(s, acts, t, strict) && Enabled(t, a) && (strict ==> Disciplined(t, a))
    ensures Runs(s, acts + [a], Next(t, a), strict)
  {
    RunsOne(t, a, strict);
    RunsAppend(s, acts, t, [a], Next(t, a), strict);
  }

  // ---------- The discipline, from what a caller can see ----------

  /** The processes that have begun a create and are not open yet. */
  function Creators(s: State): set<Pid> {
    set p | p in s.pc && IsCreator(s.pc[p])
  }

  predicate IsCreator(pc: Pc) {
    pc.At? && pc.place in {Got, Waiting, Locked, Fresh, Half, Ready}
  }

  /** What a process looks at before it starts: a create begins only while fewer than
      BIGCOUNT processes are open or opening, and whoever closes has opened. */
  predicate Admits(s: State, a: Action) {
    match a
    case SemGet(_) => |Opens(s)| + |Creators(s)| < BIGCOUNT
    case CloseLock(p) => Is(s, p, Open)
    case _ => true
  }

  predicate AdmittedRuns(s: State, acts: seq<Action>, t: State)
    decreases |acts|
  {
    if acts == [] then s == t
    else Enabled(s, acts[0]) && Admits(s, acts[0]) && AdmittedRuns(Next(s, acts[0]), acts[1..], t)
  }

  predicate Room(s: State) {
    |Opens(s)| + |Creators(s)| <= BIGCOUNT
  }

  function Actor(a: Action): Pid {
    match a
    case SemGet(p) => p
    case TryLock(p) => p
    case WakeLock(p) => p
    case GetVal(p) => p
    case SetValue(p) => p
    case SetCounter(p) => p
    case EndCreate(p) => p
    case Wait(p) => p
    case Signal(p) => p
    case CloseLock(p) => p
    case CloseGetVal(p) => p
    case Remove(p) => p
    case Unlock(p) => p
    case Fork(_, c) => c
    case Die(p) => p
  }

  /** A step moves one process. */
  lemma StepMoves(s: State, a: Action)
    requires Enabled(s, a)
    ensures Next(s, a).pc == s.pc[Actor(a) := PcOf(Next(s, a), Actor(a))]
  {
    hide Try;
  }

  /** Nobody becomes open or opening except through a create that was admitted. */
  lemma StepGrows(s: State, a: Action)
    requires Enabled(s, a)
    ensures
      var b, c := PcOf(s, Actor(a)), PcOf(Next(s, a), Actor(a));
      a.SemGet? || One(IsOpen(c)) + One(IsCreator(c)) <= One(IsOpen(b)) + One(IsCreator(b))
  {
    hide Try;
  }

  lemma CreatorsAfter(s: State, p: Pid, t: State)
    requires t.pc == s.pc[p := PcOf(t, p)]
    ensures |Opens(t)| == |Opens(s)| - One(IsOpen(PcOf(s, p))) + One(IsOpen(PcOf(t, p)))
    ensures |Creators(t)| == |Creators(s)| - One(IsCreator(PcOf(s, p))) + One(IsCreator(PcOf(t, p)))
  {
    hide IsOpen, IsCreator;
    var b, c := PcOf(s, p), PcOf(t, p);
    NotOut(b);
    NotOut(c);
    assert Opens(t) == if IsOpen(c) then Opens(s) + {p} else Opens(s) - {p};
    assert Creators(t) == if IsCreator(c) then Creators(s) + {p} else Creators(s) - {p};
    Resize(Opens(s), p, IsOpen(b));
    Resize(Creators(s), p, IsCreator(b));
  }

  lemma NotOut(pc: Pc)
    ensures pc.Out? ==> !IsOpen(pc) && !IsCreator(pc)
  {
  }

  lemma RoomKept(s: State, a: Action)
    requires Room(s) && Enabled(s, a) && Admits(s, a)
    ensures Room(Next(s, a)) && Disciplined(s, a)
  {
    StepMoves(s, a);
    StepGrows(s, a);
    CreatorsAfter(s, Actor(a), Next(s, a));
    if a.TryLock? || a.WakeLock? {
      assert a.p in Creators(s);
    }
    hide Enabled, Next, Opens, Creators;
  }

  lemma {:induction false} AdmittedIsStrict(s: State, acts: seq<Action>, t: State)
    requires Room(s) && AdmittedRuns(s, acts, t)
    ensures Runs(s, acts, t, true) && Room(t)
    decreases |acts|
  {
    if acts != [] {
      RoomKept(s, acts[0]);
      hide Room, Enabled, Next;
      AdmittedIsStrict(Next(s, acts[0]), acts[1..], t);
    }
  }

  /** If every create begins while fewer than BIGCOUNT processes are open or opening, the
      run keeps the discipline under which the theorems below hold. */
  lemma AdmittedRunsReach(s: State, acts: seq<Action>, t: State)
    requires Initial(s) && AdmittedRuns(s, acts, t)
    ensures Reachable(t) && |Opens(t)| + |Creators(t)| <= 31
  {
    assert Opens(s) == {} && Creators(s) == {};
    hide AdmittedRuns, Runs;
    AdmittedIsStrict(s, acts, t);
  }

  // ---------- What holds in every reachable state ----------

  /** Counter [1] is zero with nobody open, or exactly BIGCOUNT less the number of
      open processes; [2] is one exactly while one process is in the locked section. */
  lemma CountersExact(t: State)
    requires Reachable(t) && t.live
    ensures (t.val.procs == 0 && Opens(t) == {}) || t.val.procs == 31 - |Opens(t)|
    ensures (t.val.lock == 1 && exists p :: Lockers(t) == {p}) || (t.val.lock == 0 && Lockers(t) == {})
  {
    ReachableInv(t);
    if t.val.lock == 1 {
      var p :| p in Lockers(t);
      LockerIsAlone(t, p);
    }
  }

  /** At most one process is between sem_wait and sem_signal on a set, and [0] makes
      up for it: on a set that is set up, value plus holders is one. */
  lemma MutualExclusion(t: State, p: Pid, q: Pid)
    requires Reachable(t) && t.live && p in Holders(t) && q in Holders(t)
    ensures p == q && t.val.value == 0
  {
    ReachableInv(t);
    assert |Holders(t)| != 0;
    AtMostOne(Holders(t), p, q);
  }

  lemma ValuePlusHolders(t: State)
    requires Reachable(t) && t.live && (t.val.procs != 0 || Opens(t) != {})
    ensures t.val.value + |Holders(t)| == 1
  {
    ReachableInv(t);
  }

  /** A holder that dies makes the section free again, and it was taken before. */
  lemma DeadHolderReleases(t: State, p: Pid)
    requires Reachable(t) && t.live && p in Holders(t)
    ensures t.val.value == 0 && Next(t, Die(p)).val.value == 1 && Holders(Next(t, Die(p))) == {}
  {
    ReachableInv(t);
    MutualExclusion(t, p, p);
    DieKeeps(t, p);
    var u := Next(t, Die(p));
    SetsAfter(t, p, Out, u);
    forall q | q in Holders(u) ensures false {
      MutualExclusion(t, p, q);
    }
  }

  /** The set is removed only by a process inside the locked section while nobody
      that completed a create is left. */
  lemma RemovedOnlyUnused(t: State, p: Pid)
    requires Reachable(t) && Enabled(t, Remove(p))
    ensures Opens(t) == {} && Lockers(t) == {p} && t.val.procs == BIGCOUNT
  {
    ReachableInv(t);
    LockerIsAlone(t, p);
    assert PlaceAgrees(Sum(t), t.pc[p]);
  }

  /** [0] and [1] are set only while nobody is open, nobody holds, and no process has
      an adjustment that SETVAL would wipe out. */
  lemma InitialisedOnlyUnused(t: State, p: Pid)
    requires Reachable(t) && (Enabled(t, SetValue(p)) || Enabled(t, SetCounter(p)))
    ensures Opens(t) == {} && Holders(t) == {} && t.val.procs == 0
    ensures forall q: Pid :: AdjOf(t, q).value == 0 && AdjOf(t, q).procs == 0
  {
    ReachableInv(t);
    assert PlaceAgrees(Sum(t), t.pc[p]);
    forall q: Pid ensures AdjOf(t, q).value == 0 && AdjOf(t, q).procs == 0 {
      NothingToClear(t, p, q);
    }
  }

  /** What sem_close decides after taking the lock, for a caller that created: it
      removes exactly when it was the only one open, and otherwise unlocks. */
  lemma CloseByCreator(t: State, p: Pid)
    requires Reachable(t) && Live(t, p) && CanCloseLock(t, p) && Is(t, p, Open)
    ensures Is(AfterClose(t, p), p, Last) <==> Opens(t) == {p}
    ensures Is(AfterClose(t, p), p, Unlocking) <==> Opens(t) != {p}
  {
    ReachableInv(t);
    hide Reachable;
    CloseDecision(t, p);
    assert p in Opens(t);
    OnlyOne(Opens(t), p);
  }

  /** The state in which sem_close has decided what to do. */
  function AfterClose(t: State, p: Pid): State
    requires Live(t, p) && CanCloseLock(t, p)
  {
    DoCloseGetVal(DoCloseLock(t, p), p)
  }

  lemma CloseDecision(t: State, p: Pid)
    requires Inv(t) && Live(t, p) && CanCloseLock(t, p)
    ensures Is(AfterClose(t, p), p, Last) <==> |Opens(t)| == 1
    ensures Is(AfterClose(t, p), p, Overflow) <==> |Opens(t)| == 0
    ensures Is(AfterClose(t, p), p, Unlocking) <==> |Opens(t)| > 1
  {
    WaitSum(t, p);
    CloseMeans(t.val, AdjOf(t, p));
    assert DoCloseLock(t, p).val.procs == BIGCOUNT - |Opens(t)| + 1;
  }

  lemma OnlyOne(a: set<Pid>, p: Pid)
    requires p in a
    ensures |a| == 1 <==> a == {p}
  {
    if |a| == 1 {
      forall q | q in a ensures q == p {
        AtMostOne(a, p, q);
      }
    }
  }

  /** The same decision for a forked child, which was never counted in: it removes the
      set exactly when one process is still open, so a removal by it is always wrong;
      and with nobody open it keeps the lock. */
  lemma CloseByBorrower(t: State, p: Pid)
    requires Reachable(t) && Live(t, p) && CanCloseLock(t, p) && Is(t, p, Borrowed)
    ensures Is(AfterClose(t, p), p, Last) <==> |Opens(t)| == 1
    ensures Is(AfterClose(t, p), p, Overflow) <==> |Opens(t)| == 0
  {
    ReachableInv(t);
    hide Reachable;
    CloseDecision(t, p);
  }

  // ---------- A create running alone succeeds, also after a death ----------

  lemma RunsTwo(s: State, a: Action, b: Action)
    requires Enabled(s, a) && Disciplined(s, a)
    requires Enabled(Next(s, a), b) && Disciplined(Next(s, a), b)
    ensures Runs(s, [a, b], Next(Next(s, a), b), true)
  {
    assert [a, b][1..] == [b] && [b][1..] == [];
  }

  lemma SameSize(s: State, p: Pid, t: State)
    requires t.pc == s.pc[p := PcOf(t, p)]
    requires !IsOpen(PcOf(s, p)) && !IsOpen(PcOf(t, p))
    ensures |Opens(t)| == |Opens(s)|
  {
    assert Opens(t) == Opens(s);
  }

  lemma CreateGets(s: State, p: Pid) returns (u: State)
    requires Inv(s) && PcOf(s, p) == Out && (s.live ==> s.val.lock == 0)
    ensures u == DoSemGet(s, p) && Inv(u) && Is(u, p, Got) && Live(u, p) && u.val.lock == 0
    ensures |Opens(u)| == |Opens(s)| && u.pc == s.pc[p := At(Got, u.gen)]
    ensures u.gen == (if s.live then s.gen else s.gen + 1) && u.val.procs == if s.live then s.val.procs else 0
  {
    u := DoSemGet(s, p);
    GetKeeps(s, p);
    hide Inv;
    SameSize(s, p, u);
  }

  lemma CreateTakesLock(u: State, p: Pid) returns (t: State)
    requires Inv(u) && Is(u, p, Got) && Live(u, p) && u.val.lock == 0 && |Opens(u)| < BIGCOUNT
    ensures t == DoTryLock(u, p) && Inv(t) && Is(t, p, Locked) && Live(t, p) && |Opens(t)| == |Opens(u)|
    ensures t.pc == u.pc[p := At(Locked, u.gen)] && t.gen == u.gen && t.val.procs == u.val.procs
  {
    LockMeans(u.val, AdjOf(u, p));
    TryLockKeeps(u, p);
    hide Inv, Semop;
    t := DoTryLock(u, p);
    SameSize(u, p, t);
  }

  /** semget() and the first semop(), with the lock free. */
  lemma CreateLocks(s: State, p: Pid) returns (u: State, t: State)
    requires Inv(s) && PcOf(s, p) == Out && |Opens(s)| < BIGCOUNT && (s.live ==> s.val.lock == 0)
    ensures u == DoSemGet(s, p) && PcOf(u, p).At? && t == DoTryLock(u, p)
    ensures Is(u, p, Got) && |Opens(u)| < BIGCOUNT
    ensures Inv(t) && Is(t, p, Locked) && Live(t, p) && |Opens(t)| == |Opens(s)|
    ensures t.pc == s.pc[p := At(Locked, t.gen)] && t.gen == (if s.live then s.gen else s.gen + 1)
    ensures t.val.procs == if s.live then s.val.procs else 0
  {
    hide Inv, Opens, DoSemGet, DoTryLock;
    u := CreateGets(s, p);
    t := CreateTakesLock(u, p);
  }

  function LockActs(p: Pid): seq<Action> {
    [SemGet(p), TryLock(p)]
  }

  function EndActs(p: Pid): seq<Action> {
    [EndCreate(p)]
  }

  function SetUpActs(p: Pid, initialise: bool): seq<Action> {
    if initialise then [GetVal(p), SetValue(p), SetCounter(p)] else [GetVal(p)]
  }

  function CreateActs(p: Pid, initialise: bool): seq<Action> {
    LockActs(p) + SetUpActs(p, initialise) + EndActs(p)
  }

  lemma CreateInitialises(s: State, p: Pid) returns (t: State)
    requires Inv(s) && Is(s, p, Fresh) && Live(s, p)
    ensures Runs(s, [SetValue(p), SetCounter(p)], t, true)
    ensures Inv(t) && Is(t, p, Ready) && Live(t, p) && |Opens(t)| == |Opens(s)|
    ensures t.pc == s.pc[p := At(Ready, s.gen)] && t.gen == s.gen
  {
    var u := Go(SetVal0(s, INITVAL), p, Half);
    SetValueKeeps(s, p);
    SetCounterKeeps(u, p);
    RunsTwo(s, SetValue(p), SetCounter(p));
    hide Inv, Runs;
    SameSize(s, p, u);
    t := Go(SetVal1(u, BIGCOUNT), p, Ready);
    SameSize(u, p, t);
  }

  lemma CreateReads(s: State, p: Pid) returns (t: State)
    requires Inv(s) && Is(s, p, Locked) && Live(s, p)
    ensures t == DoGetVal(s, p) && Runs(s, [GetVal(p)], t, true) && Inv(t) && Live(t, p) && |Opens(t)| == |Opens(s)|
    ensures Is(t, p, if s.val.procs == 0 then Fresh else Ready) && t.pc == s.pc[p := t.pc[p]] && t.gen == s.gen
  {
    t := DoGetVal(s, p);
    GetValKeeps(s, p);
    RunsOne(s, GetVal(p), true);
    hide Inv, Runs;
    SameSize(s, p, t);
  }

  /** GETVAL, and the two SETVALs if it found zero. */
  lemma CreateSetsUp(s: State, p: Pid) returns (t: State)
    requires Inv(s) && Is(s, p, Locked) && Live(s, p)
    ensures Runs(s, SetUpActs(p, s.val.procs == 0), t, true)
    ensures Inv(t) && Is(t, p, Ready) && Live(t, p) && |Opens(t)| == |Opens(s)|
    ensures t.pc == s.pc[p := At(Ready, s.gen)] && t.gen == s.gen
  {
    t := CreateReads(s, p);
    hide Inv, Runs, Opens, DoGetVal;
    if s.val.procs == 0 {
      var u := t;
      t := CreateInitialises(u, p);
      RunsAppend(s, [GetVal(p)], u, [SetValue(p), SetCounter(p)], t, true);
      assert [GetVal(p)] + [SetValue(p), SetCounter(p)] == SetUpActs(p, true);
    }
  }

  /** The last semop(): the caller is counted and the lock is free. */
  lemma CreateEnds(s: State, p: Pid) returns (t: State)
    requires Inv(s) && Is(s, p, Ready) && Live(s, p)
    ensures Runs(s, EndActs(p), t, true)
    ensures Inv(t) && Is(t, p, Open) && t.live && t.gen == s.gen && t.val.lock == 0
    ensures t.pc == s.pc[p := At(Open, s.gen)]
    ensures |Opens(t)| == |Opens(s)| + 1 && t.val.procs == BIGCOUNT - |Opens(t)|
  {
    LockerIsAlone(s, p);
    assert PlaceAgrees(Sum(s), s.pc[p]);
    EndCreateMeans(s.val, AdjOf(s, p));
    t := DoEndCreate(s, p);
    EndCreateKeeps(s, p);
    CountsAfter(s, p, t);
    RunsOne(s, EndCreate(p), true);
  }

  lemma CreateRuns(s: State, p: Pid, a: State, b: State, c: State, t: State, initialise: bool)
    requires PcOf(s, p) == Out && a == DoSemGet(s, p) && PcOf(a, p).At? && b == DoTryLock(a, p)
    requires |Opens(a)| < BIGCOUNT && Is(a, p, Got)
    requires Runs(b, SetUpActs(p, initialise), c, true) && Runs(c, EndActs(p), t, true)
    ensures Runs(s, CreateActs(p, initialise), t, true)
  {
    RunsTwo(s, SemGet(p), TryLock(p));
    RunsThree(s, LockActs(p), b, SetUpActs(p, initialise), c, EndActs(p), t, true);
  }

  /** With the lock free, the steps of one create alone lead to an open process on a
      set whose counters are exact. */
  lemma CreateSucceeds(s: State, p: Pid) returns (t: State)
    requires Inv(s) && PcOf(s, p) == Out && |Opens(s)| < BIGCOUNT && (s.live ==> s.val.lock == 0)
    ensures Runs(s, CreateActs(p, !s.live || s.val.procs == 0), t, true)
    ensures Inv(t) && t.live && Is(t, p, Open) && t.val.lock == 0
    ensures t.pc == s.pc[p := At(Open, t.gen)] && t.gen == (if s.live then s.gen else s.gen + 1)
    ensures |Opens(t)| == |Opens(s)| + 1 && t.val.procs == BIGCOUNT - |Opens(t)|
  {
    hide *;
    var a, b := CreateLocks(s, p);
    var c := CreateSetsUp(b, p);
    t := CreateEnds(c, p);
    CreateRuns(s, p, a, b, c, t, b.val.procs == 0);
  }

  /** A process may die at any point of a create or a close: the lock is free again
      and the next create, running alone, succeeds. */
  lemma RecoversFromDeath(t: State, p: Pid, q: Pid) returns (u: State)
    requires Reachable(t) && p in Lockers(t)
    requires PcOf(Next(t, Die(p)), q) == Out && |Opens(Next(t, Die(p)))| < BIGCOUNT
    ensures exists initialise :: Runs(Next(t, Die(p)), CreateActs(q, initialise), u, true)
    ensures Reachable(u) && u.live && Is(u, q, Open) && u.val.procs == BIGCOUNT - |Opens(u)|
  {
    ReachableInv(t);
    LockerIsAlone(t, p);
    DieKeeps(t, p);
    u := CreateSucceeds(DoDie(t, p), q);
    var s, before :| Initial(s) && Runs(s, before, t, true);
    ReachesFurther(s, before, t, p, CreateActs(q, !t.live || DoDie(t, p).val.procs == 0), u);
    IsReachable(s, before + [Die(p)] + CreateActs(q, !t.live || DoDie(t, p).val.procs == 0), u);
  }

  lemma ReachesFurther(s: State, before: seq<Action>, t: State, p: Pid, acts: seq<Action>, u: State)
    requires Runs(s, before, t, true) && PcOf(t, p).At? && Runs(DoDie(t, p), acts, u, true)
    ensures Runs(s, before + [Die(p)] + acts, u, true)
  {
    assert Runs(t, [Die(p)], DoDie(t, p), true) by {
      RunsOne(t, Die(p), true);
    }
    hide *;
    RunsThree(s, before, t, [Die(p)], DoDie(t, p), acts, u, true);
  }

  lemma IsReachable(s: State, acts: seq<Action>, t: State)
    requires Initial(s) && Runs(s, acts, t, true)
    ensures Reachable(t)
  {
    hide Runs;
  }

  // ---------- Where the protocol stops working ----------

  /** A create that gets the lock on a set in use finds [1] zero, and goes on to
      overwrite [0] and [1], exactly when BIGCOUNT processes are open. */
  lemma OverwritesExactlyAtTheBound(t: State, p: Pid)
    requires Reachable(t) && Is(t, p, Got) && Live(t, p) && t.val.lock == 0 && Opens(t) != {}
    ensures
      var u := DoGetVal(DoTryLock(t, p), p);
      Is(u, p, Fresh) <==> |Opens(t)| == 31
  {
    ReachableInv(t);
    LockMeans(t.val, AdjOf(t, p));
    assert |Opens(t)| != 0;
  }

  /** The bound is met: BIGCOUNT creates one after the other bring [1] back to zero. */
  lemma {:induction false} ManyOpen(n: nat) returns (s: State, acts: seq<Action>, t: State)
    requires n <= BIGCOUNT
    ensures Initial(s) && Runs(s, acts, t, true) && Inv(t) && |Opens(t)| == n
    ensures n > 0 ==> t.live && t.val.lock == 0 && t.val.procs == BIGCOUNT - n
    ensures n == 0 ==> !t.live
    ensures forall p: Pid :: p >= n ==> PcOf(t, p) == Out
  {
    hide *;
    if n == 0 {
      s := NobodyYet();
      acts, t := [], s;
    } else {
      var u;
      s, acts, u := ManyOpen(n - 1);
      t := CreateSucceeds(u, n - 1);
      var more := CreateActs(n - 1, !u.live || u.val.procs == 0);
      RunsAppend(s, acts, u, more, t, true);
      acts := acts + more;
      OnlyOneMore(u, n - 1, t);
    }
  }

  lemma NobodyYet() returns (s: State)
    ensures Initial(s) && Runs(s, [], s, true) && Inv(s) && |Opens(s)| == 0 && !s.live
    ensures forall p: Pid :: PcOf(s, p) == Out
  {
    s := State(false, 0, ZERO, map[], map[]);
    assert Opens(s) == {};
  }

  lemma OnlyOneMore(s: State, n: nat, t: State)
    requires t.pc == s.pc[n := At(Open, t.gen)]
    requires forall p: Pid :: p >= n ==> PcOf(s, p) == Out
    ensures forall p: Pid :: p >= n + 1 ==> PcOf(t, p) == Out
  {
    forall p: Pid | p >= n + 1 ensures PcOf(t, p) == Out {
      assert PcOf(s, p) == Out;
    }
  }

  /** A create asleep on the lock when the last user removes the set ends up with the
      identifier of a removed set; one that has not called semop() yet starts again. */
  lemma SleepingCreateIsStranded(t: State, p: Pid, q: Pid)
    requires Reachable(t) && Enabled(t, Remove(p)) && Live(t, q) && (Is(t, q, Waiting) || Is(t, q, Got))
    ensures
      var u := Next(t, Remove(p));
      if Is(t, q, Got) then PcOf(DoTryLock(u, q), q) == Out
      else CanWake(u, q) && Is(DoWakeLock(u, q), q, Borrowed) && !Live(DoWakeLock(u, q), q)
  {
    var u := Next(t, Remove(p));
    assert PcOf(u, q) == PcOf(t, q);
  }

  /** The only open process closes, and finds that it is the last. */
  lemma OneCloses(a: State, p: Pid) returns (b: State)
    requires Inv(a) && Is(a, p, Open) && Live(a, p) && a.val.lock == 0 && |Opens(a)| == 1
    ensures Runs(a, [CloseLock(p), CloseGetVal(p)], b, true) && Inv(b) && Is(b, p, Last) && Live(b, p) && b.val.lock == 1
    ensures b.pc == a.pc[p := At(Last, a.gen)] && |Opens(b)| == 0
  {
    CloseMeansNotBlocked(a, p);
    CloseDecision(a, p);
    CloseLockKeeps(a, p);
    var u := DoCloseLock(a, p);
    CloseGetValKeeps(u, p);
    b := DoCloseGetVal(u, p);
    RunsTwo(a, CloseLock(p), CloseGetVal(p));
    LockerIsAlone(b, p);
    assert PlaceAgrees(Sum(b), b.pc[p]);
    hide Inv, Runs, Try;
  }

  /** Another process begins a create and falls asleep on the lock. */
  lemma OneSleeps(b: State, p: Pid) returns (t: State)
    requires b.live && b.val.lock == 1 && PcOf(b, p) == Out && |Opens(b)| < BIGCOUNT
    ensures Runs(b, [SemGet(p), TryLock(p)], t, true) && t == Go(DoSemGet(b, p), p, Waiting)
  {
    var u := DoSemGet(b, p);
    SameSize(b, p, u);
    hide Semop;
    LockMeans(u.val, AdjOf(u, p));
    t := DoTryLock(u, p);
    RunsTwo(b, SemGet(p), TryLock(p));
  }

  /** Such a state can be reached: process 0 is about to remove the set that process 1
      is asleep on, and process 1 then wakes up with the removed identifier. */
  lemma StrandedCreate() returns (t: State)
    ensures Reachable(t) && Enabled(t, Remove(0)) && Is(t, 1, Waiting) && Live(t, 1)
    ensures
      var u := Next(t, Remove(0));
      CanWake(u, 1) && Is(DoWakeLock(u, 1), 1, Borrowed) && !Live(DoWakeLock(u, 1), 1)
  {
    t := AsleepAtRemoval();
    hide Reachable;
    SleepingCreateIsStranded(t, 0, 1);
  }

  lemma AsleepAtRemoval() returns (t: State)
    ensures Reachable(t) && Enabled(t, Remove(0)) && Is(t, 1, Waiting) && Live(t, 1)
  {
    hide Inv, Runs, Opens, CreateActs, Reachable;
    var s := NobodyYet();
    var a := CreateSucceeds(s, 0);
    var b := OneCloses(a, 0);
    t := OneSleeps(b, 1);
    RunsThree(s, CreateActs(0, !s.live || s.val.procs == 0), a, [CloseLock(0), CloseGetVal(0)], b, [SemGet(1), TryLock(1)], t, true);
    IsReachable(s, CreateActs(0, !s.live || s.val.procs == 0) + [CloseLock(0), CloseGetVal(0)] + [SemGet(1), TryLock(1)], t);
  }

  /** A forked child that runs sem_close takes the set away from the process that
      opened it: the child's close finds BIGCOUNT in [1] while its parent is open. */
  lemma ForkedCloseRemoves(t: State, p: Pid, c: Pid)
    requires Reachable(t) && Opens(t) == {p} && Is(t, p, Open) && Live(t, p) && t.val.lock == 0 && PcOf(t, c) == Out
    ensures
      var f := DoFork(t, p, c);
      Live(f, c) && CanCloseLock(f, c) && Is(AfterClose(f, c), c, Last) && PcOf(AfterClose(f, c), p) == PcOf(f, p)
  {
    ReachableInv(t);
    hide *;
    var f := ForkJoins(t, p, c);
    CloseMeansNotBlocked(f, c);
    CloseDecision(f, c);
    CloseLeavesOthers(f, c, p);
  }

  lemma ForkJoins(t: State, p: Pid, c: Pid) returns (f: State)
    requires Inv(t) && Opens(t) == {p} && Is(t, p, Open) && Live(t, p) && t.val.lock == 0 && PcOf(t, c) == Out
    ensures f == DoFork(t, p, c) && Inv(f) && |Opens(f)| == 1 && Live(f, c) && Is(f, c, Borrowed) && f.val.lock == 0
    ensures Is(f, p, Open) && p != c
  {
    f := DoFork(t, p, c);
    ForkKeeps(t, p, c);
    SameSize(t, c, f);
  }

  lemma CloseLeavesOthers(t: State, p: Pid, q: Pid)
    requires Live(t, p) && CanCloseLock(t, p) && q != p
    ensures PcOf(AfterClose(t, p), q) == PcOf(t, q)
  {
  }

  lemma CloseMeansNotBlocked(t: State, p: Pid)
    requires Inv(t) && Live(t, p) && t.val.lock == 0 && (Is(t, p, Open) || Is(t, p, Borrowed))
    ensures CanCloseLock(t, p)
  {
    CloseMeans(t.val, AdjOf(t, p));
  }
}
