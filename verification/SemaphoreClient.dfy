/** The code of semaphore.h, call by call, while other processes run in between: each
    kernel call of the caller is one step of the protocol machine, and between two calls
    the others do whatever the schedule holds for them. */
module SemaphoreClient {
  import opened SysVSemaphores
  import opened SemaphoreProtocol

  /** A step of another process that leaves `p` where it is. */
  predicate ByOther(a: Action, p: Pid) {
    Actor(a) != p && (a.Fork? ==> a.p != p)
  }

  lemma OthersLeave(s: State, a: Action, p: Pid)
    requires Enabled(s, a) && ByOther(a, p)
    ensures PcOf(Next(s, a), p) == PcOf(s, p)
  {
    StepMoves(s, a);
    hide Enabled, Next, Actor;
  }

  /** The set that `p` uses stays as it is unless the step removes it. */
  lemma OthersLive(s: State, a: Action, p: Pid)
    requires Enabled(s, a) && ByOther(a, p) && PcOf(s, p).At? && PcOf(s, p).id <= s.gen
    ensures Live(Next(s, a), p) <==> Live(s, p) && !a.Remove?
    ensures s.gen <= Next(s, a).gen
  {
    OthersLeave(s, a, p);
    hide Try;
  }

  /** Some step from index `from` on removes the set. */
  predicate Removes(trace: seq<Action>, from: nat) {
    exists i :: from <= i < |trace| && trace[i].Remove?
  }

  lemma RemovesMore(trace: seq<Action>, from: nat, a: Action)
    requires from <= |trace|
    ensures Removes(trace + [a], from) <==> Removes(trace, from) || a.Remove?
  {
    var more := trace + [a];
    assert more[|trace|] == a;
    if i :| from <= i < |trace| && trace[i].Remove? {
      assert more[i] == trace[i];
    }
    if i :| from <= i < |more| && more[i].Remove? {
      assert i < |trace| ==> more[i] == trace[i];
    }
  }

  /** From index `from` on the trace holds steps of others only. */
  predicate OnlyOthers(trace: seq<Action>, from: nat, p: Pid) {
    forall i :: from <= i < |trace| ==> ByOther(trace[i], p)
  }

  /** The steps of `p` itself, in order, among those from index `from` on. */
  function Own(trace: seq<Action>, from: nat, p: Pid): seq<Action>
    decreases |trace|
  {
    if |trace| <= from then []
    else
      var a := trace[|trace| - 1];
      Own(trace[..|trace| - 1], from, p) + if ByOther(a, p) then [] else [a]
  }

  lemma OwnNone(trace: seq<Action>, p: Pid)
    ensures Own(trace, |trace|, p) == []
  {
  }

  lemma OwnMore(trace: seq<Action>, from: nat, p: Pid, a: Action)
    requires from <= |trace|
    ensures Own(trace + [a], from, p) == Own(trace, from, p) + if ByOther(a, p) then [] else [a]
  {
    assert (trace + [a])[..|trace|] == trace;
    hide ByOther;
  }

  lemma {:induction false} OwnAfterOthers(before: seq<Action>, trace: seq<Action>, from: nat, p: Pid)
    requires before <= trace && from <= |before| && OnlyOthers(trace, |before|, p)
    ensures Own(trace, from, p) == Own(before, from, p)
    decreases |trace|
  {
    if |trace| == |before| {
      assert trace == before;
    } else {
      var n := |trace| - 1;
      assert trace == trace[..n] + [trace[n]];
      assert trace[..n][..|before|] == before;
      OwnAfterOthers(before, trace[..n], from, p);
      OwnMore(trace[..n], from, p, trace[n]);
    }
  }

  /** The steps of two calls in a row. */
  lemma {:induction false} OwnJoined(before: seq<Action>, trace: seq<Action>, from: nat, p: Pid)
    requires before <= trace && from <= |before|
    ensures Own(trace, from, p) == Own(before, from, p) + Own(trace, |before|, p)
    decreases |trace|
  {
    if |trace| == |before| {
      assert trace == before;
      OwnNone(trace, p);
    } else {
      var n := |trace| - 1;
      assert trace == trace[..n] + [trace[n]];
      assert trace[..n][..|before|] == before;
      OwnJoined(before, trace[..n], from, p);
      OwnMore(trace[..n], from, p, trace[n]);
      OwnMore(trace[..n], |before|, p, trace[n]);
      hide Own, ByOther;
    }
  }

  lemma OwnOthers(before: seq<Action>, trace: seq<Action>, p: Pid)
    requires before <= trace && OnlyOthers(trace, |before|, p)
    ensures Own(trace, |before|, p) == []
  {
    hide OnlyOthers;
    OwnAfterOthers(before, trace, |before|, p);
    OwnNone(before, p);
  }

  /** `at` is the state in which step `m` of the trace, which is `a`, was made. */
  ghost predicate MadeAt(k: Kernel, m: nat, a: Action, at: State)
    reads k
  {
    m < |k.trace| && k.trace[m] == a && AdmittedRuns(k.first, k.trace[..m], at)
  }

  lemma ByItself(a: Action, p: Pid)
    requires Actor(a) == p || (a.Fork? && a.p == p)
    ensures !ByOther(a, p)
  {
  }

  /** How a call ends: with an identifier, or still asleep when the schedule is over. */
  datatype Result = Returned(id: nat) | Stuck

  class Kernel {
    var s: State
    /** What the other processes try, between one call of the running process and the next. */
    var schedule: seq<seq<Action>>
    /** `op_op`, whose amount sem_op stores before every call. */
    const opOp: array<Sembuf>
    ghost const first: State
    ghost var trace: seq<Action>

    /** Everything so far was done from an initial state, by processes that begin a create
        only while there is room. */
    ghost predicate Valid()
      reads this
    {
      opOp.Length == 1 && Initial(first) && AdmittedRuns(first, trace, s)
    }

    constructor (schedule: seq<seq<Action>>)
      ensures Valid() && s == first && this.schedule == schedule && trace == [] && fresh(opOp)
    {
      var nobody := State(false, 0, ZERO, map[], map[]);
      s, first, trace := nobody, nobody, [];
      this.schedule := schedule;
      opOp := new Sembuf[1](_ => Sembuf(0, 99, true));
    }

    lemma Known()
      requires Valid()
      ensures Inv(s) && Room(s) && Reachable(s)
    {
      hide AdmittedRuns, Initial, Reachable, Inv;
      AdmittedRunsReach(first, trace, s);
      ReachableInv(s);
    }

    lemma KnownPlace(p: Pid)
      requires Valid()
      ensures PcOf(s, p).At? ==> PcOf(s, p).id <= s.gen
    {
      Known();
      assert PcOf(s, p).At? ==> PlaceAgrees(Sum(s), s.pc[p]);
    }

    /** One kernel call. */
    method Do(a: Action)
      requires Valid() && Enabled(s, a) && Admits(s, a)
      modifies `s, `trace
      ensures Valid() && s == Next(old(s), a) && trace == old(trace) + [a]
    {
      hide AdmittedRuns, Enabled, Admits, Next, Initial;
      AdmittedMore(first, trace, s, a);
      s, trace := Next(s, a), trace + [a];
    }

    /** One step that another process tries. */
    method Other(p: Pid, a: Action)
      requires Valid()
      modifies `s, `trace
      ensures Valid() && PcOf(s, p) == old(PcOf(s, p))
      ensures trace == old(trace) || (trace == old(trace) + [a] && ByOther(a, p))
      ensures PcOf(s, p).At? ==> (Live(s, p) <==> old(Live(s, p)) && !(trace == old(trace) + [a] && a.Remove?))
    {
      hide Enabled, Admits, Next, AdmittedRuns, Initial, PcOf, ByOther, Live;
      if ByOther(a, p) && Enabled(s, a) && Admits(s, a) {
        OthersLeave(s, a, p);
        KnownPlace(p);
        if PcOf(s, p).At? {
          OthersLive(s, a, p);
        }
        Do(a);
      }
    }

    /** The others take their turn; what cannot happen at that point is skipped. */
    method Others(p: Pid)
      requires Valid()
      modifies `s, `trace, `schedule
      ensures Valid() && PcOf(s, p) == old(PcOf(s, p))
      ensures old(trace) <= trace && OnlyOthers(trace, |old(trace)|, p)
      ensures PcOf(s, p).At? ==> (Live(s, p) <==> old(Live(s, p)) && !Removes(trace, |old(trace)|))
      ensures if old(schedule) == [] then schedule == [] && s == old(s) && trace == old(trace) else schedule == old(schedule)[1..]
    {
      if schedule != [] {
        var turn := schedule[0];
        schedule := schedule[1..];
        for i := 0 to |turn|
          invariant Valid() && PcOf(s, p) == old(PcOf(s, p)) && schedule == old(schedule)[1..]
          invariant old(trace) <= trace && OnlyOthers(trace, |old(trace)|, p)
          invariant PcOf(s, p).At? ==> (Live(s, p) <==> old(Live(s, p)) && !Removes(trace, |old(trace)|))
        {
          hide AdmittedRuns, Initial, PcOf, ByOther, Live, Removes;
          RemovesMore(trace, |old(trace)|, turn[i]);
          Other(p, turn[i]);
        }
      }
    }
  }

  lemma {:induction false} AdmittedMore(s: State, acts: seq<Action>, t: State, a: Action)
    requires AdmittedRuns(s, acts, t) && Enabled(t, a) && Admits(t, a)
    ensures AdmittedRuns(s, acts + [a], Next(t, a))
    decreases |acts|
  {
    if acts == [] {
      assert acts + [a] == [a] && [a][1..] == [];
    } else {
      assert (acts + [a])[0] == acts[0] && (acts + [a])[1..] == acts[1..] + [a];
      hide Enabled, Admits, Next;
      AdmittedMore(Next(s, acts[0]), acts[1..], t, a);
    }
  }

  // ---------- What a process may rely on between its own calls ----------

  lemma InsideIsLive(s: State, p: Pid)
    requires Inv(s) && (IsLocker(PcOf(s, p)) || IsOpen(PcOf(s, p)))
    ensures Live(s, p)
  {
    assert PlaceAgrees(Sum(s), s.pc[p]);
  }

  lemma Inside(k: Kernel, p: Pid)
    requires k.Valid() && (IsLocker(PcOf(k.s, p)) || IsOpen(PcOf(k.s, p)))
    ensures Live(k.s, p)
  {
    k.Known();
    InsideIsLive(k.s, p);
  }

  lemma ReadyCanEnd(s: State, p: Pid)
    requires Inv(s) && Is(s, p, Ready)
    ensures CanEndCreate(s, p)
  {
    LockerIsAlone(s, p);
    assert PlaceAgrees(Sum(s), s.pc[p]);
    EndCreateMeans(s.val, AdjOf(s, p));
  }

  lemma UnlockerCanUnlock(s: State, p: Pid)
    requires Inv(s) && Is(s, p, Unlocking)
    ensures CanUnlock(s, p)
  {
    LockerIsAlone(s, p);
    InsideIsLive(s, p);
    UnlockMeans(s.val, AdjOf(s, p));
  }

  lemma NeverOverflows(s: State, p: Pid)
    requires Inv(s) && Is(s, p, Closing)
    ensures !Is(DoCloseGetVal(s, p), p, Overflow)
    ensures Is(DoCloseGetVal(s, p), p, Last) <==> |Opens(s)| == 0
  {
    assert PlaceAgrees(Sum(s), s.pc[p]);
    InsideIsLive(s, p);
  }

  // ---------- sem_create ----------

  /** From index `from` on, the set was removed while `p` slept in the first semop() of a
      create: between falling asleep and waking up. */
  ghost predicate RemovedAsleep(trace: seq<Action>, from: nat, p: Pid) {
    exists i, j, m :: from <= i < j < m < |trace| && AsleepFrom(trace, i, m, p) && trace[j].Remove?
  }

  predicate AsleepFrom(trace: seq<Action>, i: nat, m: nat, p: Pid) {
    i < m < |trace| && trace[i] == TryLock(p) && trace[m] == WakeLock(p) && forall n :: i < n < m ==> ByOther(trace[n], p)
  }

  predicate NeverWakes(trace: seq<Action>, from: nat, p: Pid) {
    forall n :: from <= n < |trace| ==> trace[n] != WakeLock(p)
  }

  /** With one sleep in the trace, only its removals count. */
  lemma OneSleep(trace: seq<Action>, from: nat, i: nat, m: nat, p: Pid)
    requires from <= i && AsleepFrom(trace, i, m, p)
    requires forall n :: from <= n < |trace| && n != m ==> trace[n] != WakeLock(p)
    ensures RemovedAsleep(trace, from, p) <==> exists j :: i < j < m && trace[j].Remove?
  {
    if RemovedAsleep(trace, from, p) {
      var i2, j, m2 :| from <= i2 < j < m2 < |trace| && AsleepFrom(trace, i2, m2, p) && trace[j].Remove?;
      assert m2 == m;
      SameSleep(trace, i, i2, m, p);
      assert i < j < m && trace[j].Remove?;
    }
    if j :| i < j < m && trace[j].Remove? {
      assert from <= i < j < m < |trace|;
    }
  }

  lemma SameSleep(trace: seq<Action>, i: nat, i2: nat, m: nat, p: Pid)
    requires AsleepFrom(trace, i, m, p) && AsleepFrom(trace, i2, m, p)
    ensures i == i2
  {
    assert !ByOther(trace[i], p) && !ByOther(trace[i2], p);
  }

  /** The sleep in the first semop(): over when the lock is free or the set is removed. */
  method AwaitLock(k: Kernel, p: Pid) returns (woken: bool)
    requires k.Valid() && Is(k.s, p, Waiting) && Live(k.s, p)
    modifies k
    ensures k.Valid() && old(k.trace) <= k.trace
    ensures woken ==> |k.trace| > |old(k.trace)| && k.trace[|k.trace| - 1] == WakeLock(p)
    ensures woken ==> OnlyOthers(k.trace[..|k.trace| - 1], |old(k.trace)|, p)
    ensures woken ==> if Removes(k.trace, |old(k.trace)|) then Is(k.s, p, Borrowed) && !Live(k.s, p) else Is(k.s, p, Locked) && Live(k.s, p)
    ensures !woken ==> Is(k.s, p, Waiting) && k.schedule == [] && !CanWake(k.s, p)
    ensures Own(k.trace, |old(k.trace)|, p) == if woken then [WakeLock(p)] else []
  {
    hide Removes, ByOther, Own;
    ghost var n := |k.trace|;
    NothingRemoved(k.trace, n);
    while !CanWake(k.s, p)
      invariant k.Valid() && Is(k.s, p, Waiting) && old(k.trace) <= k.trace && OnlyOthers(k.trace, n, p)
      invariant Live(k.s, p) <==> !Removes(k.trace, n)
      decreases |k.schedule|
    {
      if k.schedule == [] {
        OwnOthers(old(k.trace), k.trace, p);
        return false;
      }
      ghost var before := k.trace;
      k.Others(p);
      RemovesApart(before, k.trace, n);
    }
    WakeNext(k.s, p);
    RemovesMore(k.trace, n, WakeLock(p));
    ghost var before := k.trace;
    OwnOthers(old(k.trace), k.trace, p);
    ByItself(WakeLock(p), p);
    OwnMore(k.trace, n, p, WakeLock(p));
    k.Do(WakeLock(p));
    assert k.trace[..|k.trace| - 1] == before;
    return true;
  }

  lemma NothingRemoved(trace: seq<Action>, n: nat)
    requires n == |trace|
    ensures !Removes(trace, n) && OnlyOthers(trace, n, 0)
  {
  }

  lemma RemovesApart(before: seq<Action>, trace: seq<Action>, n: nat)
    requires before <= trace && n <= |before|
    ensures Removes(trace, n) <==> Removes(before, n) || Removes(trace, |before|)
  {
    if i :| n <= i < |before| && before[i].Remove? {
      assert trace[i] == before[i];
    }
    if i :| n <= i < |trace| && trace[i].Remove? {
      assert i < |before| ==> before[i] == trace[i];
    }
  }

  lemma WakeNext(s: State, p: Pid)
    requires CanWake(s, p)
    ensures Enabled(s, WakeLock(p)) && Admits(s, WakeLock(p))
    ensures
      var t := Next(s, WakeLock(p));
      if Live(s, p) then Is(t, p, Locked) && Live(t, p) else Is(t, p, Borrowed) && !Live(t, p)
  {
    hide Try;
  }

  lemma GetValNext(s: State, p: Pid)
    requires Is(s, p, Locked) && Live(s, p)
    ensures Enabled(s, GetVal(p)) && Admits(s, GetVal(p))
    ensures Is(Next(s, GetVal(p)), p, Fresh) || Is(Next(s, GetVal(p)), p, Ready)
  {
  }

  lemma SetValueNext(s: State, p: Pid)
    requires Is(s, p, Fresh) && Live(s, p)
    ensures Enabled(s, SetValue(p)) && Admits(s, SetValue(p)) && Is(Next(s, SetValue(p)), p, Half)
  {
  }

  lemma SetCounterNext(s: State, p: Pid)
    requires Is(s, p, Half) && Live(s, p)
    ensures Enabled(s, SetCounter(p)) && Admits(s, SetCounter(p)) && Is(Next(s, SetCounter(p)), p, Ready)
  {
  }

  lemma EndCreatePlace(s: State, p: Pid)
    requires CanEndCreate(s, p)
    ensures Enabled(s, EndCreate(p)) && Admits(s, EndCreate(p)) && Is(Next(s, EndCreate(p)), p, Open)
  {
    hide Try;
  }

  lemma EndCreateNext(s: State, p: Pid)
    requires Inv(s) && Is(s, p, Ready)
    ensures Enabled(s, EndCreate(p)) && Admits(s, EndCreate(p)) && Is(Next(s, EndCreate(p)), p, Open)
  {
    hide *;
    ReadyCanEnd(s, p);
    EndCreatePlace(s, p);
  }

  lemma StillNever(before: seq<Action>, trace: seq<Action>, n: nat, p: Pid)
    requires before <= trace && n <= |before| && NeverWakes(before, n, p) && OnlyOthers(trace, |before|, p)
    ensures NeverWakes(trace, n, p)
  {
    forall m | n <= m < |trace| ensures trace[m] != WakeLock(p) {
      assert m < |before| ==> before[m] == trace[m];
    }
  }

  lemma NeverMore(trace: seq<Action>, n: nat, p: Pid, a: Action)
    requires NeverWakes(trace, n, p) && !a.WakeLock?
    ensures NeverWakes(trace + [a], n, p)
  {
  }

  /** One call of the running process, after which the others take their turn. */
  method Call(k: Kernel, p: Pid, a: Action)
    requires k.Valid() && Enabled(k.s, a) && Admits(k.s, a) && !a.WakeLock? && !ByOther(a, p)
    modifies k
    ensures k.Valid() && PcOf(k.s, p) == PcOf(Next(old(k.s), a), p)
    ensures old(k.trace) <= k.trace && NeverWakes(k.trace, |old(k.trace)|, p)
    ensures if old(k.schedule) == [] then k.s == Next(old(k.s), a) else |k.schedule| < |old(k.schedule)|
    ensures Own(k.trace, |old(k.trace)|, p) == [a] && MadeAt(k, |old(k.trace)|, a, old(k.s))
  {
    hide Enabled, Admits, Next, Live, AdmittedRuns, Initial, PcOf, NeverWakes, OnlyOthers, Own, ByOther;
    ghost var n := |k.trace|;
    OwnNone(k.trace, p);
    OwnMore(k.trace, n, p, a);
    NeverWokenYet(k.trace, p);
    NeverMore(k.trace, n, p, a);
    k.Do(a);
    ghost var before := k.trace;
    k.Others(p);
    StillNever(before, k.trace, n, p);
    OwnAfterOthers(before, k.trace, n, p);
    assert k.trace[..n] == old(k.trace);
  }

  lemma NeverWokenYet(trace: seq<Action>, p: Pid)
    ensures NeverWakes(trace, |trace|, p)
  {
  }

  lemma NeverJoined(before: seq<Action>, trace: seq<Action>, n: nat, p: Pid)
    requires before <= trace && n <= |before| && NeverWakes(before, n, p) && NeverWakes(trace, |before|, p)
    ensures NeverWakes(trace, n, p)
  {
    forall m | n <= m < |trace| ensures trace[m] != WakeLock(p) {
      assert m < |before| ==> before[m] == trace[m];
    }
  }

  /** The two SETVALs. */
  method Initialise(k: Kernel, p: Pid)
    requires k.Valid() && Is(k.s, p, Fresh)
    modifies k
    ensures k.Valid() && Is(k.s, p, Ready)
    ensures old(k.trace) <= k.trace && NeverWakes(k.trace, |old(k.trace)|, p)
    ensures Own(k.trace, |old(k.trace)|, p) == [SetValue(p), SetCounter(p)]
  {
    hide Enabled, Admits, Next, Live, AdmittedRuns, Initial, NeverWakes, Own;
    Inside(k, p);
    SetValueNext(k.s, p);
    Call(k, p, SetValue(p));
    ghost var before := k.trace;
    Inside(k, p);
    SetCounterNext(k.s, p);
    Call(k, p, SetCounter(p));
    NeverJoined(before, k.trace, |old(k.trace)|, p);
    OwnJoined(before, k.trace, |old(k.trace)|, p);
  }

  /** What a create does once it has the lock. */
  function SetUpSteps(p: Pid, zero: bool): seq<Action> {
    [GetVal(p)] + (if zero then [SetValue(p), SetCounter(p)] else []) + [EndCreate(p)]
  }

  lemma GetValReads(s: State, p: Pid)
    requires Is(s, p, Locked) && Live(s, p)
    ensures Is(Next(s, GetVal(p)), p, Fresh) <==> s.val.procs == 0
  {
  }

  /** From the lock to the end of the create: [0] and [1] are set exactly if [1] is read
      as zero, in the state `at` of step `m`. */
  method CompleteCreate(k: Kernel, p: Pid) returns (ghost m: nat, ghost at: State)
    requires k.Valid() && Is(k.s, p, Locked)
    modifies k
    ensures k.Valid() && Is(k.s, p, Open) && Live(k.s, p)
    ensures old(k.trace) <= k.trace && NeverWakes(k.trace, |old(k.trace)|, p)
    ensures |old(k.trace)| <= m && MadeAt(k, m, GetVal(p), at)
    ensures Own(k.trace, |old(k.trace)|, p) == SetUpSteps(p, at.val.procs == 0)
  {
    hide Inv, Next, Enabled, Admits, Live, AdmittedRuns, Initial, NeverWakes, Own, ByOther;
    ghost var n := |k.trace|;
    m, at := n, k.s;
    Inside(k, p);
    GetValNext(k.s, p);
    GetValReads(k.s, p);
    ByItself(GetVal(p), p);
    Call(k, p, GetVal(p));
    ghost var got := k.trace;
    if Is(k.s, p, Fresh) {
      Initialise(k, p);
      NeverJoined(got, k.trace, n, p);
      OwnJoined(got, k.trace, n, p);
    }
    assert Own(k.trace, n, p) == [GetVal(p)] + if at.val.procs == 0 then [SetValue(p), SetCounter(p)] else [];
    k.Known();
    EndCreateNext(k.s, p);
    NeverMore(k.trace, n, p, EndCreate(p));
    ByItself(EndCreate(p), p);
    OwnMore(k.trace, n, p, EndCreate(p));
    assert k.trace[..m] == old(k.trace);
    k.Do(EndCreate(p));
    assert k.trace[..m] == old(k.trace);
    Inside(k, p);
  }

  lemma SemGetNext(s: State, p: Pid)
    requires PcOf(s, p) == Out && |Opens(s)| + |Creators(s)| < BIGCOUNT
    ensures Enabled(s, SemGet(p)) && Admits(s, SemGet(p))
    ensures Is(Next(s, SemGet(p)), p, Got) && Live(Next(s, SemGet(p)), p)
  {
  }

  /** The first semop(): on a removed set the create is back at the start, with room. */
  lemma TryLockNext(s: State, p: Pid)
    requires Is(s, p, Got) && Room(s)
    ensures Enabled(s, TryLock(p)) && Admits(s, TryLock(p))
    ensures
      var t := Next(s, TryLock(p));
      if Live(s, p) then (Is(t, p, Locked) || Is(t, p, Waiting)) && Live(t, p)
      else PcOf(t, p) == Out && |Opens(t)| + |Creators(t)| < BIGCOUNT
  {
    hide Try;
    if !Live(s, p) {
      CreatorsAfter(s, p, DoTryLock(s, p));
    }
  }

  /** semget() and the attempt to lock. On a set that is removed in between, the create
      has to start again. */
  method GetAndTry(k: Kernel, p: Pid) returns (again: bool)
    requires k.Valid() && PcOf(k.s, p) == Out && |Opens(k.s)| + |Creators(k.s)| < BIGCOUNT
    modifies k
    ensures k.Valid() && old(k.trace) <= k.trace && NeverWakes(k.trace, |old(k.trace)|, p)
    ensures |k.trace| > |old(k.trace)| && k.trace[|k.trace| - 1] == TryLock(p)
    ensures again ==> PcOf(k.s, p) == Out && |Opens(k.s)| + |Creators(k.s)| < BIGCOUNT && |k.schedule| < |old(k.schedule)|
    ensures !again ==> (Is(k.s, p, Locked) || Is(k.s, p, Waiting)) && Live(k.s, p)
    ensures Own(k.trace, |old(k.trace)|, p) == [SemGet(p), TryLock(p)]
  {
    hide Inv, Next, Enabled, Admits, AdmittedRuns, Initial, NeverWakes, Opens, Creators, Live, Own, ByOther;
    ByItself(SemGet(p), p);
    ByItself(TryLock(p), p);
    SemGetNext(k.s, p);
    Call(k, p, SemGet(p));
    k.Known();
    TryLockNext(k.s, p);
    NeverMore(k.trace, |old(k.trace)|, p, TryLock(p));
    OwnMore(k.trace, |old(k.trace)|, p, TryLock(p));
    again := !Live(k.s, p);
    k.Do(TryLock(p));
  }

  lemma NeverAsleep(trace: seq<Action>, n: nat, p: Pid)
    requires NeverWakes(trace, n, p)
    ensures !RemovedAsleep(trace, n, p)
  {
  }

  /** One sleep, seen in the whole trace of a call. */
  lemma SleptOnce(trace: seq<Action>, n: nat, asleep: nat, awake: nat, p: Pid)
    requires n < asleep < awake <= |trace| && NeverWakes(trace[..asleep], n, p) && NeverWakes(trace, awake, p)
    requires trace[asleep - 1] == TryLock(p) && trace[awake - 1] == WakeLock(p)
    requires OnlyOthers(trace[..awake - 1], asleep, p)
    ensures RemovedAsleep(trace, n, p) <==> Removes(trace[..awake], asleep)
  {
    var i, m := asleep - 1, awake - 1;
    assert forall k :: 0 <= k < asleep ==> trace[..asleep][k] == trace[k];
    assert forall k :: 0 <= k < m ==> trace[..m][k] == trace[k];
    assert forall k :: 0 <= k < awake ==> trace[..awake][k] == trace[k];
    forall k | n <= k < |trace| && k != m ensures trace[k] != WakeLock(p) {
      assert asleep <= k < m ==> ByOther(trace[k], p);
    }
    hide RemovedAsleep, ByOther;
    OneSleep(trace, n, i, m, p);
    if j :| i < j < m && trace[j].Remove? {
      assert asleep <= j < awake && trace[..awake][j].Remove?;
    }
    if Removes(trace[..awake], asleep) {
      var j :| asleep <= j < awake && trace[..awake][j].Remove?;
      assert i < j < m && trace[j].Remove?;
    }
  }

  /** The rest of a create that fell asleep on the lock. */
  method SleepThenCreate(k: Kernel, p: Pid, ghost n: nat) returns (woken: bool, ghost m: nat, ghost at: State)
    requires k.Valid() && Is(k.s, p, Waiting) && Live(k.s, p)
    requires n < |k.trace| && k.trace[|k.trace| - 1] == TryLock(p) && NeverWakes(k.trace, n, p)
    modifies k
    ensures k.Valid() && old(k.trace) <= k.trace
    ensures woken ==> if Live(k.s, p) then Is(k.s, p, Open) else Is(k.s, p, Borrowed)
    ensures woken ==> (!Live(k.s, p) <==> RemovedAsleep(k.trace, n, p))
    ensures woken && Live(k.s, p) ==> |old(k.trace)| <= m && MadeAt(k, m, GetVal(p), at)
    ensures !woken ==> Is(k.s, p, Waiting) && k.schedule == [] && !CanWake(k.s, p)
    ensures Own(k.trace, |old(k.trace)|, p) ==
      if !woken then [] else [WakeLock(p)] + if Live(k.s, p) then SetUpSteps(p, at.val.procs == 0) else []
  {
    hide Inv, AdmittedRuns, Initial, NeverWakes, OnlyOthers, Removes, RemovedAsleep, Live, Own, CanWake, SetUpSteps;
    ghost var asleep := |k.trace|;
    m, at := 0, k.s;
    woken := AwaitLock(k, p);
    if woken {
      ghost var awake, waking := |k.trace|, k.trace;
      NeverWokenYet(k.trace, p);
      if Is(k.s, p, Locked) {
        m, at := CompleteCreate(k, p);
        OwnJoined(waking, k.trace, asleep, p);
      }
      assert k.trace[..awake] == waking && k.trace[..asleep] == old(k.trace) && k.trace[..awake - 1] == waking[..awake - 1];
      SleptOnce(k.trace, n, asleep, awake, p);
    }
  }

  /** The attempts of a create whose set was removed before the lock was tried. */
  function Retries(p: Pid, n: nat): seq<Action> {
    if n == 0 then [] else Retries(p, n - 1) + [SemGet(p), TryLock(p)]
  }

  /** sem_create, begun while there is room. It returns a set that the caller has opened,
      or else the identifier of a removed set, and the latter exactly when the set was
      removed while the caller slept in the first semop(). What it does itself is some
      attempts, one of which gets the lock or sleeps, and then the set-up steps. */
  method SemCreate(k: Kernel, p: Pid) returns (r: Result, ghost retries: nat, ghost slept: bool, ghost m: nat, ghost at: State)
    requires k.Valid() && PcOf(k.s, p) == Out && |Opens(k.s)| + |Creators(k.s)| < BIGCOUNT
    modifies k
    ensures k.Valid() && old(k.trace) <= k.trace
    ensures r.Returned? ==> PcOf(k.s, p).At? && r.id == PcOf(k.s, p).id
    ensures r.Returned? ==> if Live(k.s, p) then Is(k.s, p, Open) else Is(k.s, p, Borrowed)
    ensures r.Returned? ==> (!Live(k.s, p) <==> RemovedAsleep(k.trace, |old(k.trace)|, p))
    ensures r.Stuck? ==> Is(k.s, p, Waiting) && k.schedule == [] && !CanWake(k.s, p)
    ensures r.Returned? && Live(k.s, p) ==> |old(k.trace)| <= m && MadeAt(k, m, GetVal(p), at)
    ensures
      var locking := Retries(p, retries) + [SemGet(p), TryLock(p)] + if r.Returned? && slept then [WakeLock(p)] else [];
      Own(k.trace, |old(k.trace)|, p) == locking + if r.Returned? && Live(k.s, p) then SetUpSteps(p, at.val.procs == 0) else []
  {
    hide Inv, AdmittedRuns, Initial, NeverWakes, Opens, Creators, RemovedAsleep, Live, Own, CanWake, SetUpSteps;
    ghost var n := |k.trace|;
    NeverWokenYet(k.trace, p);
    OwnNone(k.trace, p);
    retries, slept, m, at := 0, false, 0, k.s;
    while true
      invariant k.Valid() && PcOf(k.s, p) == Out && |Opens(k.s)| + |Creators(k.s)| < BIGCOUNT
      invariant old(k.trace) <= k.trace && NeverWakes(k.trace, n, p)
      invariant Own(k.trace, n, p) == Retries(p, retries)
      decreases |k.schedule|
    {
      ghost var before := k.trace;
      var again := GetAndTry(k, p);
      NeverJoined(before, k.trace, n, p);
      OwnJoined(before, k.trace, n, p);
      if !again {
        before := k.trace;
        slept := Is(k.s, p, Waiting);
        if Is(k.s, p, Waiting) {
          var woken;
          woken, m, at := SleepThenCreate(k, p, n);
          OwnJoined(before, k.trace, n, p);
          if !woken {
            r := Stuck;
            return;
          }
        } else {
          m, at := CompleteCreate(k, p);
          NeverJoined(before, k.trace, n, p);
          OwnJoined(before, k.trace, n, p);
          NeverAsleep(k.trace, n, p);
        }
        r := Returned(PcOf(k.s, p).id);
        return;
      }
      retries := retries + 1;
    }
  }

  // ---------- sem_close ----------

  lemma CloseLockNext(s: State, p: Pid)
    requires Is(s, p, Open) && CanCloseLock(s, p) && Live(s, p)
    ensures Enabled(s, CloseLock(p)) && Admits(s, CloseLock(p)) && Is(Next(s, CloseLock(p)), p, Closing)
  {
    hide Try;
  }

  lemma CloseGetValNext(s: State, p: Pid)
    requires Inv(s) && Is(s, p, Closing)
    ensures Enabled(s, CloseGetVal(p)) && Admits(s, CloseGetVal(p))
    ensures Is(Next(s, CloseGetVal(p)), p, if |Opens(s)| == 0 then Last else Unlocking)
  {
    NeverOverflows(s, p);
    InsideIsLive(s, p);
    hide Inv, Opens;
  }

  lemma RemoverIsLast(s: State, p: Pid)
    requires Inv(s) && Is(s, p, Last)
    ensures |Opens(s)| == 0 && Opens(DoRemove(s, p)) == Opens(s)
  {
    assert PlaceAgrees(Sum(s), s.pc[p]);
  }

  lemma RemoveNext(s: State, p: Pid)
    requires Inv(s) && Is(s, p, Last)
    ensures Enabled(s, Remove(p)) && Admits(s, Remove(p))
    ensures PcOf(Next(s, Remove(p)), p) == Out && !Next(s, Remove(p)).live && |Opens(Next(s, Remove(p)))| == 0
  {
    InsideIsLive(s, p);
    RemoverIsLast(s, p);
    hide Inv, Opens;
  }

  lemma UnlockNext(s: State, p: Pid)
    requires Inv(s) && Is(s, p, Unlocking)
    ensures Enabled(s, Unlock(p)) && Admits(s, Unlock(p)) && PcOf(Next(s, Unlock(p)), p) == Out
  {
    UnlockerCanUnlock(s, p);
    hide Inv, Try;
  }

  /** The sleep in the first semop() of a close, by anybody who has the identifier. */
  method AwaitCloseLock(k: Kernel, p: Pid) returns (ready: bool)
    requires k.Valid() && (Is(k.s, p, Open) || Is(k.s, p, Borrowed))
    modifies k
    ensures k.Valid() && PcOf(k.s, p) == old(PcOf(k.s, p))
    ensures if ready then CanCloseLock(k.s, p) else k.schedule == [] && !CanCloseLock(k.s, p)
    ensures old(k.trace) <= k.trace && Own(k.trace, |old(k.trace)|, p) == []
  {
    hide AdmittedRuns, Initial, Try, ByOther, Own;
    OwnNone(k.trace, p);
    ready := true;
    while !CanCloseLock(k.s, p)
      invariant k.Valid() && PcOf(k.s, p) == old(PcOf(k.s, p))
      invariant old(k.trace) <= k.trace && Own(k.trace, |old(k.trace)|, p) == []
      decreases |k.schedule|
    {
      if k.schedule == [] {
        return false;
      }
      ghost var before := k.trace;
      k.Others(p);
      OwnAfterOthers(before, k.trace, |old(k.trace)|, p);
    }
  }

  lemma LastMeans(s: State, p: Pid)
    requires Inv(s) && Is(s, p, Closing)
    ensures Is(Next(s, CloseGetVal(p)), p, Last) <==> Opens(s) == {}
  {
    CloseGetValNext(s, p);
    hide Inv;
  }

  /** The lock with the counting out, and the reading of [1]. */
  method CountOutAndRead(k: Kernel, p: Pid) returns (ghost m: nat, ghost at: State)
    requires k.Valid() && Is(k.s, p, Open) && CanCloseLock(k.s, p)
    modifies k
    ensures k.Valid() && old(k.trace) <= k.trace && |old(k.trace)| <= m
    ensures MadeAt(k, m, CloseGetVal(p), at) && Reachable(at)
    ensures Is(k.s, p, if Opens(at) == {} then Last else Unlocking)
    ensures Own(k.trace, |old(k.trace)|, p) == [CloseLock(p), CloseGetVal(p)]
  {
    hide Inv, Next, Enabled, Admits, Live, AdmittedRuns, Initial, CanCloseLock, Opens, Reachable, Own, ByOther, MadeAt;
    Inside(k, p);
    CloseLockNext(k.s, p);
    ByItself(CloseLock(p), p);
    Call(k, p, CloseLock(p));
    ghost var locked := k.trace;
    k.Known();
    CloseGetValNext(k.s, p);
    LastMeans(k.s, p);
    m, at := |k.trace|, k.s;
    ByItself(CloseGetVal(p), p);
    Call(k, p, CloseGetVal(p));
    OwnJoined(locked, k.trace, |old(k.trace)|, p);
  }

  lemma MadeEarlier(k: Kernel, trace: seq<Action>, m: nat, a: Action, at: State)
    requires m < |trace| && trace[m] == a && AdmittedRuns(k.first, trace[..m], at) && trace <= k.trace
    ensures MadeAt(k, m, a, at)
  {
    assert k.trace[..m] == trace[..m];
    hide AdmittedRuns;
  }

  /** sem_close by a process that opened the set, which is gone afterwards: its own steps
      are the lock with the counting out, one GETVAL, and then the removal if nobody was
      open when [1] was read, in the state `at` of step `m`, and else the unlocking. It is
      left asleep only while the lock is taken. */
  method SemClose(k: Kernel, p: Pid) returns (done: bool, removed: bool, ghost m: nat, ghost at: State)
    requires k.Valid() && Is(k.s, p, Open)
    modifies k
    ensures k.Valid() && old(k.trace) <= k.trace
    ensures done ==> PcOf(k.s, p) == Out && (removed ==> !k.s.live && |Opens(k.s)| == 0)
    ensures done ==> |old(k.trace)| <= m && MadeAt(k, m, CloseGetVal(p), at) && Reachable(at) && (removed <==> Opens(at) == {})
    ensures Own(k.trace, |old(k.trace)|, p) ==
      if done then [CloseLock(p), CloseGetVal(p), if removed then Remove(p) else Unlock(p)] else []
    ensures !done ==> !removed && Is(k.s, p, Open) && k.schedule == [] && !CanCloseLock(k.s, p)
  {
    hide Inv, Next, Enabled, Admits, Live, AdmittedRuns, Initial, CanCloseLock, Opens, Reachable, Own, ByOther;
    removed, m, at := false, 0, k.s;
    done := AwaitCloseLock(k, p);
    if done {
      ghost var n, waited := |old(k.trace)|, k.trace;
      m, at := CountOutAndRead(k, p);
      OwnJoined(waited, k.trace, n, p);
      k.Known();
      removed := Is(k.s, p, Last);
      ghost var last, closing := if removed then Remove(p) else Unlock(p), k.trace;
      ByItself(last, p);
      OwnMore(k.trace, n, p, last);
      if removed {
        RemoveNext(k.s, p);
        k.Do(Remove(p));
      } else {
        UnlockNext(k.s, p);
        k.Do(Unlock(p));
      }
      MadeEarlier(k, closing, m, CloseGetVal(p), at);
    }
  }

  /** What a close that was never counted in leaves behind, from the state in which it
      gets the lock: it removes the set exactly when one process has it open, keeps the
      lock when nobody has, and otherwise counts one process too many out. */
  ghost predicate ForkedCloseLeaves(at: State, s: State, p: Pid, removed: bool) {
    if !Live(at, p) then !removed && s == Leave(at, p)
    else
      && (removed <==> |Opens(at)| == 1)
      && (removed ==> !s.live && Opens(s) == Opens(at))
      && (|Opens(at)| == 0 ==> Is(s, p, Overflow) && s.val.lock == 1)
      && (|Opens(at)| > 1 ==> PcOf(s, p) == Out && s.live && s.val.procs == at.val.procs + 1 && s.val.lock == 0)
  }

  lemma ForkedCloseState(at: State, p: Pid)
    requires Inv(at) && Is(at, p, Borrowed) && CanCloseLock(at, p) && Live(at, p)
    ensures
      var u := AfterClose(at, p);
      && u.val.procs == at.val.procs + 1 && u.val.lock == 1 && u.live && Live(u, p) && Opens(u) == Opens(at)
      && (Is(u, p, Last) <==> |Opens(at)| == 1) && (Is(u, p, Overflow) <==> |Opens(at)| == 0)
      && (Is(u, p, Unlocking) <==> |Opens(at)| > 1)
  {
    CloseDecision(at, p);
    WaitSum(at, p);
    CloseMeans(at.val, AdjOf(at, p));
    hide Semop, Inv;
  }

  lemma ForkedUnlock(u: State, p: Pid)
    requires Is(u, p, Unlocking) && Live(u, p) && u.val.lock == 1
    ensures CanUnlock(u, p) && DoUnlock(u, p).val == u.val.(lock := 0) && DoUnlock(u, p).live && PcOf(DoUnlock(u, p), p) == Out
  {
    UnlockMeans(u.val, AdjOf(u, p));
    hide Semop;
  }

  /** sem_close by a forked process, as the handler of SIGINT that it inherits runs it.
      From its first semop() on it is not interrupted here. `at` is the state in which
      that call succeeds, the last one in which the counters are exact. */
  method SemCloseForked(k: Kernel, p: Pid) returns (done: bool, removed: bool, ghost at: State)
    requires k.Valid() && Is(k.s, p, Borrowed)
    modifies k
    ensures old(k.trace) <= k.trace && AdmittedRuns(k.first, k.trace, at) && Own(k.trace, |old(k.trace)|, p) == []
    ensures Inv(at) && Is(at, p, Borrowed) && (done ==> CanCloseLock(at, p) && ForkedCloseLeaves(at, k.s, p, removed))
    ensures !done ==> !removed && k.Valid() && Is(k.s, p, Borrowed) && k.schedule == [] && !CanCloseLock(k.s, p)
  {
    hide AdmittedRuns, Initial, Try, Inv, Own;
    removed := false;
    done := AwaitCloseLock(k, p);
    at := k.s;
    k.Known();
    if done {
      if !Live(k.s, p) {
        k.s := DoCloseLock(k.s, p);
      } else {
        ForkedCloseState(k.s, p);
        k.s := AfterClose(k.s, p);
        if Is(k.s, p, Last) {
          removed := true;
          LeaveKeepsOpens(k.s, p);
          k.s := DoRemove(k.s, p);
        } else if Is(k.s, p, Unlocking) {
          ForkedUnlock(k.s, p);
          k.s := DoUnlock(k.s, p);
        }
      }
    }
  }

  lemma LeaveKeepsOpens(s: State, p: Pid)
    requires Is(s, p, Last)
    ensures Opens(DoRemove(s, p)) == Opens(s)
  {
  }

  // ---------- sem_wait and sem_signal ----------

  /** Outside any bracket: the server, which created the set, or a forked process. */
  predicate Outside(s: State, p: Pid) {
    Is(s, p, Open) || Is(s, p, Borrowed)
  }

  predicate InBracket(s: State, p: Pid) {
    Is(s, p, Holding) || Is(s, p, BorrowedHolding) || Is(s, p, Unprotected)
  }

  /** Inside a bracket on a live set: alone, with the value used up. */
  ghost predicate Alone(s: State, p: Pid) {
    s.val.value == 0 && Holders(s) == {p}
  }

  lemma HolderIsAlone(s: State, p: Pid)
    requires Inv(s) && (Is(s, p, Holding) || Is(s, p, BorrowedHolding)) && Live(s, p)
    ensures Alone(s, p)
  {
    assert PlaceAgrees(Sum(s), s.pc[p]);
    assert p in Holders(s);
    assert |Holders(s)| != 0;
    assert |Holders(s)| == 1;
    forall q | q in Holders(s) ensures q == p {
      AtMostOne(Holders(s), p, q);
    }
  }

  lemma WaitNext(s: State, p: Pid)
    requires CanWait(s, p)
    ensures Enabled(s, Wait(p)) && Admits(s, Wait(p))
    ensures
      var t := Next(s, Wait(p));
      && (Live(t, p) <==> Live(s, p))
      && Is(t, p, if !Live(s, p) then Unprotected else if Is(s, p, Open) then Holding else BorrowedHolding)
  {
    hide Try;
  }

  lemma SignalNext(s: State, p: Pid)
    requires Inv(s) && InBracket(s, p)
    ensures Enabled(s, Signal(p)) && Admits(s, Signal(p))
    ensures Is(Next(s, Signal(p)), p, if Is(s, p, Holding) then Open else Borrowed)
  {
    if Live(s, p) {
      assert PlaceAgrees(Sum(s), s.pc[p]);
      OpMeans(s.val, AdjOf(s, p), 1);
    }
    hide Inv, Semop;
  }

  lemma SignalAdds(s: State, p: Pid)
    requires Inv(s) && InBracket(s, p) && Enabled(s, Signal(p))
    ensures Next(s, Signal(p)).val.value == s.val.value + if Live(s, p) then 1 else 0
  {
    if Live(s, p) {
      assert PlaceAgrees(Sum(s), s.pc[p]);
      OpMeans(s.val, AdjOf(s, p), 1);
    }
    hide Inv, Semop;
  }

  /** The set that `p` uses is there now exactly when it was there before and has not been
      removed since. */
  twostate predicate KeptUnlessRemoved(k: Kernel, p: Pid)
    reads k
  {
    && old(k.trace) <= k.trace
    && (Live(k.s, p) <==> old(Live(k.s, p)) && !Removes(k.trace, |old(k.trace)|))
  }

  /** sem_op stores its amount in `op_op` and makes the call. A wait ends alone on a live
      set; on a removed one it returns all the same, without protection, which can only
      happen to a forked process. */
  method SemOp(k: Kernel, p: Pid, amount: int) returns (done: bool)
    requires k.Valid() && ((amount == -1 && Outside(k.s, p)) || (amount == 1 && InBracket(k.s, p)))
    modifies k, k.opOp
    ensures k.Valid() && k.opOp[..] == OpOp(amount)
    ensures done && amount == -1 ==> if Live(k.s, p) then Alone(k.s, p) else old(Is(k.s, p, Borrowed))
    ensures done && amount == -1 ==>
      Is(k.s, p, if !Live(k.s, p) then Unprotected else if old(Is(k.s, p, Open)) then Holding else BorrowedHolding)
    ensures amount == -1 ==> KeptUnlessRemoved(k, p)
    ensures amount == 1 ==> done && Is(k.s, p, if old(Is(k.s, p, Holding)) then Open else Borrowed)
    ensures amount == 1 ==> k.s.val.value == old(k.s.val.value) + if old(Live(k.s, p)) then 1 else 0
    ensures !done ==> PcOf(k.s, p) == old(PcOf(k.s, p)) && k.schedule == [] && !CanWait(k.s, p)
    ensures old(k.trace) <= k.trace && Own(k.trace, |old(k.trace)|, p) == if !done then [] else if amount == 1 then [Signal(p)] else [Wait(p)]
  {
    hide Inv, Next, Enabled, Admits, AdmittedRuns, Initial, Alone, Try, CanWait, Removes, Own, ByOther;
    OwnNone(k.trace, p);
    ByItself(Signal(p), p);
    ByItself(Wait(p), p);
    k.opOp[0] := k.opOp[0].(num := 0, op := amount, undo := true);
    k.Known();
    if amount == 1 {
      SignalNext(k.s, p);
      SignalAdds(k.s, p);
      OwnMore(k.trace, |k.trace|, p, Signal(p));
      k.Do(Signal(p));
      return true;
    }
    done := AwaitWait(k, p);
    if done {
      if Is(k.s, p, Open) {
        Inside(k, p);
      }
      WaitNext(k.s, p);
      RemovesMore(k.trace, |old(k.trace)|, Wait(p));
      OwnMore(k.trace, |old(k.trace)|, p, Wait(p));
      k.Do(Wait(p));
      k.Known();
      if Live(k.s, p) {
        HolderIsAlone(k.s, p);
      }
    }
  }

  /** The sleep in sem_wait. */
  method AwaitWait(k: Kernel, p: Pid) returns (ready: bool)
    requires k.Valid() && Outside(k.s, p)
    modifies k
    ensures k.Valid() && PcOf(k.s, p) == old(PcOf(k.s, p)) && KeptUnlessRemoved(k, p)
    ensures if ready then CanWait(k.s, p) else k.schedule == [] && !CanWait(k.s, p)
    ensures Own(k.trace, |old(k.trace)|, p) == []
  {
    hide AdmittedRuns, Initial, Try, Removes, Own, ByOther;
    ghost var n := |k.trace|;
    NothingRemoved(k.trace, n);
    OwnNone(k.trace, p);
    while !CanWait(k.s, p)
      invariant k.Valid() && PcOf(k.s, p) == old(PcOf(k.s, p)) && old(k.trace) <= k.trace
      invariant Live(k.s, p) <==> old(Live(k.s, p)) && !Removes(k.trace, n)
      invariant Own(k.trace, n, p) == []
      decreases |k.schedule|
    {
      if k.schedule == [] {
        return false;
      }
      ghost var before := k.trace;
      k.Others(p);
      RemovesApart(before, k.trace, n);
      OwnAfterOthers(before, k.trace, n, p);
    }
    return true;
  }

  method SemWait(k: Kernel, p: Pid) returns (done: bool)
    requires k.Valid() && Outside(k.s, p)
    modifies k, k.opOp
    ensures k.Valid() && KeptUnlessRemoved(k, p)
    ensures done ==> InBracket(k.s, p) && if Live(k.s, p) then Alone(k.s, p) else old(Is(k.s, p, Borrowed))
    ensures done ==> (Is(k.s, p, Holding) <==> old(Is(k.s, p, Open)))
    ensures !done ==> PcOf(k.s, p) == old(PcOf(k.s, p)) && k.schedule == [] && !CanWait(k.s, p)
    ensures Own(k.trace, |old(k.trace)|, p) == if done then [Wait(p)] else []
  {
    hide Live, Alone, AdmittedRuns, Initial, Removes, Own, CanWait;
    done := SemOp(k, p, -1);
  }

  /** It never blocks. */
  method SemSignal(k: Kernel, p: Pid)
    requires k.Valid() && InBracket(k.s, p)
    modifies k, k.opOp
    ensures k.Valid() && Is(k.s, p, if old(Is(k.s, p, Holding)) then Open else Borrowed)
    ensures old(k.trace) <= k.trace && Own(k.trace, |old(k.trace)|, p) == [Signal(p)]
  {
    hide Live, Alone, AdmittedRuns, Initial, Own;
    var done := SemOp(k, p, 1);
  }

  // ---------- The brackets of the clients ----------

  /** One bracketed update, with the others running before and after it. `update` is the
      state in which the shared table is written: the writer is alone in it, unless the
      set has been removed under a forked process. */
  method Bracket(k: Kernel, p: Pid) returns (done: bool, ghost update: State)
    requires k.Valid() && Outside(k.s, p)
    modifies k, k.opOp
    ensures k.Valid() && Is(k.s, p, if old(Is(k.s, p, Open)) then Open else Borrowed)
    ensures done ==> Reachable(update) && InBracket(update, p)
    ensures done ==> if Live(update, p) then Alone(update, p) else old(Is(k.s, p, Borrowed))
    ensures !done ==> k.schedule == []
    ensures old(k.trace) <= k.trace && Own(k.trace, |old(k.trace)|, p) == if done then [Wait(p), Signal(p)] else []
  {
    hide Live, Alone, AdmittedRuns, Initial, Inv, Reachable, Own, CanWait, ByOther;
    done := SemWait(k, p);
    if done {
      ghost var open, waited := Is(k.s, p, Holding), k.trace;
      k.Others(p);
      OwnAfterOthers(waited, k.trace, |old(k.trace)|, p);
      k.Known();
      waited := k.trace;
      update := k.s;
      StillAlone(k, p);
      SemSignal(k, p);
      OwnJoined(waited, k.trace, |old(k.trace)|, p);
    } else {
      update := k.s;
    }
  }

  /** The ways in which a client takes the lock: a receive and its message; a send, and
      the child that is forked for it; an exit and its message; a told or broadcast
      message, or the publication of its own process. */
  datatype Path = Receive | Send(child: Pid) | Exit | Message

  /** The calls of a path that is run to its end; a child is only forked once. */
  function PathSteps(p: Pid, path: Path, fork: bool): seq<Action> {
    match path
    case Receive => [Wait(p), Signal(p), Wait(p), Signal(p)]
    case Exit => [Wait(p), Signal(p), Wait(p), Signal(p)]
    case Send(child) => [Wait(p), Signal(p)] + if fork then [Fork(p, child)] else []
    case Message => [Wait(p), Signal(p)]
  }

  /** Every wait on these paths is made outside any bracket, and each path ends there. */
  method RunPath(k: Kernel, p: Pid, path: Path) returns (done: bool, ghost fork: bool)
    requires k.Valid() && Outside(k.s, p)
    modifies k, k.opOp
    ensures k.Valid() && Is(k.s, p, if old(Is(k.s, p, Open)) then Open else Borrowed)
    ensures !done ==> k.schedule == []
    ensures old(k.trace) <= k.trace && Own(k.trace, |old(k.trace)|, p) <= PathSteps(p, path, fork)
    ensures done ==> Own(k.trace, |old(k.trace)|, p) == PathSteps(p, path, fork)
  {
    hide Live, Alone, AdmittedRuns, Initial, Reachable, Own;
    ghost var update;
    fork := false;
    done, update := Bracket(k, p);
    ghost var before := k.trace;
    match path {
      case Receive =>
        if done {
          done, update := Bracket(k, p);
          OwnJoined(before, k.trace, |old(k.trace)|, p);
        }
      case Exit =>
        if done {
          done, update := Bracket(k, p);
          OwnJoined(before, k.trace, |old(k.trace)|, p);
        }
      case Send(child) =>
        if done && PcOf(k.s, child) == Out {
          fork := true;
          ByItself(Fork(p, child), p);
          OwnMore(k.trace, |old(k.trace)|, p, Fork(p, child));
          k.Do(Fork(p, child));
        }
      case Message =>
    }
  }

  lemma StillAlone(k: Kernel, p: Pid)
    requires k.Valid() && InBracket(k.s, p)
    ensures Live(k.s, p) && !Is(k.s, p, Unprotected) ==> Alone(k.s, p)
    ensures Is(k.s, p, Holding) ==> Live(k.s, p)
    ensures Is(k.s, p, Unprotected) ==> !Live(k.s, p)
  {
    k.Known();
    assert PlaceAgrees(Sum(k.s), k.s.pc[p]);
    if Live(k.s, p) && !Is(k.s, p, Unprotected) {
      HolderIsAlone(k.s, p);
    }
  }
}
