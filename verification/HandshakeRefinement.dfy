/** The lock of the user-pipe handshake is the three-counter semaphore: every run of the
    handshake is a run of the semaphore protocol, in which whoever is inside a bracket of
    the handshake is the one process that holds the semaphore. */
module HandshakeRefinement {
  import opened Prelude
  import opened SysVSemaphores
  import H = UserPipeHandshake
  import P = SemaphoreProtocol

  type Pid = nat

  /** The server is process 0; it created the set. */
  const SERVER: Pid := 0

  /** The process that is inside a bracket. */
  function Inside(h: H.State): Option<Pid> {
    match h.holder
    case Nobody => None
    case Server => Some(SERVER)
    case Seating => Some(SERVER)
    case Client(id) => if id in h.pid then Some(h.pid[id]) else None
    case Child(k) => Some(k)
  }

  /** The processes that still have calls to make: server, clients, forked broadcasters. */
  predicate IsProcess(h: H.State, p: Pid) {
    p == SERVER || p in h.kids || exists id :: id in h.pid && h.pid[id] == p
  }

  /** Where such a process stands in the protocol: the server has the set open, the others
      were forked. */
  function PlaceOf(h: H.State, p: Pid): P.Where {
    if p == SERVER then (if Inside(h) == Some(p) then P.Holding else P.Open)
    else if Inside(h) == Some(p) then P.BorrowedHolding else P.Borrowed
  }

  predicate HasProcess(d: H.Doing) {
    !d.Starting? && !d.Killed?
  }

  /** Every process has a number of its own, below `born`. */
  predicate Numbered(h: H.State) {
    && (forall id :: id in h.pid ==> SERVER < h.pid[id] < h.born && h.pid[id] !in h.kids)
    && (forall i, j :: i in h.pid && j in h.pid && h.pid[i] == h.pid[j] ==> i == j)
    && (forall k :: k in h.kids ==> SERVER < k < h.born)
    && SERVER < h.born
  }

  /** Users and processes belong together, and the lock is held by one of them. */
  ghost predicate Staffed(h: H.State) {
    && (forall id :: id in h.pid <==> id in h.doing && HasProcess(h.doing[id]))
    && (h.holder.Client? ==> h.holder.id in h.pid)
    && (h.holder.Child? ==> h.holder.pid in h.kids)
    && 0 !in h.doing
    && (h.holder.Server? ==> h.seat == 0) && (h.holder.Seating? ==> h.seat != 0)
  }

  /** The semaphore agrees with the handshake, process by process and in its value. */
  ghost predicate Agrees(h: H.State, s: P.State) {
    && s.live && s.val.value == (if h.holder.Nobody? then 1 else 0)
    && (forall p :: IsProcess(h, p) ==> P.PcOf(s, p) == P.At(PlaceOf(h, p), s.gen))
    && (forall p :: p >= h.born ==> P.PcOf(s, p) == P.Out)
    && (forall p :: !IsProcess(h, p) ==> !P.IsHolder(P.PcOf(s, p)))
  }

  ghost predicate Matches(h: H.State, s: P.State) {
    Numbered(h) && Staffed(h) && Agrees(h, s)
  }

  // ---------- One step of the semaphore, seen from its process ----------

  /** The step moved one process and left the rest of the set alone. */
  ghost predicate Moved(s: P.State, t: P.State, p: Pid, place: P.Where, value: int) {
    t.live && t.gen == s.gen && t.val.value == value && t.pc == s.pc[p := P.At(place, s.gen)]
  }

  lemma WaitMoves(s: P.State, p: Pid)
    requires s.live && s.val.value == 1 && P.PcOf(s, p).At? && P.PcOf(s, p).id == s.gen && (P.Is(s, p, P.Open) || P.Is(s, p, P.Borrowed))
    ensures P.Enabled(s, P.Wait(p)) && P.Disciplined(s, P.Wait(p))
    ensures Moved(s, P.Next(s, P.Wait(p)), p, if P.Is(s, p, P.Open) then P.Holding else P.BorrowedHolding, 0)
  {
    OpMeans(s.val, P.AdjOf(s, p), -1);
    hide Semop;
  }

  lemma SignalMoves(s: P.State, p: Pid)
    requires s.live && s.val.value == 0 && P.PcOf(s, p).At? && P.PcOf(s, p).id == s.gen && (P.Is(s, p, P.Holding) || P.Is(s, p, P.BorrowedHolding))
    ensures P.Enabled(s, P.Signal(p)) && P.Disciplined(s, P.Signal(p))
    ensures Moved(s, P.Next(s, P.Signal(p)), p, if P.Is(s, p, P.Holding) then P.Open else P.Borrowed, 1)
  {
    OpMeans(s.val, P.AdjOf(s, p), 1);
    hide Semop;
  }

  lemma ForkMoves(s: P.State, p: Pid, c: Pid)
    requires P.PcOf(s, p).At? && P.PcOf(s, p).id == s.gen && s.live && (P.Is(s, p, P.Open) || P.Is(s, p, P.Borrowed)) && P.PcOf(s, c) == P.Out
    ensures P.Enabled(s, P.Fork(p, c)) && P.Disciplined(s, P.Fork(p, c))
    ensures Moved(s, P.Next(s, P.Fork(p, c)), c, P.Borrowed, s.val.value)
  {
  }

  /** A death: its undo gives the lock back if the process was inside a bracket. */
  lemma DieMoves(s: P.State, p: Pid)
    requires P.Inv(s) && s.live && P.PcOf(s, p).At? && P.PcOf(s, p).id == s.gen
    requires P.Is(s, p, P.Borrowed) || P.Is(s, p, P.BorrowedHolding)
    ensures P.Enabled(s, P.Die(p)) && P.Disciplined(s, P.Die(p))
    ensures
      var t := P.Next(s, P.Die(p));
      && t.live && t.gen == s.gen && t.pc == s.pc[p := P.Out]
      && t.val.value == if P.Is(s, p, P.BorrowedHolding) then s.val.value + 1 else s.val.value
  {
    P.DieGivesBack(s, p);
    hide P.Inv;
  }

  // ---------- What the semaphore does for a step of the handshake ----------

  predicate ActorLives(h: H.State, a: H.Action) {
    a.Unlock? || a.LockSend? || a.LockRecv? || a.LockPost? || a.LockExit? || a.Kill? || a.Spawn? ==> a.id in h.pid
  }

  function Acts(h: H.State, a: H.Action): seq<P.Action>
    requires ActorLives(h, a)
  {
    match a
    case LockSend(id) => [P.Wait(h.pid[id])]
    case LockRecv(id) => [P.Wait(h.pid[id])]
    case LockPost(id) => [P.Wait(h.pid[id])]
    case LockExit(id) => [P.Wait(h.pid[id])]
    case Unlock(id) => if H.At(h, id).Left? then [P.Signal(h.pid[id]), P.Die(h.pid[id])] else [P.Signal(h.pid[id])]
    case ServerLock => [P.Wait(SERVER)]
    case ServerUnlock => [P.Signal(SERVER)]
    case ServerFork => [P.Fork(SERVER, h.born)]
    case Kill(id) => [P.Die(h.pid[id])]
    case Spawn(id) => [P.Fork(h.pid[id], h.born)]
    case ChildLock(k) => [P.Wait(k)]
    case ChildUnlock(k) => [P.Signal(k)]
    case ChildKill(k) => [P.Die(k)]
    case _ => []
  }

  /** Every actor of these steps has a process. */
  lemma ActorHasProcess(h: H.State, a: H.Action)
    requires Staffed(h) && H.Enabled(h, a)
    ensures ActorLives(h, a)
  {
  }

  // ---------- Agreement, one process at a time ----------

  /** Nobody but `p` begins, ends, or moves in or out of a bracket. */
  ghost predicate OnlyMoves(h: H.State, g: H.State, p: Pid) {
    forall q: Pid :: q != p ==>
      (IsProcess(g, q) <==> IsProcess(h, q)) && (Inside(g) == Some(q) <==> Inside(h) == Some(q))
  }

  /** The semaphore steps of one process keep the agreement. */
  lemma AgreesAfter(h: H.State, g: H.State, s: P.State, t: P.State, p: Pid)
    requires Agrees(h, s) && OnlyMoves(h, g, p)
    requires t.live && t.gen == s.gen && t.pc == s.pc[p := P.PcOf(t, p)] && t.val.value == (if g.holder.Nobody? then 1 else 0)
    requires if IsProcess(g, p) then P.PcOf(t, p) == P.At(PlaceOf(g, p), s.gen) else !P.IsHolder(P.PcOf(t, p))
    requires p < g.born && h.born <= g.born
    ensures Agrees(g, t)
  {
    hide IsProcess, Inside, P.IsHolder;
    forall q: Pid | q != p ensures P.PcOf(t, q) == P.PcOf(s, q) {
    }
  }

  lemma StartsOut(h: H.State, s: P.State, p: Pid)
    requires Agrees(h, s) && IsProcess(h, p)
    ensures s.live && P.PcOf(s, p) == P.At(PlaceOf(h, p), s.gen) && s.val.value == (if h.holder.Nobody? then 1 else 0)
  {
  }

  /** Process `p` goes into its bracket. */
  lemma EnterMatches(h: H.State, g: H.State, s: P.State, p: Pid)
    requires Agrees(h, s) && h.holder.Nobody? && IsProcess(h, p) && p < h.born
    requires g.born == h.born && OnlyMoves(h, g, p) && IsProcess(g, p) && Inside(g) == Some(p)
    ensures P.Enabled(s, P.Wait(p)) && P.Disciplined(s, P.Wait(p)) && Agrees(g, P.Next(s, P.Wait(p)))
  {
    StartsOut(h, s, p);
    WaitMoves(s, p);
    hide Agrees, OnlyMoves, IsProcess, P.Next, P.Enabled, P.Disciplined;
    AgreesAfter(h, g, s, P.Next(s, P.Wait(p)), p);
  }

  /** Process `p` leaves its bracket. */
  lemma LeaveMatches(h: H.State, g: H.State, s: P.State, p: Pid)
    requires Agrees(h, s) && Inside(h) == Some(p) && IsProcess(h, p) && p < h.born
    requires g.born == h.born && OnlyMoves(h, g, p) && IsProcess(g, p) && g.holder.Nobody?
    ensures P.Enabled(s, P.Signal(p)) && P.Disciplined(s, P.Signal(p)) && Agrees(g, P.Next(s, P.Signal(p)))
  {
    StartsOut(h, s, p);
    SignalMoves(s, p);
    hide Agrees, OnlyMoves, IsProcess, P.Next, P.Enabled, P.Disciplined;
    AgreesAfter(h, g, s, P.Next(s, P.Signal(p)), p);
  }

  /** Process `p`, outside the bracket, forks the next process. */
  lemma ForkMatches(h: H.State, g: H.State, s: P.State, p: Pid)
    requires Agrees(h, s) && IsProcess(h, p) && Inside(h) != Some(p)
    requires g.born == h.born + 1 && OnlyMoves(h, g, h.born) && IsProcess(g, h.born) && Inside(g) != Some(h.born) && h.born != SERVER
    requires g.holder.Nobody? <==> h.holder.Nobody?
    ensures P.Enabled(s, P.Fork(p, h.born)) && P.Disciplined(s, P.Fork(p, h.born)) && Agrees(g, P.Next(s, P.Fork(p, h.born)))
  {
    StartsOut(h, s, p);
    ForkMoves(s, p, h.born);
    hide Agrees, OnlyMoves, IsProcess, P.Next, P.Enabled, P.Disciplined;
    AgreesAfter(h, g, s, P.Next(s, P.Fork(p, h.born)), h.born);
  }

  /** Process `p` dies, inside a bracket or not. */
  lemma DieMatches(h: H.State, g: H.State, s: P.State, p: Pid)
    requires Agrees(h, s) && P.Inv(s) && IsProcess(h, p) && p != SERVER && p < h.born
    requires g.born == h.born && OnlyMoves(h, g, p) && !IsProcess(g, p)
    requires g.holder.Nobody? <==> h.holder.Nobody? || Inside(h) == Some(p)
    requires Inside(h) == Some(p) ==> !h.holder.Nobody?
    ensures P.Enabled(s, P.Die(p)) && P.Disciplined(s, P.Die(p)) && Agrees(g, P.Next(s, P.Die(p)))
  {
    StartsOut(h, s, p);
    DieMoves(s, p);
    hide Agrees, OnlyMoves, IsProcess, P.Next, P.Enabled, P.Disciplined, P.Inv;
    AgreesAfter(h, g, s, P.Next(s, P.Die(p)), p);
  }

  /** A forked child that has broadcast makes no more calls. */
  lemma DoneMatches(h: H.State, g: H.State, s: P.State, p: Pid)
    requires Agrees(h, s) && IsProcess(h, p) && Inside(h) != Some(p) && p < h.born && p != SERVER
    requires g.born == h.born && OnlyMoves(h, g, p) && !IsProcess(g, p) && (g.holder.Nobody? <==> h.holder.Nobody?)
    ensures Agrees(g, s)
  {
    StartsOut(h, s, p);
    assert s.pc == s.pc[p := P.PcOf(s, p)];
    hide Agrees, OnlyMoves, IsProcess;
    AgreesAfter(h, g, s, s, p);
  }

  // ---------- The processes of the handshake, step by step ----------

  /** The same users have processes, and nobody begins or ends. */
  ghost predicate SameStaff(h: H.State, g: H.State) {
    && g.pid == h.pid && g.kids == h.kids && g.born == h.born && g.seat == h.seat
    && g.doing.Keys == h.doing.Keys && forall id :: id in h.doing ==> HasProcess(g.doing[id]) == HasProcess(h.doing[id])
  }

  /** The lock is held by somebody who has a process, and by the server as its place says. */
  predicate HeldByStaff(h: H.State) {
    match h.holder
    case Nobody => true
    case Server => h.seat == 0
    case Seating => h.seat != 0
    case Client(id) => id in h.pid
    case Child(k) => k in h.kids
  }

  lemma StaffKept(h: H.State, g: H.State)
    requires Numbered(h) && Staffed(h) && SameStaff(h, g) && HeldByStaff(g)
    ensures Numbered(g) && Staffed(g)
  {
    assert forall id :: id in g.doing <==> id in g.doing.Keys;
    assert forall id :: id in h.doing <==> id in h.doing.Keys;
    hide HasProcess;
  }

  lemma SameProcesses(h: H.State, g: H.State, p: Pid)
    requires g.pid == h.pid && g.kids == h.kids
    ensures IsProcess(g, p) <==> IsProcess(h, p)
  {
  }

  /** With the same processes, only whoever enters or leaves the bracket moves. */
  lemma OneMoves(h: H.State, g: H.State, p: Pid)
    requires g.pid == h.pid && g.kids == h.kids
    requires forall q: Pid :: q != p ==> (Inside(g) == Some(q) <==> Inside(h) == Some(q))
    ensures OnlyMoves(h, g, p)
  {
    forall q: Pid | q != p ensures IsProcess(g, q) <==> IsProcess(h, q) {
      SameProcesses(h, g, q);
    }
    hide IsProcess, Inside;
  }

  /** The process of a user, of a child, or the server. */
  function ProcessOf(h: H.State, who: H.Who): Pid
    requires (who.Client? ==> who.id in h.pid)
  {
    match who
    case Client(id) => h.pid[id]
    case Child(k) => k
    case _ => SERVER
  }

  lemma HolderInside(h: H.State)
    requires Numbered(h) && Staffed(h) && !h.holder.Nobody?
    ensures Inside(h) == Some(ProcessOf(h, h.holder)) && IsProcess(h, ProcessOf(h, h.holder)) && ProcessOf(h, h.holder) < h.born
  {
  }

  /** A step of the handshake in which one process takes the lock is its sem_wait. */
  lemma TakesLock(h: H.State, g: H.State, s: P.State)
    requires Matches(h, s) && h.holder.Nobody? && SameStaff(h, g) && HeldByStaff(g) && !g.holder.Nobody?
    ensures
      var p := ProcessOf(g, g.holder);
      P.Enabled(s, P.Wait(p)) && P.Disciplined(s, P.Wait(p)) && Matches(g, P.Next(s, P.Wait(p)))
  {
    StaffKept(h, g);
    HolderInside(g);
    var p := ProcessOf(g, g.holder);
    OneMoves(h, g, p);
    SameProcesses(h, g, p);
    hide Numbered, Staffed, Agrees, P.Next, P.Enabled, P.Disciplined, IsProcess, OnlyMoves, HeldByStaff, ProcessOf;
    EnterMatches(h, g, s, p);
  }

  /** One in which the holder gives it back is its sem_signal. */
  lemma GivesLock(h: H.State, g: H.State, s: P.State)
    requires Matches(h, s) && !h.holder.Nobody? && SameStaff(h, g) && g.holder.Nobody?
    ensures
      var p := ProcessOf(h, h.holder);
      P.Enabled(s, P.Signal(p)) && P.Disciplined(s, P.Signal(p)) && Matches(g, P.Next(s, P.Signal(p)))
  {
    StaffKept(h, g);
    HolderInside(h);
    var p := ProcessOf(h, h.holder);
    OneMoves(h, g, p);
    SameProcesses(h, g, p);
    hide Numbered, Staffed, Agrees, P.Next, P.Enabled, P.Disciplined, IsProcess, OnlyMoves, HeldByStaff, ProcessOf;
    LeaveMatches(h, g, s, p);
  }

  /** In a step that neither takes nor gives the lock, and begins or ends no process, the
      semaphore does nothing. */
  lemma KeepsLock(h: H.State, g: H.State, s: P.State)
    requires Matches(h, s) && Numbered(g) && Staffed(g)
    requires g.pid == h.pid && g.kids == h.kids && g.born == h.born && Inside(g) == Inside(h)
    requires g.holder.Nobody? <==> h.holder.Nobody?
    ensures Matches(g, s)
  {
    OneMoves(h, g, SERVER);
    SameProcesses(h, g, SERVER);
    StartsOut(h, s, SERVER);
    assert s.pc == s.pc[SERVER := P.PcOf(s, SERVER)];
    hide Numbered, Staffed, Agrees, OnlyMoves;
    AgreesAfter(h, g, s, s, SERVER);
  }

  // ---------- Processes that begin and end ----------

  lemma BornForUser(h: H.State, id: H.Id, q: Pid)
    requires id !in h.pid && q != h.born
    ensures IsProcess(h.(pid := h.pid[id := h.born]), q) <==> IsProcess(h, q)
  {
    var pid := h.pid[id := h.born];
    if i :| i in h.pid && h.pid[i] == q {
      assert i in pid && pid[i] == q;
    }
    if i :| i in pid && pid[i] == q {
      assert i in h.pid && h.pid[i] == q;
    }
  }

  /** The server forks a process for the user it has seated. */
  lemma ServerForkMatches(h: H.State, s: P.State)
    requires Matches(h, s) && H.Enabled(h, H.ServerFork)
    ensures P.Enabled(s, P.Fork(SERVER, h.born)) && P.Disciplined(s, P.Fork(SERVER, h.born))
    ensures Matches(H.DoServerFork(h), P.Next(s, P.Fork(SERVER, h.born)))
  {
    var g := H.DoServerFork(h);
    UserBorn(h);
    assert Inside(h) != Some(SERVER);
    hide Numbered, Staffed, Agrees, P.Next, P.Enabled, P.Disciplined, OnlyMoves;
    ForkMatches(h, g, s, SERVER);
  }

  lemma UserBorn(h: H.State)
    requires Numbered(h) && Staffed(h) && H.Enabled(h, H.ServerFork)
    ensures
      var g := H.DoServerFork(h);
      && Numbered(g) && Staffed(g) && OnlyMoves(h, g, h.born) && IsProcess(g, h.born) && h.born != SERVER
      && Inside(g) == Inside(h) && Inside(h) != Some(h.born)
  {
    var g := H.DoServerFork(h);
    assert !HasProcess(h.doing[h.seat]) && h.seat !in h.pid;
    var f := h.(pid := h.pid[h.seat := h.born]);
    forall q: Pid | q != h.born ensures IsProcess(g, q) <==> IsProcess(h, q) {
      BornForUser(h, h.seat, q);
      SameProcesses(f, g, q);
    }
    assert g.pid[h.seat] == h.born;
    UserBornStaff(h);
    hide Staffed;
    if !h.holder.Nobody? {
      HolderInside(h);
    }
  }

  lemma UserBornStaff(h: H.State)
    requires Numbered(h) && Staffed(h) && H.Enabled(h, H.ServerFork) && h.seat !in h.pid
    ensures Numbered(H.DoServerFork(h)) && Staffed(H.DoServerFork(h)) && Inside(H.DoServerFork(h)) == Inside(h)
    ensures h.holder.Nobody? ==> Inside(h) == None
  {
  }

  /** A client forks the child that broadcasts for it. */
  lemma SpawnMatches(h: H.State, s: P.State, id: H.Id)
    requires Matches(h, s) && H.DoingAgrees(h) && H.At(h, id).Idle? && id in h.pid
    ensures P.Enabled(s, P.Fork(h.pid[id], h.born)) && P.Disciplined(s, P.Fork(h.pid[id], h.born))
    ensures Matches(H.DoSpawn(h), P.Next(s, P.Fork(h.pid[id], h.born)))
  {
    var g := H.DoSpawn(h);
    ChildBorn(h);
    IdleClient(h, id);
    hide Numbered, Staffed, Agrees, H.DoingAgrees, P.Next, P.Enabled, P.Disciplined, OnlyMoves, IsProcess, Inside;
    ForkMatches(h, g, s, h.pid[id]);
  }

  lemma IdleClient(h: H.State, id: H.Id)
    requires Numbered(h) && Staffed(h) && H.DoingAgrees(h) && id in h.pid && H.At(h, id).Idle?
    ensures IsProcess(h, h.pid[id]) && Inside(h) != Some(h.pid[id])
  {
    IdleIsOutside(h, id);
  }

  lemma ChildBorn(h: H.State)
    requires Numbered(h) && Staffed(h)
    ensures
      var g := H.DoSpawn(h);
      && Numbered(g) && Staffed(g) && OnlyMoves(h, g, h.born) && IsProcess(g, h.born) && h.born != SERVER
      && Inside(g) == Inside(h) && Inside(h) != Some(h.born) && g.holder == h.holder && g.born == h.born + 1
  {
    if !h.holder.Nobody? {
      HolderInside(h);
    }
  }

  /** Outside its bracket a client is not the process inside. */
  lemma IdleIsOutside(h: H.State, id: H.Id)
    requires Numbered(h) && Staffed(h) && H.DoingAgrees(h) && id in h.pid && !H.IsLocked(H.At(h, id))
    ensures Inside(h) != Some(h.pid[id])
  {
    assert H.Agrees(h, id, h.doing[id]);
    hide H.DoingAgrees;
    if !h.holder.Nobody? {
      HolderInside(h);
    }
  }

  /** A client's process is gone, and the lock with it if it held it. */
  lemma UserGone(h: H.State, g: H.State, id: H.Id)
    requires Numbered(h) && Staffed(h) && id in h.pid
    requires g.pid == h.pid - {id} && g.kids == h.kids && g.born == h.born && g.seat == h.seat
    requires g.holder == if h.holder == H.Client(id) then H.Nobody else h.holder
    requires forall j :: j != id ==> (j in g.doing <==> j in h.doing) && (j in g.doing ==> g.doing[j] == h.doing[j])
    requires id in g.doing ==> !HasProcess(g.doing[id])
    ensures
      var p := h.pid[id];
      && Numbered(g) && Staffed(g) && OnlyMoves(h, g, p) && IsProcess(h, p) && !IsProcess(g, p) && p != SERVER && p < h.born
      && (Inside(h) == Some(p) <==> h.holder == H.Client(id))
  {
    UserGoneStaff(h, g, id);
    hide Staffed, HasProcess;
    forall q: Pid | q != h.pid[id] ensures IsProcess(g, q) <==> IsProcess(h, q) {
      OtherUsers(h, g, id, q);
    }
  }

  lemma OtherUsers(h: H.State, g: H.State, id: H.Id, q: Pid)
    requires id in h.pid && g.pid == h.pid - {id} && g.kids == h.kids && q != h.pid[id]
    ensures IsProcess(g, q) <==> IsProcess(h, q)
  {
    if i :| i in h.pid && h.pid[i] == q {
      assert i in g.pid && g.pid[i] == q;
    }
    if i :| i in g.pid && g.pid[i] == q {
      assert i in h.pid && h.pid[i] == q;
    }
  }

  lemma UserGoneStaff(h: H.State, g: H.State, id: H.Id)
    requires Numbered(h) && Staffed(h) && id in h.pid
    requires g.pid == h.pid - {id} && g.kids == h.kids && g.born == h.born && g.seat == h.seat
    requires g.holder == if h.holder == H.Client(id) then H.Nobody else h.holder
    requires forall j :: j != id ==> (j in g.doing <==> j in h.doing) && (j in g.doing ==> g.doing[j] == h.doing[j])
    requires id in g.doing ==> !HasProcess(g.doing[id])
    ensures Numbered(g) && Staffed(g)
    ensures h.holder.Client? ==> h.holder.id in h.pid
    ensures h.holder.Child? ==> h.holder.pid in h.kids
  {
    hide HasProcess;
  }

  lemma ChildGone(h: H.State, k: Pid)
    requires Numbered(h) && Staffed(h) && k in h.kids
    ensures
      var g := H.DoChildGone(h, k);
      && Numbered(g) && Staffed(g) && OnlyMoves(h, g, k) && IsProcess(h, k) && !IsProcess(g, k) && k != SERVER && k < h.born
      && (Inside(h) == Some(k) <==> h.holder == H.Child(k))
  {
    if !h.holder.Nobody? {
      HolderInside(h);
    }
  }

  /** A client dies. */
  lemma KillMatches(h: H.State, s: P.State, id: H.Id)
    requires Matches(h, s) && P.Inv(s) && H.Enabled(h, H.Kill(id)) && id in h.pid
    ensures P.Enabled(s, P.Die(h.pid[id])) && P.Disciplined(s, P.Die(h.pid[id]))
    ensures Matches(H.DoKill(h, id), P.Next(s, P.Die(h.pid[id])))
  {
    var g := H.DoKill(h, id);
    UserGone(h, g, id);
    hide Numbered, Staffed, Agrees, OnlyMoves, IsProcess, P.Inv, P.Next, P.Enabled, P.Disciplined;
    DieMatches(h, g, s, h.pid[id]);
  }

  lemma ChildKillMatches(h: H.State, s: P.State, k: Pid)
    requires Matches(h, s) && P.Inv(s) && k in h.kids
    ensures P.Enabled(s, P.Die(k)) && P.Disciplined(s, P.Die(k)) && Matches(H.DoChildGone(h, k), P.Next(s, P.Die(k)))
  {
    ChildGone(h, k);
    hide Numbered, Staffed, Agrees, OnlyMoves, IsProcess, P.Inv, P.Next, P.Enabled, P.Disciplined;
    DieMatches(h, H.DoChildGone(h, k), s, k);
  }

  /** The state with the lock given back and everything else as it is. */
  function Freed(h: H.State): H.State {
    h.(holder := H.Nobody)
  }

  /** A child that has broadcast gives the lock back and is done. */
  lemma ChildUnlockMatches(h: H.State, s: P.State, k: Pid)
    requires Matches(h, s) && H.Enabled(h, H.ChildUnlock(k))
    ensures P.Enabled(s, P.Signal(k)) && P.Disciplined(s, P.Signal(k))
    ensures Matches(H.DoChildGone(h, k), P.Next(s, P.Signal(k)))
  {
    GivesLock(h, Freed(h), s);
    ChildGone(Freed(h), k);
    hide Numbered, Staffed, Agrees, OnlyMoves, IsProcess, P.Next, P.Enabled, P.Disciplined;
    DoneMatches(Freed(h), H.DoChildGone(Freed(h), k), P.Next(s, P.Signal(k)), k);
  }

  /** The last bracket of a client: sem_signal, and the process is gone. */
  lemma LeaveUnlockMatches(h: H.State, s: P.State, id: H.Id)
    requires Matches(h, s) && P.Inv(s) && H.At(h, id).Left? && h.holder == H.Client(id) && id in h.pid
    ensures P.Enabled(s, P.Signal(h.pid[id])) && P.Disciplined(s, P.Signal(h.pid[id]))
    ensures
      var t := P.Next(s, P.Signal(h.pid[id]));
      && P.Enabled(t, P.Die(h.pid[id])) && P.Disciplined(t, P.Die(h.pid[id]))
      && Matches(H.DoUnlock(h, id), P.Next(t, P.Die(h.pid[id])))
  {
    GivesLock(h, Freed(h), s);
    P.NextKeepsInv(s, P.Signal(h.pid[id]));
    UserGone(Freed(h), H.DoUnlock(h, id), id);
    hide Numbered, Staffed, Agrees, OnlyMoves, IsProcess, P.Inv, P.Next, P.Enabled, P.Disciplined;
    DieMatches(Freed(h), H.DoUnlock(h, id), P.Next(s, P.Signal(h.pid[id])), h.pid[id]);
  }

  // ---------- Steps that leave the semaphore alone ----------

  /** Steps that take, give back or pass on no lock and make no process. */
  predicate IsSilent(a: H.Action) {
    || a.CheckReceiver? || a.CheckSender? || a.CheckMark? || a.WriteMark? || a.ClearMark?
    || a.ExitVisit? || a.ExitLeave?
  }

  lemma SilentShape(h: H.State, a: H.Action)
    requires H.Enabled(h, a) && IsSilent(a)
    ensures SameStaff(h, H.Next(h, a)) && H.Next(h, a).holder == h.holder
  {
  }

  lemma SilentMatches(h: H.State, s: P.State, a: H.Action)
    requires Matches(h, s) && H.Enabled(h, a) && IsSilent(a)
    ensures Matches(H.Next(h, a), s)
  {
    SilentShape(h, a);
    hide H.Next, H.Enabled, IsSilent, Agrees;
    StaffKept(h, H.Next(h, a));
    KeepsLock(h, H.Next(h, a), s);
  }

  /** A free place has no user: its last one has left. */
  lemma SeatIsNew(h: H.State)
    requires H.Inv(h) && H.Enabled(h, H.ServerSeat)
    ensures H.Vacancy(h) !in h.doing && H.Vacancy(h) > 0
  {
    hide H.LowestFreeFrom;
    if H.Vacancy(h) in h.doing {
      UsersHavePlaces(h, H.Vacancy(h));
    }
  }

  lemma UsersHavePlaces(h: H.State, id: H.Id)
    requires H.DoingAgrees(h) && h.holder.Server? && id in h.doing
    ensures id in h.valid
  {
    assert H.Agrees(h, id, h.doing[id]);
  }

  lemma SeatStaff(h: H.State)
    requires Staffed(h) && h.holder.Server? && H.Vacancy(h) !in h.doing && H.Vacancy(h) > 0
    ensures Staffed(H.DoSeat(h)) && Inside(H.DoSeat(h)) == Inside(h)
  {
    hide H.LowestFreeFrom;
  }

  lemma SeatMatches(h: H.State, s: P.State)
    requires Matches(h, s) && H.Inv(h) && H.Enabled(h, H.ServerSeat)
    ensures Matches(H.DoSeat(h), s)
  {
    SeatIsNew(h);
    SeatStaff(h);
    hide H.Inv, H.Vacancy, Staffed, Agrees;
    KeepsLock(h, H.DoSeat(h), s);
  }

  // ---------- Every step, every run ----------

  predicate IsClientLock(a: H.Action) {
    a.LockSend? || a.LockRecv? || a.LockPost? || a.LockExit?
  }

  lemma ClientLockShape(h: H.State, a: H.Action)
    requires Staffed(h) && H.Enabled(h, a) && IsClientLock(a)
    ensures h.holder.Nobody? && SameStaff(h, H.Next(h, a)) && H.Next(h, a).holder == H.Client(a.id) && a.id in h.pid
  {
  }

  /** The semaphore follows one step of the handshake with the calls of that step. */
  ghost predicate Follows(h: H.State, s: P.State, a: H.Action, t: P.State)
    requires Staffed(h) && H.Enabled(h, a)
  {
    ActorHasProcess(h, a);
    P.Runs(s, Acts(h, a), t, true) && Matches(H.Next(h, a), t)
  }

  lemma OneCallFollows(h: H.State, s: P.State, a: H.Action, call: P.Action)
    requires Staffed(h) && H.Enabled(h, a)
    requires P.Enabled(s, call) && P.Disciplined(s, call) && Matches(H.Next(h, a), P.Next(s, call))
    requires ActorLives(h, a) && Acts(h, a) == [call]
    ensures Follows(h, s, a, P.Next(s, call))
  {
    P.RunsOne(s, call, true);
    hide Matches, Staffed, H.Enabled, H.Next, P.Enabled, P.Disciplined, P.Next, P.Runs, Acts;
  }

  lemma ClientLockFollows(h: H.State, s: P.State, a: H.Action) returns (t: P.State)
    requires Matches(h, s) && H.Enabled(h, a) && IsClientLock(a)
    ensures Follows(h, s, a, t)
  {
    ClientLockShape(h, a);
    var p := h.pid[a.id];
    hide H.Next, H.Enabled, Numbered, Staffed, Agrees, P.Next, P.Enabled, P.Disciplined, P.Runs;
    TakesLock(h, H.Next(h, a), s);
    P.RunsOne(s, P.Wait(p), true);
    t := P.Next(s, P.Wait(p));
  }

  lemma OtherLockFollows(h: H.State, s: P.State, a: H.Action) returns (t: P.State)
    requires Matches(h, s) && H.Enabled(h, a) && (a.ServerLock? || a.ChildLock?)
    ensures Follows(h, s, a, t)
  {
    var p := if a.ServerLock? then SERVER else a.child;
    hide Numbered, Staffed, Agrees, P.Next, P.Enabled, P.Disciplined, P.Runs;
    TakesLock(h, H.Next(h, a), s);
    P.RunsOne(s, P.Wait(p), true);
    t := P.Next(s, P.Wait(p));
  }

  lemma SilentFollows(h: H.State, s: P.State, a: H.Action)
    requires Matches(h, s) && H.Inv(h) && H.Enabled(h, a) && (IsSilent(a) || a.ServerSeat?)
    ensures Follows(h, s, a, s)
  {
    if a.ServerSeat? {
      SeatMatches(h, s);
    } else {
      SilentMatches(h, s, a);
    }
    hide H.Inv, H.Next, H.Enabled, Numbered, Staffed, Agrees;
  }

  lemma ServerStepFollows(h: H.State, s: P.State, a: H.Action) returns (t: P.State)
    requires Matches(h, s) && H.Enabled(h, a) && (a.ServerUnlock? || a.ServerFork?)
    ensures Follows(h, s, a, t)
  {
    if a.ServerUnlock? {
      GivesLock(h, H.Next(h, a), s);
    } else {
      ServerForkMatches(h, s);
    }
    var call := if a.ServerUnlock? then P.Signal(SERVER) else P.Fork(SERVER, h.born);
    hide Numbered, Agrees, P.Next, P.Enabled, P.Disciplined;
    OneCallFollows(h, s, a, call);
    t := P.Next(s, call);
  }

  lemma ChildStepFollows(h: H.State, s: P.State, a: H.Action) returns (t: P.State)
    requires Matches(h, s) && P.Inv(s) && H.Enabled(h, a) && (a.ChildUnlock? || a.ChildKill?)
    ensures Follows(h, s, a, t)
  {
    hide Matches, P.Inv, P.Next, P.Enabled, P.Disciplined, H.DoChildGone, P.Runs;
    if a.ChildUnlock? {
      ChildUnlockMatches(h, s, a.child);
    } else {
      ChildKillMatches(h, s, a.child);
    }
    var call := if a.ChildUnlock? then P.Signal(a.child) else P.Die(a.child);
    StaffOf(h, s);
    OneCallFollows(h, s, a, call);
    t := P.Next(s, call);
  }

  lemma StaffOf(h: H.State, s: P.State)
    requires Matches(h, s)
    ensures Numbered(h) && Staffed(h)
  {
  }

  lemma UserStepFollows(h: H.State, s: P.State, a: H.Action) returns (t: P.State)
    requires Matches(h, s) && H.DoingAgrees(h) && P.Inv(s) && H.Enabled(h, a) && (a.Kill? || a.Spawn?)
    ensures Follows(h, s, a, t)
  {
    StaffOf(h, s);
    ActorHasProcess(h, a);
    hide Matches, Numbered, Staffed, P.Inv, P.Next, P.Enabled, P.Disciplined, H.DoKill, H.DoSpawn, P.Runs, H.DoingAgrees;
    var p := h.pid[a.id];
    if a.Kill? {
      KillMatches(h, s, a.id);
    } else {
      SpawnMatches(h, s, a.id);
    }
    var call := if a.Kill? then P.Die(p) else P.Fork(p, h.born);
    OneCallFollows(h, s, a, call);
    t := P.Next(s, call);
  }

  lemma UnlockShape(h: H.State, id: H.Id)
    requires Staffed(h) && H.DoingAgrees(h) && H.Enabled(h, H.Unlock(id))
    ensures h.holder == H.Client(id) && id in h.pid
    ensures H.At(h, id).Updated? ==> SameStaff(h, H.DoUnlock(h, id)) && H.DoUnlock(h, id).holder.Nobody?
  {
    assert H.Agrees(h, id, h.doing[id]);
  }

  lemma UnlockFollows(h: H.State, s: P.State, id: H.Id) returns (t: P.State)
    requires Matches(h, s) && H.DoingAgrees(h) && P.Inv(s) && H.Enabled(h, H.Unlock(id))
    ensures Follows(h, s, H.Unlock(id), t)
  {
    UnlockShape(h, id);
    var p := h.pid[id];
    hide Numbered, Staffed, Agrees, P.Inv, P.Next, P.Enabled, P.Disciplined, H.DoingAgrees;
    if H.At(h, id).Left? {
      LeaveUnlockMatches(h, s, id);
      RunsTwoMore(s, P.Signal(p), P.Die(p));
      t := P.Next(P.Next(s, P.Signal(p)), P.Die(p));
    } else {
      GivesLock(h, H.DoUnlock(h, id), s);
      P.RunsOne(s, P.Signal(p), true);
      t := P.Next(s, P.Signal(p));
    }
    hide P.Runs;
  }

  lemma RunsTwoMore(s: P.State, a: P.Action, b: P.Action)
    requires P.Enabled(s, a) && P.Disciplined(s, a)
    requires P.Enabled(P.Next(s, a), b) && P.Disciplined(P.Next(s, a), b)
    ensures P.Runs(s, [a, b], P.Next(P.Next(s, a), b), true)
  {
    hide P.Enabled, P.Disciplined, P.Next;
    P.RunsTwo(s, a, b);
  }

  /** Every step of the handshake is followed by the semaphore. */
  lemma StepFollows(h: H.State, s: P.State, a: H.Action) returns (t: P.State)
    requires Matches(h, s) && H.Inv(h) && P.Inv(s) && H.Enabled(h, a)
    ensures Follows(h, s, a, t)
  {
    hide Matches, Follows, P.Inv, H.Enabled, H.DoingAgrees, H.MarksAgree, H.LogAgrees, H.BlindAgrees;
    if IsClientLock(a) {
      t := ClientLockFollows(h, s, a);
    } else if a.ServerLock? || a.ChildLock? {
      t := OtherLockFollows(h, s, a);
    } else if a.ServerUnlock? || a.ServerFork? {
      t := ServerStepFollows(h, s, a);
    } else if a.ChildUnlock? || a.ChildKill? {
      t := ChildStepFollows(h, s, a);
    } else if a.Kill? || a.Spawn? {
      t := UserStepFollows(h, s, a);
    } else if a.Unlock? {
      t := UnlockFollows(h, s, a.id);
    } else {
      t := s;
      SilentFollows(h, s, a);
    }
  }

  /** A run of the handshake is a run of the semaphore. */
  lemma {:induction false} RunFollows(h: H.State, acts: seq<H.Action>, g: H.State, s: P.State) returns (calls: seq<P.Action>, t: P.State)
    requires Matches(h, s) && H.Inv(h) && P.Inv(s) && H.Runs(h, acts, g)
    ensures P.Runs(s, calls, t, true) && Matches(g, t)
    decreases |acts|
  {
    if acts == [] {
      calls, t := [], s;
    } else {
      var u := StepFollows(h, s, acts[0]);
      ActorHasProcess(h, acts[0]);
      H.NextKeepsInv(h, acts[0]);
      P.RunsKeepInv(s, Acts(h, acts[0]), u);
      hide Matches, H.Inv, P.Inv, H.Enabled, H.Next, Acts, P.Runs;
      calls, t := RunFollows(H.Next(h, acts[0]), acts[1..], g, u);
      P.RunsAppend(s, Acts(h, acts[0]), u, calls, t, true);
      calls := Acts(h, acts[0]) + calls;
    }
  }

  /** At the start the server's sem_create has returned, and nobody else has begun. */
  lemma StartMatches(h: H.State) returns (s: P.State)
    requires H.Initial(h)
    ensures Matches(h, s) && P.Reachable(s) && H.Inv(h)
  {
    var z := P.NobodyYet();
    s := P.CreateSucceeds(z, SERVER);
    P.IsReachable(z, P.CreateActs(SERVER, !z.live || z.val.procs == 0), s);
    StartAgrees(h, z, s);
  }

  lemma StartAgrees(h: H.State, z: P.State, s: P.State)
    requires H.Initial(h) && (forall p: Pid :: P.PcOf(z, p) == P.Out)
    requires P.Inv(s) && s.live && P.Is(s, SERVER, P.Open) && s.pc == z.pc[SERVER := P.At(P.Open, s.gen)]
    ensures Matches(h, s) && H.Inv(h)
  {
    forall p: Pid ensures P.PcOf(s, p) == if p == SERVER then P.At(P.Open, s.gen) else P.Out {
      assert P.PcOf(z, p) == P.Out;
    }
    assert P.Holders(s) == {} by {
      assert forall p :: p in s.pc ==> P.PcOf(s, p) == s.pc[p];
    }
    P.WaitSum(s, SERVER);
    H.RunsKeepInv(h, [], h);
  }

  /** In every run of the handshake, children included, the lock is the semaphore: the
      server, a client or a child is inside its bracket exactly when its process is the
      one that holds, and the lock is free exactly when the value is 1. */
  lemma LockIsTheSemaphore(g: H.State) returns (t: P.State)
    requires H.Reachable(g)
    ensures P.Reachable(t) && t.live && t.val.value == (if g.holder.Nobody? then 1 else 0)
    ensures forall id :: id in g.pid ==> (g.holder == H.Client(id) <==> g.pid[id] in P.Holders(t))
    ensures forall k :: k in g.kids ==> (g.holder == H.Child(k) <==> k in P.Holders(t))
    ensures g.holder.Server? || g.holder.Seating? <==> SERVER in P.Holders(t)
    ensures forall p: Pid :: p in P.Holders(t) ==> IsProcess(g, p)
    ensures forall p: Pid :: IsProcess(g, p) && Inside(g) != Some(p) ==> (P.CanWait(t, p) <==> g.holder.Nobody?)
  {
    var h, acts :| H.Initial(h) && H.Runs(h, acts, g);
    var s := StartMatches(h);
    P.ReachableInv(s);
    var calls;
    calls, t := RunFollows(h, acts, g, s);
    StillReachable(s, calls, t);
    HoldersMatch(g, t);
    forall p: Pid | IsProcess(g, p) && Inside(g) != Some(p) ensures P.CanWait(t, p) <==> g.holder.Nobody? {
      FreeMeansCanWait(g, t, p);
    }
  }

  lemma StillReachable(s: P.State, calls: seq<P.Action>, t: P.State)
    requires P.Reachable(s) && P.Runs(s, calls, t, true)
    ensures P.Reachable(t)
  {
    var z, before :| P.Initial(z) && P.Runs(z, before, s, true);
    P.RunsAppend(z, before, s, calls, t, true);
    P.IsReachable(z, before + calls, t);
  }

  lemma HoldersMatch(g: H.State, t: P.State)
    requires Matches(g, t)
    ensures forall id :: id in g.pid ==> (g.holder == H.Client(id) <==> g.pid[id] in P.Holders(t))
    ensures forall k :: k in g.kids ==> (g.holder == H.Child(k) <==> k in P.Holders(t))
    ensures g.holder.Server? || g.holder.Seating? <==> SERVER in P.Holders(t)
    ensures forall p: Pid :: p in P.Holders(t) ==> IsProcess(g, p)
  {
    forall p: Pid ensures p in P.Holders(t) <==> IsProcess(g, p) && Inside(g) == Some(p) {
      HolderMatches(g, t, p);
    }
    if !g.holder.Nobody? {
      HolderInside(g);
    }
    hide Agrees, P.Holders;
  }

  lemma HolderMatches(g: H.State, t: P.State, p: Pid)
    requires Agrees(g, t)
    ensures p in P.Holders(t) <==> IsProcess(g, p) && Inside(g) == Some(p)
  {
    hide IsProcess, Inside;
  }

  lemma FreeMeansCanWait(g: H.State, t: P.State, p: Pid)
    requires Matches(g, t) && IsProcess(g, p) && Inside(g) != Some(p)
    ensures P.CanWait(t, p) <==> g.holder.Nobody?
  {
    StartsOut(g, t, p);
    OpMeans(t.val, P.AdjOf(t, p), -1);
    hide Agrees, Numbered, Staffed, Semop, IsProcess, Inside;
  }
}
