/** The user-pipe marks of the multi-process server: clients check the shared table
    without the lock and update it inside sem_wait/sem_signal, while users exit and
    their places are given to newcomers. Every step is one unlocked read, one lock
    operation, or one write under the lock. */
module UserPipeHandshake {
  import opened Prelude

  const QLEN := 30

  type Id = nat
  type Pid = nat
  type Ticket = nat

  /** `user[receiver].name_pipe_record[sender]`. */
  datatype Cell = Cell(sender: Id, receiver: Id)

  /** Who is inside a sem_wait/sem_signal bracket: the accept loop before and after it
      has filled a place, a client, or a child that a client forked for a `>n`. */
  datatype Who = Nobody | Server | Seating | Client(id: Id) | Child(pid: Pid)

  /** What a client's process is in the middle of. `intact` says that the mark seen by
      the check has not been wiped since; `seen` is the ticket of the send whose mark it
      was. A `Starting` user has a place and no process yet. */
  datatype Doing =
    | Starting
    | Idle
    | ChoosingReceiver(r: Id)
    | Sending(r: Id)
    | SendLocked(r: Id)
    | ChoosingSender(s: Id)
    | Receiving(s: Id, seen: Ticket, intact: bool)
    | RecvLocked(s: Id, seen: Ticket, intact: bool)
    | Updated
    | Exiting(visited: nat)
    | Left
    | Killed

  /** The history of the table: a send; a receive that takes the send its check saw; one
      that clears whatever is there by then; a mark wiped by the exit of `wiper`; and users
      given a place and giving it up. */
  datatype Event =
    | Sent(cell: Cell, ticket: Ticket)
    | Taken(cell: Cell, ticket: Ticket)
    | Blind(cell: Cell, lost: Option<Ticket>)
    | Wiped(cell: Cell, wiper: Id, ticket: Ticket)
    | Seated(id: Id)
    | Departed(id: Id)

  /** `marks` holds, for every cell that is 1, the ticket of the send that set it. `seat`
      is the place that the accept loop has filled and not yet forked for, or 0. `pid` is
      the process of every user who has one; the server is process 0, `kids` are the
      forked children that still have to broadcast, and `born` is the next process. */
  datatype State = State(
    valid: set<Id>, marks: map<Cell, Ticket>, holder: Who, doing: map<Id, Doing>,
    next: Ticket, log: seq<Event>, seat: Id, pid: map<Id, Pid>, kids: set<Pid>, born: Pid)

  datatype Action =
    | CheckReceiver(id: Id, other: Id) | CheckSender(id: Id, other: Id) | CheckMark(id: Id)
    | LockSend(id: Id) | WriteMark(id: Id) | LockRecv(id: Id) | ClearMark(id: Id)
    | LockPost(id: Id) | LockExit(id: Id) | ExitVisit(id: Id) | ExitLeave(id: Id) | Unlock(id: Id)
    | ServerLock | ServerSeat | ServerUnlock | ServerFork | Kill(id: Id)
    | Spawn(id: Id) | ChildLock(child: Pid) | ChildUnlock(child: Pid) | ChildKill(child: Pid)

  function At(s: State, id: Id): Doing {
    if id in s.doing then s.doing[id] else Killed
  }

  function Go(s: State, id: Id, d: Doing): State {
    s.(doing := s.doing[id := d])
  }

  function MarkOf(marks: map<Cell, Ticket>, c: Cell): Option<Ticket> {
    if c in marks then Some(marks[c]) else None
  }

  // ---------- The steps ----------

  /** check_id_exist for a send. */
  function DoCheckReceiver(s: State, id: Id, r: Id): State {
    if r in s.valid then Go(s, id, ChoosingReceiver(r)) else s
  }

  function DoCheckSender(s: State, id: Id, o: Id): State {
    if o in s.valid then Go(s, id, ChoosingSender(o)) else s
  }

  /** check_name_pipe_exist, with its error path. */
  function DoCheckMark(s: State, id: Id): State {
    match At(s, id)
    case ChoosingReceiver(r) => Go(s, id, if Cell(id, r) in s.marks then Idle else Sending(r))
    case ChoosingSender(o) =>
      Go(s, id, if Cell(o, id) in s.marks then Receiving(o, s.marks[Cell(o, id)], true) else Idle)
    case _ => s
  }

  function DoWriteMark(s: State, id: Id): State
    requires At(s, id).SendLocked?
  {
    var c := Cell(id, At(s, id).r);
    Go(s, id, Updated).(marks := s.marks[c := s.next], next := s.next + 1, log := s.log + [Sent(c, s.next)])
  }

  function ClearEvent(s: State, id: Id): Event
    requires At(s, id).RecvLocked?
  {
    var c := Cell(At(s, id).s, id);
    if At(s, id).intact then Taken(c, At(s, id).seen) else Blind(c, MarkOf(s.marks, c))
  }

  function DoClearMark(s: State, id: Id): State
    requires At(s, id).RecvLocked?
  {
    Go(s, id, Updated).(marks := s.marks - {Cell(At(s, id).s, id)}, log := s.log + [ClearEvent(s, id)])
  }

  /** The cell that the nested loops of exit reach after `k` inner steps. */
  function NthCell(k: nat): Cell {
    Cell(k % QLEN + 1, k / QLEN + 1)
  }

  function Index(c: Cell): int {
    (c.receiver - 1) * QLEN + (c.sender - 1)
  }

  predicate Touches(c: Cell, id: Id) {
    c.sender == id || c.receiver == id
  }

  /** A receiver that is between its check of this cell and its update. */
  function Disturb(doing: map<Id, Doing>, c: Cell): map<Id, Doing> {
    if c.receiver in doing && doing[c.receiver].Receiving? && doing[c.receiver].s == c.sender
    then doing[c.receiver := Receiving(c.sender, doing[c.receiver].seen, false)]
    else doing
  }

  function Wipe(s: State, c: Cell, wiper: Id): State {
    if c !in s.marks then s
    else s.(marks := s.marks - {c}, doing := Disturb(s.doing, c), log := s.log + [Wiped(c, wiper, s.marks[c])])
  }

  function DoExitVisit(s: State, id: Id): State
    requires At(s, id).Exiting?
  {
    var k := At(s, id).visited;
    Go(if Touches(NthCell(k), id) then Wipe(s, NthCell(k), id) else s, id, Exiting(k + 1))
  }

  function DoExitLeave(s: State, id: Id): State {
    Go(s, id, Left).(valid := s.valid - {id}, log := s.log + [Departed(id)])
  }

  function DoUnlock(s: State, id: Id): State {
    if At(s, id) == Left then s.(doing := s.doing - {id}, holder := Nobody, pid := s.pid - {id})
    else Go(s, id, Idle).(holder := Nobody)
  }

  predicate IsFree(s: State, id: Id) {
    1 <= id <= QLEN && id !in s.valid
  }

  predicate IsLowestFree(s: State, id: Id) {
    IsFree(s, id) && forall j: nat :: 1 <= j < id ==> j in s.valid
  }

  function LowestFreeFrom(s: State, id: Id): Id
    decreases QLEN - id
  {
    if id >= QLEN || id !in s.valid then id else LowestFreeFrom(s, id + 1)
  }

  /** The place that the accept loop is about to fill. */
  function Vacancy(s: State): Id {
    LowestFreeFrom(s, 1)
  }

  function DoSeat(s: State): State {
    Go(s, Vacancy(s), Starting).(valid := s.valid + {Vacancy(s)}, holder := Seating, seat := Vacancy(s),
      log := s.log + [Seated(Vacancy(s))])
  }

  /** The server forks the new user's process after it has released the lock. */
  function DoServerFork(s: State): State {
    Go(s, s.seat, Idle).(pid := s.pid[s.seat := s.born], born := s.born + 1, seat := 0)
  }

  /** A process that dies holding the lock gives it back through its undo. */
  function DoKill(s: State, id: Id): State {
    var t := (if At(s, id) == Left then s.(doing := s.doing - {id}) else Go(s, id, Killed)).(pid := s.pid - {id});
    if s.holder == Client(id) then t.(holder := Nobody) else t
  }

  function DoSpawn(s: State): State {
    s.(kids := s.kids + {s.born}, born := s.born + 1)
  }

  function DoChildGone(s: State, child: Pid): State {
    s.(kids := s.kids - {child}, holder := if s.holder == Child(child) then Nobody else s.holder)
  }

  predicate Enabled(s: State, a: Action) {
    match a
    case CheckReceiver(id, _) => At(s, id).Idle?
    case CheckSender(id, _) => At(s, id).Idle?
    case CheckMark(id) => At(s, id).ChoosingReceiver? || At(s, id).ChoosingSender?
    case LockSend(id) => At(s, id).Sending? && s.holder == Nobody
    case WriteMark(id) => At(s, id).SendLocked?
    case LockRecv(id) => At(s, id).Receiving? && s.holder == Nobody
    case ClearMark(id) => At(s, id).RecvLocked?
    case LockPost(id) => At(s, id).Idle? && s.holder == Nobody
    case LockExit(id) => At(s, id).Idle? && s.holder == Nobody
    case ExitVisit(id) => At(s, id).Exiting? && At(s, id).visited < QLEN * QLEN
    case ExitLeave(id) => At(s, id) == Exiting(QLEN * QLEN)
    case Unlock(id) => At(s, id).Updated? || At(s, id).Left?
    case ServerLock => s.holder == Nobody && s.seat == 0
    case ServerSeat => s.holder == Server && IsFree(s, Vacancy(s))
    case ServerUnlock => s.holder == Seating
    case ServerFork => s.holder != Seating && At(s, s.seat).Starting?
    case Kill(id) => id in s.doing && !At(s, id).Killed? && !At(s, id).Starting?
    case Spawn(id) => At(s, id).Idle?
    case ChildLock(k) => k in s.kids && s.holder == Nobody
    case ChildUnlock(k) => k in s.kids && s.holder == Child(k)
    case ChildKill(k) => k in s.kids
  }

  function Next(s: State, a: Action): State
    requires Enabled(s, a)
  {
    match a
    case CheckReceiver(id, r) => DoCheckReceiver(s, id, r)
    case CheckSender(id, o) => DoCheckSender(s, id, o)
    case CheckMark(id) => DoCheckMark(s, id)
    case LockSend(id) => Go(s, id, SendLocked(At(s, id).r)).(holder := Client(id))
    case WriteMark(id) => DoWriteMark(s, id)
    case LockRecv(id) => Go(s, id, RecvLocked(At(s, id).s, At(s, id).seen, At(s, id).intact)).(holder := Client(id))
    case ClearMark(id) => DoClearMark(s, id)
    case LockPost(id) => Go(s, id, Updated).(holder := Client(id))
    case LockExit(id) => Go(s, id, Exiting(0)).(holder := Client(id))
    case ExitVisit(id) => DoExitVisit(s, id)
    case ExitLeave(id) => DoExitLeave(s, id)
    case Unlock(id) => DoUnlock(s, id)
    case ServerLock => s.(holder := Server)
    case ServerSeat => DoSeat(s)
    case ServerUnlock => s.(holder := Nobody)
    case ServerFork => DoServerFork(s)
    case Kill(id) => DoKill(s, id)
    case Spawn(_) => DoSpawn(s)
    case ChildLock(k) => s.(holder := Child(k))
    case ChildUnlock(k) => DoChildGone(s, k)
    case ChildKill(k) => DoChildGone(s, k)
  }

  // ---------- The history ----------

  predicate IsMarkEvent(e: Event) {
    !e.Seated? && !e.Departed?
  }

  predicate IsOn(e: Event, c: Cell) {
    IsMarkEvent(e) && e.cell == c
  }

  function Effect(marks: map<Cell, Ticket>, e: Event): map<Cell, Ticket> {
    match e
    case Sent(c, t) => marks[c := t]
    case Seated(_) => marks
    case Departed(_) => marks
    case _ => marks - {e.cell}
  }

  function Moves(users: set<Id>, e: Event): set<Id> {
    match e
    case Seated(id) => users + {id}
    case Departed(id) => users - {id}
    case _ => users
  }

  /** The marks that a history leaves behind, and who has a place. */
  function Replay(log: seq<Event>): map<Cell, Ticket>
    decreases |log|
  {
    if log == [] then map[] else Effect(Replay(log[..|log| - 1]), log[|log| - 1])
  }

  function Occupied(log: seq<Event>): set<Id>
    decreases |log|
  {
    if log == [] then {} else Moves(Occupied(log[..|log| - 1]), log[|log| - 1])
  }

  /** A send never sets a mark that is set; a receive takes the send it saw; only users
      with a place receive, wipe and depart, and nobody departs leaving marks. */
  predicate Fits(marks: map<Cell, Ticket>, users: set<Id>, e: Event) {
    match e
    case Sent(c, _) => c !in marks
    case Taken(c, t) => c in marks && marks[c] == t && c.receiver in users
    case Blind(c, lost) => lost == MarkOf(marks, c) && c.receiver in users
    case Wiped(c, wiper, t) => c in marks && marks[c] == t && wiper in users && Touches(c, wiper)
    case Seated(id) => id !in users
    case Departed(id) => id in users && forall c :: c in marks ==> !Touches(c, id)
  }

  predicate Orderly(log: seq<Event>)
    decreases |log|
  {
    log == [] ||
    (Orderly(log[..|log| - 1]) && Fits(Replay(log[..|log| - 1]), Occupied(log[..|log| - 1]), log[|log| - 1]))
  }

  lemma ReplayMore(log: seq<Event>, e: Event)
    ensures Replay(log + [e]) == Effect(Replay(log), e) && Occupied(log + [e]) == Moves(Occupied(log), e)
    ensures Orderly(log + [e]) <==> Orderly(log) && Fits(Replay(log), Occupied(log), e)
  {
    hide Effect, Moves, Fits;
    assert (log + [e])[..|log + [e]| - 1] == log;
  }

  /** The last thing that happened to this cell or to its receiver's place is a send. */
  predicate WrittenVacant(log: seq<Event>, c: Cell)
    decreases |log|
  {
    log != [] &&
    var e := log[|log| - 1];
    if IsOn(e, c) then e.Sent?
    else !MovesPlace(e, c.receiver) && WrittenVacant(log[..|log| - 1], c)
  }

  predicate MovesPlace(e: Event, id: Id) {
    e == Seated(id) || e == Departed(id)
  }

  lemma WrittenMore(log: seq<Event>, e: Event, c: Cell)
    ensures WrittenVacant(log + [e], c) <==>
      if IsOn(e, c) then e.Sent? else !MovesPlace(e, c.receiver) && WrittenVacant(log, c)
  {
    hide IsOn, MovesPlace;
    assert (log + [e])[..|log + [e]| - 1] == log;
  }

  // ---------- The invariant ----------

  predicate IsLocked(d: Doing) {
    d.SendLocked? || d.RecvLocked? || d.Updated? || d.Exiting? || d.Left?
  }

  /** What a client's place says about the shared table. */
  predicate Agrees(s: State, id: Id, d: Doing) {
    && (IsLocked(d) <==> s.holder == Client(id))
    && (id in s.valid <==> !d.Left?)
    && match d
       case ChoosingReceiver(r) => 1 <= r <= QLEN
       case Sending(r) => 1 <= r <= QLEN && Cell(id, r) !in s.marks
       case SendLocked(r) => 1 <= r <= QLEN && Cell(id, r) !in s.marks
       case Receiving(o, t, intact) => t < s.next && (intact <==> Cell(o, id) in s.marks && s.marks[Cell(o, id)] == t)
       case RecvLocked(o, t, intact) => t < s.next && (intact <==> Cell(o, id) in s.marks && s.marks[Cell(o, id)] == t)
       case Exiting(k) => k <= QLEN * QLEN && forall c :: c in s.marks && Touches(c, id) ==> Index(c) >= k
       case Left => forall c :: c in s.marks ==> !Touches(c, id)
       case _ => true
  }

  predicate DoingAgrees(s: State) {
    && (forall id :: id in s.doing ==> Agrees(s, id, s.doing[id]))
    && (forall id :: id in s.valid ==> id in s.doing && 1 <= id <= QLEN)
    && (s.holder.Client? ==> s.holder.id in s.doing)
  }

  /** Senders of marks always have a place; receivers do too, unless the mark was written
      for a place that has been vacant ever since. */
  predicate MarksAgree(s: State) {
    && (forall c :: c in s.marks ==> s.marks[c] < s.next && c.sender in s.valid)
    && (forall c :: c in s.marks ==> c.receiver in s.valid || WrittenVacant(s.log, c))
    && (forall c :: c in s.marks ==> 1 <= c.receiver <= QLEN && 1 <= c.sender <= QLEN)
    && (forall c, d :: c in s.marks && d in s.marks && s.marks[c] == s.marks[d] ==> c == d)
  }

  /** Every send in the history has a ticket of its own. */
  predicate TicketsGrow(log: seq<Event>, next: Ticket) {
    && (forall i :: 0 <= i < |log| && log[i].Sent? ==> log[i].ticket < next)
    && (forall i, j :: 0 <= i < j < |log| && log[i].Sent? && log[j].Sent? ==> log[i].ticket < log[j].ticket)
  }

  predicate LogAgrees(s: State) {
    Orderly(s.log) && Replay(s.log) == s.marks && Occupied(s.log) == s.valid && TicketsGrow(s.log, s.next)
  }

  predicate WipedEver(log: seq<Event>, c: Cell) {
    exists k :: 0 <= k < |log| && log[k].Wiped? && log[k].cell == c
  }

  predicate Disturbed(d: Doing) {
    (d.Receiving? || d.RecvLocked?) && !d.intact
  }

  /** Only a wiped mark makes a receive blind. */
  predicate BlindAgrees(s: State) {
    && (forall id :: id in s.doing && Disturbed(s.doing[id]) ==> WipedEver(s.log, Cell(s.doing[id].s, id)))
    && (forall k :: 0 <= k < |s.log| && s.log[k].Blind? ==> WipedEver(s.log, s.log[k].cell))
  }

  predicate Inv(s: State) {
    DoingAgrees(s) && MarksAgree(s) && LogAgrees(s) && BlindAgrees(s)
  }

  /** The server is process 0 and has forked nobody. */
  predicate Initial(s: State) {
    && s.valid == {} && s.marks == map[] && s.holder == Nobody && s.doing == map[] && s.log == []
    && s.seat == 0 && s.pid == map[] && s.kids == {} && s.born == 1
  }

  // ---------- Every step keeps the invariant ----------

  /** A step that changes one client's place and, at most, one cell: everybody else
      still agrees if what their place depends on is unchanged. */
  lemma OthersAgree(s: State, t: State, id: Id)
    requires DoingAgrees(s) && t.valid == s.valid && t.doing == s.doing[id := At(t, id)] && id in s.doing
    requires Agrees(t, id, At(t, id)) && (t.holder.Client? ==> t.holder.id in t.doing)
    requires forall j :: j in s.doing && j != id && Agrees(s, j, s.doing[j]) ==> Agrees(t, j, s.doing[j])
    ensures DoingAgrees(t)
  {
    forall j | j in t.doing ensures Agrees(t, j, t.doing[j]) {
      if j != id {
        assert Agrees(s, j, s.doing[j]);
      }
    }
  }

  /** A step that leaves the marks alone: the other clients still agree. */
  lemma OthersUnmoved(s: State, t: State, id: Id)
    requires DoingAgrees(s) && t.valid == s.valid && t.marks == s.marks && t.next == s.next
    requires t.doing == s.doing[id := At(t, id)] && id in s.doing
    requires forall j :: j != id ==> (t.holder == Client(j) <==> s.holder == Client(j))
    requires Agrees(t, id, At(t, id)) && (t.holder.Client? ==> t.holder.id in t.doing)
    ensures DoingAgrees(t)
  {
    forall j | j in t.doing ensures Agrees(t, j, t.doing[j]) {
      if j != id {
        StillAgrees(s, t, j, s.doing[j]);
      }
    }
  }

  lemma StillAgrees(s: State, t: State, j: Id, d: Doing)
    requires Agrees(s, j, d) && t.marks == s.marks && t.next == s.next && t.valid == s.valid
    requires t.holder == Client(j) <==> s.holder == Client(j)
    ensures Agrees(t, j, d)
  {
  }

  /** A step that touches neither the table nor its history. */
  lemma QuietKeeps(s: State, t: State)
    requires MarksAgree(s) && LogAgrees(s)
    requires t.marks == s.marks && t.next == s.next && t.log == s.log && t.valid == s.valid
    ensures MarksAgree(t) && LogAgrees(t)
  {
  }

  /** No receiver becomes disturbed, and nothing is wiped or received blindly. */
  lemma BlindQuiet(s: State, t: State)
    requires BlindAgrees(s) && t.log == s.log
    requires forall id :: id in t.doing && Disturbed(t.doing[id]) ==>
      id in s.doing && Disturbed(s.doing[id]) && s.doing[id].s == t.doing[id].s
    ensures BlindAgrees(t)
  {
    hide WipedEver;
  }

  lemma TicketsMore(log: seq<Event>, next: Ticket, e: Event, next2: Ticket)
    requires TicketsGrow(log, next) && if e.Sent? then e.ticket == next < next2 else next == next2
    ensures TicketsGrow(log + [e], next2)
  {
  }

  lemma LogMore(s: State, t: State, e: Event)
    requires LogAgrees(s) && t.log == s.log + [e] && Fits(s.marks, s.valid, e)
    requires t.marks == Effect(s.marks, e) && t.valid == Moves(s.valid, e)
    requires if e.Sent? then e.ticket == s.next < t.next else s.next == t.next
    ensures LogAgrees(t)
  {
    hide Replay, Occupied, Orderly, TicketsGrow, Effect, Moves, Fits;
    ReplayMore(s.log, e);
    TicketsMore(s.log, s.next, e, t.next);
  }

  lemma WipedMore(log: seq<Event>, e: Event, c: Cell)
    ensures WipedEver(log + [e], c) <==> WipedEver(log, c) || (e.Wiped? && e.cell == c)
  {
    var more := log + [e];
    assert more[|log|] == e;
    if WipedEver(log, c) {
      var k :| 0 <= k < |log| && log[k].Wiped? && log[k].cell == c;
      assert more[k] == log[k];
    }
    if WipedEver(more, c) {
      var k :| 0 <= k < |more| && more[k].Wiped? && more[k].cell == c;
      assert k < |log| ==> more[k] == log[k];
    }
  }

  /** One more event: blind receives and newly disturbed receivers need a wiped mark. */
  lemma BlindMore(s: State, t: State, e: Event)
    requires BlindAgrees(s) && t.log == s.log + [e]
    requires e.Blind? ==> WipedEver(s.log, e.cell)
    requires forall id :: id in t.doing && Disturbed(t.doing[id]) ==>
      || (id in s.doing && Disturbed(s.doing[id]) && s.doing[id].s == t.doing[id].s)
      || (e.Wiped? && e.cell == Cell(t.doing[id].s, id))
    ensures BlindAgrees(t)
  {
    hide WipedEver, Disturbed;
    forall id | id in t.doing && Disturbed(t.doing[id]) && (t.doing[id].Receiving? || t.doing[id].RecvLocked?)
      ensures WipedEver(t.log, Cell(t.doing[id].s, id))
    {
      WipedMore(s.log, e, Cell(t.doing[id].s, id));
    }
    forall k | 0 <= k < |t.log| && t.log[k].Blind? ensures WipedEver(t.log, t.log[k].cell) {
      assert k < |s.log| ==> t.log[k] == s.log[k];
      WipedMore(s.log, e, t.log[k].cell);
    }
    DisturbedReceives(t);
  }

  lemma DisturbedReceives(t: State)
    ensures forall id :: id in t.doing && Disturbed(t.doing[id]) ==> t.doing[id].Receiving? || t.doing[id].RecvLocked?
  {
  }

  /** One more event: what it leaves of the marks, and at most one new mark. */
  lemma MarksMore(s: State, t: State, e: Event)
    requires MarksAgree(s) && t.log == s.log + [e] && s.next <= t.next && t.valid == Moves(s.valid, e)
    requires forall c :: c in t.marks ==>
      || (c in s.marks && t.marks[c] == s.marks[c] && !IsOn(e, c))
      || (e == Sent(c, t.marks[c]) && t.marks[c] == s.next < t.next && c.sender in s.valid
          && 1 <= c.receiver <= QLEN && 1 <= c.sender <= QLEN)
    requires e.Departed? ==> forall c :: c in t.marks ==> !Touches(c, e.id)
    ensures MarksAgree(t)
  {
    hide WrittenVacant, IsOn;
    forall c | c in t.marks ensures c.receiver in t.valid || WrittenVacant(t.log, c) {
      WrittenMore(s.log, e, c);
      assert e == Sent(c, t.marks[c]) ==> IsOn(e, c) by { SentIsOn(c, t.marks[c]); }
    }
  }

  lemma SentIsOn(c: Cell, x: Ticket)
    ensures IsOn(Sent(c, x), c)
  {
  }

  lemma CheckReceiverKeeps(s: State, id: Id, r: Id)
    requires DoingAgrees(s) && At(s, id).Idle?
    ensures DoingAgrees(DoCheckReceiver(s, id, r))
  {
    assert Agrees(s, id, s.doing[id]);
    if r in s.valid {
      OthersUnmoved(s, DoCheckReceiver(s, id, r), id);
    }
  }

  lemma CheckSenderKeeps(s: State, id: Id, o: Id)
    requires DoingAgrees(s) && At(s, id).Idle?
    ensures DoingAgrees(DoCheckSender(s, id, o))
  {
    assert Agrees(s, id, s.doing[id]);
    if o in s.valid {
      OthersUnmoved(s, DoCheckSender(s, id, o), id);
    }
  }

  lemma CheckMarkKeeps(s: State, id: Id)
    requires DoingAgrees(s) && MarksAgree(s) && Enabled(s, CheckMark(id))
    ensures DoingAgrees(DoCheckMark(s, id))
  {
    var t := DoCheckMark(s, id);
    assert Agrees(s, id, s.doing[id]);
    OthersUnmoved(s, t, id);
  }

  lemma LocksKeep(s: State, a: Action)
    requires DoingAgrees(s) && MarksAgree(s) && Enabled(s, a) && (a.LockSend? || a.LockRecv? || a.LockPost? || a.LockExit?)
    ensures DoingAgrees(Next(s, a))
  {
    assert Agrees(s, a.id, s.doing[a.id]);
    OthersUnmoved(s, Next(s, a), a.id);
  }

  lemma WroteAgrees(s: State, t: State, c: Cell, j: Id, d: Doing)
    requires Agrees(s, j, d) && j != c.sender && (s.holder == Client(j) <==> t.holder == Client(j))
    requires !d.Exiting? && !d.Left?
    requires t.marks == s.marks[c := s.next] && t.next == s.next + 1 && t.valid == s.valid && c !in s.marks
    ensures Agrees(t, j, d)
  {
  }

  lemma WriteKeepsDoing(s: State, id: Id)
    requires Inv(s) && Enabled(s, WriteMark(id))
    ensures DoingAgrees(DoWriteMark(s, id))
  {
    var t := DoWriteMark(s, id);
    var c := Cell(id, At(s, id).r);
    assert Agrees(s, id, s.doing[id]);
    forall j | j in s.doing && j != id ensures Agrees(t, j, s.doing[j]) {
      assert Agrees(s, j, s.doing[j]);
      WroteAgrees(s, t, c, j, s.doing[j]);
    }
    OthersAgree(s, t, id);
  }

  lemma WriteKeeps(s: State, id: Id)
    requires Inv(s) && Enabled(s, WriteMark(id))
    ensures Inv(DoWriteMark(s, id))
  {
    WriteKeepsDoing(s, id);
    var t, c := DoWriteMark(s, id), Cell(id, At(s, id).r);
    assert Agrees(s, id, s.doing[id]);
    hide DoingAgrees, Replay, Occupied, Orderly, TicketsGrow, WrittenVacant, WipedEver;
    LogMore(s, t, Sent(c, s.next));
    BlindMore(s, t, Sent(c, s.next));
    hide LogAgrees, BlindAgrees;
    MarksMore(s, t, Sent(c, s.next));
  }

  lemma ClearedAgrees(s: State, t: State, c: Cell, j: Id, d: Doing)
    requires Agrees(s, j, d) && j != c.receiver && (s.holder == Client(j) <==> t.holder == Client(j))
    requires t.marks == s.marks - {c} && t.next == s.next && t.valid == s.valid
    ensures Agrees(t, j, d)
  {
  }

  lemma ClearKeepsDoing(s: State, id: Id)
    requires Inv(s) && Enabled(s, ClearMark(id))
    ensures DoingAgrees(DoClearMark(s, id))
  {
    var t := DoClearMark(s, id);
    assert Agrees(s, id, s.doing[id]);
    forall j | j in s.doing && j != id ensures Agrees(t, j, s.doing[j]) {
      assert Agrees(s, j, s.doing[j]);
      ClearedAgrees(s, t, Cell(At(s, id).s, id), j, s.doing[j]);
    }
    OthersAgree(s, t, id);
  }

  /** The event of a clearing fits the history, and a blind one follows a wiped mark. */
  lemma ClearFits(s: State, id: Id)
    requires Inv(s) && Enabled(s, ClearMark(id))
    ensures
      var e := ClearEvent(s, id);
      && Fits(s.marks, s.valid, e) && e.cell == Cell(At(s, id).s, id) && IsOn(e, e.cell) && !e.Sent?
      && (e.Blind? ==> WipedEver(s.log, e.cell)) && (e.Blind? || e.Taken?)
  {
    assert Agrees(s, id, s.doing[id]);
    hide LogAgrees, MarksAgree, WipedEver;
    assert Disturbed(s.doing[id]) ==> WipedEver(s.log, Cell(s.doing[id].s, id));
  }

  lemma ClearKeeps(s: State, id: Id)
    requires Inv(s) && Enabled(s, ClearMark(id))
    ensures Inv(DoClearMark(s, id))
  {
    ClearKeepsDoing(s, id);
    ClearFits(s, id);
    var t, e := DoClearMark(s, id), ClearEvent(s, id);
    hide DoingAgrees, Replay, Occupied, Orderly, TicketsGrow, WrittenVacant, WipedEver, ClearEvent, Fits;
    LogMore(s, t, e);
    BlindMore(s, t, e);
    hide LogAgrees, BlindAgrees;
    MarksMore(s, t, e);
  }

  lemma DisturbedAgree(s: State, c: Cell, wiper: Id, j: Id)
    requires DoingAgrees(s) && MarksAgree(s) && c in s.marks && j in s.doing
    requires c.receiver == j ==> !s.doing[j].RecvLocked?
    ensures j in Wipe(s, c, wiper).doing && Agrees(Wipe(s, c, wiper), j, Wipe(s, c, wiper).doing[j])
  {
    assert Agrees(s, j, s.doing[j]);
  }

  /** Clearing one cell under the lock keeps everything that does not hang on it. */
  lemma WipeDoing(s: State, id: Id, c: Cell)
    requires DoingAgrees(s) && MarksAgree(s) && At(s, id).Exiting? && c in s.marks
    ensures DoingAgrees(Wipe(s, c, id))
  {
    var t := Wipe(s, c, id);
    assert Agrees(s, id, s.doing[id]);
    forall j | j in t.doing ensures Agrees(t, j, t.doing[j]) {
      assert Agrees(s, j, s.doing[j]);
      DisturbedAgree(s, c, id, j);
    }
  }

  lemma WipeRest(s: State, id: Id, c: Cell)
    requires Inv(s) && At(s, id).Exiting? && c in s.marks && Touches(c, id)
    ensures var t := Wipe(s, c, id); LogAgrees(t) && MarksAgree(t) && BlindAgrees(t)
  {
    var t, e := Wipe(s, c, id), Wiped(c, id, s.marks[c]);
    assert Agrees(s, id, s.doing[id]);
    hide DoingAgrees, Replay, Occupied, Orderly, TicketsGrow, WrittenVacant, WipedEver;
    LogMore(s, t, e);
    BlindMore(s, t, e);
    hide LogAgrees, BlindAgrees;
    MarksMore(s, t, e);
  }

  lemma WipeKeeps(s: State, id: Id, c: Cell)
    requires Inv(s) && At(s, id).Exiting? && Touches(c, id)
    ensures
      var t := Wipe(s, c, id);
      Inv(t) && At(t, id) == At(s, id) && c !in t.marks
  {
    hide LogAgrees, DoingAgrees, MarksAgree, BlindAgrees, Touches;
    if c in s.marks {
      WipeDoing(s, id, c);
      WipeRest(s, id, c);
    }
  }

  lemma IndexOfNth(k: nat, c: Cell)
    requires k < QLEN * QLEN && 1 <= c.sender <= QLEN && 1 <= c.receiver <= QLEN
    ensures Index(c) == k <==> c == NthCell(k)
    ensures Index(c) < QLEN * QLEN
  {
  }

  lemma ExitVisitKeeps(s: State, id: Id)
    requires Inv(s) && Enabled(s, ExitVisit(id))
    ensures Inv(DoExitVisit(s, id))
  {
    hide LogAgrees, DoingAgrees, BlindAgrees, WrittenVacant;
    var k := At(s, id).visited;
    var w := if Touches(NthCell(k), id) then Wipe(s, NthCell(k), id) else s;
    if Touches(NthCell(k), id) {
      WipeKeeps(s, id, NthCell(k));
    }
    VisitedNext(w, id, k);
    QuietKeeps(w, DoExitVisit(s, id));
    BlindQuiet(w, DoExitVisit(s, id));
  }

  lemma VisitedNext(w: State, id: Id, k: nat)
    requires DoingAgrees(w) && At(w, id) == Exiting(k) && k < QLEN * QLEN
    requires forall c :: c in w.marks ==> 1 <= c.receiver <= QLEN && 1 <= c.sender <= QLEN
    requires Touches(NthCell(k), id) ==> NthCell(k) !in w.marks
    ensures DoingAgrees(Go(w, id, Exiting(k + 1)))
  {
    var t := Go(w, id, Exiting(k + 1));
    assert Agrees(w, id, w.doing[id]);
    forall c | c in w.marks && Touches(c, id) ensures Index(c) >= k + 1 {
      IndexOfNth(k, c);
    }
    OthersUnmoved(w, t, id);
  }

  lemma ExitLeaveDoing(s: State, id: Id)
    requires DoingAgrees(s) && Enabled(s, ExitLeave(id))
    requires forall c :: c in s.marks ==> 1 <= c.receiver <= QLEN && 1 <= c.sender <= QLEN
    ensures DoingAgrees(DoExitLeave(s, id))
    ensures forall c :: c in s.marks ==> !Touches(c, id)
  {
    var t := DoExitLeave(s, id);
    assert Agrees(s, id, s.doing[id]);
    forall c | c in s.marks ensures !Touches(c, id) {
      IndexOfNth(0, c);
    }
    forall j | j in t.doing ensures Agrees(t, j, t.doing[j]) {
      assert Agrees(s, j, s.doing[j]);
    }
  }

  lemma ExitLeaveKeeps(s: State, id: Id)
    requires Inv(s) && Enabled(s, ExitLeave(id))
    ensures Inv(DoExitLeave(s, id))
  {
    ExitLeaveDoing(s, id);
    var t := DoExitLeave(s, id);
    assert Agrees(s, id, s.doing[id]);
    hide DoingAgrees, Replay, Occupied, Orderly, TicketsGrow, WrittenVacant, WipedEver;
    LogMore(s, t, Departed(id));
    BlindMore(s, t, Departed(id));
    hide LogAgrees, BlindAgrees;
    MarksMore(s, t, Departed(id));
  }

  /** A client whose process is gone takes nobody else's agreement away. */
  lemma GoneKeeps(s: State, t: State, id: Id)
    requires DoingAgrees(s) && id in s.doing && s.doing[id].Left?
    requires t.valid == s.valid && t.marks == s.marks && t.next == s.next
    requires t.doing == s.doing - {id} && t.holder == Nobody
    ensures DoingAgrees(t)
  {
    assert Agrees(s, id, s.doing[id]);
    forall j | j in t.doing ensures Agrees(t, j, t.doing[j]) {
      assert Agrees(s, j, s.doing[j]);
      StillAgrees(s, t, j, s.doing[j]);
    }
  }

  lemma UnlockKeeps(s: State, id: Id)
    requires DoingAgrees(s) && Enabled(s, Unlock(id))
    ensures DoingAgrees(DoUnlock(s, id))
  {
    assert Agrees(s, id, s.doing[id]);
    if At(s, id).Left? {
      GoneKeeps(s, DoUnlock(s, id), id);
    } else {
      OthersUnmoved(s, DoUnlock(s, id), id);
    }
  }

  lemma KillKeeps(s: State, id: Id)
    requires DoingAgrees(s) && Enabled(s, Kill(id))
    ensures DoingAgrees(DoKill(s, id))
  {
    assert Agrees(s, id, s.doing[id]);
    if At(s, id).Left? {
      GoneKeeps(s, DoKill(s, id), id);
    } else {
      OthersUnmoved(s, DoKill(s, id), id);
    }
  }

  /** The search of the accept loop ends at the lowest free place, if there is one. */
  lemma {:induction false} LowestFreeIsLowest(s: State, id: Id)
    requires 1 <= id <= QLEN && forall j: nat :: 1 <= j < id ==> j in s.valid
    ensures
      var r := LowestFreeFrom(s, id);
      id <= r <= QLEN && (forall j: nat :: 1 <= j < r ==> j in s.valid) && (IsFree(s, r) ==> IsLowestFree(s, r))
    decreases QLEN - id
  {
    if id < QLEN && id in s.valid {
      LowestFreeIsLowest(s, id + 1);
    }
  }

  lemma ServerKeeps(s: State, a: Action)
    requires DoingAgrees(s) && Enabled(s, a) && (a.ServerLock? || a.ServerUnlock?)
    ensures DoingAgrees(Next(s, a))
  {
    var t := Next(s, a);
    forall j | j in t.doing ensures Agrees(t, j, t.doing[j]) {
      assert Agrees(s, j, s.doing[j]);
    }
  }

  lemma SeatDoing(s: State)
    requires DoingAgrees(s) && Enabled(s, ServerSeat)
    ensures DoingAgrees(DoSeat(s))
  {
    var t := DoSeat(s);
    var id := Vacancy(s);
    LowestFreeIsLowest(s, 1);
    forall j | j in s.doing ensures j in s.valid {
      assert Agrees(s, j, s.doing[j]);
    }
    forall j | j in t.doing ensures Agrees(t, j, t.doing[j]) {
      if j != id {
        assert Agrees(s, j, s.doing[j]);
      }
    }
  }

  lemma SeatKeeps(s: State)
    requires Inv(s) && Enabled(s, ServerSeat)
    ensures Inv(DoSeat(s))
  {
    SeatDoing(s);
    var t := DoSeat(s);
    hide DoingAgrees, Replay, Occupied, Orderly, TicketsGrow, WrittenVacant, WipedEver, LowestFreeFrom;
    LogMore(s, t, Seated(Vacancy(s)));
    BlindMore(s, t, Seated(Vacancy(s)));
    hide LogAgrees, BlindAgrees;
    MarksMore(s, t, Seated(Vacancy(s)));
  }

  lemma ForkKeeps(s: State)
    requires DoingAgrees(s) && Enabled(s, ServerFork)
    ensures DoingAgrees(DoServerFork(s))
  {
    assert Agrees(s, s.seat, s.doing[s.seat]);
    OthersUnmoved(s, DoServerFork(s), s.seat);
  }

  lemma ChildrenKeep(s: State, a: Action)
    requires DoingAgrees(s) && Enabled(s, a) && (a.Spawn? || a.ChildLock? || a.ChildUnlock? || a.ChildKill?)
    ensures DoingAgrees(Next(s, a))
  {
    var t := Next(s, a);
    forall j | j in t.doing ensures Agrees(t, j, t.doing[j]) {
      StillAgrees(s, t, j, s.doing[j]);
    }
  }

  predicate IsQuiet(a: Action) {
    !a.WriteMark? && !a.ClearMark? && !a.ExitVisit? && !a.ExitLeave? && !a.ServerSeat?
  }

  lemma QuietStepKeeps(s: State, a: Action)
    requires Inv(s) && Enabled(s, a) && IsQuiet(a)
    ensures Inv(Next(s, a))
  {
    hide DoingAgrees, LogAgrees, MarksAgree, BlindAgrees;
    QuietKeeps(s, Next(s, a));
    QuietBlind(s, a);
    match a
    case CheckReceiver(id, r) => CheckReceiverKeeps(s, id, r);
    case CheckSender(id, o) => CheckSenderKeeps(s, id, o);
    case CheckMark(id) => CheckMarkKeeps(s, id);
    case LockSend(_) => LocksKeep(s, a);
    case LockRecv(_) => LocksKeep(s, a);
    case LockPost(_) => LocksKeep(s, a);
    case LockExit(_) => LocksKeep(s, a);
    case Unlock(id) => UnlockKeeps(s, id);
    case ServerLock => ServerKeeps(s, a);
    case ServerUnlock => ServerKeeps(s, a);
    case ServerFork => ForkKeeps(s);
    case Kill(id) => KillKeeps(s, id);
    case Spawn(_) => ChildrenKeep(s, a);
    case ChildLock(_) => ChildrenKeep(s, a);
    case ChildUnlock(_) => ChildrenKeep(s, a);
    case ChildKill(_) => ChildrenKeep(s, a);
  }

  lemma QuietBlind(s: State, a: Action)
    requires BlindAgrees(s) && Enabled(s, a) && IsQuiet(a)
    ensures BlindAgrees(Next(s, a))
  {
    hide BlindAgrees;
    BlindQuiet(s, Next(s, a));
  }

  /** Every step of every client and of the server keeps the invariant. */
  lemma NextKeepsInv(s: State, a: Action)
    requires Inv(s) && Enabled(s, a)
    ensures Inv(Next(s, a))
  {
    hide Inv;
    if IsQuiet(a) {
      QuietStepKeeps(s, a);
    } else {
      match a
      case WriteMark(id) => WriteKeeps(s, id);
      case ClearMark(id) => ClearKeeps(s, id);
      case ExitVisit(id) => ExitVisitKeeps(s, id);
      case ExitLeave(id) => ExitLeaveKeeps(s, id);
      case ServerSeat => SeatKeeps(s);
    }
  }

  // ---------- Whole runs ----------

  predicate Runs(s: State, acts: seq<Action>, t: State)
    decreases |acts|
  {
    if acts == [] then s == t
    else Enabled(s, acts[0]) && Runs(Next(s, acts[0]), acts[1..], t)
  }

  ghost predicate Reachable(t: State) {
    exists s, acts :: Initial(s) && Runs(s, acts, t)
  }

  lemma {:induction false} RunsKeepInv(s: State, acts: seq<Action>, t: State)
    requires Inv(s) && Runs(s, acts, t)
    ensures Inv(t)
    decreases |acts|
  {
    hide Inv;
    if acts != [] {
      NextKeepsInv(s, acts[0]);
      RunsKeepInv(Next(s, acts[0]), acts[1..], t);
    }
  }

  lemma ReachableInv(t: State)
    requires Reachable(t)
    ensures Inv(t)
  {
    var s, acts :| Initial(s) && Runs(s, acts, t);
    RunsKeepInv(s, acts, t);
  }

  // ---------- What holds in every reachable state ----------

  /** Whoever updates the table holds the lock, alone. */
  lemma UpdatesAreExclusive(t: State, i: Id, j: Id)
    requires Reachable(t) && IsLocked(At(t, i)) && IsLocked(At(t, j))
    ensures i == j && t.holder == Client(i)
  {
    ReachableInv(t);
    assert Agrees(t, i, t.doing[i]) && Agrees(t, j, t.doing[j]);
  }

  /** No client waits for the lock while it has it, so the holder can always take its
      next step towards giving it back. */
  lemma HolderNeverWaits(t: State, id: Id)
    requires Reachable(t) && t.holder == Client(id)
    ensures !At(t, id).Idle? && !At(t, id).Sending? && !At(t, id).Receiving?
    ensures exists a :: a in {WriteMark(id), ClearMark(id), ExitVisit(id), ExitLeave(id), Unlock(id)} && Enabled(t, a)
  {
    ReachableInv(t);
    var d := At(t, id);
    assert Agrees(t, id, d);
    var a := match d
      case SendLocked(_) => WriteMark(id)
      case RecvLocked(_, _, _) => ClearMark(id)
      case Exiting(k) => if k < QLEN * QLEN then ExitVisit(id) else ExitLeave(id)
      case _ => Unlock(id);
    assert Enabled(t, a);
  }

  /** The check without the lock is enough for a send: its cell is still clear when
      the mark is written, whatever the others did meanwhile. */
  lemma SendNeverOverwrites(t: State, id: Id)
    requires Reachable(t) && Enabled(t, WriteMark(id))
    ensures Cell(id, At(t, id).r) !in t.marks
  {
    ReachableInv(t);
    assert Agrees(t, id, t.doing[id]);
  }

  /** A receive clears the mark of the very send its check saw, if and only if no exit
      has wiped that mark in between. */
  lemma ReceiveTakesWhatItSaw(t: State, id: Id)
    requires Reachable(t) && Enabled(t, ClearMark(id))
    ensures
      var c := Cell(At(t, id).s, id);
      (c in t.marks && t.marks[c] == At(t, id).seen) <==> At(t, id).intact
  {
    ReachableInv(t);
    assert Agrees(t, id, t.doing[id]);
  }

  // ---------- What each step changes ----------

  /** A receive clears exactly its cell and adds exactly one event, which takes the send
      that the check saw if and only if that send's mark is there. */
  lemma ClearTakesTheMark(t: State, id: Id)
    requires Reachable(t) && Enabled(t, ClearMark(id))
    ensures
      var u, c, seen := Next(t, ClearMark(id)), Cell(At(t, id).s, id), At(t, id).seen;
      && u.marks == t.marks - {c} && u.valid == t.valid && u.next == t.next
      && |u.log| == |t.log| + 1 && u.log[..|t.log|] == t.log
      && (u.log[|t.log|] == Taken(c, seen) <==> c in t.marks && t.marks[c] == seen)
      && (u.log[|t.log|] == Blind(c, None) <==> c !in t.marks)
      && (forall x :: u.log[|t.log|] == Blind(c, Some(x)) <==> c in t.marks && t.marks[c] == x != seen)
  {
    ReachableInv(t);
    assert Agrees(t, id, t.doing[id]);
    hide Reachable, DoingAgrees, MarksAgree, LogAgrees, BlindAgrees;
  }

  /** A send sets exactly its cell, with a ticket of its own. */
  lemma WriteSetsTheMark(t: State, id: Id)
    requires Enabled(t, WriteMark(id))
    ensures
      var u, c := Next(t, WriteMark(id)), Cell(id, At(t, id).r);
      && u.marks == t.marks[c := t.next] && u.log == t.log + [Sent(c, t.next)] && u.next > t.next && u.valid == t.valid
  {
  }

  /** Only sends, receives and exits touch marks, only seats and exits touch places, and
      only these five kinds of steps are in the history. */
  lemma OthersTouchNothing(t: State, a: Action)
    requires Enabled(t, a) && !a.WriteMark? && !a.ClearMark? && !a.ExitVisit?
    ensures
      var u := Next(t, a);
      && u.marks == t.marks && u.next == t.next
      && (a.ServerSeat? ==> u.valid == t.valid + {Vacancy(t)} && u.log == t.log + [Seated(Vacancy(t))])
      && (a.ExitLeave? ==> u.valid == t.valid - {a.id} && u.log == t.log + [Departed(a.id)])
      && (!a.ServerSeat? && !a.ExitLeave? ==> u.valid == t.valid && u.log == t.log)
  {
    hide LowestFreeFrom;
  }

  /** Whenever one of the thirty places is free, the accept loop can fill the lowest. */
  lemma SeatsWhenFree(t: State)
    requires t.holder == Server && exists j: nat :: 1 <= j <= 30 && j !in t.valid
    ensures Enabled(t, ServerSeat) && 1 <= Vacancy(t) <= 30 && Vacancy(t) !in t.valid
    ensures forall j: nat :: 1 <= j < Vacancy(t) ==> j in t.valid
  {
    LowestFreeIsLowest(t, 1);
    LastIsTried(t, 1);
  }

  lemma {:induction false} LastIsTried(s: State, id: Id)
    requires 1 <= id <= QLEN
    ensures LowestFreeFrom(s, id) in s.valid ==> forall j: nat :: id <= j <= QLEN ==> j in s.valid
    decreases QLEN - id
  {
    if id < QLEN && id in s.valid {
      LastIsTried(s, id + 1);
    }
  }

  /** Nothing that the place's user could have done happened after event `i`. */
  predicate VacantSince(log: seq<Event>, i: nat, id: Id) {
    forall k :: i <= k < |log| ==> !MovesPlace(log[k], id)
  }

  predicate WipedBySender(log: seq<Event>, i: nat, c: Cell) {
    exists k :: i <= k < |log| && log[k].Wiped? && log[k].cell == c && log[k].wiper == c.sender
  }

  /** A send on `c` since the receiver's place was last given up, not taken back by an
      exit of its sender. */
  predicate LateSend(log: seq<Event>, i: nat, c: Cell) {
    i < |log| && log[i].Sent? && log[i].cell == c && VacantSince(log, i, c.receiver) && !WipedBySender(log, i, c)
  }

  lemma {:induction false} WrittenVacantMeans(log: seq<Event>, c: Cell) returns (i: nat)
    requires WrittenVacant(log, c)
    ensures i < |log| && log[i].Sent? && log[i].cell == c
    ensures forall k :: i < k < |log| ==> !IsOn(log[k], c) && !MovesPlace(log[k], c.receiver)
    decreases |log|
  {
    var n := |log| - 1;
    if IsOn(log[n], c) {
      i := n;
    } else {
      i := WrittenVacantMeans(log[..n], c);
      forall k | i < k < |log| ensures !IsOn(log[k], c) && !MovesPlace(log[k], c.receiver) {
        assert k < n ==> log[..n][k] == log[k];
      }
    }
  }

  lemma LateSendPrefix(log: seq<Event>, i: nat, c: Cell)
    requires LateSend(log, i, c) && i < |log| - 1
    ensures
      var n := |log| - 1;
      LateSend(log[..n], i, c) && !MovesPlace(log[n], c.receiver) && !(log[n].Wiped? && log[n].cell == c && log[n].wiper == c.sender)
  {
    var n := |log| - 1;
    assert forall k :: 0 <= k < n ==> log[..n][k] == log[k];
  }

  /** A mark for a vacant place can only be taken back by its sender's exit. */
  lemma {:induction false} LateSendStays(log: seq<Event>, i: nat, c: Cell)
    requires Orderly(log) && LateSend(log, i, c) && c.receiver !in Occupied(log)
    ensures c in Replay(log)
    decreases |log|
  {
    if i < |log| - 1 {
      LateSendPrefix(log, i, c);
      hide LateSend;
      LateSendStays(log[..|log| - 1], i, c);
    }
  }

  /** A user who is given a place finds no mark that names its last user as a sender, and
      finds a mark addressed to it if and only if that was written while the place was
      vacant and no exit of its sender has wiped it since. */
  lemma NewcomerFindsOnlyLateMarks(t: State, c: Cell)
    requires Reachable(t) && Enabled(t, ServerSeat)
    ensures IsLowestFree(t, Vacancy(t))
    ensures c.sender == Vacancy(t) ==> c !in t.marks
    ensures c.receiver == Vacancy(t) ==> (c in t.marks <==> exists i :: LateSend(t.log, i, c))
  {
    hide *;
    ReachableInv(t);
    SeatIsVacant(t);
    VacantPlace(t, c);
  }

  lemma SeatIsVacant(t: State)
    requires Enabled(t, ServerSeat)
    ensures IsLowestFree(t, Vacancy(t)) && Vacancy(t) !in t.valid
  {
    LowestFreeIsLowest(t, 1);
  }

  lemma VacantPlace(t: State, c: Cell)
    requires Inv(t)
    ensures c.sender !in t.valid ==> c !in t.marks
    ensures c.receiver !in t.valid ==> (c in t.marks <==> exists i :: LateSend(t.log, i, c))
  {
    hide DoingAgrees, BlindAgrees, WrittenVacant, LateSend, Orderly, Replay, Occupied;
    if c.receiver !in t.valid {
      if c in t.marks {
        LateMarkWasSent(t.log, c);
      }
      if i :| LateSend(t.log, i, c) {
        LateSendStays(t.log, i, c);
      }
    }
  }

  lemma LateMarkWasSent(log: seq<Event>, c: Cell)
    requires WrittenVacant(log, c)
    ensures exists i :: LateSend(log, i, c)
  {
    hide LateSend, WrittenVacant, IsOn, MovesPlace;
    var i := WrittenVacantMeans(log, c);
    SendMovesNoPlace(log, i, c);
  }

  lemma SendMovesNoPlace(log: seq<Event>, i: nat, c: Cell)
    requires i < |log| && log[i].Sent? && log[i].cell == c
    requires forall k :: i < k < |log| ==> !IsOn(log[k], c) && !MovesPlace(log[k], c.receiver)
    ensures LateSend(log, i, c)
  {
  }

  // ---------- What the history says ----------

  /** This event ends the send with ticket `x` on `c`: it was received, wiped by an exit,
      or cleared by a receive that had seen another mark. */
  predicate Ends(e: Event, c: Cell, x: Ticket) {
    || e == Taken(c, x)
    || e == Blind(c, Some(x))
    || (e.Wiped? && e.cell == c && e.ticket == x)
  }

  predicate EndedWithin(log: seq<Event>, i: nat, j: nat, c: Cell, x: Ticket) {
    exists k :: i < k < j && k < |log| && Ends(log[k], c, x)
  }

  /** After a send its mark is there, or one event has ended it and its ticket is gone
      for good. */
  ghost predicate SendStatus(log: seq<Event>, i: nat, c: Cell, x: Ticket) {
    var marks := Replay(log);
    && (EndedWithin(log, i, |log|, c, x) <==> !(c in marks && marks[c] == x))
    && (EndedWithin(log, i, |log|, c, x) ==> forall d :: d in marks ==> marks[d] != x)
    && (forall k, m :: i < k < |log| && i < m < |log| && Ends(log[k], c, x) && Ends(log[m], c, x) ==> k == m)
  }

  lemma EndedMore(log: seq<Event>, e: Event, i: nat, c: Cell, x: Ticket)
    requires i < |log|
    ensures EndedWithin(log + [e], i, |log| + 1, c, x) <==> EndedWithin(log, i, |log|, c, x) || Ends(e, c, x)
  {
    hide Ends;
    var more := log + [e];
    assert more[|log|] == e;
    if k :| i < k < |log| && Ends(log[k], c, x) {
      assert more[k] == log[k];
    }
    if k :| i < k < |more| && Ends(more[k], c, x) {
      assert k < |log| ==> more[k] == log[k];
    }
  }

  /** An event with this ticket fits only where the ticket is. */
  lemma EndFits(marks: map<Cell, Ticket>, users: set<Id>, e: Event, c: Cell, x: Ticket)
    requires Fits(marks, users, e) && (e.Sent? ==> e.ticket != x)
    ensures Ends(e, c, x) ==> c in marks && marks[c] == x && c !in Effect(marks, e)
    ensures !Ends(e, c, x) && c in marks && marks[c] == x ==> c in Effect(marks, e) && Effect(marks, e)[c] == x
    ensures (forall d :: d in marks ==> marks[d] != x) ==> forall d :: d in Effect(marks, e) ==> Effect(marks, e)[d] != x
    ensures c in marks && marks[c] == x && (forall d :: d in marks && marks[d] == x ==> d == c) && Ends(e, c, x) ==>
      forall d :: d in Effect(marks, e) ==> Effect(marks, e)[d] != x
  {
  }

  /** A ticket marks one cell. */
  lemma {:induction false} OneCellPerTicket(log: seq<Event>, next: Ticket, c: Cell, d: Cell)
    requires Orderly(log) && TicketsGrow(log, next) && c in Replay(log) && d in Replay(log) && Replay(log)[c] == Replay(log)[d]
    ensures c == d
  {
    TakenWasSent(log, next, c);
    TakenWasSent(log, next, d);
    var i :| 0 <= i < |log| && log[i] == Sent(c, Replay(log)[c]);
    var j :| 0 <= j < |log| && log[j] == Sent(d, Replay(log)[d]);
    hide Orderly, Replay;
    assert i == j;
  }

  lemma EndsAtMostOnce(log: seq<Event>, e: Event, i: nat, c: Cell, x: Ticket)
    requires forall k, m :: i < k < |log| && i < m < |log| && Ends(log[k], c, x) && Ends(log[m], c, x) ==> k == m
    requires Ends(e, c, x) ==> !EndedWithin(log, i, |log|, c, x)
    ensures
      var more := log + [e];
      forall k, m :: i < k < |more| && i < m < |more| && Ends(more[k], c, x) && Ends(more[m], c, x) ==> k == m
  {
    hide Ends;
    var more := log + [e];
    assert more[|log|] == e && forall k :: 0 <= k < |log| ==> more[k] == log[k];
  }

  /** While its mark is there, no other cell has this ticket. */
  lemma OnlyHere(log: seq<Event>, next: Ticket, c: Cell, x: Ticket)
    requires Orderly(log) && TicketsGrow(log, next) && c in Replay(log) && Replay(log)[c] == x
    ensures forall d :: d in Replay(log) && Replay(log)[d] == x ==> d == c
  {
    hide Orderly, Replay, TicketsGrow;
    forall d | d in Replay(log) && Replay(log)[d] == x ensures d == c {
      OneCellPerTicket(log, next, c, d);
    }
  }

  lemma StatusStep(log: seq<Event>, next: Ticket, e: Event, i: nat, c: Cell, x: Ticket)
    requires Orderly(log + [e]) && TicketsGrow(log, next) && i < |log| && SendStatus(log, i, c, x)
    requires e.Sent? ==> e.ticket != x
    ensures SendStatus(log + [e], i, c, x)
  {
    var marks := Replay(log);
    ReplayMore(log, e);
    hide Orderly, Replay, Occupied, TicketsGrow, Fits, Effect, Ends, EndedWithin, Moves;
    EndedMore(log, e, i, c, x);
    if c in marks && marks[c] == x {
      OnlyHere(log, next, c, x);
    }
    EndFits(marks, Occupied(log), e, c, x);
    EndsAtMostOnce(log, e, i, c, x);
  }

  lemma LaterTicket(log: seq<Event>, next: Ticket, i: nat)
    requires TicketsGrow(log, next) && i < |log| - 1 && log[i].Sent?
    ensures log[|log| - 1].Sent? ==> log[|log| - 1].ticket != log[i].ticket
  {
  }

  lemma TicketsPrefix(log: seq<Event>, next: Ticket)
    requires TicketsGrow(log, next) && log != []
    ensures TicketsGrow(log[..|log| - 1], next)
  {
  }

  lemma {:induction false} SendEndsOnce(log: seq<Event>, next: Ticket, i: nat)
    requires Orderly(log) && TicketsGrow(log, next) && i < |log| && log[i].Sent?
    ensures SendStatus(log, i, log[i].cell, log[i].ticket)
    decreases |log|
  {
    var n := |log| - 1;
    if i < n {
      var before, e := log[..n], log[n];
      assert log == before + [e] && before[i] == log[i];
      TicketsPrefix(log, next);
      LaterTicket(log, next, i);
      hide SendStatus, Fits, Replay, Occupied;
      SendEndsOnce(before, next, i);
      StatusStep(before, next, e, i, log[i].cell, log[i].ticket);
    }
  }

  /** Every send in a history, whatever exits happen: its mark is still there, or exactly
      one later event has ended it, and that before the next send on the cell. */
  lemma EverySendEndsOnce(t: State, i: nat)
    requires Reachable(t) && i < |t.log| && t.log[i].Sent?
    ensures
      var c, x := t.log[i].cell, t.log[i].ticket;
      && (EndedWithin(t.log, i, |t.log|, c, x) <==> !(c in t.marks && t.marks[c] == x))
      && (forall k, m :: i < k < |t.log| && i < m < |t.log| && Ends(t.log[k], c, x) && Ends(t.log[m], c, x) ==> k == m)
      && (forall j :: i < j < |t.log| && t.log[j].Sent? && t.log[j].cell == c ==> EndedWithin(t.log, i, j, c, x))
  {
    ReachableInv(t);
    var c, x := t.log[i].cell, t.log[i].ticket;
    hide Reachable, DoingAgrees, MarksAgree, BlindAgrees;
    SendEndsOnce(t.log, t.next, i);
    forall j | i < j < |t.log| && t.log[j].Sent? && t.log[j].cell == c ensures EndedWithin(t.log, i, j, c, x) {
      EndedBefore(t.log, t.next, i, j);
    }
  }

  lemma EndedBefore(log: seq<Event>, next: Ticket, i: nat, j: nat)
    requires Orderly(log) && TicketsGrow(log, next) && i < j < |log|
    requires log[i].Sent? && log[j].Sent? && log[j].cell == log[i].cell
    ensures EndedWithin(log, i, j, log[i].cell, log[i].ticket)
  {
    var before, c, x := log[..j], log[i].cell, log[i].ticket;
    OrderlyPrefix(log, j);
    hide Orderly, Replay, Occupied, Ends;
    assert before[i] == log[i];
    SendEndsOnce(before, next, i);
    var k :| i < k < j && k < |before| && Ends(before[k], c, x);
    assert log[k] == before[k];
  }

  function OnCell(log: seq<Event>, c: Cell): seq<Event>
    decreases |log|
  {
    if log == [] then []
    else
      var e := log[|log| - 1];
      OnCell(log[..|log| - 1], c) + (if IsOn(e, c) then [e] else [])
  }

  /** Send, receive, send, receive, ...: each receive takes the send right before it. */
  predicate Alternates(h: seq<Event>)
    decreases |h|
  {
    h == [] ||
    (var n := |h| - 1;
     && Alternates(h[..n])
     && if n % 2 == 0 then h[n].Sent? else h[n - 1].Sent? && h[n] == Taken(h[n - 1].cell, h[n - 1].ticket))
  }

  predicate OnlySendsAndTakes(h: seq<Event>) {
    forall k :: 0 <= k < |h| ==> h[k].Sent? || h[k].Taken?
  }

  /** The events on a cell are events of the history. */
  lemma {:induction false} OnCellMembers(log: seq<Event>, c: Cell)
    ensures forall k :: 0 <= k < |OnCell(log, c)| ==> OnCell(log, c)[k] in log && IsOn(OnCell(log, c)[k], c)
    decreases |log|
  {
    if log != [] {
      OnCellMembers(log[..|log| - 1], c);
      hide IsOn;
      assert forall e :: e in log[..|log| - 1] ==> e in log;
    }
  }

  lemma OnCellLast(log: seq<Event>, c: Cell)
    requires log != []
    ensures
      var e, g := log[|log| - 1], OnCell(log[..|log| - 1], c);
      && OnCell(log, c) == (if IsOn(e, c) then g + [e] else g)
      && (OnlySendsAndTakes(OnCell(log, c)) ==> OnlySendsAndTakes(g) && (IsOn(e, c) ==> e.Sent? || e.Taken?))
  {
    hide IsOn;
    var e, g := log[|log| - 1], OnCell(log[..|log| - 1], c);
    assert forall k :: 0 <= k < |g| ==> (g + [e])[k] == g[k];
    assert (g + [e])[|g|] == e;
  }

  lemma AlternatesMore(h: seq<Event>, e: Event)
    requires Alternates(h) && if |h| % 2 == 0 then e.Sent? else h[|h| - 1].Sent? && e == Taken(h[|h| - 1].cell, h[|h| - 1].ticket)
    ensures Alternates(h + [e])
  {
    assert (h + [e])[..|h|] == h;
  }

  ghost predicate AlternatesSoFar(h: seq<Event>, marks: map<Cell, Ticket>, c: Cell) {
    Alternates(h) && (|h| % 2 == 1 <==> c in marks) && (|h| % 2 == 1 ==> h[|h| - 1] == Sent(c, marks[c]))
  }

  /** One event more keeps the alternation. */
  lemma AlternatesStep(h: seq<Event>, marks: map<Cell, Ticket>, users: set<Id>, e: Event, c: Cell)
    requires AlternatesSoFar(h, marks, c) && Fits(marks, users, e) && (IsOn(e, c) ==> e.Sent? || e.Taken?)
    ensures AlternatesSoFar(if IsOn(e, c) then h + [e] else h, Effect(marks, e), c)
  {
    hide Alternates;
    if IsOn(e, c) {
      AlternatesMore(h, e);
    }
  }

  lemma {:induction false} SendsAndReceivesAlternate(log: seq<Event>, c: Cell)
    requires Orderly(log) && OnlySendsAndTakes(OnCell(log, c))
    ensures AlternatesSoFar(OnCell(log, c), Replay(log), c)
    decreases |log|
  {
    if log != [] {
      var before, e := log[..|log| - 1], log[|log| - 1];
      OnCellLast(log, c);
      hide OnlySendsAndTakes, IsOn, Fits, Effect, AlternatesSoFar, OnCell;
      SendsAndReceivesAlternate(before, c);
      AlternatesStep(OnCell(before, c), Replay(before), Occupied(before), e, c);
    }
  }

  lemma NeverBlind(t: State, m: nat, c: Cell)
    requires BlindAgrees(t) && m < |t.log| && IsOn(t.log[m], c) && !WipedEver(t.log, c)
    ensures t.log[m].Sent? || t.log[m].Taken?
  {
  }

  /** On a cell that no exit has wiped, sends and receives strictly alternate, and each
      receive takes the send right before it. */
  lemma CellHistoryAlternates(t: State, c: Cell)
    requires Reachable(t) && !WipedEver(t.log, c)
    ensures Alternates(OnCell(t.log, c)) && (|OnCell(t.log, c)| % 2 == 1 <==> c in t.marks)
  {
    ReachableInv(t);
    OnCellMembers(t.log, c);
    hide Reachable, Orderly, Replay, Occupied, DoingAgrees, MarksAgree, OnCell, Alternates;
    var h := OnCell(t.log, c);
    forall k | 0 <= k < |h| ensures h[k].Sent? || h[k].Taken? {
      var m :| 0 <= m < |t.log| && t.log[m] == h[k];
      NeverBlind(t, m, c);
    }
    SendsAndReceivesAlternate(t.log, c);
  }

  /** A receive takes a send that came before it. */
  lemma {:induction false} TakenWasSent(log: seq<Event>, next: Ticket, c: Cell)
    requires Orderly(log) && TicketsGrow(log, next) && c in Replay(log)
    ensures exists i :: 0 <= i < |log| && log[i] == Sent(c, Replay(log)[c])
    decreases |log|
  {
    var n := |log| - 1;
    if !(log[n].Sent? && log[n].cell == c) {
      TakenWasSent(log[..n], next, c);
      var i :| 0 <= i < n && log[..n][i] == Sent(c, Replay(log[..n])[c]);
      assert log[i] == Sent(c, Replay(log)[c]);
    }
  }

  lemma {:induction false} OrderlyPrefix(log: seq<Event>, k: nat)
    requires Orderly(log) && k <= |log|
    ensures Orderly(log[..k])
    ensures k < |log| ==> Fits(Replay(log[..k]), Occupied(log[..k]), log[k])
    decreases |log|
  {
    if k < |log| - 1 {
      OrderlyPrefix(log[..|log| - 1], k);
      assert log[..|log| - 1][..k] == log[..k];
    } else if k == |log| {
      assert log[..k] == log;
    }
  }

  /** A ticket that has been taken is the mark of no cell ever after. */
  lemma {:induction false} TakenIsGone(log: seq<Event>, next: Ticket, m: nat, i: nat, k: nat)
    requires Orderly(log) && TicketsGrow(log, next) && m < i < k <= |log|
    requires log[i].Taken? && log[m] == Sent(log[i].cell, log[i].ticket)
    ensures forall d :: d in Replay(log[..k]) ==> Replay(log[..k])[d] != log[i].ticket
    decreases k
  {
    assert log[..k][..k - 1] == log[..k - 1] && log[..k][k - 1] == log[k - 1];
    if i < k - 1 {
      TakenIsGone(log, next, m, i, k - 1);
    } else {
      OrderlyPrefix(log, i);
      forall d | d in Replay(log[..i]) && Replay(log[..i])[d] == log[i].ticket ensures d == log[i].cell {
        TakenWasSent(log[..i], next, d);
        var j :| 0 <= j < i && log[..i][j] == Sent(d, log[i].ticket);
        assert log[j] == Sent(d, log[i].ticket);
      }
    }
  }

  /** No send is received twice, whatever exits happen. */
  lemma NoSendReceivedTwice(t: State, i: nat, j: nat)
    requires Reachable(t) && i < j < |t.log| && t.log[i].Taken? && t.log[j].Taken?
    ensures t.log[i].ticket != t.log[j].ticket
  {
    ReachableInv(t);
    var c, x := t.log[i].cell, t.log[i].ticket;
    OrderlyPrefix(t.log, i);
    OrderlyPrefix(t.log, j);
    TakenWasSent(t.log[..i], t.next, c);
    var m :| 0 <= m < i && t.log[..i][m] == Sent(c, x);
    assert t.log[m] == Sent(c, x);
    TakenIsGone(t.log, t.next, m, i, j);
  }

  // ---------- What exits in the middle of a command can do ----------

  lemma {:induction false} RunsMore(s: State, acts: seq<Action>, t: State, a: Action)
    requires Runs(s, acts, t) && Enabled(t, a)
    ensures Runs(s, acts + [a], Next(t, a))
    decreases |acts|
  {
    if acts == [] {
      assert ([a])[1..] == [] && acts + [a] == [a];
    } else {
      assert (acts + [a])[0] == acts[0] && (acts + [a])[1..] == acts[1..] + [a];
      hide Next, Enabled;
      RunsMore(Next(s, acts[0]), acts[1..], t, a);
    }
  }

  /** A state together with a run that leads to it. */
  datatype Path = Path(from: State, acts: seq<Action>, to: State)

  predicate IsPath(p: Path) {
    Initial(p.from) && Runs(p.from, p.acts, p.to)
  }

  function Then(p: Path, a: Action): Path
    requires Enabled(p.to, a)
  {
    Path(p.from, p.acts + [a], Next(p.to, a))
  }

  lemma Follow(p: Path, a: Action)
    requires IsPath(p) && Enabled(p.to, a)
    ensures IsPath(Then(p, a))
  {
    RunsMore(p.from, p.acts, p.to, a);
  }

  lemma PathInv(p: Path)
    requires IsPath(p)
    ensures Inv(p.to)
  {
    RunsKeepInv(p.from, p.acts, p.to);
  }

  /** A login running alone. */
  lemma Login(p: Path) returns (q: Path)
    requires IsPath(p) && p.to.holder == Nobody && p.to.seat == 0 && IsFree(p.to, Vacancy(p.to)) && Vacancy(p.to) > 0
    ensures IsPath(q) && q.to.holder == Nobody && q.to.seat == 0 && q.to.marks == p.to.marks && q.to.next == p.to.next
    ensures q.to.valid == p.to.valid + {Vacancy(p.to)} && q.to.doing == p.to.doing[Vacancy(p.to) := Idle]
  {
    hide IsPath, LowestFreeFrom;
    Follow(p, ServerLock);
    var p1 := Then(p, ServerLock);
    SameLowest(p.to, p1.to, 1);
    Follow(p1, ServerSeat);
    var p2 := Then(p1, ServerSeat);
    Follow(p2, ServerUnlock);
    var p3 := Then(p2, ServerUnlock);
    Follow(p3, ServerFork);
    q := Then(p3, ServerFork);
    assert q.to.doing == p.to.doing[Vacancy(p.to) := Starting][Vacancy(p.to) := Idle];
  }

  lemma {:induction false} SameLowest(s: State, t: State, id: Id)
    requires s.valid == t.valid
    ensures LowestFreeFrom(s, id) == LowestFreeFrom(t, id)
    decreases QLEN - id
  {
    if id < QLEN && id in s.valid {
      SameLowest(s, t, id + 1);
    }
  }

  /** A send running alone. */
  lemma Send(p: Path, id: Id, r: Id) returns (q: Path)
    requires IsPath(p) && p.to.holder == Nobody && At(p.to, id).Idle? && r in p.to.valid && Cell(id, r) !in p.to.marks
    ensures IsPath(q) && q.acts == p.acts + [CheckReceiver(id, r), CheckMark(id), LockSend(id), WriteMark(id), Unlock(id)]
    ensures q.to == p.to.(marks := p.to.marks[Cell(id, r) := p.to.next], next := p.to.next + 1,
                          log := p.to.log + [Sent(Cell(id, r), p.to.next)])
  {
    var q2 := CheckSend(p, id, r);
    q := FinishSend(q2, id, r);
    assert q.to.doing == p.to.doing;
  }

  /** A send to nobody, or to a cell that is marked, running alone: it ends at its checks
      and changes nothing. */
  lemma SendRefused(p: Path, id: Id, r: Id) returns (q: Path)
    requires IsPath(p) && At(p.to, id).Idle? && (r !in p.to.valid || Cell(id, r) in p.to.marks)
    ensures IsPath(q) && q.to == p.to
    ensures q.acts == p.acts + if r in p.to.valid then [CheckReceiver(id, r), CheckMark(id)] else [CheckReceiver(id, r)]
  {
    Follow(p, CheckReceiver(id, r));
    q := Then(p, CheckReceiver(id, r));
    hide IsPath;
    if r in p.to.valid {
      Follow(q, CheckMark(id));
      var q2 := Then(q, CheckMark(id));
      assert q2.to.doing == p.to.doing;
      q := q2;
    }
  }

  /** A receive running alone takes the send whose mark it finds, and only that. */
  lemma Receive(p: Path, id: Id, o: Id) returns (q: Path)
    requires IsPath(p) && p.to.holder == Nobody && At(p.to, id).Idle? && o in p.to.valid && Cell(o, id) in p.to.marks
    ensures IsPath(q) && q.acts == p.acts + [CheckSender(id, o), CheckMark(id), LockRecv(id), ClearMark(id), Unlock(id)]
    ensures q.to == p.to.(marks := p.to.marks - {Cell(o, id)}, log := p.to.log + [Taken(Cell(o, id), p.to.marks[Cell(o, id)])])
  {
    var q2 := CheckRecv(p, id, o);
    q := FinishRecv(q2, id, o);
    assert q.to.doing == p.to.doing;
  }

  lemma FinishRecv(p: Path, id: Id, o: Id) returns (q: Path)
    requires IsPath(p) && p.to.holder == Nobody && Cell(o, id) in p.to.marks
    requires At(p.to, id) == Receiving(o, p.to.marks[Cell(o, id)], true)
    ensures IsPath(q) && q.acts == p.acts + [LockRecv(id), ClearMark(id), Unlock(id)]
    ensures q.to == Go(p.to, id, Idle).(marks := p.to.marks - {Cell(o, id)},
                                        log := p.to.log + [Taken(Cell(o, id), p.to.marks[Cell(o, id)])])
  {
    hide IsPath;
    Follow(p, LockRecv(id));
    var p1 := Then(p, LockRecv(id));
    Follow(p1, ClearMark(id));
    var p2 := Then(p1, ClearMark(id));
    Follow(p2, Unlock(id));
    q := Then(p2, Unlock(id));
    assert q.to.doing == p.to.doing[id := Idle];
  }

  /** A receive from nobody, or from a cell that is not marked, changes nothing. */
  lemma ReceiveRefused(p: Path, id: Id, o: Id) returns (q: Path)
    requires IsPath(p) && At(p.to, id).Idle? && (o !in p.to.valid || Cell(o, id) !in p.to.marks)
    ensures IsPath(q) && q.to == p.to
    ensures q.acts == p.acts + if o in p.to.valid then [CheckSender(id, o), CheckMark(id)] else [CheckSender(id, o)]
  {
    Follow(p, CheckSender(id, o));
    q := Then(p, CheckSender(id, o));
    hide IsPath;
    if o in p.to.valid {
      Follow(q, CheckMark(id));
      var q2 := Then(q, CheckMark(id));
      assert q2.to.doing == p.to.doing;
      q := q2;
    }
  }

  lemma CheckSend(p: Path, id: Id, r: Id) returns (q: Path)
    requires IsPath(p) && At(p.to, id).Idle? && r in p.to.valid && Cell(id, r) !in p.to.marks
    ensures IsPath(q) && q.to == Go(p.to, id, Sending(r)) && q.acts == p.acts + [CheckReceiver(id, r), CheckMark(id)]
  {
    Follow(p, CheckReceiver(id, r));
    var p1 := Then(p, CheckReceiver(id, r));
    Follow(p1, CheckMark(id));
    q := Then(p1, CheckMark(id));
    assert q.to.doing == p.to.doing[id := Sending(r)];
  }

  lemma FinishSend(p: Path, id: Id, r: Id) returns (q: Path)
    requires IsPath(p) && p.to.holder == Nobody && At(p.to, id).Sending? && At(p.to, id).r == r
    ensures IsPath(q) && q.acts == p.acts + [LockSend(id), WriteMark(id), Unlock(id)]
    ensures q.to == Go(p.to, id, Idle).(marks := p.to.marks[Cell(id, r) := p.to.next], next := p.to.next + 1,
                          log := p.to.log + [Sent(Cell(id, r), p.to.next)])
  {
    hide IsPath;
    Follow(p, LockSend(id));
    var p1 := Then(p, LockSend(id));
    Follow(p1, WriteMark(id));
    var p2 := Then(p1, WriteMark(id));
    Follow(p2, Unlock(id));
    q := Then(p2, Unlock(id));
    assert q.to.doing == p.to.doing[id := Idle];
  }

  lemma CheckRecv(p: Path, id: Id, o: Id) returns (q: Path)
    requires IsPath(p) && At(p.to, id).Idle? && o in p.to.valid && Cell(o, id) in p.to.marks
    ensures IsPath(q) && q.to == Go(p.to, id, Receiving(o, p.to.marks[Cell(o, id)], true))
    ensures q.acts == p.acts + [CheckSender(id, o), CheckMark(id)]
  {
    Follow(p, CheckSender(id, o));
    var p1 := Then(p, CheckSender(id, o));
    Follow(p1, CheckMark(id));
    q := Then(p1, CheckMark(id));
    assert q.to.doing == Go(p.to, id, Receiving(o, p.to.marks[Cell(o, id)], true)).doing;
  }

  /** Everybody else is where he was, up to the note that his mark is gone. */
  predicate SamePlaces(a: map<Id, Doing>, b: map<Id, Doing>, id: Id) {
    a.Keys == b.Keys && forall j :: j in a && j != id ==>
      b[j] == a[j] || (a[j].Receiving? && b[j] == Receiving(a[j].s, a[j].seen, false))
  }

  /** Marks that name `id` may go, and nothing else changes. */
  predicate OnlyLoses(a: map<Cell, Ticket>, b: map<Cell, Ticket>, id: Id) {
    && (forall c :: c in b ==> c in a && b[c] == a[c])
    && (forall c :: c in a && !Touches(c, id) ==> c in b)
  }

  /** The clearing loops of exit, run to their end. */
  lemma {:induction false} VisitAll(p: Path, id: Id) returns (q: Path)
    requires IsPath(p) && At(p.to, id).Exiting? && At(p.to, id).visited <= QLEN * QLEN
    ensures IsPath(q) && At(q.to, id) == Exiting(QLEN * QLEN)
    ensures q.to.valid == p.to.valid && q.to.holder == p.to.holder && q.to.next == p.to.next && q.to.seat == p.to.seat
    ensures SamePlaces(p.to.doing, q.to.doing, id) && OnlyLoses(p.to.marks, q.to.marks, id)
    decreases QLEN * QLEN - At(p.to, id).visited
  {
    if At(p.to, id).visited == QLEN * QLEN {
      q := p;
    } else {
      Follow(p, ExitVisit(id));
      hide IsPath;
      PathNotDisturbed(p, id);
      q := VisitAll(Then(p, ExitVisit(id)), id);
    }
  }

  lemma PathNotDisturbed(p: Path, id: Id)
    requires IsPath(p) && At(p.to, id).Exiting? && At(p.to, id).visited < QLEN * QLEN
    ensures At(Then(p, ExitVisit(id)).to, id) == Exiting(At(p.to, id).visited + 1)
    ensures SamePlaces(p.to.doing, Then(p, ExitVisit(id)).to.doing, id)
    ensures OnlyLoses(p.to.marks, Then(p, ExitVisit(id)).to.marks, id)
  {
  }

  /** A whole exit running alone: nothing is left that names the user, and a receiver
      in the middle of taking a mark from him keeps on. */
  lemma Exit(p: Path, id: Id) returns (q: Path)
    requires IsPath(p) && p.to.holder == Nobody && At(p.to, id).Idle?
    ensures IsPath(q) && q.to.valid == p.to.valid - {id} && q.to.holder == Nobody
    ensures q.to.next == p.to.next && q.to.seat == p.to.seat
    ensures q.to.doing.Keys == p.to.doing.Keys - {id}
    ensures forall j :: j in q.to.doing ==>
      q.to.doing[j] == p.to.doing[j] ||
      (p.to.doing[j].Receiving? && q.to.doing[j] == Receiving(p.to.doing[j].s, p.to.doing[j].seen, false))
    ensures forall c :: c in q.to.marks <==> c in p.to.marks && !Touches(c, id)
    ensures forall c :: c in q.to.marks ==> q.to.marks[c] == p.to.marks[c]
  {
    hide IsPath, Touches, SamePlaces;
    Follow(p, LockExit(id));
    var p1 := Then(p, LockExit(id));
    assert p1.to.doing == p.to.doing[id := Exiting(0)];
    var p2 := VisitAll(p1, id);
    PathInv(p2);
    NothingLeft(p2.to, id);
    q := ExitEnd(p2, id);
    SamePlacesMeans(p1.to.doing, p2.to.doing, id);
  }

  lemma SamePlacesMeans(a: map<Id, Doing>, b: map<Id, Doing>, id: Id)
    requires SamePlaces(a, b, id)
    ensures a.Keys == b.Keys
    ensures forall j :: j in a && j != id ==> b[j] == a[j] || (a[j].Receiving? && b[j] == Receiving(a[j].s, a[j].seen, false))
  {
  }

  lemma ExitEnd(p: Path, id: Id) returns (q: Path)
    requires IsPath(p) && At(p.to, id) == Exiting(QLEN * QLEN)
    ensures IsPath(q) && q.to.valid == p.to.valid - {id} && q.to.holder == Nobody && q.to.next == p.to.next
    ensures q.to.seat == p.to.seat && q.to.doing == p.to.doing - {id} && q.to.marks == p.to.marks
  {
    hide IsPath;
    Follow(p, ExitLeave(id));
    var p1 := Then(p, ExitLeave(id));
    assert At(p1.to, id) == Left;
    Follow(p1, Unlock(id));
    q := Then(p1, Unlock(id));
    assert q.to.doing == p.to.doing - {id};
  }

  lemma NothingLeft(s: State, id: Id)
    requires Inv(s) && At(s, id) == Exiting(QLEN * QLEN)
    ensures forall c :: c in s.marks ==> !Touches(c, id)
  {
    assert Agrees(s, id, s.doing[id]);
    forall c | c in s.marks ensures !Touches(c, id) {
      IndexOfNth(0, c);
    }
  }

  /** Two users, the first of whom has a mark pending at the second. */
  lemma TwoUsers() returns (p: Path)
    ensures IsPath(p) && p.to.holder == Nobody && p.to.seat == 0 && p.to.marks == map[]
    ensures p.to.valid == {1, 2} && p.to.doing == map[1 := Idle, 2 := Idle]
  {
    var s := State({}, map[], Nobody, map[], 0, [], 0, map[], {}, 1);
    var p0 := Path(s, [], s);
    assert LowestFreeFrom(s, 1) == 1;
    var p1 := Login(p0);
    assert LowestFreeFrom(p1.to, 1) == 2;
    p := Login(p1);
  }

  /** The sender exits between the receiver's check and update, and the newcomer in his
      place sends: the receiver then clears the newcomer's mark. */
  lemma NewcomersMarkIsLost() returns (t: State)
    ensures Reachable(t) && Enabled(t, ClearMark(2)) && At(t, 2).s == 1
    ensures Cell(1, 2) in t.marks && t.marks[Cell(1, 2)] != At(t, 2).seen
    ensures Cell(1, 2) !in Next(t, ClearMark(2)).marks
  {
    var p := TwoUsers();
    p := Send(p, 1, 2);
    p := CheckRecv(p, 2, 1);
    var seen := At(p.to, 2).seen;
    assert seen < p.to.next;
    p := Exit(p, 1);
    assert p.to.valid == {2} && At(p.to, 2).Receiving? && At(p.to, 2).s == 1 && At(p.to, 2).seen == seen;
    assert LowestFreeFrom(p.to, 1) == 1;
    p := Login(p);
    p := Send(p, 1, 2);
    Follow(p, LockRecv(2));
    p := Then(p, LockRecv(2));
    t := p.to;
  }

  /** The receiver exits between the sender's check and update: the newcomer in his
      place finds a mark that was never meant for him. */
  lemma NewcomerFindsALateMark() returns (t: State)
    ensures Reachable(t) && Enabled(t, ServerSeat) && Cell(1, Vacancy(t)) in t.marks
  {
    var p := TwoUsers();
    p := CheckSend(p, 1, 2);
    p := Exit(p, 2);
    assert p.to.valid == {1} && At(p.to, 1) == Sending(2);
    p := FinishSend(p, 1, 2);
    Follow(p, ServerLock);
    p := Then(p, ServerLock);
    assert LowestFreeFrom(p.to, 1) == LowestFreeFrom(p.to, 2) == 2;
    t := p.to;
  }
}
