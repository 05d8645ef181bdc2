/** The state of the single-process server as a value: the user table, the user pipes,
    every user's number pipes and the process's descriptors, with the invariant that
    ties them together and what each kind of change keeps of it. */
module SessionTable {
  import opened Prelude
  import opened Descriptors
  import opened NumberPipes
  import opened Pipeline

  const USERS: nat := 30
  const NO_NAME := "(no name)"

  /** `struct User`; `pipes` holds the ends of the pipe from each sender. */
  datatype User = User(valid: bool, sock: nat, name: string, pipes: seq<Ends>)

  /** `marks` are the pairs (sender, receiver) set in `name_pipe_record`. */
  datatype View = View(fds: Table, made: nat, users: seq<User>, vecs: seq<seq<Entry>>, marks: set<(nat, nat)>)

  /** Who owns a pipe: the number pipes of a slot, a user-pipe cell, or a line that has
      just received it. */
  datatype Claim = Parked(slot: nat) | Sent(sender: nat, receiver: nat) | Held

  type Claims = map<nat, Claim>

  predicate Claimed(claims: Claims, id: nat, c: Claim) {
    id in claims && claims[id] == c
  }

  predicate Exists(users: seq<User>, id: int) {
    1 <= id <= |users| && users[id - 1].valid
  }

  predicate IsId(id: int) {
    1 <= id <= USERS
  }

  predicate Shape(v: View) {
    |v.users| == USERS && |v.vecs| == USERS && forall i :: 0 <= i < USERS ==> |v.users[i].pipes| == USERS
  }

  function Cell(users: seq<User>, sender: nat, receiver: nat): Ends
    requires |users| == USERS && IsId(sender) && IsId(receiver) && |users[receiver - 1].pipes| == USERS
  {
    users[receiver - 1].pipes[sender - 1]
  }

  /** The standard descriptors are open and no pipes; pipes are numbered below `made`. */
  predicate Tidy(t: Table, made: nat) {
    && 0 in t && 1 in t && 2 in t && !IsPipe(t[0]) && !IsPipe(t[1]) && !IsPipe(t[2])
    && forall fd :: fd in t ==> IsPipe(t[fd]) ==> t[fd].pipe < made
  }

  /** Every user has a socket of their own. */
  predicate Sockets(t: Table, users: seq<User>) {
    && (forall i :: 0 <= i < |users| && users[i].valid ==> users[i].sock in t && t[users[i].sock].Socket? && users[i].sock > 2)
    && (forall i, j :: 0 <= i < j < |users| && users[i].valid && users[j].valid ==> users[i].sock != users[j].sock)
  }

  predicate Names(users: seq<User>) {
    forall i, j :: 0 <= i < j < |users| && users[i].valid && users[j].valid && users[i].name != NO_NAME ==> users[i].name != users[j].name
  }

  predicate Vecs(t: Table, vecs: seq<seq<Entry>>, claims: Claims) {
    && (forall u :: 0 <= u < |vecs| ==> Distinct(vecs[u]))
    && (forall u, i :: 0 <= u < |vecs| && 0 <= i < |vecs[u]| ==>
          OpenAt(t, vecs[u][i].ends) && Claimed(claims, vecs[u][i].ends.id, Parked(u)))
  }

  ghost predicate Marks(v: View, claims: Claims)
    requires Shape(v)
  {
    forall s, r :: (s, r) in v.marks ==>
      && Exists(v.users, s) && Exists(v.users, r)
      && OpenAt(v.fds, Cell(v.users, s, r)) && Claimed(claims, Cell(v.users, s, r).id, Sent(s, r))
  }

  predicate Old(claims: Claims, made: nat) {
    forall id :: id in claims ==> id < made
  }

  /** The invariant between events. */
  ghost predicate Good(v: View, claims: Claims) {
    && Shape(v) && Tidy(v.fds, v.made) && Sockets(v.fds, v.users) && Names(v.users)
    && Vecs(v.fds, v.vecs, claims) && Marks(v, claims) && Old(claims, v.made)
  }

  lemma NobodyYet(v: View)
    requires Shape(v) && Tidy(v.fds, v.made) && v.marks == {}
    requires forall i :: 0 <= i < USERS ==> !v.users[i].valid && v.vecs[i] == []
    ensures Good(v, map[])
  {
  }

  // ---------- What the invariant says ----------

  /** A live pipe: parked by some slot, or marked as sent. */
  ghost predicate Live(v: View, e: Ends)
    requires Shape(v)
  {
    || (exists u, i :: 0 <= u < USERS && 0 <= i < |v.vecs[u]| && v.vecs[u][i].ends == e)
    || (exists s, r :: (s, r) in v.marks && IsId(s) && IsId(r) && Cell(v.users, s, r) == e)
  }

  lemma LiveIsOpen(v: View, claims: Claims, e: Ends)
    requires Good(v, claims) && Live(v, e)
    ensures OpenAt(v.fds, e) && e.id in claims
  {
    hide Distinct, Tidy, Sockets, Names, OpenAt;
  }

  /** Descriptors of live pipes are pairwise distinct: two live pipes have no descriptor
      in common, and neither do the two ends of one. */
  lemma LivePipesApart(v: View, claims: Claims, e: Ends, f: Ends)
    requires Good(v, claims) && Live(v, e) && Live(v, f)
    ensures e.r != e.w
    ensures e != f ==> {e.r, e.w} !! {f.r, f.w}
  {
    LiveIsOpen(v, claims, e);
    LiveIsOpen(v, claims, f);
  }

  /** Each live pipe has one owner: one entry of one vector, or one marked cell. */
  lemma OneOwner(v: View, claims: Claims, u: nat, i: nat, w: nat, j: nat)
    requires Good(v, claims) && u < USERS && i < |v.vecs[u]| && w < USERS && j < |v.vecs[w]|
    ensures v.vecs[u][i].ends.id == v.vecs[w][j].ends.id ==> u == w && i == j
    ensures forall s, r :: (s, r) in v.marks ==> Cell(v.users, s, r).id != v.vecs[u][i].ends.id
  {
    hide OpenAt, Tidy, Sockets, Names;
    assert Claimed(claims, v.vecs[u][i].ends.id, Parked(u)) && Claimed(claims, v.vecs[w][j].ends.id, Parked(w));
  }

  lemma OneCell(v: View, claims: Claims, s: nat, r: nat, a: nat, b: nat)
    requires Good(v, claims) && (s, r) in v.marks && (a, b) in v.marks
    ensures Cell(v.users, s, r).id == Cell(v.users, a, b).id ==> s == a && r == b
  {
    hide OpenAt, Tidy, Sockets, Names, Vecs;
  }

  /** No two live pipes share a descriptor. */
  ghost predicate DescriptorsApart(v: View)
    requires Shape(v)
  {
    forall e, f :: Live(v, e) && Live(v, f) ==> e.r != e.w && (e != f ==> {e.r, e.w} !! {f.r, f.w})
  }

  /** No pipe is in two entries, in two marked cells, or in an entry and a marked cell. */
  ghost predicate SingleOwners(v: View)
    requires Shape(v) && forall s, r :: (s, r) in v.marks ==> IsId(s) && IsId(r)
  {
    && (forall u, i, w, j :: 0 <= u < USERS && 0 <= i < |v.vecs[u]| && 0 <= w < USERS && 0 <= j < |v.vecs[w]| ==>
          v.vecs[u][i].ends.id == v.vecs[w][j].ends.id ==> u == w && i == j)
    && (forall s, r, a, b :: (s, r) in v.marks && (a, b) in v.marks && Cell(v.users, s, r).id == Cell(v.users, a, b).id ==>
          s == a && r == b)
    && (forall u, i, s, r :: 0 <= u < USERS && 0 <= i < |v.vecs[u]| && (s, r) in v.marks ==>
          Cell(v.users, s, r).id != v.vecs[u][i].ends.id)
  }

  lemma PipesApart(v: View, claims: Claims)
    requires Good(v, claims)
    ensures Shape(v) && (forall s, r :: (s, r) in v.marks ==> IsId(s) && IsId(r))
    ensures DescriptorsApart(v) && SingleOwners(v)
  {
    GoodShape(v, claims);
    hide Good, Live;
    forall e, f | Live(v, e) && Live(v, f) ensures e.r != e.w && (e != f ==> {e.r, e.w} !! {f.r, f.w}) {
      LivePipesApart(v, claims, e, f);
    }
    forall u, i, w, j | 0 <= u < USERS && 0 <= i < |v.vecs[u]| && 0 <= w < USERS && 0 <= j < |v.vecs[w]|
      ensures v.vecs[u][i].ends.id == v.vecs[w][j].ends.id ==> u == w && i == j
      ensures forall s, r :: (s, r) in v.marks ==> Cell(v.users, s, r).id != v.vecs[u][i].ends.id
    {
      OneOwner(v, claims, u, i, w, j);
    }
    forall s, r, a, b | (s, r) in v.marks && (a, b) in v.marks
      ensures Cell(v.users, s, r).id == Cell(v.users, a, b).id ==> s == a && r == b
    {
      OneCell(v, claims, s, r, a, b);
    }
  }

  /** A vacant slot has no marks. */
  lemma VacantUnmarked(v: View, claims: Claims, slot: nat)
    requires Good(v, claims) && slot < USERS && !v.users[slot].valid
    ensures forall s, r :: (s, r) in v.marks ==> s != slot + 1 && r != slot + 1
  {
    hide OpenAt, Tidy, Sockets, Names, Vecs;
  }

  /** The standard descriptors after they have been restored. */
  ghost predicate Restored(t: Table, t2: Table) {
    && 0 in t2 && 1 in t2 && 2 in t2 && !IsPipe(t2[0]) && !IsPipe(t2[1]) && !IsPipe(t2[2])
    && forall fd: nat :: fd > 2 ==> (fd in t2 <==> fd in t) && (fd in t ==> t2[fd] == t[fd])
  }

  // ---------- What changes keep ----------

  /** `t2` differs from `t` only in descriptors that are no pipes, in new pipes, and in
      the descriptors `gone`. */
  predicate Extends(t: Table, t2: Table, made: nat, gone: set<nat>) {
    && (forall fd :: fd in t && IsPipe(t[fd]) && fd !in gone ==> fd in t2 && t2[fd] == t[fd])
    && (forall fd :: fd in t2 && IsPipe(t2[fd]) && t2[fd].pipe < made ==> fd in t && t[fd] == t2[fd])
  }

  lemma OpenKept(t: Table, t2: Table, made: nat, gone: set<nat>, e: Ends)
    requires OpenAt(t, e) && e.id < made && Extends(t, t2, made, gone) && e.r !in gone && e.w !in gone
    ensures OpenAt(t2, e)
  {
  }

  lemma VecsKept(v: View, t2: Table, vecs2: seq<seq<Entry>>, claims: Claims, claims2: Claims, gone: set<nat>)
    requires Shape(v) && Vecs(v.fds, v.vecs, claims) && Old(claims, v.made) && Extends(v.fds, t2, v.made, gone)
    requires |vecs2| == USERS && forall u :: 0 <= u < USERS ==> Distinct(vecs2[u])
    requires forall u, i :: 0 <= u < USERS && 0 <= i < |vecs2[u]| ==>
      InVec(v.vecs[u], vecs2[u][i].ends) && vecs2[u][i].ends.r !in gone && vecs2[u][i].ends.w !in gone
    requires forall id :: id in claims && claims[id].Parked? ==> Claimed(claims2, id, claims[id])
    ensures Vecs(t2, vecs2, claims2)
  {
    hide Distinct, OpenAt, Extends;
    forall u, i | 0 <= u < USERS && 0 <= i < |vecs2[u]|
      ensures OpenAt(t2, vecs2[u][i].ends) && Claimed(claims2, vecs2[u][i].ends.id, Parked(u))
    {
      var j :| 0 <= j < |v.vecs[u]| && v.vecs[u][j].ends == vecs2[u][i].ends;
      OpenKept(v.fds, t2, v.made, gone, vecs2[u][i].ends);
    }
  }

  predicate InVec(vec: seq<Entry>, e: Ends) {
    exists j :: 0 <= j < |vec| && vec[j].ends == e
  }

  lemma MarksKept(v: View, w: View, claims: Claims, claims2: Claims, gone: set<nat>)
    requires Shape(v) && Shape(w) && Marks(v, claims) && Old(claims, v.made) && Extends(v.fds, w.fds, v.made, gone)
    requires w.marks <= v.marks
    requires forall s, r :: (s, r) in w.marks ==>
      && Exists(w.users, s) && Exists(w.users, r)
      && Cell(w.users, s, r) == Cell(v.users, s, r) && Cell(v.users, s, r).r !in gone && Cell(v.users, s, r).w !in gone
    requires forall s, r :: (s, r) in w.marks && Claimed(claims, Cell(v.users, s, r).id, Sent(s, r)) ==>
      Claimed(claims2, Cell(v.users, s, r).id, Sent(s, r))
    ensures Marks(w, claims2)
  {
    hide OpenAt, Extends;
    forall s, r | (s, r) in w.marks
      ensures OpenAt(w.fds, Cell(w.users, s, r)) && Claimed(claims2, Cell(w.users, s, r).id, Sent(s, r))
    {
      OpenKept(v.fds, w.fds, v.made, gone, Cell(v.users, s, r));
    }
  }

  lemma SameVec(vecs: seq<seq<Entry>>)
    ensures forall u, i :: 0 <= u < |vecs| && 0 <= i < |vecs[u]| ==> InVec(vecs[u], vecs[u][i].ends)
  {
  }

  /** Descriptors changed, and no pipe of anybody's was touched. */
  lemma TableKeeps(v: View, claims: Claims, t2: Table, made2: nat)
    requires Good(v, claims) && v.made <= made2
    requires Extends(v.fds, t2, v.made, {}) && Tidy(t2, made2) && Sockets(t2, v.users)
    ensures Good(v.(fds := t2, made := made2), claims)
  {
    hide Distinct, OpenAt, Extends, Tidy, Sockets, Names;
    SameVec(v.vecs);
    VecsKept(v, t2, v.vecs, claims, claims, {});
    MarksKept(v, v.(fds := t2, made := made2), claims, claims, {});
  }

  lemma SelfExtends(t: Table, made: nat)
    ensures Extends(t, t, made, {})
  {
  }

  lemma CountDownKeeps(v: View, claims: Claims, me: nat)
    requires Good(v, claims) && me < USERS
    ensures Good(v.(vecs := v.vecs[me := Ticked(v.vecs[me])]), claims)
  {
    TickKeepsAgenda(v.vecs[me], 0);
    SelfExtends(v.fds, v.made);
    hide Distinct, OpenAt, Extends, Tidy, Sockets, Names;
    var vecs2: seq<seq<Entry>> := v.vecs[me := Ticked(v.vecs[me])];
    forall u, i | 0 <= u < USERS && 0 <= i < |vecs2[u]| ensures InVec(v.vecs[u], vecs2[u][i].ends) {
      assert v.vecs[u][i].ends == vecs2[u][i].ends;
    }
    VecsKept(v, v.fds, vecs2, claims, claims, {});
    MarksKept(v, v.(vecs := vecs2), claims, claims, {});
  }

  /** The table after pipe(). */
  function Piped(t: Table, made: nat, e: Ends): Table {
    t[e.r := ReadEnd(made)][e.w := WriteEnd(made)]
  }

  predicate NewPipe(v: View, e: Ends) {
    e.id == v.made && e.r !in v.fds && e.w !in v.fds && e.r != e.w
  }

  lemma PipeKeeps(v: View, claims: Claims, e: Ends)
    requires Good(v, claims) && NewPipe(v, e)
    ensures Good(v.(fds := Piped(v.fds, v.made, e), made := v.made + 1), claims)
    ensures OpenAt(Piped(v.fds, v.made, e), e) && e.id !in claims && Extends(v.fds, Piped(v.fds, v.made, e), v.made, {})
  {
    var t2 := Piped(v.fds, v.made, e);
    assert OpenAt(t2, e) && Extends(v.fds, t2, v.made, {}) && Tidy(t2, v.made + 1) && Sockets(t2, v.users);
    hide Good;
    TableKeeps(v, claims, t2, v.made + 1);
    assert e.id !in claims by {
      GoodOld(v, claims);
    }
  }

  lemma GoodOld(v: View, claims: Claims)
    requires Good(v, claims)
    ensures Old(claims, v.made)
  {
  }

  /** A pipe that nobody owns becomes a parked one. */
  lemma ParkKeeps(v: View, claims: Claims, me: nat, n: int, e: Ends)
    requires Good(v, claims) && me < USERS && !Has(v.vecs[me], n)
    requires OpenAt(v.fds, e) && e.id < v.made && e.id !in claims
    ensures Good(v.(vecs := v.vecs[me := v.vecs[me] + [Entry(n, e)]]), claims[e.id := Parked(me)])
  {
    var vecs2, claims2 := v.vecs[me := v.vecs[me] + [Entry(n, e)]], claims[e.id := Parked(me)];
    assert forall i :: 0 <= i < |v.vecs[me]| ==> Claimed(claims, v.vecs[me][i].ends.id, Parked(me));
    ParkAddsToAgenda(v.vecs[me], 0, n, e);
    hide Distinct, OpenAt, Tidy, Sockets, Names, Has;
    VecsAppend(v.fds, v.vecs, claims, me, Entry(n, e));
    hide Vecs;
    MarksGrow(v, v.(vecs := vecs2), claims, claims2);
  }

  lemma VecsAppend(t: Table, vecs: seq<seq<Entry>>, claims: Claims, me: nat, e: Entry)
    requires Vecs(t, vecs, claims) && me < |vecs| && Distinct(vecs[me] + [e])
    requires OpenAt(t, e.ends) && e.ends.id !in claims
    ensures Vecs(t, vecs[me := vecs[me] + [e]], claims[e.ends.id := Parked(me)])
  {
    hide Distinct, OpenAt;
    var vecs2: seq<seq<Entry>>, claims2 := vecs[me := vecs[me] + [e]], claims[e.ends.id := Parked(me)];
    forall u, i | 0 <= u < |vecs2| && 0 <= i < |vecs2[u]|
      ensures OpenAt(t, vecs2[u][i].ends) && Claimed(claims2, vecs2[u][i].ends.id, Parked(u))
    {
      if u != me || i < |vecs[me]| {
        assert vecs2[u][i] == vecs[u][i] && Claimed(claims, vecs[u][i].ends.id, Parked(u));
      }
    }
  }

  /** Marks and cells unchanged, claims only added to. */
  lemma MarksGrow(v: View, w: View, claims: Claims, claims2: Claims)
    requires Shape(v) && Shape(w) && Marks(v, claims) && v.fds == w.fds && v.users == w.users && v.marks == w.marks
    requires forall id :: id in claims ==> Claimed(claims2, id, claims[id])
    ensures Marks(w, claims2)
  {
    hide OpenAt;
  }

  /** The pipe of a line that has received it. */
  predicate HeldAt(t: Table, claims: Claims, e: Option<Ends>) {
    e.Some? ==> OpenAt(t, e.value) && Claimed(claims, e.value.id, Held)
  }

  lemma NothingHeld(t: Table, claims: Claims)
    ensures HeldAt(t, claims, None)
  {
  }

  lemma GoodShape(v: View, claims: Claims)
    requires Good(v, claims)
    ensures Shape(v)
    ensures forall s, r :: (s, r) in v.marks ==> Exists(v.users, s) && Exists(v.users, r)
  {
    hide OpenAt, Vecs;
  }

  lemma GoodSocket(v: View, claims: Claims, me: nat)
    requires Good(v, claims) && me < USERS && v.users[me].valid
    ensures v.users[me].sock in v.fds && v.users[me].sock > 2 && v.fds[v.users[me].sock].Socket?
    ensures forall i :: 0 <= i < USERS && i != me && v.users[i].valid ==> v.users[i].sock != v.users[me].sock
  {
    hide OpenAt, Vecs, Marks, Names;
  }

  lemma GoodLow(v: View, claims: Claims)
    requires Good(v, claims)
    ensures NoLowPipes(v.fds)
  {
    hide OpenAt, Vecs, Marks, Names, Sockets;
  }

  lemma GoodSockets(v: View, claims: Claims)
    requires Good(v, claims)
    ensures |v.users| == USERS && forall i :: 0 <= i < USERS && v.users[i].valid ==> v.users[i].sock in v.fds
  {
    hide OpenAt, Vecs, Marks, Names, Tidy;
  }

  lemma GoodMarks(v: View, claims: Claims)
    requires Good(v, claims)
    ensures Shape(v) && forall s, r :: (s, r) in v.marks ==> Exists(v.users, s) && Exists(v.users, r) && OpenAt(v.fds, Cell(v.users, s, r))
  {
    hide OpenAt, Vecs, Sockets, Names, Tidy;
  }

  lemma ReceiveKeeps(v: View, claims: Claims, s: nat, r: nat)
    requires Good(v, claims) && (s, r) in v.marks
    ensures
      var e := Cell(v.users, s, r);
      var claims2 := claims[e.id := Held];
      Good(v.(marks := v.marks - {(s, r)}), claims2) && HeldAt(v.fds, claims2, Some(e))
  {
    var e := Cell(v.users, s, r);
    var claims2 := claims[e.id := Held];
    SelfExtends(v.fds, v.made);
    SameVec(v.vecs);
    hide Distinct, OpenAt, Extends, Tidy, Sockets, Names;
    assert Claimed(claims, e.id, Sent(s, r));
    VecsKept(v, v.fds, v.vecs, claims, claims2, {});
    MarksKept(v, v.(marks := v.marks - {(s, r)}), claims, claims2, {});
  }

  /** The new pipe is put in the cell of a pair that has no mark, which is then set. */
  lemma SendKeeps(v: View, claims: Claims, s: nat, r: nat, e: Ends)
    requires Good(v, claims) && Exists(v.users, s) && Exists(v.users, r) && (s, r) !in v.marks
    requires OpenAt(v.fds, e) && e.id < v.made && e.id !in claims
    ensures Good(v.(users := PutCell(v.users, s, r, e), marks := v.marks + {(s, r)}), claims[e.id := Sent(s, r)])
  {
    var w, claims2 := v.(users := PutCell(v.users, s, r, e), marks := v.marks + {(s, r)}), claims[e.id := Sent(s, r)];
    PutCellOthers(v, s, r, e);
    SelfExtends(v.fds, v.made);
    SameVec(v.vecs);
    assert Sockets(w.fds, w.users);
    hide Distinct, OpenAt, Extends, Tidy, Sockets;
    VecsKept(v, v.fds, v.vecs, claims, claims2, {});
    hide Names, Vecs, PutCell;
    forall a, b | (a, b) in w.marks
      ensures OpenAt(w.fds, Cell(w.users, a, b)) && Claimed(claims2, Cell(w.users, a, b).id, Sent(a, b))
    {
      assert (a, b) != (s, r) ==> (a, b) in v.marks;
    }
  }

  function PutCell(users: seq<User>, s: nat, r: nat, e: Ends): seq<User>
    requires |users| == USERS && IsId(s) && IsId(r) && |users[r - 1].pipes| == USERS
  {
    users[r - 1 := users[r - 1].(pipes := users[r - 1].pipes[s - 1 := e])]
  }

  lemma PutCellOthers(v: View, s: nat, r: nat, e: Ends)
    requires Shape(v) && IsId(s) && IsId(r)
    ensures
      var users2 := PutCell(v.users, s, r, e);
      && Shape(v.(users := users2)) && Cell(users2, s, r) == e
      && (forall a, b :: IsId(a) && IsId(b) && (a, b) != (s, r) ==> Cell(users2, a, b) == Cell(v.users, a, b))
      && (forall i :: 0 <= i < USERS ==>
            users2[i].valid == v.users[i].valid && users2[i].sock == v.users[i].sock && users2[i].name == v.users[i].name)
      && (forall i :: Exists(users2, i) <==> Exists(v.users, i))
      && (Names(v.users) ==> Names(users2))
  {
  }

  /** `>n`: a new pipe, put in the cell and marked. */
  lemma SendNewPipe(v: View, claims: Claims, s: nat, r: nat, e: Ends, held: Option<Ends>)
    requires Good(v, claims) && NewPipe(v, e) && Exists(v.users, s) && Exists(v.users, r) && (s, r) !in v.marks
    requires HeldAt(v.fds, claims, held)
    ensures
      var t2, claims2 := Piped(v.fds, v.made, e), claims[e.id := Sent(s, r)];
      && Good(View(t2, v.made + 1, PutCell(v.users, s, r, e), v.vecs, v.marks + {(s, r)}), claims2)
      && HeldAt(t2, claims2, held)
  {
    GoodOld(v, claims);
    PipeKeeps(v, claims, e);
    hide Good, HeldAt, OpenAt, Extends;
    var w := v.(fds := Piped(v.fds, v.made, e), made := v.made + 1);
    SendKeeps(w, claims, s, r, e);
    HeldKept(v, w, claims, claims[e.id := Sent(s, r)], held);
  }

  /** `|N` with no pipe to share: a new pipe, parked. */
  lemma ParkNewPipe(v: View, claims: Claims, me: nat, n: int, e: Ends, held: Option<Ends>)
    requires Good(v, claims) && NewPipe(v, e) && me < USERS && !Has(v.vecs[me], n) && HeldAt(v.fds, claims, held)
    ensures
      var t2, claims2 := Piped(v.fds, v.made, e), claims[e.id := Parked(me)];
      && Good(View(t2, v.made + 1, v.users, v.vecs[me := v.vecs[me] + [Entry(n, e)]], v.marks), claims2)
      && HeldAt(t2, claims2, held)
  {
    GoodOld(v, claims);
    PipeKeeps(v, claims, e);
    hide Good, HeldAt, OpenAt, Extends, Has;
    var w := v.(fds := Piped(v.fds, v.made, e), made := v.made + 1);
    ParkKeeps(w, claims, me, n, e);
    HeldKept(v, w, claims, claims[e.id := Parked(me)], held);
  }

  /** The user table changed in validity or names only; no vacated user had marks. */
  lemma UsersKeep(v: View, claims: Claims, users2: seq<User>, t2: Table)
    requires Good(v, claims) && |users2| == USERS
    requires forall i :: 0 <= i < USERS ==> users2[i].pipes == v.users[i].pipes
    requires forall s, r :: (s, r) in v.marks ==> Exists(users2, s) && Exists(users2, r)
    requires Extends(v.fds, t2, v.made, {}) && Tidy(t2, v.made) && Sockets(t2, users2) && Names(users2)
    ensures Good(v.(users := users2, fds := t2), claims)
  {
    hide Distinct, OpenAt, Extends, Tidy, Sockets, Names;
    SameVec(v.vecs);
    VecsKept(v, t2, v.vecs, claims, claims, {});
    MarksKept(v, v.(users := users2, fds := t2), claims, claims, {});
  }

  /** A login: the vacant slot gets the new socket and no name. */
  lemma SeatKeeps(v: View, claims: Claims, slot: nat, sock: nat, conn: nat)
    requires Good(v, claims) && slot < USERS && !v.users[slot].valid && sock !in v.fds
    ensures
      var users2 := v.users[slot := v.users[slot].(valid := true, sock := sock, name := NO_NAME)];
      Good(v.(users := users2, fds := v.fds[sock := Socket(conn)]), claims)
  {
    var users2 := v.users[slot := v.users[slot].(valid := true, sock := sock, name := NO_NAME)];
    var t2 := v.fds[sock := Socket(conn)];
    assert sock > 2;
    assert Sockets(t2, users2) && Names(users2) && Tidy(t2, v.made) && Extends(v.fds, t2, v.made, {});
    hide Tidy, Sockets, Names, Extends, Vecs, OpenAt;
    assert forall i :: Exists(v.users, i) ==> Exists(users2, i);
    assert forall s, r :: (s, r) in v.marks ==> Exists(v.users, s) && Exists(v.users, r);
    hide Marks;
    UsersKeep(v, claims, users2, t2);
  }

  /** Names changed and nothing else of the users did. */
  lemma NameKeeps(v: View, claims: Claims, users2: seq<User>)
    requires Good(v, claims) && |users2| == USERS && Names(users2)
    requires forall i :: 0 <= i < USERS ==> users2[i] == v.users[i].(name := users2[i].name)
    ensures Good(v.(users := users2), claims)
  {
    SelfExtends(v.fds, v.made);
    assert Sockets(v.fds, users2);
    hide Tidy, Sockets, Names, Extends, Vecs, OpenAt;
    assert forall i :: Exists(v.users, i) ==> Exists(users2, i);
    assert forall s, r :: (s, r) in v.marks ==> Exists(v.users, s) && Exists(v.users, r);
    hide Marks;
    UsersKeep(v, claims, users2, v.fds);
  }

  /** An exit: the slot is vacated once its marks are gone. */
  lemma LeaveKeeps(v: View, claims: Claims, me: nat)
    requires Good(v, claims) && me < USERS
    requires forall s, r :: (s, r) in v.marks ==> s != me + 1 && r != me + 1
    ensures Good(v.(users := v.users[me := v.users[me].(valid := false)]), claims)
  {
    var users2 := v.users[me := v.users[me].(valid := false)];
    SelfExtends(v.fds, v.made);
    assert Sockets(v.fds, users2) && Names(users2);
    hide Tidy, Sockets, Names, Extends, Vecs, OpenAt;
    assert forall i :: Exists(v.users, i) && i != me + 1 ==> Exists(users2, i);
    assert forall s, r :: (s, r) in v.marks ==> Exists(v.users, s) && Exists(v.users, r);
    hide Marks;
    UsersKeep(v, claims, users2, v.fds);
  }

  /** Only descriptors that are no pipes and nobody's socket were changed. */
  lemma PlainTableKeeps(v: View, claims: Claims, t2: Table)
    requires Good(v, claims) && Restored(v.fds, t2)
    ensures Good(v.(fds := t2), claims)
  {
    assert Extends(v.fds, t2, v.made, {}) && Tidy(t2, v.made) && Sockets(t2, v.users);
    hide Good;
    TableKeeps(v, claims, t2, v.made);
  }

  /** close() of a socket whose user has left. */
  lemma CloseKeeps(v: View, claims: Claims, fd: nat)
    requires Good(v, claims) && fd > 2 && (fd in v.fds ==> !IsPipe(v.fds[fd]))
    requires forall i :: 0 <= i < USERS && v.users[i].valid ==> v.users[i].sock != fd
    ensures Good(v.(fds := v.fds - {fd}), claims)
  {
    var t2 := v.fds - {fd};
    assert Extends(v.fds, t2, v.made, {}) && Tidy(t2, v.made) && Sockets(t2, v.users);
    hide Good;
    TableKeeps(v, claims, t2, v.made);
  }

  lemma HeldKept(v: View, w: View, claims: Claims, claims2: Claims, e: Option<Ends>)
    requires HeldAt(v.fds, claims, e) && Old(claims, v.made) && Extends(v.fds, w.fds, v.made, {})
    requires forall id :: id in claims ==> Claimed(claims2, id, claims[id])
    ensures HeldAt(w.fds, claims2, e)
  {
    if e.Some? {
      OpenKept(v.fds, w.fds, v.made, {}, e.value);
    }
  }

  lemma ForgetKeeps(v: View, claims: Claims, marks2: set<(nat, nat)>)
    requires Good(v, claims) && marks2 <= v.marks
    ensures Good(v.(marks := marks2), claims)
  {
    SelfExtends(v.fds, v.made);
    hide Distinct, OpenAt, Extends, Tidy, Sockets, Names, Vecs;
    MarksKept(v, v.(marks := marks2), claims, claims, {});
  }

  // ---------- Running a line ----------

  /** Where the parser may send a line's output: a pipe parked for later, or the pipe of
      a mark just set. */
  ghost predicate OutFits(v: View, me: nat, out: Out)
    requires Shape(v) && me < USERS
  {
    && (out.ToNumber? ==> exists i :: 0 <= i < |v.vecs[me]| && v.vecs[me][i].rest != 0 && v.vecs[me][i].ends.w == out.fd)
    && (out.ToUser? ==> exists r :: (me + 1, r) in v.marks && IsId(r) && Cell(v.users, me + 1, r).w == out.fd)
  }

  function PlanOf(v: View, me: nat, user: Option<Ends>, out: Out): Plan
    requires Shape(v) && me < USERS
  {
    Plan(v.fds, v.made, v.vecs[me], user, out)
  }

  lemma EntryIsOpen(v: View, claims: Claims, u: nat, i: nat)
    requires Vecs(v.fds, v.vecs, claims) && u < |v.vecs| && i < |v.vecs[u]|
    ensures OpenAt(v.fds, v.vecs[u][i].ends) && Claimed(claims, v.vecs[u][i].ends.id, Parked(u))
  {
    hide Distinct, OpenAt;
  }

  lemma NotIn(v: View, claims: Claims, me: nat, id: nat, c: Claim)
    requires Vecs(v.fds, v.vecs, claims) && me < |v.vecs| && Claimed(claims, id, c) && c != Parked(me)
    ensures id !in Ids(v.vecs[me])
  {
    hide Vecs;
    forall i | 0 <= i < |v.vecs[me]| ensures v.vecs[me][i].ends.id != id {
      EntryIsOpen(v, claims, me, i);
    }
  }

  lemma LineIsReady(v: View, claims: Claims, me: nat, user: Option<Ends>, out: Out)
    requires Good(v, claims) && me < USERS && HeldAt(v.fds, claims, user) && OutFits(v, me, out)
    ensures Ready(PlanOf(v, me, user, out))
  {
    hide Distinct, Sockets, Names;
    if user.Some? {
      NotIn(v, claims, me, user.value.id, Held);
    }
    if out.ToUser? {
      var r :| (me + 1, r) in v.marks && IsId(r) && Cell(v.users, me + 1, r).w == out.fd;
      var e := Cell(v.users, me + 1, r);
      assert OpenAt(v.fds, e) && Claimed(claims, e.id, Sent(me + 1, r));
      NotIn(v, claims, me, e.id, Sent(me + 1, r));
    }
  }

  /** The descriptors that a line closes for good. */
  function Gone(plan: Plan, ran: nat): set<nat> {
    if ran == 0 then {} else Both(Due(plan)) + Both(plan.user)
  }

  lemma RunTable(plan: Plan, ran: nat, fds: Table, made: nat, vec: seq<Entry>, t2: Table)
    requires Ready(plan) && Outcome(plan, ran, fds, made, vec) && Restored(fds, t2)
    ensures Extends(plan.fds, t2, plan.made, Gone(plan, ran)) && Tidy(t2, made) && plan.made <= made
    ensures forall fd :: fd in plan.fds && fd > 2 && !IsPipe(plan.fds[fd]) ==> fd in t2 && t2[fd] == plan.fds[fd]
  {
    ConsumedApart(plan);
    ConsumedPipes(plan);
    hide Due, Ready;
    assert Tidy(plan.fds, plan.made) by {
      ReadyTidy(plan);
    }
  }

  lemma ReadyTidy(plan: Plan)
    requires Ready(plan)
    ensures Tidy(plan.fds, plan.made)
  {
  }

  lemma ConsumedPipes(plan: Plan)
    requires Ready(plan)
    ensures forall fd :: fd in Both(Due(plan)) || fd in Both(plan.user) ==> fd in plan.fds && IsPipe(plan.fds[fd])
  {
    ConsumedApart(plan);
  }

  /** An open pipe that is none of the consumed ones loses no descriptor. */
  lemma NotGone(plan: Plan, ran: nat, e: Ends)
    requires Ready(plan) && OpenAt(plan.fds, e)
    requires ran != 0 ==> (Due(plan).Some? ==> e.id != Due(plan).value.id) && (plan.user.Some? ==> e.id != plan.user.value.id)
    ensures e.r !in Gone(plan, ran) && e.w !in Gone(plan, ran)
  {
    ConsumedApart(plan);
  }

  lemma DueIsParked(v: View, claims: Claims, me: nat, plan: Plan)
    requires Shape(v) && me < USERS && Vecs(v.fds, v.vecs, claims) && plan.vec == v.vecs[me]
    ensures Due(plan).Some? ==> Claimed(claims, Due(plan).value.id, Parked(me))
  {
    hide Vecs;
    if Due(plan).Some? {
      EntryIsOpen(v, claims, me, Find(plan.vec, 0));
    }
  }

  /** What is left in the vector comes from it and is not the consumed entry. */
  lemma LeftInVec(plan: Plan, ran: nat, fds: Table, made: nat, vec: seq<Entry>, i: nat)
    requires Ready(plan) && Outcome(plan, ran, fds, made, vec) && i < |vec|
    ensures InVec(plan.vec, vec[i].ends) && OpenAt(plan.fds, vec[i].ends)
    ensures ran != 0 && Due(plan).Some? ==> vec[i].ends.id != Due(plan).value.id
  {
    if ran != 0 && Has(plan.vec, 0) {
      AliveMembers(plan.vec, vec[i]);
    }
    assert vec[i] in plan.vec;
  }

  lemma LeftIsDistinct(plan: Plan, ran: nat, fds: Table, made: nat, vec: seq<Entry>)
    requires Ready(plan) && Outcome(plan, ran, fds, made, vec)
    ensures Distinct(vec)
  {
    AliveDistinct(plan.vec);
  }

  lemma RunVecs(v: View, claims: Claims, me: nat, plan: Plan, ran: nat, fds: Table, made: nat, vec: seq<Entry>, t2: Table)
    requires Good(v, claims) && me < USERS && plan == PlanOf(v, me, plan.user, plan.out) && HeldAt(v.fds, claims, plan.user)
    requires Ready(plan) && Outcome(plan, ran, fds, made, vec) && Restored(fds, t2)
    ensures Vecs(t2, v.vecs[me := vec], claims)
  {
    RunTable(plan, ran, fds, made, vec, t2);
    LeftIsDistinct(plan, ran, fds, made, vec);
    DueIsParked(v, claims, me, plan);
    hide Distinct, OpenAt, Extends, Ready, Outcome, Due, Gone, Restored, Tidy, Sockets, Names;
    var vecs2: seq<seq<Entry>> := v.vecs[me := vec];
    forall u, i | 0 <= u < USERS && 0 <= i < |vecs2[u]|
      ensures InVec(v.vecs[u], vecs2[u][i].ends) && vecs2[u][i].ends.r !in Gone(plan, ran) && vecs2[u][i].ends.w !in Gone(plan, ran)
    {
      if u == me {
        LeftInVec(plan, ran, fds, made, vec, i);
        var j :| 0 <= j < |v.vecs[me]| && v.vecs[me][j].ends == vec[i].ends;
        assert Claimed(claims, v.vecs[me][j].ends.id, Parked(me));
      } else {
        assert Claimed(claims, v.vecs[u][i].ends.id, Parked(u));
      }
      NotGone(plan, ran, vecs2[u][i].ends);
    }
    VecsKept(v, t2, vecs2, claims, claims, Gone(plan, ran));
  }

  lemma RunMarks(v: View, claims: Claims, me: nat, plan: Plan, ran: nat, fds: Table, made: nat, vec: seq<Entry>, t2: Table)
    requires Good(v, claims) && me < USERS && plan == PlanOf(v, me, plan.user, plan.out) && HeldAt(v.fds, claims, plan.user)
    requires Ready(plan) && Outcome(plan, ran, fds, made, vec) && Restored(fds, t2)
    ensures Marks(v.(fds := t2, made := made, vecs := v.vecs[me := vec]), claims)
  {
    RunTable(plan, ran, fds, made, vec, t2);
    DueIsParked(v, claims, me, plan);
    hide Distinct, OpenAt, Extends, Ready, Outcome, Due, Gone, Restored, Tidy, Sockets, Names, Vecs;
    var w := v.(fds := t2, made := made, vecs := v.vecs[me := vec]);
    forall s, r | (s, r) in v.marks
      ensures Cell(v.users, s, r).r !in Gone(plan, ran) && Cell(v.users, s, r).w !in Gone(plan, ran)
    {
      assert Claimed(claims, Cell(v.users, s, r).id, Sent(s, r));
      NotGone(plan, ran, Cell(v.users, s, r));
    }
    MarksKept(v, w, claims, claims, Gone(plan, ran));
  }

  lemma RunSockets(v: View, claims: Claims, plan: Plan, t2: Table)
    requires Good(v, claims) && plan.fds == v.fds
    requires forall fd :: fd in plan.fds && fd > 2 && !IsPipe(plan.fds[fd]) ==> fd in t2 && t2[fd] == plan.fds[fd]
    ensures Sockets(t2, v.users)
  {
    hide Distinct, OpenAt, Tidy, Names, Vecs, Marks;
  }

  lemma RunKeeps(v: View, claims: Claims, me: nat, plan: Plan, ran: nat, fds: Table, made: nat, vec: seq<Entry>, t2: Table)
    requires Good(v, claims) && me < USERS && plan == PlanOf(v, me, plan.user, plan.out) && HeldAt(v.fds, claims, plan.user)
    requires Ready(plan) && Outcome(plan, ran, fds, made, vec) && Restored(fds, t2)
    ensures Good(v.(fds := t2, made := made, vecs := v.vecs[me := vec]), claims)
  {
    RunVecs(v, claims, me, plan, ran, fds, made, vec, t2);
    RunTable(plan, ran, fds, made, vec, t2);
    RunMarks(v, claims, me, plan, ran, fds, made, vec, t2);
    RunSockets(v, claims, plan, t2);
    hide Ready, Outcome, Restored, HeldAt, Extends, Tidy, Sockets, Names, Vecs, Marks;
  }
}
