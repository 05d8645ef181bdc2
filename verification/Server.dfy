/** The single-process server: one user table, one matrix of user-pipe marks and one
    descriptor table, changed by logins, command lines and exits in any order. */
module Server {
  import opened Prelude
  import opened Descriptors
  import opened NumberPipes
  import opened Pipeline
  import opened SessionTable
  import Delivery

  /** A stage of a command line. */
  datatype Command = Forked | Silent | Exit | Name(to: Option<string>)

  /** How a line ends: nothing, `> file`, `|N` or `!N`, or `>n`. */
  datatype End = NoEnd | File(name: string) | Number(n: nat, both: bool) | To(receiver: nat)

  /** A parsed line; `froms` are the senders of its `<n`, which precede the end. */
  datatype Line = Line(froms: seq<nat>, commands: seq<Command>, end: End)

  /** N is positive, only a lone `<n` has no command, and nobody both receives from and
      sends to themselves. */
  predicate Proper(me: nat, l: Line) {
    && (l.end.Number? ==> l.end.n >= 1)
    && (l.commands == [] ==> l.end.NoEnd?)
    && (l.froms != [] && l.end.To? ==> !(l.froms[|l.froms| - 1] == me + 1 && l.end.receiver == me + 1))
  }

  function KindOf(c: Command): Kind {
    match c
    case Forked => External
    case Exit => Quit
    case _ => Builtin
  }

  function Kinds(cs: seq<Command>): seq<Kind> {
    seq(|cs|, i requires 0 <= i < |cs| => KindOf(cs[i]))
  }

  // ---------- What a line means for users and marks ----------

  datatype Marking = Marking(ok: bool, marks: set<(nat, nat)>)

  /** Each `<n` needs an existing sender and a mark, which it clears; the first that
      fails ends the line. */
  function Receiving(users: seq<User>, marks: set<(nat, nat)>, me: nat, froms: seq<nat>): Marking {
    if froms == [] then Marking(true, marks)
    else if Exists(users, froms[0]) && (froms[0], me + 1) in marks
    then Receiving(users, marks - {(froms[0], me + 1)}, me, froms[1..])
    else Marking(false, marks)
  }

  /** `>n` needs an existing receiver and no mark, which it sets. */
  function Sending(users: seq<User>, marks: set<(nat, nat)>, me: nat, end: End): Marking {
    if !end.To? then Marking(true, marks)
    else if Exists(users, end.receiver) && (me + 1, end.receiver) !in marks
    then Marking(true, marks + {(me + 1, end.receiver)})
    else Marking(false, marks)
  }

  function Parsing(users: seq<User>, marks: set<(nat, nat)>, me: nat, l: Line): Marking {
    var r := Receiving(users, marks, me, l.froms);
    if r.ok then Sending(users, r.marks, me, l.end) else r
  }

  /** The `i`-th `<n` of a line finds its sender and a mark, which no earlier one took. */
  predicate Offered(users: seq<User>, marks: set<(nat, nat)>, me: nat, froms: seq<nat>, i: nat)
    requires i < |froms|
  {
    Exists(users, froms[i]) && (froms[i], me + 1) in marks && froms[i] !in froms[..i]
  }

  /** The receives of a line one after the other, written out: the first `n` find what
      they need, and their marks, and only theirs, are gone. */
  ghost predicate ReceivesUpTo(users: seq<User>, marks: set<(nat, nat)>, me: nat, froms: seq<nat>, n: nat, after: set<(nat, nat)>) {
    && n <= |froms| && (forall i :: 0 <= i < n ==> Offered(users, marks, me, froms, i))
    && (n < |froms| ==> !Offered(users, marks, me, froms, n))
    && (forall s, r :: (s, r) in after <==> (s, r) in marks && !(r == me + 1 && s in froms[..n]))
  }

  lemma {:induction false} ReceivingMeans(users: seq<User>, marks: set<(nat, nat)>, me: nat, froms: seq<nat>) returns (n: nat)
    ensures ReceivesUpTo(users, marks, me, froms, n, Receiving(users, marks, me, froms).marks)
    ensures Receiving(users, marks, me, froms).ok <==> n == |froms|
  {
    if froms == [] {
      n := 0;
    } else if Exists(users, froms[0]) && (froms[0], me + 1) in marks {
      var rest := marks - {(froms[0], me + 1)};
      var m := ReceivingMeans(users, rest, me, froms[1..]);
      n := m + 1;
      assert froms[..n] == [froms[0]] + froms[1..][..m];
      forall i | 0 < i <= m + 1 && i < |froms|
        ensures Offered(users, marks, me, froms, i) <==> Offered(users, rest, me, froms[1..], i - 1)
      {
        assert froms[i] == froms[1..][i - 1] && froms[..i] == [froms[0]] + froms[1..][..i - 1];
      }
    } else {
      n := 0;
    }
  }

  /** A line without an error: every receive finds its mark, a final send finds its
      receiver and no mark; and what is then marked. */
  lemma ParsingMeans(users: seq<User>, marks: set<(nat, nat)>, me: nat, l: Line)
    ensures
      var m := Parsing(users, marks, me, l);
      && (m.ok <==>
            && (forall i :: 0 <= i < |l.froms| ==> Offered(users, marks, me, l.froms, i))
            && (l.end.To? ==>
                  && Exists(users, l.end.receiver)
                  && ((me + 1, l.end.receiver) !in marks || (l.end.receiver == me + 1 && me + 1 in l.froms))))
      && (m.ok ==> forall s, r :: (s, r) in m.marks <==>
            ((s, r) in marks && !(r == me + 1 && s in l.froms)) || (l.end.To? && s == me + 1 && r == l.end.receiver))
      && (!m.ok ==> exists n :: ReceivesUpTo(users, marks, me, l.froms, n, m.marks))
  {
    var n := ReceivingMeans(users, marks, me, l.froms);
    hide Receiving, Offered;
    assert l.froms[..|l.froms|] == l.froms;
    var mid := Receiving(users, marks, me, l.froms).marks;
    assert ReceivesUpTo(users, marks, me, l.froms, n, mid);
    if n == |l.froms| && l.end.To? {
      assert (me + 1, l.end.receiver) in mid <==>
        (me + 1, l.end.receiver) in marks && !(l.end.receiver == me + 1 && me + 1 in l.froms);
    }
  }

  lemma WithoutMeans(marks: set<(nat, nat)>, id: nat)
    ensures forall s, r :: (s, r) in Without(marks, id) <==> (s, r) in marks && s != id && r != id
  {
  }

  /** The marks that do not involve user `id`. */
  function Without(marks: set<(nat, nat)>, id: nat): set<(nat, nat)> {
    set m | m in marks && m.0 != id && m.1 != id
  }

  predicate Taken(users: seq<User>, name: string) {
    exists i :: 0 <= i < |users| && users[i].valid && users[i].name == name
  }

  function Renamed(users: seq<User>, me: nat, to: Option<string>): seq<User>
    requires me < |users|
  {
    if to.None? then users[me := users[me].(name := NO_NAME)]
    else if Taken(users, to.value) then users
    else users[me := users[me].(name := to.value)]
  }

  /** The `name` commands up to the first `exit`. */
  function AllRenamed(users: seq<User>, me: nat, cs: seq<Command>): (us: seq<User>)
    requires me < |users|
    ensures |us| == |users|
    decreases |cs|
  {
    if cs == [] then users
    else
      var before := AllRenamed(users, me, cs[..|cs| - 1]);
      var c := cs[|cs| - 1];
      if c.Name? && Exit !in cs then Renamed(before, me, c.to) else before
  }

  /** Nothing is renamed after the first `exit`. */
  lemma {:induction false} RenamedUntil(now: seq<User>, users: seq<User>, me: nat, cs: seq<Command>, i: nat)
    requires me < |users| && i <= |cs| && (i == |cs| || cs[i].Exit?) && now == AllRenamed(users, me, cs[..i])
    ensures now == AllRenamed(users, me, cs)
    decreases |cs|
  {
    if i == |cs| {
      assert cs[..i] == cs;
    } else {
      var n := |cs| - 1;
      assert cs[i] in cs;
      if i < n {
        assert cs[..n][..i] == cs[..i];
        RenamedUntil(now, users, me, cs[..n], i);
      }
    }
  }

  lemma NumberFits(v: View, me: nat, n: nat, out: Out)
    requires Shape(v) && me < USERS && n >= 1 && Has(v.vecs[me], n)
    requires out.ToNumber? && out.fd == v.vecs[me][Find(v.vecs[me], n)].ends.w
    ensures OutFits(v, me, out)
  {
    var i := Find(v.vecs[me], n);
    assert v.vecs[me][i].rest == n;
  }

  lemma StillDue(vec: seq<Entry>, e: Entry)
    requires e.rest != 0
    ensures Has(vec + [e], 0) == Has(vec, 0)
  {
    if Has(vec, 0) {
      var i :| 0 <= i < |vec| && vec[i].rest == 0;
      assert (vec + [e])[i].rest == 0;
    }
  }

  lemma RenamedKeeps(users: seq<User>, me: nat, to: Option<string>)
    requires me < |users| && Names(users)
    ensures Names(Renamed(users, me, to))
  {
  }

  // ---------- What a line does with its stages ----------

  /** The wiring of the children, when the line has `exit` and when it runs to its end. */
  ghost predicate LineRan(plan: Plan, commands: seq<Command>, children: seq<Table>)
    requires Ready(plan) && commands != []
  {
    && FirstCannotWrite(plan, children) && |children| == Externals(Reached(Kinds(commands)))
    && (exists forks :: ChildrenSealed(plan, forks, children))
    && if Exit in commands then ChildrenWired(plan, children) else Wiring(plan, Kinds(commands), children)
  }

  lemma KindsAgree(commands: seq<Command>)
    ensures (Quit in Kinds(commands) <==> Exit in commands) && |Kinds(commands)| == |commands|
  {
    if Exit in commands {
      var i :| 0 <= i < |commands| && commands[i] == Exit;
      assert Kinds(commands)[i] == Quit;
    }
  }

  lemma StillOpen(plan: Plan, ran: nat, fds: Table, made: nat, vec: seq<Entry>, fd: nat)
    requires Ready(plan) && Outcome(plan, ran, fds, made, vec) && fd in plan.fds && fd > 2 && !IsPipe(plan.fds[fd])
    ensures fd in fds && fds[fd] == plan.fds[fd]
  {
    ConsumedPipes(plan);
  }

  lemma RestoredAbove(t: Table, t2: Table)
    requires Restored(t, t2)
    ensures forall fd: nat :: fd > 2 && fd in t ==> fd in t2 && t2[fd] == t[fd]
    ensures 0 in t2 && 1 in t2 && 2 in t2
  {
  }

  lemma OutcomeVec(plan: Plan, ran: nat, fds: Table, made: nat, vec: seq<Entry>)
    requires Outcome(plan, ran, fds, made, vec)
    ensures vec == (if ran == 0 then plan.vec else VecAfter(plan)) && plan.made <= made && NoLowPipes(fds)
  {
  }

  /** The line as the number pipes see it. */
  function SeenOf(l: Line, ok: bool, made: Ends): Delivery.Line {
    Delivery.Line(ok, Externals(Reached(Kinds(l.commands))) > 0,
                  l.commands != [] && l.commands[|l.commands| - 1].Forked? && Exit !in l.commands,
                  if l.end.Number? then Some(l.end.n) else None, made)
  }

  /** Two user tables that agree on who is in, under what name, on which socket. */
  predicate SameFaces(a: seq<User>, b: seq<User>) {
    |a| == |b| && forall i :: 0 <= i < |a| ==> a[i].valid == b[i].valid && a[i].sock == b[i].sock && a[i].name == b[i].name
  }

  function FacesAfter(users: seq<User>, me: nat, l: Line, ok: bool): seq<User>
    requires me < |users|
  {
    if !ok then users
    else
      var us := AllRenamed(users, me, l.commands);
      if Exit in l.commands then us[me := us[me].(valid := false)] else us
  }

  lemma {:induction false} RenamedFaces(a: seq<User>, b: seq<User>, me: nat, cs: seq<Command>)
    requires SameFaces(a, b) && me < |a|
    ensures SameFaces(AllRenamed(a, me, cs), AllRenamed(b, me, cs))
    decreases |cs|
  {
    if cs != [] {
      var n := |cs| - 1;
      RenamedFaces(a, b, me, cs[..n]);
      var x, y := AllRenamed(a, me, cs[..n]), AllRenamed(b, me, cs[..n]);
      if cs[n].Name? && cs[n].to.Some? {
        TakenSame(x, y, cs[n].to.value);
      }
    }
  }

  lemma {:induction false} RenamedStays(users: seq<User>, me: nat, cs: seq<Command>)
    requires me < |users|
    ensures
      var us := AllRenamed(users, me, cs);
      forall i :: 0 <= i < |users| ==> us[i].valid == users[i].valid && us[i].sock == users[i].sock && us[i].pipes == users[i].pipes
    decreases |cs|
  {
    if cs != [] {
      RenamedStays(users, me, cs[..|cs| - 1]);
    }
  }

  /** The `j`-th command is a `name` that is reached, and that nobody else stands in the
      way of. */
  ghost predicate Renames(users: seq<User>, me: nat, cs: seq<Command>, j: int) {
    && 0 <= j < |cs| && cs[j].Name? && Exit !in cs[..j]
    && (cs[j].to.Some? ==> forall i :: 0 <= i < |users| && i != me && users[i].valid ==> users[i].name != cs[j].to.value)
  }

  /** The name that a line leaves its user with: that of the last such command, if any. */
  ghost predicate NamedBy(users: seq<User>, me: nat, cs: seq<Command>, name: string)
    requires me < |users|
  {
    || (name == users[me].name && forall j :: !Renames(users, me, cs, j))
    || (exists j :: Renames(users, me, cs, j) && (forall k :: k > j ==> !Renames(users, me, cs, k))
                    && name == if cs[j].to.Some? then cs[j].to.value else "(no name)")
  }

  lemma RenamesMore(users: seq<User>, me: nat, cs: seq<Command>, c: Command, j: int)
    ensures 0 <= j < |cs| ==> (Renames(users, me, cs + [c], j) <==> Renames(users, me, cs, j))
    ensures !(0 <= j < |cs|) ==> !Renames(users, me, cs, j)
    ensures j > |cs| || j < 0 ==> !Renames(users, me, cs + [c], j)
  {
    if 0 <= j < |cs| {
      assert (cs + [c])[..j] == cs[..j];
    }
  }

  lemma NamedMore(users: seq<User>, me: nat, cs: seq<Command>, c: Command, name: string, name2: string)
    requires me < |users| && NamedBy(users, me, cs, name)
    requires name2 == if Renames(users, me, cs + [c], |cs|) then (if c.to.Some? then c.to.value else "(no name)") else name
    ensures NamedBy(users, me, cs + [c], name2)
  {
    var more := cs + [c];
    assert more[|cs|] == c;
    forall j: int ensures
      && (0 <= j < |cs| ==> (Renames(users, me, more, j) <==> Renames(users, me, cs, j)))
      && (!(0 <= j < |cs|) ==> !Renames(users, me, cs, j)) && (j > |cs| || j < 0 ==> !Renames(users, me, more, j))
    {
      RenamesMore(users, me, cs, c, j);
    }
    if !Renames(users, me, more, |cs|) && exists j :: Renames(users, me, cs, j) {
      assert forall j :: Renames(users, me, more, j) <==> Renames(users, me, cs, j);
      assert forall j :: Renames(users, me, cs, j) ==> cs[j] == more[j];
    }
  }

  /** Nobody else's name changes, and the user's own is that of the last `name` before the
      first `exit` that nobody else has. */
  lemma {:induction false} LastNameWins(users: seq<User>, me: nat, cs: seq<Command>)
    requires me < |users| && users[me].valid
    ensures
      var us := AllRenamed(users, me, cs);
      && (forall i :: 0 <= i < |users| && i != me ==> us[i] == users[i])
      && us[me] == users[me].(name := us[me].name) && NamedBy(users, me, cs, us[me].name)
    decreases |cs|
  {
    if cs == [] {
      assert forall j :: !Renames(users, me, cs, j);
    } else {
      var n := |cs| - 1;
      var c, before := cs[n], cs[..n];
      LastNameWins(users, me, before);
      assert cs == before + [c];
      ExitSplit(before, c);
      var b, us := AllRenamed(users, me, before), AllRenamed(users, me, cs);
      assert cs[..n] == before;
      if c.Name? && c.to.Some? {
        TakenByOthers(users, b, me, c.to.value);
      }
      NamedMore(users, me, before, c, b[me].name, us[me].name);
    }
  }

  lemma ExitSplit(before: seq<Command>, c: Command)
    ensures Exit in before + [c] <==> Exit in before || c == Exit
  {
  }

  lemma TakenByOthers(users: seq<User>, b: seq<User>, me: nat, name: string)
    requires me < |users| == |b| && b[me].valid && forall i :: 0 <= i < |users| && i != me ==> b[i] == users[i]
    ensures Taken(b, name) <==> b[me].name == name || !forall i :: 0 <= i < |users| && i != me && users[i].valid ==> users[i].name != name
  {
  }

  lemma FacesMean(users: seq<User>, now: seq<User>, me: nat, l: Line, ok: bool)
    requires me < |users| && users[me].valid && SameFaces(now, FacesAfter(users, me, l, ok))
    ensures |now| == |users| && now[me].sock == users[me].sock && (now[me].valid <==> !(ok && Exit in l.commands))
    ensures forall i :: 0 <= i < |users| && i != me ==>
      now[i].valid == users[i].valid && now[i].sock == users[i].sock && now[i].name == users[i].name
    ensures NamedBy(users, me, if ok then l.commands else [], now[me].name)
  {
    LastNameWins(users, me, if ok then l.commands else []);
    NothingRenamed(users, me);
    hide AllRenamed, NamedBy;
  }

  /** After a line, the sockets are where they were, and of a user who left there is none. */
  lemma FacesSockets(users: seq<User>, users2: seq<User>, me: nat, l: Line, ok: bool)
    requires me < |users| && users[me].valid && SameFaces(users2, FacesAfter(users, me, l, ok))
    ensures forall i :: 0 <= i < |users2| ==> users2[i].sock == users[i].sock && (users2[i].valid ==> users[i].valid)
    ensures ok && Exit in l.commands ==> !users2[me].valid
  {
    RenamedStays(users, me, l.commands);
  }

  /** The faces after the stages of a line have run, from a table with the same faces. */
  lemma FacesRun(users: seq<User>, parsed: seq<User>, now: seq<User>, me: nat, l: Line)
    requires me < |users| && SameFaces(parsed, users)
    requires
      var us := AllRenamed(parsed, me, l.commands);
      now == if Exit in l.commands then us[me := us[me].(valid := false)] else us
    ensures SameFaces(now, FacesAfter(users, me, l, true))
    ensures |now| == |parsed| && forall i :: 0 <= i < |parsed| ==> now[i].pipes == parsed[i].pipes
  {
    RenamedFaces(parsed, users, me, l.commands);
    RenamedStays(parsed, me, l.commands);
    hide AllRenamed;
  }

  lemma FacesIdle(users: seq<User>, parsed: seq<User>, me: nat, l: Line, ok: bool)
    requires me < |users| && SameFaces(parsed, users) && (!ok || l.commands == [])
    ensures SameFaces(parsed, FacesAfter(users, me, l, ok))
  {
    NothingRenamed(users, me);
  }

  lemma NothingRenamed(users: seq<User>, me: nat)
    requires me < |users|
    ensures AllRenamed(users, me, []) == users
  {
  }

  lemma TakenSame(a: seq<User>, b: seq<User>, name: string)
    requires SameFaces(a, b)
    ensures Taken(a, name) == Taken(b, name)
  {
    if Taken(a, name) {
      TakenFaces(a, b, name);
    }
    if Taken(b, name) {
      TakenFaces(b, a, name);
    }
  }

  lemma TakenFaces(a: seq<User>, b: seq<User>, name: string)
    requires SameFaces(a, b) && Taken(a, name)
    ensures Taken(b, name)
  {
    var i :| 0 <= i < |a| && a[i].valid && a[i].name == name;
    assert b[i].valid && b[i].name == name;
  }

  /** Where the parser points the output: the file, the parked pipe or the cell that the
      line names. */
  predicate OutIs(end: End, out: Out, vec: seq<Entry>, users: seq<User>, me: nat) {
    match end
    case NoEnd => out == ToTerminal
    case File(name) => out == ToFile(name)
    case Number(n, both) => Has(vec, n) && out == ToNumber(vec[Find(vec, n)].ends.w, both)
    case To(r) => 1 <= r <= |users| && me < |users[r - 1].pipes| && out == ToUser(users[r - 1].pipes[me].w)
  }

  /** The pipe that a final `>n` has just put in its cell is open at both ends. */
  ghost predicate SentOpen(end: End, users: seq<User>, me: nat, t: Table) {
    end.To? ==> 1 <= end.receiver <= |users| && me < |users[end.receiver - 1].pipes| && OpenAt(t, users[end.receiver - 1].pipes[me])
  }

  lemma SentStays(end: End, users: seq<User>, users2: seq<User>, me: nat, t: Table)
    requires SentOpen(end, users, me, t) && |users2| == |users| && forall i :: 0 <= i < |users| ==> users2[i].pipes == users[i].pipes
    ensures SentOpen(end, users2, me, t)
  {
    hide OpenAt;
  }

  lemma SentIsOpen(v: View, claims: Claims, me: nat, end: End)
    requires Good(v, claims) && me < USERS && (end.To? ==> IsId(end.receiver) && (me + 1, end.receiver) in v.marks)
    ensures SentOpen(end, v.users, me, v.fds)
  {
    GoodMarks(v, claims);
    hide Good, OpenAt;
  }

  lemma OutStays(end: End, out: Out, vec: seq<Entry>, users: seq<User>, users2: seq<User>, me: nat)
    requires OutIs(end, out, vec, users, me) && |users2| == |users|
    requires forall i :: 0 <= i < |users| ==> users2[i].pipes == users[i].pipes
    ensures OutIs(end, out, vec, users2, me)
  {
  }

  /** `b` is `a` with another pipe in the cell of this pair. */
  predicate PutsCell(a: seq<User>, b: seq<User>, s: nat, r: nat) {
    && |a| == USERS == |b| && IsId(s) && IsId(r) && |a[r - 1].pipes| == USERS == |b[r - 1].pipes|
    && b == PutCell(a, s, r, b[r - 1].pipes[s - 1])
  }

  lemma PutCellFaces(users: seq<User>, s: nat, r: nat, e: Ends)
    requires |users| == USERS && IsId(s) && IsId(r) && |users[r - 1].pipes| == USERS
    ensures SameFaces(PutCell(users, s, r, e), users)
  {
  }

  /** The user pipe that the line reads is the cell of its last `<n`. */
  predicate ClaimIs(users: seq<User>, me: nat, froms: seq<nat>, claimed: Option<Ends>) {
    if froms == [] then claimed == None
    else
      var last := froms[|froms| - 1];
      me < |users| && 1 <= last <= |users[me].pipes| && claimed == Some(users[me].pipes[last - 1])
  }

  /** A final `>n` leaves the cell of the line's last `<n` alone, and everybody's face. */
  lemma CellStays(w: View, users2: seq<User>, me: nat, l: Line)
    requires Shape(w) && me < USERS && Proper(me, l)
    requires l.froms != [] ==> IsId(l.froms[|l.froms| - 1])
    requires if l.end.To? then PutsCell(w.users, users2, me + 1, l.end.receiver) else users2 == w.users
    ensures SameFaces(users2, w.users) && |users2[me].pipes| == USERS
    ensures l.froms != [] ==>
      var last := l.froms[|l.froms| - 1];
      users2[me].pipes[last - 1] == w.users[me].pipes[last - 1]
      && ClaimIs(w.users, me, l.froms, Some(w.users[me].pipes[last - 1]))
    ensures l.froms == [] ==> ClaimIs(w.users, me, l.froms, None)
  {
    if l.end.To? {
      PutCellFaces(w.users, me + 1, l.end.receiver, users2[l.end.receiver - 1].pipes[me]);
      PutCellOthers(w, me + 1, l.end.receiver, users2[l.end.receiver - 1].pipes[me]);
    }
  }

  /** The parsed line's vector, before and after its stages. */
  lemma StepIs(v: seq<Entry>, l: Line, ok: bool, made: Ends, ran: nat)
    requires l.end.Number? ==> l.end.n >= 1
    requires ran == if ok && l.commands != [] then Externals(Reached(Kinds(l.commands))) else 0
    ensures
      var during := Delivery.During(v, SeenOf(l, ok, made));
      && during == (if ok && l.end.Number? then Delivery.Parked(Ticked(v), l.end.n, made) else Ticked(v))
      && Delivery.Step(v, SeenOf(l, ok, made)) == if ran == 0 || !Has(during, 0) then during else Alive(during)
  {
    if l.commands == [] {
      assert Kinds(l.commands) == [];
    }
    if l.end.Number? {
      StillDue(Ticked(v), Entry(l.end.n, made));
    }
  }

  lemma SeenParts(l: Line, ok: bool, seen: Delivery.Line)
    requires seen == SeenOf(l, ok, seen.made) && (l.end.Number? ==> l.end.n >= 1)
    ensures seen.ok == ok && seen.park == (if l.end.Number? then Some(l.end.n) else None)
    ensures seen.lastExternal ==> seen.external
  {
    if seen.lastExternal {
      KindsAgree(l.commands);
      var kinds := Kinds(l.commands);
      var n := |kinds| - 1;
      ReachedIs(kinds, n + 1);
      assert kinds == kinds[..n] + [kinds[n]] && kinds[..n + 1] == kinds;
      ExternalsMore(kinds[..n], kinds[n]);
    }
  }

  lemma NoHistory()
    ensures Delivery.Session([]) && (forall made :: Delivery.MadeBelow([], made)) && Delivery.Run([]) == []
  {
  }

  lemma MadeBelowMore(lines: seq<Delivery.Line>, made: nat, more: nat)
    requires Delivery.MadeBelow(lines, made) && made <= more
    ensures Delivery.MadeBelow(lines, more)
  {
  }

  lemma VecAfterIs(plan: Plan)
    ensures VecAfter(plan) == if Has(plan.vec, 0) then Alive(plan.vec) else plan.vec
  {
  }

  lemma RanCount(plan: Plan, commands: seq<Command>, children: seq<Table>)
    requires Ready(plan) && commands != [] && LineRan(plan, commands, children)
    ensures |children| == Externals(Reached(Kinds(commands)))
  {
  }

  lemma PlainLine(users: seq<User>, marks: set<(nat, nat)>, me: nat, l: Line)
    requires l.froms == [] && !l.end.To? && me < |users| && |l.commands| == 1 && !l.commands[0].Name?
    ensures Parsing(users, marks, me, l) == Marking(true, marks)
    ensures FacesAfter(users, me, l, true) == if Exit in l.commands then users[me := users[me].(valid := false)] else users
  {
    NothingRenamed(users, me);
    assert l.commands[..0] == [];
  }

  /** `cmd |2` and then `exit`: the parked pipe is due on the next line. */
  lemma InheritedVec(made: Ends, other: Ends, third: Ends)
    ensures
      var v := Delivery.Step([], SeenOf(Line([], [Forked], Number(2, false)), true, made));
      var w := Delivery.Step(v, SeenOf(Line([], [Exit], NoEnd), true, other));
      Delivery.During(w, SeenOf(Line([], [Forked], NoEnd), true, third)) == [Entry(0, made)]
  {
    var v := Delivery.Step([], SeenOf(Line([], [Forked], Number(2, false)), true, made));
    assert Ticked([]) == [];
    assert v == [Entry(2, made)];
    var w := Delivery.Step(v, SeenOf(Line([], [Exit], NoEnd), true, other));
    assert w == [Entry(1, made)];
  }

  lemma InheritedChild(plan: Plan, made: Ends, children: seq<Table>)
    requires Ready(plan) && plan.vec == [Entry(0, made)] && LineRan(plan, [Forked], children)
    ensures |children| == 1 && 0 in children[0] && children[0][0] == ReadEnd(made.id)
  {
    assert Kinds([Forked]) == [External];
    assert Reached([External]) == [External] && Externals([External]) == 1;
    assert plan.vec[0].rest == 0;
  }

  // ---------- The server ----------

  datatype Event = Arrive(conn: nat) | Input(fd: nat, line: Line)

  /** What a run shows: who is in, the marks, and how many lines each slot has seen. */
  datatype Scene = Scene(users: seq<User>, marks: set<(nat, nat)>, entered: seq<nat>)

  /** A login: the lowest vacant slot, a socket that nobody else has, and no name. */
  ghost predicate Seated(a: Scene, b: Scene) {
    |b.users| == |a.users| && b.marks == a.marks && b.entered == a.entered && exists slot: nat ::
      && slot < |a.users| && !a.users[slot].valid && (forall i :: 0 <= i < slot ==> a.users[i].valid)
      && b.users == a.users[slot := a.users[slot].(valid := true, sock := b.users[slot].sock, name := NO_NAME)]
      && forall i :: 0 <= i < |a.users| && a.users[i].valid ==> a.users[i].sock != b.users[slot].sock
  }

  /** A line from the user whose socket it came in on. */
  ghost predicate Entered(a: Scene, fd: nat, l: Line, b: Scene) {
    exists me: nat ::
      && me < |a.users| && a.users[me].valid && a.users[me].sock == fd && Proper(me, l)
      && var m := Parsing(a.users, a.marks, me, l);
         && b.marks == (if m.ok && Exit in l.commands then Without(m.marks, me + 1) else m.marks)
         && SameFaces(b.users, FacesAfter(a.users, me, l, m.ok))
         && me < |a.entered| && b.entered == a.entered[me := a.entered[me] + 1]
  }

  ghost predicate Handled(a: Scene, e: Event, b: Scene) {
    match e
    case Arrive(_) => Seated(a, b)
    case Input(fd, l) => Entered(a, fd, l, b)
  }

  /** A login at a full table, input on a descriptor that is no user's, or a line that is
      not proper. */
  ghost predicate OutOfScope(a: Scene, e: Event) {
    match e
    case Arrive(_) => forall i :: 0 <= i < |a.users| ==> a.users[i].valid
    case Input(fd, l) => forall me: nat :: me < |a.users| && a.users[me].valid && a.users[me].sock == fd ==> !Proper(me, l)
  }

  ghost predicate Played(trace: seq<Scene>, events: seq<Event>) {
    |trace| == |events| + 1 && forall i :: 0 <= i < |events| ==> Handled(trace[i], events[i], trace[i + 1])
  }

  lemma StartsPlayed(a: Scene)
    ensures Played([a], [])
  {
  }

  lemma PlayedMore(trace: seq<Scene>, events: seq<Event>, e: Event, b: Scene)
    requires Played(trace, events) && Handled(trace[|events|], e, b)
    ensures Played(trace + [b], events + [e])
  {
    hide Handled;
    var more, all := trace + [b], events + [e];
    forall i | 0 <= i < |all| ensures Handled(more[i], all[i], more[i + 1]) {
      if i < |events| {
        assert more[i] == trace[i] && more[i + 1] == trace[i + 1] && all[i] == events[i];
      }
    }
  }

  class Server {
    const p: Process
    const user: array<User>
    const record: array2<bool>
    const pipes: seq<NumberPipes>
    const savedIn: nat
    const savedOut: nat
    const savedErr: nat
    ghost var claims: Claims
    /** The lines that each slot's users have entered, as the number pipes see them. */
    ghost var history: seq<seq<Delivery.Line>>
    /** How many of them were there when the slot's last user logged in. */
    ghost var since: seq<nat>

    ghost predicate Apart() {
      && user.Length == USERS && record.Length0 == USERS + 1 && record.Length1 == USERS + 1 && |pipes| == USERS
      && (forall i, j :: 0 <= i < j < USERS ==> pipes[i] != pipes[j])
      && savedIn > 2 && savedOut > 2 && savedErr > 2
    }

    ghost function MarkSet(): set<(nat, nat)>
      reads record
    {
      set s: nat, r: nat | s < record.Length0 && r < record.Length1 && record[s, r] :: (s, r)
    }

    ghost function Vectors(): seq<seq<Entry>>
      reads pipes
    {
      seq(|pipes|, i requires 0 <= i < |pipes| reads pipes => pipes[i].vec)
    }

    ghost function State(): View
      reads p, user, record, pipes
    {
      View(p.fds, p.made, user[..], Vectors(), MarkSet())
    }

    ghost predicate Saved()
      reads p
    {
      && savedIn in p.fds && p.fds[savedIn] == Console
      && savedOut in p.fds && p.fds[savedOut] == Console
      && savedErr in p.fds && p.fds[savedErr] == Console
    }

    ghost predicate Valid()
      reads this, p, user, record, pipes
    {
      Apart() && Saved() && p.Accounted() && Good(State(), claims)
    }

    /** Each slot's vector is what the scheduler's rules make of its history. */
    ghost predicate Recorded()
      reads `history, `since, p, pipes
    {
      && |history| == USERS == |pipes| && |since| == USERS && (forall u :: 0 <= u < USERS ==> since[u] <= |history[u]|)
      && forall u :: 0 <= u < USERS ==>
           Delivery.Session(history[u]) && Delivery.MadeBelow(history[u], p.made) && pipes[u].vec == Delivery.Run(history[u])
    }

    static method EmptyVectors() returns (objects: seq<NumberPipes>)
      ensures |objects| == USERS && (forall i :: 0 <= i < USERS ==> fresh(objects[i]) && objects[i].vec == [])
      ensures forall i, j :: 0 <= i < j < USERS ==> objects[i] != objects[j]
    {
      objects := [];
      for k := 0 to USERS
        invariant |objects| == k
        invariant forall i :: 0 <= i < k ==> fresh(objects[i]) && objects[i].vec == []
        invariant forall i, j :: 0 <= i < j < k ==> objects[i] != objects[j]
      {
        var np := new NumberPipes();
        objects := objects + [np];
      }
    }

    lemma MarkAt(s: nat, r: nat)
      requires Apart() && s <= USERS && r <= USERS
      ensures (s, r) in MarkSet() <==> record[s, r]
    {
    }

    method SetMark(s: nat, r: nat, on: bool)
      requires Apart() && s <= USERS && r <= USERS
      modifies record
      ensures MarkSet() == if on then old(MarkSet()) + {(s, r)} else old(MarkSet()) - {(s, r)}
    {
      record[s, r] := on;
    }

    lemma OneVector(vecs: seq<seq<Entry>>, me: nat)
      requires Apart() && me < USERS && |vecs| == USERS && forall i :: 0 <= i < USERS && i != me ==> pipes[i].vec == vecs[i]
      ensures Vectors() == vecs[me := pipes[me].vec]
    {
    }

    lemma VectorAt(me: nat)
      requires Apart()
      ensures |Vectors()| == USERS && forall i :: 0 <= i < USERS ==> Vectors()[i] == pipes[i].vec
    {
    }

    lemma StartsValid(vacant: User)
      requires user.Length == USERS && record.Length0 == USERS + 1 && record.Length1 == USERS + 1 && |pipes| == USERS
      requires (forall i, j :: 0 <= i < j < USERS ==> pipes[i] != pipes[j]) && !vacant.valid && |vacant.pipes| == USERS
      requires p.fds == map[0 := Console, 1 := Console, 2 := Console, 3 := Socket(0), 4 := Console, 5 := Console, 6 := Console]
      requires forall i :: 0 <= i < USERS ==> user[i] == vacant && pipes[i].vec == []
      requires forall s, r :: 0 <= s <= USERS && 0 <= r <= USERS ==> !record[s, r]
      requires p.made == 0 && p.closed == multiset{} && claims == map[] && savedIn == 4 && savedOut == 5 && savedErr == 6
      ensures Valid() && MarkSet() == {}
    {
      hide Good;
      NobodyYet(State());
    }

    lemma StartsRecorded()
      requires |history| == USERS == |pipes| && forall u :: 0 <= u < USERS ==> history[u] == [] && pipes[u].vec == []
      requires |since| == USERS && forall u :: 0 <= u < USERS ==> since[u] == 0
      ensures Recorded()
    {
      hide Delivery.Session, Delivery.MadeBelow, Delivery.Run;
      NoHistory();
    }

    static method NewUsers(vacant: User) returns (users: array<User>)
      ensures fresh(users) && users.Length == USERS && forall i :: 0 <= i < USERS ==> users[i] == vacant
    {
      users := new User[USERS](_ => vacant);
    }

    static method NewMarks() returns (marks: array2<bool>)
      ensures fresh(marks) && marks.Length0 == USERS + 1 && marks.Length1 == USERS + 1
      ensures forall s, r :: 0 <= s <= USERS && 0 <= r <= USERS ==> !marks[s, r]
    {
      marks := new bool[USERS + 1, USERS + 1]((_, _) => false);
    }

    constructor ()
      ensures Valid() && fresh(p) && fresh(user) && fresh(record) && forall i :: 0 <= i < |pipes| ==> fresh(pipes[i])
      ensures (forall i :: 0 <= i < USERS ==> !user[i].valid && pipes[i].vec == []) && MarkSet() == {}
      ensures Recorded() && forall u :: 0 <= u < USERS ==> history[u] == []
      ensures user.Length == 30 == |pipes|
    {
      var objects := EmptyVectors();
      var fds := map[0 := Console, 1 := Console, 2 := Console, 3 := Socket(0), 4 := Console, 5 := Console, 6 := Console];
      p := new Process(fds, 0);
      var vacant := User(false, 0, "", seq(USERS, _ => Ends(0, 0, 0)));
      var users := NewUsers(vacant);
      var marks := NewMarks();
      user, record := users, marks;
      pipes := objects;
      savedIn, savedOut, savedErr := 4, 5, 6;
      claims, history, since := map[], seq(USERS, _ => []), seq(USERS, _ => 0);
      new;
      hide *;
      StartsValid(vacant);
      StartsRecorded();
    }

    /** accept() and the search for a slot; `found` is false when all are taken. The
        slot's number pipes stay, so the newcomer can read a pipe of an earlier user
        exactly when one of their countdowns has not run out. */
    method Login(conn: nat) returns (slot: nat, found: bool)
      requires Valid() && Recorded()
      modifies this`claims, this`since, p, user
      ensures Valid() && Recorded() && (found <==> exists i :: 0 <= i < USERS && !old(user[i].valid))
      ensures !found ==> user[..] == old(user[..]) && p.fds == old(p.fds)
      ensures found ==>
        && slot < USERS && !old(user[slot].valid) && (forall i :: 0 <= i < slot ==> old(user[i].valid))
        && user[..] == old(user[..])[slot := old(user[slot]).(valid := true, sock := LowestFree(old(p.fds)), name := "(no name)")]
        && p.fds == old(p.fds)[user[slot].sock := Socket(conn)]
      ensures found ==> forall s, r :: (s, r) in MarkSet() ==> s != slot + 1 && r != slot + 1
      ensures p.made == old(p.made) && claims == old(claims)
      ensures since == if found then old(since)[slot := |history[slot]|] else old(since)
      ensures found ==> (Delivery.CanReadOld(history[slot]) <==> Delivery.IsCounting(pipes[slot].vec))
    {
      hide Balanced, Delivery.Session, Delivery.MadeBelow, Delivery.Run, Delivery.CanReadOld, Delivery.IsCounting;
      slot, found := 0, false;
      while slot < USERS
        invariant slot <= USERS && user[..] == old(user[..]) && p.fds == old(p.fds) && p.made == old(p.made)
        invariant forall i :: 0 <= i < slot ==> user[i].valid
      {
        if !user[slot].valid {
          found := true;
          break;
        }
        slot := slot + 1;
      }
      if !found {
        return;
      }
      ghost var v := State();
      VacantUnmarked(v, claims, slot);
      var sock := p.Open(Socket(conn));
      user[slot] := user[slot].(valid := true, sock := sock, name := NO_NAME);
      SeatKeeps(v, claims, slot, sock, conn);
      since := since[slot := |history[slot]|];
      Delivery.NewcomerCanRead(history[slot]);
    }

    /** find_fd_user. */
    method FindFdUser(fd: nat) returns (who: int)
      requires Valid()
      ensures who == -1 ==> forall i :: 0 <= i < USERS ==> !(user[i].valid && user[i].sock == fd)
      ensures who != -1 ==> 0 <= who < USERS && user[who].valid && user[who].sock == fd
      ensures forall i :: 0 <= i < USERS && user[i].valid && user[i].sock == fd ==> i == who
    {
      var i := 0;
      while i < USERS
        invariant 0 <= i <= USERS && forall j :: 0 <= j < i ==> !(user[j].valid && user[j].sock == fd)
      {
        if user[i].valid && user[i].sock == fd {
          return i;
        }
        i := i + 1;
      }
      who := -1;
    }

    /** check_id_exist. */
    method CheckId(id: nat) returns (ok: bool)
      requires Valid()
      ensures ok <==> Exists(user[..], id)
    {
      ok := false;
      var i := 0;
      while i < USERS
        invariant 0 <= i <= USERS && (ok <==> 1 <= id <= i && user[id - 1].valid)
      {
        if user[i].valid && i == id - 1 {
          ok := true;
        }
        i := i + 1;
      }
    }

    /** check_name_exist. */
    method CheckName(name: string) returns (taken: bool)
      requires Valid()
      ensures taken <==> Taken(user[..], name)
    {
      var i := 0;
      while i < USERS
        invariant 0 <= i <= USERS && forall j :: 0 <= j < i ==> !(user[j].valid && user[j].name == name)
      {
        if user[i].valid && user[i].name == name {
          assert user[..][i] == user[i];
          return true;
        }
        i := i + 1;
      }
      return false;
    }

    method Rename(me: nat, to: Option<string>)
      requires Valid() && me < USERS
      modifies user
      ensures Valid() && user[..] == Renamed(old(user[..]), me, to)
      ensures user[..] == old(user[..])[me := old(user[me]).(name := user[me].name)]
      ensures user[me].name ==
        if to.None? then "(no name)"
        else if exists i :: 0 <= i < USERS && old(user[i]).valid && old(user[i]).name == to.value then old(user[me]).name
        else to.value
    {
      ghost var v := State();
      RenamedKeeps(user[..], me, to);
      match to {
        case None => user[me] := user[me].(name := NO_NAME);
        case Some(name) =>
          var taken := CheckName(name);
          if !taken {
            user[me] := user[me].(name := name);
          }
      }
      NameKeeps(v, claims, user[..]);
    }

    /** One `<n`. */
    method ReceiveOne(me: nat, from: nat) returns (ok: bool, ghost held: Option<Ends>)
      requires Valid() && me < USERS
      modifies this`claims, record
      ensures Valid() && Shape(State()) && HeldAt(p.fds, claims, held)
      ensures ok == (Exists(user[..], from) && (from, me + 1) in old(MarkSet()))
      ensures ok ==> MarkSet() == old(MarkSet()) - {(from, me + 1)} && held == Some(user[me].pipes[from - 1])
      ensures !ok ==> MarkSet() == old(MarkSet())
    {
      hide Balanced, Good, HeldAt, Taken, Names, MarkSet, Vectors;
      ghost var v := State();
      ok := CheckId(from);
      held := None;
      GoodShape(v, claims);
      NothingHeld(p.fds, claims);
      if ok {
        MarkAt(from, me + 1);
        ok := record[from, me + 1];
        if ok {
          ReceiveKeeps(v, claims, from, me + 1);
          held := Some(user[me].pipes[from - 1]);
          claims := claims[held.value.id := Held];
          SetMark(from, me + 1, false);
          assert State() == v.(marks := v.marks - {(from, me + 1)});
        }
      }
    }

    /** The `<n` of a line, in order. */
    method Receive(me: nat, froms: seq<nat>) returns (ok: bool, ghost held: Option<Ends>)
      requires Valid() && me < USERS
      modifies this`claims, record
      ensures Valid() && Shape(State()) && HeldAt(p.fds, claims, held)
      ensures Marking(ok, MarkSet()) == Receiving(user[..], old(MarkSet()), me, froms)
      ensures exists n :: ReceivesUpTo(user[..], old(MarkSet()), me, froms, n, MarkSet()) && (ok <==> n == |froms|)
      ensures ok && froms != [] ==>
        var last := froms[|froms| - 1];
        Exists(user[..], last) && held == Some(user[me].pipes[last - 1])
      ensures froms == [] ==> held == None
    {
      hide Balanced, Good, HeldAt, MarkSet, ReceivesUpTo;
      ghost var n := ReceivingMeans(user[..], MarkSet(), me, froms);
      ok, held := true, None;
      GoodShape(State(), claims);
      NothingHeld(p.fds, claims);
      var i := 0;
      while i < |froms|
        invariant 0 <= i <= |froms| && Valid() && Shape(State()) && HeldAt(p.fds, claims, held)
        invariant Receiving(user[..], old(MarkSet()), me, froms) == Receiving(user[..], MarkSet(), me, froms[i..])
        invariant i > 0 ==> Exists(user[..], froms[i - 1]) && held == Some(user[me].pipes[froms[i - 1] - 1])
        invariant i == 0 ==> held == None
      {
        assert froms[i..][0] == froms[i] && froms[i..][1..] == froms[i + 1..];
        ok, held := ReceiveOne(me, froms[i]);
        if !ok {
          return;
        }
        i := i + 1;
      }
    }

    /** Everything a pipe() leaves as it was. */
    twostate predicate Kept()
      reads p
    {
      forall fd :: fd in old(p.fds) ==> fd in p.fds && p.fds[fd] == old(p.fds)[fd]
    }

    /** A final `|N` or `!N`. */
    method ParkEnd(me: nat, n: nat, ghost held: Option<Ends>) returns (fd: nat, ghost made: Ends)
      requires Valid() && me < USERS && HeldAt(p.fds, claims, held) && n >= 1
      modifies this`claims, p, pipes[me]
      ensures Valid() && HeldAt(p.fds, claims, held) && Kept()
      ensures made.id == old(p.made) && pipes[me].vec == Delivery.Parked(old(pipes[me].vec), n, made)
      ensures Has(pipes[me].vec, n) && fd == pipes[me].vec[Find(pipes[me].vec, n)].ends.w
      ensures Has(pipes[me].vec, 0) == old(Has(pipes[me].vec, 0))
      ensures old(p.made) <= p.made && (!old(Has(pipes[me].vec, n)) ==> made.id < p.made)
    {
      hide Balanced, Good, HeldAt, Has, Find, MarkSet, Vectors;
      ghost var v := State();
      GoodShape(v, claims);
      VectorAt(me);
      fd := pipes[me].Park(p, n);
      made := Ends(0, 0, v.made);
      OneVector(v.vecs, me);
      if Has(v.vecs[me], n) {
        assert v.vecs[me := v.vecs[me]] == v.vecs;
      } else {
        made := pipes[me].vec[|v.vecs[me]|].ends;
        ParkNewPipe(v, claims, me, n, made, held);
        claims := claims[made.id := Parked(me)];
        StillDue(v.vecs[me], Entry(n, made));
      }
    }

    /** A final `>n`. */
    method SendEnd(me: nat, receiver: nat, ghost held: Option<Ends>) returns (ok: bool, fd: nat)
      requires Valid() && me < USERS && user[me].valid && HeldAt(p.fds, claims, held)
      modifies this`claims, p, user, record
      ensures Valid() && HeldAt(p.fds, claims, held) && Kept()
      ensures ok <==> Exists(old(user[..]), receiver) && (me + 1, receiver) !in old(MarkSet())
      ensures MarkSet() == if ok then old(MarkSet()) + {(me + 1, receiver)} else old(MarkSet())
      ensures !ok ==> user[..] == old(user[..])
      ensures Shape(old(State())) && Shape(State())
      ensures ok ==> PutsCell(old(user[..]), user[..], me + 1, receiver) && fd == user[..][receiver - 1].pipes[me].w
      ensures old(p.made) <= p.made
    {
      hide Balanced, Good, HeldAt, Taken, Names, MarkSet, Vectors;
      ghost var v := State();
      GoodShape(v, claims);
      fd := 0;
      ok := CheckId(receiver);
      if ok {
        MarkAt(me + 1, receiver);
        ok := !record[me + 1, receiver];
        if ok {
          var r, w := p.Pipe();
          user[receiver - 1] := user[receiver - 1].(pipes := user[receiver - 1].pipes[me := Ends(r, w, p.made - 1)]);
          SetMark(me + 1, receiver, true);
          fd := w;
          SendNewPipe(v, claims, me + 1, receiver, Ends(r, w, v.made), held);
          claims := claims[v.made := Sent(me + 1, receiver)];
        }
      }
    }

    /** `> file` first makes the file: open() with O_CREAT, then close(). */
    method Touch(name: string)
      requires Valid()
      modifies p
      ensures Valid() && State() == old(State())
    {
      hide Balanced, Good, MarkSet, Vectors;
      ghost var v := State();
      var f := p.Open(Disk(name));
      p.Close(f);
      assert p.fds == v.fds;
    }

    /** The end of a line: where its output goes. */
    method Finish(me: nat, end: End, ghost held: Option<Ends>) returns (ok: bool, out: Out, ghost made: Ends)
      requires Valid() && me < USERS && user[me].valid && HeldAt(p.fds, claims, held) && (end.Number? ==> end.n >= 1)
      modifies this`claims, p, user, record, pipes[me]
      ensures Valid() && HeldAt(p.fds, claims, held) && Kept() && Shape(State()) && Shape(old(State()))
      ensures Marking(ok, MarkSet()) == Sending(old(user[..]), old(MarkSet()), me, end)
      ensures ok <==> (end.To? ==> Exists(old(user[..]), end.receiver) && (me + 1, end.receiver) !in old(MarkSet()))
      ensures MarkSet() == if ok && end.To? then old(MarkSet()) + {(me + 1, end.receiver)} else old(MarkSet())
      ensures ok ==> SentOpen(end, user[..], me, p.fds)
      ensures ok && end.To? ==> PutsCell(old(user[..]), user[..], me + 1, end.receiver)
      ensures (!ok || !end.To? ==> user[..] == old(user[..])) && (!ok ==> end.To?)
      ensures made.id == old(p.made)
      ensures pipes[me].vec == if end.Number? then Delivery.Parked(old(pipes[me].vec), end.n, made) else old(pipes[me].vec)
      ensures Has(pipes[me].vec, 0) == old(Has(pipes[me].vec, 0))
      ensures ok ==> OutFits(State(), me, out)
      ensures ok ==> OutIs(end, out, pipes[me].vec, user[..], me)
      ensures old(p.made) <= p.made && (end.Number? && !old(Has(pipes[me].vec, end.n)) ==> made.id < p.made)
    {
      hide Balanced, Good, HeldAt, Has, Find;
      GoodShape(State(), claims);
      ok, out, made := true, ToTerminal, Ends(0, 0, p.made);
      match end {
        case NoEnd =>
        case File(name) =>
          Touch(name);
          out := ToFile(name);
        case Number(n, both) =>
          var fd;
          fd, made := ParkEnd(me, n, held);
          out := ToNumber(fd, both);
          NumberFits(State(), me, n, out);
        case To(r) =>
          var fd;
          ok, fd := SendEnd(me, r, held);
          out := ToUser(fd);
          if ok {
            SentIsOpen(State(), claims, me, end);
            assert (me + 1, r) in MarkSet();
            assert Cell(State().users, me + 1, r).w == out.fd;
          }
      }
    }

    /** The clearing loops of `exit`. */
    method ClearMarks(me: nat)
      requires Apart() && me < USERS
      modifies record
      ensures forall s, r :: 0 <= s <= USERS && 0 <= r <= USERS ==>
        record[s, r] == (old(record[s, r]) && !(s > 0 && r > 0 && (s == me + 1 || r == me + 1)))
    {
      for i := 1 to USERS + 1
        invariant forall s, r :: 0 <= s <= USERS && 0 <= r <= USERS ==>
          record[s, r] == (old(record[s, r]) && !(0 < s < i && r > 0 && (s == me + 1 || r == me + 1)))
      {
        for j := 1 to USERS + 1
          invariant forall s, r :: 0 <= s <= USERS && 0 <= r <= USERS ==>
            record[s, r] == (old(record[s, r]) && !(0 < r && (0 < s < i || (s == i && r < j)) && (s == me + 1 || r == me + 1)))
        {
          if i == me + 1 || j == me + 1 {
            record[i, j] := false;
          }
        }
      }
    }

    method Leave(me: nat)
      requires Valid() && me < USERS && user[me].valid
      modifies user, record
      ensures Valid() && MarkSet() == Without(old(MarkSet()), me + 1)
      ensures forall s, r :: (s, r) in MarkSet() <==> (s, r) in old(MarkSet()) && s != me + 1 && r != me + 1
      ensures user[..] == old(user[..])[me := old(user[me]).(valid := false)]
    {
      hide Balanced, Good;
      ghost var v := State();
      GoodShape(v, claims);
      ClearMarks(me);
      assert MarkSet() == Without(v.marks, me + 1) by {
        assert forall s, r :: (s, r) in v.marks ==> s > 0 && r > 0;
      }
      user[me] := user[me].(valid := false);
      ForgetKeeps(v, claims, MarkSet());
      LeaveKeeps(v.(marks := MarkSet()), claims, me);
      assert State() == v.(marks := MarkSet(), users := user[..]);
    }

    /** The `name` commands of the stages that are reached. */
    method RenameAll(me: nat, cs: seq<Command>)
      requires Valid() && me < USERS
      modifies user
      ensures Valid() && user[..] == AllRenamed(old(user[..]), me, cs)
    {
      hide Balanced, Good, Taken, Renamed;
      var i := 0;
      while i < |cs| && !cs[i].Exit?
        invariant i <= |cs| && Exit !in cs[..i]
        invariant Valid() && user[..] == AllRenamed(old(user[..]), me, cs[..i])
      {
        assert cs[..i + 1][..i] == cs[..i] && cs[..i + 1][i] == cs[i];
        if cs[i].Name? {
          Rename(me, cs[i].to);
        }
        i := i + 1;
      }
      RenamedUntil(user[..], old(user[..]), me, cs, i);
    }

    /** dup2 of one descriptor over each of the standard ones. */
    method Redirect(a: nat, b: nat, c: nat)
      requires a > 2 && b > 2 && c > 2 && a in p.fds && b in p.fds && c in p.fds
      requires !IsPipe(p.fds[a]) && !IsPipe(p.fds[b]) && !IsPipe(p.fds[c])
      modifies p
      ensures Restored(old(p.fds), p.fds) && p.made == old(p.made)
      ensures p.fds[0] == old(p.fds)[a] && p.fds[1] == old(p.fds)[b] && p.fds[2] == old(p.fds)[c]
      ensures old(p.Accounted()) && NoLowPipes(old(p.fds)) ==> p.Accounted()
    {
      hide Balanced;
      p.Dup2(a, 0);
      p.Dup2(b, 1);
      p.Dup2(c, 2);
    }

    /** The stages of a line that was parsed without an error, and the console back on
        the standard descriptors. */
    method Execute(me: nat, commands: seq<Command>, due: bool, claimed: Option<Ends>, out: Out) returns (children: seq<Table>)
      requires Valid() && me < USERS && commands != [] && due == Has(pipes[me].vec, 0)
      requires HeldAt(p.fds, claims, claimed) && Shape(State()) && OutFits(State(), me, out)
      modifies p, pipes[me]
      ensures Valid() && Ready(old(PlanOf(State(), me, claimed, out)))
      ensures LineRan(old(PlanOf(State(), me, claimed, out)), commands, children)
      ensures pipes[me].vec == if children == [] then old(pipes[me].vec) else VecAfter(old(PlanOf(State(), me, claimed, out)))
      ensures old(p.made) <= p.made
    {
      hide Balanced, Good, HeldAt, Has, OutFits, Ready, Outcome, FirstCannotWrite, ChildrenWired, ChildrenSealed, Wiring, VecAfter, Restored,
        Kinds, Reached, Between, NoLowPipes;
      ghost var v, plan := State(), PlanOf(State(), me, claimed, out);
      LineIsReady(v, claims, me, claimed, out);
      KindsAgree(commands);
      var quit;
      ghost var kept, forks;
      children, quit, kept, forks := RunStages(p, pipes[me], Kinds(commands), due, claimed, out);
      ghost var fds, vec := p.fds, pipes[me].vec;
      StillOpen(plan, |children|, fds, p.made, vec, savedIn);
      StillOpen(plan, |children|, fds, p.made, vec, savedOut);
      StillOpen(plan, |children|, fds, p.made, vec, savedErr);
      Redirect(savedIn, savedOut, savedErr);
      RestoredAbove(fds, p.fds);
      OutcomeVec(plan, |children|, fds, p.made, vec);
      RunKeeps(v, claims, me, plan, |children|, fds, p.made, vec, p.fds);
      OneVector(v.vecs, me);
      assert State() == v.(fds := p.fds, made := p.made, vecs := v.vecs[me := vec]);
    }

    method CountDown(me: nat) returns (due: bool)
      requires Valid() && me < USERS
      modifies pipes[me]
      ensures Valid() && Shape(State()) && Shape(old(State()))
      ensures pipes[me].vec == Ticked(old(pipes[me].vec)) && due == Has(pipes[me].vec, 0)
    {
      hide Balanced, Good, Has, Ticked, MarkSet, Vectors;
      ghost var v := State();
      GoodShape(v, claims);
      VectorAt(me);
      due := pipes[me].Tick();
      CountDownKeeps(v, claims, me);
      OneVector(v.vecs, me);
    }

    /** The counting down and the parsing of a line. */
    method Parse(me: nat, l: Line) returns (ok: bool, due: bool, claimed: Option<Ends>, out: Out, ghost made: Ends)
      requires Valid() && me < USERS && user[me].valid && Proper(me, l)
      modifies this`claims, p, user, record, pipes[me]
      ensures Valid() && Shape(State()) && Shape(old(State())) && Kept()
      ensures Marking(ok, MarkSet()) == Parsing(old(user[..]), old(MarkSet()), me, l)
      ensures SameFaces(user[..], old(user[..]))
      ensures made.id == old(p.made) && due == Has(pipes[me].vec, 0) == Has(Ticked(old(pipes[me].vec)), 0)
      ensures pipes[me].vec ==
        if ok && l.end.Number? then Delivery.Parked(Ticked(old(pipes[me].vec)), l.end.n, made) else Ticked(old(pipes[me].vec))
      ensures ok ==> HeldAt(p.fds, claims, claimed) && OutFits(State(), me, out) && OutIs(l.end, out, pipes[me].vec, user[..], me)
      ensures ok ==> ClaimIs(old(user[..]), me, l.froms, claimed) && SentOpen(l.end, user[..], me, p.fds)
      ensures old(p.made) <= p.made && (ok && l.end.Number? && !Has(Ticked(old(pipes[me].vec)), l.end.n) ==> made.id < p.made)
    {
      hide Balanced, Good, HeldAt, Has, OutFits, OutIs, MarkSet, Vectors, Receiving, Sending, Ticked, ClaimIs, Delivery.Parked,
        PutCell, SentOpen;
      out, claimed, made := ToTerminal, None, Ends(0, 0, p.made);
      due := CountDown(me);
      ghost var held;
      ok, held := Receive(me, l.froms);
      if !ok {
        return;
      }
      ghost var w := State();
      ok, out, made := Finish(me, l.end, held);
      if ok {
        CellStays(w, user[..], me, l);
        if l.froms != [] {
          claimed := Some(user[me].pipes[l.froms[|l.froms| - 1] - 1]);
        }
        assert claimed == held;
      }
    }

    predicate SocketOpen(fd: nat)
      reads p
    {
      fd > 2 && fd in p.fds && p.fds[fd].Socket?
    }

    /** The stages, then what `name` and `exit` do to the table. */
    method RunCommands(me: nat, commands: seq<Command>, due: bool, claimed: Option<Ends>, out: Out) returns (children: seq<Table>)
      requires Valid() && me < USERS && user[me].valid && commands != [] && due == Has(pipes[me].vec, 0)
      requires HeldAt(p.fds, claims, claimed) && Shape(State()) && OutFits(State(), me, out)
      modifies p, user, record, pipes[me]
      ensures Valid() && Ready(old(PlanOf(State(), me, claimed, out)))
      ensures LineRan(old(PlanOf(State(), me, claimed, out)), commands, children)
      ensures pipes[me].vec == if children == [] then old(pipes[me].vec) else VecAfter(old(PlanOf(State(), me, claimed, out)))
      ensures MarkSet() == if Exit in commands then Without(old(MarkSet()), me + 1) else old(MarkSet())
      ensures
        var us := AllRenamed(old(user[..]), me, commands);
        user[..] == if Exit in commands then us[me := us[me].(valid := false)] else us
      ensures SocketOpen(old(user[me].sock))
      ensures old(p.made) <= p.made
    {
      hide Balanced, Good, HeldAt, Has, OutFits, Ready, LineRan, Taken, AllRenamed, VecAfter;
      ghost var before := user[..];
      children := Execute(me, commands, due, claimed, out);
      RenameAll(me, commands);
      RenamedStays(before, me, commands);
      GoodSocket(State(), claims, me);
      if Exit in commands {
        Leave(me);
      }
    }

    /** One line of input from user `me`, whose socket is on the standard descriptors.
        `plan` is what the stages started from. */
    method RunLine(me: nat, l: Line) returns (ok: bool, children: seq<Table>, ghost plan: Plan, ghost seen: Delivery.Line)
      requires Valid() && me < USERS && user[me].valid && Proper(me, l)
      modifies this`claims, p, user, record, pipes[me]
      ensures Valid() && Shape(old(State()))
      ensures
        var m := Parsing(old(user[..]), old(MarkSet()), me, l);
        && ok == m.ok
        && MarkSet() == (if ok && Exit in l.commands then Without(m.marks, me + 1) else m.marks)
        && SameFaces(user[..], FacesAfter(old(user[..]), me, l, ok))
      ensures seen == SeenOf(l, ok, seen.made) && seen.made.id == old(p.made)
      ensures pipes[me].vec == Delivery.Step(old(pipes[me].vec), seen)
      ensures ok && l.commands != [] ==>
        && Ready(plan) && LineRan(plan, l.commands, children)
        && plan.vec == Delivery.During(old(pipes[me].vec), seen)
        && (forall fd :: fd in old(p.fds) ==> fd in plan.fds && plan.fds[fd] == old(p.fds)[fd])
        && ClaimIs(old(user[..]), me, l.froms, plan.user)
        && OutIs(l.end, plan.out, plan.vec, user[..], me) && SentOpen(l.end, user[..], me, plan.fds)
      ensures !ok || l.commands == [] ==> children == []
      ensures SocketOpen(old(user[me].sock))
      ensures old(p.made) <= p.made && (ok && l.end.Number? && !Has(Ticked(old(pipes[me].vec)), l.end.n) ==> seen.made.id < p.made)
    {
      hide Balanced, Good, HeldAt, Has, OutFits, OutIs, Ready, LineRan, Taken, AllRenamed, Kinds, Reached, Externals, VecAfter;
      hide Delivery.Step, Delivery.During, Delivery.Parked, Find, Ticked, Alive, Without, Parsing, FacesAfter, ClaimIs, SentOpen;
      ghost var v := State();
      var due, claimed, out;
      ghost var made;
      ok, due, claimed, out, made := Parse(me, l);
      children, seen := [], SeenOf(l, ok, made);
      plan := PlanOf(State(), me, claimed, out);
      ghost var parsed := user[..];
      GoodShape(State(), claims);
      if ok && l.commands != [] {
        children := RunCommands(me, l.commands, due, claimed, out);
        RanCount(plan, l.commands, children);
        VecAfterIs(plan);
        FacesRun(v.users, parsed, user[..], me, l);
        OutStays(l.end, out, plan.vec, parsed, user[..], me);
        SentStays(l.end, parsed, user[..], me, plan.fds);
      } else {
        GoodSocket(State(), claims, me);
        FacesIdle(v.users, parsed, me, l, ok);
      }
      StepIs(v.vecs[me], l, ok, made, |children|);
    }

    predicate OnStandard(f: File)
      reads p
    {
      0 in p.fds && 1 in p.fds && 2 in p.fds && p.fds[0] == p.fds[1] == p.fds[2] == f
    }

    /** A user's socket on the standard descriptors. */
    method Attach(me: nat)
      requires Valid() && me < USERS && user[me].valid
      modifies p
      ensures Valid() && State() == old(State()).(fds := p.fds)
      ensures OnStandard(old(p.fds[user[me].sock]))
      ensures p.made == old(p.made)
    {
      hide Balanced, Good, Restored, NoLowPipes;
      ghost var v := State();
      var sock := user[me].sock;
      GoodSocket(v, claims, me);
      GoodLow(v, claims);
      Redirect(sock, sock, sock);
      PlainTableKeeps(v, claims, p.fds);
      assert State() == v.(fds := p.fds);
      RestoredAbove(v.fds, p.fds);
    }

    /** The console back on the standard descriptors; the socket of a user who left is
        closed. */
    method Detach(sock: nat, gone: bool)
      requires Valid() && sock > 2 && sock in p.fds && p.fds[sock].Socket?
      requires gone ==> forall i :: 0 <= i < USERS && user[i].valid ==> user[i].sock != sock
      modifies p
      ensures Valid() && (gone ==> sock !in p.fds)
      ensures p.made == old(p.made)
    {
      hide Balanced, Good, Restored, NoLowPipes;
      ghost var v := State();
      GoodLow(v, claims);
      Redirect(savedIn, savedOut, savedErr);
      PlainTableKeeps(v, claims, p.fds);
      assert State() == v.(fds := p.fds);
      RestoredAbove(v.fds, p.fds);
      if gone {
        ghost var w := State();
        p.Close(sock);
        CloseKeeps(w, claims, sock);
        assert State() == w.(fds := p.fds);
      }
    }

    /** The line joins the history of its slot. */
    ghost method RecordLine(me: nat, l: Line, ok: bool, seen: Delivery.Line, made: nat, vecs: seq<seq<Entry>>)
      requires me < USERS && |history| == USERS == |pipes| && Proper(me, l) && seen == SeenOf(l, ok, seen.made)
      requires |since| == USERS && forall u :: 0 <= u < USERS ==> since[u] <= |history[u]|
      requires seen.made.id == made <= p.made
      requires |vecs| == USERS && pipes[me].vec == Delivery.Step(vecs[me], seen)
      requires forall u :: 0 <= u < USERS && u != me ==> pipes[u].vec == vecs[u]
      requires forall u :: 0 <= u < USERS ==>
        Delivery.Session(history[u]) && Delivery.MadeBelow(history[u], made) && vecs[u] == Delivery.Run(history[u])
      requires ok && l.end.Number? && !Has(Ticked(vecs[me]), l.end.n) ==> made < p.made
      modifies `history
      ensures Recorded() && history == old(history)[me := old(history)[me] + [seen]]
    {
      hide Delivery.Session, Delivery.MadeBelow, Delivery.Run, Delivery.Step, Has, Ticked;
      SeenParts(l, ok, seen);
      Delivery.SessionMore(history[me], seen, p.made);
      forall u | 0 <= u < USERS ensures Delivery.MadeBelow(history[u], p.made) {
        MadeBelowMore(history[u], made, p.made);
      }
      history := history[me := history[me] + [seen]];
    }

    /** What the main loop does with one ready socket: the line runs with the socket on
        the standard descriptors, and a user who left has it closed. */
    method Command(me: nat, l: Line) returns (ok: bool, children: seq<Table>, ghost plan: Plan, ghost seen: Delivery.Line)
      requires Valid() && Recorded() && me < USERS && user[me].valid && Proper(me, l)
      modifies this`claims, `history, p, user, record, pipes[me]
      ensures Valid() && Recorded() && Shape(old(State()))
      ensures history == old(history)[me := old(history)[me] + [seen]]
      ensures
        var m := Parsing(old(user[..]), old(MarkSet()), me, l);
        && ok == m.ok
        && MarkSet() == (if ok && Exit in l.commands then Without(m.marks, me + 1) else m.marks)
        && SameFaces(user[..], FacesAfter(old(user[..]), me, l, ok))
      ensures ok <==>
        && (forall i :: 0 <= i < |l.froms| ==> Offered(old(user[..]), old(MarkSet()), me, l.froms, i))
        && (l.end.To? ==>
              && Exists(old(user[..]), l.end.receiver)
              && ((me + 1, l.end.receiver) !in old(MarkSet()) || (l.end.receiver == me + 1 && me + 1 in l.froms)))
      ensures ok ==> forall s, r :: (s, r) in MarkSet() <==>
        && (((s, r) in old(MarkSet()) && !(r == me + 1 && s in l.froms)) || (l.end.To? && s == me + 1 && r == l.end.receiver))
        && (Exit in l.commands ==> s != me + 1 && r != me + 1)
      ensures !ok ==> exists n :: ReceivesUpTo(old(user[..]), old(MarkSet()), me, l.froms, n, MarkSet())
      ensures user[me].sock == old(user[me]).sock && (user[me].valid <==> !(ok && Exit in l.commands))
      ensures forall i :: 0 <= i < USERS && i != me ==>
        user[i].valid == old(user[i]).valid && user[i].sock == old(user[i]).sock && user[i].name == old(user[i]).name
      ensures NamedBy(old(user[..]), me, if ok then l.commands else [], user[me].name)
      ensures ok && Exit in l.commands ==> old(user[me].sock) !in p.fds
      ensures seen == SeenOf(l, ok, seen.made) && pipes[me].vec == Delivery.Step(old(pipes[me].vec), seen)
      ensures ok && l.commands != [] ==>
        && Ready(plan) && LineRan(plan, l.commands, children)
        && plan.vec == Delivery.During(old(pipes[me].vec), seen)
        && plan.fds[0] == plan.fds[1] == plan.fds[2] == old(p.fds[user[me].sock])
        && ClaimIs(old(user[..]), me, l.froms, plan.user)
        && OutIs(l.end, plan.out, plan.vec, user[..], me) && SentOpen(l.end, user[..], me, plan.fds)
      ensures !ok || l.commands == [] ==> children == []
    {
      hide Balanced, Good, HeldAt, Has, OutFits, OutIs, Ready, LineRan, Taken, AllRenamed, Kinds, Reached, Externals, VecAfter,
        Restored;
      hide Delivery.Step, Delivery.During, Delivery.Parked, Find, Ticked, Alive, Without, Receiving, Sending, SeenOf,
        Parsing, ClaimIs, SentOpen, NamedBy, FacesAfter, ReceivesUpTo, Offered;
      hide Vectors, MarkSet, Delivery.Session, Delivery.MadeBelow, Delivery.Run;
      ghost var v := State();
      VectorAt(me);
      var sock := user[me].sock;
      GoodSocket(v, claims, me);
      Attach(me);
      ok, children, plan, seen := RunLine(me, l);
      ParsingMeans(v.users, v.marks, me, l);
      FacesMean(v.users, user[..], me, l, ok);
      WithoutMeans(Parsing(v.users, v.marks, me, l).marks, me + 1);
      FacesSockets(v.users, user[..], me, l, ok);
      Detach(sock, ok && Exit in l.commands);
      RecordLine(me, l, ok, seen, v.made, v.vecs);
    }

    ghost function Shown(): Scene
      reads this, user, record
    {
      Scene(user[..], MarkSet(), seq(|history|, u requires 0 <= u < |history| reads this => |history[u]|))
    }

    lemma ArrivalShown(a: Scene, slot: nat, sock: nat)
      requires Apart() && slot < USERS && |a.users| == USERS && !a.users[slot].valid && forall i :: 0 <= i < slot ==> a.users[i].valid
      requires user[..] == a.users[slot := a.users[slot].(valid := true, sock := sock, name := NO_NAME)]
      requires MarkSet() == a.marks && Shown().entered == a.entered
      requires forall i :: 0 <= i < USERS && a.users[i].valid ==> a.users[i].sock != sock
      ensures Seated(a, Shown())
    {
    }

    lemma LineShown(a: Scene, me: nat, l: Line, ok: bool)
      requires |a.users| == |user[..]| && me < |a.users| && a.users[me].valid && Proper(me, l) && |history| == |a.entered| && me < |history|
      requires
        var m := Parsing(a.users, a.marks, me, l);
        && ok == m.ok && MarkSet() == (if ok && Exit in l.commands then Without(m.marks, me + 1) else m.marks)
        && SameFaces(user[..], FacesAfter(a.users, me, l, ok))
      requires Shown().entered == a.entered[me := a.entered[me] + 1]
      ensures Entered(a, a.users[me].sock, l, Shown())
    {
    }

    /** The main loop over any sequence of logins and lines. Every event does what it
        means for users, marks and histories, and the loop stops only before an event that
        is out of scope. */
    method Serve(events: seq<Event>) returns (done: nat, ghost trace: seq<Scene>)
      requires Valid() && Recorded()
      modifies this`claims, this`since, `history, p, user, record, pipes
      ensures Valid() && Recorded() && done <= |events|
      ensures Played(trace, events[..done]) && trace[0] == old(Shown()) && trace[done] == Shown()
      ensures done < |events| ==> OutOfScope(Shown(), events[done])
      ensures PipesFit()
    {
      hide *;
      done, trace := 0, [Shown()];
      StartsPlayed(trace[0]);
      while done < |events|
        invariant Valid() && Recorded() && done <= |events|
        invariant Played(trace, events[..done]) && |trace| == done + 1 && trace[0] == old(Shown()) && trace[done] == Shown()
        decreases |events| - done
      {
        var handled := Turn(events[done]);
        if !handled {
          break;
        }
        PlayedMore(trace, events[..done], events[done], Shown());
        assert events[..done + 1] == events[..done] + [events[done]];
        trace := trace + [Shown()];
        done := done + 1;
      }
      ValidPipesFit();
    }

    /** The live pipes of all users between any two events: whoever has marked a pair is
        in, with the pipe open; no descriptor is shared, and no pipe has two owners. */
    ghost predicate PipesFit()
      reads p, user, record, pipes
    {
      && (forall s, r :: (s, r) in MarkSet() ==> MarkedPair(s, r) && IsId(s) && IsId(r))
      && Shape(State()) && DescriptorsApart(State()) && SingleOwners(State())
    }

    lemma ValidPipesFit()
      requires Valid()
      ensures PipesFit()
    {
      hide Good, Balanced, DescriptorsApart, SingleOwners;
      GoodMarks(State(), claims);
      SessionTable.PipesApart(State(), claims);
    }

    lemma HistorySize()
      requires Recorded()
      ensures |history| == USERS == |pipes| == |since|
    {
    }

    /** One turn of the main loop. */
    method Turn(e: Event) returns (handled: bool)
      requires Valid() && Recorded()
      modifies this`claims, this`since, `history, p, user, record, pipes
      ensures Valid() && Recorded()
      ensures handled ==> Handled(old(Shown()), e, Shown())
      ensures !handled ==> Shown() == old(Shown()) && OutOfScope(Shown(), e)
    {
      hide Good, Balanced, Recorded, Ready, LineRan, OutIs, ClaimIs, Parsing, FacesAfter, SeenOf, Delivery.Step, Delivery.During,
        Without, Seated, Entered, MarkSet;
      ghost var before := Shown();
      handled := true;
      match e {
        case Arrive(conn) =>
          ghost var v := State();
          GoodSockets(v, claims);
          var slot, found := Login(conn);
          handled := found;
          if found {
            ArrivalShown(before, slot, user[slot].sock);
          }
        case Input(fd, l) =>
          var who := FindFdUser(fd);
          if who == -1 || !Proper(who, l) {
            handled := false;
          } else {
            HistorySize();
            var ok, children;
            ghost var plan, seen;
            ok, children, plan, seen := Command(who, l);
            LineShown(before, who, l, ok);
          }
      }
    }

    /** Both users are in, and both ends of the user pipe between them are open. */
    ghost predicate MarkedPair(s: nat, r: nat)
      reads p, user
    {
      && user.Length == USERS && Exists(user[..], s) && Exists(user[..], r)
      && |user[r - 1].pipes| == USERS && OpenAt(p.fds, user[r - 1].pipes[s - 1])
    }

    /** A user takes slot 0, enters `cmd |2` and `exit`, and is gone. */
    method ParkAndLeave() returns (ghost made: Ends, ghost other: Ends)
      requires Valid() && Recorded() && !user[0].valid && pipes[0].vec == [] && history[0] == []
      modifies this`claims, this`since, `history, p, user, record, pipes[0]
      ensures Valid() && Recorded() && !user[0].valid
      ensures
        var first := SeenOf(Line([], [Forked], Number(2, false)), true, made);
        var second := SeenOf(Line([], [Exit], NoEnd), true, other);
        history[0] == [first, second] && pipes[0].vec == Delivery.Step(Delivery.Step([], first), second)
    {
      hide Good, Balanced, SeenOf, Shape, Delivery.Step, Delivery.During, LineRan, Ready, LowestFree, Recorded, MarkSet;
      hide Delivery.CanReadOld, Delivery.IsCounting;
      var slot, found := Login(1);
      HistorySize();
      assert slot == 0 && found && user[0].valid;
      var children;
      ghost var plan;
      children, plan, made := OnlyLine(Line([], [Forked], Number(2, false)));
      children, plan, other := OnlyLine(Line([], [Exit], NoEnd));
    }

    /** The next user of slot 0 enters a plain command. */
    method NextUser() returns (children: seq<Table>, ghost plan: Plan, ghost third: Ends)
      requires Valid() && Recorded() && !user[0].valid
      modifies this`claims, this`since, `history, p, user, record, pipes[0]
      ensures Valid() && Recorded() && user[0].valid && |since| == USERS == |old(history)| && since[0] == |old(history)[0]|
      ensures
        var seen := SeenOf(Line([], [Forked], NoEnd), true, third);
        && history == old(history)[0 := old(history)[0] + [seen]]
        && Ready(plan) && LineRan(plan, [Forked], children) && plan.vec == Delivery.During(old(pipes[0].vec), seen)
    {
      hide Good, Balanced, SeenOf, Shape, Delivery.Step, Delivery.During, LineRan, Ready, LowestFree, Recorded, MarkSet;
      hide Delivery.CanReadOld, Delivery.IsCounting;
      HistorySize();
      var slot, found := Login(2);
      assert slot == 0 && found && user[0].valid;
      children, plan, third := OnlyLine(Line([], [Forked], NoEnd));
      HistorySize();
    }

    /** The standard input of the newcomer's command is then the pipe of the first user's. */
    static method InheritedPipe() returns (s: Server, children: seq<Table>)
      ensures s.Valid() && s.Recorded() && s.user[0].valid && |s.history[0]| == 3 && s.since[0] == 2
      ensures s.history[0][0] == SeenOf(Line([], [Forked], Number(2, false)), true, s.history[0][0].made)
      ensures s.history[0][1] == SeenOf(Line([], [Exit], NoEnd), true, s.history[0][1].made)
      ensures |children| == 1 && 0 in children[0] && children[0][0] == ReadEnd(s.history[0][0].made.id)
    {
      hide Good, Balanced, Shape, Delivery.Step, Delivery.During, LineRan, Ready, LowestFree;
      hide Delivery.Session, Delivery.MadeBelow, Delivery.Run;
      s := new Server();
      ghost var made, other, third, plan;
      made, other := s.ParkAndLeave();
      children, plan, third := s.NextUser();
      InheritedVec(made, other, third);
      InheritedChild(plan, made, children);
    }

    /** A line of one command from the user in slot 0, with nothing to receive or send. */
    method OnlyLine(l: Line) returns (children: seq<Table>, ghost plan: Plan, ghost made: Ends)
      requires Valid() && Recorded() && user[0].valid && Proper(0, l)
      requires l.froms == [] && !l.end.To? && |l.commands| == 1 && !l.commands[0].Name?
      modifies this`claims, `history, p, user, record, pipes[0]
      ensures Valid() && Recorded() && user[0].valid == (Exit !in l.commands)
      ensures history == old(history)[0 := old(history)[0] + [SeenOf(l, true, made)]]
      ensures pipes[0].vec == Delivery.Step(old(pipes[0].vec), SeenOf(l, true, made))
      ensures Ready(plan) && LineRan(plan, l.commands, children)
      ensures plan.vec == Delivery.During(old(pipes[0].vec), SeenOf(l, true, made))
    {
      hide Good, Balanced, SeenOf, Shape, Recorded, Delivery.Step, Delivery.During, Parsing, FacesAfter, Without, LineRan, Ready,
        ClaimIs, OutIs;
      PlainLine(user[..], MarkSet(), 0, l);
      var ok;
      ghost var seen;
      ok, children, plan, seen := Command(0, l);
      made := seen.made;
    }
  }

  // ---------- From the history to the descriptors ----------

  /** The first command of a line that joins a history reads a number pipe exactly when
      an earlier line was parked for it, and then the one written by exactly those lines. */
  lemma FirstCommandReads(lines: seq<Delivery.Line>, seen: Delivery.Line, plan: Plan, s: nat)
    requires Delivery.Session(lines + [seen]) && seen.ok && seen.external
    requires Ready(plan) && plan.vec == Delivery.During(Delivery.Run(lines), seen)
    ensures
      var all, now := lines + [seen], |lines|;
      && (Due(plan).Some? <==> exists r: nat :: r < now && Delivery.Parks(all, r, now))
      && (Due(plan).Some? ==> Source(plan) == ReadEnd(Due(plan).value.id))
      && (Due(plan).Some? && s < now ==>
            (Delivery.WrittenBy(all, s) == Some(Due(plan).value.id) <==> Delivery.Feeds(all, s, now)))
  {
    var all, now := lines + [seen], |lines|;
    assert all[now] == seen;
    LastPark(all);
    hide Delivery.Session, Delivery.WrittenBy, Delivery.Feeds, Delivery.Parks, Delivery.Run, Delivery.After,
      Delivery.During, Delivery.ReadBy, Ready, Due;
    ReadByIsDue(lines, seen, plan);
    Delivery.ReadsIffParkedFor(all, now);
    if s < now && Due(plan).Some? {
      Delivery.ReadsExactlyItsWriters(all, now, s);
    }
  }

  lemma LastPark(lines: seq<Delivery.Line>)
    requires Delivery.Session(lines) && lines != []
    ensures var l := lines[|lines| - 1]; l.park.Some? ==> l.park.value >= 1
  {
  }

  lemma ReadByIsDue(lines: seq<Delivery.Line>, seen: Delivery.Line, plan: Plan)
    requires seen.ok && seen.external && plan.vec == Delivery.During(Delivery.Run(lines), seen)
    requires seen.park.Some? ==> seen.park.value >= 1
    ensures
      var r := Delivery.ReadBy(lines + [seen], |lines|);
      if Due(plan).Some? then r == Some(Due(plan).value.id) else r == None
  {
    hide Delivery.Run, Delivery.After, Ticked;
    Delivery.AfterAppend(lines, seen);
    if seen.park.Some? {
      StillDue(Ticked(Delivery.Run(lines)), Entry(seen.park.value, seen.made));
    }
  }

  /** The last command of a line that ends in `|N` or `!N` writes the pipe that the
      history says. */
  lemma LastCommandWrites(lines: seq<Delivery.Line>, l: Line, seen: Delivery.Line, plan: Plan, users: seq<User>, me: nat)
    requires seen == SeenOf(l, true, seen.made) && l.end.Number? && seen.lastExternal
    requires Ready(plan) && plan.vec == Delivery.During(Delivery.Run(lines), seen) && OutIs(l.end, plan.out, plan.vec, users, me)
    ensures LastOut(plan).WriteEnd? && Delivery.WrittenBy(lines + [seen], |lines|) == Some(LastOut(plan).pipe)
  {
    hide Delivery.Run, Delivery.After, Ticked, Delivery.During;
    Delivery.AfterAppend(lines, seen);
    assert OpenAt(plan.fds, plan.vec[Find(plan.vec, l.end.n)].ends);
  }

  /** A line of a user who logged in when the slot had seen `n` lines: its first command
      reads a pipe of an earlier user exactly when the vector held, at the login, an entry
      whose countdown ends on this line. */
  lemma NewcomerReads(lines: seq<Delivery.Line>, seen: Delivery.Line, plan: Plan, n: nat)
    requires Delivery.Session(lines + [seen]) && n <= |lines| && seen.ok && seen.external
    requires Ready(plan) && plan.vec == Delivery.During(Delivery.Run(lines), seen)
    ensures Due(plan).Some? && Delivery.MadeBefore(lines + [seen], n, Due(plan).value.id) <==>
            Has(Delivery.Run(lines[..n]), |lines| - n + 1)
  {
    var all := lines + [seen];
    assert all[|lines|] == seen && all[..n] == lines[..n];
    LastPark(all);
    ReadByIsDue(lines, seen, plan);
    hide Delivery.Session, Delivery.Run, Delivery.During, Delivery.ReadBy, Delivery.MadeBefore, Ready, Due, Has;
    Delivery.InheritsExactly(all, n, |lines|);
  }

  lemma FirstChildReads(plan: Plan, commands: seq<Command>, children: seq<Table>)
    requires Ready(plan) && commands != [] && LineRan(plan, commands, children) && children != []
    ensures 0 in children[0] && children[0][0] == Source(plan)
  {
    hide Ready, Source, LastOut, LastErr, Kinds, Reached, Externals;
    if Exit !in commands {
      KindsAgree(commands);
      assert |children| > 1 ==> children[..|children| - 1][0] == children[0];
    }
  }

  lemma LastChildWrites(plan: Plan, commands: seq<Command>, children: seq<Table>)
    requires Ready(plan) && commands != [] && LineRan(plan, commands, children)
    requires commands[|commands| - 1].Forked? && Exit !in commands
    ensures children != [] && 1 in children[|children| - 1] && children[|children| - 1][1] == LastOut(plan)
  {
    KindsAgree(commands);
    assert Kinds(commands)[|commands| - 1] == External;
    hide Ready, Source, LastErr, Kinds, Reached, Externals;
  }

  /** A line that was parsed without an error, after `lines`, and how it ran. */
  ghost predicate RanAs(lines: seq<Delivery.Line>, l: Line, seen: Delivery.Line, plan: Plan, children: seq<Table>) {
    && seen == SeenOf(l, true, seen.made) && l.commands != [] && Ready(plan) && LineRan(plan, l.commands, children)
    && plan.vec == Delivery.During(Delivery.Run(lines), seen)
  }

  lemma WritesItsPipe(lines: seq<Delivery.Line>, l: Line, seen: Delivery.Line, plan: Plan, children: seq<Table>, users: seq<User>, me: nat)
    requires RanAs(lines, l, seen, plan, children) && seen.lastExternal
    requires l.end.Number? && OutIs(l.end, plan.out, plan.vec, users, me)
    ensures children != [] && 1 in children[|children| - 1] && children[|children| - 1][1].WriteEnd?
    ensures Delivery.WrittenBy(lines + [seen], |lines|) == Some(children[|children| - 1][1].pipe)
  {
    SeenLast(l, seen);
    hide SeenOf, Ready, LineRan, OutIs, Delivery.Run, Delivery.During, Delivery.WrittenBy, LastOut;
    LastChildWrites(plan, l.commands, children);
    LastCommandWrites(lines, l, seen, plan, users, me);
  }

  lemma ReadsItsPipe(lines: seq<Delivery.Line>, l: Line, seen: Delivery.Line, plan: Plan, children: seq<Table>, s: nat, id: nat)
    requires Delivery.Session(lines + [seen]) && RanAs(lines, l, seen, plan, children) && seen.external
    requires s < |lines| && Delivery.WrittenBy(lines + [seen], s) == Some(id)
    ensures children != [] && 0 in children[0]
    ensures Due(plan).Some? && children[0][0] == ReadEnd(id) <==> Delivery.Feeds(lines + [seen], s, |lines|)
  {
    ExternalRan(l, seen, plan, children);
    hide SeenOf, Ready, LineRan, Delivery.Session, Delivery.Run, Delivery.During, Delivery.WrittenBy, Source, Due;
    FirstChildReads(plan, l.commands, children);
    FirstCommandReads(lines, seen, plan, s);
  }

  /** Two lines of one slot, as they ran: the first command of the later one reads the
      number pipe that the last command of the earlier one writes, exactly when the earlier
      one ended in `|N` or `!N` with N the distance between them. */
  lemma LineReadsLine(lines: seq<Delivery.Line>, l: Line, seen: Delivery.Line, plan: Plan, children: seq<Table>,
                      users: seq<User>, me: nat,
                      lines2: seq<Delivery.Line>, l2: Line, seen2: Delivery.Line, plan2: Plan, children2: seq<Table>)
    requires Delivery.Session(lines2 + [seen2]) && lines + [seen] <= lines2
    requires RanAs(lines, l, seen, plan, children) && l.end.Number? && seen.lastExternal
    requires OutIs(l.end, plan.out, plan.vec, users, me)
    requires RanAs(lines2, l2, seen2, plan2, children2) && seen2.external
    ensures children != [] && 1 in children[|children| - 1] && children[|children| - 1][1].WriteEnd?
    ensures children2 != [] && 0 in children2[0]
    ensures Due(plan2).Some? && children2[0][0] == ReadEnd(children[|children| - 1][1].pipe) <==> |lines| + l.end.n == |lines2|
  {
    assert seen == SeenOf(l, true, seen.made);
    hide *;
    var all, s := lines2 + [seen2], |lines|;
    WritesItsPipe(lines, l, seen, plan, children, users, me);
    assert (lines + [seen])[s] == seen && all[s] == seen && lines + [seen] <= all;
    Delivery.PastStays(lines + [seen], all, s);
    ReadsItsPipe(lines2, l2, seen2, plan2, children2, s, children[|children| - 1][1].pipe);
    FedByPark(all, s, l, seen);
  }

  lemma SeenLast(l: Line, seen: Delivery.Line)
    requires seen == SeenOf(l, true, seen.made) && seen.lastExternal
    ensures l.commands != [] && l.commands[|l.commands| - 1].Forked? && Exit !in l.commands
  {
  }

  lemma ExternalRan(l: Line, seen: Delivery.Line, plan: Plan, children: seq<Table>)
    requires seen == SeenOf(l, true, seen.made) && seen.external && l.commands != []
    requires Ready(plan) && LineRan(plan, l.commands, children)
    ensures children != [] && seen.ok
  {
    RanCount(plan, l.commands, children);
    hide Ready, LineRan, Kinds, Reached, Externals;
  }

  lemma FedByPark(all: seq<Delivery.Line>, s: nat, l: Line, seen: Delivery.Line)
    requires s < |all| && all[s] == seen && seen == SeenOf(l, true, seen.made) && l.end.Number? && seen.lastExternal
    ensures forall d :: (Delivery.Feeds(all, s, d) <==> s + l.end.n == d) && (Delivery.Parks(all, s, d) <==> s + l.end.n == d)
  {
  }

  /** Where the children of a line read and write, from what the line says: the first one
      reads the number pipe that is due, else the user pipe of the last `<n`, else the
      user's socket; each next one reads the pipe that the one before writes; and the last
      one writes where the end of the line says. */
  lemma LineIsWired(l: Line, plan: Plan, children: seq<Table>, before: seq<User>, after: seq<User>, me: nat, sock: File)
    requires Ready(plan) && l.commands != [] && LineRan(plan, l.commands, children)
    requires plan.fds[0] == sock && plan.fds[1] == sock && plan.fds[2] == sock
    requires ClaimIs(before, me, l.froms, plan.user)
    requires OutIs(l.end, plan.out, plan.vec, after, me) && SentOpen(l.end, after, me, plan.fds)
    ensures |children| == |set i | 0 <= i < |l.commands| && l.commands[i].Forked? && Exit !in l.commands[..i]|
    ensures forall i :: 0 <= i < |children| ==> 0 in children[i] && 1 in children[i] && 2 in children[i]
    ensures children != [] ==>
      && (forall e :: e in plan.vec && e.rest == 0 ==> children[0][0] == ReadEnd(e.ends.id))
      && (!Has(plan.vec, 0) && l.froms != [] ==>
            var last := l.froms[|l.froms| - 1];
            me < |before| && 1 <= last <= |before[me].pipes| && children[0][0] == ReadEnd(before[me].pipes[last - 1].id))
      && (!Has(plan.vec, 0) && l.froms == [] ==> children[0][0] == sock)
    ensures forall i :: 0 <= i < |children| - 1 ==>
      children[i][1].WriteEnd? && children[i + 1][0] == ReadEnd(children[i][1].pipe) && children[i][2] == sock
    ensures l.commands[|l.commands| - 1].Forked? && Exit !in l.commands ==> children != []
    ensures l.commands[|l.commands| - 1].Forked? && Exit !in l.commands ==>
      var c := children[|children| - 1];
      match l.end
      case NoEnd => c[1] == sock && c[2] == sock
      case File(name) => c[1] == Disk(name) && c[2] == sock
      case Number(n, both) =>
        forall e :: e in plan.vec && e.rest == n ==> c[1] == WriteEnd(e.ends.id) && c[2] == if both then WriteEnd(e.ends.id) else sock
      case To(r) => 1 <= r <= |after| && me < |after[r - 1].pipes| && c[1] == WriteEnd(after[r - 1].pipes[me].id) && c[2] == sock
  {
    hide *;
    RanCount(plan, l.commands, children);
    ForkedCount(l.commands);
    MiddlesWired(plan, l.commands, children);
    if children != [] {
      FirstChildReads(plan, l.commands, children);
      SourceMeans(l, plan, before, me);
    }
    if l.commands[|l.commands| - 1].Forked? && Exit !in l.commands {
      LastChildWired(plan, l.commands, children);
      OutMeans(l, plan, after, me);
    }
  }

  /** There is one child for every external command before the first `exit`. */
  lemma ForkedCount(cs: seq<Command>)
    ensures Externals(Reached(Kinds(cs))) == |set i | 0 <= i < |cs| && cs[i].Forked? && Exit !in cs[..i]|
  {
    var n := FirstExit(cs);
    CountForked(cs, n);
    ReachedIs(Kinds(cs), n);
    assert (set i | 0 <= i < |cs| && cs[i].Forked? && Exit !in cs[..i]) == set i | 0 <= i < n && cs[i].Forked? by {
      assert forall i :: n < i < |cs| ==> cs[..i][n] == cs[n];
      assert forall i :: 0 <= i < n ==> cs[..i] <= cs[..n];
    }
  }

  lemma {:induction false} FirstExit(cs: seq<Command>) returns (n: nat)
    ensures n <= |cs| && Exit !in cs[..n] && (n == |cs| || cs[n] == Exit)
    ensures Quit !in Kinds(cs)[..n] && (n == |cs| || Kinds(cs)[n] == Quit)
  {
    n := 0;
    while n < |cs| && cs[n] != Exit
      invariant n <= |cs| && Exit !in cs[..n]
    {
      assert cs[..n + 1] == cs[..n] + [cs[n]];
      n := n + 1;
    }
    forall i | 0 <= i < n ensures Kinds(cs)[..n][i] != Quit {
      assert cs[..n][i] == cs[i] && cs[i] in cs[..n];
    }
  }

  lemma {:induction false} CountForked(cs: seq<Command>, n: nat)
    requires n <= |cs|
    ensures Externals(Kinds(cs)[..n]) == |set i | 0 <= i < n && cs[i].Forked?|
  {
    var forked := set i | 0 <= i < n && cs[i].Forked?;
    if n == 0 {
      assert forked == {};
    } else {
      CountForked(cs, n - 1);
      assert Kinds(cs)[..n] == Kinds(cs)[..n - 1] + [Kinds(cs)[n - 1]];
      ExternalsMore(Kinds(cs)[..n - 1], Kinds(cs)[n - 1]);
      var before := set i | 0 <= i < n - 1 && cs[i].Forked?;
      assert forked == if cs[n - 1].Forked? then before + {n - 1} else before;
      hide Externals;
    }
  }

  lemma MiddlesWired(plan: Plan, commands: seq<Command>, children: seq<Table>)
    requires Ready(plan) && commands != [] && LineRan(plan, commands, children)
    ensures forall i :: 0 <= i < |children| ==> 0 in children[i] && 1 in children[i] && 2 in children[i]
    ensures 2 in plan.fds && forall i :: 0 <= i < |children| - 1 ==>
      children[i][1].WriteEnd? && children[i + 1][0] == ReadEnd(children[i][1].pipe) && children[i][2] == plan.fds[2]
  {
    assert 2 in plan.fds;
    hide *;
    forall i | 0 <= i < |children|
      ensures 0 in children[i] && 1 in children[i] && 2 in children[i] && children[i][0] == StdinOf(plan, i)
      ensures i < |children| - 1 ==> children[i][1] == WriteEnd(plan.made + i) && children[i][2] == plan.fds[2]
    {
      ChildStandard(plan, commands, children, i);
    }
    forall i | 0 < i < |children| ensures StdinOf(plan, i) == ReadEnd(plan.made + i - 1) {
      LaterStdin(plan, i);
    }
  }

  lemma LaterStdin(plan: Plan, i: nat)
    requires Ready(plan) && i > 0
    ensures StdinOf(plan, i) == ReadEnd(plan.made + i - 1)
  {
  }

  lemma ChildStandard(plan: Plan, commands: seq<Command>, children: seq<Table>, i: nat)
    requires Ready(plan) && commands != [] && LineRan(plan, commands, children) && i < |children|
    ensures 0 in children[i] && 1 in children[i] && 2 in children[i] && 2 in plan.fds && children[i][0] == StdinOf(plan, i)
    ensures i < |children| - 1 ==> children[i][1] == WriteEnd(plan.made + i) && children[i][2] == plan.fds[2]
  {
    assert 2 in plan.fds;
    KindsAgree(commands);
    hide Ready, StdinOf, LastOut, LastErr, Kinds, Reached, Externals, ChildrenSealed, FirstCannotWrite;
    if Exit !in commands && i < |children| - 1 {
      assert children[..|children| - 1][i] == children[i];
    }
  }

  lemma LastChildWired(plan: Plan, commands: seq<Command>, children: seq<Table>)
    requires Ready(plan) && commands != [] && LineRan(plan, commands, children)
    requires commands[|commands| - 1].Forked? && Exit !in commands
    ensures children != [] && 1 in children[|children| - 1] && 2 in children[|children| - 1]
    ensures children[|children| - 1][1] == LastOut(plan) && children[|children| - 1][2] == LastErr(plan)
  {
    KindsAgree(commands);
    assert Kinds(commands)[|commands| - 1] == External;
    hide Ready, Source, LastOut, LastErr, Kinds, Reached, Externals;
  }

  lemma SourceMeans(l: Line, plan: Plan, before: seq<User>, me: nat)
    requires Ready(plan) && ClaimIs(before, me, l.froms, plan.user)
    ensures forall e :: e in plan.vec && e.rest == 0 ==> Source(plan) == ReadEnd(e.ends.id)
    ensures !Has(plan.vec, 0) && l.froms != [] ==>
      var last := l.froms[|l.froms| - 1];
      me < |before| && 1 <= last <= |before[me].pipes| && Source(plan) == ReadEnd(before[me].pipes[last - 1].id)
    ensures !Has(plan.vec, 0) && l.froms == [] ==> 0 in plan.fds && Source(plan) == plan.fds[0]
  {
    forall e | e in plan.vec && e.rest == 0 ensures Source(plan) == ReadEnd(e.ends.id) {
      var i :| 0 <= i < |plan.vec| && plan.vec[i] == e;
    }
  }

  lemma OutMeans(l: Line, plan: Plan, after: seq<User>, me: nat)
    requires Ready(plan) && OutIs(l.end, plan.out, plan.vec, after, me) && SentOpen(l.end, after, me, plan.fds)
    ensures
      1 in plan.fds && 2 in plan.fds &&
      match l.end
      case NoEnd => LastOut(plan) == plan.fds[1] && LastErr(plan) == plan.fds[2]
      case File(name) => LastOut(plan) == Disk(name) && LastErr(plan) == plan.fds[2]
      case Number(n, both) =>
        forall e :: e in plan.vec && e.rest == n ==>
          LastOut(plan) == WriteEnd(e.ends.id) && LastErr(plan) == if both then WriteEnd(e.ends.id) else plan.fds[2]
      case To(r) =>
        && 1 <= r <= |after| && me < |after[r - 1].pipes|
        && LastOut(plan) == WriteEnd(after[r - 1].pipes[me].id) && LastErr(plan) == plan.fds[2]
  {
    if l.end.Number? {
      forall e | e in plan.vec && e.rest == l.end.n ensures e == plan.vec[Find(plan.vec, l.end.n)] {
        var i :| 0 <= i < |plan.vec| && plan.vec[i] == e;
      }
    }
  }
}
