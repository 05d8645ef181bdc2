/** Running the stages of one line: the pipe, fork, dup2 and close calls of the
    execution loop, stage by stage, in the parent and in every child. */
module Pipeline {
  import opened Prelude
  import opened Descriptors
  import opened NumberPipes

  /** What a stage is to the loop: a command to fork, a builtin that leaves descriptors
      alone, or `exit`, which leaves the loop. */
  datatype Kind = External | Builtin | Quit

  /** Where the parser sends the last stage's output; `both` is the `!N` form. */
  datatype Out = ToTerminal | ToFile(name: string) | ToNumber(fd: nat, both: bool) | ToUser(fd: nat)

  // ---------- Descriptor tables as values ----------

  function Dup(t: Table, from: nat, to: nat): Table {
    if from in t then t[to := t[from]] else t
  }

  function DupDue(t: Table, vec: seq<Entry>): Table {
    if Find(vec, 0) < |vec| then Dup(t, vec[Find(vec, 0)].ends.r, 0) else t
  }

  function WriteOf(e: Option<Ends>): set<nat> {
    if e.Some? then {e.value.w} else {}
  }

  function ReadOf(e: Option<Ends>): set<nat> {
    if e.Some? then {e.value.r} else {}
  }

  /** The table at the fork: the write ends of what is about to be read are closed. */
  function AtFork(t: Table, vec: seq<Entry>, user: Option<Ends>): Table {
    t - DueOut(vec) - WriteOf(user)
  }

  /** Standard input of a last stage with its own output. */
  function Input(t: Table, vec: seq<Entry>, due: bool, user: Option<Ends>, fdIn: nat): Table {
    if due then DupDue(t, vec) else if user.Some? then Dup(t, user.value.r, 0) else Dup(t, fdIn, 0)
  }

  function EndChild(t: Table, vec: seq<Entry>, due: bool, user: Option<Ends>, fdIn: nat, out: Out): Table {
    match out
    case ToTerminal => t
    case ToFile(name) =>
      var f := LowestFree(t);
      Dup(Input(t[f := Disk(name)], vec, due, user, fdIn), f, 1)
    case ToNumber(fd, both) =>
      var u := Input(t, vec, due, user, fdIn);
      Dup(if both then Dup(u, fd, 2) else u, fd, 1)
    case ToUser(fd) => Dup(Input(t, vec, due, user, fdIn), fd, 1)
  }

  function PlainChild(t: Table, vec: seq<Entry>, due: bool, user: Option<Ends>, fdIn: nat, many: bool, last: bool, r: nat, w: nat): Table {
    var u := if due then DupDue(t, vec) else if user.Some? then Dup(t, user.value.r, 0) else t;
    if !many then u
    else
      var v := (if due then u else Dup(u, fdIn, 0)) - {r};
      if last then v else Dup(v, w, 1)
  }

  /** What the parent has closed once the child runs. */
  function Settled(t: Table, vec: seq<Entry>, due: bool, user: Option<Ends>): Table {
    t - (if due then DueIn(vec) else {}) - ReadOf(user)
  }

  // ---------- The stages ----------

  /** The ends that a stage is about to close are open, at descriptors of their own. */
  predicate Closable(t: Table, vec: seq<Entry>, user: Option<Ends>) {
    && Distinct(vec) && DueOut(vec) <= t.Keys && DueIn(vec) <= t.Keys && DueOut(vec) !! DueIn(vec)
    && Both(user) <= t.Keys && Both(user) !! DueOut(vec) + DueIn(vec)
    && (user.Some? ==> user.value.r != user.value.w)
  }

  /** What the ends to be closed keep of the table: a descriptor that is none of them. */
  predicate Unconsumed(t: Table, vec: seq<Entry>, user: Option<Ends>, fd: nat) {
    fd in t && fd !in DueOut(vec) && fd !in DueIn(vec) && fd !in Both(user)
  }

  /** The closing of write ends before a fork. */
  method CloseWrites(p: Process, np: NumberPipes, user: Option<Ends>)
    requires Closable(p.fds, np.vec, user)
    modifies p
    ensures p.fds == AtFork(old(p.fds), np.vec, user) && p.made == old(p.made)
    ensures old(p.Accounted()) ==> p.Accounted()
  {
    hide Balanced;
    np.CloseDueOut(p);
    if user.Some? {
      p.Close(user.value.w);
    } else {
      assert p.fds - {} == p.fds;
    }
  }

  /** The closing of read ends in the parent, and the end of the due number pipe. */
  method CloseReads(p: Process, np: NumberPipes, due: bool, user: Option<Ends>)
    requires Distinct(np.vec) && DueIn(np.vec) <= p.fds.Keys && ReadOf(user) <= p.fds.Keys && ReadOf(user) !! DueIn(np.vec)
    modifies p, np
    ensures p.fds == Settled(old(p.fds), old(np.vec), due, user) && p.made == old(p.made)
    ensures np.vec == if due then Alive(old(np.vec)) else old(np.vec)
    ensures old(p.Accounted()) ==> p.Accounted()
  {
    hide Balanced;
    if due {
      np.CloseDueIn(p);
      np.EraseDue();
    } else {
      assert p.fds - {} == p.fds;
    }
    if user.Some? {
      p.Close(user.value.r);
    } else {
      assert p.fds - {} == p.fds;
    }
  }

  /** The child of a last stage with its own output. */
  method EndChildRuns(c: Process, np: NumberPipes, due: bool, user: Option<Ends>, fdIn: nat, out: Out)
    requires !out.ToTerminal?
    modifies c
    ensures c.fds == EndChild(old(c.fds), np.vec, due, user, fdIn, out)
  {
    var file := 0;
    if out.ToFile? {
      file := c.Open(Disk(out.name));
    }
    if due {
      np.DupDue(c);
    } else if user.Some? {
      c.Dup2(user.value.r, 0);
    } else {
      c.Dup2(fdIn, 0);
    }
    match out {
      case ToFile(_) => c.Dup2(file, 1);
      case ToNumber(fd, both) =>
        if both {
          c.Dup2(fd, 2);
        }
        c.Dup2(fd, 1);
      case ToUser(fd) => c.Dup2(fd, 1);
    }
  }

  method PlainChildRuns(c: Process, np: NumberPipes, due: bool, user: Option<Ends>, fdIn: nat, many: bool, last: bool, r: nat, w: nat)
    requires many ==> r in c.fds
    modifies c
    ensures c.fds == PlainChild(old(c.fds), np.vec, due, user, fdIn, many, last, r, w)
  {
    if due {
      np.DupDue(c);
    } else if user.Some? {
      c.Dup2(user.value.r, 0);
    }
    if many {
      if !due {
        c.Dup2(fdIn, 0);
      }
      c.Close(r);
      if !last {
        c.Dup2(w, 1);
      }
    }
  }

  /** A last stage whose output goes to a file, a number pipe or a user pipe. */
  method RunEnd(p: Process, np: NumberPipes, due: bool, user: Option<Ends>, fdIn: nat, out: Out, many: bool) returns (child: Table)
    requires !out.ToTerminal? && Closable(p.fds, np.vec, user) && (many ==> Unconsumed(p.fds, np.vec, user, fdIn))
    modifies p, np
    ensures child == EndChild(AtFork(old(p.fds), old(np.vec), user), old(np.vec), due, user, fdIn, out)
    ensures p.fds == Settled(AtFork(old(p.fds), old(np.vec), user) - (if many then {fdIn} else {}), old(np.vec), due, user)
    ensures p.made == old(p.made) && np.vec == if due then Alive(old(np.vec)) else old(np.vec)
    ensures old(p.Accounted()) ==> p.Accounted()
  {
    hide Balanced;
    CloseWrites(p, np, user);
    var c := p.Fork();
    EndChildRuns(c, np, due, user, fdIn, out);
    child := c.fds;
    if many {
      p.Close(fdIn);
    } else {
      assert p.fds - {} == p.fds;
    }
    CloseReads(p, np, due, user);
  }

  /** New descriptors are none of those that are about to be closed. */
  lemma ClosableMore(t: Table, t2: Table, vec: seq<Entry>, user: Option<Ends>, more: set<nat>)
    requires Closable(t, vec, user) && t2.Keys == t.Keys + more && more !! t.Keys
    ensures Closable(t2, vec, user)
    ensures
      var f := AtFork(t2, vec, user);
      && more <= f.Keys && more !! DueIn(vec) && more !! ReadOf(user)
      && Distinct(vec) && DueIn(vec) <= f.Keys && ReadOf(user) <= f.Keys && ReadOf(user) !! DueIn(vec)
  {
  }

  /** Every other external stage: with more than one stage on the line it makes a pipe. */
  method RunPlain(p: Process, np: NumberPipes, due: bool, user: Option<Ends>, fdIn: nat, many: bool, last: bool)
    returns (child: Table, r: nat, w: nat)
    requires Closable(p.fds, np.vec, user)
    modifies p, np
    ensures many ==> r !in old(p.fds) && w !in old(p.fds) && r != w && p.made == old(p.made) + 1
    ensures !many ==> p.made == old(p.made)
    ensures
      var f := AtFork(WithPipe(old(p.fds), many, r, w, old(p.made)), old(np.vec), user);
      && child == PlainChild(f, old(np.vec), due, user, fdIn, many, last, r, w)
      && p.fds == Settled(f - (if many then {w} else {}) - (if many && last then {r} else {}), old(np.vec), due, user)
    ensures np.vec == if due then Alive(old(np.vec)) else old(np.vec)
    ensures old(p.Accounted()) ==> p.Accounted()
  {
    hide Balanced, DueOut, DueIn, Distinct, PlainChild, Alive, Closable, LowestFree;
    r, w := 0, 0;
    if many {
      r, w := p.Pipe();
    }
    ClosableMore(old(p.fds), p.fds, np.vec, user, if many then {r, w} else {});
    CloseWrites(p, np, user);
    var c := p.Fork();
    PlainChildRuns(c, np, due, user, fdIn, many, last, r, w);
    child := c.fds;
    if many {
      p.Close(w);
      if last {
        p.Close(r);
      }
    }
    assert forall t: Table :: t - {} == t;
    CloseReads(p, np, due, user);
  }

  function WithPipe(t: Table, many: bool, r: nat, w: nat, id: nat): Table {
    if many then t[r := ReadEnd(id)][w := WriteEnd(id)] else t
  }

  // ---------- A whole line ----------

  /** Everything the execution loop starts from; `user` is the pipe that a `<n` of the
      line has claimed. */
  datatype Plan = Plan(fds: Table, made: nat, vec: seq<Entry>, user: Option<Ends>, out: Out)

  function Due(plan: Plan): Option<Ends> {
    if Has(plan.vec, 0) then Some(plan.vec[Find(plan.vec, 0)].ends) else None
  }

  /** Both ends are open, at these descriptors and at no others. */
  predicate OpenAt(t: Table, e: Ends) {
    && e.r in t && e.w in t && t[e.r] == ReadEnd(e.id) && t[e.w] == WriteEnd(e.id)
    && forall fd :: fd in t ==> (t[fd] == ReadEnd(e.id) ==> fd == e.r) && (t[fd] == WriteEnd(e.id) ==> fd == e.w)
  }

  /** What the shell guarantees when the loop starts. */
  predicate Ready(plan: Plan) {
    && 0 in plan.fds && 1 in plan.fds && 2 in plan.fds
    && !IsPipe(plan.fds[0]) && !IsPipe(plan.fds[1]) && !IsPipe(plan.fds[2])
    && (forall fd :: fd in plan.fds ==> IsPipe(plan.fds[fd]) ==> plan.fds[fd].pipe < plan.made)
    && Distinct(plan.vec)
    && (forall i :: 0 <= i < |plan.vec| ==> OpenAt(plan.fds, plan.vec[i].ends))
    && (plan.user.Some? ==> OpenAt(plan.fds, plan.user.value) && plan.user.value.id !in Ids(plan.vec))
    && (plan.out.ToNumber? ==> exists i :: 0 <= i < |plan.vec| && plan.vec[i].rest != 0 && plan.vec[i].ends.w == plan.out.fd)
    && (plan.out.ToUser? ==>
          && plan.out.fd in plan.fds && plan.fds[plan.out.fd].WriteEnd? && plan.fds[plan.out.fd].pipe !in Ids(plan.vec)
          && (plan.user.Some? ==> plan.fds[plan.out.fd].pipe != plan.user.value.id))
  }

  function Ids(vec: seq<Entry>): set<nat> {
    set i | 0 <= i < |vec| :: vec[i].ends.id
  }

  function Both(e: Option<Ends>): set<nat> {
    if e.Some? then {e.value.r, e.value.w} else {}
  }

  /** What the parent keeps of the descriptors it started with. */
  function Core(plan: Plan): Table {
    plan.fds - Both(Due(plan)) - Both(plan.user)
  }

  /** Where the first external stage reads: the due number pipe, else the user pipe,
      else standard input. */
  function Source(plan: Plan): File
    requires Ready(plan)
  {
    if Due(plan).Some? then ReadEnd(Due(plan).value.id)
    else if plan.user.Some? then ReadEnd(plan.user.value.id)
    else plan.fds[0]
  }

  /** Standard input of the `i`-th external stage. */
  function StdinOf(plan: Plan, i: nat): File
    requires Ready(plan)
  {
    if i == 0 then Source(plan) else ReadEnd(plan.made + i - 1)
  }

  /** Standard output and standard error of the last stage, when it is external. */
  function LastOut(plan: Plan): File
    requires Ready(plan)
  {
    match plan.out
    case ToTerminal => plan.fds[1]
    case ToFile(name) => Disk(name)
    case ToNumber(fd, _) => plan.fds[fd]
    case ToUser(fd) => plan.fds[fd]
  }

  function LastErr(plan: Plan): File
    requires Ready(plan)
  {
    if plan.out.ToNumber? && plan.out.both then plan.fds[plan.out.fd] else plan.fds[2]
  }

  /** A child's three standard descriptors. */
  predicate Wired(c: Table, stdin: File, stdout: File, stderr: File) {
    0 in c && 1 in c && 2 in c && c[0] == stdin && c[1] == stdout && c[2] == stderr
  }

  /** No descriptor of the table can write a pipe: whoever reads it will see its end
      once the earlier writers are done. */
  predicate CannotWrite(c: Table, e: Option<Ends>) {
    e.Some? ==> forall fd :: fd in c ==> c[fd] != WriteEnd(e.value.id)
  }

  predicate ChildrenWired(plan: Plan, children: seq<Table>)
    requires Ready(plan)
  {
    forall i :: 0 <= i < |children| ==> Wired(children[i], StdinOf(plan, i), WriteEnd(plan.made + i), plan.fds[2])
  }

  /** `fds` is what is left of the old table plus exactly the read ends in `kept`, of
      the first pipes that the line made. */
  ghost predicate Leftover(plan: Plan, fds: Table, core: Table, kept: seq<nat>) {
    && (forall fd :: fd in fds <==> fd in core || fd in kept)
    && (forall fd :: fd in core ==> fd in fds && fds[fd] == core[fd])
    && (forall i :: 0 <= i < |kept| ==> kept[i] !in core && kept[i] in fds && fds[kept[i]] == ReadEnd(plan.made + i))
  }

  function VecAfter(plan: Plan): seq<Entry> {
    if Has(plan.vec, 0) then Alive(plan.vec) else plan.vec
  }

  /** The loop's state after any number of stages before the last. */
  ghost predicate Between(plan: Plan, fds: Table, made: nat, vec: seq<Entry>, fdIn: nat, kept: seq<nat>) {
    made == plan.made + |kept| &&
    if kept == [] then fds == plan.fds && vec == plan.vec && fdIn == 0
    else fdIn == kept[|kept| - 1] && vec == VecAfter(plan) && Leftover(plan, fds, Core(plan), kept)
  }

  // ---------- Facts about one stage ----------

  lemma DueSets(plan: Plan)
    requires Ready(plan)
    ensures DueOut(plan.vec) == WriteOf(Due(plan)) && DueIn(plan.vec) == ReadOf(Due(plan))
    ensures DueOut(VecAfter(plan)) == {} && DueIn(VecAfter(plan)) == {} && !Has(VecAfter(plan), 0)
  {
    var i := Find(plan.vec, 0);
    forall j | 0 <= j < |plan.vec| && plan.vec[j].rest == 0 ensures j == i {
    }
    forall j | 0 <= j < |VecAfter(plan)| ensures VecAfter(plan)[j].rest != 0 {
      if Has(plan.vec, 0) {
        AliveMembers(plan.vec, VecAfter(plan)[j]);
      }
    }
  }

  /** The ends that the line consumes are four different descriptors above 2. */
  lemma ConsumedApart(plan: Plan)
    requires Ready(plan)
    ensures Due(plan).Some? ==> OpenAt(plan.fds, Due(plan).value) && Due(plan).value.id in Ids(plan.vec)
    ensures forall e, fd :: (e == Due(plan) || e == plan.user) && fd in Both(e) ==> fd > 2 && fd in plan.fds
    ensures Both(Due(plan)) !! Both(plan.user)
  {
  }

  /** The descriptor that a stage reads is open in the table it is forked with. */
  predicate Reads(f: Table, vec: seq<Entry>, due: bool, user: Option<Ends>, fdIn: nat, stdin: File) {
    if due then Find(vec, 0) < |vec| && vec[Find(vec, 0)].ends.r in f && f[vec[Find(vec, 0)].ends.r] == stdin
    else if user.Some? then user.value.r in f && f[user.value.r] == stdin && fdIn == 0
    else fdIn in f && f[fdIn] == stdin
  }

  lemma PlainChildWired(f: Table, vec: seq<Entry>, due: bool, user: Option<Ends>, fdIn: nat,
                        many: bool, last: bool, r: nat, w: nat, stdin: File)
    requires 0 in f && 1 in f && 2 in f && Reads(f, vec, due, user, fdIn, stdin)
    requires if many then r > 2 && w > 2 && w in f && r != w && fdIn != r else fdIn == 0
    ensures Wired(PlainChild(f, vec, due, user, fdIn, many, last, r, w), stdin, if many && !last then f[w] else f[1], f[2])
  {
  }

  lemma EndChildWired(f: Table, vec: seq<Entry>, due: bool, user: Option<Ends>, fdIn: nat, out: Out, stdin: File)
    requires 0 in f && 1 in f && 2 in f && Reads(f, vec, due, user, fdIn, stdin) && !out.ToTerminal?
    requires !out.ToFile? ==> out.fd in f && out.fd > 2
    ensures
      var c := EndChild(f, vec, due, user, fdIn, out);
      match out
      case ToFile(name) => Wired(c, stdin, Disk(name), f[2])
      case ToNumber(fd, both) => Wired(c, stdin, f[fd], if both then f[fd] else f[2])
      case ToUser(fd) => Wired(c, stdin, f[fd], f[2])
      case ToTerminal => true
  {
    if out.ToFile? {
      assert LowestFree(f) > 2;
    }
  }

  /** A child can write nothing but what its table at the fork could, or a new file. */
  lemma PlainChildFiles(f: Table, vec: seq<Entry>, due: bool, user: Option<Ends>, fdIn: nat,
                        many: bool, last: bool, r: nat, w: nat, e: Option<Ends>)
    requires CannotWrite(f, e)
    ensures CannotWrite(PlainChild(f, vec, due, user, fdIn, many, last, r, w), e)
  {
  }

  lemma EndChildFiles(f: Table, vec: seq<Entry>, due: bool, user: Option<Ends>, fdIn: nat, out: Out, e: Option<Ends>)
    requires CannotWrite(f, e)
    ensures CannotWrite(EndChild(f, vec, due, user, fdIn, out), e)
  {
  }

  /** The line's table and the at most two pipes it consumes. */
  predicate Consumes(t: Table, made: nat, d: Option<Ends>, u: Option<Ends>) {
    && 0 in t && 1 in t && 2 in t && !IsPipe(t[0]) && !IsPipe(t[1]) && !IsPipe(t[2])
    && (forall fd :: fd in t ==> IsPipe(t[fd]) ==> t[fd].pipe < made)
    && (d.Some? ==> OpenAt(t, d.value))
    && (u.Some? ==> OpenAt(t, u.value))
    && (d.Some? && u.Some? ==> d.value.id != u.value.id)
  }

  lemma PlanConsumes(plan: Plan)
    requires Ready(plan)
    ensures Consumes(plan.fds, plan.made, Due(plan), plan.user)
  {
  }

  lemma ForkTable(t: Table, made: nat, d: Option<Ends>, u: Option<Ends>, many: bool, r: nat, w: nat)
    requires Consumes(t, made, d, u) && (many ==> r !in t && w !in t && r != w)
    ensures
      var f := WithPipe(t, many, r, w, made) - WriteOf(d) - WriteOf(u);
      && Wired(f, t[0], t[1], t[2])
      && CannotWrite(f, d) && CannotWrite(f, u)
      && (d.Some? ==> d.value.r in f && f[d.value.r] == ReadEnd(d.value.id))
      && (u.Some? ==> u.value.r in f && f[u.value.r] == ReadEnd(u.value.id))
      && (many ==> w in f && f[w] == WriteEnd(made) && r > 2 && w > 2)
      && (forall fd :: fd in t && fd !in WriteOf(d) && fd !in WriteOf(u) ==> fd in f && f[fd] == t[fd])
  {
  }

  /** The table at the fork of the first external stage. */
  lemma FirstFork(plan: Plan, many: bool, r: nat, w: nat)
    requires Ready(plan) && (many ==> r !in plan.fds && w !in plan.fds && r != w)
    ensures
      var f := AtFork(WithPipe(plan.fds, many, r, w, plan.made), plan.vec, plan.user);
      && Wired(f, plan.fds[0], plan.fds[1], plan.fds[2])
      && Reads(f, plan.vec, Has(plan.vec, 0), plan.user, 0, Source(plan))
      && CannotWrite(f, Due(plan)) && CannotWrite(f, plan.user)
      && (many ==> w in f && f[w] == WriteEnd(plan.made) && r > 2 && w > 2)
  {
    DueSets(plan);
    PlanConsumes(plan);
    ForkTable(plan.fds, plan.made, Due(plan), plan.user, many, r, w);
    hide Ready, DueOut, DueIn, Consumes, CannotWrite, Wired;
  }

  /** Where the parser sends the output is still open at the fork. */
  lemma OutOpen(plan: Plan)
    requires Ready(plan) && (plan.out.ToNumber? || plan.out.ToUser?)
    ensures plan.out.fd > 2 && plan.out.fd in plan.fds && plan.fds[plan.out.fd].WriteEnd?
    ensures plan.out.fd !in WriteOf(Due(plan)) && plan.out.fd !in WriteOf(plan.user)
  {
  }

  lemma ParentTable(t: Table, made: nat, d: Option<Ends>, u: Option<Ends>, r: nat, w: nat)
    requires Consumes(t, made, d, u) && r !in t && w !in t && r != w
    ensures
      var f := WithPipe(t, true, r, w, made) - WriteOf(d) - WriteOf(u);
      && f - {w} - ReadOf(d) - ReadOf(u) == (t - Both(d) - Both(u))[r := ReadEnd(made)]
      && f - {w} - {r} - ReadOf(d) - ReadOf(u) == t - Both(d) - Both(u)
  {
  }

  lemma LoneParentTable(t: Table, d: Option<Ends>, u: Option<Ends>)
    ensures t - WriteOf(d) - WriteOf(u) - ReadOf(d) - ReadOf(u) == t - Both(d) - Both(u)
    ensures t - WriteOf(d) - WriteOf(u) - {0} - ReadOf(d) - ReadOf(u) == t - Both(d) - Both(u) - {0}
  {
  }

  lemma SettledIs(plan: Plan, t: Table)
    requires Ready(plan)
    ensures Settled(t, plan.vec, Has(plan.vec, 0), plan.user) == t - ReadOf(Due(plan)) - ReadOf(plan.user)
  {
    DueSets(plan);
    assert t - {} == t;
  }

  lemma FirstParent(plan: Plan, r: nat, w: nat)
    requires Ready(plan) && r !in plan.fds && w !in plan.fds && r != w
    ensures
      var f := AtFork(WithPipe(plan.fds, true, r, w, plan.made), plan.vec, plan.user);
      && Settled(f - {w}, plan.vec, Has(plan.vec, 0), plan.user) == Core(plan)[r := ReadEnd(plan.made)]
      && Settled(f - {w} - {r}, plan.vec, Has(plan.vec, 0), plan.user) == Core(plan)
  {
    DueSets(plan);
    PlanConsumes(plan);
    var f := AtFork(WithPipe(plan.fds, true, r, w, plan.made), plan.vec, plan.user);
    SettledIs(plan, f - {w});
    SettledIs(plan, f - {w} - {r});
    ParentTable(plan.fds, plan.made, Due(plan), plan.user, r, w);
  }

  lemma LoneParent(plan: Plan)
    requires Ready(plan)
    ensures
      var f := AtFork(plan.fds, plan.vec, plan.user);
      && Settled(f, plan.vec, Has(plan.vec, 0), plan.user) == Core(plan)
      && Settled(f - {0}, plan.vec, Has(plan.vec, 0), plan.user) == Core(plan) - {0}
  {
    DueSets(plan);
    var f := AtFork(plan.fds, plan.vec, plan.user);
    SettledIs(plan, f);
    SettledIs(plan, f - {0});
    LoneParentTable(plan.fds, Due(plan), plan.user);
  }

  /** A later stage finds nothing due and claims no user pipe. */
  lemma LaterFork(plan: Plan, t: Table)
    requires Ready(plan)
    ensures AtFork(t, VecAfter(plan), None) == t && Settled(t, VecAfter(plan), false, None) == t
  {
    DueSets(plan);
    assert t - {} == t;
  }

  lemma KeepOne(plan: Plan, fds: Table, kept: seq<nat>, r: nat)
    requires Leftover(plan, fds, Core(plan), kept) && r !in fds
    ensures Leftover(plan, fds[r := ReadEnd(plan.made + |kept|)], Core(plan), kept + [r])
  {
    hide Core;
    var k := kept + [r];
    forall fd ensures fd in fds[r := ReadEnd(plan.made + |kept|)] <==> fd in Core(plan) || fd in k {
      assert fd in k <==> fd in kept || fd == r;
    }
    var more := fds[r := ReadEnd(plan.made + |kept|)];
    forall i | 0 <= i < |k| ensures k[i] !in Core(plan) && k[i] in more && more[k[i]] == ReadEnd(plan.made + i) {
      assert i < |kept| ==> k[i] == kept[i];
    }
  }

  lemma DropLast(plan: Plan, fds: Table, kept: seq<nat>)
    requires Leftover(plan, fds, Core(plan), kept) && kept != []
    ensures Leftover(plan, fds - {kept[|kept| - 1]}, Core(plan), kept[..|kept| - 1])
  {
    hide Core;
    var n, k := |kept| - 1, kept[..|kept| - 1];
    forall fd ensures fd in fds - {kept[n]} <==> fd in Core(plan) || fd in k {
      if fd in kept && fd != kept[n] {
        var i :| 0 <= i < |kept| && kept[i] == fd;
        assert k[i] == fd;
      }
      if fd in k {
        var i :| 0 <= i < |k| && k[i] == fd;
        assert fds[kept[i]] == ReadEnd(plan.made + i);
      }
    }
  }

  lemma CoreStandard(plan: Plan)
    requires Ready(plan)
    ensures Wired(Core(plan), plan.fds[0], plan.fds[1], plan.fds[2])
    ensures plan.out.ToNumber? || plan.out.ToUser? ==>
      plan.out.fd > 2 && plan.out.fd in Core(plan) && Core(plan)[plan.out.fd] == plan.fds[plan.out.fd]
  {
    ConsumedApart(plan);
    if plan.out.ToNumber? || plan.out.ToUser? {
      OutOpen(plan);
      NotARead(plan);
    }
  }

  lemma NotARead(plan: Plan)
    requires Ready(plan) && (plan.out.ToNumber? || plan.out.ToUser?)
    ensures plan.out.fd !in ReadOf(Due(plan)) && plan.out.fd !in ReadOf(plan.user)
  {
    OutOpen(plan);
    PlanConsumes(plan);
  }

  // ---------- The execution loop ----------

  /** What the loop promises once all stages are done. A line has `n` external stages;
      when the last stage is one of them it has its own output and the parent keeps
      n - 1 read ends, or n - 2 when that output is a file, a number pipe or a user
      pipe; when it is a builtin the parent keeps all n. */
  ghost predicate Finished(plan: Plan, kinds: seq<Kind>, children: seq<Table>, fds: Table, vec: seq<Entry>, kept: seq<nat>)
    requires Ready(plan) && kinds != []
  {
    var n := |children|;
    && Wiring(plan, kinds, children)
    && if !kinds[|kinds| - 1].External? then
         |kept| == n &&
         (if n == 0 then fds == plan.fds && vec == plan.vec else vec == VecAfter(plan) && Leftover(plan, fds, Core(plan), kept))
       else
         && vec == VecAfter(plan)
         && |kept| == (if plan.out.ToTerminal? || n == 1 then n - 1 else n - 2)
         && Leftover(plan, fds, if !plan.out.ToTerminal? && n == 1 && |kinds| > 1 then Core(plan) - {0} else Core(plan), kept)
  }

  /** The children of a line that ran to its end. */
  ghost predicate Wiring(plan: Plan, kinds: seq<Kind>, children: seq<Table>)
    requires Ready(plan) && kinds != []
  {
    var n := |children|;
    if !kinds[|kinds| - 1].External? then ChildrenWired(plan, children)
    else n > 0 && ChildrenWired(plan, children[..n - 1]) && Wired(children[n - 1], StdinOf(plan, n - 1), LastOut(plan), LastErr(plan))
  }

  function Externals(kinds: seq<Kind>): nat {
    if kinds == [] then 0 else (if kinds[0].External? then 1 else 0) + Externals(kinds[1..])
  }

  lemma {:induction false} ExternalsMore(kinds: seq<Kind>, k: Kind)
    ensures Externals(kinds + [k]) == Externals(kinds) + if k.External? then 1 else 0
  {
    if kinds != [] {
      assert (kinds + [k])[1..] == kinds[1..] + [k];
      ExternalsMore(kinds[1..], k);
    }
  }

  /** The stages before the first `exit`. */
  function Reached(kinds: seq<Kind>): seq<Kind> {
    if kinds == [] || kinds[0].Quit? then [] else [kinds[0]] + Reached(kinds[1..])
  }

  lemma {:induction false} ReachedIs(kinds: seq<Kind>, n: nat)
    requires n <= |kinds| && Quit !in kinds[..n] && (n == |kinds| || kinds[n].Quit?)
    ensures Reached(kinds) == kinds[..n]
  {
    if n > 0 {
      assert kinds[..n][0] == kinds[0];
      assert kinds[..n] == [kinds[0]] + kinds[1..n];
      assert kinds[1..][..n - 1] == kinds[1..n];
      ReachedIs(kinds[1..], n - 1);
    }
  }

  /** The readers of the line's own inputs cannot keep them from ending. */
  predicate FirstCannotWrite(plan: Plan, children: seq<Table>) {
    children != [] ==> CannotWrite(children[0], Due(plan)) && CannotWrite(children[0], plan.user)
  }

  /** The loop's variables; `kept` lists the read ends that the parent still holds. */
  datatype Loop = Loop(fds: Table, made: nat, vec: seq<Entry>, fdIn: nat, due: bool, user: Option<Ends>,
                       children: seq<Table>, kept: seq<nat>)

  /** What holds whenever a stage starts. */
  ghost predicate Starts(plan: Plan, s: Loop) {
    && Ready(plan) && Between(plan, s.fds, s.made, s.vec, s.fdIn, s.kept)
    && |s.kept| == |s.children| && ChildrenWired(plan, s.children) && FirstCannotWrite(plan, s.children)
    && (if s.children == [] then s.due == Has(plan.vec, 0) && s.user == plan.user else !s.due && s.user == None)
  }

  /** The table that a stage forks. */
  function Forked(s: Loop, many: bool, r: nat, w: nat): Table {
    AtFork(WithPipe(s.fds, many, r, w, s.made), s.vec, s.user)
  }

  function VecNext(s: Loop): seq<Entry> {
    if s.due then Alive(s.vec) else s.vec
  }

  predicate NewEnds(s: Loop, r: nat, w: nat) {
    r !in s.fds && w !in s.fds && r != w
  }

  /** What the fork of a stage sees. */
  predicate ForkSees(plan: Plan, s: Loop, many: bool, r: nat, w: nat)
    requires Ready(plan)
  {
    var f := Forked(s, many, r, w);
    && Wired(f, plan.fds[0], plan.fds[1], plan.fds[2])
    && Reads(f, s.vec, s.due, s.user, s.fdIn, StdinOf(plan, |s.children|))
    && (s.children == [] ==> CannotWrite(f, Due(plan)) && CannotWrite(f, plan.user))
    && (many ==> w in f && f[w] == WriteEnd(s.made) && r > 2 && w > 2 && s.fdIn != r)
    && (s.children == [] ==> s.fdIn == 0)
  }

  lemma LaterStageFork(plan: Plan, s: Loop, many: bool, r: nat, w: nat)
    requires Starts(plan, s) && (many ==> NewEnds(s, r, w)) && s.children != []
    ensures ForkSees(plan, s, many, r, w)
  {
    LaterFork(plan, WithPipe(s.fds, many, r, w, s.made));
    CoreStandard(plan);
    hide Core, AtFork, ChildrenWired, FirstCannotWrite, VecAfter, Has;
    assert Forked(s, many, r, w) == WithPipe(s.fds, many, r, w, s.made);
    hide Forked;
    assert 0 in plan.fds && 1 in plan.fds && 2 in plan.fds;
    hide Ready;
    assert s.fdIn == s.kept[|s.kept| - 1];
  }

  /** In both cases, first external stage or not. */
  lemma StageFork(plan: Plan, s: Loop, many: bool, r: nat, w: nat)
    requires Starts(plan, s) && (many ==> NewEnds(s, r, w))
    ensures ForkSees(plan, s, many, r, w)
  {
    if s.children == [] {
      FirstFork(plan, many, r, w);
      hide Ready, AtFork, Wired, Reads, CannotWrite, Source, Due, ChildrenWired, FirstCannotWrite;
    } else {
      LaterStageFork(plan, s, many, r, w);
    }
  }

  lemma StageOut(plan: Plan, s: Loop)
    requires Starts(plan, s) && (plan.out.ToNumber? || plan.out.ToUser?)
    ensures
      var f := AtFork(s.fds, s.vec, s.user);
      plan.out.fd > 2 && plan.out.fd in f && f[plan.out.fd] == plan.fds[plan.out.fd]
  {
    if s.children == [] {
      OutOpen(plan);
      DueSets(plan);
    } else {
      LaterFork(plan, s.fds);
      CoreStandard(plan);
    }
  }

  lemma StageParent(plan: Plan, s: Loop, r: nat, w: nat)
    requires Starts(plan, s) && NewEnds(s, r, w)
    ensures
      var f := Forked(s, true, r, w);
      && Leftover(plan, Settled(f - {w}, s.vec, s.due, s.user), Core(plan), s.kept + [r])
      && Leftover(plan, Settled(f - {w} - {r}, s.vec, s.due, s.user), Core(plan), s.kept)
      && VecNext(s) == VecAfter(plan)
  {
    hide Ready, Core, Has, Alive, AtFork, Settled, ChildrenWired, FirstCannotWrite, Leftover;
    if s.children == [] {
      FirstParent(plan, r, w);
      NothingLeft(plan, Core(plan));
      CoreWithin(plan);
      KeepOne(plan, Core(plan), s.kept, r);
    } else {
      var f := WithPipe(s.fds, true, r, w, s.made);
      LaterFork(plan, f);
      assert f - {w} == s.fds[r := ReadEnd(s.made)] && f - {w} - {r} == s.fds;
      LaterFork(plan, f - {w});
      LaterFork(plan, s.fds);
      KeepOne(plan, s.fds, s.kept, r);
    }
  }

  lemma NothingLeft(plan: Plan, core: Table)
    ensures Leftover(plan, core, core, [])
  {
  }

  lemma CoreWithin(plan: Plan)
    ensures forall fd :: fd in Core(plan) ==> fd in plan.fds
  {
  }

  /** The parent without a new pipe: after a lone stage, and after a last stage that
      has its own output, which closes what it read. */
  lemma StageEndParent(plan: Plan, s: Loop, many: bool)
    requires Starts(plan, s)
    ensures VecNext(s) == VecAfter(plan)
    ensures
      var t := Settled(AtFork(s.fds, s.vec, s.user) - (if many then {s.fdIn} else {}), s.vec, s.due, s.user);
      if s.kept == [] then t == if many then Core(plan) - {0} else Core(plan)
      else many ==> Leftover(plan, t, Core(plan), s.kept[..|s.kept| - 1])
  {
    hide Ready, Core, Has, Alive, AtFork, Settled, ChildrenWired, FirstCannotWrite, Leftover;
    if s.children == [] {
      LoneParent(plan);
      assert AtFork(s.fds, s.vec, s.user) - {} == AtFork(s.fds, s.vec, s.user);
    } else {
      LaterFork(plan, s.fds);
      LaterFork(plan, s.fds - {s.fdIn});
      DropLast(plan, s.fds, s.kept);
    }
  }

  /** Whatever a stage is going to close is open. */
  lemma StageCloses(plan: Plan, s: Loop)
    requires Starts(plan, s)
    ensures Closable(s.fds, s.vec, s.user) && Unconsumed(s.fds, s.vec, s.user, s.fdIn)
  {
    DueSets(plan);
    if s.children == [] {
      FirstCloses(plan);
    } else {
      hide DueOut, DueIn, Has, Core, Ready, ChildrenWired, FirstCannotWrite;
      AliveDistinct(plan.vec);
      ReadyDistinct(plan);
    }
  }

  lemma ReadyDistinct(plan: Plan)
    requires Ready(plan)
    ensures Distinct(plan.vec)
  {
  }

  lemma FirstCloses(plan: Plan)
    requires Ready(plan)
    ensures Closable(plan.fds, plan.vec, plan.user) && Unconsumed(plan.fds, plan.vec, plan.user, 0)
  {
    DueSets(plan);
    ConsumedApart(plan);
    ReadyDistinct(plan);
    ConsumedEnds(plan);
    hide DueOut, DueIn, Has, Ready, Due;
  }

  lemma ConsumedEnds(plan: Plan)
    requires Ready(plan)
    ensures 0 in plan.fds
    ensures forall e :: e == Due(plan) || e == plan.user ==> e.Some? ==> e.value.r != e.value.w
  {
    ConsumedApart(plan);
  }

  // ---------- From stage to stage ----------

  lemma WiredMore(plan: Plan, children: seq<Table>, child: Table)
    requires Ready(plan) && ChildrenWired(plan, children)
    requires Wired(child, StdinOf(plan, |children|), WriteEnd(plan.made + |children|), plan.fds[2])
    ensures ChildrenWired(plan, children + [child])
  {
    assert 2 in plan.fds;
    hide Ready, Wired, StdinOf;
    var all := children + [child];
    forall i | 0 <= i < |all| ensures Wired(all[i], StdinOf(plan, i), WriteEnd(plan.made + i), plan.fds[2]) {
      assert i < |children| ==> all[i] == children[i];
    }
  }

  /** What a child of the forked table is wired to, and that the first one cannot keep
      the line's own inputs from ending. */
  lemma PlainStage(plan: Plan, s: Loop, many: bool, last: bool, r: nat, w: nat)
    requires Starts(plan, s) && if many then NewEnds(s, r, w) else s.children == []
    ensures
      var child := PlainChild(Forked(s, many, r, w), s.vec, s.due, s.user, s.fdIn, many, last, r, w);
      && Wired(child, StdinOf(plan, |s.children|), if many && !last then WriteEnd(s.made) else plan.fds[1], plan.fds[2])
      && FirstCannotWrite(plan, s.children + [child])
  {
    StageFork(plan, s, many, r, w);
    hide Ready, Due, StdinOf, PlainChild, CannotWrite, Forked, Reads, Between, ChildrenWired;
    var f := Forked(s, many, r, w);
    PlainChildWired(f, s.vec, s.due, s.user, s.fdIn, many, last, r, w, StdinOf(plan, |s.children|));
    if s.children == [] {
      PlainChildFiles(f, s.vec, s.due, s.user, s.fdIn, many, last, r, w, Due(plan));
      PlainChildFiles(f, s.vec, s.due, s.user, s.fdIn, many, last, r, w, plan.user);
    }
  }

  lemma EndStage(plan: Plan, s: Loop)
    requires Starts(plan, s) && !plan.out.ToTerminal?
    ensures
      var child := EndChild(AtFork(s.fds, s.vec, s.user), s.vec, s.due, s.user, s.fdIn, plan.out);
      Wired(child, StdinOf(plan, |s.children|), LastOut(plan), LastErr(plan)) && FirstCannotWrite(plan, s.children + [child])
  {
    var f := AtFork(s.fds, s.vec, s.user);
    StageFork(plan, s, false, 0, 0);
    assert Forked(s, false, 0, 0) == f;
    if !plan.out.ToFile? {
      StageOut(plan, s);
    }
    hide Ready, Due, StdinOf, EndChild, CannotWrite, Forked, Reads, Between, ChildrenWired, AtFork;
    EndChildWired(f, s.vec, s.due, s.user, s.fdIn, plan.out, StdinOf(plan, |s.children|));
    if s.children == [] {
      EndChildFiles(f, s.vec, s.due, s.user, s.fdIn, plan.out, Due(plan));
      EndChildFiles(f, s.vec, s.due, s.user, s.fdIn, plan.out, plan.user);
    }
  }

  /** An external stage that is not the last one. */
  lemma AfterPlain(plan: Plan, s: Loop, r: nat, w: nat)
    requires Starts(plan, s) && NewEnds(s, r, w)
    ensures
      var f := Forked(s, true, r, w);
      Starts(plan, Loop(Settled(f - {w}, s.vec, s.due, s.user), s.made + 1, VecNext(s), r, false, None,
                        s.children + [PlainChild(f, s.vec, s.due, s.user, s.fdIn, true, false, r, w)], s.kept + [r]))
  {
    hide Ready, Core, VecAfter, VecNext, Due, Leftover, Settled, PlainChild, Has, Forked, Wired, StdinOf,
      ChildrenWired, FirstCannotWrite;
    var child := PlainChild(Forked(s, true, r, w), s.vec, s.due, s.user, s.fdIn, true, false, r, w);
    PlainStage(plan, s, true, false, r, w);
    StageParent(plan, s, r, w);
    WiredMore(plan, s.children, child);
  }

  // ---------- What else the children have open ----------

  /** What the parent has open when it forks the `i`-th external stage, `f`: what it keeps
      in the end, the inputs if nobody has read them yet, read ends of the line's pipes up
      to this one, and this one's write end. */
  ghost predicate ForksFrom(plan: Plan, i: nat, f: Table) {
    && (forall fd :: fd in Core(plan) ==> fd in f && f[fd] == Core(plan)[fd])
    && (forall fd :: fd in f && fd !in Core(plan) ==>
          || (i == 0 && fd in ReadOf(Due(plan)) + ReadOf(plan.user) && fd in plan.fds && f[fd] == plan.fds[fd])
          || (f[fd].ReadEnd? && plan.made <= f[fd].pipe <= plan.made + i)
          || f[fd] == WriteEnd(plan.made + i))
  }

  /** A child that was forked from `f`, with standard input `stdin`: apart from the three
      standard descriptors and the file that its output goes to, it has open exactly what
      the parent had, less the read end of the pipe that it writes; and nothing that could
      write the pipe that it reads. */
  ghost predicate Sealed(f: Table, c: Table, own: nat, stdin: File, out: Out) {
    && (forall fd :: fd in c ==> c[fd] != ReadEnd(own))
    && (stdin.ReadEnd? ==> forall fd :: fd in c ==> c[fd] != WriteEnd(stdin.pipe))
    && (forall fd: nat :: fd > 2 && fd in f && f[fd] != ReadEnd(own) ==> fd in c && c[fd] == f[fd])
    && (forall fd: nat :: fd > 2 && fd in c ==> (fd in f && c[fd] == f[fd]) || (out.ToFile? && c[fd] == Disk(out.name)))
  }

  ghost predicate ChildrenSealed(plan: Plan, forks: seq<Table>, children: seq<Table>)
    requires Ready(plan)
  {
    && |forks| == |children|
    && forall i :: 0 <= i < |children| ==>
         ForksFrom(plan, i, forks[i]) && Sealed(forks[i], children[i], plan.made + i, StdinOf(plan, i), plan.out)
  }

  lemma NoneSealed(plan: Plan)
    requires Ready(plan)
    ensures ChildrenSealed(plan, [], [])
  {
  }

  lemma SealedNext(plan: Plan, s: Loop, forks: seq<Table>, f: Table, c: Table)
    requires Starts(plan, s) && ChildrenSealed(plan, forks, s.children)
    requires ForksFrom(plan, |s.children|, f) && Sealed(f, c, s.made, StdinOf(plan, |s.children|), plan.out)
    ensures ChildrenSealed(plan, forks + [f], s.children + [c])
  {
    hide *;
    StartsReady(plan, s);
    SealedMore(plan, forks, s.children, f, c);
  }

  lemma SealedMore(plan: Plan, forks: seq<Table>, children: seq<Table>, f: Table, c: Table)
    requires Ready(plan) && ChildrenSealed(plan, forks, children)
    requires ForksFrom(plan, |children|, f) && Sealed(f, c, plan.made + |children|, StdinOf(plan, |children|), plan.out)
    ensures ChildrenSealed(plan, forks + [f], children + [c])
  {
    hide Ready, ForksFrom, Sealed, StdinOf;
    var fs, cs := forks + [f], children + [c];
    forall i | 0 <= i < |cs|
      ensures ForksFrom(plan, i, fs[i]) && Sealed(fs[i], cs[i], plan.made + i, StdinOf(plan, i), plan.out)
    {
      if i < |children| {
        assert fs[i] == forks[i] && cs[i] == children[i];
      }
    }
  }

  lemma PlainChildKeeps(f: Table, vec: seq<Entry>, due: bool, user: Option<Ends>, fdIn: nat, many: bool, last: bool, r: nat, w: nat)
    ensures
      var c := PlainChild(f, vec, due, user, fdIn, many, last, r, w);
      && (forall fd: nat :: fd > 2 ==> (fd in c <==> fd in f && !(many && fd == r)))
      && (forall fd: nat :: fd > 2 && fd in c ==> c[fd] == f[fd])
  {
  }

  lemma EndChildKeeps(f: Table, vec: seq<Entry>, due: bool, user: Option<Ends>, fdIn: nat, out: Out)
    ensures
      var c := EndChild(f, vec, due, user, fdIn, out);
      && (forall fd: nat :: fd > 2 && fd in f ==> fd in c && c[fd] == f[fd])
      && (forall fd: nat :: fd > 2 && fd in c ==> (fd in f && c[fd] == f[fd]) || (out.ToFile? && c[fd] == Disk(out.name)))
  {
  }

  /** The pipes that are open when a stage starts. */
  lemma StagePipes(plan: Plan, s: Loop)
    requires Starts(plan, s)
    ensures forall fd :: fd in s.fds && IsPipe(s.fds[fd]) ==> s.fds[fd].pipe < s.made
    ensures s.children != [] ==> forall fd :: fd in s.fds ==> s.fds[fd] != WriteEnd(s.made - 1)
    ensures s.made == plan.made + |s.children|
  {
    if s.children != [] {
      CorePipes(plan);
      hide Ready, Core, ChildrenWired, FirstCannotWrite, VecAfter;
      forall fd | fd in s.fds && fd !in Core(plan)
        ensures s.fds[fd].ReadEnd? && plan.made <= s.fds[fd].pipe < s.made
      {
        var i :| 0 <= i < |s.kept| && s.kept[i] == fd;
      }
    } else {
      ReadyPipes(plan);
    }
  }

  lemma ReadyPipes(plan: Plan)
    requires Ready(plan)
    ensures forall fd :: fd in plan.fds && IsPipe(plan.fds[fd]) ==> plan.fds[fd].pipe < plan.made
  {
  }

  /** The table of a fork, seen from the pipes. */
  ghost predicate ForkPipes(plan: Plan, s: Loop, many: bool, r: nat, f: Table)
    requires Ready(plan)
  {
    var stdin := StdinOf(plan, |s.children|);
    && ForksFrom(plan, |s.children|, f)
    && (forall fd :: fd in f && f[fd] == ReadEnd(s.made) ==> many && fd == r)
    && (stdin.ReadEnd? ==> stdin.pipe < s.made && forall fd :: fd in f ==> f[fd] != WriteEnd(stdin.pipe))
  }

  lemma ForkTablePipes(t: Table, made: nat, d: Option<Ends>, u: Option<Ends>, many: bool, r: nat, w: nat)
    requires (many ==> r !in t && w !in t && r != w) && forall fd :: fd in t && IsPipe(t[fd]) ==> t[fd].pipe < made
    ensures
      var f, core := WithPipe(t, many, r, w, made) - WriteOf(d) - WriteOf(u), t - Both(d) - Both(u);
      && (forall fd :: fd in core ==> fd in f && f[fd] == core[fd])
      && (forall fd :: fd in f && fd !in core ==>
            (fd in ReadOf(d) + ReadOf(u) && fd in t && f[fd] == t[fd]) || f[fd] == ReadEnd(made) || f[fd] == WriteEnd(made))
      && (forall fd :: fd in f && f[fd] == ReadEnd(made) ==> many && fd == r)
  {
  }

  lemma FirstForkPipes(plan: Plan, many: bool, r: nat, w: nat)
    requires Ready(plan) && (many ==> r !in plan.fds && w !in plan.fds && r != w)
    ensures
      var f := AtFork(WithPipe(plan.fds, many, r, w, plan.made), plan.vec, plan.user);
      && ForksFrom(plan, 0, f)
      && (forall fd :: fd in f && f[fd] == ReadEnd(plan.made) ==> many && fd == r)
  {
    DueSets(plan);
    ReadyPipes(plan);
    hide Ready, DueOut, DueIn, Due, Has, WithPipe, WriteOf, ReadOf, Both;
    ForkTablePipes(plan.fds, plan.made, Due(plan), plan.user, many, r, w);
  }

  lemma SourcePipe(plan: Plan, f: Table)
    requires Ready(plan) && CannotWrite(f, Due(plan)) && CannotWrite(f, plan.user)
    ensures
      var stdin := Source(plan);
      stdin.ReadEnd? ==> stdin.pipe < plan.made && forall fd :: fd in f ==> f[fd] != WriteEnd(stdin.pipe)
  {
    ReadyPipes(plan);
    ReadyLow(plan);
    ConsumedApart(plan);
  }

  lemma FirstStagePipes(plan: Plan, s: Loop, many: bool, r: nat, w: nat)
    requires Starts(plan, s) && (many ==> NewEnds(s, r, w)) && s.children == []
    ensures ForkPipes(plan, s, many, r, Forked(s, many, r, w))
  {
    FirstForkPipes(plan, many, r, w);
    FirstFork(plan, many, r, w);
    SourcePipe(plan, Forked(s, many, r, w));
    hide Ready, AtFork, WithPipe, ForksFrom, CannotWrite, Wired, Reads, Source, ChildrenWired, FirstCannotWrite, Has;
  }

  /** What the parent has between two stages. */
  lemma LaterParent(plan: Plan, s: Loop)
    requires Starts(plan, s) && s.children != []
    ensures forall fd :: fd in Core(plan) ==> fd in s.fds && s.fds[fd] == Core(plan)[fd]
    ensures forall fd :: fd in s.fds && fd !in Core(plan) ==> s.fds[fd].ReadEnd? && plan.made <= s.fds[fd].pipe < s.made
    ensures StdinOf(plan, |s.children|) == ReadEnd(s.made - 1) && s.made == plan.made + |s.children|
  {
    hide ChildrenWired, FirstCannotWrite, Core, VecAfter, Has;
    forall fd | fd in s.fds && fd !in Core(plan) ensures s.fds[fd].ReadEnd? && plan.made <= s.fds[fd].pipe < s.made {
      var i :| 0 <= i < |s.kept| && s.kept[i] == fd;
    }
    hide Ready;
  }

  lemma LaterForked(plan: Plan, s: Loop, many: bool, r: nat, w: nat)
    requires Starts(plan, s) && s.children != []
    ensures Forked(s, many, r, w) == WithPipe(s.fds, many, r, w, s.made)
  {
    LaterFork(plan, WithPipe(s.fds, many, r, w, s.made));
    hide Ready, Core, AtFork, ChildrenWired, FirstCannotWrite, WithPipe;
  }

  lemma LaterStagePipes(plan: Plan, s: Loop, many: bool, r: nat, w: nat)
    requires Starts(plan, s) && (many ==> NewEnds(s, r, w)) && s.children != []
    ensures ForkPipes(plan, s, many, r, Forked(s, many, r, w))
  {
    StartsReady(plan, s);
    StagePipes(plan, s);
    LaterParent(plan, s);
    LaterForked(plan, s, many, r, w);
    hide Starts, Ready, Core, StdinOf, Forked, ReadOf, Due, AtFork;
    LaterPipes(plan, s, many, r, w, WithPipe(s.fds, many, r, w, s.made));
  }

  lemma LaterPipes(plan: Plan, s: Loop, many: bool, r: nat, w: nat, f: Table)
    requires Ready(plan) && (many ==> NewEnds(s, r, w)) && f == WithPipe(s.fds, many, r, w, s.made)
    requires s.children != [] && s.made == plan.made + |s.children| && StdinOf(plan, |s.children|) == ReadEnd(s.made - 1)
    requires forall fd :: fd in Core(plan) ==> fd in s.fds && s.fds[fd] == Core(plan)[fd]
    requires forall fd :: fd in s.fds && fd !in Core(plan) ==> s.fds[fd].ReadEnd? && plan.made <= s.fds[fd].pipe < s.made
    requires forall fd :: fd in s.fds && IsPipe(s.fds[fd]) ==> s.fds[fd].pipe < s.made
    requires forall fd :: fd in s.fds ==> s.fds[fd] != WriteEnd(s.made - 1)
    ensures ForkPipes(plan, s, many, r, f)
  {
    hide Ready, Core, StdinOf, ReadOf, Due;
  }

  lemma StageForkPipes(plan: Plan, s: Loop, many: bool, r: nat, w: nat)
    requires Starts(plan, s) && (many ==> NewEnds(s, r, w))
    ensures ForkPipes(plan, s, many, r, Forked(s, many, r, w))
  {
    hide *;
    if s.children == [] {
      FirstStagePipes(plan, s, many, r, w);
    } else {
      LaterStagePipes(plan, s, many, r, w);
    }
  }

  /** The standard descriptors of a child cannot hold its own read end, nor write what it
      reads. */
  lemma StandardSealed(plan: Plan, s: Loop, c: Table, stdout: File, stderr: File)
    requires Ready(plan) && Wired(c, StdinOf(plan, |s.children|), stdout, stderr) && s.made == plan.made + |s.children|
    requires (stdout == WriteEnd(s.made) || stdout == plan.fds[1] || stdout == LastOut(plan)) && (stderr == plan.fds[2] || stderr == LastErr(plan))
    ensures
      var stdin := StdinOf(plan, |s.children|);
      forall fd :: fd in c && fd <= 2 ==> c[fd] != ReadEnd(s.made) && (stdin.ReadEnd? ==> c[fd] != WriteEnd(stdin.pipe))
  {
    ReadyPipes(plan);
    ReadyLow(plan);
    LastOutPipe(plan);
    SourceIs(plan);
    hide Ready, LastErr, Source, Due;
  }

  lemma SourceIs(plan: Plan)
    requires Ready(plan)
    ensures !IsPipe(Source(plan)) || (Source(plan).ReadEnd? && Source(plan).pipe < plan.made)
  {
    ConsumedApart(plan);
  }

  /** Where the output goes is no pipe that the line reads, nor one that it makes. */
  lemma LastOutPipe(plan: Plan)
    requires Ready(plan)
    ensures !LastOut(plan).ReadEnd? && (LastOut(plan).WriteEnd? ==> LastOut(plan).pipe < plan.made)
    ensures Source(plan).ReadEnd? && LastOut(plan).WriteEnd? ==> LastOut(plan).pipe != Source(plan).pipe
    ensures LastErr(plan) == plan.fds[2] || LastErr(plan) == LastOut(plan)
    ensures !IsPipe(plan.fds[1]) && !IsPipe(plan.fds[2])
  {
    if plan.out.ToNumber? || plan.out.ToUser? {
      OutOpen(plan);
    }
  }

  /** A child that keeps its table above the standard descriptors, less its read end. */
  lemma SealedWhen(f: Table, c: Table, own: nat, stdin: File, out: Out, gone: set<nat>)
    requires forall fd: nat :: fd > 2 && fd in f && fd !in gone ==> fd in c && c[fd] == f[fd]
    requires forall fd: nat :: fd > 2 && fd in c ==> (fd in f && fd !in gone && c[fd] == f[fd]) || (out.ToFile? && c[fd] == Disk(out.name))
    requires forall fd :: fd in f ==> (f[fd] == ReadEnd(own) <==> fd in gone)
    requires stdin.ReadEnd? ==> forall fd :: fd in f ==> f[fd] != WriteEnd(stdin.pipe)
    requires forall fd :: fd in c && fd <= 2 ==> c[fd] != ReadEnd(own) && (stdin.ReadEnd? ==> c[fd] != WriteEnd(stdin.pipe))
    ensures Sealed(f, c, own, stdin, out)
  {
  }

  lemma OwnRead(plan: Plan, s: Loop, many: bool, r: nat, w: nat)
    requires Starts(plan, s) && (many ==> NewEnds(s, r, w))
    ensures
      var f := Forked(s, many, r, w);
      forall fd :: fd in f ==> (f[fd] == ReadEnd(s.made) <==> fd in if many then {r} else {})
  {
    StageForkPipes(plan, s, many, r, w);
    StageOwn(plan, s, many, r, w);
    hide Starts, ForksFrom, StdinOf;
  }

  lemma StageOwn(plan: Plan, s: Loop, many: bool, r: nat, w: nat)
    requires Starts(plan, s) && (many ==> NewEnds(s, r, w))
    ensures many && r in Forked(s, many, r, w) ==> Forked(s, many, r, w)[r] == ReadEnd(s.made)
  {
    hide Starts, DueOut;
  }

  /** Both kinds of children. */
  lemma PlainSealed(plan: Plan, s: Loop, many: bool, last: bool, r: nat, w: nat)
    requires Starts(plan, s) && if many then NewEnds(s, r, w) else s.children == []
    ensures
      var f := Forked(s, many, r, w);
      var c := PlainChild(f, s.vec, s.due, s.user, s.fdIn, many, last, r, w);
      ForksFrom(plan, |s.children|, f) && Sealed(f, c, s.made, StdinOf(plan, |s.children|), plan.out)
  {
    StartsReady(plan, s);
    hide *;
    var f := Forked(s, many, r, w);
    var c := PlainChild(f, s.vec, s.due, s.user, s.fdIn, many, last, r, w);
    var stdin := StdinOf(plan, |s.children|);
    StageForkPipes(plan, s, many, r, w);
    PlainStage(plan, s, many, last, r, w);
    PlainChildKeeps(f, s.vec, s.due, s.user, s.fdIn, many, last, r, w);
    StandardSealed(plan, s, c, if many && !last then WriteEnd(s.made) else plan.fds[1], plan.fds[2]);
    OwnRead(plan, s, many, r, w);
    ForkPipesMeans(plan, s, many, r, f);
    SealedWhen(f, c, s.made, stdin, plan.out, if many then {r} else {});
  }

  lemma EndSealed(plan: Plan, s: Loop)
    requires Starts(plan, s) && !plan.out.ToTerminal?
    ensures
      var f := AtFork(s.fds, s.vec, s.user);
      var c := EndChild(f, s.vec, s.due, s.user, s.fdIn, plan.out);
      ForksFrom(plan, |s.children|, f) && Sealed(f, c, s.made, StdinOf(plan, |s.children|), plan.out)
  {
    StartsReady(plan, s);
    LoneForked(s, 0, 0);
    hide *;
    var f := AtFork(s.fds, s.vec, s.user);
    var c := EndChild(f, s.vec, s.due, s.user, s.fdIn, plan.out);
    StageForkPipes(plan, s, false, 0, 0);
    EndStage(plan, s);
    EndChildKeeps(f, s.vec, s.due, s.user, s.fdIn, plan.out);
    StandardSealed(plan, s, c, LastOut(plan), LastErr(plan));
    OwnRead(plan, s, false, 0, 0);
    ForkPipesMeans(plan, s, false, 0, f);
    SealedWhen(f, c, s.made, StdinOf(plan, |s.children|), plan.out, {});
  }

  lemma StartsReady(plan: Plan, s: Loop)
    requires Starts(plan, s)
    ensures Ready(plan) && 0 in plan.fds && 1 in plan.fds && 2 in plan.fds && s.made == plan.made + |s.children|
  {
    StagePipes(plan, s);
    ReadyLow(plan);
    hide Ready;
  }

  lemma ForkPipesMeans(plan: Plan, s: Loop, many: bool, r: nat, f: Table)
    requires Ready(plan) && ForkPipes(plan, s, many, r, f)
    ensures ForksFrom(plan, |s.children|, f)
    ensures StdinOf(plan, |s.children|).ReadEnd? ==> forall fd :: fd in f ==> f[fd] != WriteEnd(StdinOf(plan, |s.children|).pipe)
  {
    hide Ready, ForksFrom, StdinOf;
  }

  lemma LastWired(plan: Plan, kinds: seq<Kind>, children: seq<Table>, child: Table)
    requires Ready(plan) && kinds != [] && kinds[|kinds| - 1].External? && ChildrenWired(plan, children)
    requires Wired(child, StdinOf(plan, |children|), LastOut(plan), LastErr(plan))
    ensures Wiring(plan, kinds, children + [child])
  {
    hide Ready, Wired, StdinOf, LastOut, LastErr, ChildrenWired;
    assert (children + [child])[..|children|] == children;
  }

  /** A last external stage that writes to the terminal, alone on its line or not. */
  lemma AfterPlainLast(plan: Plan, kinds: seq<Kind>, s: Loop, r: nat, w: nat)
    requires Starts(plan, s) && kinds != [] && kinds[|kinds| - 1].External? && plan.out.ToTerminal?
    requires if |kinds| != 1 then NewEnds(s, r, w) else s.children == []
    ensures
      var many := |kinds| != 1;
      var f := Forked(s, many, r, w);
      var t := Settled(f - (if many then {w} else {}) - (if many then {r} else {}), s.vec, s.due, s.user);
      var children := s.children + [PlainChild(f, s.vec, s.due, s.user, s.fdIn, many, true, r, w)];
      Finished(plan, kinds, children, t, VecNext(s), s.kept) && FirstCannotWrite(plan, children)
  {
    var n, many := |s.children|, |kinds| != 1;
    PlainStage(plan, s, many, true, r, w);
    hide Ready, Core, VecAfter, VecNext, Due, Leftover, Settled, PlainChild, Has, Wired, StdinOf, ChildrenWired,
      FirstCannotWrite, AtFork, Forked;
    var f := Forked(s, many, r, w);
    LastWired(plan, kinds, s.children, PlainChild(f, s.vec, s.due, s.user, s.fdIn, many, true, r, w));
    hide Wiring, NewEnds;
    if many {
      StageParent(plan, s, r, w);
    } else {
      LoneForked(s, r, w);
      StageEndParent(plan, s, false);
      NothingLeft(plan, Core(plan));
      assert f - {} - {} == f - {};
    }
  }

  lemma LoneForked(s: Loop, r: nat, w: nat)
    ensures Forked(s, false, r, w) == AtFork(s.fds, s.vec, s.user)
  {
  }

  /** A last external stage that writes to a file, a number pipe or a user pipe. */
  lemma AfterEnd(plan: Plan, kinds: seq<Kind>, s: Loop)
    requires Starts(plan, s) && kinds != [] && kinds[|kinds| - 1].External? && !plan.out.ToTerminal?
    requires |kinds| == 1 ==> s.children == []
    ensures
      var f := AtFork(s.fds, s.vec, s.user);
      var t := Settled(f - (if |kinds| != 1 then {s.fdIn} else {}), s.vec, s.due, s.user);
      var children := s.children + [EndChild(f, s.vec, s.due, s.user, s.fdIn, plan.out)];
      && Finished(plan, kinds, children, t, VecNext(s), if s.kept == [] then [] else s.kept[..|s.kept| - 1])
      && FirstCannotWrite(plan, children)
  {
    EndStage(plan, s);
    StageEndParent(plan, s, |kinds| != 1);
    NothingLeft(plan, Core(plan) - {0});
    NothingLeft(plan, Core(plan));
    hide Ready, Core, VecAfter, VecNext, Due, Leftover, Settled, EndChild, Has, Wired, StdinOf, LastOut, LastErr,
      ChildrenWired, FirstCannotWrite, AtFork;
    LastWired(plan, kinds, s.children, EndChild(AtFork(s.fds, s.vec, s.user), s.vec, s.due, s.user, s.fdIn, plan.out));
  }

  lemma StartsHasFirst(plan: Plan, s: Loop)
    requires Ready(plan) && s == Loop(plan.fds, plan.made, plan.vec, 0, Has(plan.vec, 0), plan.user, [], [])
    ensures Starts(plan, s)
  {
  }

  lemma EndsInBuiltin(plan: Plan, kinds: seq<Kind>, s: Loop)
    requires Starts(plan, s) && kinds != [] && !kinds[|kinds| - 1].External?
    ensures Finished(plan, kinds, s.children, s.fds, s.vec, s.kept)
  {
  }

  /** What a line can have done to the parent, seen from outside: it consumed its inputs
      if anything ran, and apart from them and descriptor 0 it only added read ends of
      its own pipes. */
  ghost predicate Outcome(plan: Plan, ran: nat, fds: Table, made: nat, vec: seq<Entry>) {
    && plan.made <= made
    && vec == (if ran == 0 then plan.vec else VecAfter(plan))
    && (ran == 0 ==> fds == plan.fds)
    && (forall fd :: fd in Core(plan) && fd != 0 ==> fd in fds && fds[fd] == Core(plan)[fd])
    && (forall fd :: fd in fds ==>
          (fd in plan.fds && fds[fd] == plan.fds[fd] && (ran != 0 ==> fd in Core(plan)))
          || (fds[fd].ReadEnd? && plan.made <= fds[fd].pipe < made))
    && NoLowPipes(fds)
  }

  /** No pipe sits on a standard descriptor. */
  predicate NoLowPipes(t: Table) {
    (0 in t ==> !IsPipe(t[0])) && (1 in t ==> !IsPipe(t[1])) && (2 in t ==> !IsPipe(t[2]))
  }

  lemma LeftoverLow(plan: Plan, fds: Table, core: Table, kept: seq<nat>)
    requires Ready(plan) && Leftover(plan, fds, core, kept) && (core == Core(plan) || (core == Core(plan) - {0} && kept == []))
    ensures NoLowPipes(fds)
  {
    CoreStandard(plan);
    ReadyLow(plan);
    hide Ready, Core;
  }

  lemma ReadyLow(plan: Plan)
    requires Ready(plan)
    ensures NoLowPipes(plan.fds) && 0 in plan.fds && 1 in plan.fds && 2 in plan.fds
  {
  }

  lemma LeftoverOutcome(plan: Plan, ran: nat, fds: Table, core: Table, made: nat, vec: seq<Entry>, kept: seq<nat>)
    requires Leftover(plan, fds, core, kept) && (core == Core(plan) || core == Core(plan) - {0}) && NoLowPipes(fds)
    requires plan.made + |kept| <= made && vec == VecAfter(plan) && ran != 0
    ensures Outcome(plan, ran, fds, made, vec)
  {
    hide Due, VecAfter, Both;
    forall fd | fd in fds && fd !in core ensures fds[fd].ReadEnd? && plan.made <= fds[fd].pipe < made {
      var i :| 0 <= i < |kept| && kept[i] == fd;
    }
  }

  lemma StoppedOutcome(plan: Plan, s: Loop)
    requires Starts(plan, s)
    ensures Outcome(plan, |s.children|, s.fds, s.made, s.vec) && s.made == plan.made + |s.kept|
  {
    ReadyLow(plan);
    if s.kept != [] {
      LeftoverLow(plan, s.fds, Core(plan), s.kept);
      LeftoverOutcome(plan, |s.children|, s.fds, Core(plan), s.made, s.vec, s.kept);
    }
  }

  lemma FinishedOutcome(plan: Plan, kinds: seq<Kind>, children: seq<Table>, fds: Table, made: nat, vec: seq<Entry>, kept: seq<nat>)
    requires Ready(plan) && kinds != [] && kinds[|kinds| - 1].External? && Finished(plan, kinds, children, fds, vec, kept)
    requires plan.made + |kept| <= made
    ensures Outcome(plan, |children|, fds, made, vec)
  {
    hide Ready, ChildrenWired, Core, Leftover, VecAfter, Wired, LastOut, LastErr;
    if !plan.out.ToTerminal? && |children| == 1 && |kinds| > 1 {
      LeftoverLow(plan, fds, Core(plan) - {0}, kept);
      LeftoverOutcome(plan, |children|, fds, Core(plan) - {0}, made, vec, kept);
    } else {
      LeftoverLow(plan, fds, Core(plan), kept);
      LeftoverOutcome(plan, |children|, fds, Core(plan), made, vec, kept);
    }
  }

  method RunStages(p: Process, np: NumberPipes, kinds: seq<Kind>, due: bool, user: Option<Ends>, out: Out)
    returns (children: seq<Table>, quit: bool, ghost kept: seq<nat>, ghost forks: seq<Table>)
    requires Ready(Plan(p.fds, p.made, np.vec, user, out)) && kinds != [] && due == Has(np.vec, 0)
    modifies p, np
    ensures
      var plan := old(Plan(p.fds, p.made, np.vec, user, out));
      && FirstCannotWrite(plan, children)
      && (quit ==> ChildrenWired(plan, children) && |kept| == |children| && exists fdIn :: Between(plan, p.fds, p.made, np.vec, fdIn, kept))
      && (!quit ==> |children| == Externals(kinds) && Finished(plan, kinds, children, p.fds, np.vec, kept))
      && (quit <==> Quit in kinds) && |children| == Externals(Reached(kinds))
      && Outcome(plan, |children|, p.fds, p.made, np.vec)
      && ChildrenSealed(plan, forks, children)
    ensures old(p.Accounted()) ==> p.Accounted()
  {
    hide Balanced, Closable, Unconsumed, Ready, Between, ChildrenWired, FirstCannotWrite, Finished, Outcome, Due, Has, Alive, AtFork, Settled,
      PlainChild, EndChild, Wired, Source, StdinOf, ForksFrom, Sealed, ChildrenSealed;
    ghost var plan := Plan(p.fds, p.made, np.vec, user, out);
    var prc: nat, fdIn: nat := 0, 0;
    var dueFlag, userIn := due, user;
    children, quit, kept, forks := [], false, [], [];
    NoneSealed(plan);
    StartsHasFirst(plan, Loop(p.fds, p.made, np.vec, fdIn, dueFlag, userIn, children, kept));
    while prc < |kinds|
      invariant prc <= |kinds| && Ready(plan)
      invariant |children| == Externals(kinds[..prc])
      invariant prc < |kinds| ==> Starts(plan, Loop(p.fds, p.made, np.vec, fdIn, dueFlag, userIn, children, kept))
      invariant prc == |kinds| ==> Finished(plan, kinds, children, p.fds, np.vec, kept) && FirstCannotWrite(plan, children)
      invariant prc == |kinds| ==> Outcome(plan, |children|, p.fds, p.made, np.vec)
      invariant Quit !in kinds[..prc]
      invariant old(p.Accounted()) ==> p.Accounted()
      invariant ChildrenSealed(plan, forks, children)
    {
      var many, last := |kinds| != 1, prc == |kinds| - 1;
      ghost var s := Loop(p.fds, p.made, np.vec, fdIn, dueFlag, userIn, children, kept);
      assert kinds[..prc + 1] == kinds[..prc] + [kinds[prc]];
      ExternalsMore(kinds[..prc], kinds[prc]);
      StoppedOutcome(plan, s);
      StageCloses(plan, s);
      match kinds[prc] {
        case Quit =>
          quit := true;
          ReachedIs(kinds, prc);
          return;
        case Builtin =>
          if last {
            EndsInBuiltin(plan, kinds, s);
          }
        case External =>
          var child;
          if last && !out.ToTerminal? {
            child := RunEnd(p, np, dueFlag, userIn, fdIn, out, many);
            EndSealed(plan, s);
            SealedNext(plan, s, forks, AtFork(s.fds, s.vec, s.user), child);
            forks := forks + [AtFork(s.fds, s.vec, s.user)];
            AfterEnd(plan, kinds, s);
            kept := if kept == [] then [] else kept[..|kept| - 1];
          } else {
            var r, w;
            child, r, w := RunPlain(p, np, dueFlag, userIn, fdIn, many, last);
            PlainSealed(plan, s, many, last, r, w);
            SealedNext(plan, s, forks, Forked(s, many, r, w), child);
            forks := forks + [Forked(s, many, r, w)];
            if many {
              fdIn := r;
            }
            if last {
              AfterPlainLast(plan, kinds, s, r, w);
            } else {
              AfterPlain(plan, s, r, w);
              assert Forked(s, many, r, w) - {w} - {} == Forked(s, many, r, w) - {w};
              kept := kept + [r];
            }
          }
          dueFlag, userIn := false, None;
          children := children + [child];
          if last {
            FinishedOutcome(plan, kinds, children, p.fds, p.made, np.vec, kept);
          }
      }
      prc := prc + 1;
    }
    assert kinds[..prc] == kinds;
    ReachedIs(kinds, prc);
  }

  // ---------- What a line of external commands comes to ----------

  predicate AllExternal(kinds: seq<Kind>) {
    forall i :: 0 <= i < |kinds| ==> kinds[i].External?
  }

  lemma {:induction false} ExternalsOfAll(kinds: seq<Kind>)
    requires AllExternal(kinds)
    ensures Externals(kinds) == |kinds|
  {
    if kinds != [] {
      ExternalsOfAll(kinds[1..]);
    }
  }

  /** The pipes that join the stages: each stage writes the pipe that the next one
      reads, and no two neighbours share theirs with any other pair. */
  lemma StagesAreJoined(plan: Plan, kinds: seq<Kind>, children: seq<Table>, fds: Table, vec: seq<Entry>, kept: seq<nat>)
    requires Ready(plan) && kinds != [] && AllExternal(kinds) && |children| == Externals(kinds)
    requires Finished(plan, kinds, children, fds, vec, kept)
    ensures |children| == |kinds| && forall i :: 0 <= i < |kinds| ==> 0 in children[i] && 1 in children[i] && 2 in children[i]
    ensures forall i :: 0 <= i < |kinds| - 1 ==>
      && children[i][1].WriteEnd? && children[i + 1][0] == ReadEnd(children[i][1].pipe)
      && children[i][2] == plan.fds[2]
    ensures forall i, j :: 0 <= i < j < |kinds| - 1 ==> children[i][1] != children[j][1]
    ensures children[0][0] == Source(plan)
    ensures children[|kinds| - 1][1] == LastOut(plan) && children[|kinds| - 1][2] == LastErr(plan)
  {
    ExternalsOfAll(kinds);
    var n := |kinds| - 1;
    assert 2 in plan.fds;
    hide Ready, Core, Leftover, VecAfter, Source, LastOut, LastErr, Due, Has, Externals;
    forall i | 0 <= i < n ensures Wired(children[i], StdinOf(plan, i), WriteEnd(plan.made + i), plan.fds[2]) {
      assert children[..n][i] == children[i];
    }
    hide ChildrenWired, Finished;
  }

  /** The read ends of the line's own pipes that a table still has open. */
  function OwnReads(plan: Plan, fds: Table): set<nat> {
    set fd | fd in fds && fds[fd].ReadEnd? && fds[fd].pipe >= plan.made
  }

  lemma {:induction false} CountKept(kept: seq<nat>, s: set<nat>)
    requires forall i, j :: 0 <= i < j < |kept| ==> kept[i] != kept[j]
    requires forall fd :: fd in s <==> fd in kept
    ensures |s| == |kept|
  {
    if kept != [] {
      var n := |kept| - 1;
      assert kept[n] in s;
      forall fd ensures fd in s - {kept[n]} <==> fd in kept[..n] {
        if fd in kept[..n] {
          var i :| 0 <= i < n && kept[..n][i] == fd;
          assert kept[i] == fd;
        }
        if fd in s && fd != kept[n] {
          var i :| 0 <= i < |kept| && kept[i] == fd;
          assert kept[..n][i] == fd;
        }
      }
      CountKept(kept[..n], s - {kept[n]});
    }
  }

  lemma LeftoverReads(plan: Plan, fds: Table, core: Table, kept: seq<nat>)
    requires Leftover(plan, fds, core, kept)
    requires forall fd :: fd in core ==> IsPipe(core[fd]) ==> core[fd].pipe < plan.made
    ensures |OwnReads(plan, fds)| == |kept|
    ensures forall fd :: fd in fds && fd !in core ==> fd in OwnReads(plan, fds)
    ensures fds - OwnReads(plan, fds) == core
  {
    forall i, j | 0 <= i < j < |kept| ensures kept[i] != kept[j] {
      assert fds[kept[i]] == ReadEnd(plan.made + i) && fds[kept[j]] == ReadEnd(plan.made + j);
    }
    forall fd ensures fd in OwnReads(plan, fds) <==> fd in kept {
      if fd in kept {
        var i :| 0 <= i < |kept| && kept[i] == fd;
        assert fds[kept[i]] == ReadEnd(plan.made + i);
      }
    }
    CountKept(kept, OwnReads(plan, fds));
  }

  lemma CorePipes(plan: Plan)
    requires Ready(plan)
    ensures forall fd :: fd in Core(plan) ==> IsPipe(Core(plan)[fd]) ==> Core(plan)[fd].pipe < plan.made
  {
    hide Due;
  }

  /** Exactly what the parent still has open after two or more external stages: what it
      had before, less the inputs it consumed, and k - 1 read ends of the line's own
      pipes, or k - 2 when the last stage has its own output. */
  lemma ParentAccounting(plan: Plan, kinds: seq<Kind>, children: seq<Table>, fds: Table, vec: seq<Entry>, kept: seq<nat>)
    requires Ready(plan) && |kinds| >= 2 && AllExternal(kinds) && |children| == Externals(kinds)
    requires Finished(plan, kinds, children, fds, vec, kept)
    ensures |OwnReads(plan, fds)| == if plan.out.ToTerminal? then |kinds| - 1 else |kinds| - 2
    ensures fds - OwnReads(plan, fds) == plan.fds - Both(Due(plan)) - Both(plan.user)
  {
    ExternalsOfAll(kinds);
    CorePipes(plan);
    hide Ready, ChildrenWired, Wired, Due, VecAfter;
    LeftoverReads(plan, fds, Core(plan), kept);
  }

  /** A line of one external command leaves no pipe of its own. */
  lemma LoneAccounting(plan: Plan, kinds: seq<Kind>, children: seq<Table>, fds: Table, vec: seq<Entry>, kept: seq<nat>)
    requires Ready(plan) && |kinds| == 1 && AllExternal(kinds) && |children| == Externals(kinds)
    requires Finished(plan, kinds, children, fds, vec, kept)
    ensures fds == plan.fds - Both(Due(plan)) - Both(plan.user)
  {
    ExternalsOfAll(kinds);
    hide Ready, ChildrenWired, Wired, Due, VecAfter;
  }
}
