/** Which line reads what: a whole session of shell lines run through the vector of
    number pipes. */
module Delivery {
  import opened Prelude
  import opened NumberPipes

  /** A line as the scheduler sees it. Lines with a parse error only count down.
      `external` says that some stage is an external command, `lastExternal` that the
      last one is, so that the line's output really goes into the parked pipe; `park`
      is N of a final `|N` or `!N`, and `made` the pipe that pipe() would make. */
  datatype Line = Line(ok: bool, external: bool, lastExternal: bool, park: Option<nat>, made: Ends)

  function Parked(v: seq<Entry>, n: int, made: Ends): (p: seq<Entry>)
    ensures Has(p, n)
  {
    if Has(v, n) then v
    else
      assert (v + [Entry(n, made)])[|v|].rest == n;
      v + [Entry(n, made)]
  }

  /** The vector while the stages of a line run. */
  function During(v: seq<Entry>, l: Line): seq<Entry> {
    if l.ok && l.park.Some? then Parked(Ticked(v), l.park.value, l.made) else Ticked(v)
  }

  predicate Consumes(v: seq<Entry>, l: Line) {
    l.ok && l.external && Has(Ticked(v), 0)
  }

  function Step(v: seq<Entry>, l: Line): seq<Entry> {
    if Consumes(v, l) then Alive(During(v, l)) else During(v, l)
  }

  /** The vector after these lines. */
  function Run(lines: seq<Line>): seq<Entry>
    decreases |lines|
  {
    if lines == [] then [] else Step(Run(lines[..|lines| - 1]), lines[|lines| - 1])
  }

  /** The vector after the first `t` lines. */
  function After(lines: seq<Line>, t: nat): seq<Entry>
    requires t <= |lines|
  {
    Run(lines[..t])
  }

  lemma AfterNext(lines: seq<Line>, t: nat)
    requires t < |lines|
    ensures After(lines, t + 1) == Step(After(lines, t), lines[t])
  {
    assert lines[..t + 1][..t] == lines[..t];
  }

  /** The pipe that the first external command of line `t` reads. */
  function ReadBy(lines: seq<Line>, t: nat): Option<nat>
    requires t < |lines|
  {
    var v := During(After(lines, t), lines[t]);
    if Consumes(After(lines, t), lines[t]) && Has(v, 0) then Some(v[Find(v, 0)].ends.id) else None
  }

  /** The pipe that the last command of line `t` writes. */
  function WrittenBy(lines: seq<Line>, t: nat): Option<nat>
    requires t < |lines|
  {
    var l, v := lines[t], During(After(lines, t), lines[t]);
    if l.ok && l.lastExternal && l.park.Some? then Some(v[Find(v, l.park.value)].ends.id) else None
  }

  /** Line `s` ends in `|N` or `!N` with s + N = `deadline`. */
  predicate Parks(lines: seq<Line>, s: nat, deadline: int) {
    s < |lines| && lines[s].ok && lines[s].park.Some? && s + lines[s].park.value == deadline
  }

  predicate Feeds(lines: seq<Line>, s: nat, deadline: int) {
    Parks(lines, s, deadline) && lines[s].lastExternal
  }

  /** Line `t` parks its output and finds no pipe with the same deadline. */
  predicate Makes(lines: seq<Line>, t: nat)
    requires t < |lines|
  {
    lines[t].ok && lines[t].park.Some? && !Has(Ticked(After(lines, t)), lines[t].park.value)
  }

  /** What the grammar and the kernel guarantee: N is positive, a last stage is a stage,
      and every pipe that is made is a new one. */
  predicate Session(lines: seq<Line>) {
    && (forall t :: 0 <= t < |lines| ==> lines[t].park.Some? ==> lines[t].park.value >= 1)
    && (forall t :: 0 <= t < |lines| ==> lines[t].lastExternal ==> lines[t].external)
    && (forall s, t :: 0 <= s < t < |lines| && Makes(lines, s) && Makes(lines, t) ==> lines[s].made.id != lines[t].made.id)
  }

  // ---------- The invariant between lines ----------

  /** Every entry was parked for its deadline by one of the first `t` lines, with a pipe
      made by one of them. */
  predicate EntriesParked(lines: seq<Line>, t: nat, v: seq<Entry>, now: int) {
    forall i :: 0 <= i < |v| ==>
      && ParkedBefore(lines, t, v[i].rest + now)
      && MadeBefore(lines, t, v[i].ends.id)
  }

  predicate ParkedBefore(lines: seq<Line>, t: nat, deadline: int) {
    exists s: nat :: s < t && Parks(lines, s, deadline)
  }

  predicate MadeBefore(lines: seq<Line>, t: nat, id: nat) {
    exists s: nat :: s < t && s < |lines| && Makes(lines, s) && lines[s].made.id == id
  }

  /** No deadline to come is missing. */
  ghost predicate NothingLost(lines: seq<Line>, t: nat, v: seq<Entry>, now: int, from: int) {
    forall s: nat, d: int :: s < t && Parks(lines, s, d) && d >= from ==> Has(v, d - now)
  }

  /** The lines writing an entry's pipe are exactly those with its deadline. */
  predicate WritersAgree(lines: seq<Line>, t: nat, v: seq<Entry>, now: int)
    requires t <= |lines|
  {
    forall i, s: nat :: 0 <= i < |v| && s < t ==>
      (WrittenBy(lines, s) == Some(v[i].ends.id) <==> Feeds(lines, s, v[i].rest + now))
  }

  predicate WritesAreOld(lines: seq<Line>, t: nat)
    requires t <= |lines|
  {
    forall s: nat :: s < t && WrittenBy(lines, s).Some? ==> MadeBefore(lines, t, WrittenBy(lines, s).value)
  }

  ghost predicate Inv(lines: seq<Line>, t: nat)
    requires t <= |lines|
  {
    var v := After(lines, t);
    && Distinct(v)
    && EntriesParked(lines, t, v, t - 1)
    && NothingLost(lines, t, v, t - 1, t)
    && WritersAgree(lines, t, v, t - 1)
    && WritesAreOld(lines, t)
  }

  // ---------- One line ----------

  lemma TickEntries(lines: seq<Line>, t: nat, u: seq<Entry>)
    requires EntriesParked(lines, t, u, t - 1) && Distinct(u)
    ensures EntriesParked(lines, t, Ticked(u), t) && Distinct(Ticked(u))
  {
    hide ParkedBefore, MadeBefore;
    forall i | 0 <= i < |u| ensures ParkedBefore(lines, t, Ticked(u)[i].rest + t) && MadeBefore(lines, t, Ticked(u)[i].ends.id) {
      assert Ticked(u)[i].rest + t == u[i].rest + (t - 1);
    }
  }

  lemma TickLosesNothing(lines: seq<Line>, t: nat, u: seq<Entry>)
    requires NothingLost(lines, t, u, t - 1, t)
    ensures NothingLost(lines, t, Ticked(u), t, t)
  {
    hide Parks;
    forall s: nat, d: int | s < t && Parks(lines, s, d) && d >= t ensures Has(Ticked(u), d - t) {
      assert Has(u, d - (t - 1));
      var i :| 0 <= i < |u| && u[i].rest == d - (t - 1);
      assert Ticked(u)[i].rest == d - t;
    }
  }

  lemma TickWriters(lines: seq<Line>, t: nat, u: seq<Entry>)
    requires t <= |lines| && WritersAgree(lines, t, u, t - 1)
    ensures WritersAgree(lines, t, Ticked(u), t)
  {
    hide Feeds, WrittenBy;
    forall i, s: nat | 0 <= i < |u| && s < t
      ensures WrittenBy(lines, s) == Some(Ticked(u)[i].ends.id) <==> Feeds(lines, s, Ticked(u)[i].rest + t)
    {
      assert Ticked(u)[i].rest + t == u[i].rest + (t - 1);
    }
  }

  lemma TickKeeps(lines: seq<Line>, t: nat)
    requires t < |lines| && Inv(lines, t)
    ensures
      var v := Ticked(After(lines, t));
      && Distinct(v) && EntriesParked(lines, t, v, t) && NothingLost(lines, t, v, t, t) && WritersAgree(lines, t, v, t)
  {
    hide After, Ticked, Distinct, EntriesParked, NothingLost, WritersAgree, WritesAreOld;
    TickEntries(lines, t, After(lines, t));
    TickLosesNothing(lines, t, After(lines, t));
    TickWriters(lines, t, After(lines, t));
  }

  lemma ParkIsDistinct(lines: seq<Line>, t: nat, v: seq<Entry>, l: Line)
    requires Session(lines) && t < |lines| && l == lines[t] && Distinct(v) && EntriesParked(lines, t, v, t)
    requires l.ok && l.park.Some? && v == Ticked(After(lines, t))
    ensures Distinct(Parked(v, l.park.value, l.made))
  {
    if !Has(v, l.park.value) {
      assert Makes(lines, t);
      hide After, Makes;
      forall i | 0 <= i < |v| ensures v[i].ends.id != l.made.id {
        assert MadeBefore(lines, t, v[i].ends.id);
        var s: nat :| s < t && s < |lines| && Makes(lines, s) && lines[s].made.id == v[i].ends.id;
      }
    }
  }

  lemma OldEntries(lines: seq<Line>, t: nat, v: seq<Entry>)
    requires t < |lines| && EntriesParked(lines, t, v, t)
    ensures EntriesParked(lines, t + 1, v, t)
  {
    hide After, Makes, Parks;
    forall i | 0 <= i < |v|
      ensures ParkedBefore(lines, t + 1, v[i].rest + t) && MadeBefore(lines, t + 1, v[i].ends.id)
    {
      var s: nat :| s < t && Parks(lines, s, v[i].rest + t);
      var r: nat :| r < t && r < |lines| && Makes(lines, r) && lines[r].made.id == v[i].ends.id;
    }
  }

  lemma NewEntry(lines: seq<Line>, t: nat, v: seq<Entry>)
    requires t < |lines| && lines[t].ok && lines[t].park.Some? && v == Ticked(After(lines, t)) && !Has(v, lines[t].park.value)
    ensures ParkedBefore(lines, t + 1, lines[t].park.value + t) && MadeBefore(lines, t + 1, lines[t].made.id)
  {
    hide After, Ticked, Has;
    assert Parks(lines, t, lines[t].park.value + t);
    assert Makes(lines, t);
  }

  lemma ParkEntries(lines: seq<Line>, t: nat, v: seq<Entry>)
    requires t < |lines| && EntriesParked(lines, t, v, t) && v == Ticked(After(lines, t))
    ensures EntriesParked(lines, t + 1, v, t)
    ensures lines[t].ok && lines[t].park.Some? ==> EntriesParked(lines, t + 1, Parked(v, lines[t].park.value, lines[t].made), t)
  {
    hide After, Ticked, Has, ParkedBefore, MadeBefore, Makes, Parks;
    OldEntries(lines, t, v);
    if lines[t].ok && lines[t].park.Some? && !Has(v, lines[t].park.value) {
      NewEntry(lines, t, v);
    }
  }

  lemma ParkLosesNothing(lines: seq<Line>, t: nat, v: seq<Entry>, w: seq<Entry>)
    requires t < |lines| && NothingLost(lines, t, v, t, t)
    requires w == if lines[t].ok && lines[t].park.Some? then Parked(v, lines[t].park.value, lines[t].made) else v
    ensures NothingLost(lines, t + 1, w, t, t)
  {
    forall s: nat, d: int | s < t + 1 && Parks(lines, s, d) && d >= t ensures Has(w, d - t) {
      if s < t {
        var i :| 0 <= i < |v| && v[i].rest == d - t;
        assert w[i] == v[i];
      }
    }
  }

  lemma EntryHit(w: seq<Entry>, n: int, i: nat)
    requires Distinct(w) && Has(w, n) && i < |w|
    ensures w[i].ends.id == w[Find(w, n)].ends.id <==> w[i].rest == n
  {
  }

  lemma ParkWriters(lines: seq<Line>, t: nat, v: seq<Entry>, w: seq<Entry>, i: nat, s: nat)
    requires Session(lines) && t < |lines| && Distinct(w) && v == Ticked(After(lines, t)) && w == During(After(lines, t), lines[t])
    requires NothingLost(lines, t, v, t, t) && WritersAgree(lines, t, v, t) && WritesAreOld(lines, t)
    requires i < |w| && s < t + 1
    ensures WrittenBy(lines, s) == Some(w[i].ends.id) <==> Feeds(lines, s, w[i].rest + t)
  {
    if s == t {
      if lines[t].ok && lines[t].park.Some? {
        EntryHit(w, lines[t].park.value, i);
      }
    } else if i < |v| {
      assert w[i] == v[i];
    } else {
      assert w[i] == Entry(lines[t].park.value, lines[t].made);
      assert !Has(v, lines[t].park.value);
      assert !Parks(lines, s, w[i].rest + t);
    }
  }

  lemma DuringKeeps(lines: seq<Line>, t: nat)
    requires Session(lines) && t < |lines| && Inv(lines, t)
    ensures
      var w := During(After(lines, t), lines[t]);
      && Distinct(w) && EntriesParked(lines, t + 1, w, t) && NothingLost(lines, t + 1, w, t, t)
      && WritersAgree(lines, t + 1, w, t) && WritesAreOld(lines, t + 1)
  {
    hide After, Ticked, During, Parked, Distinct, EntriesParked, NothingLost, WritersAgree, WritesAreOld, WrittenBy, Feeds;
    var l, v, w := lines[t], Ticked(After(lines, t)), During(After(lines, t), lines[t]);
    TickKeeps(lines, t);
    DuringIs(After(lines, t), l);
    if l.ok && l.park.Some? {
      ParkIsDistinct(lines, t, v, l);
    }
    ParkEntries(lines, t, v);
    ParkLosesNothing(lines, t, v, w);
    WritersKept(lines, t, v, w);
    OldWrites(lines, t);
  }

  lemma DuringIs(u: seq<Entry>, l: Line)
    ensures During(u, l) == if l.ok && l.park.Some? then Parked(Ticked(u), l.park.value, l.made) else Ticked(u)
  {
  }

  lemma WritersKept(lines: seq<Line>, t: nat, v: seq<Entry>, w: seq<Entry>)
    requires Session(lines) && t < |lines| && Distinct(w) && v == Ticked(After(lines, t)) && w == During(After(lines, t), lines[t])
    requires NothingLost(lines, t, v, t, t) && WritersAgree(lines, t, v, t) && WritesAreOld(lines, t)
    ensures WritersAgree(lines, t + 1, w, t)
  {
    hide Session, After, During, Ticked, Distinct, NothingLost, WritesAreOld, WrittenBy, Feeds;
    forall i, s: nat | 0 <= i < |w| && s < t + 1
      ensures WrittenBy(lines, s) == Some(w[i].ends.id) <==> Feeds(lines, s, w[i].rest + t)
    {
      ParkWriters(lines, t, v, w, i, s);
    }
  }

  lemma OldWrites(lines: seq<Line>, t: nat)
    requires t < |lines| && WritesAreOld(lines, t)
    requires EntriesParked(lines, t + 1, During(After(lines, t), lines[t]), t)
    ensures WritesAreOld(lines, t + 1)
  {
    forall s: nat | s < t + 1 && WrittenBy(lines, s).Some? ensures MadeBefore(lines, t + 1, WrittenBy(lines, s).value) {
      if s < t {
        hide WrittenBy, Makes;
        var r: nat :| r < t && r < |lines| && Makes(lines, r) && lines[r].made.id == WrittenBy(lines, s).value;
        assert r < t + 1;
      }
    }
  }

  lemma SubsetKeeps(lines: seq<Line>, t: nat, w: seq<Entry>)
    requires t <= |lines| && Distinct(w) && EntriesParked(lines, t, w, t - 1)
    requires NothingLost(lines, t, w, t - 1, t - 1) && WritersAgree(lines, t, w, t - 1)
    ensures
      var a := Alive(w);
      && Distinct(a) && EntriesParked(lines, t, a, t - 1) && NothingLost(lines, t, a, t - 1, t) && WritersAgree(lines, t, a, t - 1)
  {
    hide After, Feeds, WrittenBy, Parks, MadeBefore, Alive;
    var a := Alive(w);
    AliveDistinct(w);
    forall i | 0 <= i < |a| ensures exists j :: 0 <= j < |w| && w[j] == a[i] {
      AliveMembers(w, a[i]);
    }
    forall s: nat, d: int | s < t && Parks(lines, s, d) && d >= t ensures Has(a, d - (t - 1)) {
      var i :| 0 <= i < |w| && w[i].rest == d - (t - 1);
      AliveMembers(w, w[i]);
      var j :| 0 <= j < |a| && a[j] == w[i];
    }
  }

  lemma LineKeeps(lines: seq<Line>, t: nat)
    requires Session(lines) && t < |lines| && Inv(lines, t)
    ensures Inv(lines, t + 1)
  {
    DuringKeeps(lines, t);
    AfterNext(lines, t);
    hide After, During, Feeds, WrittenBy, Parks, MadeBefore, Alive;
    SubsetKeeps(lines, t + 1, During(After(lines, t), lines[t]));
  }

  lemma {:induction false} InvHolds(lines: seq<Line>, t: nat)
    requires Session(lines) && t <= |lines|
    ensures Inv(lines, t)
  {
    if t > 0 {
      InvHolds(lines, t - 1);
      LineKeeps(lines, t - 1);
    }
  }

  // ---------- A pipe that has been read is never written again ----------

  predicate Absent(v: seq<Entry>, id: nat) {
    forall i :: 0 <= i < |v| ==> v[i].ends.id != id
  }

  lemma {:induction false} GoneStaysGone(lines: seq<Line>, t: nat, u: nat, id: nat)
    requires Session(lines) && t < u <= |lines| && MadeBefore(lines, t + 1, id) && Absent(After(lines, t + 1), id)
    ensures Absent(After(lines, u), id)
    ensures u < |lines| ==> WrittenBy(lines, u) != Some(id)
    decreases u
  {
    hide After;
    if u > t + 1 {
      GoneStaysGone(lines, t, u - 1, id);
      AfterNext(lines, u - 1);
      var v := After(lines, u - 1);
      AbsentDuring(lines, t, u - 1, v, id);
      AbsentAlive(During(v, lines[u - 1]), id);
    }
    if u < |lines| {
      AbsentDuring(lines, t, u, After(lines, u), id);
    }
  }

  lemma AbsentDuring(lines: seq<Line>, t: nat, u: nat, v: seq<Entry>, id: nat)
    requires Session(lines) && t < u < |lines| && MadeBefore(lines, t + 1, id) && v == After(lines, u) && Absent(v, id)
    ensures Absent(During(v, lines[u]), id)
  {
    var s: nat :| s < t + 1 && s < |lines| && Makes(lines, s) && lines[s].made.id == id;
    assert Makes(lines, u) ==> lines[u].made.id != id;
  }

  lemma AbsentAlive(v: seq<Entry>, id: nat)
    requires Absent(v, id)
    ensures Absent(Alive(v), id)
  {
    forall i | 0 <= i < |Alive(v)| ensures Alive(v)[i].ends.id != id {
      AliveMembers(v, Alive(v)[i]);
    }
  }

  // ---------- Delivery ----------

  /** The first external command of an error-free line `t` reads a number pipe exactly
      when an earlier line was parked for `t`. */
  lemma ReadsIffParkedFor(lines: seq<Line>, t: nat)
    requires Session(lines) && t < |lines| && lines[t].ok && lines[t].external
    ensures ReadBy(lines, t).Some? <==> exists s: nat :: s < t && Parks(lines, s, t)
  {
    InvHolds(lines, t);
    TickKeeps(lines, t);
    hide *;
    HasIffParked(lines, t, Ticked(After(lines, t)), t, t, t);
    ReadsIffDue(lines, t);
  }

  lemma ReadsIffDue(lines: seq<Line>, t: nat)
    requires t < |lines| && lines[t].ok && lines[t].external
    ensures ReadBy(lines, t).Some? <==> Has(Ticked(After(lines, t)), 0)
  {
    hide After;
    var v := Ticked(After(lines, t));
    if Has(v, 0) {
      var i :| 0 <= i < |v| && v[i].rest == 0;
      assert During(After(lines, t), lines[t])[i] == v[i];
    }
  }

  /** And the pipe it reads holds the output of exactly the lines parked for `t`,
      before and after: every `s` with s + N = t whose last command could write, merged
      in one pipe, and nothing else ever. */
  lemma ReadsExactlyItsWriters(lines: seq<Line>, t: nat, s: nat)
    requires Session(lines) && t < |lines| && s < |lines| && ReadBy(lines, t).Some?
    ensures WrittenBy(lines, s) == ReadBy(lines, t) <==> Feeds(lines, s, t)
  {
    InvHolds(lines, t);
    DuringKeeps(lines, t);
    var w := During(After(lines, t), lines[t]);
    var i := Find(w, 0);
    if s < t + 1 {
      assert WrittenBy(lines, s) == Some(w[i].ends.id) <==> Feeds(lines, s, w[i].rest + t);
    } else {
      DueIsGone(w, i);
      AfterNext(lines, t);
      GoneStaysGone(lines, t, s, w[i].ends.id);
    }
  }

  lemma DueIsGone(w: seq<Entry>, i: nat)
    requires Distinct(w) && i < |w| && w[i].rest == 0
    ensures Absent(Alive(w), w[i].ends.id)
  {
    forall j | 0 <= j < |Alive(w)| ensures Alive(w)[j].ends.id != w[i].ends.id {
      AliveMembers(w, Alive(w)[j]);
      var k :| 0 <= k < |w| && w[k] == Alive(w)[j];
    }
  }

  // ---------- Growing a session line by line ----------

  /** Every pipe made so far has a number below `made`. */
  predicate MadeBelow(lines: seq<Line>, made: nat) {
    forall t :: 0 <= t < |lines| && Makes(lines, t) ==> lines[t].made.id < made
  }

  lemma MakesSame(lines: seq<Line>, l: Line, t: nat)
    requires t < |lines|
    ensures Makes(lines + [l], t) == Makes(lines, t) && (lines + [l])[t] == lines[t]
  {
    assert (lines + [l])[..t] == lines[..t];
  }

  lemma AfterAppend(lines: seq<Line>, l: Line)
    ensures After(lines + [l], |lines|) == Run(lines)
  {
    hide Run;
    assert (lines + [l])[..|lines|] == lines;
  }

  lemma SessionMore(lines: seq<Line>, l: Line, made: nat)
    requires Session(lines) && MadeBelow(lines, l.made.id) && l.made.id <= made
    requires (l.park.Some? ==> l.park.value >= 1) && (l.lastExternal ==> l.external)
    requires l.ok && l.park.Some? && !Has(Ticked(Run(lines)), l.park.value) ==> l.made.id < made
    ensures Session(lines + [l]) && MadeBelow(lines + [l], made) && Run(lines + [l]) == Step(Run(lines), l)
  {
    var more, n := lines + [l], |lines|;
    assert more[..n] == lines && more[n] == l;
    assert Makes(more, n) == (l.ok && l.park.Some? && !Has(Ticked(Run(lines)), l.park.value));
    forall t | 0 <= t < n ensures Makes(more, t) == Makes(lines, t) && more[t] == lines[t] {
      MakesSame(lines, l, t);
    }
    hide Makes, Run, Step;
  }

  /** What happened on earlier lines does not depend on later ones. */
  lemma PastStays(lines: seq<Line>, all: seq<Line>, s: nat)
    requires lines <= all && s < |lines|
    ensures WrittenBy(all, s) == WrittenBy(lines, s) && ReadBy(all, s) == ReadBy(lines, s)
    ensures After(all, s) == After(lines, s) && forall d :: Parks(all, s, d) == Parks(lines, s, d) && Feeds(all, s, d) == Feeds(lines, s, d)
  {
    assert all[..s] == lines[..s] && all[s] == lines[s];
    hide Run;
  }

  // ---------- The vector as a schedule ----------

  /** After any session the vector is the map from the lines still to come to their
      pipes: a line is in it exactly when some earlier line was parked for it, and the
      writers of its pipe are exactly the lines that feed it. */
  lemma AgendaIsSchedule(lines: seq<Line>, d: int)
    requires Session(lines) && d >= |lines|
    ensures
      var agenda := Agenda(Run(lines), |lines| - 1);
      && (d in agenda <==> exists s: nat :: s < |lines| && Parks(lines, s, d))
      && (d in agenda ==> forall s: nat :: s < |lines| ==> (WrittenBy(lines, s) == Some(agenda[d].id) <==> Feeds(lines, s, d)))
  {
    ScheduleInv(lines);
    hide *;
    AgendaOf(lines, |lines|, Run(lines), d);
  }

  lemma AgendaOf(lines: seq<Line>, t: nat, v: seq<Entry>, d: int)
    requires t <= |lines| && d >= t && Distinct(v)
    requires EntriesParked(lines, t, v, t - 1) && NothingLost(lines, t, v, t - 1, t) && WritersAgree(lines, t, v, t - 1)
    ensures
      var agenda := Agenda(v, t - 1);
      && (d in agenda <==> exists s: nat :: s < t && Parks(lines, s, d))
      && (d in agenda ==> forall s: nat :: s < t ==> (WrittenBy(lines, s) == Some(agenda[d].id) <==> Feeds(lines, s, d)))
  {
    hide *;
    AgendaKeys(v, t - 1, d);
    HasIffParked(lines, t, v, t - 1, t, d);
    if Has(v, d - (t - 1)) {
      var i := Find(v, d - (t - 1));
      AgendaAt(v, t - 1, i);
      forall s: nat | s < t ensures WrittenBy(lines, s) == Some(v[i].ends.id) <==> Feeds(lines, s, d) {
        WriterAgrees(lines, t, v, t - 1, i, s);
      }
    }
  }

  lemma ScheduleInv(lines: seq<Line>)
    requires Session(lines)
    ensures
      var t, v := |lines|, Run(lines);
      Distinct(v) && EntriesParked(lines, t, v, t - 1) && NothingLost(lines, t, v, t - 1, t) && WritersAgree(lines, t, v, t - 1)
  {
    InvHolds(lines, |lines|);
    AfterAll(lines);
    hide After, Run, Session, EntriesParked, NothingLost, WritersAgree, WritesAreOld, Distinct;
  }

  lemma AfterAll(lines: seq<Line>)
    ensures After(lines, |lines|) == Run(lines)
  {
    hide Run;
    assert lines[..|lines|] == lines;
  }

  lemma HasIffParked(lines: seq<Line>, t: nat, v: seq<Entry>, now: int, from: int, d: int)
    requires t <= |lines| && EntriesParked(lines, t, v, now) && NothingLost(lines, t, v, now, from) && d >= from
    ensures Has(v, d - now) <==> exists s: nat :: s < t && Parks(lines, s, d)
  {
    hide Parks, MadeBefore;
    if Has(v, d - now) {
      var i :| 0 <= i < |v| && v[i].rest == d - now;
      assert ParkedBefore(lines, t, v[i].rest + now);
    }
  }

  lemma WriterAgrees(lines: seq<Line>, t: nat, v: seq<Entry>, now: int, i: nat, s: nat)
    requires t <= |lines| && WritersAgree(lines, t, v, now) && i < |v| && s < t
    ensures WrittenBy(lines, s) == Some(v[i].ends.id) <==> Feeds(lines, s, v[i].rest + now)
  {
    hide WrittenBy, Feeds;
  }

  // ---------- What a slot's next user inherits ----------

  predicate Holds(v: seq<Entry>, e: Entry) {
    exists i :: 0 <= i < |v| && v[i] == e
  }

  lemma HoldsAlive(v: seq<Entry>, e: Entry)
    ensures Holds(Alive(v), e) <==> Holds(v, e) && e.rest != 0
  {
    AliveMembers(v, e);
    assert Holds(v, e) <==> e in v;
    assert Holds(Alive(v), e) <==> e in Alive(v);
  }

  lemma HoldsTicked(v: seq<Entry>, e: Entry)
    ensures Holds(Ticked(v), e) <==> Holds(v, e.(rest := e.rest + 1))
  {
    if Holds(v, e.(rest := e.rest + 1)) {
      var i :| 0 <= i < |v| && v[i] == e.(rest := e.rest + 1);
      assert Ticked(v)[i] == e;
    }
    if Holds(Ticked(v), e) {
      var i :| 0 <= i < |v| && Ticked(v)[i] == e;
      assert v[i] == e.(rest := e.rest + 1);
    }
  }

  lemma HoldsDuring(v: seq<Entry>, l: Line, e: Entry)
    ensures Holds(Ticked(v), e) ==> Holds(During(v, l), e)
    ensures Holds(During(v, l), e) ==> Holds(Ticked(v), e) || (l.ok && l.park.Some? && !Has(Ticked(v), l.park.value) && e.ends == l.made)
  {
    var u, w := Ticked(v), During(v, l);
    hide Ticked, Has;
    if Holds(u, e) {
      var i :| 0 <= i < |u| && u[i] == e;
      assert w[i] == e;
    }
    if Holds(w, e) {
      var i :| 0 <= i < |w| && w[i] == e;
      assert i < |u| ==> u[i] == e;
    }
  }

  /** One line later an entry is the same one with its countdown one less, until it is
      due; a pipe made earlier comes from an entry of before. */
  lemma EntryMoves(lines: seq<Line>, n: nat, u: nat, e: Entry)
    requires Session(lines) && n <= u < |lines|
    ensures Holds(After(lines, u), e.(rest := e.rest + 1)) ==> Holds(During(After(lines, u), lines[u]), e)
    ensures MadeBefore(lines, n, e.ends.id) && Holds(During(After(lines, u), lines[u]), e) ==>
      Holds(After(lines, u), e.(rest := e.rest + 1))
  {
    var v := After(lines, u);
    HoldsTicked(v, e);
    HoldsDuring(v, lines[u], e);
    if MadeBefore(lines, n, e.ends.id) && !Holds(Ticked(v), e) && Holds(During(v, lines[u]), e) {
      NotMadeAgain(lines, n, u, e.ends.id);
    }
    hide Holds, After, Ticked, Parked, MadeBefore;
  }

  lemma NotMadeAgain(lines: seq<Line>, n: nat, u: nat, id: nat)
    requires Session(lines) && n <= u < |lines| && MadeBefore(lines, n, id)
    ensures Makes(lines, u) ==> lines[u].made.id != id
  {
    hide Makes;
    var s: nat :| s < n && s < |lines| && Makes(lines, s) && lines[s].made.id == id;
  }

  lemma HoldsStep(v: seq<Entry>, l: Line, e: Entry)
    ensures Holds(Step(v, l), e) ==> Holds(During(v, l), e)
    ensures Holds(During(v, l), e) && e.rest != 0 ==> Holds(Step(v, l), e)
  {
    HoldsAlive(During(v, l), e);
    hide During, Holds, Consumes, Alive;
  }

  /** From line `n` to line `u`: the entries with pipes made before `n`. */
  lemma {:induction false} OldEntryMoves(lines: seq<Line>, n: nat, u: nat, e: Entry)
    requires Session(lines) && n <= u <= |lines| && MadeBefore(lines, n, e.ends.id)
    ensures Holds(After(lines, u), e) ==> Holds(After(lines, n), e.(rest := e.rest + (u - n)))
    ensures e.rest >= 1 && Holds(After(lines, n), e.(rest := e.rest + (u - n))) ==> Holds(After(lines, u), e)
    decreases u - n
  {
    hide Session, After, During, Holds, MadeBefore, Step;
    if n < u {
      AfterNext(lines, u - 1);
      OldEntryMoves(lines, n, u - 1, e.(rest := e.rest + 1));
      EntryMoves(lines, n, u - 1, e);
      HoldsStep(After(lines, u - 1), lines[u - 1], e);
    } else {
      assert e.(rest := e.rest + 0) == e;
    }
  }

  /** The first external command of line `t` reads a pipe that was made before line `n`
      exactly when the vector before line `n` has an entry whose countdown ends at `t`. */
  lemma InheritsExactly(lines: seq<Line>, n: nat, t: nat)
    requires Session(lines) && n <= t < |lines| && lines[t].ok && lines[t].external
    ensures (ReadBy(lines, t).Some? && MadeBefore(lines, n, ReadBy(lines, t).value)) <==> Has(After(lines, n), t - n + 1)
  {
    OldPipes(lines, n, t);
    var v, w := After(lines, n), During(After(lines, t), lines[t]);
    ReadsDue(lines, t);
    hide After, During, Distinct, MadeBefore, ReadBy;
    if Has(w, 0) && MadeBefore(lines, n, w[Find(w, 0)].ends.id) {
      var e := w[Find(w, 0)];
      assert Holds(w, e);
      EntryMoves(lines, n, t, e);
      OldEntryMoves(lines, n, t, e.(rest := 1));
      var i :| 0 <= i < |v| && v[i] == e.(rest := 1 + (t - n));
    }
    if Has(v, t - n + 1) {
      var i :| 0 <= i < |v| && v[i].rest == t - n + 1;
      var e := Entry(0, v[i].ends);
      assert Holds(v, v[i]) && v[i] == e.(rest := 1 + (t - n));
      OldEntryMoves(lines, n, t, e.(rest := 1));
      EntryMoves(lines, n, t, e);
      var j :| 0 <= j < |w| && w[j] == e;
      EntryHit(w, 0, j);
    }
  }

  lemma OldPipes(lines: seq<Line>, n: nat, t: nat)
    requires Session(lines) && n <= t < |lines|
    ensures Distinct(During(After(lines, t), lines[t]))
    ensures forall i :: 0 <= i < |After(lines, n)| ==> MadeBefore(lines, n, After(lines, n)[i].ends.id)
  {
    InvHolds(lines, n);
    InvHolds(lines, t);
    DuringKeeps(lines, t);
    hide After, During, MadeBefore;
  }

  lemma ReadsDue(lines: seq<Line>, t: nat)
    requires Session(lines) && t < |lines| && lines[t].ok && lines[t].external
    ensures
      var w := During(After(lines, t), lines[t]);
      ReadBy(lines, t) == if Has(w, 0) then Some(w[Find(w, 0)].ends.id) else None
  {
    hide After;
  }

  /** Line `t` reads a pipe that a line before line `n` made. */
  predicate ReadsOld(lines: seq<Line>, n: nat, t: nat) {
    n <= t < |lines| && ReadBy(lines, t).Some? && MadeBefore(lines, n, ReadBy(lines, t).value)
  }

  /** Some way to go on after `before` reads a pipe made in `before`. */
  ghost predicate CanReadOld(before: seq<Line>) {
    exists more: seq<Line>, t: nat :: Session(before + more) && ReadsOld(before + more, |before|, t)
  }

  predicate IsCounting(v: seq<Entry>) {
    exists i :: 0 <= i < |v| && v[i].rest >= 1
  }

  /** Whoever goes on with a slot after `before` can read a pipe of an earlier user
      exactly when the vector has an entry with a countdown of one or more. */
  lemma NewcomerCanRead(before: seq<Line>)
    requires Session(before)
    ensures CanReadOld(before) <==> IsCounting(Run(before))
  {
    var n := |before|;
    hide Run, Session, ReadsOld;
    if more: seq<Line>, t: nat :| Session(before + more) && ReadsOld(before + more, n, t) {
      OldReadIsInherited(before, more, t);
      var i :| 0 <= i < |Run(before)| && Run(before)[i].rest == t - n + 1;
    }
    if i :| 0 <= i < |Run(before)| && Run(before)[i].rest >= 1 {
      var more, t := InheritedIsRead(before, i);
    }
  }

  lemma OldReadIsInherited(before: seq<Line>, more: seq<Line>, t: nat)
    requires Session(before + more) && ReadsOld(before + more, |before|, t)
    ensures Has(Run(before), t - |before| + 1) && t >= |before|
  {
    InheritsExactly(before + more, |before|, t);
    assert (before + more)[..|before|] == before;
    hide Run, MadeBefore;
  }

  /** As many plain commands as the countdown says. */
  lemma InheritedIsRead(before: seq<Line>, i: nat) returns (more: seq<Line>, t: nat)
    requires Session(before) && i < |Run(before)| && Run(before)[i].rest >= 1
    ensures Session(before + more) && ReadsOld(before + more, |before|, t)
  {
    var plain := Line(true, true, true, None, Ends(0, 0, 0));
    more := seq(Run(before)[i].rest, _ => plain);
    t := |before| + |more| - 1;
    PlainSession(before, more);
    assert (before + more)[..|before|] == before;
    hide Run, Session, MadeBefore, ReadBy;
    InheritsExactly(before + more, |before|, t);
  }

  lemma PlainSession(before: seq<Line>, more: seq<Line>)
    requires Session(before) && forall l :: l in more ==> l.park.None? && l.external
    ensures Session(before + more)
  {
    var all := before + more;
    forall s | 0 <= s < |all| ensures Makes(all, s) ==> s < |before| && Makes(before, s) && all[s] == before[s] {
      if s < |before| {
        assert all[..s] == before[..s];
      } else {
        assert all[s] == more[s - |before|] && more[s - |before|] in more;
      }
    }
    hide After;
  }
}
