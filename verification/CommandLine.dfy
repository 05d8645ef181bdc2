/** The shell's grammar: cutting a line into tokens and grouping them into commands. */
module CommandLine {
  import opened Prelude
  import opened Text

  /** A `|N` (`both` false) or `!N` (`both` true). */
  datatype Park = Park(n: int, both: bool)

  /** What the parser leaves behind: the argument lists, the file of a `>`, and the
      number operators in order. `Crash` stands for the use of a null token. */
  datatype Parsed = Parsed(commands: seq<seq<string>>, file: Option<string>, parks: seq<Park>) | Crash

  predicate IsOperator(token: string) {
    token != [] && token[0] in ">|!"
  }

  /** The number of tokens before the first operator. */
  function ArgCount(tokens: seq<string>): (n: nat)
    ensures n <= |tokens| && (forall i :: 0 <= i < n ==> !IsOperator(tokens[i])) && (n < |tokens| ==> IsOperator(tokens[n]))
  {
    if tokens == [] || IsOperator(tokens[0]) then 0
    else
      var n := ArgCount(tokens[1..]);
      assert forall i :: 1 <= i < |tokens| ==> tokens[i] == tokens[1..][i - 1];
      1 + n
  }

  /** The N of a number operator whose first character is `op`; a token without anything
      else after the separators gives a null pointer. */
  function NumberOf(token: string, op: char): Option<int> {
    var ws := Words(token, [op]);
    if ws == [] then None else Some(Atoi(ws[0]))
  }

  /** One command put before the rest of a line; a later file replaces an earlier one. */
  function Before(args: seq<string>, file: Option<string>, parks: seq<Park>, rest: Parsed): Parsed {
    if rest.Crash? then Crash
    else Parsed([args] + rest.commands, if rest.file.Some? then rest.file else file, parks + rest.parks)
  }

  /** The grammar: arguments up to an operator, the operator, and the rest. */
  function Group(tokens: seq<string>): Parsed
    decreases |tokens|, 1
  {
    if tokens == [] then Parsed([], None, [])
    else
      var n := ArgCount(tokens);
      var args, rest := tokens[..n], tokens[n..];
      if rest == [] then Parsed([args], None, []) else AtOperator(args, rest)
  }

  /** The grammar at an operator, with its arguments already counted. */
  function AtOperator(args: seq<string>, rest: seq<string>): Parsed
    requires rest != [] && IsOperator(rest[0])
    decreases |rest|, 0
  {
    if rest[0] == "|" then Before(args, None, [], Group(rest[1..]))
    else if rest[0] == ">" then
      if |rest| == 1 then Crash else Before(args, Some(rest[1]), [], Group(rest[2..]))
    else
      var both := rest[0][0] == '!';
      match NumberOf(rest[0], if both then '!' else '|')
      case None => Crash
      case Some(k) => Before(args, None, [Park(k, both)], Group(rest[1..]))
  }

  lemma GroupAt(left: seq<string>, n: nat)
    requires left != [] && n <= |left| && (forall k :: 0 <= k < n ==> !IsOperator(left[k])) && (n < |left| ==> IsOperator(left[n]))
    ensures Group(left) == if n == |left| then Parsed([left], None, []) else AtOperator(left[..n], left[n..])
  {
    ArgCountIs(left, n);
    assert left[..|left|] == left;
  }

  function Append(done: Parsed, rest: Parsed): Parsed {
    if done.Crash? || rest.Crash? then Crash
    else Parsed(done.commands + rest.commands, if rest.file.Some? then rest.file else done.file, done.parks + rest.parks)
  }

  lemma AppendOne(done: Parsed, args: seq<string>, file: Option<string>, parks: seq<Park>, rest: Parsed)
    requires done.Parsed?
    ensures Append(done, Before(args, file, parks, rest))
         == Append(Parsed(done.commands + [args], if file.Some? then file else done.file, done.parks + parks), rest)
  {
    if rest.Parsed? {
      assert done.commands + ([args] + rest.commands) == done.commands + [args] + rest.commands;
      assert done.parks + (parks + rest.parks) == done.parks + parks + rest.parks;
    }
  }

  lemma {:induction false} ArgCountIs(tokens: seq<string>, n: nat)
    requires n <= |tokens| && (forall i :: 0 <= i < n ==> !IsOperator(tokens[i])) && (n < |tokens| ==> IsOperator(tokens[n]))
    ensures ArgCount(tokens) == n
  {
  }

  lemma AppendCrash(done: Parsed)
    ensures Append(done, Crash) == Crash
  {
  }

  lemma Slices(tokens: seq<string>, start: nat, i: nat)
    requires start <= i <= |tokens|
    ensures
      var left := tokens[start..];
      && left[..i - start] == tokens[start..i] && left[i - start..] == tokens[i..]
      && (i < |tokens| ==> tokens[i..][1..] == tokens[i + 1..])
      && (i + 1 < |tokens| ==> tokens[i..][2..] == tokens[i + 2..])
  {
  }

  /** The arguments from token `start` up to the next operator or the end. */
  method Arguments(tokens: seq<string>, start: nat) returns (args: seq<string>, i: nat)
    requires start < |tokens|
    ensures start <= i <= |tokens| && args == tokens[start..i] && (i < |tokens| ==> IsOperator(tokens[i]))
    ensures Group(tokens[start..]) == if i == |tokens| then Parsed([args], None, []) else AtOperator(args, tokens[i..])
  {
    args, i := [], start;
    while i < |tokens| && !IsOperator(tokens[i])
      invariant start <= i <= |tokens| && args == tokens[start..i]
      invariant forall k :: start <= k < i ==> !IsOperator(tokens[k])
    {
      assert tokens[start..i + 1] == tokens[start..i] + [tokens[i]];
      args := args + [tokens[i]];
      i := i + 1;
    }
    hide Group, AtOperator;
    GroupAt(tokens[start..], i - start);
    Slices(tokens, start, i);
  }

  /** What one operator, at the front of `rest`, does to the parser's variables. */
  method Operator(rest: seq<string>, args: seq<string>, done: Parsed) returns (r: Parsed, used: nat)
    requires rest != [] && IsOperator(rest[0]) && done.Parsed?
    ensures r.Parsed? ==> 1 <= used <= |rest| && Append(done, AtOperator(args, rest)) == Append(r, Group(rest[used..]))
    ensures r.Crash? ==> AtOperator(args, rest) == Crash
  {
    hide Group, Append, Words;
    var file, parks := None, [];
    used := 1;
    if rest[0] == "|" {
    } else if rest[0] == ">" {
      if |rest| == 1 {
        return Crash, 0;
      }
      file := Some(rest[1]);
      used := 2;
    } else {
      var both := rest[0][0] == '!';
      var pieces := Tokenize(rest[0], if both then "!" else "|");
      if pieces == [] {
        return Crash, 0;
      }
      parks := [Park(Atoi(pieces[0]), both)];
    }
    AppendOne(done, args, file, parks, Group(rest[used..]));
    r := Parsed(done.commands + [args], if file.Some? then file else done.file, done.parks + parks);
  }

  /** The loops over the tokens. */
  method Parse(line: string) returns (r: Parsed)
    ensures r == Group(Words(line, " "))
  {
    hide *;
    var tokens := Tokenize(line, " ");
    var i := 0;
    r := Parsed([], None, []);
    AppendNothing(Group(tokens));
    assert tokens[0..] == tokens;
    while i < |tokens|
      invariant i <= |tokens| && r.Parsed?
      invariant Append(r, Group(tokens[i..])) == Group(tokens)
    {
      var start := i;
      var args;
      args, i := Arguments(tokens, start);
      if i == |tokens| {
        AppendLast(r, args);
        assert tokens[i..] == [];
        r := r.(commands := r.commands + [args]);
      } else {
        ghost var before := r;
        var used;
        r, used := Operator(tokens[i..], args, r);
        if r.Crash? {
          AppendCrash(before);
          return;
        }
        assert tokens[i..][used..] == tokens[i + used..];
        i := i + used;
      }
    }
    AppendEnd(r);
    assert tokens[i..] == [];
  }

  lemma AppendNothing(rest: Parsed)
    ensures Append(Parsed([], None, []), rest) == rest
  {
  }

  lemma AppendEnd(done: Parsed)
    ensures Append(done, Group([])) == done
  {
  }

  lemma AppendLast(done: Parsed, args: seq<string>)
    requires done.Parsed?
    ensures Append(done, Parsed([args], None, [])) == Append(done.(commands := done.commands + [args]), Group([]))
  {
  }

  // ---------- Any line ----------

  /** Arguments and the operator that ends them: `|`, `>` and its file, or a token that
      gives a number. */
  datatype Piece = Piped(args: seq<string>) | Filed(args: seq<string>, name: string) | Numbered(args: seq<string>, token: string)

  function OpTokens(p: Piece): seq<string> {
    match p
    case Piped(_) => ["|"]
    case Filed(_, name) => [">", name]
    case Numbered(_, token) => [token]
  }

  function Flat(pieces: seq<Piece>, rest: seq<string>): seq<string> {
    if pieces == [] then rest
    else
      var p := pieces[0];
      p.args + OpTokens(p) + Flat(pieces[1..], rest)
  }

  function OpOf(token: string): char {
    if token != [] && token[0] == '!' then '!' else '|'
  }

  predicate AreArguments(args: seq<string>) {
    forall i :: 0 <= i < |args| ==> args[i] == "" || args[i][0] !in ">|!"
  }

  predicate IsNumbered(token: string) {
    IsOperator(token) && token != "|" && token != ">" && NumberOf(token, OpOf(token)).Some?
  }

  predicate PieceOk(p: Piece) {
    AreArguments(p.args) && (p.Numbered? ==> IsNumbered(p.token))
  }

  /** What makes the parser use a null token: `>` at the end of the line, or an operator
      without a number. */
  predicate IsBroken(rest: seq<string>) {
    && rest != [] && IsOperator(rest[0])
    && (rest == [">"] || (rest[0] != "|" && rest[0] != ">" && NumberOf(rest[0], OpOf(rest[0])).None?))
  }

  function ArgumentLists(pieces: seq<Piece>): seq<seq<string>> {
    seq(|pieces|, i requires 0 <= i < |pieces| => pieces[i].args)
  }

  /** The file of the last `>`. */
  function FileOf(pieces: seq<Piece>): Option<string> {
    if pieces == [] then None
    else
      var later := FileOf(pieces[1..]);
      if later.Some? then later else if pieces[0].Filed? then Some(pieces[0].name) else None
  }

  function ParkOf(p: Piece): seq<Park>
    requires PieceOk(p)
  {
    if p.Numbered? then [Park(NumberOf(p.token, OpOf(p.token)).value, OpOf(p.token) == '!')] else []
  }

  /** The number operators in order. */
  function ParksOf(pieces: seq<Piece>): seq<Park>
    requires forall i :: 0 <= i < |pieces| ==> PieceOk(pieces[i])
  {
    if pieces == [] then []
    else
      assert PieceOk(pieces[0]);
      ParkOf(pieces[0]) + ParksOf(pieces[1..])
  }

  lemma OnePiece(p: Piece, rest: seq<string>)
    requires PieceOk(p)
    ensures Group(Flat([p], rest)) ==
      Before(p.args, if p.Filed? then Some(p.name) else None, ParkOf(p), Group(rest))
  {
    var op := OpTokens(p);
    assert [p][1..] == [];
    var tokens := p.args + op + rest;
    assert Flat([p], rest) == tokens;
    assert tokens[..|p.args|] == p.args && tokens[|p.args|..] == op + rest;
    assert tokens[|p.args|] == op[0];
    assert forall k :: 0 <= k < |p.args| ==> tokens[k] == p.args[k];
    hide Group, Before, NumberOf;
    GroupAt(tokens, |p.args|);
    assert (op + rest)[|op|..] == rest;
  }

  lemma FlatFirst(pieces: seq<Piece>, rest: seq<string>)
    requires pieces != []
    ensures Flat(pieces, rest) == Flat([pieces[0]], Flat(pieces[1..], rest))
  {
    assert [pieces[0]][1..] == [];
  }

  /** A line without a null token gives its arguments piece by piece, the file of its last
      `>`, and its numbers in order. */
  lemma {:induction false} PiecesParse(pieces: seq<Piece>, last: seq<string>)
    requires (forall i :: 0 <= i < |pieces| ==> PieceOk(pieces[i])) && AreArguments(last)
    ensures Group(Flat(pieces, last)) ==
      Parsed(ArgumentLists(pieces) + (if last == [] then [] else [last]), FileOf(pieces), ParksOf(pieces))
  {
    if pieces == [] {
      LastParse(last);
      assert ArgumentLists([]) == [];
    } else {
      PiecesParse(pieces[1..], last);
      hide *;
      FlatFirst(pieces, last);
      OnePiece(pieces[0], Flat(pieces[1..], last));
      PiecesNext(pieces, last, Flat(pieces[1..], last));
    }
  }

  lemma LastParse(last: seq<string>)
    requires AreArguments(last)
    ensures Group(last) == Parsed(if last == [] then [] else [last], None, [])
  {
    if last != [] {
      GroupAt(last, |last|);
    }
  }

  lemma ArgumentsFirst(pieces: seq<Piece>, tail: seq<seq<string>>)
    requires pieces != []
    ensures [pieces[0].args] + (ArgumentLists(pieces[1..]) + tail) == ArgumentLists(pieces) + tail
  {
    assert ArgumentLists(pieces) == [pieces[0].args] + ArgumentLists(pieces[1..]);
  }

  lemma BeforeParsed(args: seq<string>, file: Option<string>, parks: seq<Park>, commands: seq<seq<string>>, later: Option<string>, more: seq<Park>)
    ensures Before(args, file, parks, Parsed(commands, later, more)) ==
      Parsed([args] + commands, if later.Some? then later else file, parks + more)
  {
  }

  lemma PiecesNext(pieces: seq<Piece>, last: seq<string>, rest: seq<string>)
    requires pieces != [] && forall i :: 0 <= i < |pieces| ==> PieceOk(pieces[i])
    requires Group(rest) ==
      Parsed(ArgumentLists(pieces[1..]) + (if last == [] then [] else [last]), FileOf(pieces[1..]), ParksOf(pieces[1..]))
    ensures
      var p := pieces[0];
      Before(p.args, if p.Filed? then Some(p.name) else None, ParkOf(p), Group(rest)) ==
      Parsed(ArgumentLists(pieces) + (if last == [] then [] else [last]), FileOf(pieces), ParksOf(pieces))
  {
    hide Group, ParkOf, PieceOk, Before, ArgumentLists;
    var p, tail := pieces[0], if last == [] then [] else [last];
    ArgumentsFirst(pieces, tail);
    BeforeParsed(p.args, if p.Filed? then Some(p.name) else None, ParkOf(p),
                 ArgumentLists(pieces[1..]) + tail, FileOf(pieces[1..]), ParksOf(pieces[1..]));
  }

  /** One with a null token crashes the parser, wherever it is. */
  lemma {:induction false} PiecesCrash(pieces: seq<Piece>, args: seq<string>, broken: seq<string>)
    requires (forall i :: 0 <= i < |pieces| ==> PieceOk(pieces[i])) && AreArguments(args) && IsBroken(broken)
    ensures Group(Flat(pieces, args + broken)) == Crash
  {
    if pieces == [] {
      var tokens := args + broken;
      assert tokens[..|args|] == args && tokens[|args|..] == broken && tokens[|args|] == broken[0];
      assert forall k :: 0 <= k < |args| ==> tokens[k] == args[k];
      hide Group, NumberOf;
      GroupAt(tokens, |args|);
    } else {
      hide Group, PieceOk, OpOf, AreArguments, IsBroken;
      PiecesCrash(pieces[1..], args, broken);
      FlatFirst(pieces, args + broken);
      OnePiece(pieces[0], Flat(pieces[1..], args + broken));
    }
  }

  /** And every line is of one of these two forms. */
  lemma {:induction false} EveryLine(tokens: seq<string>) returns (pieces: seq<Piece>, last: seq<string>, broken: seq<string>)
    ensures tokens == Flat(pieces, last + broken) && AreArguments(last) && forall i :: 0 <= i < |pieces| ==> PieceOk(pieces[i])
    ensures broken == [] || IsBroken(broken)
    decreases |tokens|
  {
    var n := ArgCount(tokens);
    var args, rest := tokens[..n], tokens[n..];
    if rest == [] || IsBroken(rest) {
      pieces, last, broken := [], args, rest;
      assert tokens == args + rest;
    } else {
      var p, used := FirstPiece(args, rest);
      hide IsBroken, PieceOk, AreArguments, Flat, OpTokens, ArgCount;
      pieces, last, broken := EveryLine(rest[used..]);
      MorePieces(tokens, args, rest, p, used, pieces, last + broken);
      pieces := [p] + pieces;
    }
  }

  lemma MorePieces(tokens: seq<string>, args: seq<string>, rest: seq<string>, p: Piece, used: nat, pieces: seq<Piece>, more: seq<string>)
    requires tokens == args + rest && used <= |rest| && p.args == args && rest[..used] == OpTokens(p) && rest[used..] == Flat(pieces, more)
    ensures tokens == Flat([p] + pieces, more)
  {
    assert ([p] + pieces)[1..] == pieces;
    assert tokens == args + rest[..used] + rest[used..];
  }

  lemma FirstPiece(args: seq<string>, rest: seq<string>) returns (p: Piece, used: nat)
    requires AreArguments(args) && rest != [] && IsOperator(rest[0]) && !IsBroken(rest)
    ensures 1 <= used <= |rest| && PieceOk(p) && p.args == args
    ensures rest[..used] == OpTokens(p)
  {
    hide NumberOf;
    if rest[0] == "|" {
      p, used := Piped(args), 1;
    } else if rest[0] == ">" {
      p, used := Filed(args, rest[1]), 2;
    } else {
      p, used := Numbered(args, rest[0]), 1;
    }
  }

  /** An operator gives no number exactly when it consists of its first character only. */
  lemma NoNumber(token: string)
    ensures NumberOf(token, OpOf(token)).None? <==> forall i :: 0 <= i < |token| ==> token[i] == OpOf(token)
  {
    NoWords(token, [OpOf(token)]);
  }

  // ---------- Printing ----------

  datatype End = NoEnd | ToFile(name: string) | Number(n: nat, both: bool)

  predicate IsArgument(w: string) {
    IsWord(w, " ") && w[0] !in ">|!"
  }

  predicate WellFormed(commands: seq<seq<string>>, end: End) {
    && commands != []
    && (forall i :: 0 <= i < |commands| ==> commands[i] != [] && forall j :: 0 <= j < |commands[i]| ==> IsArgument(commands[i][j]))
    && (end.ToFile? ==> IsWord(end.name, " "))
  }

  function EndTokens(end: End): seq<string> {
    match end
    case NoEnd => []
    case ToFile(name) => [">", name]
    case Number(n, both) => [[if both then '!' else '|'] + ToString(n)]
  }

  function TokensOf(commands: seq<seq<string>>, end: End): seq<string>
    requires commands != []
  {
    if |commands| == 1 then commands[0] + EndTokens(end) else commands[0] + ["|"] + TokensOf(commands[1..], end)
  }

  function Render(commands: seq<seq<string>>, end: End): string
    requires commands != []
  {
    Join(TokensOf(commands, end), " ")
  }

  function Meant(commands: seq<seq<string>>, end: End): Parsed {
    Parsed(commands, if end.ToFile? then Some(end.name) else None, if end.Number? then [Park(end.n, end.both)] else [])
  }

  lemma NumberToken(n: nat, both: bool)
    ensures
      var op := if both then '!' else '|';
      var token := [op] + ToString(n);
      && IsWord(token, " ") && IsOperator(token) && token != "|" && token != ">"
      && NumberOf(token, op) == Some(n)
  {
    var op := if both then '!' else '|';
    var digits := ToString(n);
    var token := [op] + digits;
    assert token[1..] == digits && |token| > 1;
    WordLengthIs(digits, [op], |digits|);
    assert digits[..|digits|] == digits && digits[|digits|..] == [];
    assert Words(digits, [op]) == [digits];
    AtoiOfToString(n);
  }

  lemma {:induction false} TokensAreWords(commands: seq<seq<string>>, end: End)
    requires WellFormed(commands, end)
    ensures forall i :: 0 <= i < |TokensOf(commands, end)| ==> IsWord(TokensOf(commands, end)[i], " ")
  {
    if end.Number? {
      NumberToken(end.n, end.both);
    }
    if |commands| > 1 {
      TokensAreWords(commands[1..], end);
    }
  }

  lemma AtFile(args: seq<string>, name: string)
    ensures AtOperator(args, [">", name]) == Parsed([args], Some(name), [])
  {
    assert [">", name][2..] == [];
    assert Group([]) == Parsed([], None, []);
  }

  lemma AtNumber(args: seq<string>, n: nat, both: bool)
    ensures
      var token := [if both then '!' else '|'] + ToString(n);
      IsOperator(token) && AtOperator(args, [token]) == Parsed([args], None, [Park(n, both)])
  {
    NumberToken(n, both);
    hide NumberOf, ToString;
    var token := [if both then '!' else '|'] + ToString(n);
    assert [token][1..] == [];
    assert Group([]) == Parsed([], None, []);
  }

  lemma GroupEnd(args: seq<string>, end: End)
    requires WellFormed([args], end)
    ensures Group(args + EndTokens(end)) == Meant([args], end)
  {
    var tokens := args + EndTokens(end);
    assert [args][0] == args;
    assert forall j :: 0 <= j < |args| ==> tokens[j] == args[j] && IsArgument(args[j]);
    assert tokens[..|args|] == args && tokens[|args|..] == EndTokens(end);
    hide Group, AtOperator, ToString;
    match end
    case NoEnd =>
      GroupAt(tokens, |args|);
      assert tokens == args;
    case ToFile(name) =>
      GroupAt(tokens, |args|);
      AtFile(args, name);
    case Number(n, both) =>
      AtNumber(args, n, both);
      GroupAt(tokens, |args|);
  }

  lemma GroupOfPipe(args: seq<string>, rest: seq<string>)
    requires args != [] && forall j :: 0 <= j < |args| ==> IsArgument(args[j])
    ensures Group(args + ["|"] + rest) == Before(args, None, [], Group(rest))
  {
    hide Before;
    var tokens := args + ["|"] + rest;
    GroupAt(tokens, |args|);
    assert tokens[..|args|] == args && tokens[|args|..] == ["|"] + rest && (["|"] + rest)[1..] == rest;
  }

  lemma {:induction false} GroupOfTokens(commands: seq<seq<string>>, end: End)
    requires WellFormed(commands, end)
    ensures Group(TokensOf(commands, end)) == Meant(commands, end)
  {
    hide Group;
    if |commands| == 1 {
      assert commands == [commands[0]];
      GroupEnd(commands[0], end);
    } else {
      GroupOfTokens(commands[1..], end);
      GroupOfPipe(commands[0], TokensOf(commands[1..], end));
      assert [commands[0]] + commands[1..] == commands;
    }
  }

  /** Parsing undoes printing. */
  lemma ParseOfRender(commands: seq<seq<string>>, end: End)
    requires WellFormed(commands, end)
    ensures Group(Words(Render(commands, end), " ")) == Meant(commands, end)
  {
    TokensAreWords(commands, end);
    WordsOfJoin(TokensOf(commands, end), ' ', " ");
    GroupOfTokens(commands, end);
  }

  /** So no two well-formed lines are printed alike. */
  lemma RenderInjective(commands: seq<seq<string>>, end: End, commands2: seq<seq<string>>, end2: End)
    requires WellFormed(commands, end) && WellFormed(commands2, end2) && Render(commands, end) == Render(commands2, end2)
    ensures commands == commands2 && end == end2
  {
    ParseOfRender(commands, end);
    ParseOfRender(commands2, end2);
    var m, m2 := Meant(commands, end), Meant(commands2, end2);
    assert m.file == m2.file && m.parks == m2.parks;
    if end.Number? && end2.Number? {
      assert m.parks[0] == m2.parks[0];
    }
  }
}
