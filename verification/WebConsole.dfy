/** The web console's escaping: what it writes for the shell's text, and what a browser
    reads back. */
module WebConsole {

  // ---------- One character at a time ----------

  function EscapeChar(c: char): string {
    match c
    case '&' => "&amp;"
    case '"' => "&quot;"
    case '\'' => "&apos;"
    case '<' => "&lt;"
    case '>' => "&gt;"
    case _ => [c]
  }

  function Escape(s: string): string {
    if s == [] then [] else Escape(s[..|s| - 1]) + EscapeChar(s[|s| - 1])
  }

  /** `s` with every `c` replaced. */
  function Replaced(s: string, c: char, sub: string): string {
    if s == [] then [] else (if s[0] == c then sub else [s[0]]) + Replaced(s[1..], c, sub)
  }

  /** What the console shows for one character of the shell. */
  function Shown(c: char): string {
    match c
    case '\n' => "&NewLine;"
    case '\r' => ""
    case _ => EscapeChar(c)
  }

  function AllShown(s: string): string {
    if s == [] then [] else Shown(s[0]) + AllShown(s[1..])
  }

  // ---------- The loops ----------

  /** encode(): appends to a buffer and swaps it with the data. */
  method Encode(data: string) returns (buffer: string)
    ensures buffer == Escape(data)
  {
    buffer := "";
    for pos := 0 to |data|
      invariant buffer == Escape(data[..pos])
    {
      assert data[..pos + 1][..pos] == data[..pos];
      match data[pos] {
        case '&' => buffer := buffer + "&amp;";
        case '"' => buffer := buffer + "&quot;";
        case '\'' => buffer := buffer + "&apos;";
        case '<' => buffer := buffer + "&lt;";
        case '>' => buffer := buffer + "&gt;";
        case _ => buffer := buffer + [data[pos]];
      }
    }
    assert data[..|data|] == data;
  }

  function Count(s: string, c: char): nat {
    multiset(s)[c]
  }

  /** One replacement of the first `c`, as long as there is one. */
  method ReplaceAll(s: string, c: char, sub: string) returns (r: string)
    requires c !in sub
    ensures r == Replaced(s, c, sub) && c !in r
  {
    hide Replaced, Count;
    r := s;
    while true
      invariant Replaced(r, c, sub) == Replaced(s, c, sub)
      decreases Count(r, c)
    {
      var pos := 0;
      while pos < |r| && r[pos] != c
        invariant pos <= |r| && c !in r[..pos]
      {
        pos := pos + 1;
      }
      if pos == |r| {
        assert r[..pos] == r;
        NothingToReplace(r, c, sub);
        return;
      }
      ReplaceFirst(r, pos, c, sub);
      r := r[..pos] + sub + r[pos + 1..];
    }
  }

  lemma {:induction false} NothingToReplace(s: string, c: char, sub: string)
    requires c !in s
    ensures Replaced(s, c, sub) == s
  {
    if s != [] {
      NothingToReplace(s[1..], c, sub);
    }
  }

  lemma {:induction false} ReplacedConcat(s: string, t: string, c: char, sub: string)
    ensures Replaced(s + t, c, sub) == Replaced(s, c, sub) + Replaced(t, c, sub)
  {
    if s == [] {
      assert s + t == t;
    } else {
      assert (s + t)[1..] == s[1..] + t;
      ReplacedConcat(s[1..], t, c, sub);
    }
  }

  lemma ReplaceFirst(s: string, pos: nat, c: char, sub: string)
    requires pos < |s| && s[pos] == c && c !in sub
    ensures Replaced(s[..pos] + sub + s[pos + 1..], c, sub) == Replaced(s, c, sub)
    ensures Count(s[..pos] + sub + s[pos + 1..], c) < Count(s, c)
  {
    hide *;
    assert s == s[..pos] + [c] + s[pos + 1..];
    ReplaceMiddle(s[..pos], s[pos + 1..], c, sub);
    CountMiddle(s[..pos], s[pos + 1..], c, sub);
  }

  lemma ReplaceMiddle(a: string, b: string, c: char, sub: string)
    requires c !in sub
    ensures Replaced(a + sub + b, c, sub) == Replaced(a + [c] + b, c, sub)
  {
    ReplacedConcat(a + [c], b, c, sub);
    ReplacedConcat(a, [c], c, sub);
    ReplacedConcat(a + sub, b, c, sub);
    ReplacedConcat(a, sub, c, sub);
    NothingToReplace(sub, c, sub);
    ReplaceOne(c, sub);
    hide Replaced;
  }

  lemma ReplaceOne(c: char, sub: string)
    ensures Replaced([c], c, sub) == sub
  {
    assert [c][1..] == [];
    assert Replaced([], c, sub) == [];
  }

  lemma CountMiddle(a: string, b: string, c: char, sub: string)
    requires c !in sub
    ensures Count(a + sub + b, c) < Count(a + [c] + b, c)
  {
    assert multiset(sub)[c] == 0;
    assert multiset(a + sub + b) == multiset(a) + multiset(sub) + multiset(b);
    assert multiset(a + [c] + b) == multiset(a) + multiset([c]) + multiset(b);
  }

  /** write_to_console(): the text between the quotes of the script. */
  method WriteToConsole(response: string) returns (text: string)
    ensures text == Replaced(Replaced(response, '\n', "&NewLine;"), '\r', "")
    ensures '\n' !in text && '\r' !in text
  {
    var lines := ReplaceAll(response, '\n', "&NewLine;");
    text := ReplaceAll(lines, '\r', "");
    StillWithout(lines, '\n', '\r');
  }

  lemma {:induction false} StillWithout(s: string, a: char, c: char)
    requires a !in s
    ensures a !in Replaced(s, c, "")
  {
    if s != [] {
      assert s == [s[0]] + s[1..];
      StillWithout(s[1..], a, c);
    }
  }

  // ---------- The loops as one character-wise map ----------

  lemma EscapeLast(s: string, c: char)
    ensures Escape(s + [c]) == Escape(s) + EscapeChar(c)
  {
    assert (s + [c])[..|s|] == s;
  }

  lemma EscapeNothing()
    ensures Escape([]) == []
  {
  }

  lemma Associative(a: string, b: string, c: string)
    ensures (a + b) + c == a + (b + c)
  {
  }

  lemma {:induction false} EscapeConcat(s: string, t: string)
    ensures Escape(s + t) == Escape(s) + Escape(t)
  {
    hide *;
    if t == [] {
      EscapeNothing();
      assert s + t == s;
    } else {
      var n := |t| - 1;
      var a, c := t[..n], t[n];
      EscapeConcat(s, a);
      EscapeLast(a, c);
      EscapeLast(s + a, c);
      assert a + [c] == t;
      Associative(s, a, [c]);
      Associative(Escape(s), Escape(a), EscapeChar(c));
    }
  }

  lemma EscapeOne(c: char)
    ensures Escape([c]) == EscapeChar(c)
  {
    hide EscapeChar;
    assert [c][..0] == [];
  }

  lemma EscapeCharPlain(c: char)
    ensures if c == '\n' || c == '\r' then EscapeChar(c) == [c] else '\n' !in EscapeChar(c) && '\r' !in EscapeChar(c)
  {
  }

  lemma ShownOfChar(c: char)
    ensures Replaced(Replaced(Escape([c]), '\n', "&NewLine;"), '\r', "") == Shown(c)
  {
    EscapeOne(c);
    EscapeCharPlain(c);
    hide Escape, EscapeChar, Replaced;
    if c == '\n' {
      ReplaceOne('\n', "&NewLine;");
      NothingToReplace("&NewLine;", '\r', "");
    } else if c == '\r' {
      NothingToReplace("\r", '\n', "&NewLine;");
      ReplaceOne('\r', "");
    } else {
      NothingToReplace(EscapeChar(c), '\n', "&NewLine;");
      NothingToReplace(EscapeChar(c), '\r', "");
    }
  }

  /** Escaping and then replacing line ends is one map over the characters. */
  lemma {:induction false} OneMap(s: string)
    ensures Replaced(Replaced(Escape(s), '\n', "&NewLine;"), '\r', "") == AllShown(s)
  {
    if s != [] {
      var first, rest := [s[0]], s[1..];
      assert s == first + rest;
      OneMap(rest);
      ShownOfChar(s[0]);
      hide Escape, Replaced;
      EscapeConcat(first, rest);
      ReplacedConcat(Escape(first), Escape(rest), '\n', "&NewLine;");
      ReplacedConcat(Replaced(Escape(first), '\n', "&NewLine;"), Replaced(Escape(rest), '\n', "&NewLine;"), '\r', "");
    }
  }

  /** What the console writes for each character, and that a text is written character by
      character. */
  lemma ShownTable(s: string, t: string, c: char)
    ensures AllShown("") == "" && AllShown(s + t) == AllShown(s) + AllShown(t)
    ensures AllShown("&") == "&amp;" && AllShown("\"") == "&quot;" && AllShown("'") == "&apos;"
    ensures AllShown("<") == "&lt;" && AllShown(">") == "&gt;" && AllShown("\n") == "&NewLine;" && AllShown("\r") == ""
    ensures c !in "&\"'<>\n\r" ==> AllShown([c]) == [c]
  {
    ShownConcat(s, t);
    ShownOne('&');
    ShownOne('"');
    ShownOne('\'');
    ShownOne('<');
    ShownOne('>');
    ShownOne('\n');
    ShownOne('\r');
    ShownOne(c);
    hide AllShown;
    assert "&" == ['&'] && "\"" == ['"'] && "'" == ['\''] && "<" == ['<'] && ">" == ['>'] && "\n" == ['\n'] && "\r" == ['\r'];
    NothingShown();
  }

  /** And encode() alone, which keeps line ends. */
  lemma EscapeTable(s: string, t: string, c: char)
    ensures Escape("") == "" && Escape(s + t) == Escape(s) + Escape(t)
    ensures Escape("&") == "&amp;" && Escape("\"") == "&quot;" && Escape("'") == "&apos;"
    ensures Escape("<") == "&lt;" && Escape(">") == "&gt;" && (c !in "&\"'<>" ==> Escape([c]) == [c])
  {
    EscapeConcat(s, t);
    EscapeNothing();
    EscapeOne('&');
    EscapeOne('"');
    EscapeOne('\'');
    EscapeOne('<');
    EscapeOne('>');
    EscapeOne(c);
    hide Escape;
    assert "&" == ['&'] && "\"" == ['"'] && "'" == ['\''] && "<" == ['<'] && ">" == ['>'];
  }

  // ---------- Reading it back ----------

  /** Character references as a browser reads them; anything else stands for itself. */
  function Decode(t: string): string
    decreases |t|
  {
    if t == [] then []
    else if "&amp;" <= t then "&" + Decode(t[5..])
    else if "&quot;" <= t then "\"" + Decode(t[6..])
    else if "&apos;" <= t then "'" + Decode(t[6..])
    else if "&lt;" <= t then "<" + Decode(t[4..])
    else if "&gt;" <= t then ">" + Decode(t[4..])
    else if "&NewLine;" <= t then "\n" + Decode(t[9..])
    else [t[0]] + Decode(t[1..])
  }

  function WithoutReturns(s: string): string {
    if s == [] then [] else (if s[0] == '\r' then [] else [s[0]]) + WithoutReturns(s[1..])
  }

  lemma NoPrefix(p: string, u: string, i: nat)
    requires i < |p| && i < |u| && p[i] != u[i]
    ensures !(p <= u)
  {
  }

  lemma DecodeEntity(c: char, t: string)
    requires c in "&\"'<>\n"
    ensures Decode(Shown(c) + t) == [c] + Decode(t)
  {
    var e := Shown(c);
    var u := e + t;
    assert u[|e|..] == t && e <= u;
    assert u[1] == e[1] && u[2] == e[2];
    if c != '&' {
      if c == '\'' { NoPrefix("&amp;", u, 2); } else { NoPrefix("&amp;", u, 1); }
      if c != '"' {
        NoPrefix("&quot;", u, 1);
        if c != '\'' {
          NoPrefix("&apos;", u, 1);
          if c != '<' {
            NoPrefix("&lt;", u, 1);
            if c != '>' {
              NoPrefix("&gt;", u, 1);
            }
          }
        }
      }
    }
  }

  lemma DecodeChar(c: char, t: string)
    ensures Decode(Shown(c) + t) == (if c == '\r' then [] else [c]) + Decode(t)
  {
    var u := Shown(c) + t;
    if c == '\r' {
      assert u == t;
    } else if c in "&\"'<>\n" {
      DecodeEntity(c, t);
    } else {
      DecodePlain(c, t);
      assert u == [c] + t;
    }
  }

  lemma DecodePlain(c: char, t: string)
    requires c != '&'
    ensures Decode([c] + t) == [c] + Decode(t)
  {
    assert ([c] + t)[0] == c && ([c] + t)[1..] == t;
  }

  lemma {:induction false} DecodeThen(s: string, t: string)
    ensures Decode(AllShown(s) + t) == WithoutReturns(s) + Decode(t)
  {
    if s == [] {
      assert AllShown(s) + t == t;
    } else {
      hide Decode, Shown;
      Associative(Shown(s[0]), AllShown(s[1..]), t);
      Associative(if s[0] == '\r' then [] else [s[0]], WithoutReturns(s[1..]), Decode(t));
      DecodeChar(s[0], AllShown(s[1..]) + t);
      DecodeThen(s[1..], t);
    }
  }

  /** The browser shows the shell's text without its carriage returns. */
  lemma DecodeOfShown(s: string)
    ensures Decode(AllShown(s)) == WithoutReturns(s)
  {
    DecodeThen(s, []);
    assert AllShown(s) + [] == AllShown(s);
  }

  /** What is written has no double quote, no angle bracket and no line end. */
  lemma {:induction false} NoQuotesTagsOrLineEnds(s: string)
    ensures forall i :: 0 <= i < |AllShown(s)| ==> AllShown(s)[i] !in "\"<>\n\r"
  {
    if s != [] {
      NoQuotesTagsOrLineEnds(s[1..]);
      assert forall i :: 0 <= i < |Shown(s[0])| ==> Shown(s[0])[i] !in "\"<>\n\r";
    }
  }

  // ---------- One shell session ----------

  lemma {:induction false} ShownConcat(s: string, t: string)
    ensures AllShown(s + t) == AllShown(s) + AllShown(t)
  {
    if s == [] {
      assert s + t == t;
    } else {
      assert (s + t)[1..] == s[1..] + t;
      ShownConcat(s[1..], t);
    }
  }

  lemma PercentChar(c: char)
    ensures '%' in EscapeChar(c) <==> c == '%'
  {
  }

  /** Escaping neither hides nor makes a prompt. */
  lemma {:induction false} PercentKept(s: string)
    ensures '%' in Escape(s) <==> '%' in s
  {
    if s != [] {
      var n := |s| - 1;
      PercentKept(s[..n]);
      PercentChar(s[n]);
      assert s == s[..n] + [s[n]];
      hide EscapeChar;
    }
  }

  /** The text of a session: each response, and after each one with a prompt the next
      command, while there is one. */
  function Session(commands: seq<string>, responses: seq<string>): string
    decreases |responses|
  {
    if responses == [] then ""
    else if commands != [] && '%' in responses[0]
    then responses[0] + (commands[0] + " \n") + Session(commands[1..], responses[1..])
    else responses[0] + Session(commands, responses[1..])
  }

  function Prompts(responses: seq<string>): nat {
    if responses == [] then 0 else (if '%' in responses[0] then 1 else 0) + Prompts(responses[1..])
  }

  /** One more response: its text, and the next command if it has a prompt. */
  lemma {:induction false} SessionMore(commands: seq<string>, responses: seq<string>, r: string)
    ensures Session(commands, []) == "" && Prompts([]) == 0
    ensures Prompts(responses + [r]) == Prompts(responses) + if '%' in r then 1 else 0
    ensures Session(commands, responses + [r]) == Session(commands, responses) + r +
      if '%' in r && Prompts(responses) < |commands| then commands[Prompts(responses)] + " \n" else ""
    decreases |responses|
  {
    hide Session;
    SessionNone(commands);
    if responses == [] {
      SessionText(commands, [r]);
      SessionNone(if commands != [] && '%' in r then commands[1..] else commands);
      assert [r][1..] == [] && responses + [r] == [r] && Prompts(([r])[1..]) == 0;
    } else {
      var rest, all := responses[1..], responses + [r];
      assert all[0] == responses[0] && all[1..] == rest + [r];
      var prompt := commands != [] && '%' in responses[0];
      var text, left := if prompt then responses[0] + (commands[0] + " \n") else responses[0], if prompt then commands[1..] else commands;
      SessionMore(left, rest, r);
      SessionText(commands, responses);
      SessionText(commands, all);
      var last := if '%' in r && Prompts(responses) < |commands| then commands[Prompts(responses)] + " \n" else "";
      assert Session(left, rest + [r]) == Session(left, rest) + r + last;
      Associative(text, Session(left, rest) + r, last);
      Associative(text, Session(left, rest), r);
    }
  }

  lemma SessionNone(commands: seq<string>)
    ensures Session(commands, []) == ""
  {
  }

  lemma SessionText(commands: seq<string>, responses: seq<string>)
    requires responses != []
    ensures
      var prompt := commands != [] && '%' in responses[0];
      Session(commands, responses) ==
        (if prompt then responses[0] + (commands[0] + " \n") else responses[0])
        + Session(if prompt then commands[1..] else commands, responses[1..])
  {
  }

  function Min(a: nat, b: nat): nat {
    if a <= b then a else b
  }

  function Lines(commands: seq<string>): seq<string> {
    if commands == [] then [] else [commands[0] + "\n"] + Lines(commands[1..])
  }

  class NpShellRun {
    var command: seq<string>
    /** Everything written between the quotes of the page's scripts. */
    var page: string
    /** The lines written to the shell. */
    var sent: seq<string>

    constructor (commands: seq<string>)
      ensures command == commands && page == "" && sent == []
    {
      command, page, sent := commands, "", [];
    }

    method Write(text: string)
      modifies `page
      ensures page == old(page) + AllShown(text)
    {
      var encoded := Encode(text);
      var shown := WriteToConsole(encoded);
      OneMap(text);
      page := page + shown;
    }

    /** The handler of one response. */
    method Response(text: string)
      modifies this
      ensures
        var prompt := old(command) != [] && '%' in text;
        && command == (if prompt then old(command)[1..] else old(command))
        && sent == (if prompt then old(sent) + [old(command)[0] + "\n"] else old(sent))
        && page == old(page) + AllShown(if prompt then text + (old(command)[0] + " \n") else text)
    {
      hide AllShown, Escape;
      Write(text);
      var encoded := Encode(text);
      PercentKept(text);
      if |command| > 0 {
        if '%' in encoded {
          var line := command[0];
          WriteCommand(line);
          ShownConcat(text, line + " \n");
          Associative(old(page), AllShown(text), AllShown(line + " \n"));
          sent := sent + [line + "\n"];
          command := command[1..];
        }
      }
    }

    method WriteCommand(line: string)
      modifies `page
      ensures page == old(page) + AllShown(line + " \n")
    {
      hide *;
      Write(line);
      var shown := WriteToConsole(" &NewLine;");
      LineEnd();
      ShownConcat(line, " \n");
      page := page + shown;
      Associative(old(page), AllShown(line), AllShown(" \n"));
    }

    /** A session over any responses: the commands go out one per prompt, in order, and
        the page reads as the session's text without carriage returns. */
    method Run(responses: seq<string>)
      requires page == "" && sent == []
      modifies this
      ensures
        var k := Min(|old(command)|, Prompts(responses));
        && sent == Lines(old(command)[..k]) && command == old(command)[k..]
        && |sent| == k && (forall j :: 0 <= j < k ==> sent[j] == old(command)[j] + "\n")
        && page == AllShown(Session(old(command), responses))
        && Decode(page) == WithoutReturns(Session(old(command), responses))
    {
      hide AllShown, Decode, WithoutReturns;
      ghost var all := command;
      var i := 0;
      NothingShown();
      assert responses[0..] == responses && all[0..] == all && all[..0] == [];
      ghost var k := 0;
      while i < |responses|
        invariant i <= |responses| && k <= |all| && command == all[k..]
        invariant sent == Lines(all[..k])
        invariant Min(|all|, Prompts(responses)) == k + Min(|all| - k, Prompts(responses[i..]))
        invariant page + AllShown(Session(command, responses[i..])) == AllShown(Session(all, responses))
      {
        ghost var rest := responses[i..];
        assert rest[0] == responses[i] && rest[1..] == responses[i + 1..];
        SessionStep(command, rest, page);
        LinesMore(all, k);
        Response(responses[i]);
        if k < |all| && '%' in responses[i] {
          k := k + 1;
        }
        i := i + 1;
      }
      assert responses[i..] == [];
      LinesAre(all[..k]);
      DecodeOfShown(Session(all, responses));
    }
  }

  lemma ShownOne(c: char)
    ensures AllShown([c]) == Shown(c)
  {
    hide Shown;
    assert [c][1..] == [];
  }

  lemma LineEnd()
    ensures Replaced(Replaced(" &NewLine;", '\n', "&NewLine;"), '\r', "") == AllShown(" \n")
  {
    hide Replaced, AllShown;
    NothingToReplace(" &NewLine;", '\n', "&NewLine;");
    NothingToReplace(" &NewLine;", '\r', "");
    ShownConcat([' '], ['\n']);
    ShownOne(' ');
    ShownOne('\n');
    assert [' '] + ['\n'] == " \n";
    assert [' '] + "&NewLine;" == " &NewLine;";
  }

  lemma NothingShown()
    ensures AllShown("") == ""
  {
  }

  lemma LinesMore(all: seq<string>, k: nat)
    requires k <= |all|
    ensures k < |all| ==> Lines(all[..k + 1]) == Lines(all[..k]) + [all[k] + "\n"]
  {
    if k < |all| {
      assert all[..k + 1] == all[..k] + [all[k]];
      LinesAppend(all[..k], all[k]);
    }
  }

  lemma {:induction false} LinesAre(commands: seq<string>)
    ensures |Lines(commands)| == |commands| && forall j :: 0 <= j < |commands| ==> Lines(commands)[j] == commands[j] + "\n"
  {
    if commands != [] {
      LinesAre(commands[1..]);
    }
  }

  lemma {:induction false} LinesAppend(a: seq<string>, line: string)
    ensures Lines(a + [line]) == Lines(a) + [line + "\n"]
  {
    if a == [] {
      assert Lines(([line])[1..]) == [];
    } else {
      assert (a + [line])[1..] == a[1..] + [line];
      LinesAppend(a[1..], line);
    }
  }

  lemma SessionStep(commands: seq<string>, rest: seq<string>, page: string)
    requires rest != []
    ensures
      var prompt := commands != [] && '%' in rest[0];
      var text := if prompt then rest[0] + (commands[0] + " \n") else rest[0];
      page + AllShown(Session(commands, rest))
        == page + AllShown(text) + AllShown(Session(if prompt then commands[1..] else commands, rest[1..]))
  {
    hide AllShown;
    var prompt := commands != [] && '%' in rest[0];
    var text := if prompt then rest[0] + (commands[0] + " \n") else rest[0];
    ShownConcat(text, Session(if prompt then commands[1..] else commands, rest[1..]));
    Associative(page, AllShown(text), AllShown(Session(if prompt then commands[1..] else commands, rest[1..])));
  }
}
