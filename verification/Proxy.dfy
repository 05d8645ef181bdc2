/** How a SOCKS session answers a request: parse it, ask the firewall, fill the reply. */
module Proxy {
  import opened Prelude
  import opened Text
  import opened Socks4
  import opened Firewall

  const GRANTED: Char := 90
  const REJECTED: Char := 91

  /** What the session goes on to do; a granted CONNECT to 0.0.0.0 gets no answer. */
  datatype Outcome =
    | Connecting(ip: string, port: string, reply: seq<Char>)
    | Binding(reply: seq<Char>)
    | Rejecting(reply: seq<Char>)
    | Ignored
    | Crashed

  function CommandText(c: Command): string {
    match c
    case Connect => "c"
    case Bind => "b"
    case Unknown => ""
  }

  function Allowed(conf: Option<seq<string>>, r: Request): Verdict {
    if conf.None? then Reject else Decide(conf.value, CommandText(r.cd), r.ip)
  }

  function Answer(bytes: seq<Char>, conf: Option<seq<string>>): Outcome
    requires |bytes| >= 8
  {
    var r := Meaning(bytes);
    match Allowed(conf, r)
    case Crash => Crashed
    case Reject => Rejecting([0, REJECTED] + bytes[2..8])
    case Accept =>
      match r.cd
      case Connect => if r.ip == "0.0.0.0" then Ignored else Connecting(r.ip, r.port, [0, GRANTED] + bytes[2..8])
      case Bind => Binding([0, GRANTED, 0, 0, 0, 0, 0, 0])
      case Unknown => Ignored
  }

  /** The reply's first two bytes and a copy of the request's next six, or zeros. */
  method Fill(reply: array<Char>, code: Char, request: array<Char>, copy: bool)
    requires reply.Length == 8 && request.Length >= 8 && reply != request
    modifies reply
    ensures reply[..] == [0, code] + if copy then request[2..8] else [0, 0, 0, 0, 0, 0]
  {
    reply[0] := 0;
    reply[1] := code;
    for i := 2 to 8
      invariant reply[0] == 0 && reply[1] == code
      invariant forall k :: 2 <= k < i ==> reply[k] == if copy then request[k] else 0
    {
      reply[i] := if copy then request[i] else 0;
    }
  }

  method Respond(request: array<Char>, reply: array<Char>, conf: Option<seq<string>>) returns (o: Outcome)
    requires request.Length >= 8 && reply.Length == 8 && request != reply
    modifies reply
    ensures o == Answer(request[..], conf)
    ensures (o.Connecting? || o.Binding? || o.Rejecting?) ==> o.reply == reply[..]
  {
    hide Meaning, Decide;
    ghost var bytes := request[..];
    var r := ParseRequest(request);
    var v := Permits(conf, CommandText(r.cd), r.ip);
    assert request[2..8] == bytes[2..8];
    if v == Crash {
      o := Crashed;
    } else if v == Accept {
      if r.cd == Connect {
        if r.ip != "0.0.0.0" {
          Fill(reply, GRANTED, request, true);
          o := Connecting(r.ip, r.port, reply[..]);
        } else {
          o := Ignored;
        }
      } else if r.cd == Bind {
        Fill(reply, GRANTED, request, false);
        o := Binding(reply[..]);
      } else {
        o := Ignored;
      }
    } else {
      Fill(reply, REJECTED, request, true);
      o := Rejecting(reply[..]);
    }
  }

  // ---------- The console's request, from end to end ----------

  lemma NotTheZeroAddress(a: Address)
    ensures AddressText(a) == "0.0.0.0" <==> a == [0, 0, 0, 0]
  {
    var zero: Address := [0, 0, 0, 0];
    assert AddressText(zero) == "0.0.0.0";
    if AddressText(a) == "0.0.0.0" {
      FullPrefix(a, zero);
      FullPrefix(zero, a);
      assert zero[..3] + [zero[3]] == zero && a == a[..3] + [a[3]];
    }
  }

  /** A request of the console is connected, to the address and port that it asked for,
      exactly when a `c` rule admits the address and it is not 0.0.0.0. */
  lemma ConnectedExactlyWhenPermitted(conf: seq<string>, rules: seq<Option<Rule>>, port: nat, a: Address)
    requires port < 65536 && |conf| == |rules| && forall i :: 0 <= i < |conf| ==> Gives(conf[i], rules[i])
    ensures
      var bytes := Encoded(port, a[0], a[1], a[2], a[3]);
      var permitted := exists i :: 0 <= i < |rules| && RuleAdmits(rules[i], "c", a);
      Answer(bytes, Some(conf)) ==
        if !permitted then Rejecting([0, REJECTED] + bytes[2..8])
        else if a == [0, 0, 0, 0] then Ignored
        else Connecting(AddressText(a), ToString(port), [0, GRANTED] + bytes[2..8])
  {
    hide Gives, RuleAdmits, Decide, Meaning, Encoded;
    EncodedLength(port, a);
    RoundTrip(port, a[0], a[1], a[2], a[3]);
    AcceptsExactlyMatches(conf, rules, "c", a);
    NotTheZeroAddress(a);
  }

  lemma EncodedLength(port: int, a: Address)
    ensures |Encoded(port, a[0], a[1], a[2], a[3])| == 9
  {
  }

  /** Without a rule for it, any request other than CONNECT and BIND is not granted. */
  lemma UnknownNotGranted(bytes: seq<Char>, conf: Option<seq<string>>)
    requires |bytes| >= 8 && Meaning(bytes).cd == Unknown
    ensures Answer(bytes, conf).Rejecting? || Answer(bytes, conf) == Crashed
  {
    if conf.Some? {
      UnknownNeverAccepted(conf.value, Meaning(bytes).ip);
    }
  }

  /** Any eight bytes against any configuration: what the session does, and which bytes it
      answers, is decided by the first line that grants the request or is read out of
      range. */
  lemma AnswersExactly(bytes: seq<Char>, conf: seq<string>)
    requires |bytes| >= 8
    ensures
      var r := Meaning(bytes);
      var command := if bytes[1] == 1 then "c" else if bytes[1] == 2 then "b" else "";
      var granted, cutShort := GrantedFirst(conf, command, r.ip), CutShortFirst(conf, command, r.ip);
      var o := Answer(bytes, Some(conf));
      && (o == Crashed <==> cutShort)
      && (o.Connecting? <==> granted && bytes[1] == 1 && r.ip != "0.0.0.0")
      && (o.Binding? <==> granted && bytes[1] == 2)
      && (o == Ignored <==> granted && bytes[1] == 1 && r.ip == "0.0.0.0")
      && (o.Rejecting? <==> !granted && !cutShort)
      && (o.Connecting? ==> o.ip == r.ip && o.port == r.port && o.reply == [0, 90] + bytes[2..8])
      && (o.Binding? ==> o.reply == [0, 90, 0, 0, 0, 0, 0, 0])
      && (o.Rejecting? ==> o.reply == [0, 91] + bytes[2..8])
  {
    var r := Meaning(bytes);
    CrashesExactly(conf, CommandText(r.cd), r.ip);
    if r.cd == Unknown {
      UnknownNotGranted(bytes, Some(conf));
    }
    MeaningCommand(bytes);
    hide Meaning, Decide, GrantedFirst, CutShortFirst;
  }

  lemma MeaningCommand(bytes: seq<Char>)
    requires |bytes| >= 8
    ensures Meaning(bytes).cd == if bytes[1] == 1 then Connect else if bytes[1] == 2 then Bind else Unknown
  {
    hide ToString;
  }

  /** The bytes that a BIND session stores for its port are read back as that port. */
  lemma BindPort(port: nat)
    requires port < 65536
    ensures Unsigned(ToChar(port / 256)) * 256 + Unsigned(ToChar(port % 256)) == port
  {
    OctetToChar(port / 256);
    OctetToChar(port % 256);
  }
}
