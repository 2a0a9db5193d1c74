/** The SDN controller's decisions (`SDNController`): the baseline rule it
    installs when a switch connects, and the rule it installs and the
    packet it forwards on each packet-in.

    Its only effects are calls into the switch-control runtime
    (`DpctlExecute`, `SendPacket`); they are modelled as a returned list
    of actions. The EtherType is an input: the packet classifier is not
    part of this model. Messages follow the OpenFlow Switch Specification
    1.3 (Packet-In, A.4.1; Modify Flow Entry, A.3.4.1). */
module Controller {
  import opened Wire

  /** EtherType of IPv4. */
  const ETHERTYPE_IPV4: u32 := 0x0800
  /** The datapath on which packet-ins install a priority rule. */
  const PRIORITY_DATAPATH: u64 := 2
  /** Initial value of `m_port`. */
  const DEFAULT_PORT: u32 := 1
  /** `OFPET_BAD_REQUEST` in the `ofp_error_type` enumeration of OpenFlow 1.3. */
  const OFPET_BAD_REQUEST: nat := 1

  /** The command the controller issues on handshake. */
  const BASELINE_COMMAND: string := "flow-mod cmd=add,table=0,prio=1000 in_port=1 write:output=1"
  /** The fixed parts of the priority command issued on packet-in. */
  const PRIORITY_PREFIX: string := "flow-mod cmd=add,table=0,prio=1000 in_port="
  const ACTIONS_INFIX: string := " actions=output:"

  datatype Action =
    | DpctlExecute(dpId: u64, command: string)
    | SendPacket(dpId: u64, data: seq<byte>, outPort: u32, inPort: u32)

  datatype PacketInResult = PacketInResult(actions: seq<Action>, error: nat)

  datatype Option<T> = None | Some(value: T)

  // ---------------------------------------------------------------------
  // Decimal text, as `operator<<` on an unsigned integer writes it

  predicate IsDigit(c: char)
  {
    '0' <= c <= '9'
  }

  predicate AllDigits(s: string)
  {
    forall k :: 0 <= k < |s| ==> IsDigit(s[k])
  }

  function DigitChar(d: nat): (c: char)
    requires d < 10
    ensures IsDigit(c) && c as int - '0' as int == d
  {
    ('0' as int + d) as char
  }

  function Decimal(n: nat): (s: string)
    ensures |s| >= 1 && AllDigits(s)
  {
    if n < 10 then [DigitChar(n)] else Decimal(n / 10) + [DigitChar(n % 10)]
  }

  function ParseDecimal(s: string): nat
    requires AllDigits(s)
  {
    if s == [] then 0
    else ParseDecimal(s[..|s| - 1]) * 10 + (s[|s| - 1] as int - '0' as int)
  }

  lemma {:induction false} DecimalRoundTrip(n: nat)
    ensures ParseDecimal(Decimal(n)) == n
  {
    if n >= 10 {
      DecimalRoundTrip(n / 10);
      var s := Decimal(n);
      assert s[..|s| - 1] == Decimal(n / 10);
    }
  }

  /** Length of the run of digits at the start of s. */
  function LeadingDigits(s: string): (k: nat)
    ensures k <= |s| && AllDigits(s[..k])
    ensures k < |s| ==> !IsDigit(s[k])
  {
    if s == [] || !IsDigit(s[0]) then 0
    else
      var k := 1 + LeadingDigits(s[1..]);
      assert s[..k] == [s[0]] + s[1..][..k - 1];
      k
  }

  lemma {:induction false} LeadingDigitsOfDigits(d: string, rest: string)
    requires AllDigits(d)
    requires rest == [] || !IsDigit(rest[0])
    ensures LeadingDigits(d + rest) == |d|
  {
    if d != [] {
      assert (d + rest)[1..] == d[1..] + rest;
      LeadingDigitsOfDigits(d[1..], rest);
    }
  }

  // ---------------------------------------------------------------------
  // The priority rule

  /** The command text of the priority rule: match `in_port`, output to
      `outPort`, priority 1000, table 0. */
  function PriorityCommand(inPort: u32, outPort: u32): string
  {
    PRIORITY_PREFIX + Decimal(inPort) + ACTIONS_INFIX + Decimal(outPort)
  }

  /** Reads the ingress and output ports back out of a priority command;
      `None` for any other text. */
  function ParsePriorityCommand(cmd: string): Option<(nat, nat)>
  {
    if |cmd| < |PRIORITY_PREFIX| || cmd[..|PRIORITY_PREFIX|] != PRIORITY_PREFIX then None
    else
      var rest := cmd[|PRIORITY_PREFIX|..];
      var k := LeadingDigits(rest);
      var tail := rest[k..];
      if k == 0 || |tail| < |ACTIONS_INFIX| || tail[..|ACTIONS_INFIX|] != ACTIONS_INFIX then None
      else
        var out := tail[|ACTIONS_INFIX|..];
        if out == [] || LeadingDigits(out) != |out| then None
        else Some((ParseDecimal(rest[..k]), ParseDecimal(out)))
  }

  /** The priority command names exactly the ingress port of the packet
      and the configured output port. */
  lemma PriorityCommandRoundTrip(inPort: u32, outPort: u32)
    ensures ParsePriorityCommand(PriorityCommand(inPort, outPort)) == Some((inPort as nat, outPort as nat))
  {
    var cmd := PriorityCommand(inPort, outPort);
    var i, o := Decimal(inPort), Decimal(outPort);
    assert cmd[..|PRIORITY_PREFIX|] == PRIORITY_PREFIX;
    var rest := cmd[|PRIORITY_PREFIX|..];
    assert rest == i + (ACTIONS_INFIX + o);
    LeadingDigitsOfDigits(i, ACTIONS_INFIX + o);
    assert rest[..|i|] == i;
    var tail := rest[|i|..];
    assert tail == ACTIONS_INFIX + o;
    assert tail[..|ACTIONS_INFIX|] == ACTIONS_INFIX;
    assert tail[|ACTIONS_INFIX|..] == o;
    LeadingDigitsOfDigits(o, []);
    assert o + [] == o;
    DecimalRoundTrip(inPort);
    DecimalRoundTrip(outPort);
  }

  // ---------------------------------------------------------------------
  // The controller

  class SdnController {
    /** `m_port`: the output port for priority rules and forwarded packets. */
    var port: u32

    constructor ()
      ensures port == DEFAULT_PORT
    {
      port := DEFAULT_PORT;
    }

    /** What `HandshakeSuccessful` issues to a switch that has just
        connected: the baseline rule, once, to that switch. */
    function HandshakeSuccessful(dpId: u64): (actions: seq<Action>)
      ensures |actions| == 1 && actions[0].DpctlExecute?
      ensures actions[0].dpId == dpId && actions[0].command == BASELINE_COMMAND
    {
      [DpctlExecute(dpId, BASELINE_COMMAND)]
    }

    method SetPort(p: u32)
      modifies this`port
      ensures port == p
    {
      port := p;
    }

    /** The packet-in decision: a priority rule only for an IPv4 packet on
        the priority datapath, then, on every path, the packet forwarded
        out `port` with its original ingress port; the handler always
        reports `OFPET_BAD_REQUEST`. */
    function HandlePacketIn(dpId: u64, inPort: u32, etherType: u32, data: seq<byte>): (r: PacketInResult)
      reads this
      ensures r.error == OFPET_BAD_REQUEST
      ensures |r.actions| >= 1 && r.actions[|r.actions| - 1] == SendPacket(dpId, data, port, inPort)
      ensures (exists k :: 0 <= k < |r.actions| && r.actions[k].DpctlExecute?)
          <==> etherType == ETHERTYPE_IPV4 && dpId == PRIORITY_DATAPATH
      ensures forall k :: 0 <= k < |r.actions| && r.actions[k].DpctlExecute? ==>
        r.actions[k] == DpctlExecute(dpId, PriorityCommand(inPort, port))
      ensures |r.actions| == if etherType == ETHERTYPE_IPV4 && dpId == PRIORITY_DATAPATH then 2 else 1
    {
      var forward := SendPacket(dpId, data, port, inPort);
      if etherType == ETHERTYPE_IPV4 && dpId == PRIORITY_DATAPATH then
        var actions := [DpctlExecute(dpId, PriorityCommand(inPort, port)), forward];
        assert actions[0].DpctlExecute?;
        PacketInResult(actions, OFPET_BAD_REQUEST)
      else
        PacketInResult([forward], OFPET_BAD_REQUEST)
    }
  }
}
