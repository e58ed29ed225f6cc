/** Packets by their header fields, and which tests they pass. */
module Headers {
  import opened Optional
  import opened Netfilter
  import Commands
  import Text

  /**
   The fields the rules look at. `users` and `groups` are the names under which a rule can mean the sender,
   none for a packet from elsewhere, and `states` the connection states that hold.
   */
  datatype Header = Header(protocol: string, inInterface: string, outInterface: string, source: string, destination: string,
                           sourcePort: nat, destPort: nat, users: set<string>, groups: set<string>, states: set<string>,
                           mark: string, connMark: string)

  /** Whether an address lies in a range, both as they are written. */
  type Contains = (string, string) -> bool

  const PORTS := 0x1_0000

  function PortOr(text: string, missing: nat): Option<nat> {
    if text == "" then Some(missing) else Commands.ParseDecimal(text)
  }

  /** A port test: one number, or a range either end of which may be missing. */
  predicate Covers(spec: string, port: nat) {
    var parts := Text.Split(spec, ':');
    if |parts| == 1 then
      Commands.ParseDecimal(spec) == Some(port)
    else
      |parts| == 2 &&
      var low, high := PortOr(parts[0], 0), PortOr(parts[1], PORTS - 1);
      low.Some? && high.Some? && low.value <= port <= high.value
  }

  /** An interface test: a name, or the start of one before a plus sign. */
  predicate NamesInterface(pattern: string, name: string) {
    pattern == name || (pattern != "" && pattern[|pattern| - 1] == '+' && pattern[..|pattern| - 1] <= name)
  }

  function PacketOf(h: Header, contains: Contains): Packet {
    (m: Match) =>
      match m
      case Protocol(v) => h.protocol == v
      case InInterface(v) => NamesInterface(v, h.inInterface)
      case OutInterface(v) => NamesInterface(v, h.outInterface)
      case Source(v) => contains(v, h.source)
      case Destination(v) => contains(v, h.destination)
      case SourcePort(v) => Covers(v, h.sourcePort)
      case DestPort(v) => Covers(v, h.destPort)
      case UidOwner(v) => v in h.users
      case GidOwner(v) => v in h.groups
      case CtState(v) => v in h.states
      case Mark(v) => h.mark == v
      case ConnMark(v) => h.connMark == v
  }

  lemma CoversDns(port: nat)
    ensures Covers("53", port) <==> port == 53
  {
    Text.SplitFree("53", ':');
    assert "53"[..1] == "5";
    assert Commands.ParseDecimal("5") == Some(5);
    assert Commands.ParseDecimal("53") == Some(53);
  }

  lemma OnlyLo(name: string)
    ensures NamesInterface("lo", name) <==> name == "lo"
  {
  }
}
