/**
 * Inbound frame gating and dispatch of pppd/main.c: the decision get_input
 * takes on one frame returned by read_packet, and protocol_name. The
 * protocol table is a sequence of entries (number, enabled, has a data
 * input routine) in registration order; the routines themselves are
 * foreign, so the decision names the entry that receives the payload.
 */
module Dispatch {
  import opened Common
  import opened Phases

  /** The address, control and protocol fields in front of every frame (RFC 1662 section 3.1). */
  const PPP_HDRLEN: nat := 4

  const PPP_LCP: int := 0xc021
  const PPP_PAP: int := 0xc023
  const PPP_LQR: int := 0xc025
  const PPP_CHAP: int := 0xc223
  const PPP_EAP: int := 0xc227

  /** The parts of a struct protent that the dispatch consults. */
  datatype ProtEnt = ProtEnt(protocol: int, enabled: bool, hasDataInput: bool)

  /** What read_packet returned: a negative length (no frame), or a frame of some length, possibly 0. */
  datatype ReadResult = NothingRead | Frame(bytes: seq<byte>)

  /** What get_input does with the frame. */
  datatype Action =
    | NoAction                                    // read_packet < 0
    | BundleTerminated                            // EOF on the last channel of a multilink bundle
    | Hangup                                      // EOF: the modem hung up
    | Short                                       // fewer bytes than the header
    | DiscardNotOpen                              // non-LCP while LCP is not opened
    | DiscardInAuth                               // not a link-level protocol before the network phase
    | Input(index: nat, payload: seq<byte>)       // table[index].input gets the payload
    | DataInput(index: nat, payload: seq<byte>)   // table[index].datainput gets the payload
    | ProtRej(packet: seq<byte>)                  // lcp_sprotrej over the whole frame

  /** The protocol field, read big-endian by GETSHORT after the address and control bytes. */
  function Protocol(b: seq<byte>): (p: int)
    requires |b| >= PPP_HDRLEN
    ensures 0 <= p < 0x10000
  {
    b[2] as int * 256 + b[3] as int
  }

  /**
   * `protocol & ~0x8000` in two's complement: bit 15 cleared, which maps a
   * network control protocol 0x8xxx to its network protocol 0x0xxx
   * (RFC 1661 section 2).
   */
  function ClearNcpBit(p: int): (r: int)
    ensures 0 <= p < 0x10000 ==> r == (if p >= 0x8000 then p - 0x8000 else p)
    ensures (r / 0x8000) % 2 == 0
  {
    if (p / 0x8000) % 2 == 1 then p - 0x8000 else p
  }

  /** The protocols that pass while the phase is at most Authenticate (RFC 1661 section 3.5). */
  predicate LinkLevel(proto: int) {
    proto == PPP_LCP || proto == PPP_LQR || proto == PPP_PAP || proto == PPP_CHAP || proto == PPP_EAP
  }

  /** Entry `e` takes the packet through its input routine. */
  predicate InputMatch(e: ProtEnt, proto: int) {
    e.protocol == proto && e.enabled
  }

  /** Entry `e` takes the packet through its data input routine. */
  predicate DataMatch(e: ProtEnt, proto: int) {
    proto == ClearNcpBit(e.protocol) && e.enabled && e.hasDataInput
  }

  /** Where the scan of protocols[] stops: the first entry that takes the packet either way, or the end. */
  function FindHandler(table: seq<ProtEnt>, proto: int): (k: nat)
    ensures k <= |table|
    ensures forall j :: 0 <= j < k ==> !InputMatch(table[j], proto) && !DataMatch(table[j], proto)
    ensures k < |table| ==> InputMatch(table[k], proto) || DataMatch(table[k], proto)
  {
    if table == [] || InputMatch(table[0], proto) || DataMatch(table[0], proto) then 0
    else 1 + FindHandler(table[1..], proto)
  }

  /** A frame that has a header and passes both gates. */
  predicate Admitted(b: seq<byte>, lcpOpened: bool, phase: Phase) {
    && |b| >= PPP_HDRLEN
    && (Protocol(b) == PPP_LCP || lcpOpened)
    && (!AtMost(phase, Authenticate) || LinkLevel(Protocol(b)))
  }

  /**
   * The decision of get_input. `lastChannel` is `bundle_eof && mp_master()`;
   * `lcpOpened` is `lcp_fsm[0].state == OPENED`.
   */
  function Dispatch(r: ReadResult, lastChannel: bool, lcpOpened: bool, phase: Phase, table: seq<ProtEnt>): Action {
    match r
    case NothingRead => NoAction
    case Frame(b) =>
      if |b| == 0 then (if lastChannel then BundleTerminated else Hangup)
      else if |b| < PPP_HDRLEN then Short
      else
        var proto := Protocol(b);
        if proto != PPP_LCP && !lcpOpened then DiscardNotOpen
        else if AtMost(phase, Authenticate) && !LinkLevel(proto) then DiscardInAuth
        else
          var k := FindHandler(table, proto);
          if k == |table| then ProtRej(b)
          else if InputMatch(table[k], proto) then Input(k, b[PPP_HDRLEN..])
          else DataInput(k, b[PPP_HDRLEN..])
  }

  /** A failed read does nothing; an empty read is a hangup unless it ends a bundle; a runt is dropped. */
  lemma ReadOutcomes(r: ReadResult, lastChannel: bool, lcpOpened: bool, phase: Phase, table: seq<ProtEnt>)
    ensures var a := Dispatch(r, lastChannel, lcpOpened, phase, table);
      && (a == NoAction <==> r.NothingRead?)
      && (a == Hangup <==> r.Frame? && |r.bytes| == 0 && !lastChannel)
      && (a == BundleTerminated <==> r.Frame? && |r.bytes| == 0 && lastChannel)
      && (a == Short <==> r.Frame? && 0 < |r.bytes| < PPP_HDRLEN)
  {
  }

  /**
   * The two gates, in order: any non-LCP frame is discarded while LCP is
   * not opened (RFC 1661 section 3.4), and up to the Authenticate phase
   * only LCP, LQR, PAP, CHAP and EAP frames get through (section 3.5).
   */
  lemma Gates(b: seq<byte>, lastChannel: bool, lcpOpened: bool, phase: Phase, table: seq<ProtEnt>)
    requires |b| >= PPP_HDRLEN
    ensures var a := Dispatch(Frame(b), lastChannel, lcpOpened, phase, table);
      && (a == DiscardNotOpen <==> Protocol(b) != PPP_LCP && !lcpOpened)
      && (a == DiscardInAuth <==>
            (Protocol(b) == PPP_LCP || lcpOpened) && AtMost(phase, Authenticate) && !LinkLevel(Protocol(b)))
      && (Admitted(b, lcpOpened, phase) <==> (a.Input? || a.DataInput? || a.ProtRej?))
  {
  }

  /**
   * An admitted frame goes to the first entry that takes it, exactly and
   * enabled through its input routine, or through its data input routine
   * when the number matches with bit 15 cleared, with the 4-byte header
   * stripped; when no entry takes it the whole frame is protocol-rejected
   * (RFC 1661 section 5.7).
   */
  lemma Delivery(b: seq<byte>, lastChannel: bool, lcpOpened: bool, phase: Phase, table: seq<ProtEnt>)
    requires Admitted(b, lcpOpened, phase)
    ensures var a, proto := Dispatch(Frame(b), lastChannel, lcpOpened, phase, table), Protocol(b);
      && (a.ProtRej? <==> forall j :: 0 <= j < |table| ==> !InputMatch(table[j], proto) && !DataMatch(table[j], proto))
      && (a.ProtRej? ==> a.packet == b)
      && (a.Input? || a.DataInput? ==>
            && a.index < |table| && a.payload == b[PPP_HDRLEN..] && |a.payload| == |b| - PPP_HDRLEN
            && (forall j :: 0 <= j < a.index ==> !InputMatch(table[j], proto) && !DataMatch(table[j], proto)))
      && (a.Input? ==> InputMatch(table[a.index], proto))
      && (a.DataInput? ==> !InputMatch(table[a.index], proto) && DataMatch(table[a.index], proto))
  {
    var k := FindHandler(table, Protocol(b));
    if k == |table| {
    } else {
      assert InputMatch(table[k], Protocol(b)) || DataMatch(table[k], Protocol(b));
    }
  }

  /**
   * A network-layer frame with an enabled handler is discarded while the
   * phase is Authenticate, and the same frame is delivered to that handler
   * once the phase is Network.
   */
  lemma NetworkFrameWaitsForNetworkPhase(b: seq<byte>, lastChannel: bool, table: seq<ProtEnt>)
    requires |b| >= PPP_HDRLEN && !LinkLevel(Protocol(b))
    requires FindHandler(table, Protocol(b)) < |table|
    ensures Dispatch(Frame(b), lastChannel, true, Authenticate, table) == DiscardInAuth
    ensures var a := Dispatch(Frame(b), lastChannel, true, Network, table);
      (a.Input? || a.DataInput?) && a.index == FindHandler(table, Protocol(b)) && a.payload == b[PPP_HDRLEN..]
  {
    var proto, k := Protocol(b), FindHandler(table, Protocol(b));
    assert proto != PPP_LCP;
    assert AtMost(Authenticate, Authenticate);
    assert Dispatch(Frame(b), lastChannel, true, Authenticate, table) == DiscardInAuth;
    assert !AtMost(Network, Authenticate);
    var a := Dispatch(Frame(b), lastChannel, true, Network, table);
    assert a == (if InputMatch(table[k], proto) then Input(k, b[PPP_HDRLEN..]) else DataInput(k, b[PPP_HDRLEN..]));
  }

  /**
   * Once LCP is opened and the phase is past Authenticate, a frame whose
   * protocol number no entry carries, exactly or with bit 15 cleared,
   * enabled or not, is protocol-rejected whole.
   */
  lemma UnregisteredProtocolRejected(b: seq<byte>, lastChannel: bool, phase: Phase, table: seq<ProtEnt>)
    requires |b| >= PPP_HDRLEN && !AtMost(phase, Authenticate)
    requires forall j :: 0 <= j < |table| ==>
      table[j].protocol != Protocol(b) && ClearNcpBit(table[j].protocol) != Protocol(b)
    ensures Dispatch(Frame(b), lastChannel, true, phase, table) == ProtRej(b)
  {
    assert FindHandler(table, Protocol(b)) == |table|;
  }

  /** Where the scan of a name list stops: the first entry for `proto`, or the end. */
  function NameIndex(list: seq<(int, string)>, proto: int): (k: nat)
    ensures k <= |list|
    ensures forall j :: 0 <= j < k ==> list[j].0 != proto
    ensures k < |list| ==> list[k].0 == proto
  {
    if list == [] || list[0].0 == proto then 0 else 1 + NameIndex(list[1..], proto)
  }

  /**
   * The scan of protocol_name over a name list: the name of the first
   * entry for `proto`, or None (NULL) when no entry has it.
   */
  function NameOf(list: seq<(int, string)>, proto: int): (r: Option<string>)
    ensures r.None? <==> forall j :: 0 <= j < |list| ==> list[j].0 != proto
    ensures r.Some? ==> exists k :: 0 <= k < |list| && list[k] == (proto, r.value)
                                  && forall j :: 0 <= j < k ==> list[j].0 != proto
  {
    var k := NameIndex(list, proto);
    if k < |list| then Some(list[k].1) else None
  }

  /** protocol_name: NameOf on ProtocolList, which is protocol_list without its `{0, NULL}` sentinel. */
  function ProtocolName(proto: int): Option<string> {
    NameOf(ProtocolList, proto)
  }

  /** protocol_list: the PPP protocol numbers pppd can name in its messages. */
  const ProtocolList: seq<(int, string)> := [
    (0x21, "IP"),
    (0x23, "OSI Network Layer"),
    (0x25, "Xerox NS IDP"),
    (0x27, "DECnet Phase IV"),
    (0x29, "Appletalk"),
    (0x2b, "Novell IPX"),
    (0x2d, "VJ compressed TCP/IP"),
    (0x2f, "VJ uncompressed TCP/IP"),
    (0x31, "Bridging PDU"),
    (0x33, "Stream Protocol ST-II"),
    (0x35, "Banyan Vines"),
    (0x39, "AppleTalk EDDP"),
    (0x3b, "AppleTalk SmartBuffered"),
    (0x3d, "Multi-Link"),
    (0x3f, "NETBIOS Framing"),
    (0x41, "Cisco Systems"),
    (0x43, "Ascom Timeplex"),
    (0x45, "Fujitsu Link Backup and Load Balancing (LBLB)"),
    (0x47, "DCA Remote Lan"),
    (0x49, "Serial Data Transport Protocol (PPP-SDTP)"),
    (0x4b, "SNA over 802.2"),
    (0x4d, "SNA"),
    (0x4f, "IP6 Header Compression"),
    (0x51, "KNX Bridging Data"),
    (0x53, "Encryption"),
    (0x55, "Individual Link Encryption"),
    (0x57, "IPv6"),
    (0x59, "PPP Muxing"),
    (0x5b, "Vendor-Specific Network Protocol"),
    (0x61, "RTP IPHC Full Header"),
    (0x63, "RTP IPHC Compressed TCP"),
    (0x65, "RTP IPHC Compressed non-TCP"),
    (0x67, "RTP IPHC Compressed UDP 8"),
    (0x69, "RTP IPHC Compressed RTP 8"),
    (0x6f, "Stampede Bridging"),
    (0x73, "MP+"),
    (0xc1, "NTCITS IPI"),
    (0xfb, "single-link compression"),
    (0xfd, "Compressed Datagram"),
    (0x0201, "802.1d Hello Packets"),
    (0x0203, "IBM Source Routing BPDU"),
    (0x0205, "DEC LANBridge100 Spanning Tree"),
    (0x0207, "Cisco Discovery Protocol"),
    (0x0209, "Netcs Twin Routing"),
    (0x020b, "STP - Scheduled Transfer Protocol"),
    (0x020d, "EDP - Extreme Discovery Protocol"),
    (0x0211, "Optical Supervisory Channel Protocol"),
    (0x0213, "Optical Supervisory Channel Protocol"),
    (0x0231, "Luxcom"),
    (0x0233, "Sigma Network Systems"),
    (0x0235, "Apple Client Server Protocol"),
    (0x0281, "MPLS Unicast"),
    (0x0283, "MPLS Multicast"),
    (0x0285, "IEEE p1284.4 standard - data packets"),
    (0x0287, "ETSI TETRA Network Protocol Type 1"),
    (0x0289, "Multichannel Flow Treatment Protocol"),
    (0x2063, "RTP IPHC Compressed TCP No Delta"),
    (0x2065, "RTP IPHC Context State"),
    (0x2067, "RTP IPHC Compressed UDP 16"),
    (0x2069, "RTP IPHC Compressed RTP 16"),
    (0x4001, "Cray Communications Control Protocol"),
    (0x4003, "CDPD Mobile Network Registration Protocol"),
    (0x4005, "Expand accelerator protocol"),
    (0x4007, "ODSICP NCP"),
    (0x4009, "DOCSIS DLL"),
    (0x400B, "Cetacean Network Detection Protocol"),
    (0x4021, "Stacker LZS"),
    (0x4023, "RefTek Protocol"),
    (0x4025, "Fibre Channel"),
    (0x4027, "EMIT Protocols"),
    (0x405b, "Vendor-Specific Protocol (VSP)"),
    (0x8021, "Internet Protocol Control Protocol"),
    (0x8023, "OSI Network Layer Control Protocol"),
    (0x8025, "Xerox NS IDP Control Protocol"),
    (0x8027, "DECnet Phase IV Control Protocol"),
    (0x8029, "Appletalk Control Protocol"),
    (0x802b, "Novell IPX Control Protocol"),
    (0x8031, "Bridging NCP"),
    (0x8033, "Stream Protocol Control Protocol"),
    (0x8035, "Banyan Vines Control Protocol"),
    (0x803d, "Multi-Link Control Protocol"),
    (0x803f, "NETBIOS Framing Control Protocol"),
    (0x8041, "Cisco Systems Control Protocol"),
    (0x8043, "Ascom Timeplex"),
    (0x8045, "Fujitsu LBLB Control Protocol"),
    (0x8047, "DCA Remote Lan Network Control Protocol (RLNCP)"),
    (0x8049, "Serial Data Control Protocol (PPP-SDCP)"),
    (0x804b, "SNA over 802.2 Control Protocol"),
    (0x804d, "SNA Control Protocol"),
    (0x804f, "IP6 Header Compression Control Protocol"),
    (0x8051, "KNX Bridging Control Protocol"),
    (0x8053, "Encryption Control Protocol"),
    (0x8055, "Individual Link Encryption Control Protocol"),
    (0x8057, "IPv6 Control Protocol"),
    (0x8059, "PPP Muxing Control Protocol"),
    (0x805b, "Vendor-Specific Network Control Protocol (VSNCP)"),
    (0x806f, "Stampede Bridging Control Protocol"),
    (0x8073, "MP+ Control Protocol"),
    (0x80c1, "NTCITS IPI Control Protocol"),
    (0x80fb, "Single Link Compression Control Protocol"),
    (0x80fd, "Compression Control Protocol"),
    (0x8207, "Cisco Discovery Protocol Control"),
    (0x8209, "Netcs Twin Routing"),
    (0x820b, "STP - Control Protocol"),
    (0x820d, "EDPCP - Extreme Discovery Protocol Ctrl Prtcl"),
    (0x8235, "Apple Client Server Protocol Control"),
    (0x8281, "MPLSCP"),
    (0x8285, "IEEE p1284.4 standard - Protocol Control"),
    (0x8287, "ETSI TETRA TNP1 Control Protocol"),
    (0x8289, "Multichannel Flow Treatment Protocol"),
    (0xc021, "Link Control Protocol"),
    (0xc023, "Password Authentication Protocol"),
    (0xc025, "Link Quality Report"),
    (0xc027, "Shiva Password Authentication Protocol"),
    (0xc029, "CallBack Control Protocol (CBCP)"),
    (0xc02b, "BACP Bandwidth Allocation Control Protocol"),
    (0xc02d, "BAP"),
    (0xc05b, "Vendor-Specific Authentication Protocol (VSAP)"),
    (0xc081, "Container Control Protocol"),
    (0xc223, "Challenge Handshake Authentication Protocol"),
    (0xc225, "RSA Authentication Protocol"),
    (0xc227, "Extensible Authentication Protocol"),
    (0xc229, "Mitsubishi Security Info Exch Ptcl (SIEP)"),
    (0xc26f, "Stampede Bridging Authorization Protocol"),
    (0xc281, "Proprietary Authentication Protocol"),
    (0xc283, "Proprietary Authentication Protocol"),
    (0xc481, "Proprietary Node ID Authentication Protocol")
  ]
}
