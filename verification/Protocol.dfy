/**
 The mesh envelopes (crates/agent_mesh/src/protocol.rs) and what the hub puts into its queues.
 The JSON text itself is not interpreted: a received frame carries its raw text together with the
 envelope the parser makes of it.
 */
module Protocol {
  import opened Wrappers

  type NodeId = string
  type Corr = string

  /** Every constructor has the fields the accessors `correlation_id`, `from_node` and `to_node` read. */
  datatype Envelope =
    | NodeRegistration(corr: Corr, from: NodeId, to: NodeId, token: Option<string>)
    | NodeRegistrationAck(corr: Corr, from: NodeId, to: NodeId)
    | NodeList(corr: Corr, from: NodeId, to: NodeId)
    | NodeListResponse(corr: Corr, from: NodeId, to: NodeId, nodes: set<NodeId>)
    | Heartbeat(corr: Corr, from: NodeId, to: NodeId)
    | HeartbeatAck(corr: Corr, from: NodeId, to: NodeId)
    | CommandRequest(corr: Corr, from: NodeId, to: NodeId, command: string, requireAck: bool)
    | CommandResponse(corr: Corr, from: NodeId, to: NodeId, status: string)
    | DataPayload(corr: Corr, from: NodeId, to: NodeId, intact: bool)
    | DeliveryAck(corr: Corr, from: NodeId, to: NodeId, forwarded: bool)  // status "target_forwarded" or another
    | DeliveryNack(corr: Corr, from: NodeId, to: NodeId, code: NackCode)
    | Broadcast(corr: Corr, from: NodeId, to: NodeId)

  /** One text frame as received: its raw text and the parsed envelope, if it parses. */
  datatype Text = Text(raw: string, parsed: Option<Envelope>)

  datatype NackCode =
    | Unauthorized | NotRegistered | DuplicateNodeId | InvalidNodeId | SenderMismatch
    | NodeUnavailable | NodeNotFound | BridgeNotConfigured | PayloadCorrupt

  datatype ReplyKind =
    | RegistrationAccepted
    | Catalog(nodes: set<NodeId>)
    | Beat
    | TargetForwarded
    | Refusal(code: NackCode)

  /** An envelope the hub makes itself, before it is addressed and signed. */
  datatype Reply = Reply(kind: ReplyKind, corr: Corr, to: NodeId, echo: bool)

  /**
   A message queued for a connection, labelled with where it came from. `serial` numbers the
   received frame that caused it.
   */
  datatype Message =
    | Relay(serial: nat, text: Text)              // a peer's frame, passed on
    | HubReply(serial: nat, reply: Reply)         // made by the hub
    | GridReply(serial: nat, envelope: Envelope)  // made by the grid bridge
    | Ping
    | Pong

  /** The envelope the receiving end parses out of a queued message. */
  function Read(m: Message): Option<Envelope> {
    match m
    case Relay(_, text) => text.parsed
    case HubReply(_, r) => Some(Render(r))
    case GridReply(_, e) => Some(e)
    case Ping => None
    case Pong => None
  }

  /** The envelope of a hub reply: from the hub, to the id as given or to a readable stand-in for it. */
  function Render(r: Reply): Envelope {
    var to := if r.echo then EchoId(r.to) else r.to;
    match r.kind
    case RegistrationAccepted => NodeRegistrationAck(r.corr, "hub", to)
    case Catalog(nodes) => NodeListResponse(r.corr, "hub", to, nodes)
    case Beat => HeartbeatAck(r.corr, "hub", to)
    case TargetForwarded => DeliveryAck(r.corr, "hub", to, true)
    case Refusal(code) => DeliveryNack(r.corr, "hub", to, code)
  }

  function Clip(s: string): string {
    seq(if |s| < 64 then |s| else 64, i requires 0 <= i < |s| => if IsControl(s[i]) then '\U{fffd}' else s[i])
  }

  function EchoId(id: NodeId): NodeId {
    if ByteLen(id) <= MAX_NODE_ID_LEN && forall i :: 0 <= i < |id| ==> !IsControl(id[i]) then id else Clip(id)
  }

  // ---- Node ids ----------------------------------------------------------------------------

  const RESERVED_NODE_IDS: seq<NodeId> := ["hub", "grid", "grid-master", "all"]
  const MAX_NODE_ID_LEN := 128

  /** Bytes `c` takes in UTF-8. */
  function Utf8Len(c: char): nat {
    var u := c as int;
    if u < 0x80 then 1 else if u < 0x800 then 2 else if u < 0x10000 then 3 else 4
  }

  function ByteLen(s: string): nat {
    if s == [] then 0 else Utf8Len(s[0]) + ByteLen(s[1..])
  }

  predicate IsControl(c: char) {
    var u := c as int;
    u < 0x20 || 0x7f <= u < 0xa0
  }

  function AsciiLower(c: char): char {
    if 'A' <= c <= 'Z' then (c as int + 32) as char else c
  }

  predicate EqIgnoreAsciiCase(a: string, b: string) {
    |a| == |b| && forall i :: 0 <= i < |a| ==> AsciiLower(a[i]) == AsciiLower(b[i])
  }

  predicate Reserved(id: NodeId) {
    exists i :: 0 <= i < |RESERVED_NODE_IDS| && EqIgnoreAsciiCase(RESERVED_NODE_IDS[i], id)
  }

  /** `validate_node_id`. */
  predicate ValidNodeId(id: NodeId) {
    && id != []
    && ByteLen(id) <= MAX_NODE_ID_LEN
    && (forall i :: 0 <= i < |id| ==> !IsControl(id[i]))
    && !Reserved(id)
  }

  /** No id that passes validation can be taken for one the hub or the bridge signs with. */
  lemma ValidIdIsNotReserved(id: NodeId, other: NodeId)
    requires ValidNodeId(id) && EqIgnoreAsciiCase(id, other)
    ensures other !in RESERVED_NODE_IDS
  {
  }

  /** ASCII capitals, codes 65 to 90, become small letters; everything else stays. */
  function LowerCase(s: string): (r: string)
    ensures |r| == |s|
    ensures forall i :: 0 <= i < |s| ==> r[i] as int == s[i] as int + if 65 <= s[i] as int <= 90 then 32 else 0
  {
    seq(|s|, i requires 0 <= i < |s| => if 65 <= s[i] as int <= 90 then (s[i] as int + 32) as char else s[i])
  }

  lemma LowerCaseIs(s: string)
    ensures forall i :: 0 <= i < |s| ==> LowerCase(s)[i] == AsciiLower(s[i])
  {
  }

  lemma {:induction false} ByteLenPositive(s: string)
    ensures ByteLen(s) >= |s|
  {
    if s != [] {
      ByteLenPositive(s[1..]);
    }
  }

  lemma EqualInLowerCase(id: NodeId, reserved: NodeId)
    requires LowerCase(reserved) == reserved
    ensures EqIgnoreAsciiCase(reserved, id) <==> LowerCase(id) == reserved
  {
    LowerCaseIs(id);
    LowerCaseIs(reserved);
    if EqIgnoreAsciiCase(reserved, id) {
      assert forall i :: 0 <= i < |id| ==> LowerCase(id)[i] == LowerCase(reserved)[i];
      assert LowerCase(id) == LowerCase(reserved);
    }
  }

  lemma ReservedInLowerCase(id: NodeId)
    ensures Reserved(id) <==>
            LowerCase(id) == "hub" || LowerCase(id) == "grid" || LowerCase(id) == "grid-master" || LowerCase(id) == "all"
  {
    forall r | r in ["hub", "grid", "grid-master", "all"]
      ensures EqIgnoreAsciiCase(r, id) <==> LowerCase(id) == r
    {
      assert LowerCase(r) == r;
      EqualInLowerCase(id, r);
    }
    assert RESERVED_NODE_IDS[0] == "hub" && RESERVED_NODE_IDS[1] == "grid";
    assert RESERVED_NODE_IDS[2] == "grid-master" && RESERVED_NODE_IDS[3] == "all";
  }

  /** An id can be registered exactly if it is short and printable and does not read, in lower case, like a reserved one. */
  lemma ValidIdExactlyIf(id: NodeId)
    ensures ValidNodeId(id) <==>
            && 1 <= ByteLen(id) <= 128
            && (forall c :: c in id ==> !(c as int < 0x20 || 0x7f <= c as int < 0xa0))
            && LowerCase(id) !in ["hub", "grid", "grid-master", "all"]
  {
    ByteLenPositive(id);
    ReservedInLowerCase(id);
    assert (forall i :: 0 <= i < |id| ==> !IsControl(id[i])) <==> (forall c :: c in id ==> !IsControl(c)) by {
      forall i | 0 <= i < |id| ensures id[i] in id {
      }
    }
  }

  /**
   The id a refusal is addressed to can be shown to anyone. It is the claimed id where that is short
   and printable; otherwise it is its beginning, with what cannot be printed replaced.
   */
  lemma EchoIsReadable(id: NodeId)
    ensures forall c :: c in EchoId(id) ==> !IsControl(c)
    ensures ValidNodeId(id) ==> EchoId(id) == id
    ensures EchoId(id) != id ==> |EchoId(id)| == if |id| < 64 then |id| else 64
    ensures forall i :: 0 <= i < |EchoId(id)| ==> i < |id| && EchoId(id)[i] == if IsControl(id[i]) then '\U{fffd}' else id[i]
    ensures EchoId(id) == id <==> (forall i :: 0 <= i < |id| ==> !IsControl(id[i])) && (ByteLen(id) <= 128 || |id| <= 64)
  {
    if ByteLen(id) > 128 && |id| <= 64 && (forall i :: 0 <= i < |id| ==> !IsControl(id[i])) {
      assert Clip(id) == id;
    }
  }
}
