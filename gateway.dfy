/**
 * Discord gateway opcodes and gateway close event codes, as the client's
 * enumerations fix them (core/client.hpp), together with the "Client
 * Action" column of the opcode table: whether the client sends an opcode,
 * receives it, or both.
 */
module Gateway {
  import opened Wrappers

  /** Which way an opcode travels, from the client's point of view. */
  datatype ClientAction = Send | Receive | SendReceive

  datatype GatewayOpcode =
    | Dispatch
    | Heartbeat
    | Identify
    | PresenceUpdate
    | VoiceStateUpdate
    | Resume
    | Reconnect
    | RequestGuildMembers
    | InvalidSession
    | Hello
    | HeartbeatAck
  {
    /** The opcode's wire value: one of 0..11, never 5. */
    function ToInt(): (n: int)
      ensures 0 <= n <= 11 && n != 5
    {
      match this
      case Dispatch => 0
      case Heartbeat => 1
      case Identify => 2
      case PresenceUpdate => 3
      case VoiceStateUpdate => 4
      case Resume => 6
      case Reconnect => 7
      case RequestGuildMembers => 8
      case InvalidSession => 9
      case Hello => 10
      case HeartbeatAck => 11
    }

    /** The table's "Client Action" entry. */
    function Action(): ClientAction {
      match this
      case Dispatch => Receive
      case Heartbeat => SendReceive
      case Identify => Send
      case PresenceUpdate => Send
      case VoiceStateUpdate => Send
      case Resume => Send
      case Reconnect => Receive
      case RequestGuildMembers => Send
      case InvalidSession => Receive
      case Hello => Receive
      case HeartbeatAck => Receive
    }

    /** The client may send this opcode. */
    predicate Sendable() {
      Action() == Send || Action() == SendReceive
    }

    /** The client may receive this opcode. */
    predicate Receivable() {
      Action() == Receive || Action() == SendReceive
    }
  }

  /** The opcode with wire value `n`, or None when `n` is not in the table. */
  function OpcodeFromInt(n: int): (r: Option<GatewayOpcode>)
    ensures r.Some? ==> r.value.ToInt() == n
  {
    if n == 0 then Some(Dispatch)
    else if n == 1 then Some(Heartbeat)
    else if n == 2 then Some(Identify)
    else if n == 3 then Some(PresenceUpdate)
    else if n == 4 then Some(VoiceStateUpdate)
    else if n == 6 then Some(Resume)
    else if n == 7 then Some(Reconnect)
    else if n == 8 then Some(RequestGuildMembers)
    else if n == 9 then Some(InvalidSession)
    else if n == 10 then Some(Hello)
    else if n == 11 then Some(HeartbeatAck)
    else None
  }

  lemma OpcodeRoundTrip(op: GatewayOpcode)
    ensures OpcodeFromInt(op.ToInt()) == Some(op)
  {}

  /** Distinct opcodes have distinct wire values. */
  lemma OpcodeToIntInjective(op1: GatewayOpcode, op2: GatewayOpcode)
    requires op1.ToInt() == op2.ToInt()
    ensures op1 == op2
  {}

  /** A wire value names an opcode exactly when it lies in 0..11 and is not 5. */
  lemma OpcodeValues(n: int)
    ensures OpcodeFromInt(n).Some? <==> 0 <= n <= 11 && n != 5
  {}

  /** The receive-only opcodes. */
  lemma ReceiveOnlyOpcodes(op: GatewayOpcode)
    ensures (op.Receivable() && !op.Sendable()) <==>
      op in {Dispatch, Reconnect, InvalidSession, Hello, HeartbeatAck}
  {}

  /** The send-only opcodes. */
  lemma SendOnlyOpcodes(op: GatewayOpcode)
    ensures (op.Sendable() && !op.Receivable()) <==>
      op in {Identify, PresenceUpdate, VoiceStateUpdate, Resume, RequestGuildMembers}
  {}

  /** Heartbeat is the one opcode that travels both ways. */
  lemma BothWaysOpcodes(op: GatewayOpcode)
    ensures (op.Sendable() && op.Receivable()) <==> op == Heartbeat
  {}

  /** Every opcode travels at least one way. */
  lemma EveryOpcodeHasDirection(op: GatewayOpcode)
    ensures op.Sendable() || op.Receivable()
  {}

  datatype GatewayCloseEventCode =
    | UnknownError
    | UnknownOpcode      // spelled UNKNONW_OPCODE in the enumeration
    | DecodeError
    | NotAuthenticated
    | AuthenticationFailed
    | AlreadyAuthenticated
    | InvalidSeq
    | RateLimited
    | SessionTimedOut
    | InvalidShard
    | ShardingRequired
    | InvalidApiVersion
    | InvalidIntent
    | DisallowedIntent
  {
    /** The close code's wire value: one of 4000..4014, never 4006. */
    function ToInt(): (n: int)
      ensures 4000 <= n <= 4014 && n != 4006
    {
      match this
      case UnknownError => 4000
      case UnknownOpcode => 4001
      case DecodeError => 4002
      case NotAuthenticated => 4003
      case AuthenticationFailed => 4004
      case AlreadyAuthenticated => 4005
      case InvalidSeq => 4007
      case RateLimited => 4008
      case SessionTimedOut => 4009
      case InvalidShard => 4010
      case ShardingRequired => 4011
      case InvalidApiVersion => 4012
      case InvalidIntent => 4013
      case DisallowedIntent => 4014
    }
  }

  /** The close code with wire value `n`, or None when `n` is not in the table. */
  function CloseCodeFromInt(n: int): (r: Option<GatewayCloseEventCode>)
    ensures r.Some? ==> r.value.ToInt() == n
  {
    if n == 4000 then Some(UnknownError)
    else if n == 4001 then Some(UnknownOpcode)
    else if n == 4002 then Some(DecodeError)
    else if n == 4003 then Some(NotAuthenticated)
    else if n == 4004 then Some(AuthenticationFailed)
    else if n == 4005 then Some(AlreadyAuthenticated)
    else if n == 4007 then Some(InvalidSeq)
    else if n == 4008 then Some(RateLimited)
    else if n == 4009 then Some(SessionTimedOut)
    else if n == 4010 then Some(InvalidShard)
    else if n == 4011 then Some(ShardingRequired)
    else if n == 4012 then Some(InvalidApiVersion)
    else if n == 4013 then Some(InvalidIntent)
    else if n == 4014 then Some(DisallowedIntent)
    else None
  }

  lemma CloseCodeRoundTrip(c: GatewayCloseEventCode)
    ensures CloseCodeFromInt(c.ToInt()) == Some(c)
  {}

  /** Distinct close codes have distinct wire values. */
  lemma CloseCodeToIntInjective(c1: GatewayCloseEventCode, c2: GatewayCloseEventCode)
    requires c1.ToInt() == c2.ToInt()
    ensures c1 == c2
  {}

  /** A wire value names a close code exactly when it lies in 4000..4014 and is not 4006. */
  lemma CloseCodeValues(n: int)
    ensures CloseCodeFromInt(n).Some? <==> 4000 <= n <= 4014 && n != 4006
  {}

  /** No wire value is both an opcode and a close code. */
  lemma OpcodesAndCloseCodesDisjoint(n: int)
    ensures !(OpcodeFromInt(n).Some? && CloseCodeFromInt(n).Some?)
  {}
}
