/** The two status-code maps of message_conversions.rs and what survives a trip over SOME/IP. */
module StatusCodes {
  import opened Wrappers

  datatype UCode =
    | OK | CANCELLED | UNKNOWN | INVALID_ARGUMENT | DEADLINE_EXCEEDED | NOT_FOUND | ALREADY_EXISTS
    | PERMISSION_DENIED | UNAUTHENTICATED | RESOURCE_EXHAUSTED | FAILED_PRECONDITION | ABORTED
    | OUT_OF_RANGE | UNIMPLEMENTED | INTERNAL | UNAVAILABLE | DATA_LOSS

  datatype ReturnCode =
    | E_OK | E_NOT_OK | E_UNKNOWN_SERVICE | E_UNKNOWN_METHOD | E_NOT_READY | E_NOT_REACHABLE | E_TIMEOUT
    | E_WRONG_PROTOCOL_VERSION | E_WRONG_INTERFACE_VERSION | E_MALFORMED_MESSAGE | E_WRONG_MESSAGE_TYPE
    | E_OTHER

  datatype MessageType = MT_REQUEST | MT_NOTIFICATION | MT_RESPONSE | MT_ERROR | MT_OTHER

  /** The commstatus attribute: a protobuf enum that may hold an unrecognised number. */
  datatype CommStatus = Known(code: UCode) | Unrecognised

  function UCodeToReturnCode(c: UCode): ReturnCode {
    match c
    case OK => E_OK
    case INVALID_ARGUMENT => E_WRONG_MESSAGE_TYPE
    case DEADLINE_EXCEEDED => E_TIMEOUT
    case NOT_FOUND => E_UNKNOWN_SERVICE
    case UNAVAILABLE => E_UNKNOWN_SERVICE
    case DATA_LOSS => E_MALFORMED_MESSAGE
    case INTERNAL => E_NOT_REACHABLE
    case UNKNOWN => E_NOT_OK
    case FAILED_PRECONDITION => E_WRONG_PROTOCOL_VERSION
    case _ => E_NOT_OK
  }

  function ReturnCodeToUCode(e: ReturnCode): UCode {
    match e
    case E_OK => OK
    case E_WRONG_MESSAGE_TYPE => INVALID_ARGUMENT
    case E_UNKNOWN_METHOD => INVALID_ARGUMENT
    case E_TIMEOUT => DEADLINE_EXCEEDED
    case E_UNKNOWN_SERVICE => NOT_FOUND
    case E_NOT_READY => UNAVAILABLE
    case E_MALFORMED_MESSAGE => DATA_LOSS
    case E_NOT_REACHABLE => INTERNAL
    case E_NOT_OK => UNKNOWN
    case E_WRONG_PROTOCOL_VERSION => FAILED_PRECONDITION
    case E_WRONG_INTERFACE_VERSION => FAILED_PRECONDITION
    case _ => UNKNOWN
  }

  /** What a Response carries on the wire: its message type and return code. */
  function EncodeStatus(s: Option<CommStatus>): (MessageType, ReturnCode) {
    match s
    case None => (MT_RESPONSE, UCodeToReturnCode(OK))
    case Some(cs) =>
      var code := if cs.Known? then cs.code else UNIMPLEMENTED;
      if code == OK then (MT_RESPONSE, UCodeToReturnCode(OK)) else (MT_ERROR, UCodeToReturnCode(code))
  }

  /** What the client reads back: MT_RESPONSE ignores the return code. */
  function DecodeStatus(t: MessageType, e: ReturnCode): UCode {
    if t == MT_RESPONSE then OK else ReturnCodeToUCode(e)
  }

  function Hop(s: Option<CommStatus>): UCode {
    DecodeStatus(EncodeStatus(s).0, EncodeStatus(s).1)
  }

  /** The status after `n` further bridges, each re-sending what it decoded. */
  function Hops(n: nat, c: UCode): UCode {
    if n == 0 then c else Hops(n - 1, Hop(Some(Known(c))))
  }

  /** For every UCode, the exact set of return codes a client reads as it. */
  lemma DecodedExactly(e: ReturnCode)
    ensures DecodeStatus(MT_ERROR, e) == OK <==> e == E_OK
    ensures DecodeStatus(MT_ERROR, e) == INVALID_ARGUMENT <==> e in {E_WRONG_MESSAGE_TYPE, E_UNKNOWN_METHOD}
    ensures DecodeStatus(MT_ERROR, e) == DEADLINE_EXCEEDED <==> e == E_TIMEOUT
    ensures DecodeStatus(MT_ERROR, e) == NOT_FOUND <==> e == E_UNKNOWN_SERVICE
    ensures DecodeStatus(MT_ERROR, e) == UNAVAILABLE <==> e == E_NOT_READY
    ensures DecodeStatus(MT_ERROR, e) == DATA_LOSS <==> e == E_MALFORMED_MESSAGE
    ensures DecodeStatus(MT_ERROR, e) == INTERNAL <==> e == E_NOT_REACHABLE
    ensures DecodeStatus(MT_ERROR, e) == UNKNOWN <==> e in {E_NOT_OK, E_OTHER}
    ensures DecodeStatus(MT_ERROR, e) == FAILED_PRECONDITION <==>
      e in {E_WRONG_PROTOCOL_VERSION, E_WRONG_INTERFACE_VERSION}
    ensures DecodeStatus(MT_ERROR, e) !in {CANCELLED, ALREADY_EXISTS, PERMISSION_DENIED, UNAUTHENTICATED,
                                           RESOURCE_EXHAUSTED, ABORTED, OUT_OF_RANGE, UNIMPLEMENTED}
    ensures DecodeStatus(MT_RESPONSE, e) == OK
  {
  }

  /** For every return code, the exact set of statuses a service sends as it, and the message type beside it. */
  lemma EncodedExactly(c: UCode)
    ensures EncodeStatus(None) == (MT_RESPONSE, E_OK) && EncodeStatus(Some(Unrecognised)) == (MT_ERROR, E_NOT_OK)
    ensures var (kind, e) := EncodeStatus(Some(Known(c)));
      && (kind == MT_RESPONSE <==> c == OK) && (kind == MT_ERROR <==> c != OK)
      && (e == E_OK <==> c == OK)
      && (e == E_WRONG_MESSAGE_TYPE <==> c == INVALID_ARGUMENT)
      && (e == E_TIMEOUT <==> c == DEADLINE_EXCEEDED)
      && (e == E_UNKNOWN_SERVICE <==> c in {NOT_FOUND, UNAVAILABLE})
      && (e == E_MALFORMED_MESSAGE <==> c == DATA_LOSS)
      && (e == E_NOT_REACHABLE <==> c == INTERNAL)
      && (e == E_WRONG_PROTOCOL_VERSION <==> c == FAILED_PRECONDITION)
      && (e == E_NOT_OK <==> c in {UNKNOWN, CANCELLED, ALREADY_EXISTS, PERMISSION_DENIED, UNAUTHENTICATED,
                                   RESOURCE_EXHAUSTED, ABORTED, OUT_OF_RANGE, UNIMPLEMENTED})
  {
  }

  /**
   * A success arrives as a success and a failure never does; one hop reaches a fixed point, so any
   * number of further hops changes nothing.
   */
  lemma {:induction false} HopsSettle(n: nat, s: Option<CommStatus>)
    ensures Hop(s) == OK <==> s.None? || s == Some(Known(OK))
    ensures Hops(n, Hop(s)) == Hop(s)
  {
    if n > 0 {
      HopsSettle(n - 1, Some(Known(Hop(s))));
    }
  }

  /** Exactly these codes reach the client unchanged. */
  lemma PreservedCodes(c: UCode)
    ensures Hop(Some(Known(c))) == c <==>
            c in {OK, INVALID_ARGUMENT, DEADLINE_EXCEEDED, NOT_FOUND, DATA_LOSS, INTERNAL, UNKNOWN, FAILED_PRECONDITION}
  {
  }
}
