/** The frames of OCPP-J 1.6 (section 4.2: CALL, CALLRESULT, CALLERROR) as the id table reads them. */
module Ocpp {

  datatype Option<+T> = None | Some(value: T)

  /** Message ids and backend keys are only ever compared. */
  type MsgId = string
  type Backend = string

  /** Seconds, on the injected monotonic clock or on the wall clock. */
  type Time = real

  /** Two starts with equal keys are the same start, tried twice: the JSON text of four fields of the payload. */
  datatype StartKey = StartKey(connectorId: string, idTag: string, meterStart: string, timestamp: string)

  datatype Action =
    | StartTransaction
    | MeterValues
    | StopTransaction
    | RemoteStopTransaction
    | SetChargingProfile
    | RemoteStartTransaction
    | ReserveNow
    | CancelReservation
    | ClearChargingProfile
    | OtherAction(name: string)

  /** The payload of a CALL. `tx` is the integer at the action's transaction-id path and `obj` the integer at its
      reservation-id or profile-id path (None: absent, or not an integer); `rest` is everything else. */
  datatype Payload = Payload(tx: Option<int>, obj: Option<int>, expiry: Option<Time>, start: StartKey, rest: string)

  /** The payload of a CALLRESULT: a StartTransaction result's transaction id, and whether its status is "Accepted". */
  datatype Conf = Conf(tx: Option<int>, accepted: bool, rest: string)

  /** `Odd` is any text that is none of the three: it is always passed on as it is. */
  datatype Frame =
    | Call(id: MsgId, action: Action, payload: Payload)
    | Result(id: MsgId, conf: Conf)
    | Error(id: MsgId, detail: string)
    | Odd(text: string)

  function IdOf(frame: Frame): MsgId {
    match frame
    case Call(id, _, _) => id
    case Result(id, _) => id
    case Error(id, _) => id
    case Odd(_) => ""
  }

  /** The frame with the id at its transaction-id path replaced. */
  function WithTx(frame: Frame, id: int): Frame {
    if frame.Call? then frame.(payload := frame.payload.(tx := Some(id))) else frame
  }

  /** The frame with the id at its reservation or profile path replaced (None: removed). */
  function WithObj(frame: Frame, id: Option<int>): Frame {
    if frame.Call? then frame.(payload := frame.payload.(obj := id)) else frame
  }

  /** A charger CALL that quotes a transaction id. */
  predicate QuotesTx(frame: Frame) {
    frame.Call? && frame.action in {MeterValues, StopTransaction} && frame.payload.tx.Some?
  }

  predicate IsStart(frame: Frame) {
    frame.Call? && frame.action.StartTransaction?
  }
}
