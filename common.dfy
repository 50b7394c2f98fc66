/** Types shared by the device nodes and the controller. */
module Common {

  datatype Option<+T> = None | Some(value: T)

  /** A value in an outbound change payload. Temperatures are in tenths of a degree. */
  datatype Value = Temperature(tenths: int) | Text(s: string) | Number(n: int)

  /** A partial-change payload: only the keys that change. */
  type Payload = map<string, Value>

  /** The published values (drivers) of the host's node abstraction, by their host names. */
  datatype Driver = ST | GV0 | GV1 | GV2 | CLIMD | CLISPH | CLISPC | CLITEMP | CLIFS | CLIHUM | CLIHCS

  /** One change request a node hands to the controller's sendChange. */
  datatype ChangeRequest = ChangeRequest(url: string, payload: Payload)

  /**
   * How a command handler ended: it sent one change request (the Python
   * handler returns None), it refused the request (it returns False), or it
   * raised before sending anything (a KeyError, NameError or UnboundLocalError
   * in the handler).
   */
  datatype Handled = Sent | Refused | Failed

  /**
   * How a controller routine ended: it returned a boolean, or it raised (a
   * KeyError its callers do not catch).
   */
  datatype Outcome = Returned(value: bool) | Raised

  /** Python truthiness of an optional token: present and not the empty string. */
  predicate Truthy(t: Option<string>)
  {
    t.Some? && t.value != ""
  }
}
