/** The messages the controller and the resource manager exchange (message/message.go). */
module Messages {
  import opened Ints

  const CONTROLLER_ID := 1
  const RMANAGER_ID := 2

  const MESSAGE_ID_HELLO := 0
  const MESSAGE_ID_RESOUCE := 1
  const MESSAGE_ID_RESOUCE_RESPONSE := 2

  const CL_OK := 0
  const CL_ERROR := -1

  datatype Parameter = Parameter(name: string, value: string)

  datatype Header = Header(seqno: uint64, destination: int, source: int, types: int)

  datatype Request = Request(rscid: int, op: string, rsc: string,
                             interval: int64, timeout: int64, delay: int64, async: bool,
                             paramLen: int, parameters: seq<Parameter>)

  datatype Body =
    | Hello
    | Control(request: Request)
    | Response(rscid: int, op: string, rsc: string, ret: int)

  /** One message: one write on a socket and one read on the other side. */
  datatype Message = Message(head: Header, body: Body)

  /** The "name=value" strings of the first n parameters. */
  function Assignments(parameters: seq<Parameter>): (r: seq<string>) {
    seq(|parameters|, i requires 0 <= i < |parameters| => parameters[i].name + "=" + parameters[i].value)
  }
}
