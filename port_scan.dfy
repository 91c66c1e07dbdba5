/** The port negotiation done at start-up: probe the loopback ports from
    50027 upward and keep the first one that binds, or 50050 when every port
    up to it is taken. Binding is an oracle: `occupied(p)` is true when the
    probe `TcpListener::bind("127.0.0.1:p")` fails. */
module PortScan {

  const BasePort: int := 50027
  const LastPort: int := 50050

  /** One line the scan prints: the port it starts on, or a port it found taken. */
  datatype LogLine = Starting(port: int) | Occupied(port: int)

  /** Reference definition: the port the scan settles on when it reaches `from`. */
  function FirstFree(occupied: int -> bool, from: int): (port: int)
    requires BasePort <= from <= LastPort
    decreases LastPort - from
  {
    if !occupied(from) || from == LastPort then from else FirstFree(occupied, from + 1)
  }

  /** Whatever the oracle says, the reference port lies in range, every port
      skipped on the way was taken, and the port is free unless it is the last one. */
  lemma {:induction false} FirstFreeIsFirst(occupied: int -> bool, from: int)
    requires BasePort <= from <= LastPort
    ensures from <= FirstFree(occupied, from) <= LastPort
    ensures forall p :: from <= p < FirstFree(occupied, from) ==> occupied(p)
    ensures !occupied(FirstFree(occupied, from)) || FirstFree(occupied, from) == LastPort
    decreases LastPort - from
  {
    if occupied(from) && from != LastPort {
      FirstFreeIsFirst(occupied, from + 1);
    }
  }

  /** Those three facts pin the port down: any port in range that satisfies
      them is the reference port. */
  lemma {:induction false} FirstFreeUnique(occupied: int -> bool, q: int)
    requires BasePort <= q <= LastPort
    requires forall p :: BasePort <= p < q ==> occupied(p)
    requires !occupied(q) || q == LastPort
    ensures q == FirstFree(occupied, BasePort)
  {
    FirstFreeIsFirst(occupied, BasePort);
  }

  /** When every port of the range is taken the scan still ends, on 50050. */
  lemma AllOccupiedGivesLastPort(occupied: int -> bool)
    requires forall p :: BasePort <= p <= LastPort ==> occupied(p)
    ensures FirstFree(occupied, BasePort) == LastPort
  {
    FirstFreeIsFirst(occupied, BasePort);
  }

  /** The scan loop of `main`. It returns the chosen port and the lines it
      prints: one "occupied" line per port probed in increasing order, ending
      with a "starting" line only when the chosen port actually bound. */
  method ChoosePort(occupied: int -> bool) returns (port: int, log: seq<LogLine>)
    ensures BasePort <= port <= LastPort
    ensures forall p :: BasePort <= p < port ==> occupied(p)
    ensures !occupied(port) || port == LastPort
    ensures port == FirstFree(occupied, BasePort)
    ensures |log| == port - BasePort + 1
    ensures forall i :: 0 <= i < |log| - 1 ==> log[i] == Occupied(BasePort + i)
    ensures log[|log| - 1] == if occupied(port) then Occupied(port) else Starting(port)
  {
    port := BasePort;
    log := [];
    while true
      invariant BasePort <= port <= LastPort
      invariant forall p :: BasePort <= p < port ==> occupied(p)
      invariant |log| == port - BasePort
      invariant forall i :: 0 <= i < |log| ==> log[i] == Occupied(BasePort + i)
      decreases LastPort - port
    {
      if !occupied(port) {
        log := log + [Starting(port)];
        break;
      }
      log := log + [Occupied(port)];
      if port == LastPort {
        break;
      }
      port := port + 1;
    }
    FirstFreeUnique(occupied, port);
  }
}
