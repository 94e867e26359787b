/** The status of a node, as its row in the table of nodes has it. */
module NodeStatus {

  datatype Status = BeginningInit | CopyingInitialData | Catchup | CreatingOutboundSlots | Ready | Killed

  /** The status after this one in a join from a peer: b, i, c, o, r. */
  function Successor(s: Status): (r: Status)
    requires s != Ready && s != Killed
    ensures r != s
  {
    match s
    case BeginningInit => CopyingInitialData
    case CopyingInitialData => Catchup
    case Catchup => CreatingOutboundSlots
    case CreatingOutboundSlots => Ready
  }
}
