/** TCP connection tracking: the closing state machine and the map updates it drives. */
module Tracker {
  import opened Types

  /** The state after a packet; an unchanged result means no transition. */
  function Next(fl: TcpFlags, st: TcpState): TcpState {
    match st
    case Established => if fl.fin then FinWait1 else st
    case FinWait1 =>
      if fl.fin && fl.ack then TimeWait
      else if fl.fin then Closing
      else if fl.ack then FinWait2
      else st
    case FinWait2 => if fl.ack then TimeWait else st
    case Closing => if fl.ack then TimeWait else st
    case TimeWait => if fl.ack then Closed else st
    case Closed => st
  }

  /** How far a connection is along the way to removal. */
  function Rank(st: TcpState): nat {
    match st
    case Established => 0
    case FinWait1 => 1
    case FinWait2 => 2
    case Closing => 2
    case TimeWait => 3
    case Closed => 4
  }

  /** `process_tcp_state_transition`: a reported transition strictly raises the rank. */
  method ProcessTcpStateTransition(fl: TcpFlags, st: TcpState) returns (st': TcpState, transitioned: bool)
    ensures st' == Next(fl, st)
    ensures transitioned <==> Rank(st') > Rank(st)
    ensures !transitioned <==> st' == st
  {
    st' := st;
    match st {
      case Established =>
        if fl.fin { return FinWait1, true; }
      case FinWait1 =>
        if fl.fin && fl.ack { return TimeWait, true; }
        if fl.fin { return Closing, true; }
        if fl.ack { return FinWait2, true; }
      case FinWait2 =>
        if fl.ack { return TimeWait, true; }
      case Closing =>
        if fl.ack { return TimeWait, true; }
      case TimeWait =>
        if fl.ack { return Closed, true; }
      case Closed =>
    }
    transitioned := false;
  }

  /** Outcome of a fallible sequence of LB_CONNECTIONS operations on one client. */
  datatype ConnStep = ConnStep(ok: bool, conns: map<ClientKey, Mapping>, mapping: Mapping)

  /** `update_tcp_conns`; the mapping is updated in place, so the caller sees the new state. */
  function UpdateConns(conns: map<ClientKey, Mapping>, c: ClientKey, m: Mapping, fl: TcpFlags): ConnStep {
    match m.tcpState
    case None => ConnStep(true, conns, m)
    case Some(st) =>
      var m' := m.(tcpState := Some(Next(fl, st)));
      if Next(fl, st) == Closed then ConnStep(c in conns, conns - {c}, m')
      else if Next(fl, st) != st then
        (if CanInsert(conns, c) then ConnStep(true, conns[c := m'], m') else ConnStep(false, conns, m'))
      else ConnStep(true, conns, m')
  }

  /** A packet with RST first removes the entry, which fails when there is none; then the update. */
  function RstAndUpdate(conns: map<ClientKey, Mapping>, c: ClientKey, m: Mapping, fl: TcpFlags): ConnStep {
    if fl.rst && c !in conns then ConnStep(false, conns, m)
    else UpdateConns(if fl.rst then conns - {c} else conns, c, m, fl)
  }
}
