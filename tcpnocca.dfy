/** The controller that does no congestion control: the window is always the largest possible. */
module TcpNoCcaControl {
  import opened MachineInts
  import opened TcpSockets

  class TcpNoCca {
    constructor ()
    {
    }

    /** `GetName`. */
    function Name(): (s: string)
      ensures s == "TcpNoCca"
    {
      "TcpNoCca"
    }

    /** `CongControl`: the window becomes the largest `uint32_t`, whatever it was. */
    method CongControl(tcb: TcpSocketState)
      modifies tcb
      ensures tcb.View() == old(tcb.View()).(cWnd := U32Max)
    {
      tcb.cWnd := U32Max;
    }

    /** `GetSsThresh`: the threshold the stack already has. */
    method GetSsThresh(tcb: TcpSocketState, bytesInFlight: nat) returns (r: nat)
      ensures r == tcb.ssThresh
    {
      r := tcb.ssThresh;
    }

    /** `IncreaseWindow`: nothing changes. */
    method IncreaseWindow(tcb: TcpSocketState, segmentsAcked: nat)
      ensures tcb.View() == old(tcb.View())
    {
    }

    /** `PktsAcked`: nothing changes. */
    method PktsAcked(tcb: TcpSocketState, segmentsAcked: nat)
      ensures tcb.View() == old(tcb.View())
    {
    }

    /** `CongestionStateSet`: nothing changes. */
    method CongestionStateSet(tcb: TcpSocketState)
      ensures tcb.View() == old(tcb.View())
    {
    }
  }
}
