/** The client's reader loop body on the object it updates, proved equal to the function the runs use. */
module ClientCell {
  import opened Protocol
  import opened Client

  class Cell {
    const node: NodeId
    const regCorr: Corr
    var verdictSeen: bool
    var out: seq<Envelope>
    var jobs: seq<Envelope>
    var next: nat
    var pending: set<Corr>
    var waiters: map<Corr, Waiter>
    var commands: set<Corr>

    ghost function View(): Client
      reads this
    {
      Client(node, regCorr, verdictSeen, out, jobs, next, pending, waiters, commands)
    }

    /** Removes the pending entry and wakes its waiter, unless the call has timed out. */
    method ResolvePending(e: Envelope)
      modifies this`pending, this`waiters
      ensures View() == Resolve(old(View()), e)
    {
      if e.corr in pending {
        pending := pending - {e.corr};
        if e.corr in waiters && waiters[e.corr].Waiting? {
          waiters := waiters[e.corr := Answered(e)];
        }
      }
    }

    method HandleEnvelope(e: Envelope)
      modifies this`verdictSeen, this`out, this`jobs, this`pending, this`waiters
      ensures View() == Process(old(View()), e)
    {
      if e.to != node && e.to != "all" && e.to != "hub" {
        return;
      }
      if e.corr == regCorr && (e.NodeRegistrationAck? || e.DeliveryNack?) {
        verdictSeen := true;
        return;
      }
      match e
      case CommandRequest(_, _, _, _, _) => jobs := jobs + [e];
      case DataPayload(corr, from, _, intact) =>
        if intact {
          out := out + [DeliveryAck(corr, node, from, false)];
        } else {
          out := out + [DeliveryNack(corr, node, from, PayloadCorrupt)];
        }
        ResolvePending(e);
      case DeliveryAck(_, _, _, forwarded) =>
        if !forwarded {
          ResolvePending(e);
        }
      case CommandResponse(_, _, _, _) => ResolvePending(e);
      case DeliveryNack(_, _, _, _) => ResolvePending(e);
      case NodeListResponse(_, _, _, _) => ResolvePending(e);
      case NodeRegistrationAck(_, _, _) => ResolvePending(e);
      case _ =>
    }
  }
}
