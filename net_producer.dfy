/** The producer of network events: it turns reachability status changes into events. */
module NetProducer {
  import opened Wrappers
  import opened Reach

  datatype NetEvent = NetworkChanged | ConnectionRetrieved | ConnectionLost

  /** What a status notification does: the event emitted, if any, the new loss date and the new last status. */
  datatype Transition = Transition(event: Option<NetEvent>, lossDate: Option<real>, lastStatus: NetworkStatus)

  /** `reachabilityStatusChanged(note:)` on the producer's fields; `now` is the current date. */
  function StatusChange(lastStatus: NetworkStatus, lossDate: Option<real>, newStatus: NetworkStatus, now: real): (t: Transition)
    ensures newStatus == lastStatus ==> t == Transition(None, lossDate, lastStatus)
    ensures newStatus != lastStatus ==> t.lastStatus == newStatus && t.event.Some?
    ensures t.event == Some(ConnectionLost) <==> newStatus != lastStatus && newStatus == NotReachable
    ensures t.event == Some(ConnectionLost) ==> t.lossDate == Some(now)
    ensures t.event == Some(ConnectionRetrieved) <==> newStatus != lastStatus && newStatus != NotReachable && lastStatus == NotReachable
    ensures t.event == Some(ConnectionRetrieved) ==> t.lossDate.None?
    ensures t.event == Some(NetworkChanged) <==> newStatus != lastStatus && newStatus != NotReachable && lastStatus != NotReachable
    ensures t.event == Some(NetworkChanged) ==> t.lossDate == lossDate
  {
    if newStatus == lastStatus then Transition(None, lossDate, lastStatus)
    else if newStatus == NotReachable then Transition(Some(ConnectionLost), Some(now), newStatus)
    else if lastStatus == NotReachable then Transition(Some(ConnectionRetrieved), None, newStatus)
    else Transition(Some(NetworkChanged), lossDate, newStatus)
  }

  /** After any notification the loss date is set exactly when the last status is `notReachable`, if it was so before. */
  lemma {:induction false} LossDateTracksStatus(lastStatus: NetworkStatus, lossDate: Option<real>, newStatus: NetworkStatus, now: real)
    requires lossDate.Some? <==> lastStatus == NotReachable
    ensures var t := StatusChange(lastStatus, lossDate, newStatus, now);
      t.lossDate.Some? <==> t.lastStatus == NotReachable
  {
  }

  /** `NetEventProducer` */
  class NetEventProducer {
    const reachability: Reachability
    var connectionLossDate: Option<real>
    var listening: bool
    var lastStatus: NetworkStatus

    /** `init(_:)`: `current` is the reachability status at creation, `now` the current date. */
    constructor (reachability: Reachability, current: NetworkStatus, now: real)
      ensures this.reachability == reachability && lastStatus == current && !listening
      ensures connectionLossDate.Some? <==> current == NotReachable
      ensures connectionLossDate.Some? ==> connectionLossDate == Some(now)
    {
      this.reachability := reachability;
      lastStatus := current;
      listening := false;
      connectionLossDate := if current == NotReachable then Some(now) else None;
    }

    /** `startProducing()`: saves the current status and starts the notifier, unless already listening. */
    method StartProducing(current: NetworkStatus, callbackSet: bool, queueSet: bool)
      modifies this, reachability
      ensures listening
      ensures old(listening) ==> lastStatus == old(lastStatus) && reachability.notifierRunning == old(reachability.notifierRunning)
      ensures !old(listening) ==> lastStatus == current
      ensures !old(listening) ==>
        reachability.notifierRunning == (old(reachability.notifierRunning) || (reachability.hasRef && callbackSet && queueSet))
      ensures connectionLossDate == old(connectionLossDate)
    {
      if listening {
        return;
      }
      lastStatus := current;
      var _ := reachability.StartNotifier(callbackSet, queueSet);
      listening := true;
    }

    /** `stopProducing()`: stops the notifier, unless not listening. */
    method StopProducing()
      modifies this, reachability
      ensures !listening
      ensures old(listening) ==> !reachability.notifierRunning
      ensures !old(listening) ==> reachability.notifierRunning == old(reachability.notifierRunning)
      ensures lastStatus == old(lastStatus) && connectionLossDate == old(connectionLossDate)
    {
      if !listening {
        return;
      }
      reachability.StopNotifier();
      listening := false;
    }

    /** `reachabilityStatusChanged(note:)`: returns the event sent to the listener. */
    method StatusChanged(newStatus: NetworkStatus, now: real) returns (event: Option<NetEvent>)
      modifies this
      ensures Transition(event, connectionLossDate, lastStatus) == StatusChange(old(lastStatus), old(connectionLossDate), newStatus, now)
      ensures listening == old(listening)
    {
      if newStatus == lastStatus {
        return None;
      }
      if newStatus == NotReachable {
        connectionLossDate := Some(now);
        event := Some(ConnectionLost);
      } else if lastStatus == NotReachable {
        event := Some(ConnectionRetrieved);
        connectionLossDate := None;
      } else {
        event := Some(NetworkChanged);
      }
      lastStatus := newStatus;
    }
  }
}
