/** The variables of a worker daemon's session loop, and what one turn of it does to them. */
module WorkerDaemon {
  import opened Seqs
  import opened RelayState
  import opened WorkerSocket
  import opened Traffic
  import opened Daemon

  /** The tasks themselves, and what becomes of their requests, are not the daemon's to see. */
  class WorkerDaemon {
    var incoming: seq<Down>
    var outgoing: seq<Frame>
    var events: seq<Event>
    var shuttingDown: bool
    var activeRequests: set<RequestId>
    var connected: bool
    ghost var running: set<RequestId>
    ghost var doomed: set<RequestId>
    ghost var closing: set<RequestId>
    ghost var aborted: multiset<RequestId>
    ghost var failed: multiset<RequestId>
    ghost var lost: multiset<RequestId>

    ghost function View(): Wire
      reads this
    {
      Wire(incoming, outgoing, events, shuttingDown, activeRequests, running, doomed, closing, connected,
           aborted, failed, lost)
    }

    constructor ()
      ensures View() == FRESH
    {
      incoming, outgoing, events := [Ack], [], [];
      shuttingDown, activeRequests, connected := false, {}, true;
      running, doomed, closing := {}, {}, {};
      aborted, failed, lost := multiset{}, multiset{}, multiset{};
    }

    /** Leaves the loop, aborting every task. */
    method EndSession()
      modifies this
      ensures View() == Ended(old(View()))
    {
      AbortTasks(LostAtEnd(View()));
      connected, events, activeRequests := false, [], {};
    }

    ghost method AbortTasks(gone: multiset<RequestId>)
      modifies this
      ensures View() == old(View()).(running := {}, doomed := {}, closing := {}, lost := gone)
    {
      running, doomed, closing, lost := {}, {}, {}, gone;
    }

    function CurrentLoad(): u32
      reads this
    {
      if |activeRequests| <= U32_MAX then |activeRequests| else U32_MAX
    }

    /** A request is forwarded to the backend by a task of its own, unless the daemon drains. */
    method Accept(request: Message) returns (goesOn: bool)
      modifies this
      ensures View() == Delivered(old(View()), Work(request), None)
      ensures goesOn == !old(shuttingDown)
    {
      if shuttingDown {
        lost := lost + multiset{request.id};
        EndSession();
        return false;
      }
      running := running + {request.id};
      activeRequests := activeRequests + {request.id};
      return true;
    }

    method Abort(id: RequestId)
      modifies this
      ensures forall reason :: View() == Delivered(old(View()), Cancel(id, reason), None)
    {
      if id in activeRequests {
        if id in running {
          running, doomed := running - {id}, doomed + {id};
        }
        activeRequests := activeRequests - {id};
      } else {
        assert activeRequests - {id} == activeRequests;
      }
    }

    method Report(models: Option<seq<string>>) returns (goesOn: bool)
      modifies this
      ensures View() == Delivered(old(View()), Refresh, models) && goesOn == models.Some?
    {
      if models == None {
        EndSession();
        return false;
      }
      events := events + [Outbound(ModelsUpdate(models.value, CurrentLoad()))];
      return true;
    }

    /** `models` is what the backend answers when asked for its models. */
    method HandleServerMessage(message: Down, models: Option<seq<string>>) returns (goesOn: bool)
      modifies this
      ensures View() == Delivered(old(View()), message, models)
      ensures goesOn == !((message.Work? && old(shuttingDown)) || (message.Refresh? && models == None))
    {
      goesOn := true;
      match message
      case Ack =>
      case Work(request) => goesOn := Accept(request);
      case Cancel(id, _) => Abort(id);
      case Shutdown => shuttingDown := true;
      case Ping => events := events + [Outbound(PongFrame(CurrentLoad()))];
      case Refresh => goesOn := Report(models);
    }

    method HandleEvent(event: Event) returns (goesOn: bool)
      modifies this
      ensures View() == Forwarded(old(View()), event)
      ensures goesOn == !event.Failed?
    {
      goesOn := true;
      match event
      case Outbound(frame) => outgoing := outgoing + [frame];
      case Finished(id) => activeRequests := activeRequests - {id};
      case Failed(id) =>
        EndSession();
        goesOn := false;
    }

    /** One turn of the loop, for a message that has arrived. */
    method ReadNext(models: Option<seq<string>>) returns (goesOn: bool)
      requires connected && incoming != []
      modifies this
      ensures View() == Next(old(View()), Deliver(models))
    {
      var message := incoming[0];
      incoming := incoming[1..];
      goesOn := HandleServerMessage(message, models);
    }

    /** One turn of the loop, for an event that is ready. */
    method ForwardNext() returns (goesOn: bool)
      requires connected && events != []
      modifies this
      ensures View() == Next(old(View()), Forward)
    {
      var event := events[0];
      events := events[1..];
      goesOn := HandleEvent(event);
    }
  }
}
