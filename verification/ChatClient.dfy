/** The browser's controller of pending turns (app/api/static/chat.js, SalesChatController). */
module ChatClient {
  import opened Wrappers

  datatype PendingStatus = InFlight | FailedAttempt

  datatype Pending = Pending(turnRequestId: string, text: string, status: PendingStatus)

  datatype Client = Client(pending: Option<Pending>, rendered: set<string>, sessionTerminal: bool)

  datatype ErrorCode = StaleRevision | ValidationError | OtherError

  function NewClient(): Client { Client(None, {}, false) }

  predicate CanSend(c: Client) { !c.sessionTerminal && c.pending.None? }

  function Submitted(c: Client, id: string, text: string): Client {
    if !CanSend(c) then c else c.(pending := Some(Pending(id, text, InFlight)))
  }

  function Retried(c: Client): Client {
    if c.pending.None? then c else c.(pending := Some(c.pending.value.(status := InFlight)))
  }

  predicate Renders(c: Client, id: string) { id !in c.rendered }

  function AgentTurnReceived(c: Client, id: string, terminal: bool): Client {
    if !Renders(c, id) then c
    else
      Client(if c.pending.Some? && c.pending.value.turnRequestId == id then None else c.pending,
             c.rendered + {id},
             c.sessionTerminal || terminal)
  }

  function MarkedFailed(c: Client): Client {
    if c.pending.None? then c else c.(pending := Some(c.pending.value.(status := FailedAttempt)))
  }

  /** An error envelope over the socket names no turn: it fails whatever is pending. */
  function ErrorReceived(c: Client, code: ErrorCode): Client {
    if code.OtherError? then c else MarkedFailed(c)
  }

  /** A failed HTTP attempt fails its own record, which may no longer be the pending one. */
  function AttemptFailed(c: Client, id: string): Client {
    if c.pending.Some? && c.pending.value.turnRequestId == id then MarkedFailed(c) else c
  }

  class SalesChatController {
    var pending: Option<Pending>
    var renderedTurnIds: set<string>
    var sessionTerminal: bool

    ghost function Now(): Client
      reads this
    {
      Client(pending, renderedTurnIds, sessionTerminal)
    }

    constructor ()
      ensures Now() == NewClient()
      ensures pending.None? && renderedTurnIds == {} && !sessionTerminal
    {
      pending, renderedTurnIds, sessionTerminal := None, {}, false;
    }

    /** `id` is the freshly generated turn request id; the result is the message to dispatch. */
    method Submit(id: string, text: string) returns (dispatched: Option<Pending>)
      modifies this
      ensures Now() == Submitted(old(Now()), id, text)
      ensures renderedTurnIds == old(renderedTurnIds) && sessionTerminal == old(sessionTerminal)
      ensures pending == if old(sessionTerminal) || old(pending).Some? then old(pending) else Some(Pending(id, text, InFlight))
      ensures dispatched == if CanSend(old(Now())) then Some(Pending(id, text, InFlight)) else None
    {
      if sessionTerminal || pending.Some? { return None; }
      pending := Some(Pending(id, text, InFlight));
      dispatched := pending;
    }

    method Retry() returns (dispatched: Option<Pending>)
      modifies this
      ensures Now() == Retried(old(Now()))
      ensures renderedTurnIds == old(renderedTurnIds) && sessionTerminal == old(sessionTerminal)
      ensures pending == dispatched && (pending.Some? ==> pending.value.status == InFlight)
      ensures dispatched.Some? <==> old(pending).Some?
      ensures dispatched.Some? ==> dispatched.value.turnRequestId == old(pending).value.turnRequestId
                                   && dispatched.value.text == old(pending).value.text
    {
      if pending.None? { return None; }
      pending := Some(pending.value.(status := InFlight));
      dispatched := pending;
    }

    method OnAgentTurn(id: string, terminal: bool) returns (render: bool)
      modifies this
      ensures Now() == AgentTurnReceived(old(Now()), id, terminal)
      ensures render <==> id !in old(renderedTurnIds)
      ensures renderedTurnIds == old(renderedTurnIds) + {id}
      ensures sessionTerminal <==> old(sessionTerminal) || (render && terminal)
      ensures pending == if render && old(pending).Some? && old(pending).value.turnRequestId == id then None else old(pending)
    {
      if id in renderedTurnIds { return false; }
      renderedTurnIds := renderedTurnIds + {id};
      if pending.Some? && pending.value.turnRequestId == id {
        pending := None;
      }
      if terminal { sessionTerminal := true; }
      render := true;
    }

    method OnError(code: ErrorCode)
      modifies this
      ensures Now() == ErrorReceived(old(Now()), code)
      ensures renderedTurnIds == old(renderedTurnIds) && sessionTerminal == old(sessionTerminal)
      ensures pending == if old(pending).None? || code == OtherError then old(pending)
                         else Some(old(pending).value.(status := FailedAttempt))
    {
      if pending.Some? && (code.StaleRevision? || code.ValidationError?) {
        pending := Some(pending.value.(status := FailedAttempt));
      }
    }

    method OnAttemptFailed(id: string)
      modifies this
      ensures Now() == AttemptFailed(old(Now()), id)
      ensures renderedTurnIds == old(renderedTurnIds) && sessionTerminal == old(sessionTerminal)
      ensures pending == if old(pending).None? || old(pending).value.turnRequestId != id then old(pending)
                         else Some(old(pending).value.(status := FailedAttempt))
    {
      if pending.Some? && pending.value.turnRequestId == id {
        pending := Some(pending.value.(status := FailedAttempt));
      }
    }

    method OnFinished()
      modifies this
      ensures Now() == old(Now()).(sessionTerminal := true)
    {
      sessionTerminal := true;
    }
  }
}
