/**
 The workers that hand messages back to the dispatcher: the billing worker
 (BillingDispatcher), which passes everything through unless credit has run out, and the
 event half of a router worker (GoRouterWorker).
 */
module Workers {
  import opened Wrappers
  import opened Connectors
  import opened Messages

  const CREDIT_LIMIT_MESSAGE := "Vumi Go account has run out of credits."

  /** What came of asking the billing API to charge for a message. */
  datatype Charge = NotBilled | ApiError | Replied(transaction: bool, cutoff: bool)

  /** Credit has run out and there is no open session to close with an apology. */
  predicate Dropped(m: Msg, charge: Charge) {
    charge.Replied? && charge.cutoff && (m.sessionEvent == NoSession || m.sessionEvent == NewSession)
  }

  /** A message as it leaves the billing worker for the dispatcher. */
  function Billed(m: Msg, charge: Charge, d: Direction): Option<Msg> {
    var paid := m.(paid := m.paid || (charge.Replied? && charge.transaction), endpoint := DEFAULT);
    if d == Outbound && charge.Replied? && charge.cutoff then
      if Dropped(m, charge) then None
      else Some(paid.(sessionEvent := CloseSession, content := CREDIT_LIMIT_MESSAGE))
    else Some(paid)
  }

  class BillingWorker {
    constructor () {}

    method ProcessInbound(msg: Message, charge: Charge)
      modifies msg
      ensures Billed(old(msg.View()), charge, Inbound) == Some(msg.View())
    {
      if charge.Replied? {
        if charge.transaction {
          msg.paid := true;
        }
      }
      msg.endpoint := DEFAULT;
    }

    method ProcessOutbound(msg: Message, charge: Charge) returns (published: bool)
      modifies msg
      ensures published <==> !Dropped(old(msg.View()), charge)
      ensures published ==> Billed(old(msg.View()), charge, Outbound) == Some(msg.View())
      ensures msg.hops == old(msg.hops) && msg.tag == old(msg.tag) && msg.account == old(msg.account)
    {
      published := true;
      if charge.Replied? {
        if charge.transaction {
          msg.paid := true;
        }
        if charge.cutoff {
          published := HandleCreditCutoff(msg);
        }
      }
      if published {
        msg.endpoint := DEFAULT;
      }
    }

    method HandleCreditCutoff(msg: Message) returns (keep: bool)
      modifies msg`sessionEvent, msg`content
      ensures keep <==> old(msg.sessionEvent) != NoSession && old(msg.sessionEvent) != NewSession
      ensures keep ==> msg.sessionEvent == CloseSession && msg.content == CREDIT_LIMIT_MESSAGE
      ensures !keep ==> msg.View() == old(msg.View())
    {
      if msg.sessionEvent != NoSession && msg.sessionEvent != NewSession {
        msg.sessionEvent := CloseSession;
        msg.content := CREDIT_LIMIT_MESSAGE;
        return true;
      }
      return false;
    }

    method ProcessEvent(event: Message)
      modifies event`endpoint
      ensures event.View() == old(event.View()).(endpoint := DEFAULT)
    {
      event.endpoint := DEFAULT;
    }
  }

  class RouterWorker {
    constructor () {}

    method HandleEvent(event: Message) returns (published: bool)
      modifies event`endpoint
      ensures published <==> old(event.View()).NextRouterEndpoint().Some?
      ensures event.View() == if published
                              then old(event.View()).(endpoint := old(event.View()).NextRouterEndpoint().value)
                              else old(event.View())
    {
      var endpoint := event.View().NextRouterEndpoint();
      if endpoint.Some? {
        event.endpoint := endpoint.value;
      }
      return endpoint.Some?;
    }
  }
}
