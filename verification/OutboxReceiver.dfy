/** The deduplicating consumer at the far end of the outbox. */
module OutboxReceiver {
  import opened Common
  import opened Outbox

  datatype Status = NoContent | BadRequest | Unauthorized | MethodNotAllowed | Conflict | ApplyFailed

  const BEARER := "Bearer "

  /** A request as it arrives; without a body if it does not decode to exactly one
      event with known fields. */
  datatype Request = Request(isPost: bool, authorization: string, idempotencyKey: Id, body: Option<Event>)

  function BearerToken(header: string): (token: Option<string>)
    ensures forall t: string :: token == Some(t) <==> header == BEARER + t
  {
    if BEARER <= header then
      assert header == BEARER + header[|BEARER|..];
      Some(header[|BEARER|..])
    else None
  }

  /** What the consumer knows: the content it applied under each event id, and
      the order in which it applied it. */
  datatype Applied = Applied(byId: map<Id, Event>, log: seq<Event>)

  datatype Served = Served(state: Applied, status: Status)

  /** One authorized request with a decodable body. The stored digest stands for
      the content, and `applySucceeds` for the result of the side effect. */
  function Serve(state: Applied, idempotencyKey: Id, event: Event, applySucceeds: bool): Served {
    if !event.Valid() || idempotencyKey != event.eventId then Served(state, BadRequest)
    else if event.eventId in state.byId then
      Served(state, if state.byId[event.eventId] == event then NoContent else Conflict)
    else if !applySucceeds then Served(state, ApplyFailed)
    else Served(Applied(state.byId[event.eventId := event], state.log + [event]), NoContent)
  }

  /** The refusals before the event is looked at. */
  function Answer(state: Applied, token: string, request: Request, applySucceeds: bool): Served {
    if !request.isPost then Served(state, MethodNotAllowed)
    else if BearerToken(request.authorization) != Some(token) then Served(state, Unauthorized)
    else if request.body.None? then Served(state, BadRequest)
    else Serve(state, request.idempotencyKey, request.body.value, applySucceeds)
  }

  /** What the outbox's publisher sends for an event. */
  function RequestFor(token: string, event: Event): Request {
    Request(true, BEARER + token, event.eventId, Some(event))
  }

  /** The publisher's requests get past the refusals. */
  lemma PublisherIsAdmitted(state: Applied, token: string, event: Event, applySucceeds: bool)
    ensures Answer(state, token, RequestFor(token, event), applySucceeds)
      == Serve(state, event.eventId, event, applySucceeds)
  {
    assert BearerToken(BEARER + token) == Some(token);
  }

  /** A request is refused as malformed exactly if its event is invalid or stands under
      another key. A success reply means that exactly this event is stored; an event is applied,
      once, exactly when it is new and its side effect succeeds, and a change of
      content under a known identity is refused. */
  lemma AcknowledgedIsStored(state: Applied, key: Id, event: Event, applySucceeds: bool)
    ensures var served, readable := Serve(state, key, event, applySucceeds), event.Valid() && key == event.eventId;
      && (served.status == BadRequest <==> !readable)
      && (served.status == NoContent <==>
        && readable && event.eventId in served.state.byId && served.state.byId[event.eventId] == event)
      && (served.status == Conflict <==> readable && event.eventId in state.byId && state.byId[event.eventId] != event)
      && (served.state.log == state.log + [event] <==> readable && event.eventId !in state.byId && applySucceeds)
      && (served.state.log != state.log + [event] ==> served.state == state)
  {
  }

  class Receiver {
    const token: string
    var applied: map<Id, Event>
    var log: seq<Event>

    function State(): Applied
      reads this
    {
      Applied(applied, log)
    }

    constructor (secret: string)
      ensures State() == Applied(map[], []) && token == secret
    {
      applied, log, token := map[], [], secret;
    }

    method ServeHTTP(request: Request, applySucceeds: bool) returns (status: Status)
      modifies this
      ensures Served(State(), status) == Answer(old(State()), token, request, applySucceeds)
    {
      if !request.isPost {
        return MethodNotAllowed;
      }
      if BearerToken(request.authorization) != Some(token) {
        return Unauthorized;
      }
      if request.body.None? {
        return BadRequest;
      }
      var event := request.body.value;
      if !event.Valid() || request.idempotencyKey != event.eventId {
        return BadRequest;
      }
      if event.eventId in applied {
        if applied[event.eventId] != event {
          return Conflict;
        }
        return NoContent;
      }
      if !applySucceeds {
        return ApplyFailed;
      }
      log := log + [event];
      applied := applied[event.eventId := event];
      status := NoContent;
    }
  }
}
