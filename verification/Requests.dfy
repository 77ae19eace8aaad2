/** Requests, their envelopes, and how the client and the event loop classify them. */
module Requests {
  import opened Common
  import opened Scheduler

  type Duration = nat
  type Instant = nat

  /** `Other` stands for the request kinds that are not told apart here: subscriptions, pings and the like. */
  datatype Request =
    | PublishRequest(id: nat, qos: nat)
    | PubAck(pkid: nat)
    | PubRec(pkid: nat)
    | PubRel(pkid: nat)
    | Other(id: nat)
    | Disconnect
    | DisconnectWithTimeout(timeout: Duration)
    | DisconnectNow
    | DisconnectAfterQueued
    | DisconnectAfterQueuedWithTimeout(timeout: Duration)

  datatype RequestMeta = RequestMeta(
    sequence: nat,
    closing: bool,
    invalidTimeout: bool,
    deadline: Option<Instant>,
    completion: Option<nat>)

  const NEW_META := RequestMeta(0, false, false, None, None)

  datatype RequestEnvelope = RequestEnvelope(request: Request, meta: RequestMeta) {

    /** A fence yields `Some`, carrying its timeout if it has one. */
    function Fence(): Option<Option<Duration>> {
      match request
      case DisconnectAfterQueued => Some(None)
      case DisconnectAfterQueuedWithTimeout(timeout) => Some(Some(timeout))
      case _ => None
    }

    predicate IsFence() {
      Fence().Some?
    }

    function Admitted(sequence: nat, deadline: Option<Instant>): RequestEnvelope {
      this.(meta := meta.(sequence := sequence, deadline := deadline))
    }

    function Closing(): RequestEnvelope {
      this.(meta := meta.(closing := true))
    }

    function InvalidTimeout(): RequestEnvelope {
      this.(meta := meta.(invalidTimeout := true))
    }
  }

  function Plain(request: Request): RequestEnvelope {
    RequestEnvelope(request, NEW_META)
  }

  /** Publishes and fences travel on the request lane, everything else on the control lane. */
  predicate IsPublishRequest(request: Request) {
    request.PublishRequest? || request.DisconnectAfterQueued? || request.DisconnectAfterQueuedWithTimeout?
  }

  predicate ShouldReplayAfterReconnect(request: Request) {
    !request.PubAck? && !request.PubRec?
  }

  function ClassOfRequest(request: Request): RequestClass {
    match request
    case DisconnectAfterQueued => RequestClass.Fence
    case DisconnectAfterQueuedWithTimeout(_) => RequestClass.Fence
    case PublishRequest(_, qos) => if qos != 0 then FlowControlledPublish else Publish
    case _ => Control
  }
}
