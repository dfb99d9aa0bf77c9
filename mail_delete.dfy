/** DeleteMailHandler, the retry-once pattern: on a first DeleteEmails error
    whose text says the session was logged out, log in again and call
    DeleteEmails once more; any other outcome is final. getLocalSession and
    remoteRelogin are not part of this model: the handler receives what they
    return, and what remoteRelogin does to the map is left out. */
module MailDelete {
  import opened Wrappers
  import opened Portal
  import Sessions
  import opened RestApi

  /** The decoded request body. */
  datatype DeleteMailBody = DeleteMailBody(boxID: string, messagesID: seq<string>)

  /** The request: whether it is a POST, and its body (None when it does not
      decode). */
  datatype DeleteMailRequest = DeleteMailRequest(isPost: bool, body: Option<DeleteMailBody>)

  /** What the helpers and the portal answer: getLocalSession's session name
      (None when it rejected the request), remoteRelogin's session when the map
      has none, the first DeleteEmails answer, remoteRelogin's session after a
      stale error, and the second DeleteEmails answer. */
  datatype MailBackend = MailBackend(
    localSession: Option<string>,
    reloginWhenAbsent: Sessions.Session?,
    firstDelete: Option<Error>,
    reloginWhenStale: Sessions.Session?,
    secondDelete: Option<Error>)

  /** One DeleteEmails call: on which session, with which box and messages. */
  datatype DeleteCall = DeleteCall(target: Sessions.Session, boxID: string, messagesID: seq<string>)

  /** Which session a DeleteEmails call goes to: the one the map holds, the one
      remoteRelogin gave because the map held none, or the one it gave after a
      stale-session error. */
  datatype Target = MapEntry | AbsentRelogin | StaleRelogin

  /** The handler's outcome as a script: the reply, the targets of the
      DeleteEmails calls in order, and the number of remoteRelogin calls.
      `present` says whether the map holds the local session's name. */
  datatype MailOutcome = MailOutcome(reply: Reply<()>, targets: seq<Target>, relogins: nat)

  function MailFlow(req: DeleteMailRequest, present: bool, b: MailBackend): (o: MailOutcome)
    ensures |o.targets| <= 2 && o.relogins <= 2
    ensures |o.targets| > 0 ==> req.isPost && b.localSession.Some? && req.body.Some?
  {
    if !req.isPost then MailOutcome(Status(StatusMethodNotAllowed), [], 0)
    else if b.localSession.None? then MailOutcome(ByHelper, [], 0)
    else if req.body.None? then MailOutcome(Status(StatusBadRequest), [], 0)
    else if !present && b.reloginWhenAbsent == null then MailOutcome(ByHelper, [], 1)
    else
      var first := if present then MapEntry else AbsentRelogin;
      var before := if present then 0 else 1;
      match b.firstDelete
      case None => MailOutcome(Status(StatusOK), [first], before)
      case Some(e) =>
        if !IsLoggedOut(e) then MailOutcome(Status(StatusBadGateway), [first], before)
        else if b.reloginWhenStale == null then MailOutcome(ByHelper, [first], before + 1)
        else
          MailOutcome(if b.secondDelete.None? then Status(StatusOK) else Status(StatusBadGateway),
                      [first, StaleRelogin], before + 1)
  }

  /** Once the request is admitted and a remote session exists, DeleteEmails is
      called, on the map's session or else on the one remoteRelogin gave. */
  lemma FirstDeleteMade(req: DeleteMailRequest, present: bool, b: MailBackend)
    requires req.isPost && b.localSession.Some? && req.body.Some?
    requires present || b.reloginWhenAbsent != null
    ensures |MailFlow(req, present, b).targets| >= 1
    ensures MailFlow(req, present, b).targets[0] == if present then MapEntry else AbsentRelogin
  {
  }

  /** A logged-out first error followed by a successful relogin is retried once,
      on the relogged session, and the second answer decides the reply. */
  lemma StaleFirstErrorRetried(req: DeleteMailRequest, present: bool, b: MailBackend)
    requires req.isPost && b.localSession.Some? && req.body.Some?
    requires present || b.reloginWhenAbsent != null
    requires b.firstDelete.Some? && IsLoggedOut(b.firstDelete.value) && b.reloginWhenStale != null
    ensures MailFlow(req, present, b).targets == [if present then MapEntry else AbsentRelogin, StaleRelogin]
    ensures MailFlow(req, present, b).reply
            == if b.secondDelete.None? then Status(StatusOK) else Status(StatusBadGateway)
  {
  }

  /** A retry happens only after a logged-out first error and a successful
      relogin. */
  lemma RetryOnlyWhenStale(req: DeleteMailRequest, present: bool, b: MailBackend)
    requires |MailFlow(req, present, b).targets| == 2
    ensures b.firstDelete.Some? && IsLoggedOut(b.firstDelete.value) && b.reloginWhenStale != null
    ensures MailFlow(req, present, b).targets[1] == StaleRelogin
  {
  }

  /** 200 exactly when an attempt made succeeded. */
  lemma OkExactlyOnSuccess(req: DeleteMailRequest, present: bool, b: MailBackend)
    ensures var o := MailFlow(req, present, b);
            o.reply == Status(StatusOK) <==>
              (|o.targets| == 1 && b.firstDelete.None?) || (|o.targets| == 2 && b.secondDelete.None?)
  {
  }

  /** errLoggedOut itself, as a first answer, is retried; an "Unknown SchoolServer
      Type" answer is final and gives 502. */
  lemma {:induction false} KnownErrorsOnFirstDelete(req: DeleteMailRequest, present: bool, b: MailBackend, code: int)
    requires req.isPost && b.localSession.Some? && req.body.Some?
    requires present || b.reloginWhenAbsent != null
    ensures b.firstDelete == Some(ErrLoggedOut) && b.reloginWhenStale != null ==>
              |MailFlow(req, present, b).targets| == 2
    ensures b.firstDelete == Some(UnknownServerType(code)) ==>
              MailFlow(req, present, b).reply == Status(StatusBadGateway) && |MailFlow(req, present, b).targets| == 1
  {
    ErrLoggedOutIsLoggedOut();
    UnknownServerTypeIsNotLoggedOut(code);
  }

  /** The session a target names. */
  function Resolve(rest: RestApi, name: string, b: MailBackend, t: Target): Sessions.Session?
    reads rest
  {
    match t
    case MapEntry => if name in rest.sessionsMap then rest.sessionsMap[name] else null
    case AbsentRelogin => b.reloginWhenAbsent
    case StaleRelogin => b.reloginWhenStale
  }

  /** The handler's result: the reply, the DeleteEmails calls in order, and the
      number of remoteRelogin calls. */
  method DeleteMailHandler(rest: RestApi, req: DeleteMailRequest, b: MailBackend)
    returns (reply: Reply<()>, calls: seq<DeleteCall>, relogins: nat)
    // The handler follows MailFlow: the same reply, relogins and calls, each on
    // the session its target names.
    ensures var o := MailFlow(req, b.localSession.Some? && b.localSession.value in rest.sessionsMap, b);
            reply == o.reply && relogins == o.relogins && |calls| == |o.targets|
            && forall k :: 0 <= k < |calls| ==>
                 b.localSession.Some? && calls[k].target == Resolve(rest, b.localSession.value, b, o.targets[k])
    // Once a remote session exists, DeleteEmails is called; a logged-out first
    // error with a successful relogin is retried.
    ensures req.isPost && b.localSession.Some? && req.body.Some?
            && (b.localSession.value in rest.sessionsMap || b.reloginWhenAbsent != null)
            ==> |calls| >= 1
    ensures |calls| >= 1 && b.firstDelete.Some? && IsLoggedOut(b.firstDelete.value) && b.reloginWhenStale != null
            ==> |calls| == 2
    // A non-POST request is turned away before anything else happens.
    ensures !req.isPost ==> reply == Status(StatusMethodNotAllowed) && calls == [] && relogins == 0
    // No local session, or a body that does not decode: no remote work at all.
    ensures req.isPost && b.localSession.None? ==> reply == ByHelper && calls == [] && relogins == 0
    ensures req.isPost && b.localSession.Some? && req.body.None? ==>
              reply == Status(StatusBadRequest) && calls == [] && relogins == 0
    // No remote session and remoteRelogin gives none: DeleteEmails is not called.
    ensures req.isPost && b.localSession.Some? && req.body.Some?
            && b.localSession.value !in rest.sessionsMap && b.reloginWhenAbsent == null
            ==> reply == ByHelper && calls == [] && relogins == 1
    // Every call carries the request's box and messages; the first goes to the
    // session the map holds, or else the one remoteRelogin gave.
    ensures forall k :: 0 <= k < |calls| ==>
              req.body.Some? && calls[k].boxID == req.body.value.boxID
              && calls[k].messagesID == req.body.value.messagesID
    ensures |calls| > 0 ==>
              b.localSession.Some?
              && calls[0].target == (if b.localSession.value in rest.sessionsMap
                                     then rest.sessionsMap[b.localSession.value] else b.reloginWhenAbsent)
    // At most two calls; a second only after a logged-out first error and a
    // successful relogin, and on the relogged session.
    ensures |calls| <= 2 && relogins <= 2
    ensures |calls| == 2 ==>
              b.firstDelete.Some? && IsLoggedOut(b.firstDelete.value)
              && b.reloginWhenStale != null && calls[1].target == b.reloginWhenStale
              && relogins == (if b.localSession.value in rest.sessionsMap then 1 else 2)
    // A first error without the marker: 502 after one call, no relogin after it.
    ensures |calls| > 0 && b.firstDelete.Some? && !IsLoggedOut(b.firstDelete.value) ==>
              reply == Status(StatusBadGateway) && |calls| == 1
              && relogins == (if b.localSession.value in rest.sessionsMap then 0 else 1)
    // A logged-out first error whose relogin gives no session: no second call.
    ensures |calls| > 0 && b.firstDelete.Some? && IsLoggedOut(b.firstDelete.value) && b.reloginWhenStale == null
            ==> reply == ByHelper && |calls| == 1
    // Any error on the retried call is final: 502.
    ensures |calls| == 2 && b.secondDelete.Some? ==> reply == Status(StatusBadGateway)
    // 200 exactly when one of the attempts succeeded.
    ensures reply == Status(StatusOK) <==>
              (|calls| == 1 && b.firstDelete.None?) || (|calls| == 2 && b.secondDelete.None?)
  {
    calls, relogins := [], 0;
    if !req.isPost {
      return Status(StatusMethodNotAllowed), calls, relogins;
    }
    if b.localSession.None? {
      return ByHelper, calls, relogins;
    }
    var sessionName := b.localSession.value;
    if req.body.None? {
      return Status(StatusBadRequest), calls, relogins;
    }
    var body := req.body.value;
    var remote: Sessions.Session;
    if sessionName in rest.sessionsMap {
      remote := rest.sessionsMap[sessionName];
    } else {
      relogins := relogins + 1;
      if b.reloginWhenAbsent == null {
        return ByHelper, calls, relogins;
      }
      remote := b.reloginWhenAbsent;
    }
    // First attempt (state FRESH).
    calls := calls + [DeleteCall(remote, body.boxID, body.messagesID)];
    var err := b.firstDelete;
    if err.Some? {
      if Text.Contains(Message(err.value), LoggedOutText) {
        relogins := relogins + 1;
        if b.reloginWhenStale == null {
          return ByHelper, calls, relogins;
        }
        remote := b.reloginWhenStale;
        // Second and last attempt (state RETRIED).
        calls := calls + [DeleteCall(remote, body.boxID, body.messagesID)];
        err := b.secondDelete;
        if err.Some? {
          return Status(StatusBadGateway), calls, relogins;
        }
      } else {
        return Status(StatusBadGateway), calls, relogins;
      }
    }
    return Status(StatusOK), calls, relogins;
  }
}
