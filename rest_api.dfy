/** The REST layer's session bookkeeping: the map from local session names to
    remote sessions, the script every data handler follows around it (drop a
    broken local session, create and log in a missing remote session, fetch
    once, log in afresh after a stale-session error), sign-in, log-out and the
    permission decision. HTTP plumbing, the cookie store, JSON and the database
    are not modelled: each handler receives what they would answer, and answers
    with a Reply that keeps only the status and the payload. */
module RestApi {
  import opened Wrappers
  import opened Portal
  import Sessions

  const StatusOK := 200
  const StatusBadRequest := 400
  const StatusMethodNotAllowed := 405
  const StatusInternalServerError := 500
  const StatusBadGateway := 502

  /** What a handler sends back. */
  datatype Reply<D> =
    | NoReply            // returned without writing: net/http sends 200 with an empty body
    | Status(code: int)  // WriteHeader(code)
    | Body(payload: D)   // Write of the JSON encoding of payload, so 200
    | ByHelper           // getLocalSession or remoteRelogin answered

  /*** Staleness */

  /** How a handler recognises the "logged out" error of a fetch: by Go's == with
      restapi's errLoggedOut, as the data handlers are written, or by its text,
      as the mail handler does. */
  datatype StaleTest = ByIdentity | ByMessage

  /** Whatever the identity test recognises, the text test recognises too. */
  predicate Stale(test: StaleTest, e: Error)
    ensures Stale(test, e) ==> IsLoggedOut(e)
  {
    ErrLoggedOutIsLoggedOut();
    match test
    case ByIdentity => e == ErrLoggedOut
    case ByMessage => IsLoggedOut(e)
  }

  /** A portal error saying the session was logged out passes the text test but
      not the identity test: it is a different error value from errLoggedOut. */
  lemma {:induction false} PortalLogoutFailsIdentityTest()
    ensures !Stale(ByIdentity, Remote(LoggedOutText))
    ensures Stale(ByMessage, Remote(LoggedOutText))
  {
    assert Text.OccursAt(LoggedOutText, LoggedOutText, 0);
  }

  /*** Permission */

  /** A database error, known by its text; the handlers tell "record not found"
      apart by comparing err.Error() with it. */
  datatype DbError = DbError(text: string)

  const RecordNotFound := DbError("record not found")

  /** GetUserPermission answers a value and an error together. */
  datatype UserPermission = UserPermission(perm: bool, err: Option<DbError>)

  /** Outcome of the permission decision. */
  datatype Verdict = Decided(perm: bool) | SchoolLookupFailed | UserLookupFailed

  /** The permission decision as written: the school's permission if it has one;
      otherwise the user's, where "record not found" first sets the permission to
      true and the next statement overwrites it with the value returned. */
  function PermissionAsWritten(school: Result<bool, DbError>, user: UserPermission): (v: Verdict)
    ensures v == SchoolLookupFailed <==> school.Failure?
    ensures school == Success(true) ==> v == Decided(true)
    ensures v == UserLookupFailed <==>
              school == Success(false) && user.err.Some? && user.err.value != RecordNotFound
    ensures (school == Success(false) && (user.err.None? || user.err == Some(RecordNotFound)))
            ==> v == Decided(user.perm)
  {
    match school
    case Failure(_) => SchoolLookupFailed
    case Success(perm) =>
      if perm then Decided(true)
      else if user.err.Some? && user.err.value != RecordNotFound then UserLookupFailed
      else Decided(user.perm)
  }

  /** The permission decision as intended: a user the database does not know is
      admitted. */
  function Permission(school: Result<bool, DbError>, user: UserPermission): (v: Verdict)
    ensures v == SchoolLookupFailed <==> school.Failure?
    ensures school == Success(true) ==> v == Decided(true)
    ensures v == UserLookupFailed <==>
              school == Success(false) && user.err.Some? && user.err.value != RecordNotFound
    ensures school == Success(false) && user.err == Some(RecordNotFound) ==> v == Decided(true)
    ensures school == Success(false) && user.err.None? ==> v == Decided(user.perm)
  {
    match school
    case Failure(_) => SchoolLookupFailed
    case Success(perm) =>
      if perm then Decided(true)
      else if user.err.None? then Decided(user.perm)
      else if user.err.value == RecordNotFound then Decided(true)
      else UserLookupFailed
  }

  /** A new user of a school without permission is turned away as written,
      although the code means to admit them. */
  lemma NewUserRefusedAsWritten()
    ensures PermissionAsWritten(Success(false), UserPermission(false, Some(RecordNotFound))) == Decided(false)
    ensures Permission(Success(false), UserPermission(false, Some(RecordNotFound))) == Decided(true)
  {
  }

  /** The two decisions differ only for users the database does not know. */
  lemma PermissionDiffersOnlyForNewUsers(school: Result<bool, DbError>, user: UserPermission)
    ensures PermissionAsWritten(school, user) != Permission(school, user) ==>
              school == Success(false) && user.err == Some(RecordNotFound) && !user.perm
  {
  }

  /** Which of the two decisions a handler applies: the code as written or as
      intended. */
  datatype PermissionRule = AsWritten | Intended

  function Decide(rule: PermissionRule, school: Result<bool, DbError>, user: UserPermission): Verdict
  {
    match rule
    case AsWritten => PermissionAsWritten(school, user)
    case Intended => Permission(school, user)
  }

  /** CheckPermissionHandler: a wrong method, an unreadable body or an unknown
      school gives 400, a database failure 500, and otherwise the decision is
      sent. */
  function CheckPermissionReply(rule: PermissionRule, methodOk: bool, bodyOk: bool,
                                school: Result<bool, DbError>, user: UserPermission): (r: Reply<bool>)
    ensures r.Body? <==> methodOk && bodyOk && Decide(rule, school, user).Decided?
    ensures r.Body? ==> Decide(rule, school, user).Decided? && r.payload == Decide(rule, school, user).perm
    ensures r == Status(StatusInternalServerError) <==>
              methodOk && bodyOk && school == Success(false) && user.err.Some? && user.err.value != RecordNotFound
    ensures !r.Body? && r != Status(StatusInternalServerError) ==> r == Status(StatusBadRequest)
  {
    if !methodOk || !bodyOk then Status(StatusBadRequest)
    else match Decide(rule, school, user)
      case SchoolLookupFailed => Status(StatusBadRequest)
      case UserLookupFailed => Status(StatusInternalServerError)
      case Decided(perm) => Body(perm)
  }

  /** As written, a new user of a school without permission is told false; the
      intended decision tells them true. */
  lemma NewUserToldFalseAsWritten(school: Result<bool, DbError>, user: UserPermission)
    requires school == Success(false) && user == UserPermission(false, Some(RecordNotFound))
    ensures CheckPermissionReply(AsWritten, true, true, school, user) == Body(false)
    ensures CheckPermissionReply(Intended, true, true, school, user) == Body(true)
  {
    NewUserRefusedAsWritten();
  }

  /** "record not found" is recognised by the error's text, whatever produced it;
      any other text is a lookup failure. */
  lemma RecordNotFoundKnownByText(userPerm: bool)
    ensures PermissionAsWritten(Success(false), UserPermission(userPerm, Some(DbError("record not found"))))
            == Decided(userPerm)
    ensures Permission(Success(false), UserPermission(userPerm, Some(DbError("record not found")))) == Decided(true)
    ensures PermissionAsWritten(Success(false), UserPermission(userPerm, Some(DbError("record not found.")))) == UserLookupFailed
  {
  }

  /*** Data handlers */

  /** How the data handlers differ around the common script: GetChildrenMapHandler
      answers 400 to a wrong method, reads no body, and sends a field of the
      remote session (Base.ChildrenIDS) that the fetch fills in; the report, marks
      and schedule handlers return silently on a wrong method, decode a body and
      send the value the fetch returned. */
  datatype HandlerShape = HandlerShape(rejectsWrongMethod: bool, readsBody: bool, sendsSessionState: bool)

  const ReportShape := HandlerShape(false, true, false)
  const ChildrenMapShape := HandlerShape(true, false, true)

  /** The request as the handler sees it: whether its method is the expected one,
      the "sessionName" cookie, whether the store made a new (broken) local
      session, and whether the body decodes. */
  datatype DataRequest = DataRequest(methodOk: bool, cookie: Option<string>, brokenLocal: bool, bodyOk: bool)

  /** What one "create a remote session" step is answered: the school from
      GetUserAuthData, then the type-01 adapter's login answer. */
  datatype Attempt = Attempt(authData: Option<School>, t01Login: Option<Error>)

  /** Everything outside the handler answers: the creation step, the fetch, the
      relogin step after a stale-session error, whether the result encodes, and
      the session field a newly made session holds before any fetch fills it. */
  datatype DataBackend<D> = DataBackend(creation: Attempt, fetch: Fetched<D>, relogin: Attempt, marshalOk: bool,
                                        freshState: Option<D>)

  /** What a handler sends after a stale error and a successful relogin: the
      value the failed fetch returned, or, for a handler that sends session
      state, the state of the relogged session, which no fetch has filled. */
  function ReloginPayload<D>(shape: HandlerShape, b: DataBackend<D>): Option<D>
  {
    if shape.sendsSessionState then b.freshState else b.fetch.value
  }

  /** Where a creation step ends. */
  datatype Creation = NoAuthData | LoginFailed(school: School, error: Error) | LoggedIn(school: School)

  /** A creation step: look the user's school up, build a session for it and log
      in; LoggedIn exactly when both succeed. */
  function Create(a: Attempt): (c: Creation)
    ensures c.NoAuthData? <==> a.authData.None?
    ensures c.LoggedIn? <==> a.authData.Some? && DispatchError(a.authData.value.serverType, a.t01Login).None?
    ensures !c.NoAuthData? ==> c.school == a.authData.value
  {
    match a.authData
    case None => NoAuthData
    case Some(school) =>
      match DispatchError(school.serverType, a.t01Login)
      case Some(e) => LoginFailed(school, e)
      case None => LoggedIn(school)
  }

  /** Remote logins a creation step makes. */
  function LoginCalls(c: Creation): nat
  {
    if c.NoAuthData? then 0 else 1
  }

  /** What a handler does to the map entry of its local session name: nothing, a
      delete, or binding a fresh, logged-in session of the given school. */
  datatype Effect = Kept | Removed | Stored(serv: School)

  /** A data handler's reply (a None payload is JSON null), its map effect, and
      how many remote logins and fetches it made. */
  datatype Outcome<D> = Outcome(reply: Reply<Option<D>>, effect: Effect, logins: nat, fetches: nat)

  /** json.Marshal then Write, or 500 when encoding fails. */
  function Encoded<D>(ok: bool, payload: Option<D>): Reply<Option<D>>
  {
    if ok then Body(payload) else Status(StatusInternalServerError)
  }

  /** The request reaches the remote-session part of the script. */
  predicate Admitted(shape: HandlerShape, req: DataRequest)
  {
    req.methodOk && req.cookie.Some? && !req.brokenLocal && (shape.readsBody ==> req.bodyOk)
  }

  /** The data handlers' script, step by step. `present` says whether the map
      holds an entry for the cookie's name when the handler starts. A body is
      sent only when the one fetch succeeded, and then it is what the fetch
      gave, or when a stale error was followed by a successful relogin, and then
      it is ReloginPayload. */
  function DataFlow<D>(shape: HandlerShape, req: DataRequest, present: bool, b: DataBackend<D>,
                       test: StaleTest): (o: Outcome<D>)
    ensures o.fetches <= 1 && o.logins <= 2
    ensures o.fetches == 1 ==> Admitted(shape, req) && (present || Create(b.creation).LoggedIn?)
    ensures o.reply.Body? ==> o.fetches == 1 && b.marshalOk
    ensures o.reply.Body? && b.fetch.err.None? ==> o.reply.payload == b.fetch.value
    ensures o.reply.Body? && b.fetch.err.Some? ==>
              Stale(test, b.fetch.err.value) && Create(b.relogin).LoggedIn?
              && o.reply.payload == (if shape.sendsSessionState then b.freshState else b.fetch.value)
  {
    if !req.methodOk then
      Outcome(if shape.rejectsWrongMethod then Status(StatusBadRequest) else NoReply, Kept, 0, 0)
    else if req.cookie.None? then Outcome(Status(StatusBadRequest), Kept, 0, 0)
    else if req.brokenLocal then Outcome(Status(StatusBadRequest), Removed, 0, 0)
    else if shape.readsBody && !req.bodyOk then Outcome(Status(StatusBadRequest), Kept, 0, 0)
    else if !present && !Create(b.creation).LoggedIn? then
      Outcome(Status(StatusInternalServerError), Kept, LoginCalls(Create(b.creation)), 0)
    else
      var bound := if present then Kept else Stored(Create(b.creation).school);
      var logins := if present then 0 else 1;
      match b.fetch.err
      case None => Outcome(Encoded(b.marshalOk, b.fetch.value), bound, logins, 1)
      case Some(e) =>
        if !Stale(test, e) then Outcome(Status(StatusInternalServerError), bound, logins, 1)
        else
          var again := Create(b.relogin);
          if again.LoggedIn? then Outcome(Encoded(b.marshalOk, ReloginPayload(shape, b)), Stored(again.school), logins + 1, 1)
          else Outcome(Status(StatusInternalServerError), bound, logins + LoginCalls(again), 1)
  }

  /** Nothing happens to the map and no remote call is made before a request is
      admitted, except that a broken local session loses its entry. */
  lemma RejectedBeforeRemoteWork<D>(shape: HandlerShape, req: DataRequest, present: bool,
                                    b: DataBackend<D>, test: StaleTest)
    requires !Admitted(shape, req)
    ensures var o := DataFlow(shape, req, present, b, test);
            o.logins == 0 && o.fetches == 0
            && (o.effect == Removed <==> req.methodOk && req.cookie.Some? && req.brokenLocal)
            && (o.effect != Removed ==> o.effect == Kept)
            && (o.reply == NoReply <==> !req.methodOk && !shape.rejectsWrongMethod)
            && (o.reply != NoReply ==> o.reply == Status(StatusBadRequest))
  {
  }

  /** Missing remote session whose creation fails: 500, no fetch, map untouched. */
  lemma CreationFailureAnswers500<D>(shape: HandlerShape, req: DataRequest, b: DataBackend<D>, test: StaleTest)
    requires Admitted(shape, req) && !Create(b.creation).LoggedIn?
    ensures DataFlow(shape, req, false, b, test)
            == Outcome(Status(StatusInternalServerError), Kept, LoginCalls(Create(b.creation)), 0)
  {
  }

  /** A session enters the map only right after a remote login of it succeeded:
      the creation step of a missing session, or the relogin after a stale error. */
  lemma StoredOnlyAfterLogin<D>(shape: HandlerShape, req: DataRequest, present: bool,
                                b: DataBackend<D>, test: StaleTest)
    requires DataFlow(shape, req, present, b, test).effect.Stored?
    ensures var s := DataFlow(shape, req, present, b, test).effect.serv;
            Admitted(shape, req)
            && ((!present && Create(b.creation) == LoggedIn(s))
                || (b.fetch.err.Some? && Stale(test, b.fetch.err.value) && Create(b.relogin) == LoggedIn(s)))
  {
  }

  /** A fetch without error answers its value, and the entry stays as the
      handler found or made it. */
  lemma SuccessSendsFetchedValue<D>(shape: HandlerShape, req: DataRequest, present: bool,
                                    b: DataBackend<D>, test: StaleTest)
    requires Admitted(shape, req) && (present || Create(b.creation).LoggedIn?)
    requires b.fetch.err.None?
    ensures DataFlow(shape, req, present, b, test)
            == Outcome(Encoded(b.marshalOk, b.fetch.value),
                       if present then Kept else Stored(Create(b.creation).school),
                       if present then 0 else 1, 1)
  {
  }

  /** A stale-session error rebinds the name to a freshly logged-in session and,
      without fetching again, answers ReloginPayload; a failed relogin answers
      500 and leaves the entry as it was. */
  lemma StaleErrorRebinds<D>(shape: HandlerShape, req: DataRequest, present: bool,
                             b: DataBackend<D>, test: StaleTest)
    requires Admitted(shape, req) && (present || Create(b.creation).LoggedIn?)
    requires b.fetch.err.Some? && Stale(test, b.fetch.err.value)
    ensures var o := DataFlow(shape, req, present, b, test);
            o.fetches == 1
            && (Create(b.relogin).LoggedIn? ==>
                  o.effect == Stored(Create(b.relogin).school) && o.reply == Encoded(b.marshalOk, ReloginPayload(shape, b)))
            && (!Create(b.relogin).LoggedIn? ==>
                  o.reply == Status(StatusInternalServerError)
                  && o.effect == (if present then Kept else Stored(Create(b.creation).school)))
  {
  }

  /** Any other fetch error answers 500 and leaves the entry as the handler found
      or made it. */
  lemma OtherErrorKeepsEntry<D>(shape: HandlerShape, req: DataRequest, present: bool,
                                b: DataBackend<D>, test: StaleTest)
    requires Admitted(shape, req) && (present || Create(b.creation).LoggedIn?)
    requires b.fetch.err.Some? && !Stale(test, b.fetch.err.value)
    ensures DataFlow(shape, req, present, b, test)
            == Outcome(Status(StatusInternalServerError),
                       if present then Kept else Stored(Create(b.creation).school),
                       if present then 0 else 1, 1)
  {
  }

  /** As written, the relogin step is never reached by an error the remote session
      returns: its answer makes no difference to the outcome. */
  lemma IdentityTestNeverRelogs<D>(shape: HandlerShape, req: DataRequest, present: bool,
                                   b: DataBackend<D>, other: Attempt)
    requires b.fetch.err != Some(ErrLoggedOut)
    ensures DataFlow(shape, req, present, b, ByIdentity) == DataFlow(shape, req, present, b.(relogin := other), ByIdentity)
  {
  }

  /** A remote session the portal has logged out stays in the map as written and
      every request on it answers 500; the text test replaces it. */
  lemma StaleEntrySticksAsWritten<D>(shape: HandlerShape, req: DataRequest, b: DataBackend<D>)
    requires Admitted(shape, req)
    requires b.fetch.err == Some(Remote(LoggedOutText)) && Create(b.relogin).LoggedIn?
    ensures DataFlow(shape, req, true, b, ByIdentity) == Outcome(Status(StatusInternalServerError), Kept, 0, 1)
    ensures DataFlow(shape, req, true, b, ByMessage)
            == Outcome(Encoded(b.marshalOk, ReloginPayload(shape, b)), Stored(Create(b.relogin).school), 1, 1)
  {
    PortalLogoutFailsIdentityTest();
  }

  /** With the text test, GetChildrenMapHandler answers a logged-out error by
      relogging and sending the new session's ChildrenIDS, which no
      GetChildrenMap has filled, whatever the failed fetch had found. */
  lemma {:induction false} ChildrenMapAfterReloginIsUnfetched<D>(req: DataRequest, present: bool, b: DataBackend<D>)
    requires Admitted(ChildrenMapShape, req) && (present || Create(b.creation).LoggedIn?)
    requires b.fetch.err == Some(Remote(LoggedOutText)) && Create(b.relogin).LoggedIn? && b.marshalOk
    ensures DataFlow(ChildrenMapShape, req, present, b, ByMessage).reply == Body(b.freshState)
  {
    PortalLogoutFailsIdentityTest();
  }

  /*** Sign-in */

  /** The sign-in request: method, whether the body decodes, and its fields. */
  datatype SignInRequest = SignInRequest(methodOk: bool, bodyOk: bool, login: string, passkey: string, id: int)

  /** What sign-in is answered: the two permission lookups, the configured school
      for the id, the type-01 login, the new local session's name, whether the
      store hands out that session, and whether UpdateUser succeeds. */
  datatype SignInBackend = SignInBackend(
    schoolPerm: Result<bool, DbError>,
    userPerm: UserPermission,
    configSchool: School,
    t01Login: Option<Error>,
    newName: string,
    storeOk: bool,
    updateOk: bool)

  /** The reply, the "sessionName" cookie set (if any) and whether a remote
      session was bound to the new name. */
  datatype SignInOutcome = SignInOutcome(reply: Reply<()>, cookie: Option<string>, inserted: bool)

  /** The configured school with the request's credentials filled in. */
  function WithCredentials(s: School, login: string, password: string): School
  {
    s.(login := login, password := password)
  }

  /** SignInHandler's script, under the given permission decision. The cookie is
      set exactly when a session is bound, and it carries the new name. */
  function SignInFlow(rule: PermissionRule, req: SignInRequest, b: SignInBackend): (o: SignInOutcome)
    ensures o.cookie.Some? <==> o.inserted
    ensures o.cookie.Some? ==> o.cookie.value == b.newName
    ensures o.inserted ==> req.methodOk && req.bodyOk && b.storeOk && Decide(rule, b.schoolPerm, b.userPerm) == Decided(true)
  {
    if !req.methodOk then SignInOutcome(NoReply, None, false)
    else if !req.bodyOk then SignInOutcome(Status(StatusBadRequest), None, false)
    else match Decide(rule, b.schoolPerm, b.userPerm)
      case SchoolLookupFailed => SignInOutcome(Status(StatusBadRequest), None, false)
      case UserLookupFailed => SignInOutcome(Status(StatusInternalServerError), None, false)
      case Decided(perm) =>
        if !perm then SignInOutcome(Status(StatusBadRequest), None, false)
        else
          var school := WithCredentials(b.configSchool, req.login, req.passkey);
          if DispatchError(school.serverType, b.t01Login).Some? then
            SignInOutcome(Status(StatusBadRequest), None, false)
          else if !b.storeOk then SignInOutcome(Status(StatusInternalServerError), None, false)
          else if !b.updateOk then SignInOutcome(Status(StatusInternalServerError), Some(b.newName), true)
          else SignInOutcome(NoReply, Some(b.newName), true)
  }

  /** Sign-in binds a remote session only when permission is granted and the
      remote login succeeds, and then under the new cookie's name. */
  lemma SignInBindsOnlyWhenAdmitted(rule: PermissionRule, req: SignInRequest, b: SignInBackend)
    ensures SignInFlow(rule, req, b).inserted <==>
              req.methodOk && req.bodyOk && Decide(rule, b.schoolPerm, b.userPerm) == Decided(true)
              && DispatchError(b.configSchool.serverType, b.t01Login).None? && b.storeOk
  {
  }

  /** Denied permission or a refused remote login answers 400 and binds nothing. */
  lemma SignInRefusals(rule: PermissionRule, req: SignInRequest, b: SignInBackend)
    requires req.methodOk && req.bodyOk
    requires Decide(rule, b.schoolPerm, b.userPerm) == Decided(false)
             || (Decide(rule, b.schoolPerm, b.userPerm) == Decided(true)
                 && DispatchError(b.configSchool.serverType, b.t01Login).Some?)
    ensures SignInFlow(rule, req, b) == SignInOutcome(Status(StatusBadRequest), None, false)
  {
  }

  /** A failed UpdateUser answers 500 although the session is already bound and
      the cookie set. */
  lemma SignInUpdateFailureKeepsBinding(rule: PermissionRule, req: SignInRequest, b: SignInBackend)
    requires SignInFlow(rule, req, b).inserted && !b.updateOk
    ensures SignInFlow(rule, req, b) == SignInOutcome(Status(StatusInternalServerError), Some(b.newName), true)
  {
  }

  /** As written, a new user of a school without permission is refused with 400;
      under the intended decision the same request signs in. */
  lemma NewUserSignInRefusedAsWritten(req: SignInRequest, b: SignInBackend)
    requires req.methodOk && req.bodyOk
    requires b.schoolPerm == Success(false) && b.userPerm == UserPermission(false, Some(RecordNotFound))
    ensures SignInFlow(AsWritten, req, b) == SignInOutcome(Status(StatusBadRequest), None, false)
    ensures SignInFlow(Intended, req, b).inserted <==>
              DispatchError(b.configSchool.serverType, b.t01Login).None? && b.storeOk
  {
    NewUserRefusedAsWritten();
  }

  /*** Log-out */

  /** The log-out request: method, cookie, and whether the store gives back the
      local session. */
  datatype LogOutRequest = LogOutRequest(methodOk: bool, cookie: Option<string>, storeOk: bool)

  /** The REST API object; sessionsMap binds local session names to remote
      sessions. */
  class RestApi {
    var sessionsMap: map<string, Sessions.Session>

    /** NewRestAPI: an empty map. */
    constructor ()
      ensures sessionsMap == map[]
    {
      sessionsMap := map[];
    }

    /** A creation step: lookup, new session, login. The session is returned when
        the login succeeded; the map is not touched. */
    method CreateRemote(a: Attempt) returns (c: Creation, s: Sessions.Session?)
      ensures c == Create(a)
      ensures c.LoggedIn? <==> s != null
      ensures s != null ==> fresh(s) && fresh(s.base.mu) && s.base.serv == c.school
    {
      s := null;
      if a.authData.None? {
        return NoAuthData, null;
      }
      var school := a.authData.value;
      var remote := new Sessions.Session(school);
      var err := remote.Login(a.t01Login);
      if err.Some? {
        return LoginFailed(school, err.value), null;
      }
      return LoggedIn(school), remote;
    }

    /** One data handler. The fetch itself is the abstract answer b.fetch; it goes
        to `fetchedOn`, the bound session. The staleness test is the text test. */
    method DataHandler<D>(shape: HandlerShape, req: DataRequest, b: DataBackend<D>)
      returns (o: Outcome<D>, fetchedOn: Sessions.Session?, stored: Sessions.Session?)
      modifies this
      ensures o == DataFlow(shape, req, req.cookie.Some? && req.cookie.value in old(sessionsMap), b, ByMessage)
      ensures o.effect == Kept ==> sessionsMap == old(sessionsMap)
      ensures o.effect == Removed ==> req.cookie.Some? && sessionsMap == old(sessionsMap) - {req.cookie.value}
      ensures o.effect.Stored? ==>
                req.cookie.Some? && stored != null && fresh(stored) && stored.base.serv == o.effect.serv
                && sessionsMap == old(sessionsMap)[req.cookie.value := stored]
      ensures o.fetches == 1 ==> req.cookie.Some? && fetchedOn != null
      ensures o.fetches == 1 && req.cookie.Some? && req.cookie.value in old(sessionsMap)
              ==> fetchedOn == old(sessionsMap)[req.cookie.value]
      ensures o.fetches == 1 && req.cookie.Some? && req.cookie.value !in old(sessionsMap)
              ==> fetchedOn != null && fresh(fetchedOn) && fetchedOn.base.serv == Create(b.creation).school
    {
      fetchedOn, stored := null, null;
      ghost var present := req.cookie.Some? && req.cookie.value in sessionsMap;
      if !req.methodOk {
        o := Outcome(if shape.rejectsWrongMethod then Status(StatusBadRequest) else NoReply, Kept, 0, 0);
        return;
      }
      if req.cookie.None? {
        o := Outcome(Status(StatusBadRequest), Kept, 0, 0);
        return;
      }
      var name := req.cookie.value;
      if req.brokenLocal {
        sessionsMap := sessionsMap - {name};
        o := Outcome(Status(StatusBadRequest), Removed, 0, 0);
        return;
      }
      if shape.readsBody && !req.bodyOk {
        o := Outcome(Status(StatusBadRequest), Kept, 0, 0);
        return;
      }
      var bound := Kept;
      var logins := 0;
      if name in sessionsMap {
        fetchedOn := sessionsMap[name];
      } else {
        var c, s := CreateRemote(b.creation);
        if s == null {
          o := Outcome(Status(StatusInternalServerError), Kept, LoginCalls(c), 0);
          return;
        }
        sessionsMap := sessionsMap[name := s];
        stored, fetchedOn := s, s;
        bound, logins := Stored(c.school), 1;
      }
      // The one fetch of the request, on fetchedOn.
      match b.fetch.err {
        case None =>
          o := Outcome(Encoded(b.marshalOk, b.fetch.value), bound, logins, 1);
        case Some(e) =>
          if !Stale(ByMessage, e) {
            o := Outcome(Status(StatusInternalServerError), bound, logins, 1);
          } else {
            var again, s := CreateRemote(b.relogin);
            if s == null {
              o := Outcome(Status(StatusInternalServerError), bound, logins + LoginCalls(again), 1);
            } else {
              sessionsMap := sessionsMap[name := s];
              stored := s;
              o := Outcome(Encoded(b.marshalOk, ReloginPayload(shape, b)), Stored(again.school), logins + 1, 1);
            }
          }
      }
    }

    /** SignInHandler: binds the new local session name to the freshly logged-in
        session exactly when SignInFlow says so, and touches nothing else. */
    method SignIn(req: SignInRequest, b: SignInBackend) returns (o: SignInOutcome, stored: Sessions.Session?)
      modifies this
      ensures o == SignInFlow(Intended, req, b)
      ensures !o.inserted ==> sessionsMap == old(sessionsMap)
      ensures o.inserted ==>
                stored != null && fresh(stored)
                && stored.base.serv == WithCredentials(b.configSchool, req.login, req.passkey)
                && sessionsMap == old(sessionsMap)[b.newName := stored]
    {
      stored := null;
      if !req.methodOk {
        return SignInOutcome(NoReply, None, false), null;
      }
      if !req.bodyOk {
        return SignInOutcome(Status(StatusBadRequest), None, false), null;
      }
      var verdict := Permission(b.schoolPerm, b.userPerm);
      if verdict == SchoolLookupFailed {
        return SignInOutcome(Status(StatusBadRequest), None, false), null;
      }
      if verdict == UserLookupFailed {
        return SignInOutcome(Status(StatusInternalServerError), None, false), null;
      }
      if !verdict.perm {
        return SignInOutcome(Status(StatusBadRequest), None, false), null;
      }
      var school := WithCredentials(b.configSchool, req.login, req.passkey);
      var remote := new Sessions.Session(school);
      var err := remote.Login(b.t01Login);
      if err.Some? {
        return SignInOutcome(Status(StatusBadRequest), None, false), null;
      }
      if !b.storeOk {
        return SignInOutcome(Status(StatusInternalServerError), None, false), null;
      }
      sessionsMap := sessionsMap[b.newName := remote];
      stored := remote;
      if !b.updateOk {
        o := SignInOutcome(Status(StatusInternalServerError), Some(b.newName), true);
      } else {
        o := SignInOutcome(NoReply, Some(b.newName), true);
      }
    }

    /** LogOutHandler: once the store gives back the local session, the name's
        entry is gone whatever it held, and the answer is 200. */
    method LogOut(req: LogOutRequest) returns (reply: Reply<()>)
      modifies this
      ensures !req.methodOk ==> reply == NoReply && sessionsMap == old(sessionsMap)
      ensures req.methodOk && req.cookie.None? ==> reply == Status(StatusBadRequest) && sessionsMap == old(sessionsMap)
      ensures req.methodOk && req.cookie.Some? && !req.storeOk ==> reply == NoReply && sessionsMap == old(sessionsMap)
      ensures req.methodOk && req.cookie.Some? && req.storeOk ==>
                reply == Status(StatusOK) && sessionsMap == old(sessionsMap) - {req.cookie.value}
                && req.cookie.value !in sessionsMap
    {
      if !req.methodOk {
        return NoReply;
      }
      if req.cookie.None? {
        return Status(StatusBadRequest);
      }
      var name := req.cookie.value;
      if !req.storeOk {
        return NoReply;
      }
      sessionsMap := sessionsMap - {name};
      return Status(StatusOK);
    }
  }
}
