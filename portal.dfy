/** Vocabulary shared by both session variants and the REST handlers: the school
    descriptor, the portal-type tag, the error values the core produces and how
    an operation is dispatched on the portal type. */
module Portal {
  import opened Wrappers
  import opened Text

  /** A school's portal dialect. Only FirstType has an adapter; any other tag is
      carried with its number, which the "unknown type" error prints. */
  datatype ServerType = FirstType | OtherType(code: int)

  /** cp.School: the static descriptor of one school, with the credentials the
      sign-in handler copies into it. */
  datatype School = School(
    id: int,
    name: string,
    website: string,
    serverType: ServerType,
    login: string,
    password: string)

  /** A grequests HTTP session (cookie jar and client); its contents are the
      portal adapter's business and are not modelled. */
  class HttpClient {
    constructor () {}
  }

  /** The text of restapi's errLoggedOut, which is also the marker the mail
      handler looks for in a portal error. */
  const LoggedOutText := "You was logged out from server"
  const UnknownTypeText := "Unknown SchoolServer Type: "
  const InvalidDaysText := "Invalid days number"

  /** Go error values met in the core. ErrLoggedOut is the single value held by
      restapi's package variable errLoggedOut; every other error is a separately
      built value, so Go's == tells them from ErrLoggedOut even when the texts
      agree. */
  datatype Error =
    | ErrLoggedOut
    | UnknownServerType(code: int)
    | InvalidDaysNumber
    | Remote(text: string)

  /** err.Error(). The unknown-type text is the fixed prefix followed by a
      numeral. */
  function Message(e: Error): (r: string)
    ensures e.UnknownServerType? ==>
              |r| > |UnknownTypeText| && r[..|UnknownTypeText|] == UnknownTypeText
              && forall k :: |UnknownTypeText| <= k < |r| ==> r[k] == '-' || '0' <= r[k] <= '9'
  {
    match e
    case ErrLoggedOut => LoggedOutText
    case UnknownServerType(code) => UnknownTypeText + Decimal(code)
    case InvalidDaysNumber => InvalidDaysText
    case Remote(text) => text
  }

  /** The staleness test of the mail handler: the error text mentions the
      logged-out marker. */
  predicate IsLoggedOut(e: Error)
    ensures IsLoggedOut(e) <==> exists i :: OccursAt(Message(e), LoggedOutText, i)
  {
    Contains(Message(e), LoggedOutText)
  }

  /** errLoggedOut itself passes the text test. */
  lemma ErrLoggedOutIsLoggedOut()
    ensures IsLoggedOut(ErrLoggedOut)
  {
    assert OccursAt(LoggedOutText, LoggedOutText, 0);
  }

  /** A string without a capital Y cannot hold the logged-out marker. */
  lemma {:induction false} NoMarkerWithoutY(s: string)
    requires 'Y' !in s
    ensures !Contains(s, LoggedOutText)
  {
    if Contains(s, LoggedOutText) {
      FirstCharacterOccurs(s, LoggedOutText);
    }
  }

  /** The "Unknown SchoolServer Type" error is never taken for a stale session,
      whatever the type number. */
  lemma {:induction false} UnknownServerTypeIsNotLoggedOut(code: int)
    ensures !IsLoggedOut(UnknownServerType(code))
  {
    var d := Decimal(code);
    assert 'Y' !in UnknownTypeText;
    assert forall k :: 0 <= k < |d| ==> d[k] != 'Y';
    assert 'Y' !in UnknownTypeText + d;
    NoMarkerWithoutY(UnknownTypeText + d);
  }

  /** Nor is "Invalid days number". */
  lemma {:induction false} InvalidDaysNumberIsNotLoggedOut()
    ensures !IsLoggedOut(InvalidDaysNumber)
  {
    assert 'Y' !in InvalidDaysText;
    NoMarkerWithoutY(InvalidDaysText);
  }

  /** switch s.Serv.Type for an operation with a result: the first-type adapter's
      answer, or an "Unknown SchoolServer Type" error carrying the tag, which is
      never mistaken for staleness. */
  function Dispatch<T>(t: ServerType, firstType: Result<T, Error>): (r: Result<T, Error>)
    ensures t.FirstType? ==> r == firstType
    ensures t.OtherType? ==> r == Failure(UnknownServerType(t.code)) && !IsLoggedOut(r.error)
  {
    match t
    case FirstType => firstType
    case OtherType(code) =>
      UnknownServerTypeIsNotLoggedOut(code);
      Failure(UnknownServerType(code))
  }

  /** A Go answer of a value and an error together; the value may be nil (None)
      and may come with an error. */
  datatype Fetched<T> = Fetched(value: Option<T>, err: Option<Error>)

  /** The switch for an operation returning a (value, error) pair: the first-type
      adapter's pair passed through, or a nil value with the unknown-type error. */
  function DispatchFetched<T>(t: ServerType, firstType: Fetched<T>): (r: Fetched<T>)
    ensures t.FirstType? ==> r == firstType
    ensures t.OtherType? ==>
              r == Fetched(None, Some(UnknownServerType(t.code))) && !IsLoggedOut(r.err.value)
  {
    match t
    case FirstType => firstType
    case OtherType(code) =>
      UnknownServerTypeIsNotLoggedOut(code);
      Fetched(None, Some(UnknownServerType(code)))
  }

  /** The same switch for an operation that only returns an error. */
  function DispatchError(t: ServerType, firstType: Option<Error>): (r: Option<Error>)
    ensures t.FirstType? ==> r == firstType
    ensures t.OtherType? ==> r == Some(UnknownServerType(t.code)) && !IsLoggedOut(r.value)
  {
    match t
    case FirstType => firstType
    case OtherType(code) =>
      UnknownServerTypeIsNotLoggedOut(code);
      Some(UnknownServerType(code))
  }
}
