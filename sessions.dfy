/** The newer session variant: a thin wrapper around the shared session state
    (ss.Session, called Base here) that locks the state's mutex, dispatches on
    the portal type and delegates to the type-01 adapter. The adapter itself
    (t01.Login, t01.GetChildrenMap, t01.GetLessonsMap) is not part of this
    model: each operation receives what it answers. */
module Sessions {
  import opened Wrappers
  import opened Portal

  /** What happens to a session's mutex, in order. */
  datatype LockEvent = Acquired | Released

  /** sync.Mutex as seen by one sequential caller: whether it is held, and the
      history of acquisitions and releases. */
  class Mutex {
    var held: bool
    ghost var history: seq<LockEvent>

    /** The zero Mutex: free, never used. */
    constructor ()
      ensures !held && history == []
    {
      held := false;
      history := [];
    }

    method Lock()
      requires !held
      modifies this
      ensures held && history == old(history) + [Acquired]
    {
      held := true;
      history := history + [Acquired];
    }

    method Unlock()
      requires held
      modifies this
      ensures !held && history == old(history) + [Released]
    {
      held := false;
      history := history + [Released];
    }
  }

  /** ss.Session: the HTTP session, the school and the guard that serialises
      every use of them. */
  class Base {
    const sess: HttpClient
    const serv: School
    const mu: Mutex

    constructor (sess: HttpClient, serv: School)
      ensures this.sess == sess && this.serv == serv
      ensures fresh(mu) && !mu.held && mu.history == []
    {
      this.sess := sess;
      this.serv := serv;
      mu := new Mutex();
    }
  }

  class Session {
    const base: Base

    /** NewSession: a wrapper around fresh state bound to the given school, with
        a new HTTP session and a free mutex. */
    constructor (server: School)
      ensures base.serv == server
      ensures fresh(base) && fresh(base.sess) && fresh(base.mu)
      ensures !base.mu.held && base.mu.history == []
    {
      var client := new HttpClient();
      base := new Base(client, server);
    }

    /** Login: under the session's lock, the type-01 login's answer, or an
        unknown-type error; the lock is taken once and given back. */
    method Login(t01Login: Option<Error>) returns (err: Option<Error>)
      requires !base.mu.held
      modifies base.mu
      ensures !base.mu.held && base.mu.history == old(base.mu.history) + [Acquired, Released]
      ensures base.serv.serverType.FirstType? ==> err == t01Login
      ensures base.serv.serverType.OtherType? ==> err == Some(UnknownServerType(base.serv.serverType.code))
    {
      base.mu.Lock();
      err := DispatchError(base.serv.serverType, t01Login);
      base.mu.Unlock();
    }

    /** GetChildrenMap: the same locking and dispatch as Login. */
    method GetChildrenMap(t01GetChildrenMap: Option<Error>) returns (err: Option<Error>)
      requires !base.mu.held
      modifies base.mu
      ensures !base.mu.held && base.mu.history == old(base.mu.history) + [Acquired, Released]
      ensures base.serv.serverType.FirstType? ==> err == t01GetChildrenMap
      ensures base.serv.serverType.OtherType? ==> err == Some(UnknownServerType(base.serv.serverType.code))
    {
      base.mu.Lock();
      err := DispatchError(base.serv.serverType, t01GetChildrenMap);
      base.mu.Unlock();
    }

    /** GetLessonsMap: under the lock, the type-01 answer (map and error, as
        returned together) for exactly the given student, or a nil map and an
        unknown-type error. */
    method GetLessonsMap<L>(studentID: string, t01GetLessonsMap: string -> Fetched<L>)
      returns (r: Fetched<L>)
      requires !base.mu.held
      modifies base.mu
      ensures !base.mu.held && base.mu.history == old(base.mu.history) + [Acquired, Released]
      ensures base.serv.serverType.FirstType? ==> r == t01GetLessonsMap(studentID)
      ensures base.serv.serverType.OtherType? ==> r == Fetched(None, Some(UnknownServerType(base.serv.serverType.code)))
    {
      base.mu.Lock();
      r := DispatchFetched(base.serv.serverType, t01GetLessonsMap(studentID));
      base.mu.Unlock();
    }
  }
}
