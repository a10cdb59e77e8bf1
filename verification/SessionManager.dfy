/** The registry of sessions (internal/app/server/recorder/adt/sessionmanager.go) and the
    decision a handshake takes on it (createOrRetrieveSession in service.go). */
module SessionManager {
  import opened Expiry
  import opened Prelude
  import opened Session
  import opened SessionTable

  /** A slot holding None is a nil entry: the id was used and is free again. */
  function Occupant<S>(clients: map<string, Option<S>>, clientId: string): Option<S> {
    if clientId in clients then clients[clientId] else None
  }

  predicate Exists<S>(clients: map<string, Option<S>>, clientId: string) {
    Occupant(clients, clientId).Some?
  }

  predicate BearerEquals(bearer1: string, bearer2: string) {
    bearer1 != "" && bearer2 != "" && bearer1 == bearer2
  }

  /** `suffix` is the random hex text the source would draw. */
  function GenerateClientId<S>(clients: map<string, Option<S>>, clientId: string, suffix: string): string {
    if clientId == "" then suffix
    else if Exists(clients, clientId) then clientId + "-" + suffix
    else clientId
  }

  /** How a handshake is answered. */
  datatype Verdict<S> = Recovered(session: S) | Rejected | Registered(clientId: string)

  /** RecoverSession then Register, as createOrRetrieveSession chains them; `stored` is the
      bearer of the session occupying the slot. */
  function Decide<S>(clients: map<string, Option<S>>, stored: string, clientId: string, bearer: string,
                     newBearer: string, suffix: string): Verdict<S>
  {
    var found := Occupant(clients, clientId);
    if bearer != "" && found.Some? then
      if BearerEquals(stored, bearer) then Recovered(found.value) else Rejected
    else if bearer != "" && !BearerEquals(bearer, newBearer) then Rejected
    else Registered(GenerateClientId(clients, clientId, suffix))
  }

  class SessionManager {
    var clients: map<string, Option<Session>>

    constructor ()
      ensures clients == map[]
    {
      clients := map[];
    }

    method Register(clientId: string, bearer: string, newBearer: string, suffix: string) returns (r: Result<Session, string>)
      modifies this
      ensures r.Err? <==> bearer != "" && bearer != newBearer
      ensures r.Err? ==> clients == old(clients)
      ensures r.Ok? ==>
                && fresh(r.value) && r.value.Valid() && fresh(r.value.counter)
                && r.value.bearer == newBearer
                && r.value.id == (if clientId == "" then suffix
                                  else if Occupant(old(clients), clientId).Some? then clientId + "-" + suffix else clientId)
                && !r.value.isIdle && r.value.idleTimeout.Stopped? && r.value.expireAt.None? && r.value.Table() == NewTable()
                && clients == old(clients)[r.value.id := Some(r.value)]
    {
      var generated := GenerateClientId(clients, clientId, suffix);
      if bearer != "" && !BearerEquals(bearer, newBearer) {
        return Err("unknown client bearer");
      }
      var client := new Session(generated, newBearer);
      PutClient(generated, Some(client));
      r := Ok(client);
    }

    /** Deregistering an id nobody holds dereferences nil; a closed session may not be closed again. */
    method Deregister(clientId: string)
      requires Exists(clients, clientId)
      requires var s := Occupant(clients, clientId).value; s.Valid() && !s.channelClosed
      modifies this, Occupant(clients, clientId).value
      ensures clients == old(clients)[clientId := None]
      ensures var s := Occupant(old(clients), clientId).value;
              s.Valid() && s.Table() == SessionTable.Close(old(s.Table())) && s.idleTimeout.Stopped?
    {
      var client := Get(clientId);
      client.value.Close();
      PutClient(clientId, None);
    }

    method RecoverSession(clientId: string, bearer: string) returns (r: Result<Option<Session>, string>)
      ensures var found := Occupant(clients, clientId);
              r == if bearer == "" || found.None? then Ok(None)
                   else if found.value.bearer == bearer then Ok(found)
                   else Err("client bearer did not match")
    {
      if bearer == "" {
        return Ok(None);
      }
      var client := Get(clientId);
      if client.None? {
        return Ok(None);
      }
      if !BearerEquals(client.value.bearer, bearer) {
        return Err("client bearer did not match");
      }
      r := Ok(client);
    }

    method Get(clientId: string) returns (client: Option<Session>)
      ensures client == Occupant(clients, clientId)
    {
      client := if clientId in clients then clients[clientId] else None;
    }

    method PutClient(clientId: string, client: Option<Session>)
      modifies this
      ensures clients == old(clients)[clientId := client]
    {
      clients := clients[clientId := client];
    }
  }

  /** The handshake fields the server uses; `newBearer` is GenerateBearer of the client's key. */
  datatype Handshake = Handshake(clientId: string, bearer: string, newBearer: string, expireAt: int)

  /** The bearer of the session occupying a slot, "" if the slot is free. */
  function StoredBearer(clients: map<string, Option<Session>>, clientId: string): string {
    match Occupant(clients, clientId)
    case Some(s) => s.bearer
    case None => ""
  }

  /** createOrRetrieveSession after authentication: it does exactly what Decide says. */
  method CreateOrRetrieveSession(manager: SessionManager, hs: Handshake, clientIp: string, suffix: string)
    returns (r: Result<Session, string>)
    requires forall id :: id in manager.clients && manager.clients[id].Some? ==> manager.clients[id].value.Valid()
    modifies manager, set id | id in manager.clients && manager.clients[id].Some? :: manager.clients[id].value`ipAddress
    ensures match Decide(old(manager.clients), StoredBearer(old(manager.clients), hs.clientId),
                         hs.clientId, hs.bearer, hs.newBearer, suffix)
            case Recovered(s) => r == Ok(s) && manager.clients == old(manager.clients)
            case Rejected => r.Err? && manager.clients == old(manager.clients)
            case Registered(id) =>
              && r.Ok? && fresh(r.value) && r.value.id == id && r.value.bearer == hs.newBearer
              && r.value.Table() == NewTable() && r.value.expireAt.None?
              && manager.clients == old(manager.clients)[id := Some(r.value)]
    // The same in words of its own: an occupied slot is handed to the holder of its bearer, a free
    // one to a client that presents no bearer or the one of its own key, and nothing else happens.
    ensures var found := Occupant(old(manager.clients), hs.clientId);
            if hs.bearer != "" && found.Some? then
              && (r.Ok? <==> found.value.bearer == hs.bearer)
              && (r.Ok? ==> r.value == found.value)
              && manager.clients == old(manager.clients)
            else
              && (r.Ok? <==> hs.bearer == "" || hs.bearer == hs.newBearer)
              && (r.Ok? ==> fresh(r.value) && manager.clients == old(manager.clients)[r.value.id := Some(r.value)]
                            && r.value.id == if hs.clientId == "" then suffix
                                             else if found.Some? then hs.clientId + "-" + suffix else hs.clientId)
              && (r.Err? ==> manager.clients == old(manager.clients))
    ensures forall id :: id in old(manager.clients) && old(manager.clients[id]).Some? && r != Ok(old(manager.clients[id]).value) ==>
              old(manager.clients[id]).value.ipAddress == old(manager.clients[id].value.ipAddress)
    ensures r.Ok? ==> r.value.Valid() && r.value.ipAddress == clientIp
  {
    var recovered := manager.RecoverSession(hs.clientId, hs.bearer);
    if recovered.Err? {
      return Err(recovered.error);
    }
    if recovered.value.Some? {
      recovered.value.value.ipAddress := clientIp;
      return Ok(recovered.value.value);
    }
    r := manager.Register(hs.clientId, hs.bearer, hs.newBearer, suffix);
    if r.Ok? {
      r.value.ipAddress := clientIp;
    }
  }

  /** The first half of the Tunnel call, up to the session message: stop the idle timer, settle
      the expiry, and compute what the client is told. */
  method OpenTunnel(session: Session, hs: Handshake, now: int, connectionTimeout: int) returns (deadline: Option<int>, told: int)
    requires session.Valid()
    modifies session`isIdle, session`idleTimeout, session`expireAt
    ensures session.Valid() && session.Table() == old(session.Table())
    ensures !session.isIdle && session.idleTimeout.Stopped?
    ensures deadline == session.expireAt == Negotiate(now, connectionTimeout, old(session.expireAt), hs.expireAt)
    ensures told == ToProto(deadline)
    ensures if hs.expireAt == 0 then deadline == if connectionTimeout == 0 then old(session.expireAt) else Some(now + connectionTimeout)
            else deadline == Some(if connectionTimeout == 0 || now + connectionTimeout >= (hs.expireAt + 1) * SECOND
                                  then hs.expireAt * SECOND else now + connectionTimeout)
    ensures if deadline.None? then told == 0 else told * SECOND <= deadline.value < (told + 1) * SECOND
  {
    var _ := session.StopIdleTimeout();
    if connectionTimeout != 0 {
      session.SetExpireAt(now, connectionTimeout);
    }
    if hs.expireAt != 0 {
      if connectionTimeout == 0 || Unix(session.expireAt.value) > hs.expireAt {
        session.SetExpireAtTime(hs.expireAt);
      }
    }
    deadline := session.expireAt;
    told := if session.expireAt.None? then 0 else Unix(session.expireAt.value);
  }

  /** The second half: the stream has ended, by its deadline or otherwise. */
  method EndTunnel(session: Session, deadlineExceeded: bool, reconnectTimeout: int)
    requires session.Valid()
    modifies session`isIdle, session`idleTimeout
    ensures session.Valid() && session.Table() == old(session.Table())
    ensures session.isIdle
    ensures session.idleTimeout == Armed(if deadlineExceeded then 0 else reconnectTimeout)
  {
    if !deadlineExceeded {
      var _ := session.SetIdleTimeout(reconnectTimeout);
    } else {
      var _ := session.SetIdleTimeout(0);
    }
  }
}
