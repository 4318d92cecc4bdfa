/**
  The main process's live-connection manager and connection handlers
  (src/main/main.ts): the `activeConnections` map keyed by profile id,
  filled by `connection:create` and emptied by `connection:close`, and
  the `database:test-connection` / `database:connect` handlers, which
  work on a throwaway driver. Every handler answers with a
  `{success, error?}` envelope instead of throwing.
 */
module ConnectionManager {
  import opened Types
  import opened Wire
  import MySQL
  import opened DriverFactory

  /** The constructor main.ts registers for MySQL at start-up. */
  const MySQLDriverClass := DriverClass("MySQLDriver")

  /** The `{ success, error? }` object a handler resolves with. */
  datatype Envelope = Envelope(success: bool, error: Option<string>)

  /** The envelope of the catch blocks. */
  function ErrorEnvelope(t: Thrown): (e: Envelope)
    ensures !e.success && e.error.Some?
    ensures t.ThrownError? ==> e.error == Some(t.message)
    ensures t.ThrownValue? ==> e.error == Some(UnknownError)
  {
    Envelope(false, Some(ErrorText(t)))
  }

  /** A handler's answer is either a success without error text or a failure with one. */
  predicate WellFormed(e: Envelope) {
    e.success <==> e.error.None?
  }

  /** What `testConnection` yields for a profile once `createConnection` produced `attempt`. */
  function TestOutcome(attempt: Result<Handle, Thrown>): Result<bool, Thrown> {
    if attempt.Err? then Err(MySQL.ConnectFailure(attempt.error))
    else MySQL.PingOutcome(attempt.value.server)
  }

  /** The answer of `database:test-connection`. */
  function TestEnvelope(supported: bool, t: DatabaseType, attempt: Result<Handle, Thrown>): (e: Envelope)
    ensures WellFormed(e)
    ensures e.success <==> supported && TestOutcome(attempt) == Ok(true)
    ensures !supported ==> e.error == Some(NotFoundMessage(t))
    ensures supported && TestOutcome(attempt).Err? ==> e.error == Some(ErrorText(TestOutcome(attempt).error))
  {
    if !supported then ErrorEnvelope(ThrownError(NotFoundMessage(t)))
    else
      match TestOutcome(attempt)
      case Ok(connected) => Envelope(connected, None)
      case Err(e) => ErrorEnvelope(e)
  }

  /** The answer of `database:connect` and `connection:create`. */
  function ConnectEnvelope(supported: bool, t: DatabaseType, attempt: Result<Handle, Thrown>): (e: Envelope)
    ensures WellFormed(e)
    ensures e.success <==> supported && attempt.Ok?
    ensures !supported ==> e.error == Some(NotFoundMessage(t))
    ensures supported && attempt.Err? ==> e.error == Some(ErrorText(MySQL.ConnectFailure(attempt.error)))
  {
    if !supported then ErrorEnvelope(ThrownError(NotFoundMessage(t)))
    else if attempt.Err? then ErrorEnvelope(MySQL.ConnectFailure(attempt.error))
    else Envelope(true, None)
  }

  class Manager {
    const registry: DriverRegistry
    var activeConnections: map<string, MySQL.Driver>

    /** Every stored driver is connected and no driver is stored under two ids. */
    ghost predicate Valid()
      reads this, registry, activeConnections.Values
    {
      && registry.Valid()
      && (forall id :: id in activeConnections ==>
            activeConnections[id].Valid() && activeConnections[id].IsConnected())
      && (forall a, b :: a in activeConnections && b in activeConnections && a != b ==>
            activeConnections[a] != activeConnections[b])
    }

    /** Module start-up: an empty map and a registry holding the MySQL driver. */
    constructor ()
      ensures Valid() && fresh(registry) && activeConnections == map[]
      ensures registry.IsSupported(MySql) && registry.drivers[MySql] == MySQLDriverClass
      ensures forall t :: t != MySql ==> !registry.IsSupported(t)
    {
      registry := new DriverRegistry();
      activeConnections := map[];
      new;
      registry.RegisterDriver(MySql, MySQLDriverClass);
    }

    /** `database:test-connection`: a throwaway driver tests the profile; nothing is stored. */
    method TestConnection(profile: DatabaseConnection, attempt: Result<Handle, Thrown>) returns (r: Envelope)
      modifies if attempt.Ok? then {attempt.value} else {}
      ensures r == TestEnvelope(registry.IsSupported(profile.dbType), profile.dbType, attempt)
    {
      var created := registry.CreateDriver(profile.dbType);
      if created.Err? {
        return ErrorEnvelope(ThrownError(created.error));
      }
      var tested := created.value.TestConnection(profile, attempt);
      match tested
      case Ok(connected) =>
        r := Envelope(connected, None);
      case Err(e) =>
        r := ErrorEnvelope(e);
    }

    /** `database:connect`: a throwaway driver connects and is dropped; nothing is stored. */
    method Connect(profile: DatabaseConnection, attempt: Result<Handle, Thrown>) returns (r: Envelope)
      ensures r == ConnectEnvelope(registry.IsSupported(profile.dbType), profile.dbType, attempt)
    {
      var created := registry.CreateDriver(profile.dbType);
      if created.Err? {
        return ErrorEnvelope(ThrownError(created.error));
      }
      var connected := created.value.Connect(profile, attempt);
      if connected.Err? {
        return ErrorEnvelope(connected.error);
      }
      r := Envelope(true, None);
    }

    /** `connection:create`: the new driver is stored under the profile's id only once it is
        connected, replacing (without disconnecting) any driver already stored there. */
    method Create(profile: DatabaseConnection, attempt: Result<Handle, Thrown>) returns (r: Envelope)
      requires Valid()
      modifies this
      ensures Valid()
      ensures r == ConnectEnvelope(registry.IsSupported(profile.dbType), profile.dbType, attempt)
      ensures r.success ==>
        profile.id in activeConnections && fresh(activeConnections[profile.id]) &&
        activeConnections[profile.id].connection == attempt.value &&
        activeConnections[profile.id].currentConnection == Some(profile) &&
        activeConnections[profile.id].driverClass == registry.drivers[profile.dbType] &&
        activeConnections == old(activeConnections)[profile.id := activeConnections[profile.id]]
      ensures !r.success ==> activeConnections == old(activeConnections)
    {
      var created := registry.CreateDriver(profile.dbType);
      if created.Err? {
        return ErrorEnvelope(ThrownError(created.error));
      }
      var driver := created.value;
      var connected := driver.Connect(profile, attempt);
      if connected.Err? {
        return ErrorEnvelope(connected.error);
      }
      activeConnections := activeConnections[profile.id := driver];
      r := Envelope(true, None);
    }

    /** `connection:close`: an absent id is a no-op success; otherwise the driver disconnects
        and only then is its entry deleted, so a failing `disconnect` leaves it in place. */
    method Close(id: string) returns (r: Envelope)
      requires Valid()
      modifies this, if id in activeConnections then {activeConnections[id]} else {}
      modifies if id in activeConnections then {activeConnections[id].connection} else {}
      ensures Valid() && WellFormed(r)
      ensures id !in old(activeConnections) ==> r == Envelope(true, None) && activeConnections == old(activeConnections)
      ensures id in old(activeConnections) ==>
        var h := old(activeConnections[id].connection);
        h.log == old(h.log) + [ControlCall(End)] &&
        if h.server.control(End).None? then
          r == Envelope(true, None) && activeConnections == old(activeConnections) - {id} &&
          !old(activeConnections[id]).IsConnected()
        else
          r == ErrorEnvelope(h.server.control(End).value) && activeConnections == old(activeConnections)
    {
      if id !in activeConnections {
        return Envelope(true, None);
      }
      var driver := activeConnections[id];
      var disconnected := driver.Disconnect();
      if disconnected.Err? {
        return ErrorEnvelope(disconnected.error);
      }
      activeConnections := activeConnections - {id};
      r := Envelope(true, None);
    }
  }

  /** A second `connection:create` for an id already held replaces the stored driver; the
      first driver is not disconnected and its handle stays open. */
  method CreateTwiceForOneId(manager: Manager, profile: DatabaseConnection, first: Handle, second: Handle)
    returns (old1: MySQL.Driver)
    requires manager.Valid() && manager.registry.IsSupported(profile.dbType)
    modifies manager
    ensures manager.Valid() && profile.id in manager.activeConnections
    ensures manager.activeConnections[profile.id] != old1
    ensures manager.activeConnections[profile.id].connection == second
    ensures old1.IsConnected() && old1.connection == first
  {
    var r1 := manager.Create(profile, Ok(first));
    old1 := manager.activeConnections[profile.id];
    var r2 := manager.Create(profile, Ok(second));
  }
}
