/**
  The driver registry (src/core/factories/DatabaseDriverFactory.ts): a
  process-wide table from database type to driver constructor. The
  table is a JavaScript `Map`, so besides the entries it keeps the order
  in which types were first registered.
 */
module DriverFactory {
  import opened Types
  import MySQL

  const NotFoundPrefix := "Driver não encontrado para o tipo: "

  /** The message `createDriver` throws for an unregistered type. */
  function NotFoundMessage(t: DatabaseType): string {
    NotFoundPrefix + TypeName(t)
  }

  /** One entry of `getDriverInfo()`. */
  datatype DriverEntry = DriverEntry(dbType: DatabaseType, driver: MySQL.Driver)

  predicate NoDuplicates<T(==)>(s: seq<T>) {
    forall i, j :: 0 <= i < j < |s| ==> s[i] != s[j]
  }

  class DriverRegistry {
    /** The `Map`'s keys in insertion order. */
    var order: seq<DatabaseType>
    /** The `Map`'s entries. */
    var drivers: map<DatabaseType, DriverClass>

    /** The insertion order lists every registered type exactly once. */
    ghost predicate Valid()
      reads this
    {
      NoDuplicates(order) && forall t :: t in drivers <==> t in order
    }

    constructor ()
      ensures Valid() && order == [] && drivers == map[]
    {
      order := [];
      drivers := map[];
    }

    /** `isSupported(type)`: agrees with the enumeration of `getSupportedTypes()`. */
    predicate IsSupported(t: DatabaseType)
      reads this
      ensures Valid() ==> (IsSupported(t) <==> t in order)
    {
      t in drivers
    }

    /** `registerDriver(type, driverClass)`: the last registration of a type wins, the other
        entries are untouched, and a type keeps the position of its first registration. */
    method RegisterDriver(t: DatabaseType, driverClass: DriverClass)
      requires Valid()
      modifies this
      ensures Valid()
      ensures IsSupported(t) && drivers[t] == driverClass
      ensures forall u :: u != t ==>
        (u in drivers <==> u in old(drivers)) && (u in drivers ==> drivers[u] == old(drivers)[u])
      ensures order == if t in old(drivers) then old(order) else old(order) + [t]
    {
      if t !in drivers {
        order := order + [t];
      }
      drivers := drivers[t := driverClass];
    }

    /** `createDriver(type)`: a new, unconnected instance of the registered class, or the
        "not found" error; the registry itself is not changed. */
    method CreateDriver(t: DatabaseType) returns (r: Result<MySQL.Driver, string>)
      ensures !IsSupported(t) ==> r == Err(NotFoundMessage(t))
      ensures IsSupported(t) ==>
        r.Ok? && fresh(r.value) && r.value.driverClass == drivers[t] &&
        r.value.Valid() && !r.value.IsConnected() && r.value.currentConnection == None
    {
      if t !in drivers {
        return Err(NotFoundMessage(t));
      }
      var driver := new MySQL.Driver(drivers[t]);
      r := Ok(driver);
    }

    /** `getSupportedTypes()`: every registered type once, in first-registration order. */
    method GetSupportedTypes() returns (types: seq<DatabaseType>)
      requires Valid()
      ensures NoDuplicates(types)
      ensures forall t :: t in types <==> IsSupported(t)
      ensures types == order
    {
      types := order;
    }

    /** `getDriverInfo()`: one entry per registered type, in order, each with its own new
        unconnected instance of that type's class. */
    method GetDriverInfo() returns (infos: seq<DriverEntry>)
      requires Valid()
      ensures |infos| == |order|
      ensures forall i :: 0 <= i < |infos| ==>
        infos[i].dbType == order[i] && fresh(infos[i].driver) &&
        infos[i].driver.driverClass == drivers[order[i]] &&
        infos[i].driver.Valid() && !infos[i].driver.IsConnected()
      ensures forall i, j :: 0 <= i < j < |infos| ==> infos[i].driver != infos[j].driver
    {
      infos := [];
      for k := 0 to |order|
        invariant |infos| == k
        invariant forall i :: 0 <= i < k ==>
          infos[i].dbType == order[i] && fresh(infos[i].driver) &&
          infos[i].driver.driverClass == drivers[order[i]] &&
          infos[i].driver.Valid() && !infos[i].driver.IsConnected()
        invariant forall i, j :: 0 <= i < j < k ==> infos[i].driver != infos[j].driver
      {
        var driver := new MySQL.Driver(drivers[order[k]]);
        infos := infos + [DriverEntry(order[k], driver)];
      }
    }
  }

  /** Registering a type makes it supported, and creating a driver for it then yields an
      instance of the class just registered. */
  method RegisterThenCreate(registry: DriverRegistry, t: DatabaseType, driverClass: DriverClass)
    returns (driver: MySQL.Driver)
    requires registry.Valid()
    modifies registry
    ensures registry.Valid() && registry.IsSupported(t)
    ensures fresh(driver) && driver.driverClass == driverClass && !driver.IsConnected()
  {
    registry.RegisterDriver(t, driverClass);
    var r := registry.CreateDriver(t);
    driver := r.value;
  }

  /** Each call of `createDriver` builds a new instance: the registry caches none. */
  method CreateTwice(registry: DriverRegistry, t: DatabaseType) returns (a: MySQL.Driver, b: MySQL.Driver)
    requires registry.IsSupported(t)
    ensures a != b && a.driverClass == b.driverClass
  {
    var ra := registry.CreateDriver(t);
    var rb := registry.CreateDriver(t);
    a, b := ra.value, rb.value;
  }
}
