/** The pool registry `CDBManager`: a name-to-pool map that routes acquire and
    release calls, and the lazily built process-wide instance. */
module Registry {
  import opened Common
  import opened Pooling

  /** The settings `CDBManager::Init` reads for its one pool. */
  datatype PoolConfig = PoolConfig(poolName: string, maxConnCnt: int)

  class DBManager {
    /** `m_dbpool_map`. */
    var pools: map<string, DBPool>

    ghost predicate Valid()
      reads this, pools.Values
    {
      forall name | name in pools :: pools[name].poolName == name && pools[name].Valid()
    }

    constructor ()
      ensures Valid() && pools == map[]
    {
      pools := map[];
    }

    /** `Init`: 2 when the configuration is missing, 3 when the pool's own
        `Init` fails (nothing is registered), 0 once the pool is in the map.
        `config` is `None` when any setting is missing; `outcome` is what
        each eager connection attempt meets. */
    method Init(config: Option<PoolConfig>, outcome: nat -> ConnectOutcome) returns (code: int)
      requires Valid()
      modifies this
      ensures Valid()
      ensures code in {0, 2, 3}
      ensures code == 2 <==> config.None?
      ensures code == 3 <==> config.Some? && SuccessPrefix(outcome, MinDbConnCnt) < MinDbConnCnt
      ensures code == 0 <==> config.Some? && SuccessPrefix(outcome, MinDbConnCnt) == MinDbConnCnt
      ensures code != 0 ==> pools == old(pools)
      ensures code == 0 ==> config.value.poolName in pools
      ensures code == 0 && config.value.poolName !in old(pools) ==>
        var p := pools[config.value.poolName];
        && pools == old(pools)[config.value.poolName := p]
        && fresh(p) && p.maxConnCnt == config.value.maxConnCnt
        && p.curConnCnt == MinDbConnCnt && |p.freeList| == MinDbConnCnt
      ensures code == 0 && config.value.poolName in old(pools) ==> pools == old(pools)
    {
      if config.None? {
        return 2;
      }
      var p := new DBPool(config.value.poolName, config.value.maxConnCnt);
      var ret := p.Init(outcome);
      if ret != 0 {
        return 3;
      }
      if config.value.poolName !in pools {
        pools := pools[config.value.poolName := p];
      }
      return 0;
    }

    /** `GetDBConn`: an unknown name gives NULL and touches no pool; a known
        one delegates to exactly that pool. */
    method GetDBConn(name: string, o: ConnectOutcome) returns (c: DBConn?)
      requires Valid()
      requires name in pools ==> pools[name].CanAcquire()
      modifies if name in pools then {pools[name]} else {}
      ensures Valid()
      ensures name !in pools ==> c == null
      ensures name in pools ==> AcquiredFrom(pools[name], o, c)
    {
      if name !in pools {
        return null;
      }
      c := pools[name].GetDBConn(o);
    }

    /** `RelDBConn`: NULL, or a connection whose pool name is not registered,
        is ignored; otherwise the pool registered under that name takes it back. */
    method RelDBConn(c: DBConn?)
      requires Valid()
      modifies if c != null && c.PoolName() in pools then {pools[c.PoolName()]} else {}
      ensures Valid()
      ensures c != null && c.PoolName() in pools ==> ReleasedTo(pools[c.PoolName()], c)
    {
      if c == null {
        return;
      }
      var name := c.PoolName();
      if name in pools {
        pools[name].RelDBConn(c);
      }
    }
  }

  /** A connection that belongs to a registered pool is routed back to that
      very pool by its pool name: no two registered pools share a name. */
  lemma RoutesToOwner(m: DBManager, c: DBConn)
    requires m.Valid()
    requires c.pool in m.pools.Values
    ensures c.PoolName() in m.pools && m.pools[c.PoolName()] == c.pool
  {
  }

  /** The global `s_db_manager`. */
  class ManagerInstance {
    var manager: DBManager?

    constructor ()
      ensures manager == null
    {
      manager := null;
    }

    /** `getInstance`: build and initialise a manager on first use; a failed
        `Init` leaves the instance unset, so the next call tries again. */
    method GetInstance(config: Option<PoolConfig>, outcome: nat -> ConnectOutcome)
      returns (m: DBManager?)
      modifies this
      ensures m == manager
      ensures old(manager) != null ==> m == old(manager)
      ensures old(manager) == null ==>
        (m == null <==> config.None? || SuccessPrefix(outcome, MinDbConnCnt) < MinDbConnCnt)
      ensures old(manager) == null && m != null ==>
        fresh(m) && m.Valid() && m.pools.Keys == {config.value.poolName}
    {
      if manager == null {
        var created := new DBManager();
        var ret := created.Init(config, outcome);
        if ret == 0 {
          manager := created;
        }
      }
      m := manager;
    }
  }
}
