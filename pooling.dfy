/** A connection (`CDBConn`) and the bounded, growable pool of connections
    for one named database (`CDBPool`). Every call into the client library is
    an input to the model: the outcome it would report is passed in. */
module Pooling {
  import opened Common
  import Results

  /** `MIN_DB_CONN_CNT`: the connections a pool opens eagerly. */
  const MinDbConnCnt: nat := 2

  /** `MAX_ESCAPE_STRING_LEN`: the longest escaped text a connection's
      escape buffer is meant to hold. */
  const MaxEscapeStringLen: nat := 10240

  /** The size in bytes of `m_escape_string`: the text plus its
      terminating NUL. */
  const EscapeBufferSize: nat := MaxEscapeStringLen + 1

  /** What the client library reports when a session is opened:
      whether `mysql_init` returned a handle and whether
      `mysql_real_connect` then succeeded. */
  datatype ConnectOutcome = ConnectOutcome(handleCreated: bool, connected: bool)

  /** The code `CDBConn::Init` returns for an outcome: 0 on success, 1 when
      no handle could be created, 2 when the connect itself failed. */
  function InitCode(o: ConnectOutcome): (code: int)
    ensures code in {0, 1, 2}
    ensures code == 0 <==> o.handleCreated && o.connected
    ensures code == 1 <==> !o.handleCreated
    ensures code == 2 <==> o.handleCreated && !o.connected
  {
    if !o.handleCreated then 1
    else if !o.connected then 2
    else 0
  }

  /** How many of the attempts `0 .. n-1` succeed before the first failure:
      the number of connections a pool `Init` loop of `n` rounds keeps. */
  function SuccessPrefix(outcome: nat -> ConnectOutcome, n: nat): (k: nat)
    ensures k <= n
    ensures forall i :: 0 <= i < k ==> InitCode(outcome(i)) == 0
    ensures k < n ==> InitCode(outcome(k)) != 0
  {
    if n == 0 then 0
    else
      var k := SuccessPrefix(outcome, n - 1);
      if k < n - 1 then k
      else if InitCode(outcome(n - 1)) == 0 then n
      else n - 1
  }

  /** The prefix is determined by where the first failure is. */
  lemma SuccessPrefixAt(outcome: nat -> ConnectOutcome, n: nat, i: nat)
    requires i <= n
    requires forall j :: 0 <= j < i ==> InitCode(outcome(j)) == 0
    requires i < n ==> InitCode(outcome(i)) != 0
    ensures SuccessPrefix(outcome, n) == i
  {
  }

  /** No connection appears twice in a free list. */
  ghost predicate NoDup(s: seq<DBConn>)
  {
    forall i, j :: 0 <= i < j < |s| ==> s[i] != s[j]
  }

  /** The free list after `RelDBConn(c)`: unchanged if `c` is already in
      it, otherwise `c` appended at the back. */
  function Released(free: seq<DBConn>, c: DBConn): (r: seq<DBConn>)
    ensures c in r
    ensures |free| <= |r| && r[..|free|] == free
    ensures c in free ==> r == free
    ensures c !in free ==> r == free + [c]
  {
    if c in free then free else free + [c]
  }

  /** Releasing twice is releasing once. */
  lemma ReleaseIdempotent(free: seq<DBConn>, c: DBConn)
    ensures Released(Released(free, c), c) == Released(free, c)
  {
  }

  /** Release never puts a second copy of a connection on the list. */
  lemma ReleaseKeepsNoDup(free: seq<DBConn>, c: DBConn)
    requires NoDup(free)
    ensures NoDup(Released(free, c))
  {
  }

  /** Taking the front connection and giving it back moves it to the back:
      the free list is rotated, nothing is lost or duplicated. */
  lemma AcquireThenRelease(free: seq<DBConn>)
    requires NoDup(free) && free != []
    ensures Released(free[1..], free[0]) == free[1..] + [free[0]]
    ensures multiset(Released(free[1..], free[0])) == multiset(free)
  {
    assert free[0] !in free[1..] by {
      forall j | 0 <= j < |free[1..]|
        ensures free[1..][j] != free[0]
      {
        assert free[1..][j] == free[j + 1];
      }
    }
    assert free == [free[0]] + free[1..];
  }

  /** One session to the database (`CDBConn`). */
  class DBConn {
    /** `m_pDBPool`: the pool that created this connection. */
    const pool: DBPool
    /** Whether `m_mysql` holds a session handle. */
    var hasHandle: bool

    constructor (pool: DBPool)
      ensures this.pool == pool && !hasHandle
    {
      this.pool := pool;
      hasHandle := false;
    }

    /** `GetPoolName`: the name of the owning pool, the key the registry
        routes this connection's release by. */
    function PoolName(): (name: string)
      ensures name == pool.poolName
    {
      pool.poolName
    }

    /** `Init`: opens the session; the return code classifies the failure. */
    method Init(o: ConnectOutcome) returns (code: int)
      modifies this
      ensures code == InitCode(o)
      ensures hasHandle == o.handleCreated
    {
      hasHandle := o.handleCreated;
      if !o.handleCreated {
        return 1;
      }
      if !o.connected {
        return 2;
      }
      return 0;
    }

    /** `ExecuteQuery`: `queryFailed` is whether `mysql_real_query` failed,
        `stored` what `mysql_store_result` returned (field names and rows).
        Either failure gives NULL; otherwise a fresh cursor over the result. */
    method ExecuteQuery(queryFailed: bool, stored: Option<(seq<string>, seq<Results.Row>)>)
      returns (rs: Results.ResultSet?)
      requires stored.Some? ==> forall r | r in stored.value.1 :: |r| == |stored.value.0|
      ensures rs == null <==> queryFailed || stored.None?
      ensures rs != null ==>
        fresh(rs) && rs.Valid() && rs.fields == stored.value.0 && rs.rows == stored.value.1
        && rs.fetched == 0 && rs.row == None
    {
      if queryFailed {
        return null;
      }
      if stored.None? {
        return null;
      }
      rs := new Results.ResultSet(stored.value.0, stored.value.1);
    }

    /** `ExecuteUpdate`: succeeds only when the query went through and
        `mysql_affected_rows` reports at least one row. */
    method ExecuteUpdate(queryFailed: bool, affectedRows: nat) returns (ok: bool)
      ensures ok <==> !queryFailed && affectedRows > 0
      ensures affectedRows == 0 ==> !ok
    {
      if queryFailed {
        return false;
      }
      if affectedRows > 0 {
        return true;
      } else {
        return false;
      }
    }

    /** `EscapeString`: the C string left in the escape buffer, as bytes.
        `escaped` is what `mysql_real_escape_string` would write for
        `content` before its terminating NUL. Input longer than half of
        `MAX_ESCAPE_STRING_LEN` bytes is refused with an empty string, so the
        output of an escaper that at most doubles its input, with the NUL,
        always fits the buffer. */
    function EscapeString(content: Bytes, escaped: Bytes): (r: Bytes)
      ensures |content| > MaxEscapeStringLen / 2 ==> r == []
      ensures |content| <= MaxEscapeStringLen / 2 ==> r == escaped
      ensures |escaped| <= 2 * |content| ==> |r| + 1 <= EscapeBufferSize
    {
      if |content| > MaxEscapeStringLen / 2 then [] else escaped
    }
  }

  /** The pool for one named database (`CDBPool`). */
  class DBPool {
    /** `m_pool_name`. */
    const poolName: string
    /** `m_db_max_conn_cnt`. */
    const maxConnCnt: int
    /** `m_db_cur_conn_cnt`: connections this pool has counted as opened. */
    var curConnCnt: nat
    /** `m_free_list`: connections available for checkout, front first. */
    var freeList: seq<DBConn>

    ghost predicate Valid()
      reads this
    {
      NoDup(freeList)
    }

    /** A blocking acquire can return without another thread's help. */
    predicate CanAcquire()
      reads this
    {
      freeList != [] || curConnCnt < maxConnCnt
    }

    /** The count starts at the minimum whatever the maximum is. */
    constructor (name: string, maxConns: int)
      ensures Valid()
      ensures poolName == name && maxConnCnt == maxConns
      ensures curConnCnt == MinDbConnCnt && freeList == []
      ensures curConnCnt <= maxConnCnt <==> MinDbConnCnt <= maxConns
    {
      poolName := name;
      maxConnCnt := maxConns;
      curConnCnt := MinDbConnCnt;
      freeList := [];
    }

    /** `Init`: opens `curConnCnt` connections one after another; attempt
        `i` meets `outcome(i)`. The first failure stops the loop and its code
        is returned; the connections opened before it stay on the list. */
    method Init(outcome: nat -> ConnectOutcome) returns (code: int)
      requires Valid()
      modifies this
      ensures Valid()
      ensures curConnCnt == old(curConnCnt)
      ensures var k := SuccessPrefix(outcome, curConnCnt);
        && |freeList| == |old(freeList)| + k
        && freeList[..|old(freeList)|] == old(freeList)
        && (forall i | |old(freeList)| <= i < |freeList| ::
              fresh(freeList[i]) && freeList[i].pool == this && freeList[i].hasHandle)
        && code == (if k == curConnCnt then 0 else InitCode(outcome(k)))
    {
      var i := 0;
      while i < curConnCnt
        invariant 0 <= i <= curConnCnt == old(curConnCnt)
        invariant forall j :: 0 <= j < i ==> InitCode(outcome(j)) == 0
        invariant Valid()
        invariant |freeList| == |old(freeList)| + i
        invariant freeList[..|old(freeList)|] == old(freeList)
        invariant forall j | |old(freeList)| <= j < |freeList| ::
          fresh(freeList[j]) && freeList[j].pool == this && freeList[j].hasHandle
      {
        var conn := new DBConn(this);
        var ret := conn.Init(outcome(i));
        if ret != 0 {
          SuccessPrefixAt(outcome, curConnCnt, i);
          return ret;
        }
        freeList := freeList + [conn];
        i := i + 1;
      }
      SuccessPrefixAt(outcome, curConnCnt, i);
      return 0;
    }

    /** `GetDBConn`: hand out the front of the free list; with an empty list
        and room to grow, open one connection (meeting `o`) first. */
    method GetDBConn(o: ConnectOutcome) returns (c: DBConn?)
      requires Valid()
      requires CanAcquire()
      modifies this
      ensures Valid()
      ensures AcquiredFrom(this, o, c)
      ensures c != null ==> c !in freeList
      ensures old(curConnCnt) <= maxConnCnt ==> curConnCnt <= maxConnCnt
    {
      while freeList == []
        invariant Valid()
        invariant freeList == [] ==> curConnCnt == old(curConnCnt) < maxConnCnt
        invariant old(freeList) != [] ==> freeList == old(freeList) && curConnCnt == old(curConnCnt)
        invariant old(freeList) == [] && freeList != [] ==>
          |freeList| == 1 && fresh(freeList[0]) && freeList[0].pool == this && freeList[0].hasHandle
          && curConnCnt == old(curConnCnt) + 1 && InitCode(o) == 0
        decreases |freeList| == 0
      {
        if curConnCnt >= maxConnCnt {
          // the busy-wait: only another thread's release ends it
          assert false;
        } else {
          var conn := new DBConn(this);
          var ret := conn.Init(o);
          if ret != 0 {
            return null;
          }
          freeList := freeList + [conn];
          curConnCnt := curConnCnt + 1;
        }
      }
      c := freeList[0];
      freeList := freeList[1..];
    }

    /** `RelDBConn`: scan the free list for `c`; append it only if absent. */
    method RelDBConn(c: DBConn)
      requires Valid()
      modifies this
      ensures Valid()
      ensures ReleasedTo(this, c)
    {
      var i := 0;
      while i < |freeList| && freeList[i] != c
        invariant 0 <= i <= |freeList|
        invariant forall j :: 0 <= j < i ==> freeList[j] != c
      {
        i := i + 1;
      }
      if i == |freeList| {
        freeList := freeList + [c];
      }
      ReleaseKeepsNoDup(old(freeList), c);
    }
  }

  /** What one `GetDBConn` call on `p` did, given the growth attempt meets `o`:
      a non-empty list gives up its front; an empty one grows by one fresh,
      opened connection, which is handed out, or on a failed open nothing changes
      and NULL is returned. */
  twostate predicate AcquiredFrom(p: DBPool, o: ConnectOutcome, new c: DBConn?)
    reads p, c
  {
    if old(p.freeList) != [] then
      c == old(p.freeList)[0] && p.freeList == old(p.freeList)[1..]
      && p.curConnCnt == old(p.curConnCnt)
    else if InitCode(o) == 0 then
      c != null && fresh(c) && c.pool == p && c.hasHandle && p.freeList == []
      && p.curConnCnt == old(p.curConnCnt) + 1
    else
      c == null && p.freeList == [] && p.curConnCnt == old(p.curConnCnt)
  }

  /** What one `RelDBConn(c)` call on `p` did: only the free list changed. */
  twostate predicate ReleasedTo(p: DBPool, c: DBConn)
    reads p
  {
    p.freeList == Released(old(p.freeList), c) && p.curConnCnt == old(p.curConnCnt)
  }
}
