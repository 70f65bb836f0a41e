/** What a multi-get makes of a list of keys. */
module Listing {
  import opened Tasks

  /** The values a multi-get returns for `keys`, the missing ones dropped. */
  function Collect(held: map<TaskId, Entry>, keys: seq<TaskId>): (rs: seq<Record>)
    ensures forall k :: k in keys && k in held ==> held[k].record in rs
    ensures forall r :: r in rs ==> exists k :: k in keys && k in held && r == held[k].record
  {
    if keys == [] then []
    else
      var first, k := keys[..|keys| - 1], keys[|keys| - 1];
      Collect(held, first) + if k in held then [held[k].record] else []
  }

  /** When every key is held, each of them gets its record. */
  lemma {:induction false} CollectAll(held: map<TaskId, Entry>, keys: seq<TaskId>)
    requires forall k :: k in keys ==> k in held
    ensures |Collect(held, keys)| == |keys|
  {
    if keys != [] {
      CollectAll(held, keys[..|keys| - 1]);
    }
  }

  lemma {:induction false} CollectAt(held: map<TaskId, Entry>, keys: seq<TaskId>, n: nat)
    requires n < |keys| && forall k :: k in keys ==> k in held
    ensures |Collect(held, keys)| == |keys| && Collect(held, keys)[n] == held[keys[n]].record
  {
    var first := keys[..|keys| - 1];
    CollectAll(held, keys);
    CollectAll(held, first);
    if n < |first| {
      CollectAt(held, first, n);
    }
  }

  predicate DistinctTasks(rs: seq<Record>) {
    forall m, n :: 0 <= m < n < |rs| ==> rs[m].taskId != rs[n].taskId
  }

  lemma {:induction false} CollectDistinct(held: map<TaskId, Entry>, keys: seq<TaskId>)
    requires Distinct(keys) && forall k :: k in held ==> held[k].record.taskId == k
    ensures DistinctTasks(Collect(held, keys))
  {
    if keys != [] {
      var first, last := keys[..|keys| - 1], keys[|keys| - 1];
      var got, rs := Collect(held, first), Collect(held, keys);
      CollectDistinct(held, first);
      forall m, n | 0 <= m < n < |rs| ensures rs[m].taskId != rs[n].taskId {
        assert rs[m] == got[m] && got[m] in got;
        var k :| k in first && k in held && got[m] == held[k].record;
        assert n < |got| ==> rs[n] == got[n];
      }
    }
  }
}

/**
 The task store as the service calls it: every method is the coroutine run with nothing in between.
 Redis is a map with deadlines, an oracle says which of its calls raise, and a raising call has no effect.
 */
module TaskStore {
  import opened Tasks
  import opened Listing

  datatype Redis = Redis(now: Time, calls: nat, data: map<TaskId, Entry>)
  {
    /** A key past its deadline is not there any more. */
    function Lookup(k: TaskId): Option<Record> {
      if k in data && now < data[k].deadline then Some(data[k].record) else None
    }

    function Called(): Redis {
      this.(calls := calls + 1)
    }

    function Put(k: TaskId, r: Record, ttl: Time): Redis {
      this.(data := data[k := Entry(r, now + ttl)])
    }

    function After(d: Time): Redis {
      this.(now := now + d)
    }

    function Alive(): map<TaskId, Entry> {
      map k | k in data && now < data[k].deadline :: data[k]
    }
  }

  datatype Outcome = Outcome(redis: Redis, raised: bool)

  /** One whole update: a GET, and a SET when the key was found. */
  function Updated(ttl: Time, raises: nat -> bool, w: Redis, k: TaskId, u: Change): Outcome {
    if raises(w.calls) then Outcome(w.Called(), true)
    else
      match w.Lookup(k)
      case None => Outcome(w.Called(), false)
      case Some(r) =>
        if raises(w.calls + 1) then Outcome(w.Called().Called(), true)
        else Outcome(w.Called().Called().Put(k, Modified(r, u, w.now), ttl), false)
  }

  class RedisTaskStore {
    const ttl: Time
    const raises: nat -> bool
    var now: Time
    var calls: nat
    var data: map<TaskId, Entry>

    constructor (ttl: Time, raises: nat -> bool, now: Time)
      ensures View() == Redis(now, 0, map[]) && this.ttl == ttl && this.raises == raises
    {
      this.ttl := ttl;
      this.raises := raises;
      this.now := now;
      this.calls := 0;
      this.data := map[];
    }

    function View(): Redis
      reads this
    {
      Redis(now, calls, data)
    }

    /** `asyncio.sleep`, and every other await during which only time passes. */
    method Wait(d: Time)
      modifies this`now
      ensures View() == old(View()).After(d)
    {
      now := now + d;
    }

    method RedisSet(k: TaskId, r: Record) returns (raised: bool)
      modifies this
      ensures raised == raises(old(calls))
      ensures View() == if raised then old(View()).Called() else old(View()).Called().Put(k, r, ttl)
    {
      raised := raises(calls);
      calls := calls + 1;
      if !raised {
        data := data[k := Entry(r, now + ttl)];
      }
    }

    method RedisGet(k: TaskId) returns (raised: bool, raw: Option<Record>)
      modifies this
      ensures raised == raises(old(calls)) && View() == old(View()).Called()
      ensures raw == if raised then None else old(View()).Lookup(k)
    {
      raised := raises(calls);
      raw := None;
      if !raised && k in data && now < data[k].deadline {
        raw := Some(data[k].record);
      }
      calls := calls + 1;
    }

    /** `uuid` is the id the caller drew. */
    method Create(op: Operation, vm: VmId, uuid: TaskId) returns (raised: bool, record: Record)
      modifies this
      ensures record == NewRecord(uuid, op, vm, old(now)) && raised == raises(old(calls))
      ensures View() == if raised then old(View()).Called() else old(View()).Called().Put(uuid, record, ttl)
      ensures !raised && ttl > 0.0 ==> View().Lookup(uuid) == Some(record)
    {
      record := NewRecord(uuid, op, vm, now);
      raised := RedisSet(uuid, record);
    }

    method Update(k: TaskId, u: Change) returns (raised: bool)
      modifies this
      ensures Outcome(View(), raised) == Updated(ttl, raises, old(View()), k, u)
    {
      var raw;
      raised, raw := RedisGet(k);
      if raised || raw == None {
        return;
      }
      var record := raw.value;
      record := record.(status := u.status);
      record := record.(updatedAt := now);
      if u.resourceId.Some? {
        record := record.(resourceId := u.resourceId);
      }
      if u.error.Some? {
        record := record.(error := u.error);
      }
      if u.result.Some? {
        record := record.(result := u.result);
      }
      raised := RedisSet(k, record);
    }

    method Get(k: TaskId) returns (raised: bool, record: Option<Record>)
      modifies this
      ensures raised == raises(old(calls)) && View() == old(View()).Called()
      ensures record == if raised then None else old(View()).Lookup(k)
    {
      raised, record := RedisGet(k);
    }

    method RedisKeys() returns (raised: bool, keys: seq<TaskId>)
      modifies this`calls
      ensures raised == raises(old(calls)) && View() == old(View()).Called()
      ensures !raised ==> Distinct(keys) && forall k :: k in keys <==> old(View()).Lookup(k).Some?
      ensures raised ==> keys == []
    {
      raised, keys := raises(calls), [];
      if !raised {
        keys := EnumerateKeys(View().Alive().Keys);
      }
      calls := calls + 1;
    }

    method RedisMget(keys: seq<TaskId>) returns (raised: bool, rs: seq<Record>)
      modifies this`calls
      ensures raised == raises(old(calls)) && View() == old(View()).Called()
      ensures rs == if raised then [] else Collect(old(View()).Alive(), keys)
    {
      raised, rs := raises(calls), [];
      if !raised {
        rs := MultiGet(View().Alive(), keys);
      }
      calls := calls + 1;
    }

    /** KEYS, then MGET of what it returned, in the order it returned it, unless it returned nothing. */
    method ListAll() returns (raised: bool, rs: seq<Record>, keys: seq<TaskId>)
      modifies this`calls
      ensures raised == (raises(old(calls)) || (keys != [] && raises(old(calls) + 1)))
      ensures View() == if keys == [] then old(View()).Called() else old(View()).Called().Called()
      ensures raised ==> rs == []
      ensures !raises(old(calls)) ==> Distinct(keys) && forall k :: k in keys <==> old(View()).Lookup(k).Some?
      ensures !raised ==> |rs| == |keys| && forall n :: 0 <= n < |keys| ==> old(View()).Lookup(keys[n]) == Some(rs[n])
    {
      rs := [];
      raised, keys := RedisKeys();
      if raised || keys == [] {
        return;
      }
      CollectFinds(old(View()), keys);
      raised, rs := RedisMget(keys);
    }

    method MultiGet(held: map<TaskId, Entry>, keys: seq<TaskId>) returns (rs: seq<Record>)
      ensures rs == Collect(held, keys)
    {
      rs := [];
      var n := 0;
      while n < |keys|
        invariant n <= |keys| && rs == Collect(held, keys[..n])
      {
        assert keys[..n + 1][..n] == keys[..n];
        if keys[n] in held {
          rs := rs + [held[keys[n]].record];
        }
        n := n + 1;
      }
      assert keys[..n] == keys;
    }

    method EnumerateKeys(s: set<TaskId>) returns (keys: seq<TaskId>)
      ensures Distinct(keys) && forall k :: k in keys <==> k in s
    {
      keys := [];
      var rest := s;
      while rest != {}
        invariant Distinct(keys) && forall k :: k in s <==> k in keys || k in rest
        invariant forall k :: k in keys ==> k !in rest
        decreases |rest|
      {
        var k :| k in rest;
        keys, rest := keys + [k], rest - {k};
      }
    }
  }

  /** A record that is alive goes through an update that does not raise with exactly the change asked for. */
  lemma UpdateReadsBack(ttl: Time, raises: nat -> bool, w: Redis, k: TaskId, u: Change)
    requires ttl > 0.0 && !raises(w.calls) && !raises(w.calls + 1) && w.Lookup(k).Some?
    ensures var o := Updated(ttl, raises, w, k, u);
      && !o.raised
      && (forall k' :: k' != k ==> o.redis.Lookup(k') == w.Lookup(k'))
      && o.redis.Lookup(k).Some?
      && var was, r := w.Lookup(k).value, o.redis.Lookup(k).value;
         && r.status == u.status && r.updatedAt == w.now
         && r.taskId == was.taskId && r.operation == was.operation && r.createdAt == was.createdAt
         && r.resourceId == (if u.resourceId == None then was.resourceId else u.resourceId)
         && r.error == (if u.error == None then was.error else u.error)
         && r.result == (if u.result == None then was.result else u.result)
  {
  }

  /** A missing key makes any update a no-op, and no update ever touches another key. */
  lemma UpdateTouchesOneKey(ttl: Time, raises: nat -> bool, w: Redis, k: TaskId, u: Change)
    ensures var o := Updated(ttl, raises, w, k, u);
      && (forall k' :: k' != k ==> o.redis.Lookup(k') == w.Lookup(k'))
      && (w.Lookup(k) == None || o.raised ==> o.redis.data == w.data)
  {
  }

  /** What is put is found for exactly the time to live. */
  lemma PutExpires(w: Redis, k: TaskId, r: Record, ttl: Time, d: Time)
    requires d >= 0.0
    ensures w.Put(k, r, ttl).After(d).Lookup(k) == if d < ttl then Some(r) else None
  {
  }

  lemma CollectFinds(w: Redis, keys: seq<TaskId>)
    requires forall k :: k in keys ==> w.Lookup(k).Some?
    ensures var rs := Collect(w.Alive(), keys);
      |rs| == |keys| && forall n :: 0 <= n < |keys| ==> w.Lookup(keys[n]) == Some(rs[n])
  {
    CollectAll(w.Alive(), keys);
    forall n: nat | n < |keys| ensures w.Lookup(keys[n]) == Some(Collect(w.Alive(), keys)[n]) {
      CollectAt(w.Alive(), keys, n);
    }
  }

  /** The keys a scan returns are those that a GET would find, with the same records. */
  lemma AliveIsFound(w: Redis, k: TaskId)
    ensures k in w.Alive() <==> w.Lookup(k).Some?
    ensures k in w.Alive() ==> w.Lookup(k) == Some(w.Alive()[k].record)
  {
  }
}
