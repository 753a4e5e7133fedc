/**
 * The stats aggregators (src/stats): collections of records keyed by id, kept in the
 * order the ids were first added, with lookups by field and the status rewrites of the
 * Agreements and Tasks aggregators. The aggregators' own sources are not part of this
 * model; what is modelled is the behaviour tests/unit/stats.test.ts asserts.
 */
module Stats {
  import opened Wrappers
  import opened Seqs

  /** The records of an aggregator: ids in first-insertion order, and the record of each id. */
  datatype Table<T> = Table(order: seq<string>, items: map<string, T>)

  predicate Valid<T>(t: Table<T>)
  {
    (forall i, j :: 0 <= i < j < |t.order| ==> t.order[i] != t.order[j]) &&
    (forall i :: 0 <= i < |t.order| ==> t.order[i] in t.items) &&
    (forall k :: k in t.items ==> k in t.order)
  }

  function EmptyTable<T>(): (t: Table<T>)
    ensures Valid(t) && |t.order| == 0
  {
    Table([], map[])
  }

  /** `add`: a new id goes last; an id already present keeps its place and takes the new record. */
  function Put<T>(t: Table<T>, id: string, v: T): (u: Table<T>)
    requires Valid(t)
    ensures Valid(u)
    ensures u.items == t.items[id := v]
    ensures id in t.items ==> u.order == t.order
    ensures id !in t.items ==> u.order == t.order + [id]
  {
    if id in t.items then t.(items := t.items[id := v])
    else Table(t.order + [id], t.items[id := v])
  }

  /** `getAll`: the records in insertion order. */
  function All<T>(t: Table<T>): (all: seq<T>)
    requires Valid(t)
    ensures |all| == |t.order|
    ensures forall i :: 0 <= i < |all| ==> all[i] == t.items[t.order[i]]
  {
    seq(|t.order|, i requires 0 <= i < |t.order| => t.items[t.order[i]])
  }

  /** `getById`: the record of an id that was added, nothing for any other id. */
  function GetById<T>(t: Table<T>, id: string): (r: Option<T>)
    requires Valid(t)
    ensures r.Some? <==> id in t.order
    ensures r.Some? ==> exists i :: 0 <= i < |t.order| && t.order[i] == id && All(t)[i] == r.value
  {
    if id in t.items then Some(t.items[id]) else None
  }

  /** Rewriting the record of `id`, if there is one, in place. */
  function Rewrite<T>(t: Table<T>, id: string, v: T): (u: Table<T>)
    requires Valid(t)
    ensures Valid(u) && u.order == t.order
    ensures id in t.items ==> u.items == t.items[id := v]
    ensures id !in t.items ==> u == t
  {
    if id in t.items then t.(items := t.items[id := v]) else t
  }

  /** Adding a new id appends exactly its record to `getAll`, and `getById` returns it. */
  lemma PutNewAppends<T>(t: Table<T>, id: string, v: T)
    requires Valid(t) && id !in t.items
    ensures All(Put(t, id, v)) == All(t) + [v]
    ensures GetById(Put(t, id, v), id) == Some(v)
  {
    var u := Put(t, id, v);
    assert forall i :: 0 <= i < |t.order| ==> t.order[i] != id;
  }

  /**
   * Rewriting the record of an id present in the table changes that position of `getAll`
   * and no other, and keeps the count.
   */
  lemma RewriteIsPointUpdate<T>(t: Table<T>, id: string, v: T) returns (i: nat)
    requires Valid(t) && id in t.items
    ensures i < |t.order| && t.order[i] == id
    ensures |All(Rewrite(t, id, v))| == |All(t)|
    ensures All(Rewrite(t, id, v))[i] == v
    ensures forall j :: 0 <= j < |t.order| && j != i ==> All(Rewrite(t, id, v))[j] == All(t)[j]
  {
    i :| 0 <= i < |t.order| && t.order[i] == id;
  }

  /** Adding the same record twice leaves the table as one add does. */
  lemma PutTwice<T>(t: Table<T>, id: string, v: T)
    requires Valid(t)
    ensures Put(Put(t, id, v), id, v) == Put(t, id, v)
    ensures |All(Put(Put(t, id, v), id, v))| == |All(t)| + (if id in t.items then 0 else 1)
  {
  }

  /** Changing one element moves the count of a predicate by that element alone. */
  lemma {:induction false} CountPointUpdate<T>(a: seq<T>, b: seq<T>, i: nat, f: T -> bool)
    requires |a| == |b| && i < |a|
    requires forall j :: 0 <= j < |a| && j != i ==> a[j] == b[j]
    ensures Count(b, f) + (if f(a[i]) then 1 else 0) == Count(a, f) + (if f(b[i]) then 1 else 0)
  {
    if i == 0 {
      assert a[1..] == b[1..];
    } else {
      CountPointUpdate(a[1..], b[1..], i - 1, f);
    }
  }

  // ---------------------------------------------------------------------------
  // Agreements

  datatype ProviderInfo = ProviderInfo(id: string, name: string, walletAddress: string)

  datatype AgreementStatus = Pending | Confirmed | Rejected

  datatype AgreementInfo = AgreementInfo(id: string, provider: ProviderInfo, proposalId: string, status: AgreementStatus)

  function WithStatus(t: Table<AgreementInfo>, id: string, status: AgreementStatus): (u: Table<AgreementInfo>)
    requires Valid(t)
    ensures Valid(u)
  {
    if id in t.items then Rewrite(t, id, t.items[id].(status := status)) else t
  }

  function ByProvider(providerId: string): AgreementInfo -> bool
  {
    (a: AgreementInfo) => a.provider.id == providerId
  }

  function ByStatus(status: AgreementStatus): AgreementInfo -> bool
  {
    (a: AgreementInfo) => a.status == status
  }

  /**
   * Confirming or rejecting a pending agreement moves it from the Pending count to the
   * count of its new status; every other agreement keeps its status.
   */
  lemma SettlingMovesOneAgreement(t: Table<AgreementInfo>, id: string, status: AgreementStatus)
    requires Valid(t) && id in t.items && t.items[id].status == Pending && status != Pending
    ensures Count(All(WithStatus(t, id, status)), ByStatus(status)) == Count(All(t), ByStatus(status)) + 1
    ensures Count(All(WithStatus(t, id, status)), ByStatus(Pending)) + 1 == Count(All(t), ByStatus(Pending))
    ensures forall k :: k in t.items && k != id ==> WithStatus(t, id, status).items[k] == t.items[k]
  {
    var v := t.items[id].(status := status);
    var i := RewriteIsPointUpdate(t, id, v);
    CountPointUpdate(All(t), All(WithStatus(t, id, status)), i, ByStatus(status));
    CountPointUpdate(All(t), All(WithStatus(t, id, status)), i, ByStatus(Pending));
  }

  /** The agreement table as the Agreements aggregator mutates it. */
  class Agreements {
    var table: Table<AgreementInfo>

    constructor ()
      ensures table == EmptyTable()
    {
      table := EmptyTable();
    }

    /** `add`: the agreement is recorded as Pending. */
    method Add(id: string, provider: ProviderInfo, proposalId: string)
      requires Valid(table)
      modifies this
      ensures table == Put(old(table), id, AgreementInfo(id, provider, proposalId, Pending))
    {
      table := Put(table, id, AgreementInfo(id, provider, proposalId, Pending));
    }

    method Confirm(id: string)
      requires Valid(table)
      modifies this
      ensures table == WithStatus(old(table), id, Confirmed)
    {
      table := WithStatus(table, id, Confirmed);
    }

    method Reject(id: string)
      requires Valid(table)
      modifies this
      ensures table == WithStatus(old(table), id, Rejected)
    {
      table := WithStatus(table, id, Rejected);
    }

    /** `getByProviderId`: the agreements with that provider, as many as `getAll` holds. */
    function GetByProviderId(providerId: string): (r: seq<AgreementInfo>)
      requires Valid(table)
      reads this
      ensures forall a :: a in r <==> a in All(table) && a.provider.id == providerId
      ensures |r| == Count(All(table), ByProvider(providerId))
    {
      ByProviderIsExact(table, providerId);
      Filter(All(table), ByProvider(providerId))
    }

    /** `getByStatus`: the agreements in that status, as many as `getAll` holds. */
    function GetByStatus(status: AgreementStatus): (r: seq<AgreementInfo>)
      requires Valid(table)
      reads this
      ensures forall a :: a in r <==> a in All(table) && a.status == status
      ensures |r| == Count(All(table), ByStatus(status))
    {
      FilterMembership(All(table), ByStatus(status));
      CountIsFilterLength(All(table), ByStatus(status));
      Filter(All(table), ByStatus(status))
    }
  }

  /** `getByProviderId` returns exactly the agreements with that provider, in insertion order. */
  lemma ByProviderIsExact(t: Table<AgreementInfo>, providerId: string)
    requires Valid(t)
    ensures forall a :: a in Filter(All(t), ByProvider(providerId)) <==> a in All(t) && a.provider.id == providerId
    ensures |Filter(All(t), ByProvider(providerId))| == Count(All(t), ByProvider(providerId))
  {
    FilterMembership(All(t), ByProvider(providerId));
    CountIsFilterLength(All(t), ByProvider(providerId));
  }

  // ---------------------------------------------------------------------------
  // Tasks

  datatype TaskStatus = TaskPending | TaskRejected | TaskFinished

  datatype TaskInfo = TaskInfo(id: string, agreementId: string, startTime: int, stopTime: int,
                               retriesCount: nat, status: TaskStatus, reason: Option<string>)

  /** A newly added task: not stopped, never retried, pending and without a reason. */
  function NewTask(id: string, agreementId: string, startTime: int): (info: TaskInfo)
    ensures info.id == id && info.agreementId == agreementId && info.startTime == startTime
    ensures info.stopTime == 0 && info.retriesCount == 0 && info.status == TaskPending && info.reason.None?
  {
    TaskInfo(id, agreementId, startTime, 0, 0, TaskPending, None)
  }

  function Retried(info: TaskInfo, retriesCount: nat): TaskInfo
  {
    info.(retriesCount := retriesCount)
  }

  function Refused(info: TaskInfo, stopTime: int, reason: string): TaskInfo
  {
    info.(status := TaskRejected, stopTime := stopTime, reason := Some(reason))
  }

  function Finished(info: TaskInfo, stopTime: int): TaskInfo
  {
    info.(status := TaskFinished, stopTime := stopTime)
  }

  /** `retry`, `reject` and `finish` touch only their own fields; everything else stays. */
  lemma TaskTransitionsTouchOnlyTheirFields(info: TaskInfo, n: nat, time: int, reason: string)
    ensures var r := Retried(info, n);
            r.retriesCount == n && r == TaskInfo(info.id, info.agreementId, info.startTime, info.stopTime, n, info.status, info.reason)
    ensures var r := Refused(info, time, reason);
            r == TaskInfo(info.id, info.agreementId, info.startTime, time, info.retriesCount, TaskRejected, Some(reason))
    ensures var r := Finished(info, time);
            r == TaskInfo(info.id, info.agreementId, info.startTime, time, info.retriesCount, TaskFinished, info.reason)
  {
  }

  class Tasks {
    var table: Table<TaskInfo>

    constructor ()
      ensures table == EmptyTable()
    {
      table := EmptyTable();
    }

    method Add(id: string, agreementId: string, startTime: int)
      requires Valid(table)
      modifies this
      ensures table == Put(old(table), id, NewTask(id, agreementId, startTime))
    {
      table := Put(table, id, NewTask(id, agreementId, startTime));
    }

    method Retry(id: string, retriesCount: nat)
      requires Valid(table)
      modifies this
      ensures id in old(table.items) ==> table == Rewrite(old(table), id, Retried(old(table).items[id], retriesCount))
      ensures id !in old(table.items) ==> table == old(table)
    {
      if id in table.items {
        table := Rewrite(table, id, Retried(table.items[id], retriesCount));
      }
    }

    method Reject(id: string, stopTime: int, reason: string)
      requires Valid(table)
      modifies this
      ensures id in old(table.items) ==> table == Rewrite(old(table), id, Refused(old(table).items[id], stopTime, reason))
      ensures id !in old(table.items) ==> table == old(table)
    {
      if id in table.items {
        table := Rewrite(table, id, Refused(table.items[id], stopTime, reason));
      }
    }

    method Finish(id: string, stopTime: int)
      requires Valid(table)
      modifies this
      ensures id in old(table.items) ==> table == Rewrite(old(table), id, Finished(old(table).items[id], stopTime))
      ensures id !in old(table.items) ==> table == old(table)
    {
      if id in table.items {
        table := Rewrite(table, id, Finished(table.items[id], stopTime));
      }
    }
  }

  // ---------------------------------------------------------------------------
  // Providers and the field lookup of the abstract aggregator

  class Providers {
    var table: Table<ProviderInfo>

    constructor ()
      ensures table == EmptyTable()
    {
      table := EmptyTable();
    }

    /** Adding a provider already present replaces its record and keeps a single entry. */
    method Add(info: ProviderInfo)
      requires Valid(table)
      modifies this
      ensures table == Put(old(table), info.id, info)
    {
      table := Put(table, info.id, info);
    }
  }

  /** The record the tests' `Dummy` aggregator stores. */
  datatype DummyInfo = DummyInfo(id: string, parentId: string)

  /** The value of a named field; a field the record does not have is missing. */
  function FieldOf(d: DummyInfo, field: string): Option<string>
  {
    if field == "id" then Some(d.id) else if field == "parentId" then Some(d.parentId) else None
  }

  function HasField(field: string, value: string): DummyInfo -> bool
  {
    (d: DummyInfo) => FieldOf(d, field) == Some(value)
  }

  /** `getByField`: the records whose field equals the value, in insertion order. */
  function GetByField(t: Table<DummyInfo>, field: string, value: string): (r: seq<DummyInfo>)
    requires Valid(t)
    ensures forall d :: d in r <==> d in All(t) && FieldOf(d, field) == Some(value)
    ensures |r| == Count(All(t), HasField(field, value))
  {
    FilterMembership(All(t), HasField(field, value));
    CountIsFilterLength(All(t), HasField(field, value));
    Filter(All(t), HasField(field, value))
  }

  /** A field no record has gives an empty result, whatever the records. */
  lemma {:induction false} UnknownFieldIsEmpty(t: Table<DummyInfo>, field: string, value: string)
    requires Valid(t) && field != "id" && field != "parentId"
    ensures GetByField(t, field, value) == []
  {
    NothingPasses(All(t), HasField(field, value));
  }
}
