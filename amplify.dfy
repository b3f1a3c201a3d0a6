/** The CRUD adapter that connects each collection of the data store to the
    Amplify GraphQL client (methods/Amplify.ts, `syncedAmplify`).

    `list` is one step of a pull sweep over the per-collection cursors
    `currentSync` (the `updatedAt` bound captured when a sweep starts) and
    `nextToken` (the backend's continuation token). The backend is a
    function from the query to either a thrown error or a page. */
module Amplify {
  import opened Common
  import opened ArraySort

  /** The tenant key every record is stamped with. */
  const AccountId: string := "poc"

  /** Page size each collection is declared with. */
  function Limit(name: ModelName): Option<int> {
    match name
    case Client => Some(100)
    case Todo => Some(1000)
  }

  /** The transient pagination cursors of one collection;
      `None` is `undefined`. */
  datatype Cursors = Cursors(currentSync: Option<int>, nextToken: Option<string>)

  /** Both cursors cleared: no sweep in progress. */
  const Idle := Cursors(None, None)

  /** Arguments of `list<Model>ByAccountIdAndUpdatedAt`: the filter
      `{accountId, updatedAt: {gt: ...}}` (the bound in milliseconds) and the
      options `{limit, nextToken, sortDirection}`. */
  datatype Query = Query(
    model: ModelName,
    accountId: string,
    updatedAtGt: int,
    limit: Option<int>,
    nextToken: Option<string>,
    sortDirection: Direction)

  /** The records the query's `updatedAt` filter lets through. */
  predicate Selects(q: Query, updatedAt: int) {
    updatedAt > q.updatedAtGt
  }

  /** A list response: `{data, errors, nextToken}`. */
  datatype Page = Page(data: seq<Entity>, errors: Option<seq<string>>, nextToken: Option<string>)

  /** The backend's list operation: it throws (a transport failure) or
      answers with a page. */
  type ListRemote = Query -> Result<Page, string>

  /** What a failing callback rethrows: the response's `errors`, or what
      the client threw. */
  datatype RemoteError = Returned(errors: seq<string>) | Thrown(message: string)

  /** JavaScript truthiness of a token: `undefined`, `null` and `""` are
      all "no more pages". */
  predicate Truthy(t: Option<string>) {
    t.Some? && t.value != ""
  }

  /** The `updatedAt` bound a `list` call queries with: the stored
      `currentSync`, or `lastSync || 0` when none is stored. */
  function Captured(c: Cursors, lastSync: Option<int>): int {
    c.currentSync.GetOr(OrZero(lastSync))
  }

  /** The effect of one `list` call on the cursors (`cursors`), the query it
      sends, what it returns or throws (`result`), and whether it called
      `refresh`. */
  datatype Step = Step(
    cursors: Cursors,
    query: Query,
    result: Result<seq<Entity>, RemoteError>,
    refresh: bool)

  function ListStep(name: ModelName, c: Cursors, lastSync: Option<int>, remote: ListRemote): (st: Step)
    // the query: the stored cursor (strict `gt`), the stored token, newest first
    ensures st.query.updatedAtGt == Captured(c, lastSync)
    ensures c.currentSync.Some? ==> st.query.updatedAtGt == c.currentSync.value
    ensures st.query.nextToken == c.nextToken
    ensures st.query.model == name && st.query.accountId == AccountId
    ensures st.query.limit == Limit(name) && st.query.sortDirection == Descending
    // a throw: the cursors keep their values, except that `currentSync` was captured
    ensures st.result.Failure? <==> remote(st.query).Failure? || remote(st.query).value.errors.Some?
    ensures st.result.Failure? ==>
      !st.refresh && st.cursors == Cursors(Some(Captured(c, lastSync)), c.nextToken)
    ensures remote(st.query).Failure? ==> st.result == Failure(Thrown(remote(st.query).error))
    ensures remote(st.query).Success? && remote(st.query).value.errors.Some? ==>
      st.result == Failure(Returned(remote(st.query).value.errors.value))
    // success: exactly the page's data
    ensures st.result.Success? ==> st.result.value == remote(st.query).value.data
    // a continuation token is stored and `refresh` requested; the cursor stays
    ensures st.refresh <==> st.result.Success? && Truthy(remote(st.query).value.nextToken)
    ensures st.refresh ==>
      st.cursors == Cursors(Some(Captured(c, lastSync)), remote(st.query).value.nextToken)
    // the last page clears both cursors
    ensures st.result.Success? && !st.refresh ==> st.cursors == Idle
  {
    var started := if c.currentSync.None? then c.(currentSync := Some(OrZero(lastSync))) else c;
    var query := Query(name, AccountId, OrZero(started.currentSync), Limit(name),
                       started.nextToken, Descending);
    match remote(query)
    case Failure(e) => Step(started, query, Failure(Thrown(e)), false)
    case Success(page) =>
      if page.errors.Some? then Step(started, query, Failure(Returned(page.errors.value)), false)
      else if Truthy(page.nextToken) then
        Step(started.(nextToken := page.nextToken), query, Success(page.data), true)
      else Step(started.(currentSync := None, nextToken := None), query, Success(page.data), false)
  }

  /** How a sweep ended: the last page had no token, a call threw, or the
      driver's call budget ran out while pages were still announced. */
  datatype SweepEnd = Completed | Aborted(error: RemoteError) | OutOfFuel

  /** A sweep: the queries sent, the data each successful call returned,
      the cursors left behind and how it ended. */
  datatype Sweep = Sweep(queries: seq<Query>, pages: seq<seq<Entity>>, cursors: Cursors, end: SweepEnd)

  /** `list` called again as long as the previous call requested `refresh`,
      at most `fuel` times, with the same `lastSync` throughout. */
  function RunSweep(name: ModelName, c: Cursors, lastSync: Option<int>, remote: ListRemote, fuel: nat): Sweep
    decreases fuel
  {
    if fuel == 0 then Sweep([], [], c, OutOfFuel)
    else
      var st := ListStep(name, c, lastSync, remote);
      match st.result
      case Failure(e) => Sweep([st.query], [], st.cursors, Aborted(e))
      case Success(data) =>
        if st.refresh then
          var rest := RunSweep(name, st.cursors, lastSync, remote, fuel - 1);
          Sweep([st.query] + rest.queries, [data] + rest.pages, rest.cursors, rest.end)
        else Sweep([st.query], [data], st.cursors, Completed)
  }

  /** Every query in `qs` is `name`'s list query with lower bound `bound`. */
  ghost predicate QueriedFrom(qs: seq<Query>, name: ModelName, bound: int) {
    forall i :: 0 <= i < |qs| ==>
      qs[i].updatedAtGt == bound && qs[i].model == name && qs[i].accountId == AccountId &&
      qs[i].limit == Limit(name) && qs[i].sortDirection == Descending
  }

  /** Every page of a sweep is queried with the bound captured by its first
      call, whatever the later calls return. */
  lemma {:induction false} SweepKeepsCursor(name: ModelName, c: Cursors, lastSync: Option<int>, remote: ListRemote, fuel: nat)
    ensures QueriedFrom(RunSweep(name, c, lastSync, remote, fuel).queries, name, Captured(c, lastSync))
    decreases fuel
  {
    if fuel > 0 {
      var st := ListStep(name, c, lastSync, remote);
      if st.result.Success? && st.refresh {
        SweepKeepsCursor(name, st.cursors, lastSync, remote, fuel - 1);
        assert Captured(st.cursors, lastSync) == Captured(c, lastSync);
        var t := RunSweep(name, c, lastSync, remote, fuel);
        var rest := RunSweep(name, st.cursors, lastSync, remote, fuel - 1);
        assert t.queries == [st.query] + rest.queries;
      }
    }
  }

  /** The first page is asked for with the stored token, every later page
      with the token the previous page returned; every page but the last
      succeeded and announced a further page. */
  lemma {:induction false} SweepFollowsTokens(name: ModelName, c: Cursors, lastSync: Option<int>, remote: ListRemote, fuel: nat)
    ensures var t := RunSweep(name, c, lastSync, remote, fuel);
      && (|t.queries| > 0 ==> t.queries[0].nextToken == c.nextToken)
      && forall i :: 0 <= i < |t.queries| - 1 ==>
           && remote(t.queries[i]).Success?
           && remote(t.queries[i]).value.errors.None?
           && Truthy(remote(t.queries[i]).value.nextToken)
           && t.queries[i + 1].nextToken == remote(t.queries[i]).value.nextToken
    decreases fuel
  {
    if fuel > 0 {
      var st := ListStep(name, c, lastSync, remote);
      if st.result.Success? && st.refresh {
        SweepFollowsTokens(name, st.cursors, lastSync, remote, fuel - 1);
        var t := RunSweep(name, c, lastSync, remote, fuel);
        var rest := RunSweep(name, st.cursors, lastSync, remote, fuel - 1);
        assert t.queries == [st.query] + rest.queries;
        forall i | 0 <= i < |t.queries| - 1
          ensures t.queries[i + 1] == rest.queries[i]
          ensures i > 0 ==> t.queries[i] == rest.queries[i - 1]
        {
        }
        if |rest.queries| > 0 {
          assert rest.queries[0].nextToken == remote(st.query).value.nextToken;
        }
      }
    }
  }

  /** The data a sweep hands back is, page by page, the data of the
      successful responses; only an aborting call contributes none. */
  lemma {:induction false} SweepCollectsPages(name: ModelName, c: Cursors, lastSync: Option<int>, remote: ListRemote, fuel: nat)
    ensures var t := RunSweep(name, c, lastSync, remote, fuel);
      && |t.queries| <= fuel
      && (if t.end.Aborted? then |t.pages| == |t.queries| - 1 else |t.pages| == |t.queries|)
      && forall i :: 0 <= i < |t.pages| ==>
           remote(t.queries[i]).Success? && t.pages[i] == remote(t.queries[i]).value.data
    decreases fuel
  {
    if fuel > 0 {
      var st := ListStep(name, c, lastSync, remote);
      if st.result.Success? && st.refresh {
        SweepCollectsPages(name, st.cursors, lastSync, remote, fuel - 1);
        var t := RunSweep(name, c, lastSync, remote, fuel);
        var rest := RunSweep(name, st.cursors, lastSync, remote, fuel - 1);
        assert t.queries == [st.query] + rest.queries;
        assert t.pages == [st.result.value] + rest.pages;
        forall i | 0 < i < |t.pages|
          ensures t.pages[i] == rest.pages[i - 1] && t.queries[i] == rest.queries[i - 1]
        {
        }
      }
    }
  }

  /** The cursors a sweep leaves behind: both cleared when it completed;
      after a throw, the captured bound and the token of the page that
      failed, so that the retry asks for that page again. */
  lemma {:induction false} SweepLeavesCursors(name: ModelName, c: Cursors, lastSync: Option<int>, remote: ListRemote, fuel: nat)
    ensures var t := RunSweep(name, c, lastSync, remote, fuel);
      && (t.end.Completed? ==> t.cursors == Idle && |t.queries| > 0)
      && (t.end.Aborted? ==>
            |t.queries| > 0 &&
            t.cursors == Cursors(Some(Captured(c, lastSync)), t.queries[|t.queries| - 1].nextToken))
      && (t.end.OutOfFuel? ==> |t.queries| == fuel)
      && (t.end.OutOfFuel? && fuel > 0 ==> t.cursors.currentSync == Some(Captured(c, lastSync)))
      && (fuel == 0 ==> t.cursors == c)
    decreases fuel
  {
    if fuel > 0 {
      var st := ListStep(name, c, lastSync, remote);
      if st.result.Success? && st.refresh {
        SweepLeavesCursors(name, st.cursors, lastSync, remote, fuel - 1);
        var t := RunSweep(name, c, lastSync, remote, fuel);
        var rest := RunSweep(name, st.cursors, lastSync, remote, fuel - 1);
        assert t.queries == [st.query] + rest.queries;
        assert Captured(st.cursors, lastSync) == Captured(c, lastSync);
        if t.end.Aborted? {
          assert t.queries[|t.queries| - 1] == rest.queries[|rest.queries| - 1];
        }
      }
    }
  }

  /** Once a cursor is stored, the `lastSync` argument no longer matters:
      the sweep resumes from the stored cursor. */
  lemma {:induction false} SweepIgnoresLastSync(name: ModelName, c: Cursors, w1: Option<int>, w2: Option<int>, remote: ListRemote, fuel: nat)
    requires c.currentSync.Some?
    ensures RunSweep(name, c, w1, remote, fuel) == RunSweep(name, c, w2, remote, fuel)
    decreases fuel
  {
    if fuel > 0 {
      var st := ListStep(name, c, w1, remote);
      assert st == ListStep(name, c, w2, remote);
      if st.result.Success? && st.refresh {
        SweepIgnoresLastSync(name, st.cursors, w1, w2, remote, fuel - 1);
      }
    }
  }

  /** After a sweep that threw, the next sweep (under a new `lastSync`, a
      backend that may answer differently now) starts again from the page
      that failed and keeps the bound the first sweep captured. */
  lemma RetryResumesSweep(name: ModelName, c: Cursors, w1: Option<int>, w2: Option<int>,
                          remote1: ListRemote, remote2: ListRemote, fuel1: nat, fuel2: nat)
    requires RunSweep(name, c, w1, remote1, fuel1).end.Aborted?
    ensures var t1 := RunSweep(name, c, w1, remote1, fuel1);
      var t2 := RunSweep(name, t1.cursors, w2, remote2, fuel2);
      && (|t2.queries| > 0 ==> t2.queries[0].nextToken == t1.queries[|t1.queries| - 1].nextToken)
      && QueriedFrom(t2.queries, name, Captured(c, w1))
  {
    var t1 := RunSweep(name, c, w1, remote1, fuel1);
    SweepLeavesCursors(name, c, w1, remote1, fuel1);
    SweepKeepsCursor(name, t1.cursors, w2, remote2, fuel2);
    SweepFollowsTokens(name, t1.cursors, w2, remote2, fuel2);
  }

  /** One step of a sweep with calls left: what the first `list` call
      decides, and the sweep from the cursors it leaves. */
  lemma SweepUnfolds(name: ModelName, c: Cursors, lastSync: Option<int>, remote: ListRemote, fuel: nat)
    requires fuel > 0
    ensures var st := ListStep(name, c, lastSync, remote);
      var t := RunSweep(name, c, lastSync, remote, fuel);
      var rest := RunSweep(name, st.cursors, lastSync, remote, fuel - 1);
      && (st.result.Failure? ==> t.pages == [] && t.cursors == st.cursors && t.end == Aborted(st.result.error))
      && (st.result.Success? && st.refresh ==>
            t.pages == [st.result.value] + rest.pages && t.cursors == rest.cursors && t.end == rest.end)
      && (st.result.Success? && !st.refresh ==>
            t.pages == [st.result.value] && t.cursors == st.cursors && t.end == Completed)
  {
  }

  /** The data store's per-collection cursor fields `data$[name]`. */
  class DataStore {
    var cursors: map<ModelName, Cursors>

    ghost predicate Valid()
      reads this
    {
      Client in cursors && Todo in cursors
    }

    constructor ()
      ensures Valid() && cursors == map[Client := Idle, Todo := Idle]
    {
      cursors := map[Client := Idle, Todo := Idle];
    }

    /** The `list` callback. */
    method List(name: ModelName, lastSync: Option<int>, remote: ListRemote, refresh: Refresher)
      returns (r: Result<seq<Entity>, RemoteError>)
      requires Valid()
      modifies this, refresh
      ensures Valid()
      ensures var st := ListStep(name, old(cursors[name]), lastSync, remote);
        && cursors == old(cursors)[name := st.cursors]
        && r == st.result
        && refresh.calls == old(refresh.calls) + (if st.refresh then 1 else 0)
    {
      if cursors[name].currentSync.None? {
        cursors := cursors[name := cursors[name].(currentSync := Some(OrZero(lastSync)))];
      }
      var query := Query(name, AccountId, OrZero(cursors[name].currentSync), Limit(name),
                         cursors[name].nextToken, Descending);
      var response := remote(query);
      match response
      case Failure(e) =>
        r := Failure(Thrown(e));
      case Success(page) =>
        if page.errors.Some? {
          r := Failure(Returned(page.errors.value));
        } else if Truthy(page.nextToken) {
          cursors := cursors[name := cursors[name].(nextToken := page.nextToken)];
          refresh.Refresh();
          r := Success(page.data);
        } else {
          cursors := cursors[name := cursors[name].(currentSync := None)];
          cursors := cursors[name := cursors[name].(nextToken := None)];
          r := Success(page.data);
        }
    }

    /** The sync library's pull: call `list` again while the previous call
      requested `refresh`, at most `fuel` calls, with the same `lastSync`. */
    method Pull(name: ModelName, lastSync: Option<int>, remote: ListRemote, fuel: nat)
      returns (pages: seq<seq<Entity>>, end: SweepEnd)
      requires Valid()
      modifies this
      ensures Valid()
      ensures var t := RunSweep(name, old(cursors[name]), lastSync, remote, fuel);
        cursors == old(cursors)[name := t.cursors] && pages == t.pages && end == t.end
    {
      var refresh := new Refresher();
      ghost var whole := RunSweep(name, cursors[name], lastSync, remote, fuel);
      pages, end := [], OutOfFuel;
      var calls: nat, more := 0, true;
      while more && calls < fuel
        invariant Valid() && calls <= fuel
        invariant cursors == old(cursors)[name := cursors[name]]
        invariant more ==> end == OutOfFuel && Pending(whole, pages, RunSweep(name, cursors[name], lastSync, remote, fuel - calls))
        invariant !more ==> Finished(whole, pages, cursors[name], end)
      {
        pages, end, more := PullRound(name, lastSync, remote, refresh, whole, pages, fuel - calls);
        calls := calls + 1;
      }
    }

    /** One round of the pull: a `list` call with `left` calls left in the
        budget. `more` says whether it asked for another one. */
    method PullRound(name: ModelName, lastSync: Option<int>, remote: ListRemote, refresh: Refresher,
                     ghost whole: Sweep, pages: seq<seq<Entity>>, ghost left: nat)
      returns (pages': seq<seq<Entity>>, end: SweepEnd, more: bool)
      requires Valid() && left > 0
      requires Pending(whole, pages, RunSweep(name, cursors[name], lastSync, remote, left))
      modifies this, refresh
      ensures Valid() && cursors == old(cursors)[name := cursors[name]]
      ensures more ==> end == OutOfFuel && Pending(whole, pages', RunSweep(name, cursors[name], lastSync, remote, left - 1))
      ensures !more ==> Finished(whole, pages', cursors[name], end)
    {
      SweepUnfolds(name, cursors[name], lastSync, remote, left);
      var before := refresh.calls;
      var r := List(name, lastSync, remote, refresh);
      match r
      case Failure(e) =>
        pages', end, more := pages, Aborted(e), false;
      case Success(data) =>
        pages' := pages + [data];
        if refresh.calls == before {
          end, more := Completed, false;
        } else {
          end, more := OutOfFuel, true;
        }
    }
  }

  /** `whole` is `done` followed by the sweep `rest` still to run. */
  ghost predicate Pending(whole: Sweep, done: seq<seq<Entity>>, rest: Sweep) {
    whole.pages == done + rest.pages && whole.cursors == rest.cursors && whole.end == rest.end
  }

  /** `whole` handed back `done`, left `c` and ended with `end`. */
  ghost predicate Finished(whole: Sweep, done: seq<seq<Entity>>, c: Cursors, end: SweepEnd) {
    whole.pages == done && whole.cursors == c && whole.end == end
  }

  /** The record a mutation callback leaves in its input: `accountId`
      stamped, every other field as it was. Stamping twice changes nothing,
      so a retried mutation sends the same record. */
  function Stamped(fields: Entity): (r: Entity)
    ensures r.Keys == fields.Keys + {"accountId"}
    ensures r["accountId"] == Str(AccountId)
    ensures forall k :: k in fields && k != "accountId" ==> r[k] == fields[k]
  {
    fields["accountId" := Str(AccountId)]
  }

  /** The record `delete` leaves in its input: stamped and marked
      `deleted = true`, every other field as it was. */
  function SoftDeleted(fields: Entity): (r: Entity)
    ensures r.Keys == fields.Keys + {"accountId", "deleted"}
    ensures r["accountId"] == Str(AccountId) && r["deleted"] == Bool(true)
    ensures forall k :: k in fields && k != "accountId" && k != "deleted" ==> r[k] == fields[k]
  {
    Stamped(fields)["deleted" := Bool(true)]
  }

  lemma StampingIsIdempotent(fields: Entity)
    ensures Stamped(Stamped(fields)) == Stamped(fields)
    ensures SoftDeleted(SoftDeleted(fields)) == SoftDeleted(fields)
    ensures SoftDeleted(fields) == Stamped(fields["deleted" := Bool(true)])
  {
  }

  /** The backend operations a mutation callback can call. */
  datatype MutationOp = CreateOp | UpdateOp | DeleteOp

  datatype Mutation = Mutation(model: ModelName, op: MutationOp, input: Entity)

  /** A mutation response: `{data, errors}`. */
  datatype MutationResponse = MutationResponse(data: Entity, errors: Option<seq<string>>)

  type MutationRemote = Mutation -> Result<MutationResponse, string>

  /** What a mutation callback returns or throws for a response. */
  function MutationResult(response: Result<MutationResponse, string>): (r: Result<Entity, RemoteError>)
    ensures r.Success? <==> response.Success? && response.value.errors.None?
    ensures r.Success? ==> r.value == response.value.data
    ensures response.Failure? ==> r == Failure(Thrown(response.error))
    ensures response.Success? && response.value.errors.Some? ==>
      r == Failure(Returned(response.value.errors.value))
  {
    match response
    case Failure(e) => Failure(Thrown(e))
    case Success(resp) =>
      if resp.errors.Some? then Failure(Returned(resp.errors.value)) else Success(resp.data)
  }

  /** The `input` object handed to a mutation callback, which the callback
      rewrites in place. */
  class Input {
    var fields: Entity

    constructor (fields: Entity)
      ensures this.fields == fields
    {
      this.fields := fields;
    }
  }

  /** The `create` callback. */
  method Create(name: ModelName, input: Input, remote: MutationRemote) returns (r: Result<Entity, RemoteError>)
    modifies input
    ensures input.fields == Stamped(old(input.fields))
    ensures r == MutationResult(remote(Mutation(name, CreateOp, input.fields)))
  {
    input.fields := input.fields["accountId" := Str(AccountId)];
    var response := remote(Mutation(name, CreateOp, input.fields));
    r := MutationResult(response);
  }

  /** The `update` callback. */
  method Update(name: ModelName, input: Input, remote: MutationRemote) returns (r: Result<Entity, RemoteError>)
    modifies input
    ensures input.fields == Stamped(old(input.fields))
    ensures r == MutationResult(remote(Mutation(name, UpdateOp, input.fields)))
  {
    input.fields := input.fields["accountId" := Str(AccountId)];
    var response := remote(Mutation(name, UpdateOp, input.fields));
    r := MutationResult(response);
  }

  /** The `delete` callback: a soft delete, sent as an update. */
  method Delete(name: ModelName, input: Input, remote: MutationRemote) returns (r: Result<Entity, RemoteError>)
    modifies input
    ensures input.fields == SoftDeleted(old(input.fields))
    ensures r == MutationResult(remote(Mutation(name, UpdateOp, input.fields)))
  {
    input.fields := input.fields["accountId" := Str(AccountId)];
    input.fields := input.fields["deleted" := Bool(true)];
    var response := remote(Mutation(name, UpdateOp, input.fields));
    r := MutationResult(response);
  }

  /** The three change channels `subscribe` opens on a collection. */
  datatype Channel = OnCreate | OnUpdate | OnDelete

  /** The `subscribe` callback and the teardown it returns: every event on
      an open channel calls `refresh`. */
  class ChangeFeed {
    const refresh: Refresher
    var open: set<Channel>

    constructor (refresh: Refresher)
      ensures this.refresh == refresh && open == {}
    {
      this.refresh := refresh;
      open := {};
    }

    method Subscribe()
      modifies this
      ensures open == old(open) + {OnCreate, OnUpdate, OnDelete}
    {
      open := open + {OnCreate};
      open := open + {OnUpdate};
      open := open + {OnDelete};
    }

    /** An event arriving on `channel`. */
    method Event(channel: Channel)
      modifies refresh
      ensures refresh.calls == old(refresh.calls) + (if channel in open then 1 else 0)
    {
      if channel in open {
        refresh.Refresh();
      }
    }

    /** The teardown function `subscribe` returns. */
    method Unsubscribe()
      modifies this
      ensures open == old(open) - {OnCreate, OnUpdate, OnDelete}
      ensures open == {}
    {
      open := open - {OnCreate};
      open := open - {OnUpdate};
      open := open - {OnDelete};
      forall channel: Channel | channel in open
        ensures false
      {
        match channel
        case OnCreate =>
        case OnUpdate =>
        case OnDelete =>
      }
    }
  }

  /** A plain JavaScript object: its own keys in enumeration order and the
      value under each. */
  datatype Table<T> = Table(keys: seq<string>, entries: map<string, T>)

  ghost predicate IsObject<T>(t: Table<T>) {
    && (forall i, j :: 0 <= i < j < |t.keys| ==> t.keys[i] != t.keys[j])
    && (forall k :: k in t.entries <==> k in t.keys)
  }

  type Object<T> = t: Table<T> | IsObject(t) witness Table([], map[])

  lemma {:induction false} DistinctKeysCount(keys: seq<string>)
    requires forall i, j :: 0 <= i < j < |keys| ==> keys[i] != keys[j]
    ensures |set k | k in keys| == |keys|
  {
    if keys != [] {
      DistinctKeysCount(keys[1..]);
      assert (set k | k in keys) == (set k | k in keys[1..]) + {keys[0]};
      assert keys[0] !in keys[1..] by {
        forall j | 0 <= j < |keys[1..]|
          ensures keys[1..][j] != keys[0]
        {
          assert keys[1..][j] == keys[j + 1];
        }
      }
    }
  }

  lemma ObjectKeyCount<T>(t: Object<T>)
    ensures |t.entries| == |t.keys|
  {
    DistinctKeysCount(t.keys);
    assert t.entries.Keys == set k | k in t.keys;
  }

  /** `countKeys`: 0 for `null`/`undefined`, otherwise the number of keys. */
  function CountKeys<T>(all: Option<Object<T>>): (n: nat)
    ensures all.None? ==> n == 0
    ensures all.Some? ==> n == |all.value.entries|
  {
    match all
    case None => 0
    case Some(t) => ObjectKeyCount(t); |t.keys|
  }

  /** `listFromObject`: the values of the object in key order, nothing for
      `null`/`undefined`. */
  function ListFromObject<T>(all: Option<Object<T>>): (r: seq<T>)
    ensures |r| == CountKeys(all)
    ensures all.Some? ==> forall i :: 0 <= i < |r| ==> r[i] == all.value.entries[all.value.keys[i]]
    ensures all.Some? ==> forall k :: k in all.value.entries ==> all.value.entries[k] in r
  {
    match all
    case None => []
    case Some(t) =>
      var r := seq(|t.keys|, i requires 0 <= i < |t.keys| => t.entries[t.keys[i]]);
      assert forall k :: k in t.entries ==> t.entries[k] in r by {
        forall k | k in t.entries
          ensures t.entries[k] in r
        {
          var i :| 0 <= i < |t.keys| && t.keys[i] == k;
          assert r[i] == t.entries[k];
        }
      }
      r
  }

  /** `+new Date(x.createdAt.get()!)`: the record's creation time in
      milliseconds, `None` where it is NaN. That happens for a record the
      app has created itself and the backend has not yet answered for,
      since such a record has no `createdAt`. */
  type SortKey = Entity -> Option<int>

  /** Every record has a creation time, so the comparator is consistent. */
  predicate AllTimed(xs: seq<Entity>, createdAt: SortKey) {
    forall i :: 0 <= i < |xs| ==> createdAt(xs[i]).Some?
  }

  /** The key `SortBy` compares. It is only used where every key is a
      number. */
  function Millis(createdAt: SortKey): Entity -> int {
    e => createdAt(e).GetOr(0)
  }

  /** `Todo.list`: the collection's records, newest `createdAt` first.
      When some record has no time, the comparator answers NaN, which the
      engine reads as "equal". The comparator is then not consistent and
      the order is the engine's: `engineOrder`, of which only that it
      permutes its input is known. */
  function TodoList(all: Option<Object<Entity>>, createdAt: SortKey,
                    engineOrder: seq<Entity> -> seq<Entity>): (r: seq<Entity>)
    requires forall xs :: multiset(engineOrder(xs)) == multiset(xs)
    ensures multiset(r) == multiset(ListFromObject(all))
    ensures |r| == CountKeys(all)
    ensures AllTimed(ListFromObject(all), createdAt) ==> Sorted(r, Millis(createdAt), Descending)
  {
    var xs := ListFromObject(all);
    var r := if AllTimed(xs, createdAt) then SortBy(xs, Millis(createdAt), Descending) else engineOrder(xs);
    assert |r| == |multiset(r)|;
    r
  }

}
