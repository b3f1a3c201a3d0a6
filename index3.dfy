/** The earlier CRUD adapter of app/index3.tsx (`amplifyCrud`). It keeps
    only a `nextToken` per collection; every `list` call recomputes its
    filter from the library's `lastSync` as the inclusive range
    `between [lastSync || 0, year 2099]`. The mutation callbacks also
    write the current time into `Todo.touched`. */
module Index3 {
  import opened Common
  import opened ArraySort
  import Amplify

  /** `DateTime.fromObject({year: 2099})`, 2099-01-01T00:00:00Z, in
      milliseconds. */
  const Future: int := 4070908800000

  /** Page size each collection is declared with (none for `Client`). */
  function Limit(name: ModelName): Option<int> {
    match name
    case Client => None
    case Todo => Some(100)
  }

  /** Arguments of `list<Model>ByAccountIdAndUpdatedAt` with the filter
      `{accountId, updatedAt: {between: [from, to]}}`. */
  datatype Query = Query(
    model: ModelName,
    accountId: string,
    updatedAtFrom: int,
    updatedAtTo: int,
    limit: Option<int>,
    nextToken: Option<string>,
    sortDirection: Direction)

  /** `between` is inclusive at both ends. */
  predicate Selects(q: Query, updatedAt: int) {
    q.updatedAtFrom <= updatedAt <= q.updatedAtTo
  }

  type ListRemote = Query -> Result<Amplify.Page, string>

  /** The effect of one `list` call on the stored token, the query it sends,
      what it returns or throws, and whether it called `refresh`. */
  datatype Step = Step(
    nextToken: Option<string>,
    query: Query,
    result: Result<seq<Entity>, Amplify.RemoteError>,
    refresh: bool)

  function ListStep(name: ModelName, token: Option<string>, lastSync: Option<int>, remote: ListRemote): (st: Step)
    // the range is recomputed from `lastSync` on every call; the stored token is sent
    ensures st.query.updatedAtFrom == OrZero(lastSync) && st.query.updatedAtTo == Future
    ensures st.query.nextToken == token
    ensures st.query.model == name && st.query.accountId == Amplify.AccountId
    ensures st.query.limit == Limit(name) && st.query.sortDirection == Descending
    // a throw leaves the token alone
    ensures st.result.Failure? <==> remote(st.query).Failure? || remote(st.query).value.errors.Some?
    ensures st.result.Failure? ==> !st.refresh && st.nextToken == token
    ensures remote(st.query).Failure? ==> st.result == Failure(Amplify.Thrown(remote(st.query).error))
    ensures remote(st.query).Success? && remote(st.query).value.errors.Some? ==>
      st.result == Failure(Amplify.Returned(remote(st.query).value.errors.value))
    ensures st.result.Success? ==> st.result.value == remote(st.query).value.data
    // a token is stored and `refresh` requested; no token clears it
    ensures st.refresh <==> st.result.Success? && Amplify.Truthy(remote(st.query).value.nextToken)
    ensures st.refresh ==> st.nextToken == remote(st.query).value.nextToken
    ensures st.result.Success? && !st.refresh ==> st.nextToken == None
  {
    var query := Query(name, Amplify.AccountId, OrZero(lastSync), Future, Limit(name), token, Descending);
    match remote(query)
    case Failure(e) => Step(token, query, Failure(Amplify.Thrown(e)), false)
    case Success(page) =>
      if page.errors.Some? then Step(token, query, Failure(Amplify.Returned(page.errors.value)), false)
      else if Amplify.Truthy(page.nextToken) then Step(page.nextToken, query, Success(page.data), true)
      else Step(None, query, Success(page.data), false)
  }

  datatype Sweep = Sweep(
    queries: seq<Query>,
    pages: seq<seq<Entity>>,
    nextToken: Option<string>,
    end: Amplify.SweepEnd)

  /** `list` called again as long as the previous call requested `refresh`,
      at most `fuel` times, with the same `lastSync` throughout. */
  function RunSweep(name: ModelName, token: Option<string>, lastSync: Option<int>, remote: ListRemote, fuel: nat): Sweep
    decreases fuel
  {
    if fuel == 0 then Sweep([], [], token, Amplify.OutOfFuel)
    else
      var st := ListStep(name, token, lastSync, remote);
      match st.result
      case Failure(e) => Sweep([st.query], [], st.nextToken, Amplify.Aborted(e))
      case Success(data) =>
        if st.refresh then
          var rest := RunSweep(name, st.nextToken, lastSync, remote, fuel - 1);
          Sweep([st.query] + rest.queries, [data] + rest.pages, rest.nextToken, rest.end)
        else Sweep([st.query], [data], st.nextToken, Amplify.Completed)
  }

  /** Every query in `qs` is `name`'s list query over `[from, to]`. */
  ghost predicate QueriedBetween(qs: seq<Query>, name: ModelName, from: int, to: int) {
    forall i :: 0 <= i < |qs| ==>
      qs[i].updatedAtFrom == from && qs[i].updatedAtTo == to && qs[i].model == name &&
      qs[i].accountId == Amplify.AccountId && qs[i].limit == Limit(name) &&
      qs[i].sortDirection == Descending
  }

  /** Every page of a sweep is queried over `[lastSync || 0, Future]`. */
  lemma {:induction false} SweepRangeFromLastSync(name: ModelName, token: Option<string>, lastSync: Option<int>, remote: ListRemote, fuel: nat)
    ensures QueriedBetween(RunSweep(name, token, lastSync, remote, fuel).queries, name, OrZero(lastSync), Future)
    decreases fuel
  {
    if fuel > 0 {
      var st := ListStep(name, token, lastSync, remote);
      if st.result.Success? && st.refresh {
        SweepRangeFromLastSync(name, st.nextToken, lastSync, remote, fuel - 1);
        var rest := RunSweep(name, st.nextToken, lastSync, remote, fuel - 1);
        assert RunSweep(name, token, lastSync, remote, fuel).queries == [st.query] + rest.queries;
      }
    }
  }

  /** The first page is asked for with the stored token, every later page
      with the token the previous page returned. */
  lemma {:induction false} SweepFollowsTokens(name: ModelName, token: Option<string>, lastSync: Option<int>, remote: ListRemote, fuel: nat)
    ensures var t := RunSweep(name, token, lastSync, remote, fuel);
      && (|t.queries| > 0 ==> t.queries[0].nextToken == token)
      && forall i :: 0 <= i < |t.queries| - 1 ==>
           && remote(t.queries[i]).Success?
           && remote(t.queries[i]).value.errors.None?
           && Amplify.Truthy(remote(t.queries[i]).value.nextToken)
           && t.queries[i + 1].nextToken == remote(t.queries[i]).value.nextToken
    decreases fuel
  {
    if fuel > 0 {
      var st := ListStep(name, token, lastSync, remote);
      if st.result.Success? && st.refresh {
        SweepFollowsTokens(name, st.nextToken, lastSync, remote, fuel - 1);
        var t := RunSweep(name, token, lastSync, remote, fuel);
        var rest := RunSweep(name, st.nextToken, lastSync, remote, fuel - 1);
        assert t.queries == [st.query] + rest.queries;
        forall i | 0 <= i < |t.queries| - 1
          ensures t.queries[i + 1] == rest.queries[i]
          ensures i > 0 ==> t.queries[i] == rest.queries[i - 1]
        {
        }
      }
    }
  }

  /** A completed sweep leaves no token; a sweep that threw leaves the
      token of the page that failed. */
  lemma {:induction false} SweepLeavesToken(name: ModelName, token: Option<string>, lastSync: Option<int>, remote: ListRemote, fuel: nat)
    ensures var t := RunSweep(name, token, lastSync, remote, fuel);
      && (t.end.Completed? ==> t.nextToken == None && |t.queries| > 0)
      && (t.end.Aborted? ==> |t.queries| > 0 && t.nextToken == t.queries[|t.queries| - 1].nextToken)
      && (t.end.OutOfFuel? ==> |t.queries| == fuel)
    decreases fuel
  {
    if fuel > 0 {
      var st := ListStep(name, token, lastSync, remote);
      if st.result.Success? && st.refresh {
        SweepLeavesToken(name, st.nextToken, lastSync, remote, fuel - 1);
        var t := RunSweep(name, token, lastSync, remote, fuel);
        var rest := RunSweep(name, st.nextToken, lastSync, remote, fuel - 1);
        assert t.queries == [st.query] + rest.queries;
        if t.end.Aborted? {
          assert t.queries[|t.queries| - 1] == rest.queries[|rest.queries| - 1];
        }
      }
    }
  }

  /** The two adapters disagree at the watermark. Starting a sweep with no
      cursor stored, the Amplify.ts adapter's strict `gt` leaves out every
      record whose `updatedAt` is exactly `lastSync || 0`, on every page;
      this adapter's inclusive `between` asks for it on every page. */
  lemma WatermarkRecord(name: ModelName, token: Option<string>, lastSync: Option<int>,
                        remote1: Amplify.ListRemote, remote3: ListRemote, fuel: nat)
    requires OrZero(lastSync) <= Future
    ensures var t1 := Amplify.RunSweep(name, Amplify.Cursors(None, token), lastSync, remote1, fuel);
      forall i :: 0 <= i < |t1.queries| ==> !Amplify.Selects(t1.queries[i], OrZero(lastSync))
    ensures var t3 := RunSweep(name, token, lastSync, remote3, fuel);
      forall i :: 0 <= i < |t3.queries| ==> Selects(t3.queries[i], OrZero(lastSync))
  {
    Amplify.SweepKeepsCursor(name, Amplify.Cursors(None, token), lastSync, remote1, fuel);
    SweepRangeFromLastSync(name, token, lastSync, remote3, fuel);
  }

  /** After a sweep that threw, the retry of this adapter sends the token
      of the failed page together with a range computed from the new
      `lastSync`, where the Amplify.ts adapter keeps its captured bound. */
  lemma RetryUsesNewRange(name: ModelName, token: Option<string>, w1: Option<int>, w2: Option<int>,
                          remote1: ListRemote, remote2: ListRemote, fuel1: nat, fuel2: nat)
    requires RunSweep(name, token, w1, remote1, fuel1).end.Aborted?
    ensures var t1 := RunSweep(name, token, w1, remote1, fuel1);
      var t2 := RunSweep(name, t1.nextToken, w2, remote2, fuel2);
      && (|t2.queries| > 0 ==> t2.queries[0].nextToken == t1.queries[|t1.queries| - 1].nextToken)
      && QueriedBetween(t2.queries, name, OrZero(w2), Future)
  {
    var t1 := RunSweep(name, token, w1, remote1, fuel1);
    SweepLeavesToken(name, token, w1, remote1, fuel1);
    SweepRangeFromLastSync(name, t1.nextToken, w2, remote2, fuel2);
    SweepFollowsTokens(name, t1.nextToken, w2, remote2, fuel2);
  }

  /** `count`: 0 for a falsy object, otherwise its number of keys; the
      same as the Amplify.ts adapter's `countKeys`. */
  function Count<T>(obj: Option<Amplify.Object<T>>): (n: nat)
    ensures obj.None? ==> n == 0
    ensures obj.Some? ==> n == |obj.value.entries|
    ensures n == Amplify.CountKeys(obj)
  {
    match obj
    case None => 0
    case Some(t) => Amplify.ObjectKeyCount(t); |t.keys|
  }

  /** A collection's `count`: 0 until the sync state reports it loaded. */
  function StoreCount<T>(isLoaded: bool, all: Option<Amplify.Object<T>>): (n: nat)
    ensures !isLoaded ==> n == 0
    ensures isLoaded ==> n == Count(all)
    ensures isLoaded && all.Some? ==> n == |all.value.entries|
    ensures isLoaded && all.None? ==> n == 0
  {
    if isLoaded then Count(all) else 0
  }

  /** `Todo.list`: the collection's records, oldest `createdAt` first.
      Records without a time (the ones "Add Todo" creates) make the
      comparator inconsistent, and the order is then the engine's, as in
      `Amplify.TodoList`. */
  function TodoList(all: Option<Amplify.Object<Entity>>, createdAt: Amplify.SortKey,
                    engineOrder: seq<Entity> -> seq<Entity>): (r: seq<Entity>)
    requires forall xs :: multiset(engineOrder(xs)) == multiset(xs)
    ensures multiset(r) == multiset(Amplify.ListFromObject(all))
    ensures |r| == Count(all)
    ensures Amplify.AllTimed(Amplify.ListFromObject(all), createdAt) ==>
      Sorted(r, Amplify.Millis(createdAt), Ascending)
  {
    var xs := Amplify.ListFromObject(all);
    var r := if Amplify.AllTimed(xs, createdAt) then SortBy(xs, Amplify.Millis(createdAt), Ascending)
             else engineOrder(xs);
    assert |r| == |multiset(r)|;
    r
  }


  /** `whole` is `done` followed by the sweep `rest` still to run. */
  ghost predicate Pending(whole: Sweep, done: seq<seq<Entity>>, rest: Sweep) {
    whole.pages == done + rest.pages && whole.nextToken == rest.nextToken && whole.end == rest.end
  }

  /** `whole` handed back `done`, left `token` and ended with `end`. */
  ghost predicate Finished(whole: Sweep, done: seq<seq<Entity>>, token: Option<string>, end: Amplify.SweepEnd) {
    whole.pages == done && whole.nextToken == token && whole.end == end
  }

  /** The store fields this adapter writes: `data$[name].nextToken` and
      `data$.Todo.touched`. */
  class DataStore {
    var nextToken: map<ModelName, Option<string>>
    var touched: int

    ghost predicate Valid()
      reads this
    {
      Client in nextToken && Todo in nextToken
    }

    constructor ()
      ensures Valid() && nextToken == map[Client := None, Todo := None] && touched == 0
    {
      nextToken := map[Client := None, Todo := None];
      touched := 0;
    }

    /** The `list` callback. */
    method List(name: ModelName, lastSync: Option<int>, remote: ListRemote, refresh: Refresher)
      returns (r: Result<seq<Entity>, Amplify.RemoteError>)
      requires Valid()
      modifies this, refresh
      ensures Valid() && touched == old(touched)
      ensures var st := ListStep(name, old(nextToken[name]), lastSync, remote);
        && nextToken == old(nextToken)[name := st.nextToken]
        && r == st.result
        && refresh.calls == old(refresh.calls) + (if st.refresh then 1 else 0)
    {
      var query := Query(name, Amplify.AccountId, OrZero(lastSync), Future, Limit(name),
                         nextToken[name], Descending);
      var response := remote(query);
      match response
      case Failure(e) =>
        r := Failure(Amplify.Thrown(e));
      case Success(page) =>
        if page.errors.Some? {
          r := Failure(Amplify.Returned(page.errors.value));
        } else if Amplify.Truthy(page.nextToken) {
          nextToken := nextToken[name := page.nextToken];
          refresh.Refresh();
          r := Success(page.data);
        } else {
          nextToken := nextToken[name := None];
          r := Success(page.data);
        }
    }

    /** The sync library's pull: call `list` again while the previous call
        requested `refresh`, at most `fuel` calls, with the same `lastSync`. */
    method Pull(name: ModelName, lastSync: Option<int>, remote: ListRemote, fuel: nat)
      returns (pages: seq<seq<Entity>>, end: Amplify.SweepEnd)
      requires Valid()
      modifies this
      ensures Valid() && touched == old(touched)
      ensures var t := RunSweep(name, old(nextToken[name]), lastSync, remote, fuel);
        nextToken == old(nextToken)[name := t.nextToken] && pages == t.pages && end == t.end
    {
      var refresh := new Refresher();
      ghost var whole := RunSweep(name, nextToken[name], lastSync, remote, fuel);
      pages, end := [], Amplify.OutOfFuel;
      var calls: nat, more := 0, true;
      while more && calls < fuel
        invariant Valid() && calls <= fuel && touched == old(touched)
        invariant nextToken == old(nextToken)[name := nextToken[name]]
        invariant more ==> end == Amplify.OutOfFuel
        invariant more ==> Pending(whole, pages, RunSweep(name, nextToken[name], lastSync, remote, fuel - calls))
        invariant !more ==> Finished(whole, pages, nextToken[name], end)
      {
        pages, end, more := PullRound(name, lastSync, remote, refresh, whole, pages, fuel - calls);
        calls := calls + 1;
      }
    }

    /** One round of the pull: a `list` call with `left` calls left in the
        budget. `more` says whether it asked for another one. */
    method PullRound(name: ModelName, lastSync: Option<int>, remote: ListRemote, refresh: Refresher,
                     ghost whole: Sweep, pages: seq<seq<Entity>>, ghost left: nat)
      returns (pages': seq<seq<Entity>>, end: Amplify.SweepEnd, more: bool)
      requires Valid() && left > 0
      requires Pending(whole, pages, RunSweep(name, nextToken[name], lastSync, remote, left))
      modifies this, refresh
      ensures Valid() && touched == old(touched) && nextToken == old(nextToken)[name := nextToken[name]]
      ensures more ==> end == Amplify.OutOfFuel
      ensures more ==> Pending(whole, pages', RunSweep(name, nextToken[name], lastSync, remote, left - 1))
      ensures !more ==> Finished(whole, pages', nextToken[name], end)
    {
      var before := refresh.calls;
      var r := List(name, lastSync, remote, refresh);
      match r
      case Failure(e) =>
        pages', end, more := pages, Amplify.Aborted(e), false;
      case Success(data) =>
        pages' := pages + [data];
        if refresh.calls == before {
          end, more := Amplify.Completed, false;
        } else {
          end, more := Amplify.OutOfFuel, true;
        }
    }

    /** The `create` callback; `now` is `DateTime.now()` in milliseconds.
        The `touched` it writes is always that of `Todo`, whichever
        collection `name` is. */
    method Create(name: ModelName, input: Amplify.Input, remote: Amplify.MutationRemote, now: int)
      returns (r: Result<Entity, Amplify.RemoteError>)
      modifies this`touched, input
      ensures touched == now
      ensures input.fields == Amplify.Stamped(old(input.fields))
      ensures r == Amplify.MutationResult(remote(Amplify.Mutation(name, Amplify.CreateOp, input.fields)))
    {
      touched := now;
      input.fields := input.fields["accountId" := Str(Amplify.AccountId)];
      var response := remote(Amplify.Mutation(name, Amplify.CreateOp, input.fields));
      r := Amplify.MutationResult(response);
    }

    /** The `update` callback. */
    method Update(name: ModelName, input: Amplify.Input, remote: Amplify.MutationRemote, now: int)
      returns (r: Result<Entity, Amplify.RemoteError>)
      modifies this`touched, input
      ensures touched == now
      ensures input.fields == Amplify.Stamped(old(input.fields))
      ensures r == Amplify.MutationResult(remote(Amplify.Mutation(name, Amplify.UpdateOp, input.fields)))
    {
      touched := now;
      input.fields := input.fields["accountId" := Str(Amplify.AccountId)];
      var response := remote(Amplify.Mutation(name, Amplify.UpdateOp, input.fields));
      r := Amplify.MutationResult(response);
    }

    /** The `delete` callback: a soft delete, sent as an update. */
    method Delete(name: ModelName, input: Amplify.Input, remote: Amplify.MutationRemote, now: int)
      returns (r: Result<Entity, Amplify.RemoteError>)
      modifies this`touched, input
      ensures touched == now
      ensures input.fields == Amplify.SoftDeleted(old(input.fields))
      ensures r == Amplify.MutationResult(remote(Amplify.Mutation(name, Amplify.UpdateOp, input.fields)))
    {
      touched := now;
      input.fields := input.fields["accountId" := Str(Amplify.AccountId)];
      input.fields := input.fields["deleted" := Bool(true)];
      var response := remote(Amplify.Mutation(name, Amplify.UpdateOp, input.fields));
      r := Amplify.MutationResult(response);
    }
  }
}
