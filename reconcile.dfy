/**
 * The database resources' Read, Create, Update and Delete. The API client
 * is an oracle: its i-th call, whatever it is, gets the i-th answer, so the
 * retry and poll loops run against every possible sequence of successes and
 * failures. Each method is proved against a function that computes, from
 * the answers, the diagnostics it adds, what it does to the stored state,
 * whether it panics and which calls it makes.
 */
module Reconcile {
  import opened Framework
  import opened Sdk
  import opened Quote
  import opened Convert
  import opened Requests

  /** Consecutive failed reads after which a loop gives up. */
  const MaxStrikes: nat := 3

  /** `CREATE_RETRY_LIMIT / sleepFor`: thirty minutes of polls thirty seconds apart. */
  const RetryLimit: nat := 60

  /** The propagation reads after an update. */
  const UpdatePolls: nat := 10

  /** The database a get or delete request names. */
  datatype Target = Target(uuid: string, organization: string, project: string)

  /** A call to the API client. */
  datatype Call =
    | CreateCall(create: CreateRequest)
    | UpdateCall(update: UpdateRequest)
    | GetCall(get: Target)
    | DeleteCall(delete: Target)

  /** `n` get calls for the same database. */
  function Gets(t: Target, n: nat): (r: seq<Call>)
    ensures |r| == n && forall i | 0 <= i < n :: r[i] == GetCall(t)
  {
    if n == 0 then [] else Gets(t, n - 1) + [GetCall(t)]
  }

  /** The client: every call is logged and answered by the oracle in turn. */
  class Client {
    var log: seq<Call>
    const answers: nat -> Result<Database>

    constructor (answers: nat -> Result<Database>)
      ensures log == [] && this.answers == answers
    {
      log := [];
      this.answers := answers;
    }

    method Send(c: Call) returns (r: Result<Database>)
      modifies this
      ensures log == old(log) + [c]
      ensures r == answers(|old(log)|)
    {
      r := answers(|log|);
      log := log + [c];
    }
  }

  /** What a handler leaves in the response: its diagnostics, the state, and whether it panicked. */
  class Response {
    var diagnostics: seq<Diagnostic>
    var state: Option<DatabaseModel>
    var panicked: bool

    /** The framework hands each call a response holding the current state and no diagnostics. */
    constructor (state: Option<DatabaseModel>)
      ensures diagnostics == [] && this.state == state && !panicked
    {
      diagnostics := [];
      this.state := state;
      panicked := false;
    }
  }

  // ---------------------------------------------------------------------
  // The diagnostics the handlers add

  const ReadSummary: string := "Unable to Read database"
  const CreateSummary: string := "Error creating database"
  const CreateDetail: string := "Could not create database, unexpected error: "
  const LimitSummary: string := "RetryLimit reached during wait_for_creation"
  const LimitDetail: string := "The retry limit of 30m0s was reached while waiting for creation of database"
  const WaitSummary: string := "Error read database during wait"
  const WaitDetail: string := "Could not read database during wait, unexpected error: "
  const UpdateSummary: string := "Error updating database"
  const UpdateDetail: string := "Could not update database, unexpected error: "
  const PollSummary: string := "Error reading updated database"
  const PollDetail: string := "Could not read updated database, unexpected error: "
  const DeleteSummary: string := "Unable to Delete Database"

  function ReadFailed(m: string): Diagnostic
  {
    Error(ReadSummary, m)
  }

  function CreateFailed(m: string): Diagnostic
  {
    Error(CreateSummary, CreateDetail + m)
  }

  function LimitHit(): Diagnostic
  {
    Error(LimitSummary, LimitDetail)
  }

  function WaitFailed(m: string): Diagnostic
  {
    Error(WaitSummary, WaitDetail + m)
  }

  function UpdateFailed(m: string): Diagnostic
  {
    Error(UpdateSummary, UpdateDetail + m)
  }

  function PollFailed(m: string): Diagnostic
  {
    Error(PollSummary, PollDetail + m)
  }

  function DeleteFailed(m: string): Diagnostic
  {
    Error(DeleteSummary, m)
  }

  // ---------------------------------------------------------------------
  // The converters of each version

  function CreateToModel(v: Version, db: Database, plan: DatabaseModel): Outcome<(DatabaseModel, seq<Diagnostic>)>
  {
    if v == V1 then CreateResponseToModel(db, plan) else CreateResponseToModelV2(db, plan)
  }

  function GetToModel(v: Version, db: Database, previous: DatabaseModel): Outcome<(DatabaseModel, seq<Diagnostic>)>
  {
    if v == V1 then GetResponseToModel(db, previous) else GetResponseToModelV2(db, previous)
  }

  /**
   * A response converter, as the handlers see it: the loops below only pass
   * it the answer and the plan or prior state, and are proved for any
   * converter; the resources hold the converters of their version.
   */
  type Converter = (Database, DatabaseModel) -> Outcome<(DatabaseModel, seq<Diagnostic>)>

  function CreateConverter(v: Version): Converter
  {
    (db, plan) => CreateToModel(v, db, plan)
  }

  function GetConverter(v: Version): Converter
  {
    (db, previous) => GetToModel(v, db, previous)
  }

  // ---------------------------------------------------------------------
  // What a handler does, computed from the answers

  /** The effect on the stored state: none, `State.Set`, or `RemoveResource`. */
  datatype Write = Kept | Set(model: DatabaseModel) | Removed

  function Apply(s: Option<DatabaseModel>, w: Write): Option<DatabaseModel>
  {
    match w
    case Kept => s
    case Set(m) => Some(m)
    case Removed => None
  }

  /** A handler's diagnostics, state write, panic and calls. */
  datatype Effect = Effect(diags: seq<Diagnostic>, write: Write, panicked: bool, calls: seq<Call>)

  /** The read `Read` retries: the first success or the last of three failures, and the next answer. */
  function Retry(answers: nat -> Result<Database>, at: nat, strikes: nat): (r: (Result<Database>, nat))
    requires strikes < MaxStrikes
    ensures at < r.1 <= at + MaxStrikes - strikes
    decreases MaxStrikes - strikes
  {
    match answers(at)
    case Ok(db) => (Ok(db), at + 1)
    case Err(m) => if strikes + 1 >= MaxStrikes then (Err(m), at + 1) else Retry(answers, at + 1, strikes + 1)
  }

  /** `Read`: retry the get, convert with the prior state as the previous state, store unless it reports an error. */
  function ReadEffect(toModel: Converter, answers: nat -> Result<Database>, at: nat, t: Target, prior: DatabaseModel): Effect
  {
    var (got, next) := Retry(answers, at, 0);
    var calls := Gets(t, next - at);
    match got
    case Err(m) => Effect([ReadFailed(m)], Kept, false, calls)
    case Ok(db) =>
      match toModel(db, prior)
      case Panicked => Effect([], Kept, true, calls)
      case Returned(x) => Effect(x.1, if HasError(x.1) then Kept else Set(x.0), false, calls)
  }

  /** Where a poll loop stands: still polling after `strikes` failures in a row, or how it ended. */
  datatype Phase = Running(strikes: nat) | Done | LimitReached | Aborted(message: string) | PollPanicked

  /**
   * The variables of a poll loop: the diagnostics it has added, the model
   * it holds, its phase, the index of the next unused answer and its
   * iteration counter.
   */
  datatype Polling = Polling(diags: seq<Diagnostic>, model: Option<DatabaseModel>, phase: Phase,
                             next: nat, counter: nat)

  /** A poll loop before its first iteration, holding `model`, with answer `at` next. */
  function Initial(model: Option<DatabaseModel>, at: nat): Polling
  {
    Polling([], model, Running(0), at, 0)
  }

  /** The bounds the wait loop of `Create` keeps; it always holds a model. */
  predicate Waiting(s: Polling)
  {
    s.counter <= RetryLimit && s.model.Some? && (s.phase.Running? ==> s.phase.strikes < MaxStrikes)
  }

  /**
   * One iteration of the wait loop of `Create`: stop when the model's
   * status is ready or after `RetryLimit` successful polls; otherwise one
   * get, whose failure counts a strike (the third in a row aborts) and
   * whose success is converted with the plan as the previous state.
   */
  function WaitStep(toModel: Converter, answers: nat -> Result<Database>, plan: DatabaseModel, ready: string,
                    s: Polling): (r: Polling)
    requires Waiting(s) && s.phase.Running?
    ensures Waiting(r) && s.counter <= r.counter
    ensures r.phase.Running? ==> r.next == s.next + 1
    ensures r.phase.Running? ==>
      r.counter == s.counter + 1 || (r.counter == s.counter && r.phase.strikes == s.phase.strikes + 1)
    ensures r.next == s.next || r.next == s.next + 1
  {
    if ValueString(s.model.value.status) == ready then s.(phase := Done)
    else if s.counter == RetryLimit then s.(phase := LimitReached)
    else
      match answers(s.next)
      case Err(m) =>
        if s.phase.strikes + 1 >= MaxStrikes then s.(phase := Aborted(m), next := s.next + 1)
        else s.(phase := Running(s.phase.strikes + 1), next := s.next + 1)
      case Ok(db) =>
        match toModel(db, plan)
        case Panicked => s.(phase := PollPanicked, next := s.next + 1)
        case Returned(x) => Polling(s.diags + x.1, Some(x.0), Running(0), s.next + 1, s.counter + 1)
  }

  /** The wait loop of `Create` from the state `s` to its end. */
  function Wait(toModel: Converter, answers: nat -> Result<Database>, plan: DatabaseModel, ready: string,
                s: Polling): (r: Polling)
    requires Waiting(s)
    ensures Waiting(r) && !r.phase.Running? && s.next <= r.next && s.counter <= r.counter
    decreases if s.phase.Running? then 1 else 0, RetryLimit - s.counter,
              if s.phase.Running? then MaxStrikes - s.phase.strikes else 0
  {
    if !s.phase.Running? then s else Wait(toModel, answers, plan, ready, WaitStep(toModel, answers, plan, ready, s))
  }

  /** The bounds the propagation loop of `Update` keeps; it has no limit to reach. */
  predicate Propagating(s: Polling)
  {
    s.counter <= UpdatePolls && !s.phase.LimitReached? && (s.phase.Running? ==> s.phase.strikes < MaxStrikes)
  }

  /**
   * One iteration of the reads after an update: exactly `UpdatePolls`
   * iterations, failed reads included, each success converted with the
   * plan as the previous state and held; the third failure in a row aborts.
   */
  function PropagateStep(toModel: Converter, answers: nat -> Result<Database>, plan: DatabaseModel,
                         s: Polling): (r: Polling)
    requires Propagating(s) && s.phase.Running?
    ensures Propagating(r)
    ensures r.phase.Running? ==> r.next == s.next + 1 && r.counter == s.counter + 1
    ensures !r.phase.Running? ==> r.counter == s.counter && (r.phase.Done? <==> r.next == s.next)
  {
    if s.counter == UpdatePolls then s.(phase := Done)
    else
      match answers(s.next)
      case Err(m) =>
        if s.phase.strikes + 1 >= MaxStrikes then s.(phase := Aborted(m), next := s.next + 1)
        else s.(phase := Running(s.phase.strikes + 1), next := s.next + 1, counter := s.counter + 1)
      case Ok(db) =>
        match toModel(db, plan)
        case Panicked => s.(phase := PollPanicked, next := s.next + 1)
        case Returned(x) => Polling(s.diags + x.1, Some(x.0), Running(0), s.next + 1, s.counter + 1)
  }

  /** The reads after an update from the state `s` to their end. */
  function Propagate(toModel: Converter, answers: nat -> Result<Database>, plan: DatabaseModel,
                     s: Polling): (r: Polling)
    requires Propagating(s)
    ensures Propagating(r) && !r.phase.Running? && s.next <= r.next
    decreases if s.phase.Running? then 1 else 0, UpdatePolls - s.counter
  {
    if !s.phase.Running? then s else Propagate(toModel, answers, plan, PropagateStep(toModel, answers, plan, s))
  }

  /** The wait of `Create` for the database `t`, from the model of the create answer. */
  function WaitEffect(getModel: Converter, answers: nat -> Result<Database>, at: nat, t: Target,
                      plan: DatabaseModel, ready: string, target: DatabaseModel): Effect
  {
    var p := Wait(getModel, answers, plan, ready, Initial(Some(target), at));
    var calls := Gets(t, p.next - at);
    if p.phase.Aborted? then Effect(p.diags + [WaitFailed(p.phase.message)], Kept, false, calls)
    else if p.phase.PollPanicked? then Effect(p.diags, Kept, true, calls)
    else if p.phase.LimitReached? then Effect(p.diags + [LimitHit()], Set(p.model.value), false, calls)
    else Effect(p.diags, Set(p.model.value), false, calls)
  }

  /**
   * `Create` once the plan has become the request `req`: one create call,
   * the conversion of its answer, and the wait when it is switched on.
   */
  function CreateEffect(createModel: Converter, getModel: Converter, answers: nat -> Result<Database>, at: nat,
                        req: CreateRequest, organization: string, project: string, wait: bool, ready: string,
                        plan: DatabaseModel): Effect
  {
    match answers(at)
    case Err(m) => Effect([CreateFailed(m)], Kept, false, [CreateCall(req)])
    case Ok(db) =>
      match createModel(db, plan)
      case Panicked => Effect([], Kept, true, [CreateCall(req)])
      case Returned(x) =>
        var e := CreatedEffect(getModel, answers, at + 1, Target(db.uuid, organization, project), wait, ready,
                               plan, x.0, x.1);
        e.(calls := [CreateCall(req)] + e.calls)
  }

  /** `Create` once the create answer has become the model `target` with the diagnostics `diags`. */
  function CreatedEffect(getModel: Converter, answers: nat -> Result<Database>, at: nat, t: Target, wait: bool,
                         ready: string, plan: DatabaseModel, target: DatabaseModel, diags: seq<Diagnostic>): Effect
  {
    if !wait then Effect(diags, Set(target), false, [])
    else
      var w := WaitEffect(getModel, answers, at, t, plan, ready, target);
      w.(diags := diags + w.diags)
  }

  /** The reads after an update of the database `t`. */
  function PropagateEffect(getModel: Converter, answers: nat -> Result<Database>, at: nat, t: Target,
                           plan: DatabaseModel): Effect
  {
    var p := Propagate(getModel, answers, plan, Initial(None, at));
    var calls := Gets(t, p.next - at);
    var write := if p.model.Some? then Set(p.model.value) else Kept;
    if p.phase.Aborted? then Effect(p.diags + [PollFailed(p.phase.message)], write, false, calls)
    else Effect(p.diags, write, p.phase.PollPanicked?, calls)
  }

  /** `Update` once the plan has become the request `req` for `t`: one update call, then the propagation reads. */
  function UpdateEffect(getModel: Converter, answers: nat -> Result<Database>, at: nat, req: UpdateRequest,
                        t: Target, plan: DatabaseModel): Effect
  {
    match answers(at)
    case Err(m) => Effect([UpdateFailed(m)], Kept, false, [UpdateCall(req)])
    case Ok(_) =>
      var e := PropagateEffect(getModel, answers, at + 1, t, plan);
      e.(calls := [UpdateCall(req)] + e.calls)
  }

  /** `Delete`: one call; success removes the resource, failure keeps it. */
  function DeleteEffect(answers: nat -> Result<Database>, at: nat, t: Target): Effect
  {
    match answers(at)
    case Err(m) => Effect([DeleteFailed(m)], Kept, false, [DeleteCall(t)])
    case Ok(_) => Effect([], Removed, false, [DeleteCall(t)])
  }

  /** A handler applied its effect to the response and the client. */
  twostate predicate Applied(resp: Response, client: Client, e: Effect)
    reads resp, client
  {
    && resp.diagnostics == old(resp.diagnostics) + e.diags
    && resp.state == Apply(old(resp.state), e.write)
    && resp.panicked == e.panicked
    && client.log == old(client.log) + e.calls
  }

  // ---------------------------------------------------------------------
  // The handlers

  /** `DatabaseResource` and `DatabaseResourceV2` once configured. */
  class Resource {
    const version: Version
    const client: Client
    const organization: Value
    const project: Value
    const waitForCreation: Value
    /** `sys11dbaassdk.STATE_READY`. */
    const ready: string
    /** `psqlCreateResponseToModel` or its version-2 twin. */
    const createModel: Converter
    /** `psqlGetResponseToModel` or its version-2 twin. */
    const getModel: Converter

    constructor (version: Version, client: Client, organization: Value, project: Value,
                 waitForCreation: Value, ready: string)
      ensures this.version == version && this.client == client && this.organization == organization
      ensures this.project == project && this.waitForCreation == waitForCreation && this.ready == ready
      ensures createModel == CreateConverter(version) && getModel == GetConverter(version)
    {
      this.version := version;
      this.client := client;
      this.organization := organization;
      this.project := project;
      this.waitForCreation := waitForCreation;
      this.ready := ready;
      createModel := CreateConverter(version);
      getModel := GetConverter(version);
    }

    /** The get request for a database. */
    function TargetOf(uuid: string): Target
    {
      Target(uuid, ValueString(organization), ValueString(project))
    }

    /** `Read`, for the state `prior` the framework holds. */
    method Read(prior: DatabaseModel, resp: Response)
      requires !resp.panicked
      modifies resp, client
      ensures Applied(resp, client, ReadEffect(getModel, client.answers, |old(client.log)|,
                                               TargetOf(ValueString(prior.uuid)), prior))
    {
      var got := GetWithRetries(TargetOf(ValueString(prior.uuid)));
      if got.Err? {
        resp.diagnostics := resp.diagnostics + [ReadFailed(got.message)];
        return;
      }
      var converted := getModel(got.value, prior);
      if converted.Panicked? {
        resp.panicked := true;
        return;
      }
      var (model, diags) := converted.value;
      resp.diagnostics := resp.diagnostics + diags;
      if HasError(diags) {
        return;
      }
      resp.state := Some(model);
    }

    /** The get of `Read`, tried again after each of its first two failures in a row. */
    method GetWithRetries(t: Target) returns (got: Result<Database>)
      modifies client
      ensures (got, |client.log|) == Retry(client.answers, |old(client.log)|, 0)
      ensures client.log == old(client.log) + Gets(t, |client.log| - |old(client.log)|)
    {
      ghost var log0 := client.log;
      var errCount := 0;
      got := client.Send(GetCall(t));
      while got.Err? && errCount + 1 < MaxStrikes
        invariant errCount < MaxStrikes
        invariant client.log == log0 + Gets(t, errCount + 1)
        invariant got == client.answers(|log0| + errCount)
        invariant Retry(client.answers, |log0|, 0) == Retry(client.answers, |log0| + errCount, errCount)
        decreases MaxStrikes - errCount
      {
        errCount := errCount + 1;
        got := client.Send(GetCall(t));
        GetsAdd(t, errCount, 1);
      }
    }

    /** `Delete`, for the state `prior` the framework holds. */
    method Delete(prior: DatabaseModel, resp: Response)
      requires !resp.panicked
      modifies resp, client
      ensures Applied(resp, client, DeleteEffect(client.answers, |old(client.log)|, TargetOf(ValueString(prior.uuid))))
    {
      var got := client.Send(DeleteCall(TargetOf(ValueString(prior.uuid))));
      if got.Err? {
        resp.diagnostics := resp.diagnostics + [DeleteFailed(got.message)];
        return;
      }
      resp.state := None;
    }

    /** The wait loop of `Create`, from the model of the create answer. */
    method WaitForReady(t: Target, plan: DatabaseModel, target0: DatabaseModel) returns (p: Polling)
      modifies client
      ensures p == Wait(getModel, client.answers, plan, ready, Initial(Some(target0), |old(client.log)|))
      ensures client.log == old(client.log) + Gets(t, p.next - |old(client.log)|)
    {
      ghost var log0 := client.log;
      ghost var goal := Wait(getModel, client.answers, plan, ready, Initial(Some(target0), |log0|));
      p := Initial(Some(target0), |client.log|);
      while p.phase.Running?
        invariant Waiting(p) && |log0| <= p.next == |client.log|
        invariant client.log == log0 + Gets(t, p.next - |log0|)
        invariant goal == Wait(getModel, client.answers, plan, ready, p)
        decreases if p.phase.Running? then 1 else 0, RetryLimit - p.counter,
                  if p.phase.Running? then MaxStrikes - p.phase.strikes else 0
      {
        ghost var before := p;
        p := PollForReady(t, plan, p);
        GetsAdd(t, before.next - |log0|, p.next - before.next);
      }
    }

    /** One iteration of the wait loop of `Create`. */
    method PollForReady(t: Target, plan: DatabaseModel, s: Polling) returns (r: Polling)
      requires Waiting(s) && s.phase.Running? && s.next == |client.log|
      modifies client
      ensures r == WaitStep(getModel, client.answers, plan, ready, s)
      ensures client.log == old(client.log) + Gets(t, r.next - s.next)
    {
      if ValueString(s.model.value.status) == ready {
        return s.(phase := Done);
      }
      if s.counter == RetryLimit {
        return s.(phase := LimitReached);
      }
      var got := client.Send(GetCall(t));
      if got.Err? {
        if s.phase.strikes + 1 >= MaxStrikes {
          return s.(phase := Aborted(got.message), next := s.next + 1);
        }
        return s.(phase := Running(s.phase.strikes + 1), next := s.next + 1);
      }
      var converted := getModel(got.value, plan);
      if converted.Panicked? {
        return s.(phase := PollPanicked, next := s.next + 1);
      }
      var (model, diags) := converted.value;
      r := Polling(s.diags + diags, Some(model), Running(0), s.next + 1, s.counter + 1);
    }

    /** `Create`, for the plan the framework hands over. */
    method Create(plan: DatabaseModel, resp: Response)
      requires resp.diagnostics == [] && !resp.panicked
      modifies resp, client
      ensures !PlanConverts(version, plan) ==>
        HasError(resp.diagnostics) && resp.state == old(resp.state) && !resp.panicked && client.log == old(client.log)
      ensures PlanConverts(version, plan) ==>
        Applied(resp, client, CreateEffect(createModel, getModel, client.answers, |old(client.log)|,
                                           CreateRequestOf(version, organization, project, plan, PartsOf(version, plan)),
                                           ValueString(organization), ValueString(project),
                                           ValueBool(waitForCreation), ready, plan))
    {
      var parts, diags := ConvertPlan(version, plan);
      resp.diagnostics := resp.diagnostics + diags;
      if HasError(diags) {
        return;
      }
      SubmitCreate(CreateRequestOf(version, organization, project, plan, parts.value), plan, resp);
    }

    /** The part of `Create` after the plan has become the request `req`. */
    method SubmitCreate(req: CreateRequest, plan: DatabaseModel, resp: Response)
      requires !resp.panicked
      modifies resp, client
      ensures Applied(resp, client, CreateEffect(createModel, getModel, client.answers, |old(client.log)|, req,
                                                 ValueString(organization), ValueString(project),
                                                 ValueBool(waitForCreation), ready, plan))
    {
      var answer := client.Send(CreateCall(req));
      if answer.Err? {
        resp.diagnostics := resp.diagnostics + [CreateFailed(answer.message)];
        return;
      }
      var converted := createModel(answer.value, plan);
      if converted.Panicked? {
        resp.panicked := true;
        return;
      }
      var (target, d) := converted.value;
      ghost var e := CreatedEffect(getModel, client.answers, |client.log|, TargetOf(answer.value.uuid),
                                   ValueBool(waitForCreation), ready, plan, target, d);
      StoreCreated(TargetOf(answer.value.uuid), plan, target, d, resp);
      AppendAssoc(old(client.log), [CreateCall(req)], e.calls);
    }

    /** The part of `Create` after its answer has become the model `target` with the diagnostics `d`. */
    method StoreCreated(t: Target, plan: DatabaseModel, target: DatabaseModel, d: seq<Diagnostic>, resp: Response)
      requires !resp.panicked
      modifies resp, client
      ensures Applied(resp, client, CreatedEffect(getModel, client.answers, |old(client.log)|, t,
                                                  ValueBool(waitForCreation), ready, plan, target, d))
    {
      resp.diagnostics := resp.diagnostics + d;
      if ValueBool(waitForCreation) {
        ghost var w := WaitEffect(getModel, client.answers, |client.log|, t, plan, ready, target);
        AwaitCreation(t, plan, target, resp);
        AppendAssoc(old(resp.diagnostics), d, w.diags);
      } else {
        resp.state := Some(target);
      }
    }

    /** The wait of `Create` and what it stores. */
    method AwaitCreation(t: Target, plan: DatabaseModel, target: DatabaseModel, resp: Response)
      requires !resp.panicked
      modifies resp, client
      ensures Applied(resp, client, WaitEffect(getModel, client.answers, |old(client.log)|, t, plan, ready, target))
    {
      var p := WaitForReady(t, plan, target);
      resp.diagnostics := resp.diagnostics + p.diags;
      if p.phase.Aborted? {
        resp.diagnostics := resp.diagnostics + [WaitFailed(p.phase.message)];
        AppendAssoc(old(resp.diagnostics), p.diags, [WaitFailed(p.phase.message)]);
      } else if p.phase.PollPanicked? {
        resp.panicked := true;
      } else {
        resp.state := p.model;
        if p.phase.LimitReached? {
          resp.diagnostics := resp.diagnostics + [LimitHit()];
          AppendAssoc(old(resp.diagnostics), p.diags, [LimitHit()]);
        }
      }
    }

    /** The propagation loop of `Update`. */
    method PropagateUpdate(t: Target, plan: DatabaseModel) returns (p: Polling)
      modifies client
      ensures p == Propagate(getModel, client.answers, plan, Initial(None, |old(client.log)|))
      ensures client.log == old(client.log) + Gets(t, p.next - |old(client.log)|)
    {
      ghost var log0 := client.log;
      ghost var goal := Propagate(getModel, client.answers, plan, Initial(None, |log0|));
      p := Initial(None, |client.log|);
      while p.phase.Running?
        invariant Propagating(p) && |log0| <= p.next == |client.log|
        invariant client.log == log0 + Gets(t, p.next - |log0|)
        invariant goal == Propagate(getModel, client.answers, plan, p)
        decreases if p.phase.Running? then 1 else 0, UpdatePolls - p.counter
      {
        ghost var before := p;
        p := PollAfterUpdate(t, plan, p);
        GetsAdd(t, before.next - |log0|, p.next - before.next);
      }
    }

    /** One iteration of the propagation loop of `Update`. */
    method PollAfterUpdate(t: Target, plan: DatabaseModel, s: Polling) returns (r: Polling)
      requires Propagating(s) && s.phase.Running? && s.next == |client.log|
      modifies client
      ensures r == PropagateStep(getModel, client.answers, plan, s)
      ensures client.log == old(client.log) + Gets(t, r.next - s.next)
    {
      if s.counter == UpdatePolls {
        return s.(phase := Done);
      }
      var got := client.Send(GetCall(t));
      if got.Err? {
        if s.phase.strikes + 1 >= MaxStrikes {
          return s.(phase := Aborted(got.message), next := s.next + 1);
        }
        return s.(phase := Running(s.phase.strikes + 1), next := s.next + 1, counter := s.counter + 1);
      }
      var converted := getModel(got.value, plan);
      if converted.Panicked? {
        return s.(phase := PollPanicked, next := s.next + 1);
      }
      var (model, diags) := converted.value;
      r := Polling(s.diags + diags, Some(model), Running(0), s.next + 1, s.counter + 1);
    }

    /** `Update`, for the prior state and the plan the framework hands over. */
    method Update(prior: DatabaseModel, plan: DatabaseModel, resp: Response)
      requires resp.diagnostics == [] && !resp.panicked
      modifies resp, client
      ensures !PlanConverts(version, plan) ==>
        HasError(resp.diagnostics) && resp.state == old(resp.state) && !resp.panicked && client.log == old(client.log)
      ensures PlanConverts(version, plan) ==>
        Applied(resp, client, UpdateEffect(getModel, client.answers, |old(client.log)|,
                                           UpdateRequestOf(version, prior.uuid, organization, project, plan,
                                                           PartsOf(version, plan)),
                                           TargetOf(ValueString(prior.uuid)), plan))
    {
      var parts, diags := ConvertPlan(version, plan);
      resp.diagnostics := resp.diagnostics + diags;
      if HasError(diags) {
        return;
      }
      SubmitUpdate(UpdateRequestOf(version, prior.uuid, organization, project, plan, parts.value),
                   TargetOf(ValueString(prior.uuid)), plan, resp);
    }

    /** The part of `Update` after the plan has become the request `req` for `t`. */
    method SubmitUpdate(req: UpdateRequest, t: Target, plan: DatabaseModel, resp: Response)
      requires !resp.panicked
      modifies resp, client
      ensures Applied(resp, client, UpdateEffect(getModel, client.answers, |old(client.log)|, req, t, plan))
    {
      var answer := client.Send(UpdateCall(req));
      if answer.Err? {
        resp.diagnostics := resp.diagnostics + [UpdateFailed(answer.message)];
        return;
      }
      ghost var e := PropagateEffect(getModel, client.answers, |client.log|, t, plan);
      AwaitPropagation(t, plan, resp);
      AppendAssoc(old(client.log), [UpdateCall(req)], e.calls);
    }

    /** The reads after an update and what they store. */
    method AwaitPropagation(t: Target, plan: DatabaseModel, resp: Response)
      requires !resp.panicked
      modifies resp, client
      ensures Applied(resp, client, PropagateEffect(getModel, client.answers, |old(client.log)|, t, plan))
    {
      var p := PropagateUpdate(t, plan);
      resp.diagnostics := resp.diagnostics + p.diags;
      if p.model.Some? {
        resp.state := p.model;
      }
      if p.phase.Aborted? {
        resp.diagnostics := resp.diagnostics + [PollFailed(p.phase.message)];
        AppendAssoc(old(resp.diagnostics), p.diags, [PollFailed(p.phase.message)]);
      } else if p.phase.PollPanicked? {
        resp.panicked := true;
      }
    }
  }

  // ---------------------------------------------------------------------
  // What the loops and handlers guarantee

  /** The `n` answers before `next` all failed. */
  ghost predicate FailedBefore(answers: nat -> Result<Database>, next: nat, n: nat)
  {
    n <= next && forall k | next - n <= k < next :: answers(k).Err?
  }

  /**
   * `Read`'s retry takes the first success among the next
   * `MaxStrikes - strikes` answers, and fails only when all of them fail.
   */
  lemma {:induction false} RetryTakesFirstSuccess(answers: nat -> Result<Database>, at: nat, strikes: nat)
    requires strikes < MaxStrikes
    ensures var r := Retry(answers, at, strikes);
      && r.0 == answers(r.1 - 1)
      && (forall k | at <= k < r.1 - 1 :: answers(k).Err?)
      && (r.0.Err? ==> r.1 == at + MaxStrikes - strikes)
    decreases MaxStrikes - strikes
  {
    if answers(at).Err? && strikes + 1 < MaxStrikes {
      RetryTakesFirstSuccess(answers, at + 1, strikes + 1);
    }
  }

  /**
   * The wait of `Create` ends with a ready model, or at the limit with a
   * model that is not ready after `RetryLimit` successful polls.
   */
  lemma {:induction false} WaitEndsReadyOrAtLimit(toModel: Converter, answers: nat -> Result<Database>,
                                                   plan: DatabaseModel, ready: string, s: Polling)
    requires Waiting(s) && s.phase.Running?
    ensures var r := Wait(toModel, answers, plan, ready, s);
      && (r.phase.Done? ==> ValueString(r.model.value.status) == ready)
      && (r.phase.LimitReached? ==> r.counter == RetryLimit && ValueString(r.model.value.status) != ready)
    decreases RetryLimit - s.counter, MaxStrikes - s.phase.strikes
  {
    var n := WaitStep(toModel, answers, plan, ready, s);
    if n.phase.Running? {
      WaitEndsReadyOrAtLimit(toModel, answers, plan, ready, n);
    }
  }

  /**
   * The wait of `Create` reads at most `MaxStrikes` answers per successful
   * poll still allowed: at most 180 gets from the start.
   */
  lemma {:induction false} WaitCallBound(toModel: Converter, answers: nat -> Result<Database>,
                                         plan: DatabaseModel, ready: string, s: Polling)
    requires Waiting(s) && s.phase.Running?
    ensures var r := Wait(toModel, answers, plan, ready, s);
      if s.counter < RetryLimit then r.next + s.phase.strikes <= s.next + MaxStrikes * (RetryLimit - s.counter)
      else r.next == s.next
    decreases RetryLimit - s.counter, MaxStrikes - s.phase.strikes
  {
    var n := WaitStep(toModel, answers, plan, ready, s);
    if n.phase.Running? {
      WaitCallBound(toModel, answers, plan, ready, n);
    }
  }

  /** The wait of `Create` aborts only after `MaxStrikes` failed gets in a row, on the last one's error. */
  lemma {:induction false} WaitAbortsOnStrikes(toModel: Converter, answers: nat -> Result<Database>,
                                               plan: DatabaseModel, ready: string, s: Polling)
    requires Waiting(s) && s.phase.Running? && FailedBefore(answers, s.next, s.phase.strikes)
    ensures var r := Wait(toModel, answers, plan, ready, s);
      r.phase.Aborted? ==> FailedBefore(answers, r.next, MaxStrikes) && r.phase.message == answers(r.next - 1).message
    decreases RetryLimit - s.counter, MaxStrikes - s.phase.strikes
  {
    var n := WaitStep(toModel, answers, plan, ready, s);
    if n.phase.Running? {
      WaitAbortsOnStrikes(toModel, answers, plan, ready, n);
    }
  }

  /** The reads after an update make exactly `UpdatePolls` gets unless they abort or panic. */
  lemma {:induction false} PropagateCallCount(toModel: Converter, answers: nat -> Result<Database>,
                                              plan: DatabaseModel, s: Polling)
    requires Propagating(s) && s.phase.Running?
    ensures var r := Propagate(toModel, answers, plan, s);
      && r.next <= s.next + UpdatePolls - s.counter
      && (r.phase.Done? ==> r.next == s.next + UpdatePolls - s.counter)
    decreases UpdatePolls - s.counter
  {
    var n := PropagateStep(toModel, answers, plan, s);
    if n.phase.Running? {
      PropagateCallCount(toModel, answers, plan, n);
    }
  }

  /** The reads after an update abort only after `MaxStrikes` failed gets in a row, on the last one's error. */
  lemma {:induction false} PropagateAbortsOnStrikes(toModel: Converter, answers: nat -> Result<Database>,
                                                    plan: DatabaseModel, s: Polling)
    requires Propagating(s) && s.phase.Running? && FailedBefore(answers, s.next, s.phase.strikes)
    ensures var r := Propagate(toModel, answers, plan, s);
      r.phase.Aborted? ==> FailedBefore(answers, r.next, MaxStrikes) && r.phase.message == answers(r.next - 1).message
    decreases UpdatePolls - s.counter
  {
    var n := PropagateStep(toModel, answers, plan, s);
    if n.phase.Running? {
      PropagateAbortsOnStrikes(toModel, answers, plan, n);
    }
  }

  /** The application config of `m` holds the password `p` as a known string. */
  predicate HoldsPassword(m: DatabaseModel, p: string)
  {
    "password" in Attributes(m.applicationConfig) && Attributes(m.applicationConfig)["password"] == Str(p)
  }

  /**
   * `toModel` turns every answer, with `previous` as the previous state,
   * into a model holding the password `p`, without diagnostics.
   */
  ghost predicate AlwaysHolds(toModel: Converter, previous: DatabaseModel, p: string)
  {
    forall db: Database :: toModel(db, previous).Returned? && toModel(db, previous).value.1 == [] &&
                           HoldsPassword(toModel(db, previous).value.0, p)
  }

  /**
   * With a plan whose password needs no escape in its `%q` rendering, both
   * converters of both versions store that password.
   */
  lemma ConvertersKeepPlanPassword(v: Version, plan: DatabaseModel, p: string)
    requires HoldsPassword(plan, p) && NoEscapes(p)
    ensures AlwaysHolds(CreateConverter(v), plan, p) && AlwaysHolds(GetConverter(v), plan, p)
  {
    forall db: Database
      ensures CreateToModel(v, db, plan) == Returned((if v == V1 then StateV1(db, p) else StateV2(db, p), []))
      ensures GetToModel(v, db, plan) == Returned((if v == V1 then StateV1(db, p) else StateV2(db, p), []))
      ensures HoldsPassword(StateV1(db, p), p) && HoldsPassword(StateV2(db, p), p)
    {
      CreateStoresPlanPassword(db, plan, p);
      StoredPasswordV1(db, p);
      StoredPasswordV2(db, p);
    }
  }

  /** The wait of `Create` holds a model with the password every conversion stores. */
  lemma {:induction false} WaitKeepsPassword(toModel: Converter, answers: nat -> Result<Database>,
                                             plan: DatabaseModel, ready: string, s: Polling, p: string)
    requires Waiting(s) && AlwaysHolds(toModel, plan, p) && HoldsPassword(s.model.value, p)
    ensures HoldsPassword(Wait(toModel, answers, plan, ready, s).model.value, p)
    decreases if s.phase.Running? then 1 else 0, RetryLimit - s.counter,
              if s.phase.Running? then MaxStrikes - s.phase.strikes else 0
  {
    if s.phase.Running? {
      WaitKeepsPassword(toModel, answers, plan, ready, WaitStep(toModel, answers, plan, ready, s), p);
    }
  }

  /** The reads after an update hold, if any model, one with the password every conversion stores. */
  lemma {:induction false} PropagateKeepsPassword(toModel: Converter, answers: nat -> Result<Database>,
                                                  plan: DatabaseModel, s: Polling, p: string)
    requires Propagating(s) && AlwaysHolds(toModel, plan, p) && (s.model.Some? ==> HoldsPassword(s.model.value, p))
    ensures var r := Propagate(toModel, answers, plan, s);
      r.model.Some? ==> HoldsPassword(r.model.value, p)
    decreases if s.phase.Running? then 1 else 0, UpdatePolls - s.counter
  {
    if s.phase.Running? {
      PropagateKeepsPassword(toModel, answers, plan, PropagateStep(toModel, answers, plan, s), p);
    }
  }

  /** The wait of `Create` makes at most `MaxStrikes * RetryLimit` gets (180). */
  lemma WaitEffectCallBound(getModel: Converter, answers: nat -> Result<Database>, at: nat, t: Target,
                            plan: DatabaseModel, ready: string, target: DatabaseModel)
    ensures var e := WaitEffect(getModel, answers, at, t, plan, ready, target);
      |e.calls| <= MaxStrikes * RetryLimit
  {
    WaitCallBound(getModel, answers, plan, ready, Initial(Some(target), at));
  }

  /**
   * What the wait of `Create` stores is a model whose status is ready, or
   * one that is not, with the limit error as the last diagnostic.
   */
  lemma WaitEffectStoresReadyOrReportsLimit(getModel: Converter, answers: nat -> Result<Database>, at: nat,
                                            t: Target, plan: DatabaseModel, ready: string, target: DatabaseModel)
    ensures var e := WaitEffect(getModel, answers, at, t, plan, ready, target);
      && (e.write.Set? ==> ValueString(e.write.model.status) == ready || (e.diags != [] && Last(e.diags) == LimitHit()))
      && !e.write.Removed?
  {
    WaitEndsReadyOrAtLimit(getModel, answers, plan, ready, Initial(Some(target), at));
  }

  /**
   * `Create` makes the one create call first; without the wait it makes no
   * other, with it at most `MaxStrikes * RetryLimit` gets.
   */
  lemma CreateCallBound(createModel: Converter, getModel: Converter, answers: nat -> Result<Database>, at: nat,
                        req: CreateRequest, organization: string, project: string, wait: bool, ready: string,
                        plan: DatabaseModel)
    ensures var e := CreateEffect(createModel, getModel, answers, at, req, organization, project, wait, ready, plan);
      && 1 <= |e.calls| <= 1 + MaxStrikes * RetryLimit && e.calls[0] == CreateCall(req)
      && (!wait ==> |e.calls| == 1)
  {
    if answers(at).Ok? && createModel(answers(at).value, plan).Returned? && wait {
      var db := answers(at).value;
      WaitEffectCallBound(getModel, answers, at + 1, Target(db.uuid, organization, project), plan, ready,
                          createModel(db, plan).value.0);
    }
  }

  /**
   * What `Create` stores after the wait is a model whose status is ready,
   * or one that is not, with the limit error as the last diagnostic; it
   * never removes the resource.
   */
  lemma CreateStoresReadyOrReportsLimit(createModel: Converter, getModel: Converter,
                                        answers: nat -> Result<Database>, at: nat, req: CreateRequest,
                                        organization: string, project: string, wait: bool, ready: string,
                                        plan: DatabaseModel)
    ensures var e := CreateEffect(createModel, getModel, answers, at, req, organization, project, wait, ready, plan);
      && (e.write.Set? && wait ==>
            ValueString(e.write.model.status) == ready || (e.diags != [] && Last(e.diags) == LimitHit()))
      && !e.write.Removed?
  {
    if answers(at).Ok? && createModel(answers(at).value, plan).Returned? && wait {
      var db := answers(at).value;
      WaitEffectStoresReadyOrReportsLimit(getModel, answers, at + 1, Target(db.uuid, organization, project), plan,
                                          ready, createModel(db, plan).value.0);
    }
  }

  /** With a plan whose password needs no escape, whatever `Create` stores holds that password. */
  lemma CreateStoresPlanPasswordEffect(v: Version, answers: nat -> Result<Database>, at: nat, req: CreateRequest,
                                       organization: string, project: string, wait: bool, ready: string,
                                       plan: DatabaseModel, p: string)
    requires HoldsPassword(plan, p) && NoEscapes(p)
    ensures var e := CreateEffect(CreateConverter(v), GetConverter(v), answers, at, req, organization, project,
                                  wait, ready, plan);
      e.write.Set? ==> HoldsPassword(e.write.model, p)
  {
    ConvertersKeepPlanPassword(v, plan, p);
    if answers(at).Ok? && wait {
      var db := answers(at).value;
      WaitEffectKeepsPassword(GetConverter(v), answers, at + 1, Target(db.uuid, organization, project), plan, ready,
                              CreateConverter(v)(db, plan).value.0, p);
    }
  }

  /** The wait of `Create` stores, if anything, a model with the password every conversion stores. */
  lemma WaitEffectKeepsPassword(getModel: Converter, answers: nat -> Result<Database>, at: nat, t: Target,
                                plan: DatabaseModel, ready: string, target: DatabaseModel, p: string)
    requires AlwaysHolds(getModel, plan, p) && HoldsPassword(target, p)
    ensures var e := WaitEffect(getModel, answers, at, t, plan, ready, target);
      e.write.Set? ==> HoldsPassword(e.write.model, p)
  {
    WaitKeepsPassword(getModel, answers, plan, ready, Initial(Some(target), at), p);
  }

  /**
   * `Update` makes one update call and, when it succeeds, exactly
   * `UpdatePolls` gets unless the reads abort or panic; a failed update
   * call stores nothing.
   */
  lemma UpdateCallCount(getModel: Converter, answers: nat -> Result<Database>, at: nat, req: UpdateRequest,
                        t: Target, plan: DatabaseModel)
    ensures var e := UpdateEffect(getModel, answers, at, req, t, plan);
      && 1 <= |e.calls| <= 1 + UpdatePolls && e.calls[0] == UpdateCall(req)
      && (answers(at).Err? ==> e.write.Kept? && |e.calls| == 1)
      && (answers(at).Ok? && !HasError(e.diags) && !e.panicked ==> |e.calls| == 1 + UpdatePolls)
  {
    PropagateCallCount(getModel, answers, plan, Initial(None, at + 1));
  }

  /** With a plan whose password needs no escape, whatever `Update` stores holds that password. */
  lemma UpdateStoresPlanPassword(v: Version, answers: nat -> Result<Database>, at: nat, req: UpdateRequest,
                                 t: Target, plan: DatabaseModel, p: string)
    requires HoldsPassword(plan, p) && NoEscapes(p)
    ensures var e := UpdateEffect(GetConverter(v), answers, at, req, t, plan);
      e.write.Set? ==> HoldsPassword(e.write.model, p)
  {
    ConvertersKeepPlanPassword(v, plan, p);
    PropagateKeepsPassword(GetConverter(v), answers, plan, Initial(None, at + 1), p);
  }

  /**
   * `Read` makes one to `MaxStrikes` gets; it stores nothing and reports
   * the last error exactly when all `MaxStrikes` of them fail.
   */
  lemma ReadRetriesAtMostThrice(toModel: Converter, answers: nat -> Result<Database>, at: nat, t: Target,
                                prior: DatabaseModel)
    ensures var e := ReadEffect(toModel, answers, at, t, prior);
      && 1 <= |e.calls| <= MaxStrikes && e.calls == Gets(t, |e.calls|)
      && (Retry(answers, at, 0).0.Err? <==> FailedBefore(answers, at + MaxStrikes, MaxStrikes))
      && (Retry(answers, at, 0).0.Err? ==>
            e == Effect([ReadFailed(answers(at + MaxStrikes - 1).message)], Kept, false, Gets(t, MaxStrikes)))
  {
    RetryTakesFirstSuccess(answers, at, 0);
  }

  /** The state of version `v` that a response becomes with the password `p`. */
  function StateOf(v: Version, db: Database, p: string): DatabaseModel
  {
    if v == V1 then StateV1(db, p) else StateV2(db, p)
  }

  /**
   * After a successful get, `Read` stores the answer as the state of its
   * version, with the password of the prior state when that needs no escape.
   */
  lemma ReadStoresAnswerWithPriorPassword(v: Version, answers: nat -> Result<Database>, at: nat, t: Target,
                                          prior: DatabaseModel, p: string)
    requires HoldsPassword(prior, p) && NoEscapes(p)
    ensures var e := ReadEffect(GetConverter(v), answers, at, t, prior);
      var got := Retry(answers, at, 0).0;
      got.Ok? ==> e.write == Set(StateOf(v, got.value, p)) && e.diags == [] && !e.panicked
  {
    var got := Retry(answers, at, 0).0;
    if got.Ok? {
      CreateStoresPlanPassword(got.value, prior, p);
    }
  }

  // ---------------------------------------------------------------------
  // Loop steps

  function Last<T>(s: seq<T>): T
    requires s != []
  {
    s[|s| - 1]
  }

  lemma AppendAssoc<T>(a: seq<T>, b: seq<T>, c: seq<T>)
    ensures (a + b) + c == a + (b + c)
  {
  }

  lemma GetsAdd(t: Target, m: nat, n: nat)
    ensures Gets(t, m) + Gets(t, n) == Gets(t, m + n)
  {
  }
}
