/**
 internal/clients/growthbook/environment.go and internal/controller/environment/environment.go:
 the client, whose GET by id lists and filters, the controller steps, and whole runs of them.
 */
module EnvironmentController {
  import opened Options
  import opened ApiErrors
  import opened EnvironmentConvert

  // ---- GET by id: list and filter -------------------------------------------------------

  predicate UniqueIds(envs: seq<Environment>) {
    forall i, j :: 0 <= i < j < |envs| ==> envs[i].id != envs[j].id
  }

  function NotFound(id: string): Error {
    APIError(404, "environment " + id + " not found")
  }

  /** The list as the map it represents. */
  function AsMap(envs: seq<Environment>): map<string, Environment> {
    if envs == [] then map[] else AsMap(envs[1..])[envs[0].id := envs[0]]
  }

  function Lookup(envs: seq<Environment>, id: string): Result<Environment, Error> {
    if id in AsMap(envs) then Success(AsMap(envs)[id]) else Failure(NotFound(id))
  }

  lemma {:induction false} AsMapHolds(envs: seq<Environment>, id: string)
    ensures id in AsMap(envs) <==> exists i :: 0 <= i < |envs| && envs[i].id == id
    ensures id in AsMap(envs) ==>
              exists i :: 0 <= i < |envs| && envs[i].id == id && AsMap(envs)[id] == envs[i]
                          && forall j :: 0 <= j < i ==> envs[j].id != id
  {
    if envs != [] {
      AsMapHolds(envs[1..], id);
      if envs[0].id == id {
        assert envs[0].id == id;
      } else if id in AsMap(envs[1..]) {
        var i :| 0 <= i < |envs[1..]| && envs[1..][i].id == id && AsMap(envs[1..])[id] == envs[1..][i]
                 && forall j :: 0 <= j < i ==> envs[1..][j].id != id;
        assert envs[i + 1].id == id;
        assert forall j :: 1 <= j < i + 1 ==> envs[j] == envs[1..][j - 1];
      } else {
        forall i | 0 <= i < |envs| ensures envs[i].id != id {
          assert i > 0 ==> envs[i] == envs[1..][i - 1];
        }
      }
    }
  }

  /** The scan of GetEnvironment: the first entry with the id, or a not-found error. */
  method FindEnvironment(envs: seq<Environment>, id: string) returns (r: Result<Environment, Error>)
    ensures r == Lookup(envs, id)
  {
    AsMapHolds(envs, id);
    for i := 0 to |envs|
      invariant forall k :: 0 <= k < i ==> envs[k].id != id
    {
      if envs[i].id == id {
        return Success(envs[i]);
      }
    }
    return Failure(NotFound(id));
  }

  /** Listing and filtering is map lookup by id, and a miss is exactly a not-found error. */
  lemma LookupRefinesMap(envs: seq<Environment>, id: string)
    requires UniqueIds(envs)
    ensures forall e :: e in envs && e.id == id ==> Lookup(envs, id) == Success(e)
    ensures Lookup(envs, id).Failure? <==> forall e :: e in envs ==> e.id != id
    ensures Lookup(envs, id).Failure? ==> IsNotFound(Lookup(envs, id).error)
  {
    AsMapHolds(envs, id);
    forall e | e in envs && e.id == id ensures Lookup(envs, id) == Success(e) {
      var i :| 0 <= i < |envs| && envs[i] == e;
      assert envs[i].id == id;
    }
  }

  // ---- The server -------------------------------------------------------------------------

  datatype Call = List | Post(body: EnvironmentBody) | Put(id: string, body: EnvironmentBody)

  datatype Cloud = Cloud(envs: seq<Environment>, calls: nat, log: seq<Call>)

  datatype Behaviour = Behaviour(
    creates: (nat, EnvironmentBody) -> Environment,
    patches: (nat, EnvironmentBody, Environment) -> Environment,
    fails: nat -> Option<Error>,
    others: (nat, seq<Environment>) -> seq<Environment>)

  /** The server keeps the create contract at the n-th call. */
  ghost predicate CreatesAt(w: Behaviour, n: nat, b: EnvironmentBody) {
    Stores(b, w.creates(n, b)) && Agrees(b.id, w.creates(n, b).id)
  }

  /** The server keeps the patch contract at the n-th call. */
  ghost predicate PatchesAt(w: Behaviour, n: nat, b: EnvironmentBody, e: Environment) {
    Patches(b, e, w.patches(n, b, e))
  }

  ghost predicate Lawful(w: Behaviour) {
    && (forall n, b :: CreatesAt(w, n, b))
    && (forall n, b, e :: PatchesAt(w, n, b, e))
    && (forall n, envs :: UniqueIds(envs) ==> UniqueIds(w.others(n, envs)))
  }

  /** From this call on, nobody else edits the environments and every call is answered. */
  ghost predicate Calm(w: Behaviour, since: nat) {
    && (forall n, envs :: since <= n ==> w.others(n, envs) == envs)
    && (forall n :: since <= n ==> w.fails(n).None?)
  }

  /** The contract can be kept: such a server exists, with no faults and nobody else around. */
  lemma LawfulServerExists()
    ensures exists w :: Lawful(w) && Calm(w, 0)
  {
    var w := Behaviour((n: nat, b: EnvironmentBody) => PlainPatch(b, Environment(Deref(b.id), "", false, false, [], "")),
                       (n, b, e) => PlainPatch(b, e), n => None, (n, envs) => envs);
    assert Lawful(w) && Calm(w, 0);
  }

  function Arrive(w: Behaviour, c: Cloud, call: Call): Cloud {
    Cloud(w.others(c.calls, c.envs), c.calls + 1, c.log + [call])
  }

  function Getting(w: Behaviour, c: Cloud, id: string): (Cloud, Result<Environment, Error>) {
    var c1 := Arrive(w, c, List);
    (c1, if w.fails(c.calls).Some? then Failure(w.fails(c.calls).value) else Lookup(c1.envs, id))
  }

  function Posting(w: Behaviour, c: Cloud, body: EnvironmentBody): (Cloud, Result<Environment, Error>) {
    var c1 := Arrive(w, c, Post(body));
    var e := w.creates(c.calls, body);
    if w.fails(c.calls).Some? then (c1, Failure(w.fails(c.calls).value))
    else if e.id in AsMap(c1.envs) then (c1, Failure(APIError(409, "environment already exists")))
    else (c1.(envs := c1.envs + [e]), Success(e))
  }

  /** The list with the entry of this id replaced. */
  function Replaced(envs: seq<Environment>, e: Environment): (r: seq<Environment>)
    ensures |r| == |envs|
    ensures forall i :: 0 <= i < |envs| ==> r[i] == if envs[i].id == e.id then e else envs[i]
  {
    seq(|envs|, i requires 0 <= i < |envs| => if envs[i].id == e.id then e else envs[i])
  }

  function Putting(w: Behaviour, c: Cloud, id: string, body: EnvironmentBody): (Cloud, Result<Environment, Error>) {
    var c1 := Arrive(w, c, Put(id, body));
    if w.fails(c.calls).Some? then (c1, Failure(w.fails(c.calls).value))
    else
      var found := Lookup(c1.envs, id);
      if found.Failure? then (c1, found)
      else
        var e := w.patches(c.calls, body, found.value);
        (c1.(envs := Replaced(c1.envs, e)), Success(e))
  }

  // ---- The client -------------------------------------------------------------------------

  class Client {
    const behaviour: Behaviour
    var envs: seq<Environment>
    var calls: nat
    var log: seq<Call>

    constructor (behaviour: Behaviour, envs: seq<Environment>)
      ensures this.behaviour == behaviour && State() == Cloud(envs, 0, [])
    {
      this.behaviour, this.envs, calls, log := behaviour, envs, 0, [];
    }

    function State(): Cloud
      reads this
    {
      Cloud(envs, calls, log)
    }

    method Send(call: Call) returns (fault: Option<Error>)
      modifies this
      ensures State() == Arrive(behaviour, old(State()), call)
      ensures fault == behaviour.fails(old(calls))
    {
      fault := behaviour.fails(calls);
      envs := behaviour.others(calls, envs);
      calls := calls + 1;
      log := log + [call];
    }

    method ListEnvironments() returns (r: Result<seq<Environment>, Error>)
      modifies this
      ensures State() == Arrive(behaviour, old(State()), List)
      ensures r == if behaviour.fails(old(calls)).Some? then Failure(behaviour.fails(old(calls)).value) else Success(envs)
    {
      var fault := Send(List);
      if fault.Some? {
        return Failure(fault.value);
      }
      return Success(envs);
    }

    method GetEnvironment(id: string) returns (r: Result<Environment, Error>)
      modifies this
      ensures (State(), r) == Getting(behaviour, old(State()), id)
    {
      var listed := ListEnvironments();
      if listed.Failure? {
        return Failure(listed.error);
      }
      r := FindEnvironment(listed.value, id);
    }

    method CreateEnvironment(req: EnvironmentRequest) returns (r: Result<Environment, Error>)
      modifies this
      ensures (State(), r) == Posting(behaviour, old(State()), Encode(req))
    {
      var e := behaviour.creates(calls, Encode(req));
      var fault := Send(Post(Encode(req)));
      if fault.Some? {
        return Failure(fault.value);
      }
      if e.id in AsMap(envs) {
        return Failure(APIError(409, "environment already exists"));
      }
      envs := envs + [e];
      return Success(e);
    }

    method UpdateEnvironment(id: string, request: EnvironmentRequest) returns (r: Result<Environment, Error>)
      modifies this
      ensures (State(), r) == Putting(behaviour, old(State()), id, Encode(request.(id := "", parent := None)))
    {
      var req := request;
      req := req.(id := "");
      req := req.(parent := None);
      var n := calls;
      var fault := Send(Put(id, Encode(req)));
      if fault.Some? {
        return Failure(fault.value);
      }
      var found := FindEnvironment(envs, id);
      if found.Failure? {
        return found;
      }
      var e := behaviour.patches(n, Encode(req), found.value);
      envs := Replaced(envs, e);
      return Success(e);
    }
  }

  // ---- The controller -----------------------------------------------------------------------

  datatype Observation = Observation(found: bool, upToDate: bool, lateInitialized: bool)

  datatype Context = Context(name: string, init: EnvironmentInitParameters)

  function Observing(w: Behaviour, k: Context, p: EnvironmentParameters, c: Cloud)
    : (Cloud, EnvironmentParameters, Result<Observation, Error>)
  {
    var (c1, got) := Getting(w, c, k.name);
    if got.Failure? then
      (c1, p, if IsNotFound(got.error) then Success(Observation(false, false, false)) else Failure(got.error))
    else
      var (p1, changed) := LateInit(p, k.init, got.value);
      (c1, p1, Success(Observation(true, UpToDate(p1, got.value), changed)))
  }

  /** One reconcile: observe, then at most one of create and update. */
  function Reconciling(w: Behaviour, k: Context, p: EnvironmentParameters, c: Cloud)
    : (Cloud, EnvironmentParameters, Result<Observation, Error>)
  {
    var (c1, p1, seen) := Observing(w, k, p, c);
    if seen.Failure? || seen.value.upToDate then (c1, p1, seen)
    else
      var (c2, done) := if seen.value.found then Putting(w, c1, k.name, UpdateBody(p1))
                        else Posting(w, c1, CreateBody(k.name, p1, k.init));
      (c2, p1, if done.Failure? then Failure(done.error) else seen)
  }

  class Resource {
    const externalName: string
    const initProvider: EnvironmentInitParameters
    var forProvider: EnvironmentParameters

    constructor (name: string, p: EnvironmentParameters, ip: EnvironmentInitParameters)
      ensures externalName == name && forProvider == p && initProvider == ip
    {
      externalName, forProvider, initProvider := name, p, ip;
    }
  }

  class External {
    const client: Client

    constructor (client: Client)
      ensures this.client == client
    {
      this.client := client;
    }

    method Observe(cr: Resource) returns (r: Result<Observation, Error>)
      modifies cr`forProvider, client
      ensures (client.State(), cr.forProvider, r)
              == Observing(client.behaviour, Context(cr.externalName, cr.initProvider),
                           old(cr.forProvider), old(client.State()))
    {
      var env := client.GetEnvironment(cr.externalName);
      if env.Failure? {
        if IsNotFound(env.error) {
          return Success(Observation(false, false, false));
        }
        return Failure(env.error);
      }
      var p, lateInit := LateInitialize(cr.forProvider, cr.initProvider, env.value);
      cr.forProvider := p;
      var upToDate := IsUpToDate(cr.forProvider, env.value);
      return Success(Observation(true, upToDate, lateInit));
    }

    method Create(cr: Resource) returns (r: Result<Environment, Error>)
      modifies client
      ensures (client.State(), r) == Posting(client.behaviour, old(client.State()),
                                             CreateBody(cr.externalName, cr.forProvider, cr.initProvider))
    {
      var req := CreateRequest(cr.externalName, cr.forProvider, cr.initProvider);
      r := client.CreateEnvironment(req);
    }

    method Update(cr: Resource) returns (r: Result<Environment, Error>)
      modifies client
      ensures (client.State(), r)
              == Putting(client.behaviour, old(client.State()), cr.externalName, UpdateBody(cr.forProvider))
    {
      r := client.UpdateEnvironment(cr.externalName, UpdateRequest(cr.forProvider));
    }

    method Reconcile(cr: Resource) returns (r: Result<Observation, Error>)
      modifies cr`forProvider, client
      ensures (client.State(), cr.forProvider, r)
              == Reconciling(client.behaviour, Context(cr.externalName, cr.initProvider),
                             old(cr.forProvider), old(client.State()))
    {
      r := Observe(cr);
      if r.Failure? || r.value.upToDate {
        return;
      }
      var done;
      if r.value.found {
        done := Update(cr);
      } else {
        done := Create(cr);
      }
      if done.Failure? {
        r := Failure(done.error);
      }
    }
  }

  // ---- What a step reports --------------------------------------------------------------------

  /** One more call was made and logged. */
  predicate AfterOne(c: Cloud, call: Call, c': Cloud) {
    c'.calls == c.calls + 1 && c'.log == c.log + [call]
  }

  /** Whether the server has a value for a field that is unset in both halves of the spec. */
  predicate HasOpenValue(p: EnvironmentParameters, ip: EnvironmentInitParameters, e: Environment) {
    || (p.description.None? && ip.description.None?)
    || (p.toggleOnList.None? && ip.toggleOnList.None?)
    || (p.defaultState.None? && ip.defaultState.None?)
    || (p.parent.None? && ip.parent.None? && e.parent != "")
  }

  /**
   A look: an error is reported unless it says that the environment is missing; a missing
   environment is absent; a found one is reported with its verdict, and as late-initialized
   exactly when the spec changed, which it does exactly when there is an open value.
   */
  lemma LookReports(w: Behaviour, k: Context, p: EnvironmentParameters, c: Cloud)
    requires UniqueIds(w.others(c.calls, c.envs))
    ensures var (c', p', r) := Observing(w, k, p, c);
            var envs, fault := w.others(c.calls, c.envs), w.fails(c.calls);
            && AfterOne(c, List, c') && c'.envs == envs
            && (fault.Some? && !SaysMissing(fault.value) ==> r == Failure(fault.value) && p' == p)
            && (fault.Some? && SaysMissing(fault.value) ==> r == Success(Observation(false, false, false)) && p' == p)
            && (fault.None? && (forall e :: e in envs ==> e.id != k.name) ==>
                  r == Success(Observation(false, false, false)) && p' == p)
            && (fault.None? ==> forall e :: e in envs && e.id == k.name ==>
                  r == Success(Observation(true, UpToDate(p, e), HasOpenValue(p, k.init, e))))
            && (r.Success? ==> (r.value.lateInitialized <==> p' != p))
  {
    var envs := w.others(c.calls, c.envs);
    LookupRefinesMap(envs, k.name);
    if w.fails(c.calls).Some? {
      ClassifiedExactlyWhen(w.fails(c.calls).value);
    } else if Lookup(envs, k.name).Success? {
      LateInitKeepsVerdict(p, k.init, Lookup(envs, k.name).value);
      LateInitFillsOpenFields(p, k.init, Lookup(envs, k.name).value);
    }
  }

  /** A reconcile whose look fails reports that error and does nothing else. */
  lemma FailedLookStops(w: Behaviour, k: Context, p: EnvironmentParameters, c: Cloud, e: Error)
    requires w.fails(c.calls) == Some(e) && !SaysMissing(e)
    ensures Reconciling(w, k, p, c) == (Cloud(w.others(c.calls, c.envs), c.calls + 1, c.log + [List]), p, Failure(e))
  {
    ClassifiedExactlyWhen(e);
  }

  /** The write of a reconcile is the update body of a drifted environment or the create body of an absent one. */
  lemma ReconcileCalls(w: Behaviour, k: Context, p: EnvironmentParameters, c: Cloud)
    ensures var (_, p1, seen) := Observing(w, k, p, c);
            Reconciling(w, k, p, c).0.log
            == c.log + [List] + if seen.Failure? || seen.value.upToDate then []
                                else if seen.value.found then [Put(k.name, UpdateBody(p1))]
                                else [Post(CreateBody(k.name, p1, k.init))]
  {
  }

  /**
   When that write is answered with an error, the reconcile reports it; without a fault, a
   create under a fresh id is stored.
   */
  lemma WriteReports(w: Behaviour, k: Context, p: EnvironmentParameters, c: Cloud)
    requires var (_, _, seen) := Observing(w, k, p, c); seen.Success? && !seen.value.upToDate
    ensures var (c', _, r) := Reconciling(w, k, p, c);
            var (c1, p1, seen) := Observing(w, k, p, c);
            var e := w.creates(c1.calls, CreateBody(k.name, p1, k.init));
            var fault, envs := w.fails(c1.calls), w.others(c1.calls, c1.envs);
            && (fault.Some? ==> r == Failure(fault.value) && c'.envs == envs)
            && (fault.None? && !seen.value.found && (forall x :: x in envs ==> x.id != e.id) ==>
                  r == seen && c'.envs == envs + [e])
            && (fault.None? && seen.value.found && (forall x :: x in envs ==> x.id != k.name) ==> r.Failure? && c'.envs == envs)
            && (fault.None? && seen.value.found && UniqueIds(envs) ==>
                  forall x :: x in envs && x.id == k.name ==>
                    r == seen && c'.envs == Replaced(envs, w.patches(c1.calls, UpdateBody(p1), x)))
  {
    var (c1, p1, seen) := Observing(w, k, p, c);
    var e, envs := w.creates(c1.calls, CreateBody(k.name, p1, k.init)), w.others(c1.calls, c1.envs);
    AsMapHolds(envs, e.id);
    AsMapHolds(envs, k.name);
    if UniqueIds(envs) {
      LookupRefinesMap(envs, k.name);
    }
  }

  // ---- Runs -----------------------------------------------------------------------------------

  datatype State = State(spec: EnvironmentParameters, cloud: Cloud)

  /** One reconcile from s to s', reporting r; a spec that was written back may lose an empty list. */
  ghost predicate Next(w: Behaviour, k: Context, s: State, s': State, r: Result<Observation, Error>) {
    var (c, p, seen) := Reconciling(w, k, s.spec, s.cloud);
    && s'.cloud == c
    && r == seen
    && (s'.spec == p || (p != s.spec && s'.spec == p.(projects := NonEmpty(p.projects))))
  }

  ghost predicate Run(w: Behaviour, k: Context, trace: seq<State>, reports: seq<Result<Observation, Error>>) {
    && |trace| == |reports| + 1
    && forall i :: 0 <= i < |reports| ==> Next(w, k, trace[i], trace[i + 1], reports[i])
  }

  /** The fields late initialization may still fill. */
  function OpenFields(p: EnvironmentParameters, ip: EnvironmentInitParameters): nat {
    One(p.description.None? && ip.description.None?) + One(p.toggleOnList.None? && ip.toggleOnList.None?)
    + One(p.defaultState.None? && ip.defaultState.None?) + One(p.parent.None? && ip.parent.None?)
  }

  predicate LateInitialized(r: Result<Observation, Error>) {
    r.Success? && r.value.lateInitialized
  }

  function LateInits(reports: seq<Result<Observation, Error>>): nat {
    if reports == [] then 0
    else LateInits(reports[..|reports| - 1]) + One(LateInitialized(reports[|reports| - 1]))
  }

  lemma LateInitFillsFields(p: EnvironmentParameters, ip: EnvironmentInitParameters, ext: Environment)
    ensures var (p', changed) := LateInit(p, ip, ext);
            One(changed) + OpenFields(p', ip) <= OpenFields(p, ip)
  {
  }

  lemma LateInitStep(w: Behaviour, k: Context, s: State, s': State, r: Result<Observation, Error>)
    requires Next(w, k, s, s', r)
    ensures One(LateInitialized(r)) + OpenFields(s'.spec, k.init) <= OpenFields(s.spec, k.init)
  {
    var got := Getting(w, s.cloud, k.name).1;
    if got.Success? {
      LateInitFillsFields(s.spec, k.init, got.value);
    }
  }

  lemma RunPrefix(w: Behaviour, k: Context, trace: seq<State>, reports: seq<Result<Observation, Error>>)
    requires Run(w, k, trace, reports) && reports != []
    ensures Run(w, k, trace[..|reports|], reports[..|reports| - 1])
    ensures Next(w, k, trace[|reports| - 1], trace[|reports|], reports[|reports| - 1])
  {
    var n := |reports| - 1;
    forall i | 0 <= i < n ensures Next(w, k, trace[..n + 1][i], trace[..n + 1][i + 1], reports[..n][i]) {
      assert Next(w, k, trace[i], trace[i + 1], reports[i]);
    }
  }

  /** `LateInits` counts the reconciles that report late initialization. */
  lemma {:induction false} LateInitsCounts(reports: seq<Result<Observation, Error>>)
    ensures LateInits(reports) == |set i | 0 <= i < |reports| && reports[i].Success? && reports[i].value.lateInitialized|
  {
    var all := set i | 0 <= i < |reports| && reports[i].Success? && reports[i].value.lateInitialized;
    if reports == [] {
      assert all == {};
    } else {
      var n := |reports| - 1;
      var init := reports[..n];
      var before := set i | 0 <= i < |init| && init[i].Success? && init[i].value.lateInitialized;
      LateInitsCounts(init);
      assert all == before + if LateInitialized(reports[n]) then {n} else {};
    }
  }

  /** Over any run, with faults and edits by others, late initialization is reported at most four times. */
  lemma {:induction false} LateInitAtMostFour(
      w: Behaviour, k: Context, trace: seq<State>, reports: seq<Result<Observation, Error>>)
    requires Run(w, k, trace, reports)
    ensures LateInits(reports) + OpenFields(trace[|reports|].spec, k.init) <= OpenFields(trace[0].spec, k.init) <= 4
  {
    if reports != [] {
      var n := |reports| - 1;
      RunPrefix(w, k, trace, reports);
      LateInitAtMostFour(w, k, trace[..n + 1], reports[..n]);
      LateInitStep(w, k, trace[n], trace[n + 1], reports[n]);
    }
  }

  /** Every field set only in initProvider at the start is still unset in forProvider. */
  predicate StillUnset(start: EnvironmentParameters, ip: EnvironmentInitParameters, p: EnvironmentParameters) {
    && (start.description.None? && ip.description.Some? ==> p.description.None?)
    && (start.toggleOnList.None? && ip.toggleOnList.Some? ==> p.toggleOnList.None?)
    && (start.defaultState.None? && ip.defaultState.Some? ==> p.defaultState.None?)
    && (start.projects.None? && ip.projects.Some? ==> p.projects.None?)
    && (start.parent.None? && ip.parent.Some? ==> p.parent.None?)
  }

  /** The two environments differ in such fields only. */
  predicate DifferInInitOnly(start: EnvironmentParameters, ip: EnvironmentInitParameters, a: Environment, b: Environment) {
    && (a.description == b.description || (start.description.None? && ip.description.Some?))
    && (a.toggleOnList == b.toggleOnList || (start.toggleOnList.None? && ip.toggleOnList.Some?))
    && (a.defaultState == b.defaultState || (start.defaultState.None? && ip.defaultState.Some?))
    && (a.projects == b.projects || (start.projects.None? && ip.projects.Some?))
  }

  /** An update body: never an id or a parent, never a field set only in initProvider. */
  predicate CleanUpdate(start: EnvironmentParameters, ip: EnvironmentInitParameters, b: EnvironmentBody) {
    && b.id.None? && b.parent.None?
    && (start.description.None? && ip.description.Some? ==> b.description.None?)
    && (start.toggleOnList.None? && ip.toggleOnList.Some? ==> b.toggleOnList.None?)
    && (start.defaultState.None? && ip.defaultState.Some? ==> b.defaultState.None?)
    && (start.projects.None? && ip.projects.Some? ==> b.projects.None?)
  }

  /** Every update logged since the start is clean. */
  predicate CleanLog(start: EnvironmentParameters, ip: EnvironmentInitParameters, log: seq<Call>, from: nat) {
    forall i :: from <= i < |log| && log[i].Put? ==> CleanUpdate(start, ip, log[i].body)
  }

  lemma CleanStep(w: Behaviour, k: Context, start: EnvironmentParameters, s: State, s': State,
                  r: Result<Observation, Error>, from: nat)
    requires Next(w, k, s, s', r) && StillUnset(start, k.init, s.spec)
    requires from <= |s.cloud.log| && CleanLog(start, k.init, s.cloud.log, from)
    ensures StillUnset(start, k.init, s'.spec)
    ensures from <= |s'.cloud.log| && CleanLog(start, k.init, s'.cloud.log, from)
  {
    var p := Observing(w, k, s.spec, s.cloud).1;
    assert StillUnset(start, k.init, p);
    assert CleanUpdate(start, k.init, UpdateBody(p));
  }

  /**
   Over any run, with faults and arbitrary edits by others, no update body carries an id or a
   parent, even after late initialization has filled the parent in; and a field set only in
   initProvider never becomes set in forProvider, is never sent in an update, and never
   changes the verdict.
   */
  lemma {:induction false} UpdatesStayClean(
      w: Behaviour, k: Context, trace: seq<State>, reports: seq<Result<Observation, Error>>)
    requires Run(w, k, trace, reports)
    ensures StillUnset(trace[0].spec, k.init, trace[|reports|].spec)
    ensures |trace[0].cloud.log| <= |trace[|reports|].cloud.log|
    ensures CleanLog(trace[0].spec, k.init, trace[|reports|].cloud.log, |trace[0].cloud.log|)
    ensures forall a, b :: DifferInInitOnly(trace[0].spec, k.init, a, b) ==>
              (UpToDate(trace[|reports|].spec, a) <==> UpToDate(trace[|reports|].spec, b))
  {
    if reports != [] {
      var n := |reports| - 1;
      RunPrefix(w, k, trace, reports);
      UpdatesStayClean(w, k, trace[..n + 1], reports[..n]);
      CleanStep(w, k, trace[0].spec, trace[n], trace[n + 1], reports[n], |trace[0].cloud.log|);
    }
  }

  // ---- Convergence ------------------------------------------------------------------------------

  lemma ReplacedLookup(envs: seq<Environment>, e: Environment)
    requires UniqueIds(envs) && e.id in AsMap(envs)
    ensures UniqueIds(Replaced(envs, e)) && Lookup(Replaced(envs, e), e.id) == Success(e)
  {
    AsMapHolds(envs, e.id);
    var i :| 0 <= i < |envs| && envs[i].id == e.id;
    assert Replaced(envs, e)[i] == e && e in Replaced(envs, e);
    LookupRefinesMap(Replaced(envs, e), e.id);
  }

  lemma AppendedLookup(envs: seq<Environment>, e: Environment)
    requires UniqueIds(envs) && e.id !in AsMap(envs)
    ensures UniqueIds(envs + [e]) && Lookup(envs + [e], e.id) == Success(e)
  {
    AsMapHolds(envs, e.id);
    assert e in envs + [e];
    LookupRefinesMap(envs + [e], e.id);
  }

  /** The environment exists and is what the spec asks for. */
  predicate Settled(k: Context, s: State) {
    && UniqueIds(s.cloud.envs)
    && Lookup(s.cloud.envs, k.name).Success?
    && UpToDate(s.spec, Lookup(s.cloud.envs, k.name).value)
  }

  /**
   The guard of the next write: no explicitly empty list of projects against stored ones, or
   against a server's choice.
   */
  predicate Ready(k: Context, s: State) {
    && UniqueIds(s.cloud.envs)
    && var found := Lookup(s.cloud.envs, k.name);
       if found.Success? then Settles(s.spec, found.value) else s.spec.projects != Some([])
  }

  /** An existing environment is only listed when it is up to date, else updated in place. */
  lemma ExistingReconcile(w: Behaviour, k: Context, p: EnvironmentParameters, c: Cloud)
    requires Calm(w, c.calls) && Lookup(c.envs, k.name).Success?
    ensures var e := Lookup(c.envs, k.name).value;
            var p1 := LateInit(p, k.init, e).0;
            var (c', p', r) := Reconciling(w, k, p, c);
            && p' == p1
            && if UpToDate(p1, e) then c' == Cloud(c.envs, c.calls + 1, c.log + [List])
               else c'.envs == Replaced(c.envs, w.patches(c.calls + 1, UpdateBody(p1), e)) && c.calls <= c'.calls
  {
  }

  lemma ExistingSettles(w: Behaviour, k: Context, s: State, s': State, r: Result<Observation, Error>)
    requires Lawful(w) && Calm(w, s.cloud.calls) && Next(w, k, s, s', r)
    requires UniqueIds(s.cloud.envs) && Lookup(s.cloud.envs, k.name).Success?
    requires Settles(s.spec, Lookup(s.cloud.envs, k.name).value) || Settled(k, s)
    ensures Settled(k, s') && s.cloud.calls <= s'.cloud.calls
    ensures Settled(k, s) ==> s'.cloud.envs == s.cloud.envs && s'.cloud.log == s.cloud.log + [List]
  {
    var e := Lookup(s.cloud.envs, k.name).value;
    var p := LateInit(s.spec, k.init, e).0;
    LateInitKeepsVerdict(s.spec, k.init, e);
    ExistingReconcile(w, k, s.spec, s.cloud);
    if !UpToDate(p, e) {
      var e' := w.patches(s.cloud.calls + 1, UpdateBody(p), e);
      assert PatchesAt(w, s.cloud.calls + 1, UpdateBody(p), e);
      UpdateConvergesExactlyWhen(p, e, e');
      AsMapHolds(s.cloud.envs, k.name);
      ReplacedLookup(s.cloud.envs, e');
    }
  }

  lemma AbsentSettles(w: Behaviour, k: Context, s: State, s': State, r: Result<Observation, Error>)
    requires Lawful(w) && Calm(w, s.cloud.calls) && k.name != "" && Next(w, k, s, s', r)
    requires UniqueIds(s.cloud.envs) && Lookup(s.cloud.envs, k.name).Failure? && s.spec.projects != Some([])
    ensures Settled(k, s') && s.cloud.calls <= s'.cloud.calls
  {
    var b := CreateBody(k.name, s.spec, k.init);
    var e := w.creates(s.cloud.calls + 1, b);
    assert CreatesAt(w, s.cloud.calls + 1, b) && b.id == Some(k.name);
    CreateConverges(k.name, s.spec, k.init, e);
    AppendedLookup(s.cloud.envs, e);
  }

  /** One reconcile settles, and a settled environment sees no further write. */
  lemma OneReconcileSettles(w: Behaviour, k: Context, s: State, s': State, r: Result<Observation, Error>)
    requires Lawful(w) && Calm(w, s.cloud.calls) && k.name != ""
    requires Next(w, k, s, s', r) && (Ready(k, s) || Settled(k, s))
    ensures Settled(k, s') && s.cloud.calls <= s'.cloud.calls
    ensures Settled(k, s) ==> s'.cloud.envs == s.cloud.envs && s'.cloud.log == s.cloud.log + [List]
  {
    if Lookup(s.cloud.envs, k.name).Success? {
      ExistingSettles(w, k, s, s', r);
    } else {
      AbsentSettles(w, k, s, s', r);
    }
  }

  /**
   Convergence and quiescence: after the first reconcile the environment is settled, and
   every later one only lists.
   */
  lemma {:induction false} ConvergesThenQuiet(
      w: Behaviour, k: Context, trace: seq<State>, reports: seq<Result<Observation, Error>>, i: nat)
    requires Lawful(w) && k.name != ""
    requires Run(w, k, trace, reports) && Ready(k, trace[0]) && 1 <= i < |trace|
    requires Calm(w, trace[0].cloud.calls)
    ensures Settled(k, trace[i]) && trace[0].cloud.calls <= trace[i].cloud.calls
    ensures i > 1 ==> trace[i].cloud.envs == trace[i - 1].cloud.envs && trace[i].cloud.log == trace[i - 1].cloud.log + [List]
  {
    if i > 1 {
      ConvergesThenQuiet(w, k, trace, reports, i - 1);
    }
    OneReconcileSettles(w, k, trace[i - 1], trace[i], reports[i - 1]);
  }
}
