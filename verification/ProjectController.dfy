/**
 internal/controller/project/project.go: the steps of a Project, whose id the server
 assigns and Create records as the external name, and whole runs of them.
 */
module ProjectController {
  import opened Options
  import opened ApiErrors
  import opened Decimals
  import opened ProjectConvert

  type Store = map<string, Project>

  datatype Call = Get(id: string) | Post(body: ProjectBody) | Put(id: string, body: ProjectBody) | Delete(id: string)

  /**
   The store and what happened so far: the calls, the ids the server issued, the ids whose
   reply arrived, and how many replies to a create were lost.
   */
  datatype Cloud = Cloud(store: Store, calls: nat, log: seq<Call>, issued: seq<string>, arrived: seq<string>, lost: nat)

  datatype Behaviour = Behaviour(
    creates: (nat, ProjectBody, Store) -> Project,
    patches: (nat, ProjectBody, Project) -> Project,
    fails: nat -> Option<Error>,
    loses: nat -> bool,
    others: (nat, Store) -> Store)

  /** The server issues a fresh non-empty id and keeps the create contract at the n-th call. */
  ghost predicate CreatesAt(w: Behaviour, n: nat, b: ProjectBody, s: Store) {
    w.creates(n, b, s).id != "" && w.creates(n, b, s).id !in s && Stores(b, w.creates(n, b, s))
  }

  /** The server keeps the patch contract at the n-th call. */
  ghost predicate PatchesAt(w: Behaviour, n: nat, b: ProjectBody, f: Project) {
    Patches(b, f, w.patches(n, b, f))
  }

  /** The server issues fresh non-empty ids, keeps its contract, and reports missing projects only when they are. */
  ghost predicate Lawful(w: Behaviour) {
    && (forall n, b, s :: CreatesAt(w, n, b, s))
    && (forall n, b, f :: PatchesAt(w, n, b, f))
    && (forall n :: w.fails(n).Some? ==> !IsNotFound(w.fails(n).value))
  }

  /** Nobody else deletes a project. */
  ghost predicate NoOutsideDeletion(w: Behaviour) {
    forall n, s, id {:trigger id in w.others(n, s)} :: id in s ==> id in w.others(n, s)
  }

  /** From this call on, nobody else acts, every call is answered and no reply is lost. */
  ghost predicate Calm(w: Behaviour, since: nat) {
    && (forall n, store :: since <= n ==> w.others(n, store) == store)
    && (forall n :: since <= n ==> w.fails(n).None? && !w.loses(n))
  }

  /** There is always an id nobody has. */
  lemma {:induction false} FreshIdExists(taken: set<string>)
    ensures exists id: string :: id != "" && id !in taken
  {
    var n := LongestOf(taken);
    var id := seq(n + 1, _ => 'x');
    assert id != "" && id !in taken;
  }

  lemma {:induction false} LongestOf(taken: set<string>) returns (n: nat)
    ensures forall id :: id in taken ==> |id| <= n
  {
    n := 0;
    if taken != {} {
      var first :| first in taken;
      n := LongestOf(taken - {first});
      n := if n < |first| then |first| else n;
    }
  }

  ghost function FreshId(s: Store): (id: string)
    ensures id != "" && id !in s
  {
    FreshIdExists(s.Keys);
    var id: string :| id != "" && id !in s;
    id
  }

  /** The contract can be kept: such a server exists, with no faults and nobody else around. */
  lemma LawfulServerExists()
    ensures exists w :: Lawful(w) && NoOutsideDeletion(w) && Calm(w, 0)
  {
    var w := Behaviour((n, b, s) => PlainPatch(b, Project(FreshId(s), "", "", "", None, None)),
                       (n, b, f) => PlainPatch(b, f), n => None, n => false, (n, s) => s);
    assert Lawful(w) && NoOutsideDeletion(w) && Calm(w, 0);
  }

  function Arrive(w: Behaviour, c: Cloud, call: Call): Cloud {
    c.(store := w.others(c.calls, c.store), calls := c.calls + 1, log := c.log + [call])
  }

  const LOST := OtherError("request failed")

  function Getting(w: Behaviour, c: Cloud, id: string): (Cloud, Result<Project, Error>) {
    var c1 := Arrive(w, c, Get(id));
    if w.fails(c.calls).Some? then (c1, Failure(w.fails(c.calls).value))
    else if id in c1.store then (c1, Success(c1.store[id]))
    else (c1, Failure(COULD_NOT_FIND_400))
  }

  function Posting(w: Behaviour, c: Cloud, body: ProjectBody): (Cloud, Result<Project, Error>) {
    var c1 := Arrive(w, c, Post(body));
    var f := w.creates(c.calls, body, c1.store);
    if w.fails(c.calls).Some? then (c1, Failure(w.fails(c.calls).value))
    else if w.loses(c.calls) then
      (c1.(store := c1.store[f.id := f], issued := c1.issued + [f.id], lost := c1.lost + 1), Failure(LOST))
    else
      (c1.(store := c1.store[f.id := f], issued := c1.issued + [f.id], arrived := c1.arrived + [f.id]), Success(f))
  }

  function Putting(w: Behaviour, c: Cloud, id: string, body: ProjectBody): (Cloud, Result<Project, Error>) {
    var c1 := Arrive(w, c, Put(id, body));
    if w.fails(c.calls).Some? then (c1, Failure(w.fails(c.calls).value))
    else if id !in c1.store then (c1, Failure(COULD_NOT_FIND))
    else
      var f := w.patches(c.calls, body, c1.store[id]);
      (c1.(store := c1.store[id := f]), Success(f))
  }

  function Deleting(w: Behaviour, c: Cloud, id: string): (Cloud, Result<(), Error>) {
    var c1 := Arrive(w, c, Delete(id));
    if w.fails(c.calls).Some? then (c1, Failure(w.fails(c.calls).value))
    else if id !in c1.store then (c1, Failure(COULD_NOT_FIND))
    else (c1.(store := c1.store - {id}), Success(()))
  }

  class Client {
    const behaviour: Behaviour
    var cloud: Cloud

    constructor (behaviour: Behaviour, cloud: Cloud)
      ensures this.behaviour == behaviour && this.cloud == cloud
    {
      this.behaviour, this.cloud := behaviour, cloud;
    }

    method GetProject(id: string) returns (r: Result<Project, Error>)
      modifies this
      ensures (cloud, r) == Getting(behaviour, old(cloud), id)
    {
      var reply := Getting(behaviour, cloud, id);
      cloud, r := reply.0, reply.1;
    }

    method CreateProject(body: ProjectBody) returns (r: Result<Project, Error>)
      modifies this
      ensures (cloud, r) == Posting(behaviour, old(cloud), body)
    {
      var reply := Posting(behaviour, cloud, body);
      cloud, r := reply.0, reply.1;
    }

    method UpdateProject(id: string, body: ProjectBody) returns (r: Result<Project, Error>)
      modifies this
      ensures (cloud, r) == Putting(behaviour, old(cloud), id, body)
    {
      var reply := Putting(behaviour, cloud, id, body);
      cloud, r := reply.0, reply.1;
    }

    method DeleteProject(id: string) returns (r: Result<(), Error>)
      modifies this
      ensures (cloud, r) == Deleting(behaviour, old(cloud), id)
    {
      var reply := Deleting(behaviour, cloud, id);
      cloud, r := reply.0, reply.1;
    }
  }

  // ---- The controller ---------------------------------------------------------------------

  datatype ControllerError = ApiFailure(err: Error) | InvalidSettings(cause: SendError)

  datatype Observation = Observation(found: bool, upToDate: bool, lateInitialized: bool)

  datatype Context = Context(parse: ParseFloat, init: ProjectInitParameters)

  /** The persisted part of the resource and the server. */
  datatype State = State(name: string, spec: ProjectParameters, cloud: Cloud)

  function Observing(w: Behaviour, k: Context, s: State): (State, Result<Observation, ControllerError>) {
    if s.name == "" then (s, Success(Observation(false, false, false)))
    else
      var (c1, got) := Getting(w, s.cloud, s.name);
      if got.Failure? then
        (s.(cloud := c1),
         if IsNotFound(got.error) then Success(Observation(false, false, false)) else Failure(ApiFailure(got.error)))
      else
        var (p1, changed) := LateInit(s.spec, k.init, got.value);
        (s.(spec := p1, cloud := c1), Success(Observation(true, UpToDate(k.parse, p1, got.value), changed)))
  }

  function CreatingStep(w: Behaviour, k: Context, s: State): (State, Result<(), ControllerError>) {
    var body := Body(k.parse, Merged(s.spec, k.init));
    if body.Failure? then (s, Failure(InvalidSettings(body.error)))
    else
      var (c1, r) := Posting(w, s.cloud, body.value);
      if r.Failure? then (s.(cloud := c1), Failure(ApiFailure(r.error)))
      else (s.(name := r.value.id, cloud := c1), Success(()))
  }

  function UpdatingStep(w: Behaviour, k: Context, s: State): (State, Result<(), ControllerError>) {
    var body := Body(k.parse, s.spec);
    if body.Failure? then (s, Failure(InvalidSettings(body.error)))
    else
      var (c1, r) := Putting(w, s.cloud, s.name, body.value);
      (s.(cloud := c1), if r.Failure? then Failure(ApiFailure(r.error)) else Success(()))
  }

  function DeletingStep(w: Behaviour, s: State): (State, Result<(), ControllerError>) {
    if s.name == "" then (s, Success(()))
    else
      var (c1, r) := Deleting(w, s.cloud, s.name);
      (s.(cloud := c1),
       if r.Failure? && !IsNotFound(r.error) then Failure(ApiFailure(r.error)) else Success(()))
  }

  /** One reconcile: observe, then at most one of create and update; the new external name is persisted. */
  function Reconciling(w: Behaviour, k: Context, s: State): (State, Result<Observation, ControllerError>) {
    var (s1, seen) := Observing(w, k, s);
    if seen.Failure? || seen.value.upToDate then (s1, seen)
    else
      var (s2, done) := if seen.value.found then UpdatingStep(w, k, s1) else CreatingStep(w, k, s1);
      (s2, if done.Failure? then Failure(done.error) else seen)
  }

  class Resource {
    var externalName: string
    const initProvider: ProjectInitParameters
    var forProvider: ProjectParameters

    constructor (p: ProjectParameters, ip: ProjectInitParameters)
      ensures externalName == "" && forProvider == p && initProvider == ip
    {
      externalName, forProvider, initProvider := "", p, ip;
    }
  }

  class External {
    const parse: ParseFloat
    const client: Client

    constructor (parse: ParseFloat, client: Client)
      ensures this.parse == parse && this.client == client
    {
      this.parse, this.client := parse, client;
    }

    function ContextOf(cr: Resource): Context {
      Context(parse, cr.initProvider)
    }

    function StateOf(cr: Resource): State
      reads cr, client
    {
      State(cr.externalName, cr.forProvider, client.cloud)
    }

    method LateInitialize(cr: Resource, ext: Project) returns (changed: bool)
      modifies cr`forProvider
      ensures (cr.forProvider, changed) == LateInit(old(cr.forProvider), cr.initProvider, ext)
    {
      if cr.forProvider.publicId.Some? || cr.initProvider.publicId.Some? || ext.publicId == "" {
        return false;
      }
      var v := ext.publicId;
      cr.forProvider := cr.forProvider.(publicId := Some(v));
      return true;
    }

    method Observe(cr: Resource) returns (r: Result<Observation, ControllerError>)
      modifies cr`forProvider, client
      ensures (StateOf(cr), r) == Observing(client.behaviour, ContextOf(cr), old(StateOf(cr)))
    {
      var id := cr.externalName;
      if id == "" {
        return Success(Observation(false, false, false));
      }
      var p := client.GetProject(id);
      if p.Failure? {
        if IsNotFound(p.error) {
          return Success(Observation(false, false, false));
        }
        return Failure(ApiFailure(p.error));
      }
      var lateInit := LateInitialize(cr, p.value);
      return Success(Observation(true, UpToDate(parse, cr.forProvider, p.value), lateInit));
    }

    method Create(cr: Resource) returns (r: Result<(), ControllerError>)
      modifies cr`externalName, client
      ensures (StateOf(cr), r) == CreatingStep(client.behaviour, ContextOf(cr), old(StateOf(cr)))
    {
      var req := CreateRequest(parse, cr.forProvider, cr.initProvider);
      if req.Failure? {
        return Failure(InvalidSettings(req.error));
      }
      if !FiniteSettings(req.value.settings) {
        return Failure(InvalidSettings(Unencodable));
      }
      var p := client.CreateProject(Encode(req.value));
      if p.Failure? {
        return Failure(ApiFailure(p.error));
      }
      cr.externalName := p.value.id;
      return Success(());
    }

    method Update(cr: Resource) returns (r: Result<(), ControllerError>)
      modifies client
      ensures (StateOf(cr), r) == UpdatingStep(client.behaviour, ContextOf(cr), old(StateOf(cr)))
    {
      var req := Request(parse, cr.forProvider);
      if req.Failure? {
        return Failure(InvalidSettings(req.error));
      }
      if !FiniteSettings(req.value.settings) {
        return Failure(InvalidSettings(Unencodable));
      }
      var p := client.UpdateProject(cr.externalName, Encode(req.value));
      if p.Failure? {
        return Failure(ApiFailure(p.error));
      }
      return Success(());
    }

    method Delete(cr: Resource) returns (r: Result<(), ControllerError>)
      modifies client
      ensures (StateOf(cr), r) == DeletingStep(client.behaviour, old(StateOf(cr)))
    {
      var id := cr.externalName;
      if id == "" {
        return Success(());
      }
      var err := client.DeleteProject(id);
      if err.Failure? && !IsNotFound(err.error) {
        return Failure(ApiFailure(err.error));
      }
      return Success(());
    }

    method Reconcile(cr: Resource) returns (r: Result<Observation, ControllerError>)
      modifies cr, client
      ensures (StateOf(cr), r) == Reconciling(client.behaviour, ContextOf(cr), old(StateOf(cr)))
    {
      r := Observe(cr);
      if r.Failure? || r.value.upToDate {
        return;
      }
      var done: Result<(), ControllerError>;
      if r.value.found {
        done := Update(cr);
      } else {
        done := Create(cr);
      }
      if done.Failure? {
        r := Failure(done.error);
      }
    }
  }

  // ---- What a step reports --------------------------------------------------------------------

  /** One more call was made and logged. */
  predicate AfterOne(c: Cloud, call: Call, c': Cloud) {
    c'.calls == c.calls + 1 && c'.log == c.log + [call]
  }

  /** Whether the server has a public id for a spec that has none in either half. */
  predicate HasOpenValue(p: ProjectParameters, ip: ProjectInitParameters, f: Project) {
    p.publicId.None? && ip.publicId.None? && f.publicId != ""
  }

  /**
   A look: without a name none is made and the project is absent; an error is reported unless
   it says that the project is missing; a missing project is absent; a found one is reported
   with its verdict, and as late-initialized exactly when the spec changed.
   */
  lemma LookReports(w: Behaviour, k: Context, s: State)
    ensures var (s', r) := Observing(w, k, s);
            var store, fault := w.others(s.cloud.calls, s.cloud.store), w.fails(s.cloud.calls);
            && s'.name == s.name
            && (s.name == "" ==> s' == s && r == Success(Observation(false, false, false)))
            && (s.name != "" ==>
                  && AfterOne(s.cloud, Get(s.name), s'.cloud) && s'.cloud.store == store
                  && (fault.Some? && !SaysMissing(fault.value) ==> r == Failure(ApiFailure(fault.value)) && s'.spec == s.spec)
                  && ((fault.Some? && SaysMissing(fault.value)) || (fault.None? && s.name !in store) ==>
                        r == Success(Observation(false, false, false)) && s'.spec == s.spec)
                  && (fault.None? && s.name in store ==>
                        r == Success(Observation(true, UpToDate(k.parse, s.spec, store[s.name]),
                                                 HasOpenValue(s.spec, k.init, store[s.name])))))
            && (r.Success? ==> (r.value.lateInitialized <==> s'.spec != s.spec))
  {
    MissingIsRecognised();
    var store := w.others(s.cloud.calls, s.cloud.store);
    if w.fails(s.cloud.calls).Some? {
      ClassifiedExactlyWhen(w.fails(s.cloud.calls).value);
    } else if s.name in store {
      LateInitKeepsVerdict(k.parse, s.spec, k.init, store[s.name]);
      LateInitFillsOpenFields(s.spec, k.init, store[s.name]);
    }
  }

  /** A reconcile whose look fails reports that error and does nothing else. */
  lemma FailedLookStops(w: Behaviour, k: Context, s: State, e: Error)
    requires s.name != "" && w.fails(s.cloud.calls) == Some(e) && !SaysMissing(e)
    ensures Reconciling(w, k, s) == (s.(cloud := Arrive(w, s.cloud, Get(s.name))), Failure(ApiFailure(e)))
    ensures Arrive(w, s.cloud, Get(s.name))
            == s.cloud.(store := w.others(s.cloud.calls, s.cloud.store), calls := s.cloud.calls + 1,
                        log := s.cloud.log + [Get(s.name)])
  {
    ClassifiedExactlyWhen(e);
  }

  /**
   An update: a bad threshold and every error of the reply are reported; success means the
   project was found and patched.
   */
  lemma UpdateReports(w: Behaviour, k: Context, s: State)
    ensures var (s', r) := UpdatingStep(w, k, s);
            var b, store := Body(k.parse, s.spec), w.others(s.cloud.calls, s.cloud.store);
            var fault := w.fails(s.cloud.calls);
            if b.Failure? then s' == s && r == Failure(InvalidSettings(b.error))
            else
              && s' == s.(cloud := s'.cloud) && AfterOne(s.cloud, Put(s.name, b.value), s'.cloud)
              && (fault.Some? ==> r == Failure(ApiFailure(fault.value)) && s'.cloud.store == store)
              && (fault.None? && s.name !in store ==> r == Failure(ApiFailure(COULD_NOT_FIND)) && s'.cloud.store == store)
              && (fault.None? && s.name in store ==>
                    r == Success(()) && s'.cloud.store == store[s.name := w.patches(s.cloud.calls, b.value, store[s.name])])
  {
  }

  /** A create: likewise; the name is recorded exactly when the reply arrives, and it is the id of what is stored. */
  lemma CreateReports(w: Behaviour, k: Context, s: State)
    ensures var (s', r) := CreatingStep(w, k, s);
            var b, store := Body(k.parse, Merged(s.spec, k.init)), w.others(s.cloud.calls, s.cloud.store);
            var fault := w.fails(s.cloud.calls);
            if b.Failure? then s' == s && r == Failure(InvalidSettings(b.error))
            else
              var f := w.creates(s.cloud.calls, b.value, store);
              && s'.spec == s.spec && AfterOne(s.cloud, Post(b.value), s'.cloud)
              && (fault.Some? ==> r == Failure(ApiFailure(fault.value)) && s'.name == s.name && s'.cloud.store == store)
              && (fault.None? && w.loses(s.cloud.calls) ==>
                    r == Failure(ApiFailure(LOST)) && s'.name == s.name && s'.cloud.store == store[f.id := f])
              && (fault.None? && !w.loses(s.cloud.calls) ==>
                    r == Success(()) && s'.name == f.id && s'.cloud.store == store[f.id := f])
  {
  }

  /**
   A delete of a named project: every error but a missing project is reported; without a
   fault the project is gone.
   */
  lemma DeleteReports(w: Behaviour, s: State)
    requires s.name != ""
    ensures var (s', r) := DeletingStep(w, s);
            var store, fault := w.others(s.cloud.calls, s.cloud.store), w.fails(s.cloud.calls);
            && s' == s.(cloud := s'.cloud) && AfterOne(s.cloud, Delete(s.name), s'.cloud)
            && (fault.Some? ==> s'.cloud.store == store
                                && r == if SaysMissing(fault.value) then Success(()) else Failure(ApiFailure(fault.value)))
            && (fault.None? ==> r == Success(()) && s'.cloud.store == store - {s.name})
  {
    MissingIsRecognised();
    if w.fails(s.cloud.calls).Some? {
      ClassifiedExactlyWhen(w.fails(s.cloud.calls).value);
    }
    var store := w.others(s.cloud.calls, s.cloud.store);
    assert s.name !in store ==> store - {s.name} == store;
  }

  /** A reconcile after a look that found drift, or nothing, reports what the write reported. */
  lemma ReconcileReportsWrite(w: Behaviour, k: Context, s: State)
    ensures var (s1, seen) := Observing(w, k, s);
            var (s', r) := Reconciling(w, k, s);
            if seen.Failure? || seen.value.upToDate then s' == s1 && r == seen
            else
              var (s2, done) := if seen.value.found then UpdatingStep(w, k, s1) else CreatingStep(w, k, s1);
              s' == s2 && (done.Failure? ==> r == Failure(done.error)) && (done.Success? ==> r == seen)
  {
  }

  /** A bad threshold in a stored project's spec: every reconcile reports it and sends nothing after the look. */
  lemma BadSpecSurfaces(w: Behaviour, k: Context, s: State)
    requires s.name != "" && w.fails(s.cloud.calls).None? && s.name in w.others(s.cloud.calls, s.cloud.store)
    requires FiniteSettings(w.others(s.cloud.calls, s.cloud.store)[s.name].settings)
    requires Body(k.parse, s.spec).Failure?
    ensures var (s', r) := Reconciling(w, k, s);
            && r == Failure(InvalidSettings(Body(k.parse, s.spec).error))
            && s'.cloud.log == s.cloud.log + [Get(s.name)] && s'.cloud.store == w.others(s.cloud.calls, s.cloud.store)
  {
    var f := w.others(s.cloud.calls, s.cloud.store)[s.name];
    BadSpecIsNeverUpToDate(k.parse, s.spec, f);
    LateInitKeepsVerdict(k.parse, s.spec, k.init, f);
    LateInitFillsOpenFields(s.spec, k.init, f);
    SameSettingsSameError(k.parse, s.spec, LateInit(s.spec, k.init, f).0);
  }

  lemma SameSettingsSameError(parse: ParseFloat, p: ProjectParameters, q: ProjectParameters)
    requires q.settings == p.settings && Body(parse, p).Failure?
    ensures Body(parse, q) == Body(parse, p)
  {
  }

  /** A bad threshold in a spec without a project: the reconcile reports it and sends nothing. */
  lemma BadCreateSurfaces(w: Behaviour, k: Context, s: State)
    requires s.name == "" && Body(k.parse, Merged(s.spec, k.init)).Failure?
    ensures Reconciling(w, k, s) == (s, Failure(InvalidSettings(Body(k.parse, Merged(s.spec, k.init)).error)))
  {
  }

  // ---- Runs -----------------------------------------------------------------------------------

  type Report = Result<Observation, ControllerError>

  ghost predicate Run(w: Behaviour, k: Context, trace: seq<State>, reports: seq<Report>) {
    && |trace| == |reports| + 1
    && forall i :: 0 <= i < |reports| ==> (trace[i + 1], reports[i]) == Reconciling(w, k, trace[i])
  }

  predicate Addressed(call: Call) {
    call.Post? || call.id != ""
  }

  /** Every call logged since the start addresses a project by a non-empty id. */
  predicate AllAddressed(log: seq<Call>, from: nat) {
    forall i :: from <= i < |log| ==> Addressed(log[i])
  }

  function Last(name: string, ids: seq<string>): string {
    if ids == [] then name else ids[|ids| - 1]
  }

  /** Calls since the start are addressed, and the name is the last acknowledged id. */
  predicate Identified(start: string, from: nat, s: State) {
    from <= |s.cloud.log| && AllAddressed(s.cloud.log, from) && s.name == Last(start, s.cloud.arrived)
  }

  lemma ObserveKeepsIdentity(w: Behaviour, k: Context, start: string, from: nat, s: State)
    requires Identified(start, from, s)
    ensures var (s1, seen) := Observing(w, k, s);
            Identified(start, from, s1) && (seen.Success? && seen.value.found ==> s1.name != "")
  {
  }

  lemma WriteKeepsIdentity(w: Behaviour, k: Context, start: string, from: nat, s: State)
    requires Identified(start, from, s)
    ensures Identified(start, from, CreatingStep(w, k, s).0)
    ensures s.name != "" ==> Identified(start, from, UpdatingStep(w, k, s).0)
  {
  }

  lemma IdentityStep(w: Behaviour, k: Context, start: string, from: nat, s: State)
    requires Identified(start, from, s)
    ensures Identified(start, from, Reconciling(w, k, s).0)
  {
    ObserveKeepsIdentity(w, k, start, from, s);
    WriteKeepsIdentity(w, k, start, from, Observing(w, k, s).0);
  }

  /**
   Over any run, with faults, lost replies and edits by others, no GET or PUT carries an empty
   id, and the external name always denotes the last project whose creation was acknowledged.
   */
  lemma {:induction false} NameIsLastCreated(w: Behaviour, k: Context, trace: seq<State>, reports: seq<Report>, i: nat)
    requires Run(w, k, trace, reports) && i < |trace|
    requires trace[0].cloud.arrived == []
    ensures Identified(trace[0].name, |trace[0].cloud.log|, trace[i])
  {
    if i > 0 {
      NameIsLastCreated(w, k, trace, reports, i - 1);
      IdentityStep(w, k, trace[0].name, |trace[0].cloud.log|, trace[i - 1]);
    }
  }

  /** Deleting a project without a name sends nothing; success means the named project is absent. */
  lemma DeleteAddressesItsProject(w: Behaviour, s: State)
    requires Lawful(w)
    ensures var (s', r) := DeletingStep(w, s);
            && (s.name == "" ==> s' == s && r == Success(()))
            && (s.name != "" ==> s'.cloud.log == s.cloud.log + [Delete(s.name)])
            && (s.name != "" && r.Success? ==> s.name !in s'.cloud.store)
  {
    RefusalsAreRecognised();
  }

  /** One project exists per acknowledged create, one more per lost reply, and a recorded name stays stored. */
  predicate Accounted(s: State) {
    && (s.name != "" ==> s.name in s.cloud.store)
    && |s.cloud.issued| == s.cloud.lost + One(s.name != "")
  }

  lemma AccountedStep(w: Behaviour, k: Context, s: State)
    requires Lawful(w) && NoOutsideDeletion(w) && Accounted(s)
    ensures Accounted(Reconciling(w, k, s).0)
  {
    RefusalsAreRecognised();
    if s.name != "" {
      assert s.name in w.others(s.cloud.calls, s.cloud.store);
      var (s1, seen) := Observing(w, k, s);
      assert s.name in w.others(s1.cloud.calls, s1.cloud.store);
    }
    var body := Body(k.parse, Merged(s.spec, k.init));
    if s.name == "" && body.Success? {
      assert CreatesAt(w, s.cloud.calls, body.value, w.others(s.cloud.calls, s.cloud.store));
    }
  }

  /**
   Conservation: without outside deletion, from a resource without a name, the server has at
   every moment created one project for the recorded name and one for each lost reply. So
   when no reply to a create is lost, at most one project is ever created.
   */
  lemma {:induction false} AtMostOneProject(w: Behaviour, k: Context, trace: seq<State>, reports: seq<Report>, i: nat)
    requires Lawful(w) && NoOutsideDeletion(w) && Run(w, k, trace, reports) && i < |trace|
    requires trace[0].name == "" && trace[0].cloud.issued == [] && trace[0].cloud.lost == 0
    ensures Accounted(trace[i])
    ensures trace[i].cloud.lost == 0 ==> |trace[i].cloud.issued| <= 1
  {
    if i > 0 {
      AtMostOneProject(w, k, trace, reports, i - 1);
      AccountedStep(w, k, trace[i - 1]);
    }
  }

  predicate LateInitialized(r: Report) {
    r.Success? && r.value.lateInitialized
  }

  /** A field set only in initProvider is still unset in forProvider. */
  predicate StillUnset(start: ProjectParameters, ip: ProjectInitParameters, p: ProjectParameters) {
    && (start.description.None? && ip.description.Some? ==> p.description.None?)
    && (start.publicId.None? && ip.publicId.Some? ==> p.publicId.None?)
    && (start.restrictAccess.None? && ip.restrictAccess.Some? ==> p.restrictAccess.None?)
    && (start.settings.None? && ip.settings.Some? ==> p.settings.None?)
  }

  /** No update logged since the start carries such a field. */
  predicate NotSent(start: ProjectParameters, ip: ProjectInitParameters, b: ProjectBody) {
    && (start.description.None? && ip.description.Some? ==> b.description.None?)
    && (start.publicId.None? && ip.publicId.Some? ==> b.publicId.None?)
    && (start.restrictAccess.None? && ip.restrictAccess.Some? ==> b.restrictAccess.None?)
    && (start.settings.None? && ip.settings.Some? ==> b.settings.None?)
  }

  predicate CleanLog(start: ProjectParameters, ip: ProjectInitParameters, log: seq<Call>, from: nat) {
    forall i :: from <= i < |log| && log[i].Put? ==> NotSent(start, ip, log[i].body)
  }

  /** The two projects differ in such fields only. */
  predicate DifferInInitOnly(start: ProjectParameters, ip: ProjectInitParameters, a: Project, b: Project) {
    && a.name == b.name
    && (a.description == b.description || (start.description.None? && ip.description.Some?))
    && (a.publicId == b.publicId || (start.publicId.None? && ip.publicId.Some?))
    && (a.restrictAccess == b.restrictAccess || (start.restrictAccess.None? && ip.restrictAccess.Some?))
    && (a.settings == b.settings || (start.settings.None? && ip.settings.Some?))
  }

  /** The spec still lacks those fields, and no update logged since the start carries one. */
  predicate CreateOnly(start: ProjectParameters, ip: ProjectInitParameters, from: nat, s: State) {
    StillUnset(start, ip, s.spec) && from <= |s.cloud.log| && CleanLog(start, ip, s.cloud.log, from)
  }

  lemma ObserveKeepsCreateOnly(w: Behaviour, k: Context, start: ProjectParameters, from: nat, s: State)
    requires CreateOnly(start, k.init, from, s)
    ensures CreateOnly(start, k.init, from, Observing(w, k, s).0)
  {
  }

  lemma UnsetIsNotSent(parse: ParseFloat, start: ProjectParameters, ip: ProjectInitParameters, p: ProjectParameters)
    requires StillUnset(start, ip, p) && Body(parse, p).Success?
    ensures NotSent(start, ip, Body(parse, p).value)
  {
  }

  lemma WriteKeepsCreateOnly(w: Behaviour, k: Context, start: ProjectParameters, from: nat, s: State)
    requires CreateOnly(start, k.init, from, s)
    ensures CreateOnly(start, k.init, from, CreatingStep(w, k, s).0)
    ensures CreateOnly(start, k.init, from, UpdatingStep(w, k, s).0)
  {
    if Body(k.parse, s.spec).Success? {
      UnsetIsNotSent(k.parse, start, k.init, s.spec);
    }
  }

  lemma InitOnlyNeverDrifts(
      parse: ParseFloat, start: ProjectParameters, ip: ProjectInitParameters, p: ProjectParameters, a: Project, b: Project)
    requires StillUnset(start, ip, p) && DifferInInitOnly(start, ip, a, b)
    ensures UpToDate(parse, p, a) <==> UpToDate(parse, p, b)
  {
  }

  /**
   The create-only contract over any run: a field set only in initProvider never becomes set in
   forProvider, is in no update body, and never changes the verdict.
   */
  lemma {:induction false} InitProviderIsCreateOnly(
      w: Behaviour, k: Context, trace: seq<State>, reports: seq<Report>, i: nat)
    requires Run(w, k, trace, reports) && i < |trace|
    ensures CreateOnly(trace[0].spec, k.init, |trace[0].cloud.log|, trace[i])
    ensures forall a, b :: DifferInInitOnly(trace[0].spec, k.init, a, b) ==>
              (UpToDate(k.parse, trace[i].spec, a) <==> UpToDate(k.parse, trace[i].spec, b))
  {
    if i > 0 {
      InitProviderIsCreateOnly(w, k, trace, reports, i - 1);
      ObserveKeepsCreateOnly(w, k, trace[0].spec, |trace[0].cloud.log|, trace[i - 1]);
      WriteKeepsCreateOnly(w, k, trace[0].spec, |trace[0].cloud.log|, Observing(w, k, trace[i - 1]).0);
    }
    forall a, b | DifferInInitOnly(trace[0].spec, k.init, a, b)
      ensures UpToDate(k.parse, trace[i].spec, a) <==> UpToDate(k.parse, trace[i].spec, b)
    {
      InitOnlyNeverDrifts(k.parse, trace[0].spec, k.init, trace[i].spec, a, b);
    }
  }

  lemma LateInitStep(w: Behaviour, k: Context, s: State)
    ensures var (s', r) := Reconciling(w, k, s);
            && (LateInitialized(r) ==> s'.spec.publicId.Some?)
            && (s.spec.publicId.Some? ==> s'.spec.publicId.Some? && !LateInitialized(r))
  {
  }

  /** Late initialization is reported at most once in a run, with faults and edits by others. */
  lemma {:induction false} LateInitAtMostOnce(
      w: Behaviour, k: Context, trace: seq<State>, reports: seq<Report>, i: nat, j: nat)
    requires Run(w, k, trace, reports) && i < j < |trace|
    requires LateInitialized(reports[i])
    ensures trace[j].spec.publicId.Some?
    ensures j < |reports| ==> !LateInitialized(reports[j])
  {
    if j > i + 1 {
      LateInitAtMostOnce(w, k, trace, reports, i, j - 1);
    }
    assert (trace[j], reports[j - 1]) == Reconciling(w, k, trace[j - 1]);
    LateInitStep(w, k, trace[j - 1]);
    if j < |reports| {
      assert (trace[j + 1], reports[j]) == Reconciling(w, k, trace[j]);
      LateInitStep(w, k, trace[j]);
    }
  }

  // ---- Convergence ------------------------------------------------------------------------------

  /** The named project exists and is what the spec asks for. */
  predicate Settled(k: Context, s: State) {
    s.name != "" && s.name in s.cloud.store && UpToDate(k.parse, s.spec, s.cloud.store[s.name])
  }

  /** The next write can be sent, and the required name is set. */
  predicate Ready(k: Context, s: State) {
    && s.spec.name != ""
    && if s.name != "" && s.name in s.cloud.store then Body(k.parse, s.spec).Success?
       else Body(k.parse, Merged(s.spec, k.init)).Success?
  }

  /** A stored project that is up to date is only looked at, another one is updated in place. */
  lemma ExistingReconcile(w: Behaviour, k: Context, s: State)
    requires Calm(w, s.cloud.calls) && s.name != "" && s.name in s.cloud.store
    ensures var f := s.cloud.store[s.name];
            var p := LateInit(s.spec, k.init, f).0;
            var s' := Reconciling(w, k, s).0;
            && s'.name == s.name && s'.spec == p && s.cloud.calls <= s'.cloud.calls
            && (UpToDate(k.parse, p, f) ==>
                  s'.cloud.store == s.cloud.store && s'.cloud.log == s.cloud.log + [Get(s.name)])
            && (!UpToDate(k.parse, p, f) && Body(k.parse, p).Success? ==>
                  s'.cloud.store == s.cloud.store[s.name := w.patches(s.cloud.calls + 1, Body(k.parse, p).value, f)])
  {
  }

  lemma LateInitKeepsBody(parse: ParseFloat, p: ProjectParameters, ip: ProjectInitParameters, ext: Project)
    ensures Body(parse, LateInit(p, ip, ext).0).Success? <==> Body(parse, p).Success?
    ensures LateInit(p, ip, ext).0.name == p.name
  {
  }

  lemma ReadyExistingSettles(w: Behaviour, k: Context, s: State)
    requires Lawful(w) && Calm(w, s.cloud.calls) && s.name != "" && s.name in s.cloud.store
    requires Ready(k, s) || Settled(k, s)
    ensures var s' := Reconciling(w, k, s).0;
            && Settled(k, s') && s'.name == s.name && s.cloud.calls <= s'.cloud.calls
            && (Settled(k, s) ==> s'.cloud.store == s.cloud.store && s'.cloud.log == s.cloud.log + [Get(s.name)])
  {
    var f := s.cloud.store[s.name];
    var p := LateInit(s.spec, k.init, f).0;
    LateInitKeepsVerdict(k.parse, s.spec, k.init, f);
    LateInitKeepsBody(k.parse, s.spec, k.init, f);
    ExistingReconcile(w, k, s);
    if !UpToDate(k.parse, p, f) {
      var b := Body(k.parse, p).value;
      var f' := w.patches(s.cloud.calls + 1, b, f);
      assert PatchesAt(w, s.cloud.calls + 1, b, f);
      UpdateConvergesExactlyWhen(k.parse, p, f, f');
    }
  }

  lemma ReadyAbsentSettles(w: Behaviour, k: Context, s: State)
    requires Lawful(w) && Calm(w, s.cloud.calls) && Ready(k, s)
    requires s.name == "" || s.name !in s.cloud.store
    ensures var s' := Reconciling(w, k, s).0;
            Settled(k, s') && s.cloud.calls <= s'.cloud.calls
  {
    RefusalsAreRecognised();
    var (s1, seen) := Observing(w, k, s);
    assert seen == Success(Observation(false, false, false)) && s1.spec == s.spec && s1.cloud.store == s.cloud.store;
    var b := Body(k.parse, Merged(s.spec, k.init)).value;
    var f := w.creates(s1.cloud.calls, b, s.cloud.store);
    assert CreatesAt(w, s1.cloud.calls, b, s.cloud.store);
    CreateConverges(k.parse, s.spec, k.init, f);
  }

  /**
   Convergence and quiescence: once nobody else acts and no call fails, the first reconcile
   creates or updates the project into what the spec asks, and every later one only looks.
   */
  lemma {:induction false} ConvergesThenQuiet(w: Behaviour, k: Context, trace: seq<State>, reports: seq<Report>, i: nat)
    requires Lawful(w) && Run(w, k, trace, reports) && Ready(k, trace[0]) && 1 <= i < |trace|
    requires Calm(w, trace[0].cloud.calls)
    ensures Settled(k, trace[i]) && trace[0].cloud.calls <= trace[i].cloud.calls
    ensures i > 1 ==> trace[i].cloud.store == trace[i - 1].cloud.store
                      && trace[i].cloud.log == trace[i - 1].cloud.log + [Get(trace[i - 1].name)]
  {
    assert (trace[i], reports[i - 1]) == Reconciling(w, k, trace[i - 1]);
    if i > 1 {
      ConvergesThenQuiet(w, k, trace, reports, i - 1);
      ReadyExistingSettles(w, k, trace[i - 1]);
    } else if trace[0].name != "" && trace[0].name in trace[0].cloud.store {
      ReadyExistingSettles(w, k, trace[0]);
    } else {
      ReadyAbsentSettles(w, k, trace[0]);
    }
  }
}
