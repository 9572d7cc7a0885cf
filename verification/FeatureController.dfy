/**
 internal/controller/feature/feature.go: Observe, Create, Update and Delete of one
 Feature resource against the client, and the thin driver that joins them.
 */
module FeatureController {
  import opened Options
  import opened Decimals
  import opened ApiErrors
  import opened FeatureTypes
  import opened FeatureWire
  import opened FeatureConvert
  import opened FeatureServer

  datatype ControllerError =
    | CannotGet(err: Error)
    | CannotCreate(err: Error)
    | CannotUpdate(err: Error)
    | CannotDelete(err: Error)
    | CannotArchive(err: Error)
    | InvalidRules(cause: RequestError)

  datatype Observation = Observation(found: bool, upToDate: bool, lateInitialized: bool)

  /** What a step works with: the decimal parser, the external name, and initProvider. */
  datatype Context = Context(parse: ParseFloat, name: string, init: FeatureInitParameters)

  // ---- The steps on values ----------------------------------------------------------

  function Observing(w: Behaviour, k: Context, p: FeatureParameters, c: Cloud)
    : (Cloud, FeatureParameters, Result<Observation, ControllerError>)
  {
    var (c1, got) := Getting(w, c, k.name);
    if got.Failure? then
      (c1, p, if IsNotFound(got.error) then Success(Observation(false, false, false)) else Failure(CannotGet(got.error)))
    else
      var (p1, changed) := LateInit(p, k.init, got.value);
      (c1, p1, Success(Observation(true, UpToDate(k.parse, p1, got.value), changed)))
  }

  function CreatingStep(w: Behaviour, k: Context, p: FeatureParameters, c: Cloud): (Cloud, Result<(), ControllerError>) {
    var req := Creating(k.parse, k.name, p, k.init);
    if req.Failure? then (c, Failure(InvalidRules(req.error)))
    else
      var (c1, r) := Creation(w, c, req.value);
      (c1, if r.Failure? then Failure(CannotCreate(r.error)) else Success(()))
  }

  function UpdatingStep(w: Behaviour, k: Context, p: FeatureParameters, c: Cloud): (Cloud, Result<(), ControllerError>) {
    var req := Updating(k.parse, p);
    if req.Failure? then (c, Failure(InvalidRules(req.error)))
    else
      var (c1, r) := Updated(w, c, k.name, req.value);
      (c1, if r.Failure? then Failure(CannotUpdate(r.error)) else Success(()))
  }

  /** The request that archives and sends nothing else. */
  const ARCHIVE := FeatureRequest("", "", "", None, None, None, Some(true), None, None, None)

  /** Delete, and when refused until archived, archive and delete once more. */
  function DeletingStep(w: Behaviour, name: string, c: Cloud): (Cloud, Result<(), ControllerError>) {
    var (c1, first) := Deleting(w, c, name);
    if first.Success? || IsNotFound(first.error) then (c1, Success(()))
    else if !IsArchiveRequired(first.error) then (c1, Failure(CannotDelete(first.error)))
    else
      var (c2, archived) := Updated(w, c1, name, ARCHIVE);
      if archived.Failure? then (c2, Failure(CannotArchive(archived.error)))
      else
        var (c3, second) := Deleting(w, c2, name);
        (c3, if second.Failure? && !IsNotFound(second.error) then Failure(CannotDelete(second.error)) else Success(()))
  }

  /** One reconcile: observe, then at most one of create and update. */
  function Reconciling(w: Behaviour, k: Context, p: FeatureParameters, c: Cloud)
    : (Cloud, FeatureParameters, Result<Observation, ControllerError>)
  {
    var (c1, p1, seen) := Observing(w, k, p, c);
    if seen.Failure? || seen.value.upToDate then (c1, p1, seen)
    else
      var (c2, done) := if seen.value.found then UpdatingStep(w, k, p1, c1) else CreatingStep(w, k, p1, c1);
      (c2, p1, if done.Failure? then Failure(done.error) else seen)
  }

  // ---- The steps on objects ---------------------------------------------------------

  /** A Feature managed resource: its external name and the two halves of its spec. */
  class Resource {
    const externalName: string
    const initProvider: FeatureInitParameters
    var forProvider: FeatureParameters

    constructor (name: string, p: FeatureParameters, ip: FeatureInitParameters)
      ensures externalName == name && forProvider == p && initProvider == ip
    {
      externalName, forProvider, initProvider := name, p, ip;
    }
  }

  class External {
    const parse: ParseFloat
    const client: Client

    constructor (parse: ParseFloat, client: Client)
      ensures this.parse == parse && this.client == client
    {
      this.parse, this.client := parse, client;
    }

    function ContextOf(cr: Resource): Context {
      Context(parse, cr.externalName, cr.initProvider)
    }

    method Observe(cr: Resource) returns (r: Result<Observation, ControllerError>)
      modifies cr`forProvider, client
      ensures (client.State(), cr.forProvider, r)
              == Observing(client.behaviour, ContextOf(cr), old(cr.forProvider), old(client.State()))
    {
      var f := client.GetFeature(cr.externalName);
      if f.Failure? {
        if IsNotFound(f.error) {
          return Success(Observation(false, false, false));
        }
        return Failure(CannotGet(f.error));
      }
      var p, lateInit := LateInitialize(cr.forProvider, cr.initProvider, f.value);
      cr.forProvider := p;
      var upToDate := IsUpToDate(parse, cr.forProvider, f.value);
      return Success(Observation(true, upToDate, lateInit));
    }

    method Create(cr: Resource) returns (r: Result<(), ControllerError>)
      modifies client
      ensures (client.State(), r)
              == CreatingStep(client.behaviour, ContextOf(cr), cr.forProvider, old(client.State()))
    {
      var req := CreateRequest(parse, cr.externalName, cr.forProvider, cr.initProvider);
      if req.Failure? {
        return Failure(InvalidRules(req.error));
      }
      var f := client.CreateFeature(req.value);
      if f.Failure? {
        return Failure(CannotCreate(f.error));
      }
      return Success(());
    }

    method Update(cr: Resource) returns (r: Result<(), ControllerError>)
      modifies client
      ensures (client.State(), r)
              == UpdatingStep(client.behaviour, ContextOf(cr), cr.forProvider, old(client.State()))
    {
      var req := UpdateRequest(parse, cr.forProvider);
      if req.Failure? {
        return Failure(InvalidRules(req.error));
      }
      var f := client.UpdateFeature(cr.externalName, req.value);
      if f.Failure? {
        return Failure(CannotUpdate(f.error));
      }
      return Success(());
    }

    method Delete(cr: Resource) returns (r: Result<(), ControllerError>)
      modifies client
      ensures (client.State(), r) == DeletingStep(client.behaviour, cr.externalName, old(client.State()))
    {
      var id := cr.externalName;
      var err := client.DeleteFeature(id);
      if err.Success? || IsNotFound(err.error) {
        return Success(());
      }
      if !IsArchiveRequired(err.error) {
        return Failure(CannotDelete(err.error));
      }
      var archived := client.UpdateFeature(id, ARCHIVE);
      if archived.Failure? {
        return Failure(CannotArchive(archived.error));
      }
      err := client.DeleteFeature(id);
      if err.Failure? && !IsNotFound(err.error) {
        return Failure(CannotDelete(err.error));
      }
      return Success(());
    }

    /** The reconciler of crossplane-runtime, reduced to what it does with this controller. */
    method Reconcile(cr: Resource) returns (r: Result<Observation, ControllerError>)
      modifies cr`forProvider, client
      ensures (client.State(), cr.forProvider, r)
              == Reconciling(client.behaviour, ContextOf(cr), old(cr.forProvider), old(client.State()))
    {
      r := Observe(cr);
      if r.Failure? || r.value.upToDate {
        return;
      }
      var done: Result<(), ControllerError>;
      if r.value.found {
        done := Update(cr);
      } else {
        done := Create(cr);
      }
      if done.Failure? {
        r := Failure(done.error);
      }
    }
  }

  // ---- The delete protocol --------------------------------------------------------------

  /**
   From every state of the store, live, archived or absent, and whether or not the
   organization demands archiving, Delete succeeds and removes the feature and nothing
   else, when from now on no call fails and nobody else acts.
   */
  lemma DeleteAlwaysSucceeds(w: Behaviour, name: string, c: Cloud)
    requires Lawful(w) && Calm(w, c.calls)
    ensures var (c', r) := DeletingStep(w, name, c);
            r == Success(()) && c'.store == c.store - {name}
  {
    RefusalsAreRecognised();
    var (c1, first) := Deleting(w, c, name);
    if first.Failure? && IsArchiveRequired(first.error) {
      var (c2, archived) := Updated(w, c1, name, ARCHIVE);
      assert PatchesAt(w, c1.calls, Encode(ARCHIVE), c1.store[name]);
      assert c2.store[name].archived;
    }
  }

  /** The body of the archive call holds `archived` and nothing else. */
  predicate OnlyArchives(b: FeatureBody) {
    b == FeatureBody(None, None, None, None, None, None, Some(true), None, None, None)
  }

  /**
   Whatever the server and other actors do between the calls, Delete sends a delete, then
   exactly after an archive-required refusal an archiving patch, then exactly after that
   patch succeeded a last delete, and nothing else.
   */
  lemma DeleteIsOrderly(w: Behaviour, name: string, c: Cloud)
    requires Lawful(w)
    ensures OnlyArchives(Encode(ARCHIVE))
    ensures var (c1, first) := Deleting(w, c, name);
            var refused := first.Failure? && IsArchiveRequired(first.error);
            var archived := Updated(w, c1, name, ARCHIVE).1.Success?;
            var sent := [Delete(name), Patch(name, Encode(ARCHIVE)), Delete(name)];
            DeletingStep(w, name, c).0.log == c.log + sent[..if !refused then 1 else if !archived then 2 else 3]
  {
    RefusalsAreRecognised();
    var sent := [Delete(name), Patch(name, Encode(ARCHIVE)), Delete(name)];
    var (c1, first) := Deleting(w, c, name);
    assert sent[..1] == [Delete(name)];
    assert sent[..2] == [Delete(name), Patch(name, Encode(ARCHIVE))];
    assert sent[..3] == sent;
    if first.Failure? && IsArchiveRequired(first.error) {
      NotFoundIsNotArchiveRequired(first.error);
      assert c1.log + [sent[1]] == c.log + sent[..2];
      assert c1.log + [sent[1]] + [sent[2]] == c.log + sent[..3];
    }
  }

  /** Whether the server, asked at this call, wants the feature archived before it is deleted. */
  predicate Refuses(w: Behaviour, n: nat, f: Feature) {
    w.archiveFirst(n) && !f.archived
  }

  /**
   A first delete that fails, other than by saying that the feature is missing or is to be
   archived first, is reported as it is after that one call, and nothing is archived. This
   holds of every server, whatever else its errors say.
   */
  lemma FailedDeleteStops(w: Behaviour, name: string, c: Cloud, e: Error)
    requires w.fails(c.calls) == Some(e) && !SaysMissing(e) && !SaysArchiveFirst(e)
    ensures var (c', r) := DeletingStep(w, name, c);
            r == Failure(CannotDelete(e)) && c'.log == c.log + [Delete(name)] && c'.calls == c.calls + 1
  {
    ClassifiedExactlyWhen(e);
  }

  /** The first delete without a fault: a missing feature and a removed one are success after one call. */
  lemma AnsweredDeleteSucceeds(w: Behaviour, name: string, c: Cloud)
    requires w.fails(c.calls).None?
    ensures var store := w.others(c.calls, c.store);
            name !in store || !Refuses(w, c.calls, store[name]) ==>
              DeletingStep(w, name, c) == (Cloud(store - {name}, c.calls + 1, c.log + [Delete(name)]), Success(()))
  {
    RefusalsAreRecognised();
    var store := w.others(c.calls, c.store);
    assert name !in store ==> store - {name} == store;
  }

  /** After a refusal, an archive call that fails is reported, and the delete is not tried again. */
  lemma FailedArchiveStops(w: Behaviour, name: string, c: Cloud, e: Error)
    requires var store := w.others(c.calls, c.store);
             w.fails(c.calls).None? && name in store && Refuses(w, c.calls, store[name])
    requires w.fails(c.calls + 1) == Some(e)
    ensures var (c', r) := DeletingStep(w, name, c);
            r == Failure(CannotArchive(e)) && c'.calls == c.calls + 2
  {
    RefusalsAreRecognised();
  }

  /** After the archive call, a last delete that fails otherwise than on a missing feature is reported. */
  lemma FailedRetryIsReported(w: Behaviour, name: string, c: Cloud, e: Error)
    requires Lawful(w)
    requires var store := w.others(c.calls, c.store);
             w.fails(c.calls).None? && name in store && Refuses(w, c.calls, store[name])
             && w.fails(c.calls + 1).None? && name in w.others(c.calls + 1, store)
    requires w.fails(c.calls + 2) == Some(e) && !SaysMissing(e)
    ensures var (c', r) := DeletingStep(w, name, c);
            r == Failure(CannotDelete(e)) && c'.calls == c.calls + 3
  {
    RefusalsAreRecognised();
    ClassifiedExactlyWhen(e);
  }

  /** Success means absence: the last delete met, or made, an absent feature. */
  lemma DeleteSuccessMeansAbsent(w: Behaviour, name: string, c: Cloud)
    requires Lawful(w)
    ensures var (c', r) := DeletingStep(w, name, c);
            r.Success? ==> name !in c'.store
  {
    RefusalsAreRecognised();
  }

  /**
   Delete fails in one way more than it has to: when another actor removes the feature
   between the refusal and the archive call, the archive call finds nothing and Delete
   reports an error although the feature is gone.
   */
  lemma DeleteFailsOnAbsentExactlyWhen(w: Behaviour, name: string, c: Cloud)
    requires Lawful(w) && Faultless(w, c.calls)
    ensures var (c', r) := DeletingStep(w, name, c);
            var (c1, first) := Deleting(w, c, name);
            r.Failure? && name !in c'.store
            <==> first == Failure(ARCHIVE_FIRST) && name !in w.others(c1.calls, c1.store)
  {
    RefusalsAreRecognised();
  }
}
