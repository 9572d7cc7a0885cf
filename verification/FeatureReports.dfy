/**
 What each step of the Feature controller reports, against every server and every fault: a
 look that fails writes nothing, a write that fails is never reported as a success, and a
 success means that the server said so.
 */
module FeatureReports {
  import opened Options
  import opened Decimals
  import opened ApiErrors
  import opened FeatureTypes
  import opened FeatureWire
  import opened FeatureConvert
  import opened FeatureDrift
  import opened FeatureServer
  import opened FeatureController
  import opened FeatureRuns

  /** One more call was made and logged. */
  predicate AfterOne(c: Cloud, call: Call, c': Cloud) {
    c'.calls == c.calls + 1 && c'.log == c.log + [call]
  }

  /**
   A look: an error is reported unless it says that the feature is missing; a missing feature
   is reported as absent; a found one with its verdict, and as late-initialized exactly when
   the spec changed. A look never changes the store.
   */
  lemma LookReports(w: Behaviour, k: Context, p: FeatureParameters, c: Cloud)
    ensures var (c', p', r) := Observing(w, k, p, c);
            var store, fault := w.others(c.calls, c.store), w.fails(c.calls);
            && AfterOne(c, Get(k.name), c') && c'.store == store
            && (fault.Some? && !SaysMissing(fault.value) ==> r == Failure(CannotGet(fault.value)) && p' == p)
            && ((fault.Some? && SaysMissing(fault.value)) || (fault.None? && k.name !in store) ==>
                  r == Success(Observation(false, false, false)) && p' == p)
            && (fault.None? && k.name in store ==>
                  r == Success(Observation(true, UpToDate(k.parse, p, store[k.name]), HasOpenValue(p, k.init, store[k.name]))))
            && (r.Success? ==> (r.value.lateInitialized <==> p' != p))
  {
    MissingIsRecognised();
    if w.fails(c.calls).Some? {
      ClassifiedExactlyWhen(w.fails(c.calls).value);
    } else if k.name in w.others(c.calls, c.store) {
      LateInitKeepsVerdict(k.parse, p, k.init, w.others(c.calls, c.store)[k.name]);
      LateInitFillsOpenFields(p, k.init, w.others(c.calls, c.store)[k.name]);
    }
  }

  /** A reconcile whose look fails reports that error and does nothing else. */
  lemma FailedLookStops(w: Behaviour, k: Context, p: FeatureParameters, c: Cloud, e: Error)
    requires w.fails(c.calls) == Some(e) && !SaysMissing(e)
    ensures Reconciling(w, k, p, c)
            == (Cloud(w.others(c.calls, c.store), c.calls + 1, c.log + [Get(k.name)]), p, Failure(CannotGet(e)))
  {
    ClassifiedExactlyWhen(e);
  }

  /** Why a body could not be sent, as the controller reports it. */
  function Unsent(e: SendError, rejected: Error -> ControllerError): ControllerError {
    match e
    case Invalid(cause) => InvalidRules(cause)
    case Unencodable => rejected(NOT_ENCODED)
  }

  /**
   An update: an unsendable body and every error of the reply are reported; success means the
   patch was accepted and stored.
   */
  lemma UpdateReports(w: Behaviour, k: Context, p: FeatureParameters, c: Cloud)
    ensures var (c', r) := UpdatingStep(w, k, p, c);
            var b, store, fault := UpdateBody(k.parse, p), w.others(c.calls, c.store), w.fails(c.calls);
            if b.Failure? then c' == c && r == Failure(Unsent(b.error, e => CannotUpdate(e)))
            else
              && AfterOne(c, Patch(k.name, b.value), c')
              && (fault.Some? ==>
                    && r == Failure(CannotUpdate(fault.value))
                    && c'.store == if w.reaches(c.calls) && k.name in store
                                   then store[k.name := w.patches(c.calls, b.value, store[k.name])] else store)
              && (fault.None? && k.name !in store ==> r == Failure(CannotUpdate(COULD_NOT_FIND)) && c'.store == store)
              && (fault.None? && k.name in store ==>
                    r == Success(()) && c'.store == store[k.name := w.patches(c.calls, b.value, store[k.name])])
  {
  }

  /** A create: likewise; success means the post was accepted and what the server made of it is stored. */
  lemma CreateReports(w: Behaviour, k: Context, p: FeatureParameters, c: Cloud)
    ensures var (c', r) := CreatingStep(w, k, p, c);
            var b, store, fault := CreateBody(k.parse, k.name, p, k.init), w.others(c.calls, c.store), w.fails(c.calls);
            if b.Failure? then c' == c && r == Failure(Unsent(b.error, e => CannotCreate(e)))
            else
              var f := w.creates(c.calls, b.value);
              && AfterOne(c, Post(b.value), c')
              && (fault.Some? ==>
                    && r == Failure(CannotCreate(fault.value))
                    && c'.store == if w.reaches(c.calls) && f.id !in store then store[f.id := f] else store)
              && (fault.None? && f.id in store ==> r.Failure? && c'.store == store)
              && (fault.None? && f.id !in store ==> r == Success(()) && c'.store == store[f.id := f])
  {
  }

  /** Two calls of one reconcile, the second answered with an error: the reconcile reports it. */
  lemma FailedWriteIsReported(w: Behaviour, k: Context, p: FeatureParameters, c: Cloud, e: Error)
    requires var (_, p1, seen) := Observing(w, k, p, c); WriteFor(k, p1, seen) != []
    requires w.fails(c.calls + 1) == Some(e)
    ensures var r := Reconciling(w, k, p, c).2;
            r == Failure(if Observing(w, k, p, c).2.value.found then CannotUpdate(e) else CannotCreate(e))
  {
    var (c1, p1, seen) := Observing(w, k, p, c);
    UpdateReports(w, k, p1, c1);
    CreateReports(w, k, p1, c1);
  }

  /** A spec that cannot be created: the reconcile of an absent feature reports why and sends nothing. */
  lemma BadCreateSurfaces(w: Behaviour, k: Context, p: FeatureParameters, c: Cloud)
    requires w.fails(c.calls).None? && k.name !in w.others(c.calls, c.store)
    requires CreateBody(k.parse, k.name, p, k.init).Failure?
    ensures Reconciling(w, k, p, c)
            == (Cloud(w.others(c.calls, c.store), c.calls + 1, c.log + [Get(k.name)]), p,
                Failure(Unsent(CreateBody(k.parse, k.name, p, k.init).error, e => CannotCreate(e))))
  {
    LookReports(w, k, p, c);
    CreateReports(w, k, p, Observing(w, k, p, c).0);
  }

  /** A reconcile that succeeds saw the feature up to date, or its one write was accepted. */
  lemma SuccessMeansAccepted(w: Behaviour, k: Context, p: FeatureParameters, c: Cloud)
    requires Reconciling(w, k, p, c).2.Success?
    ensures var (_, p1, seen) := Observing(w, k, p, c);
            && seen.Success? && Reconciling(w, k, p, c).2 == seen
            && (seen.value.upToDate || (|WriteFor(k, p1, seen)| == 1 && w.fails(c.calls + 1).None?))
  {
    var (c1, p1, seen) := Observing(w, k, p, c);
    UpdateReports(w, k, p1, c1);
    CreateReports(w, k, p1, c1);
  }
}
