/**
 The feature endpoints of the v2 API, and the client methods of
 internal/clients/growthbook/feature.go that call them.

 The server is any behaviour that honours the patch contract of FeatureWire. It chooses
 what it stores, may fail any call before or after the call takes effect, and may demand
 archiving before a delete; other actors may change the store before any call.
 */
module FeatureServer {
  import opened Options
  import opened ApiErrors
  import opened FeatureTypes
  import opened FeatureWire

  type Store = map<string, Feature>

  datatype Call =
    | Get(id: string)
    | Post(body: FeatureBody)
    | Patch(id: string, body: FeatureBody)
    | Delete(id: string)

  /** The store, the number of calls answered so far, and their log. */
  datatype Cloud = Cloud(store: Store, calls: nat, log: seq<Call>)

  datatype Behaviour = Behaviour(
    creates: (nat, FeatureBody) -> Feature,
    patches: (nat, FeatureBody, Feature) -> Feature,
    fails: nat -> Option<Error>,
    reaches: nat -> bool,
    others: (nat, Store) -> Store,
    archiveFirst: nat -> bool)

  /** The server keeps the create contract at the n-th call. */
  ghost predicate CreatesAt(w: Behaviour, n: nat, b: FeatureBody) {
    Creates(b, w.creates(n, b))
  }

  /** The server keeps the patch contract at the n-th call. */
  ghost predicate PatchesAt(w: Behaviour, n: nat, b: FeatureBody, f: Feature) {
    Patches(b, f, w.patches(n, b, f))
  }

  /** The server keeps its contract, and a failing call does not pose as one of the two refusals. */
  ghost predicate Lawful(w: Behaviour) {
    && (forall n, b :: CreatesAt(w, n, b))
    && (forall n, b, f :: PatchesAt(w, n, b, f))
    && (forall n :: w.fails(n).Some? ==> !IsNotFound(w.fails(n).value) && !IsArchiveRequired(w.fails(n).value))
  }

  /** From this call on, no other actor touches the store. */
  ghost predicate Undisturbed(w: Behaviour, since: nat) {
    forall n, store :: since <= n ==> w.others(n, store) == store
  }

  /** From this call on, every call is answered. */
  ghost predicate Faultless(w: Behaviour, since: nat) {
    forall n :: since <= n ==> w.fails(n).None?
  }

  ghost predicate Calm(w: Behaviour, since: nat) {
    Undisturbed(w, since) && Faultless(w, since)
  }

  /** The contract can be kept: such a server exists, with no faults and nobody else around. */
  lemma LawfulServerExists()
    ensures exists w :: Lawful(w) && Calm(w, 0)
  {
    var w := Behaviour((n, b) => Stored(b, "", "", []), (n, b, f) => PlainPatch(b, f),
                       n => None, n => false, (n, store) => store, n => true);
    assert Lawful(w) && Calm(w, 0);
  }

  // ---- The endpoints on values ------------------------------------------------------

  function Arrive(w: Behaviour, c: Cloud, call: Call): Cloud {
    Cloud(w.others(c.calls, c.store), c.calls + 1, c.log + [call])
  }

  function Getting(w: Behaviour, c: Cloud, id: string): (Cloud, Result<Feature, Error>) {
    var c1 := Arrive(w, c, Get(id));
    if w.fails(c.calls).Some? then (c1, Failure(w.fails(c.calls).value))
    else if id in c1.store then (c1, Success(c1.store[id]))
    else (c1, Failure(COULD_NOT_FIND))
  }

  /** The reply of a call: when it fails, the effect may or may not have happened. */
  function Replied<T>(w: Behaviour, n: nat, before: Cloud, after: Cloud, r: Result<T, Error>): (Cloud, Result<T, Error>) {
    if w.fails(n).None? then (after, r)
    else (if w.reaches(n) then after else before, Failure(w.fails(n).value))
  }

  function Posting(w: Behaviour, c: Cloud, body: FeatureBody): (Cloud, Result<Feature, Error>) {
    var c1 := Arrive(w, c, Post(body));
    var f := w.creates(c.calls, body);
    if f.id in c1.store then Replied(w, c.calls, c1, c1, Failure(APIError(409, "feature already exists")))
    else Replied(w, c.calls, c1, c1.(store := c1.store[f.id := f]), Success(f))
  }

  function Patching(w: Behaviour, c: Cloud, id: string, body: FeatureBody): (Cloud, Result<Feature, Error>) {
    var c1 := Arrive(w, c, Patch(id, body));
    if id !in c1.store then Replied(w, c.calls, c1, c1, Failure(COULD_NOT_FIND))
    else
      var f := w.patches(c.calls, body, c1.store[id]);
      Replied(w, c.calls, c1, c1.(store := c1.store[id := f]), Success(f))
  }

  function Deleting(w: Behaviour, c: Cloud, id: string): (Cloud, Result<(), Error>) {
    var c1 := Arrive(w, c, Delete(id));
    if id !in c1.store then Replied(w, c.calls, c1, c1, Failure(COULD_NOT_FIND))
    else if w.archiveFirst(c.calls) && !c1.store[id].archived then Replied(w, c.calls, c1, c1, Failure(ARCHIVE_FIRST))
    else Replied(w, c.calls, c1, c1.(store := c1.store - {id}), Success(()))
  }

  /** A body JSON cannot encode never leaves the client. */
  const NOT_ENCODED := OtherError("cannot encode request body")

  function Creation(w: Behaviour, c: Cloud, req: FeatureRequest): (Cloud, Result<Feature, Error>) {
    if Encodable(req) then Posting(w, c, Encode(req)) else (c, Failure(NOT_ENCODED))
  }

  /** An update travels without id and valueType. */
  function PatchRequest(req: FeatureRequest): FeatureRequest {
    req.(id := "", valueType := "")
  }

  /** Whatever an update asks, neither id nor valueType is on the wire, and everything else is. */
  lemma UpdatesTravelWithoutIdentity(req: FeatureRequest)
    requires Encodable(PatchRequest(req))
    ensures var b := Encode(PatchRequest(req));
            && b.id == None && b.valueType == None
            && Encodable(req) && b == Encode(req).(id := None, valueType := None)
  {
  }

  function Updated(w: Behaviour, c: Cloud, id: string, req: FeatureRequest): (Cloud, Result<Feature, Error>) {
    if Encodable(PatchRequest(req)) then Patching(w, c, id, Encode(PatchRequest(req))) else (c, Failure(NOT_ENCODED))
  }

  // ---- The client ---------------------------------------------------------------------

  class Client {
    const behaviour: Behaviour
    var store: Store
    var calls: nat
    var log: seq<Call>

    constructor (behaviour: Behaviour, store: Store)
      ensures this.behaviour == behaviour && State() == Cloud(store, 0, [])
    {
      this.behaviour, this.store, this.calls, this.log := behaviour, store, 0, [];
    }

    function State(): Cloud
      reads this
    {
      Cloud(store, calls, log)
    }

    /** Sends one call: other actors act first, then the call is logged and answered or not. */
    method Send(call: Call) returns (fault: Option<Error>, reaches: bool)
      modifies this
      ensures State() == Arrive(behaviour, old(State()), call)
      ensures fault == behaviour.fails(old(calls)) && reaches == (fault.None? || behaviour.reaches(old(calls)))
    {
      fault := behaviour.fails(calls);
      reaches := fault.None? || behaviour.reaches(calls);
      store := behaviour.others(calls, store);
      calls := calls + 1;
      log := log + [call];
    }

    method GetFeature(id: string) returns (r: Result<Feature, Error>)
      modifies this
      ensures (State(), r) == Getting(behaviour, old(State()), id)
    {
      var fault, _ := Send(Get(id));
      if fault.Some? {
        return Failure(fault.value);
      }
      if id !in store {
        return Failure(COULD_NOT_FIND);
      }
      return Success(store[id]);
    }

    method CreateFeature(req: FeatureRequest) returns (r: Result<Feature, Error>)
      modifies this
      ensures (State(), r) == Creation(behaviour, old(State()), req)
    {
      if !Encodable(req) {
        return Failure(NOT_ENCODED);
      }
      var f := behaviour.creates(calls, Encode(req));
      var fault, reaches := Send(Post(Encode(req)));
      if f.id in store {
        r := Failure(APIError(409, "feature already exists"));
      } else {
        r := Success(f);
        if reaches {
          store := store[f.id := f];
        }
      }
      if fault.Some? {
        r := Failure(fault.value);
      }
    }

    method UpdateFeature(id: string, request: FeatureRequest) returns (r: Result<Feature, Error>)
      modifies this
      ensures (State(), r) == Updated(behaviour, old(State()), id, request)
    {
      var req := request;
      req := req.(id := "");
      req := req.(valueType := "");
      if !Encodable(req) {
        return Failure(NOT_ENCODED);
      }
      var n := calls;
      var fault, reaches := Send(Patch(id, Encode(req)));
      if id !in store {
        r := Failure(COULD_NOT_FIND);
      } else {
        var f := behaviour.patches(n, Encode(req), store[id]);
        r := Success(f);
        if reaches {
          store := store[id := f];
        }
      }
      if fault.Some? {
        r := Failure(fault.value);
      }
    }

    method DeleteFeature(id: string) returns (r: Result<(), Error>)
      modifies this
      ensures (State(), r) == Deleting(behaviour, old(State()), id)
    {
      var n := calls;
      var fault, reaches := Send(Delete(id));
      if id !in store {
        r := Failure(COULD_NOT_FIND);
      } else if behaviour.archiveFirst(n) && !store[id].archived {
        r := Failure(ARCHIVE_FIRST);
      } else {
        r := Success(());
        if reaches {
          store := store - {id};
        }
      }
      if fault.Some? {
        r := Failure(fault.value);
      }
    }
  }
}
