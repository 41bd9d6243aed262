/**
 * Sequences of requests served one after another, each seeing the store the previous
 * one left: what the store holds after a run and what a later lookup answers.
 */
module Traces {
  import opened Wrappers
  import opened Json
  import opened Http
  import opened Handlers

  /** The store after a run of requests, and the response to each request in order. */
  datatype Trace = Trace(store: Store, responses: seq<Response>)

  function Run(store: Store, reqs: seq<Request>): (t: Trace)
    ensures |t.responses| == |reqs|
    decreases |reqs|
  {
    if reqs == [] then
      Trace(store, [])
    else
      var out := Serve(reqs[0], store);
      var rest := Run(out.store, reqs[1..]);
      Trace(rest.store, [out.response] + rest.responses)
  }

  /** The redirections a run stores, in the order it stores them. */
  function Writes(reqs: seq<Request>): seq<Redirection> {
    if reqs == [] then []
    else (if IsAcceptedCreate(reqs[0]) then [reqs[0].body.first.value] else []) + Writes(reqs[1..])
  }

  /** The store after a sequence of inserts, applied first to last. */
  function Apply(store: Store, ws: seq<Redirection>): Store
    decreases |ws|
  {
    if ws == [] then store else Apply(store[ws[0].shortKey := ws[0].resource], ws[1..])
  }

  function Find(store: Store, key: string): Option<string> {
    if key in store then Some(store[key]) else None
  }

  /**
   * What a key should resolve to after a sequence of inserts: the resource of the most
   * recent insert for that key, or what the store held before if there was none.
   */
  function Latest(store: Store, ws: seq<Redirection>, key: string): Option<string> {
    if ws == [] then Find(store, key)
    else if ws[|ws| - 1].shortKey == key then Some(ws[|ws| - 1].resource)
    else Latest(store, ws[..|ws| - 1], key)
  }

  /** The store a run leaves is the initial store with the run's accepted inserts applied in order. */
  lemma {:induction false} RunAppliesWrites(store: Store, reqs: seq<Request>)
    ensures Run(store, reqs).store == Apply(store, Writes(reqs))
    decreases |reqs|
  {
    if reqs != [] {
      var req := reqs[0];
      RunAppliesWrites(Serve(req, store).store, reqs[1..]);
      if IsAcceptedCreate(req) {
        var w := req.body.first.value;
        assert ([w] + Writes(reqs[1..]))[1..] == Writes(reqs[1..]);
      } else {
        assert Writes(reqs) == Writes(reqs[1..]);
      }
    }
  }

  lemma {:induction false} ApplySnoc(store: Store, ws: seq<Redirection>, w: Redirection)
    ensures Apply(store, ws + [w]) == Apply(store, ws)[w.shortKey := w.resource]
    decreases |ws|
  {
    if ws == [] {
      assert ([] + [w])[1..] == [];
    } else {
      assert (ws + [w])[1..] == ws[1..] + [w];
      ApplySnoc(store[ws[0].shortKey := ws[0].resource], ws[1..], w);
    }
  }

  /** Last write wins: after a sequence of inserts every key holds its most recent resource. */
  lemma {:induction false} ApplyIsLatest(store: Store, ws: seq<Redirection>, key: string)
    ensures Find(Apply(store, ws), key) == Latest(store, ws, key)
    decreases |ws|
  {
    if ws != [] {
      var init, last := ws[..|ws| - 1], ws[|ws| - 1];
      assert ws == init + [last];
      ApplySnoc(store, init, last);
      ApplyIsLatest(store, init, key);
    }
  }

  /** After any run, a key resolves to the resource of the latest accepted creation for it. */
  lemma RunLastWriteWins(store: Store, reqs: seq<Request>, key: string)
    ensures Find(Run(store, reqs).store, key) == Latest(store, Writes(reqs), key)
  {
    RunAppliesWrites(store, reqs);
    ApplyIsLatest(store, Writes(reqs), key);
  }

  /** Nothing is ever deleted: every key of the initial store is still present after a run. */
  lemma {:induction false} RunNeverDeletes(store: Store, reqs: seq<Request>)
    ensures store.Keys <= Run(store, reqs).store.Keys
    decreases |reqs|
  {
    if reqs != [] {
      RunNeverDeletes(Serve(reqs[0], store).store, reqs[1..]);
    }
  }

  /** A key no accepted creation names keeps its entry (or its absence) through a run. */
  lemma {:induction false} RunKeepsUntouchedKeys(store: Store, reqs: seq<Request>, key: string)
    requires forall i :: 0 <= i < |reqs| && IsAcceptedCreate(reqs[i]) ==> reqs[i].body.first.value.shortKey != key
    ensures Find(Run(store, reqs).store, key) == Find(store, key)
    decreases |reqs|
  {
    if reqs != [] {
      forall i | 0 <= i < |reqs[1..]| && IsAcceptedCreate(reqs[1..][i])
        ensures reqs[1..][i].body.first.value.shortKey != key
      {
        assert reqs[1..][i] == reqs[i + 1];
      }
      RunKeepsUntouchedKeys(Serve(reqs[0], store).store, reqs[1..], key);
    }
  }

  /** A run in which every request is rejected leaves the store exactly as it was. */
  lemma {:induction false} RejectionsLeaveStoreUnchanged(store: Store, reqs: seq<Request>)
    requires forall i :: 0 <= i < |reqs| ==> !IsAcceptedCreate(reqs[i])
    ensures Run(store, reqs).store == store
    decreases |reqs|
  {
    if reqs != [] {
      assert !IsAcceptedCreate(reqs[0]);
      forall i | 0 <= i < |reqs[1..]| ensures !IsAcceptedCreate(reqs[1..][i]) {
        assert reqs[1..][i] == reqs[i + 1];
      }
      RejectionsLeaveStoreUnchanged(store, reqs[1..]);
    }
  }

  /** The response to the j-th request of a run is the one it gets from the store the earlier requests left. */
  lemma {:induction false} RunResponseAt(store: Store, reqs: seq<Request>, j: nat)
    requires j < |reqs|
    ensures Run(store, reqs).responses[j] == Serve(reqs[j], Run(store, reqs[..j]).store).response
    decreases j
  {
    if j > 0 {
      var next := Serve(reqs[0], store).store;
      RunResponseAt(next, reqs[1..], j - 1);
      assert reqs[1..][j - 1] == reqs[j];
      assert reqs[..j][1..] == reqs[1..][..j - 1];
    }
  }

  /**
   * Requests that only look up paths change nothing, and each is answered from the
   * initial store; in particular asking again for a missing path gives "Not found" again.
   */
  lemma {:induction false} LookupsOnly(store: Store, reqs: seq<Request>)
    requires forall i :: 0 <= i < |reqs| ==> reqs[i].path != CreatePath
    ensures Run(store, reqs).store == store
    ensures forall i :: 0 <= i < |reqs| ==> Run(store, reqs).responses[i] == Lookup(reqs[i].path, store)
    decreases |reqs|
  {
    if reqs != [] {
      forall i | 0 <= i < |reqs[1..]| ensures reqs[1..][i].path != CreatePath {
        assert reqs[1..][i] == reqs[i + 1];
      }
      LookupsOnly(store, reqs[1..]);
      var t := Run(store, reqs);
      forall i | 0 <= i < |reqs| ensures t.responses[i] == Lookup(reqs[i].path, store) {
        if i > 0 {
          assert t.responses[i] == Run(store, reqs[1..]).responses[i - 1];
          assert reqs[1..][i - 1] == reqs[i];
        }
      }
    }
  }

  /**
   * Create, then look up: after an accepted creation of (k, r), a later request for path k
   * is redirected to r, whatever came in between as long as it did not store k again.
   * The key must differ from the creation route, which a lookup can never reach.
   */
  lemma CreateThenLookup(store: Store, create: Request, middle: seq<Request>, lookup: Request)
    requires IsAcceptedCreate(create)
    requires lookup.path == create.body.first.value.shortKey
    requires lookup.path != CreatePath
    requires forall i :: 0 <= i < |middle| && IsAcceptedCreate(middle[i]) ==>
               middle[i].body.first.value.shortKey != lookup.path
    ensures Run(store, [create] + middle + [lookup]).responses[|middle| + 1]
      == Redirected(StatusSeeOther, create.body.first.value.resource)
  {
    var reqs := [create] + middle + [lookup];
    var j := |middle| + 1;
    RunResponseAt(store, reqs, j);
    assert reqs[..j] == [create] + middle;
    assert ([create] + middle)[1..] == middle;
    var afterCreate := Serve(create, store).store;
    RunKeepsUntouchedKeys(afterCreate, middle, lookup.path);
  }

  /** A key registered twice redirects to the resource of the second registration. */
  lemma RegisterTwiceRedirectsToLatest(store: Store, first: Request, second: Request, lookup: Request)
    requires IsAcceptedCreate(first) && IsAcceptedCreate(second)
    requires first.body.first.value.shortKey == second.body.first.value.shortKey == lookup.path
    requires lookup.path != CreatePath
    ensures Run(store, [first, second, lookup]).responses[2]
      == Redirected(StatusSeeOther, second.body.first.value.resource)
  {
    CreateThenLookup(Serve(first, store).store, second, [], lookup);
    assert [first, second, lookup][1..] == [second] + [] + [lookup];
  }

  /** The creation route shadows a stored key "/api/new": a request for it is never redirected. */
  lemma CreatePathNeverRedirects(store: Store, req: Request)
    requires req.path == CreatePath
    ensures !Serve(req, store).response.Redirected?
    ensures CreatePath in store ==> Serve(req, store).response != Lookup(CreatePath, store)
  {
  }
}
