/** The worker's registry of cancellation requests and running attempts, under any interleaving of the
    sections that its lock makes atomic. */
module AsyncCancellation {
  import opened Wrappers
  import opened AsyncForest

  /** `T` identifies tokens; every attempt brings its own. */
  datatype Registry<!T(==)> = Registry(reasons: map<string, string>, active: map<string, T>, cancelled: map<T, string>)

  datatype Section<!T(==)> =
    | Mark(id: string, reason: string)
    | Register(id: string, token: T)
    | Unregister(id: string, token: T)
    | Clear(id: string)

  function Step<T>(r: Registry<T>, s: Section<T>): Registry<T> {
    match s
    case Mark(id, reason) =>
      r.(reasons := r.reasons[id := reason],
         cancelled := if id in r.active then r.cancelled[r.active[id] := reason] else r.cancelled)
    case Register(id, token) =>
      r.(active := r.active[id := token],
         cancelled := if id in r.reasons then r.cancelled[token := r.reasons[id]] else r.cancelled)
    case Unregister(id, token) =>
      if id in r.active && r.active[id] == token then r.(active := r.active - {id}) else r
    case Clear(id) => r.(reasons := r.reasons - {id})
  }

  function After<T>(h: seq<Section<T>>): Registry<T> {
    if h == [] then Registry(map[], map[], map[]) else Step(After(h[..|h| - 1]), h[|h| - 1])
  }

  // ---------------------------------------------------------------- what every step keeps

  /** A run that is both asked to stop and running has been told. */
  ghost predicate Told<T(!new)>(r: Registry<T>) {
    forall id | id in r.reasons && id in r.active :: r.active[id] in r.cancelled
  }

  lemma {:induction false} AlwaysTold<T(!new)>(h: seq<Section<T>>)
    ensures Told(After(h))
  {
    if h != [] {
      AlwaysTold(h[..|h| - 1]);
    }
  }

  /** An older attempt that leaves does not take the token of a newer one away. */
  lemma OlderLeavesNewer<T>(r: Registry<T>, id: string, older: T)
    requires id in r.active && r.active[id] != older
    ensures Step(r, Unregister(id, older)) == r
  {
  }

  lemma {:induction false} CancelledStays<T>(h: seq<Section<T>>, n: nat, token: T)
    requires n <= |h| && token in After(h[..n]).cancelled
    ensures token in After(h).cancelled
    decreases |h| - n
  {
    if n == |h| {
      assert h[..n] == h;
    } else {
      assert h[..n + 1][..n] == h[..n];
      CancelledStays(h, n + 1, token);
    }
  }

  // ---------------------------------------------------------------- which attempts are cancelled

  /** A cancellation marked at `j` that nobody has cleared before `n`. */
  ghost predicate Pending<T(!new)>(h: seq<Section<T>>, id: string, j: nat, n: nat)
    requires n <= |h|
  {
    j < n && h[j].Mark? && h[j].id == id && forall k | j < k < n :: h[k] != Clear(id)
  }

  /** Between `from` and `n` the token stays the one registered for the run. */
  ghost predicate StaysActive<T(!new)>(h: seq<Section<T>>, id: string, token: T, from: nat, n: nat)
    requires n <= |h|
  {
    forall k | from < k < n :: h[k] != Unregister(id, token) && !(h[k].Register? && h[k].id == id)
  }

  /** A cancellation marked at `j` while the attempt that registered at `from` is the registered one. */
  ghost predicate Reaches<T(!new)>(h: seq<Section<T>>, id: string, token: T, from: nat, j: nat)
    requires from < |h|
  {
    from < j < |h| && h[j].Mark? && h[j].id == id && StaysActive(h, id, token, from, j)
  }

  /** The attempt registers at `from`, and only there. */
  ghost predicate Registers<T(!new)>(h: seq<Section<T>>, id: string, token: T, from: nat) {
    && from < |h| && h[from] == Register(id, token)
    && forall k | 0 <= k < |h| && k != from :: !(h[k].Register? && h[k].token == token)
  }

  lemma {:induction false} ReasonsArePending<T(!new)>(h: seq<Section<T>>, id: string, n: nat)
    requires n <= |h|
    ensures id in After(h[..n]).reasons <==> exists j: nat :: Pending(h, id, j, n)
  {
    if n > 0 {
      var m: nat := n - 1;
      ReasonsArePending(h, id, m);
      assert h[..n][..m] == h[..m];
      if h[m].Mark? && h[m].id == id {
        assert Pending(h, id, m, n);
      } else if h[m] != Clear(id) {
        if j: nat :| Pending(h, id, j, m) {
          assert Pending(h, id, j, n);
        }
        if j: nat :| Pending(h, id, j, n) {
          assert Pending(h, id, j, m);
        }
      }
    }
  }

  /** Before it registers, a token is unknown. */
  lemma {:induction false} UnknownBefore<T(!new)>(h: seq<Section<T>>, id: string, token: T, from: nat, n: nat)
    requires Registers(h, id, token, from) && n <= from
    ensures token !in After(h[..n]).cancelled
    ensures forall other | other in After(h[..n]).active :: After(h[..n]).active[other] != token
  {
    if n > 0 {
      UnknownBefore(h, id, token, from, n - 1);
      assert h[..n][..n - 1] == h[..n - 1];
    }
  }

  /** After it registered, the token is registered for its run as long as nobody took its place, and never
      for another. */
  lemma {:induction false} ActiveAfter<T(!new)>(h: seq<Section<T>>, id: string, token: T, from: nat, n: nat)
    requires Registers(h, id, token, from) && from < n <= |h|
    ensures var r := After(h[..n]);
            && (id in r.active && r.active[id] == token <==> StaysActive(h, id, token, from, n))
            && forall other | other in r.active && other != id :: r.active[other] != token
    decreases n
  {
    assert h[..n][..n - 1] == h[..n - 1];
    if n == from + 1 {
      UnknownBefore(h, id, token, from, from);
    } else {
      ActiveAfter(h, id, token, from, n - 1);
    }
  }

  lemma {:induction false} CancelledAfter<T(!new)>(h: seq<Section<T>>, id: string, token: T, from: nat, n: nat)
    requires Registers(h, id, token, from) && from < n <= |h|
    ensures token in After(h[..n]).cancelled
            <==> (exists j: nat :: Pending(h, id, j, from)) || exists j: nat :: j < n && Reaches(h, id, token, from, j)
    decreases n
  {
    var m: nat := n - 1;
    assert h[..n][..m] == h[..m];
    if m == from {
      UnknownBefore(h, id, token, from, from);
      ReasonsArePending(h, id, from);
    } else {
      CancelledAfter(h, id, token, from, m);
      CancelledNext(h, id, token, from, m);
      assert Reaches(h, id, token, from, m) <==> h[m].Mark? && h[m].id == id && StaysActive(h, id, token, from, m);
    }
  }

  /** A section cancels the registered token exactly if it marks its run. */
  lemma CancelledNext<T(!new)>(h: seq<Section<T>>, id: string, token: T, from: nat, m: nat)
    requires Registers(h, id, token, from) && from < m < |h|
    ensures token in After(h[..m + 1]).cancelled
            <==> token in After(h[..m]).cancelled
                 || (h[m].Mark? && h[m].id == id && StaysActive(h, id, token, from, m))
  {
    assert h[..m + 1][..m] == h[..m];
    ActiveAfter(h, id, token, from, m);
  }

  /** Exactly which attempts are told to stop: those for whose run a cancellation was marked before they
      registered and not cleared in between, or while they were the registered attempt. */
  lemma ToldIffMarked<T(!new)>(h: seq<Section<T>>, id: string, token: T, from: nat)
    requires Registers(h, id, token, from)
    ensures token in After(h).cancelled
            <==> (exists j: nat :: Pending(h, id, j, from)) || exists j: nat :: Reaches(h, id, token, from, j)
  {
    CancelledAfter(h, id, token, from, |h|);
    assert h[..|h|] == h;
  }

  /** How a cancellation gets lost: the attempt that went before clears the mark just ahead of the next
      attempt's registration. */
  lemma ClearedByPredecessor(id: string, reason: string)
    ensures var h: seq<Section<nat>> :=
              [Register(id, 1), Unregister(id, 1), Mark(id, reason), Clear(id), Register(id, 2)];
            id in After(h[..3]).reasons && After(h).cancelled == map[] && After(h).active == map[id := 2]
  {
    var h: seq<Section<nat>> := [Register(id, 1), Unregister(id, 1), Mark(id, reason), Clear(id), Register(id, 2)];
    assert h[..5] == h && h[..5][..4] == h[..4] && h[..4][..3] == h[..3] && h[..3][..2] == h[..2];
    assert h[..2][..1] == h[..1] && h[..1][..0] == [];
    assert After(h[..1]) == Registry(map[], map[id := 1], map[]);
    assert After(h[..2]) == Registry(map[], map[], map[]);
    assert After(h[..3]) == Registry(map[id := reason], map[], map[]);
    assert After(h[..4]) == Registry(map[], map[], map[]);
  }

  // ---------------------------------------------------------------- how an attempt is recorded

  datatype Thrown = CancellationThrown | OtherThrown

  /** How a worker records an attempt that ended by an exception. */
  function Recorded<T>(r: Registry<T>, id: string, token: T, thrown: Thrown): Outcome {
    if thrown.CancellationThrown? || id in r.reasons || token in r.cancelled then Stopped else Broke
  }

  /** An attempt that fails is recorded as failed exactly if it was not told to stop and no cancellation of
      its run is pending. */
  lemma FailedIffNotMarked<T(!new)>(h: seq<Section<T>>, id: string, token: T, from: nat)
    requires Registers(h, id, token, from)
    ensures Recorded(After(h), id, token, OtherThrown) == Broke
            <==> && !(exists j: nat :: Pending(h, id, j, from)) && !(exists j: nat :: Reaches(h, id, token, from, j))
                 && !(exists j: nat :: Pending(h, id, j, |h|))
  {
    ToldIffMarked(h, id, token, from);
    ReasonsArePending(h, id, |h|);
    assert h[..|h|] == h;
  }

  // ---------------------------------------------------------------- the registry object

  class CancellationToken {
    var reason: Option<string>

    constructor ()
      ensures reason == None
    {
      reason := None;
    }

    method Cancel(why: string)
      modifies this
      ensures reason == Some(why)
    {
      reason := Some(why);
    }
  }

  class CancellationRegistry {
    var reasons: map<string, string>
    var active: map<string, CancellationToken>

    ghost predicate Valid()
      reads this, active.Values
    {
      forall id | id in reasons && id in active :: active[id].reason.Some?
    }

    constructor ()
      ensures Valid() && reasons == map[] && active == map[]
    {
      reasons, active := map[], map[];
    }

    method IsCancelled(id: string) returns (b: bool)
      ensures b == (id in reasons)
    {
      b := id in reasons;
    }

    method MarkCancelled(id: string, reason: string)
      requires Valid()
      modifies this`reasons, if id in active then {active[id]} else {}
      ensures Valid() && reasons == old(reasons)[id := reason]
      ensures id in active ==> active[id].reason == Some(reason)
    {
      reasons := reasons[id := reason];
      if id in active {
        active[id].Cancel(reason);
      }
    }

    method ClearCancelled(id: string)
      requires Valid()
      modifies this`reasons
      ensures Valid() && reasons == old(reasons) - {id}
    {
      reasons := reasons - {id};
    }

    method RegisterActiveToken(id: string, token: CancellationToken)
      requires Valid()
      modifies this`active, token
      ensures Valid() && active == old(active)[id := token]
      ensures token.reason == if id in reasons then Some(reasons[id]) else old(token.reason)
    {
      active := active[id := token];
      if id in reasons {
        token.Cancel(reasons[id]);
      }
    }

    method UnregisterActiveToken(id: string, token: CancellationToken)
      requires Valid()
      modifies this`active
      ensures Valid()
      ensures active == if id in old(active) && old(active)[id] == token then old(active) - {id} else old(active)
    {
      if id in active && active[id] == token {
        active := active - {id};
      }
    }
  }
}
