/**
 * controllers/helmdog_controller.go: the companion tracker. A HelmDog lists
 * the resources a chart put outside its own namespace or at cluster scope;
 * its reconciler deletes the ones that dropped out of the list, and all of
 * them when the HelmDog itself is deleted.
 */
module HelmDogController {
  import opened Wrappers
  import opened Api
  import opened Store
  import Text
  import Resources

  /** An object carrying this annotation key is never deleted (it is shared by several charts). */
  const KeepAnnotation := "app.siji.io/keep"

  /** Custom resource definitions are never deleted: that would delete every instance cluster-wide. */
  const CrdKind := "CustomResourceDefinition"

  /** The two steps of deleteResource that skip the deletion. */
  predicate Protected(k: Resource, o: Obj) {
    KeepAnnotation in o.annotations || k.kind == CrdKind
  }

  /** The tracked (spec) and reconciled (status) lists of a stored HelmDog; zero values for any other body. */
  function SpecOf(o: Obj): seq<Resource> {
    if o.body.Dog? then o.body.specResources else []
  }

  function StatusOf(o: Obj): seq<Resource> {
    if o.body.Dog? then o.body.statusResources else []
  }

  /**
   * deleteResource (lines 128-170): Get; absent is success; keep annotation
   * or CRD kind: skip; Delete; Get again; if still there with finalizers,
   * clear them with one Update. NotFound at any step counts as success.
   */
  function DeleteProtocol(s: State, res: Resource): (r: Outcome)
    ensures forall k :: k != res ==> (k in r.state.objects <==> k in s.objects)
    ensures forall k :: k != res && k in s.objects ==> r.state.objects[k] == s.objects[k]
    ensures res in r.state.objects ==> res in s.objects
    ensures res in s.objects && Protected(res, s.objects[res]) ==> r.state.objects == s.objects
    ensures PopFault(s).fault.Some? ==> r == Outcome(PopFault(s).state, IgnoreNotFound(PopFault(s).fault.value))
    ensures res !in s.objects && PopFault(s).fault.None? ==> r == Outcome(PopFault(s).state, None)
    ensures Healthy(s) ==> Healthy(r.state) && r.err.None?
    ensures Healthy(s) && res in s.objects && !Protected(res, s.objects[res]) ==> res !in r.state.objects
  {
    var g := GetOp(s, res);
    if g.result.Err? then Outcome(g.state, IgnoreNotFound(g.result.error))
    else if KeepAnnotation in g.result.value.annotations then Outcome(g.state, None)
    else if res.kind == CrdKind then Outcome(g.state, None)
    else
      var d := DeleteOp(g.state, res);
      if d.error.Some? then Outcome(d.state, IgnoreNotFound(d.error.value))
      else
        var g2 := GetOp(d.state, res);
        if g2.result.Err? then Outcome(g2.state, IgnoreNotFound(g2.result.error))
        else if |g2.result.value.finalizers| > 0 then
          var u := UpdateOp(g2.state, res, g2.result.value.(finalizers := []));
          Outcome(u.state, if u.error.Some? then IgnoreNotFound(u.error.value) else None)
        else Outcome(g2.state, None)
  }

  /** The message deleteResources records for one failed resource (line 117). */
  function FailureMessage(res: Resource, msg: string): string {
    "Failed to delete: " + res.kind + "." + res.group + "/" + res.version
    + ", name: " + res.name + ", namespace: " + res.namespace + ", msg: " + msg
  }

  datatype Sweep = Sweep(state: State, errors: seq<string>)

  /** The protocol run on every element, last to first, collecting every failure message. */
  function DeleteAll(s: State, rs: seq<Resource>): Sweep
    decreases |rs|
  {
    if |rs| == 0 then Sweep(s, [])
    else
      var res := rs[|rs| - 1];
      var o := DeleteProtocol(s, res);
      var rest := DeleteAll(o.state, rs[..|rs| - 1]);
      Sweep(rest.state, Reported(res, o) + rest.errors)
  }

  /** The message one failed deletion adds to errMsgs, or nothing. */
  function Reported(res: Resource, o: Outcome): seq<string> {
    if o.err.Some? then [FailureMessage(res, o.err.value)] else []
  }

  /** The error deleteResources returns: none, or every message joined by "," (lines 121-125). */
  function SweepError(errors: seq<string>): Option<string> {
    if |errors| == 0 then None else Some(Text.Join(errors, ","))
  }

  function DeleteResourcesSpec(s: State, rs: seq<Resource>): Outcome {
    var w := DeleteAll(s, rs);
    Outcome(w.state, SweepError(w.errors))
  }

  /** Reconcile (lines 55-107). */
  function ReconcileSpec(s: State, req: NamespacedName): Outcome {
    var key := HelmDogKey(req);
    var g := GetOp(s, key);
    if g.result.Err? then Outcome(g.state, IgnoreNotFound(g.result.error))
    else
      var cr := g.result.value;
      if cr.deleting then
        var d := DeleteResourcesSpec(g.state, SpecOf(cr));
        if d.err.Some? then d
        else
          var u := UpdateOp(d.state, key, cr.(finalizers := []));
          Outcome(u.state, if u.error.Some? then IgnoreNotFound(u.error.value) else None)
      else if |SpecOf(cr)| == 0 then Outcome(g.state, None)
      else
        var removed := Resources.Deleted(SpecOf(cr), StatusOf(cr));
        if |removed| == 0 then Outcome(g.state, None)
        else
          var d := DeleteResourcesSpec(g.state, removed);
          if d.err.Some? then d
          else
            var u := UpdateOp(d.state, key, cr.(body := Dog(SpecOf(cr), SpecOf(cr))));
            Outcome(u.state, AckMessage(u))
  }

  // ---------------------------------------------------------------- methods

  method DeleteResource(c: Cluster, res: Resource) returns (err: Option<string>)
    modifies c
    ensures Outcome(c.Snapshot(), err) == DeleteProtocol(old(c.Snapshot()), res)
  {
    var got := c.Get(res);
    if got.Err? {
      return IgnoreNotFound(got.error);
    }
    if KeepAnnotation in got.value.annotations {
      return None;
    }
    if res.kind == CrdKind {
      return None;
    }
    var e := c.Delete(res);
    if e.Some? {
      return IgnoreNotFound(e.value);
    }
    var again := c.Get(res);
    if again.Err? {
      return IgnoreNotFound(again.error);
    }
    if |again.value.finalizers| > 0 {
      var u := c.Update(res, again.value.(finalizers := []));
      if u.Some? {
        return IgnoreNotFound(u.value);
      }
    }
    return None;
  }

  method DeleteResources(c: Cluster, resources: seq<Resource>) returns (err: Option<string>)
    modifies c
    ensures Outcome(c.Snapshot(), err) == DeleteResourcesSpec(old(c.Snapshot()), resources)
  {
    ghost var s0 := c.Snapshot();
    var errMsg: seq<string> := [];
    var i: int := |resources| - 1;
    while i >= 0
      invariant -1 <= i < |resources|
      invariant Sweep(c.Snapshot(), errMsg) == DeleteAll(s0, resources[i + 1..])
    {
      var res := resources[i];
      ghost var before := c.Snapshot();
      var e := DeleteResource(c, res);
      var recorded := if e.Some? then [FailureMessage(res, e.value)] else [];
      assert recorded == Reported(res, Outcome(c.Snapshot(), e));
      SweepStep(s0, resources, i, before, errMsg, Outcome(c.Snapshot(), e));
      errMsg := errMsg + recorded;
      i := i - 1;
    }
    assert resources[i + 1..] == resources;
    err := SweepError(errMsg);
  }

  method Reconcile(c: Cluster, req: NamespacedName) returns (err: Option<string>)
    modifies c
    ensures Outcome(c.Snapshot(), err) == ReconcileSpec(old(c.Snapshot()), req)
  {
    var key := HelmDogKey(req);
    var got := c.Get(key);
    if got.Err? {
      return IgnoreNotFound(got.error);
    }
    var cr := got.value;
    if cr.deleting {
      err := DeleteResources(c, SpecOf(cr));
      if err.Some? {
        return;
      }
      var u := c.Update(key, cr.(finalizers := []));
      return if u.Some? then IgnoreNotFound(u.value) else None;
    }
    if |SpecOf(cr)| == 0 {
      return None;
    }
    var removed := Resources.GetDeletedResources(SpecOf(cr), StatusOf(cr));
    if |removed| == 0 {
      return None;
    }
    err := DeleteResources(c, removed);
    if err.Some? {
      return;
    }
    var u := c.Update(key, cr.(body := Dog(SpecOf(cr), SpecOf(cr))));
    err := if u.Some? then Some(Message(u.value)) else None;
  }

  // ----------------------------------------------------------------- lemmas

  /** The sweep touches only the listed resources. */
  lemma {:induction false} DeleteAllFrame(s: State, rs: seq<Resource>, k: Resource)
    requires k !in rs
    ensures k in DeleteAll(s, rs).state.objects <==> k in s.objects
    ensures k in s.objects ==> DeleteAll(s, rs).state.objects[k] == s.objects[k]
    decreases |rs|
  {
    if |rs| > 0 {
      var o := DeleteProtocol(s, rs[|rs| - 1]);
      assert k !in rs[..|rs| - 1];
      DeleteAllFrame(o.state, rs[..|rs| - 1], k);
    }
  }

  /** Whatever the cluster answers, the sweep never recreates a missing object. */
  lemma {:induction false} DeleteAllNeverCreates(s: State, rs: seq<Resource>, k: Resource)
    requires k !in s.objects
    ensures k !in DeleteAll(s, rs).state.objects
    decreases |rs|
  {
    if |rs| > 0 {
      var o := DeleteProtocol(s, rs[|rs| - 1]);
      DeleteAllNeverCreates(o.state, rs[..|rs| - 1], k);
    }
  }

  /** Whatever the cluster answers, kept and CRD objects come out of the sweep unchanged. */
  lemma {:induction false} DeleteAllKeepsProtected(s: State, rs: seq<Resource>, k: Resource)
    requires k in s.objects && Protected(k, s.objects[k])
    ensures k in DeleteAll(s, rs).state.objects && DeleteAll(s, rs).state.objects[k] == s.objects[k]
    decreases |rs|
  {
    if |rs| > 0 {
      var o := DeleteProtocol(s, rs[|rs| - 1]);
      DeleteAllKeepsProtected(o.state, rs[..|rs| - 1], k);
    }
  }

  /** On a cluster whose calls all succeed the sweep reports no error and the cluster stays healthy. */
  lemma {:induction false} DeleteAllHealthy(s: State, rs: seq<Resource>)
    requires Healthy(s)
    ensures Healthy(DeleteAll(s, rs).state)
    ensures DeleteAll(s, rs).errors == []
    decreases |rs|
  {
    if |rs| > 0 {
      var res := rs[|rs| - 1];
      var o := DeleteProtocol(s, res);
      assert Reported(res, o) == [];
      DeleteAllHealthy(o.state, rs[..|rs| - 1]);
    }
  }

  /** On a cluster whose calls all succeed no listed object is left behind except the kept and CRD ones. */
  lemma {:induction false} DeleteAllRemoves(s: State, rs: seq<Resource>, k: Resource)
    requires Healthy(s) && k in rs && k in s.objects && !Protected(k, s.objects[k])
    ensures k !in DeleteAll(s, rs).state.objects
    decreases |rs|
  {
    var res := rs[|rs| - 1];
    var init := rs[..|rs| - 1];
    var o := DeleteProtocol(s, res);
    var rest := DeleteAll(o.state, init);
    if k == res {
      assert k !in rest.state.objects by {
        assert k !in o.state.objects;
        DeleteAllNeverCreates(o.state, init, k);
      }
    } else {
      assert k !in rest.state.objects by {
        assert k in init by {
          var j :| 0 <= j < |rs| && rs[j] == k;
          assert init[j] == k;
        }
        assert Healthy(o.state) && k in o.state.objects && o.state.objects[k] == s.objects[k];
        DeleteAllRemoves(o.state, init, k);
      }
    }
    assert DeleteAll(s, rs).state == rest.state;
  }

  /**
   * The later part of the list is swept first and the earlier part after it
   * whatever errors the later part produced; the messages keep that order.
   */
  lemma {:induction false} DeleteAllConcat(s: State, front: seq<Resource>, back: seq<Resource>)
    ensures var b := DeleteAll(s, back);
      var f := DeleteAll(b.state, front);
      DeleteAll(s, front + back) == Sweep(f.state, b.errors + f.errors)
    decreases |back|
  {
    if |back| == 0 {
      assert front + back == front;
    } else {
      var res := back[|back| - 1];
      var back' := back[..|back| - 1];
      var o := DeleteProtocol(s, res);
      var head := Reported(res, o);
      var b' := DeleteAll(o.state, back');
      var f := DeleteAll(b'.state, front);
      assert head + (b'.errors + f.errors) == (head + b'.errors) + f.errors;
      var mid := DeleteAll(o.state, front + back');
      DeleteAllLast(s, front, back);
      assert mid == Sweep(f.state, b'.errors + f.errors) by {
        DeleteAllConcat(o.state, front, back');
      }
      var b := DeleteAll(s, back);
      assert b.state == b'.state && b.errors == head + b'.errors;
      calc {
        DeleteAll(s, front + back);
        Sweep(mid.state, head + mid.errors);
        Sweep(f.state, head + (b'.errors + f.errors));
        Sweep(f.state, b.errors + f.errors);
      }
    }
  }

  /** The sweep of a list ending in a non-empty part handles the last element first, then the rest. */
  lemma DeleteAllLast(s: State, front: seq<Resource>, back: seq<Resource>)
    requires |back| > 0
    ensures var o := DeleteProtocol(s, back[|back| - 1]);
      var rest := DeleteAll(o.state, front + back[..|back| - 1]);
      DeleteAll(s, front + back) == Sweep(rest.state, Reported(back[|back| - 1], o) + rest.errors)
  {
    assert (front + back)[..|front + back| - 1] == front + back[..|back| - 1];
    assert (front + back)[|front + back| - 1] == back[|back| - 1];
  }

  /** Sweeping the list from position i: element i is handled after all the later ones. */
  lemma DeleteAllCons(s: State, rs: seq<Resource>, i: int)
    requires 0 <= i < |rs|
    ensures var b := DeleteAll(s, rs[i + 1..]);
      var o := DeleteProtocol(b.state, rs[i]);
      DeleteAll(s, rs[i..]) == Sweep(o.state, b.errors + Reported(rs[i], o))
  {
    assert rs[i..] == [rs[i]] + rs[i + 1..];
    var b := DeleteAll(s, rs[i + 1..]);
    var o := DeleteProtocol(b.state, rs[i]);
    assert DeleteAll(b.state, [rs[i]]) == Sweep(o.state, Reported(rs[i], o)) by {
      assert [rs[i]][..0] == [];
    }
    DeleteAllConcat(s, [rs[i]], rs[i + 1..]);
  }

  /**
   * NotFound at the first Get, the Delete, the second Get or the Update
   * counts as success: when every scripted failure is NotFound, deleting a
   * resource reports nothing, and the rest of the script stays so.
   */
  lemma DeleteProtocolToleratesNotFound(s: State, res: Resource)
    requires OnlyFails(s, NotFound)
    ensures DeleteProtocol(s, res).err.None?
    ensures OnlyFails(DeleteProtocol(s, res).state, NotFound)
  {
    PopOnlyFails(s, NotFound);
    var g := GetOp(s, res);
    PopOnlyFails(g.state, NotFound);
    var d := DeleteOp(g.state, res);
    PopOnlyFails(d.state, NotFound);
    var g2 := GetOp(d.state, res);
    PopOnlyFails(g2.state, NotFound);
  }

  /** A sweep on a cluster whose failures are all NotFound reports no failure. */
  lemma {:induction false} DeleteAllToleratesNotFound(s: State, rs: seq<Resource>)
    requires OnlyFails(s, NotFound)
    ensures DeleteAll(s, rs).errors == []
    decreases |rs|
  {
    if |rs| > 0 {
      var res := rs[|rs| - 1];
      DeleteProtocolToleratesNotFound(s, res);
      DeleteAllToleratesNotFound(DeleteProtocol(s, res).state, rs[..|rs| - 1]);
    }
  }

  /** One iteration of the loop of lines 113-119, from the back of the list. */
  lemma SweepStep(s0: State, rs: seq<Resource>, i: int, before: State, msgs: seq<string>, o: Outcome)
    requires 0 <= i < |rs|
    requires Sweep(before, msgs) == DeleteAll(s0, rs[i + 1..])
    requires o == DeleteProtocol(before, rs[i])
    ensures Sweep(o.state, msgs + Reported(rs[i], o)) == DeleteAll(s0, rs[i..])
  {
    DeleteAllCons(s0, rs, i);
  }

  /** A HelmDog being deleted keeps its finalizers untouched when a tracked resource could not be deleted. */
  lemma FinalizersStayOnSweepFailure(s: State, req: NamespacedName)
    requires var key := HelmDogKey(req);
      && PopFault(s).fault.None? && key in s.objects && s.objects[key].deleting
      && key !in SpecOf(s.objects[key])
      && DeleteAll(PopFault(s).state, SpecOf(s.objects[key])).errors != []
    ensures var key := HelmDogKey(req);
      var r := ReconcileSpec(s, req);
      && r.err == SweepError(DeleteAll(PopFault(s).state, SpecOf(s.objects[key])).errors)
      && r.err.Some?
      && key in r.state.objects && r.state.objects[key] == s.objects[key]
  {
    var key := HelmDogKey(req);
    DeleteAllFrame(PopFault(s).state, SpecOf(s.objects[key]), key);
  }

  /**
   * On a cluster whose calls all succeed, deleting a HelmDog deletes every
   * unprotected resource of its spec and then the HelmDog itself, whose
   * finalizers are cleared last.
   */
  lemma HealthyDeletion(s: State, req: NamespacedName)
    requires var key := HelmDogKey(req);
      Healthy(s) && key in s.objects && s.objects[key].deleting && key !in SpecOf(s.objects[key])
    ensures var key := HelmDogKey(req);
      var r := ReconcileSpec(s, req);
      && r.err.None?
      && key !in r.state.objects
      && forall k :: k in SpecOf(s.objects[key]) && k in s.objects && !Protected(k, s.objects[k]) ==> k !in r.state.objects
  {
    var key := HelmDogKey(req);
    var g := GetOp(s, key);
    var cr := s.objects[key];
    DeleteAllHealthy(g.state, SpecOf(cr));
    DeleteAllFrame(g.state, SpecOf(cr), key);
    forall k | k in SpecOf(cr) && k in s.objects && !Protected(k, s.objects[k]) {
      DeleteAllRemoves(g.state, SpecOf(cr), k);
    }
  }

  /** Outside deletion, a HelmDog whose status already lists nothing that left the spec is left alone. */
  lemma NothingRemovedIsNoop(s: State, req: NamespacedName)
    requires var key := HelmDogKey(req);
      && PopFault(s).fault.None? && key in s.objects && !s.objects[key].deleting
      && forall r :: r in StatusOf(s.objects[key]) ==> r in SpecOf(s.objects[key])
    ensures ReconcileSpec(s, req) == Outcome(PopFault(s).state, None)
  {
    var cr := s.objects[HelmDogKey(req)];
    Resources.DeletedOfSubset(SpecOf(cr), StatusOf(cr));
  }

  /**
   * Outside deletion, a HelmDog with an empty spec is left alone, even when
   * its status still lists resources: the spec being empty ends the
   * reconcile before anything is compared or deleted.
   */
  lemma EmptySpecIsNoop(s: State, req: NamespacedName)
    requires var key := HelmDogKey(req);
      key in s.objects && !s.objects[key].deleting && SpecOf(s.objects[key]) == []
    ensures ReconcileSpec(s, req).state.objects == s.objects
    ensures PopFault(s).fault.None? ==> ReconcileSpec(s, req) == Outcome(PopFault(s).state, None)
  {
  }

  /**
   * A HelmDog whose status is empty never advances: nothing is deleted and
   * the status is not written, whatever its spec says.
   */
  lemma EmptyStatusNeverAdvances(s: State, req: NamespacedName)
    requires var key := HelmDogKey(req);
      PopFault(s).fault.None? && key in s.objects && !s.objects[key].deleting && StatusOf(s.objects[key]) == []
    ensures ReconcileSpec(s, req) == Outcome(PopFault(s).state, None)
    ensures ReconcileSpec(s, req).state.objects == s.objects
  {
  }

  /**
   * Outside deletion, with a non-empty removed list: only removed resources
   * and the HelmDog may change, and the status becomes the spec only when
   * every removal succeeded.
   */
  lemma RemovedSweep(s: State, req: NamespacedName)
    requires var key := HelmDogKey(req);
      && PopFault(s).fault.None? && key in s.objects && !s.objects[key].deleting
      && |SpecOf(s.objects[key])| > 0
      && |Resources.Deleted(SpecOf(s.objects[key]), StatusOf(s.objects[key]))| > 0
      && key !in StatusOf(s.objects[key])
    ensures var key := HelmDogKey(req);
      var cr := s.objects[key];
      var removed := Resources.Deleted(SpecOf(cr), StatusOf(cr));
      var w := DeleteAll(PopFault(s).state, removed);
      var r := ReconcileSpec(s, req);
      && (forall k :: k !in removed && k != key ==> (k in r.state.objects <==> k in s.objects))
      && (forall k :: k !in removed && k != key && k in s.objects ==> r.state.objects[k] == s.objects[k])
      && (w.errors != [] ==> r.err.Some? && key in r.state.objects && r.state.objects[key] == cr)
      && (r.err.None? ==> w.errors == [] && key in r.state.objects && r.state.objects[key].body == Dog(SpecOf(cr), SpecOf(cr)))
  {
    var key := HelmDogKey(req);
    var cr := s.objects[key];
    var removed := Resources.Deleted(SpecOf(cr), StatusOf(cr));
    var g := PopFault(s).state;
    assert key !in removed by { Resources.DeletedMembers(SpecOf(cr), StatusOf(cr), key); }
    var w := DeleteAll(g, removed);
    forall k | k !in removed
      ensures k in w.state.objects <==> k in s.objects
      ensures k in s.objects ==> w.state.objects[k] == s.objects[k]
    {
      DeleteAllFrame(g, removed, k);
    }
    var r := ReconcileSpec(s, req);
    var u := UpdateOp(w.state, key, cr.(body := Dog(SpecOf(cr), SpecOf(cr))));
    assert GetOp(s, key) == Reply(g, Ok(cr));
    assert DeleteResourcesSpec(g, removed) == Outcome(w.state, SweepError(w.errors));
    if w.errors != [] {
      assert r == Outcome(w.state, SweepError(w.errors));
    } else {
      assert r == Outcome(u.state, AckMessage(u));
    }
  }
}
