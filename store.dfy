/**
 * The cluster as the controllers see it through the Kubernetes client: a
 * map from (group, version, kind, name, namespace) to objects. Every client
 * call consumes the next entry of a fault script; a scripted failure makes
 * the call return that error (NotFound, AlreadyExists or any other, as a
 * concurrent writer or a failing server would) and leaves the objects
 * unchanged. Deleting an object that still has finalizers only marks
 * it as being deleted; the object disappears once a write leaves it marked
 * and without finalizers.
 */
module Store {
  import opened Wrappers
  import opened Api

  datatype Error = NotFound | AlreadyExists | Other(msg: string)

  /** err.Error() of a client error. */
  function Message(e: Error): string {
    match e
    case NotFound => "not found"
    case AlreadyExists => "already exists"
    case Other(m) => m
  }

  /** client.IgnoreNotFound: NotFound becomes success, every other error is kept. */
  function IgnoreNotFound(e: Error): Option<string> {
    if e.NotFound? then None else Some(Message(e))
  }

  /** An object decoded from a manifest: its identity, annotations, finalizers and controller reference. */
  datatype Unstructured = Unstructured(
    group: string, version: string, kind: string, name: string, namespace: string,
    annotations: map<string, string>, finalizers: seq<string>, controller: Option<Resource>)

  function KeyOf(u: Unstructured): Resource {
    Resource(u.group, u.version, u.kind, u.name, u.namespace)
  }

  /** The object stored when u is created or applied. */
  function AsObj(u: Unstructured): Obj {
    Obj(u.annotations, u.finalizers, false, Manifest(u))
  }

  /** The result of a RESTMapper lookup: the plural resource name and the scope name. */
  datatype Mapping = Mapping(resource: string, scope: string)

  /** RESTMapper().RESTMapping(GroupKind{group, kind}, version). */
  type Mapper = (string, string, string) -> Result<Mapping, string>

  /** The scope name of namespaced kinds (meta.RESTScopeNameNamespace). */
  const NamespaceScope := "namespace"

  /** What an object holds besides its metadata, by the kind stored under the key. */
  datatype Body =
    | Manifest(object: Unstructured)
    | Dog(specResources: seq<Resource>, statusResources: seq<Resource>)
    | Chart(chartSpec: HelmChartSpec)
    | Release(releaseSpec: HelmReleaseSpec, releaseStatus: HelmReleaseStatus, created: Timestamp)
    | Secret(data: map<string, string>)

  datatype Obj = Obj(annotations: map<string, string>, finalizers: seq<string>, deleting: bool, body: Body)

  datatype Fault = Pass | Fail(error: Error)

  datatype State = State(objects: map<Resource, Obj>, faults: seq<Fault>)

  /** No scripted call fails. */
  predicate Healthy(s: State) {
    forall i :: 0 <= i < |s.faults| ==> s.faults[i].Pass?
  }

  /** Every scripted failure, if there is one, is the error e. */
  predicate OnlyFails(s: State, e: Error) {
    forall i :: 0 <= i < |s.faults| ==> s.faults[i].Pass? || s.faults[i].error == e
  }

  datatype Popped = Popped(fault: Option<Error>, state: State)

  datatype Reply = Reply(state: State, result: Result<Obj, Error>)

  datatype Ack = Ack(state: State, error: Option<Error>)

  function PopFault(s: State): (p: Popped)
    ensures p.state.objects == s.objects
    ensures Healthy(s) ==> p.fault.None? && Healthy(p.state)
  {
    if |s.faults| == 0 then Popped(None, s)
    else Popped(if s.faults[0].Fail? then Some(s.faults[0].error) else None, s.(faults := s.faults[1..]))
  }

  /** A call on a cluster that can only fail with e fails, if at all, with e, and the rest of the script stays so. */
  lemma PopOnlyFails(s: State, e: Error)
    requires OnlyFails(s, e)
    ensures PopFault(s).fault.None? || PopFault(s).fault == Some(e)
    ensures OnlyFails(PopFault(s).state, e)
  {
    if |s.faults| > 0 {
      assert s.faults[0].Pass? || s.faults[0].error == e;
      forall i | 0 <= i < |s.faults| - 1
        ensures s.faults[1..][i].Pass? || s.faults[1..][i].error == e
      {
        assert s.faults[1..][i] == s.faults[i + 1];
      }
    }
  }

  /** Stores o under k, or drops k when o is marked for deletion and has no finalizers left. */
  function Put(objects: map<Resource, Obj>, k: Resource, o: Obj): map<Resource, Obj> {
    if o.deleting && o.finalizers == [] then objects - {k} else objects[k := o]
  }

  function GetOp(s: State, k: Resource): Reply {
    var p := PopFault(s);
    if p.fault.Some? then Reply(p.state, Err(p.fault.value))
    else if k in p.state.objects then Reply(p.state, Ok(p.state.objects[k]))
    else Reply(p.state, Err(NotFound))
  }

  function CreateOp(s: State, k: Resource, o: Obj): Ack {
    var p := PopFault(s);
    if p.fault.Some? then Ack(p.state, Some(p.fault.value))
    else if k in p.state.objects then Ack(p.state, Some(AlreadyExists))
    else Ack(p.state.(objects := p.state.objects[k := o.(deleting := false)]), None)
  }

  /** Update: replaces an existing object; the deletion mark cannot be changed by the writer. */
  function UpdateOp(s: State, k: Resource, o: Obj): Ack {
    var p := PopFault(s);
    if p.fault.Some? then Ack(p.state, Some(p.fault.value))
    else if k !in p.state.objects then Ack(p.state, Some(NotFound))
    else Ack(p.state.(objects := Put(p.state.objects, k, o.(deleting := p.state.objects[k].deleting))), None)
  }

  function DeleteOp(s: State, k: Resource): Ack {
    var p := PopFault(s);
    if p.fault.Some? then Ack(p.state, Some(p.fault.value))
    else if k !in p.state.objects then Ack(p.state, Some(NotFound))
    else
      var stored := p.state.objects[k];
      Ack(p.state.(objects := Put(p.state.objects, k, stored.(deleting := true))), None)
  }

  /** The finalizers after a server-side apply: the stored ones, then the declared ones not yet among them. */
  function MergeFinalizers(stored: seq<string>, declared: seq<string>): (r: seq<string>)
    ensures forall f :: f in r <==> f in stored || f in declared
    ensures |stored| <= |r| && r[..|stored|] == stored
    decreases |declared|
  {
    if |declared| == 0 then stored
    else MergeFinalizers(if declared[0] in stored then stored else stored + [declared[0]], declared[1..])
  }

  /**
   * The object a server-side apply of o leaves under k: o's body, with the
   * annotations and finalizers merged into the stored ones (entries other
   * writers own survive), keeping the deletion mark and a HelmDog's status.
   */
  function Applied(objects: map<Resource, Obj>, k: Resource, o: Obj): Obj {
    if k !in objects then o.(deleting := false)
    else
      var stored := objects[k];
      var body := if stored.body.Dog? && o.body.Dog? then Dog(o.body.specResources, stored.body.statusResources) else o.body;
      Obj(stored.annotations + o.annotations, MergeFinalizers(stored.finalizers, o.finalizers), stored.deleting, body)
  }

  /** Patch with client.Apply and Force: creates or overwrites the object. */
  function PatchOp(s: State, k: Resource, o: Obj): Ack {
    var p := PopFault(s);
    if p.fault.Some? then Ack(p.state, Some(p.fault.value))
    else Ack(p.state.(objects := Put(p.state.objects, k, Applied(p.state.objects, k, o))), None)
  }

  /** No stored object is marked for deletion with no finalizer left: the server has removed every such object. */
  predicate Settled(objects: map<Resource, Obj>) {
    forall k :: k in objects ==> !objects[k].deleting || objects[k].finalizers != []
  }

  /** On a settled store, an apply that goes through keeps every key, stores the applied object and leaves the store settled. */
  lemma PatchSettled(s: State, k: Resource, o: Obj)
    requires Settled(s.objects) && PopFault(s).fault.None?
    ensures var a := PatchOp(s, k, o);
      && a.error.None?
      && a.state.objects.Keys == s.objects.Keys + {k}
      && a.state.objects[k] == Applied(s.objects, k, o)
      && (forall j :: j in s.objects && j != k ==> a.state.objects[j] == s.objects[j])
      && Settled(a.state.objects)
  {
    var applied := Applied(s.objects, k, o);
    assert !applied.deleting || applied.finalizers != [] by {
      if k in s.objects && s.objects[k].deleting {
        assert s.objects[k].finalizers != [];
        assert |applied.finalizers| >= |s.objects[k].finalizers|;
      }
    }
  }

  /** What a controller step leaves behind: the cluster and the error it returns, if any. */
  datatype Outcome = Outcome(state: State, err: Option<string>)

  /** The error text of a write, if it failed. */
  function AckMessage(a: Ack): Option<string> {
    if a.error.Some? then Some(Message(a.error.value)) else None
  }

  /** The client: one object store whose calls follow the operations above. */
  class Cluster {
    var objects: map<Resource, Obj>
    var faults: seq<Fault>

    function Snapshot(): State
      reads this
    {
      State(objects, faults)
    }

    constructor (s: State)
      ensures Snapshot() == s
    {
      objects := s.objects;
      faults := s.faults;
    }

    method NextFault() returns (f: Option<Error>)
      modifies this
      ensures Popped(f, Snapshot()) == PopFault(old(Snapshot()))
    {
      if |faults| == 0 {
        f := None;
      } else {
        f := if faults[0].Fail? then Some(faults[0].error) else None;
        faults := faults[1..];
      }
    }

    method Get(k: Resource) returns (r: Result<Obj, Error>)
      modifies this
      ensures Reply(Snapshot(), r) == GetOp(old(Snapshot()), k)
    {
      var f := NextFault();
      if f.Some? {
        r := Err(f.value);
      } else if k in objects {
        r := Ok(objects[k]);
      } else {
        r := Err(NotFound);
      }
    }

    method Create(k: Resource, o: Obj) returns (e: Option<Error>)
      modifies this
      ensures Ack(Snapshot(), e) == CreateOp(old(Snapshot()), k, o)
    {
      var f := NextFault();
      if f.Some? {
        e := Some(f.value);
      } else if k in objects {
        e := Some(AlreadyExists);
      } else {
        objects := objects[k := o.(deleting := false)];
        e := None;
      }
    }

    method Update(k: Resource, o: Obj) returns (e: Option<Error>)
      modifies this
      ensures Ack(Snapshot(), e) == UpdateOp(old(Snapshot()), k, o)
    {
      var f := NextFault();
      if f.Some? {
        e := Some(f.value);
      } else if k !in objects {
        e := Some(NotFound);
      } else {
        objects := Put(objects, k, o.(deleting := objects[k].deleting));
        e := None;
      }
    }

    method Delete(k: Resource) returns (e: Option<Error>)
      modifies this
      ensures Ack(Snapshot(), e) == DeleteOp(old(Snapshot()), k)
    {
      var f := NextFault();
      if f.Some? {
        e := Some(f.value);
      } else if k !in objects {
        e := Some(NotFound);
      } else {
        objects := Put(objects, k, objects[k].(deleting := true));
        e := None;
      }
    }

    method Patch(k: Resource, o: Obj) returns (e: Option<Error>)
      modifies this
      ensures Ack(Snapshot(), e) == PatchOp(old(Snapshot()), k, o)
    {
      var f := NextFault();
      if f.Some? {
        e := Some(f.value);
      } else {
        objects := Put(objects, k, Applied(objects, k, o));
        e := None;
      }
    }
  }
}
