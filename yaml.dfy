/**
 * utils/yaml/yaml.go: creating the objects of a multi-document YAML text
 * that are not yet in the cluster. The YAML framer and decoder are a
 * parameter that turns the text into frames.
 */
module Yaml {
  import opened Wrappers
  import opened Api
  import opened Store
  import Decimal

  /** One frame of the decoder: an unstructured object, a frame that fails to decode, or an object of another Go type. */
  datatype Frame = Decoded(obj: Unstructured) | Undecodable | Foreign(typeName: string)

  function ConvertMessage(typeName: string): string {
    "Failed to convert object " + typeName
  }

  /** yamlToObjects: the decoded objects in order, skipping undecodable frames; a foreign object aborts. */
  function Objects(frames: seq<Frame>): (r: Result<seq<Unstructured>, string>)
    ensures r.Err? <==> exists i :: 0 <= i < |frames| && frames[i].Foreign?
    ensures r.Err? ==> exists i :: (0 <= i < |frames| && frames[i].Foreign? && r.error == ConvertMessage(frames[i].typeName)
      && forall j :: 0 <= j < i ==> !frames[j].Foreign?)
    ensures r.Ok? ==> forall u :: u in r.value <==> Decoded(u) in frames
    decreases |frames|
  {
    if |frames| == 0 then Ok([])
    else
      var rest := Objects(frames[1..]);
      match frames[0]
      case Foreign(t) => Err(ConvertMessage(t))
      case Undecodable => rest
      case Decoded(u) => if rest.Err? then rest else Ok([u] + rest.value)
  }

  method YamlToObjects(frames: seq<Frame>) returns (r: Result<seq<Unstructured>, string>)
    ensures r == Objects(frames)
  {
    var objects: seq<Unstructured> := [];
    var i := 0;
    assert frames[i..] == frames;
    assert Objects(frames).Ok? ==> objects + Objects(frames).value == Objects(frames).value;
    while i < |frames|
      invariant 0 <= i <= |frames|
      invariant Objects(frames) == (var rest := Objects(frames[i..]); if rest.Err? then rest else Ok(objects + rest.value))
      decreases |frames| - i
    {
      assert frames[i..][1..] == frames[i + 1..];
      if frames[i].Foreign? {
        return Err(ConvertMessage(frames[i].typeName));
      }
      if frames[i].Decoded? {
        var rest := Objects(frames[i + 1..]);
        if rest.Ok? {
          assert objects + ([frames[i].obj] + rest.value) == (objects + [frames[i].obj]) + rest.value;
        }
        objects := objects + [frames[i].obj];
      }
      i := i + 1;
    }
    assert objects + [] == objects;
    return Ok(objects);
  }

  /** The "version" annotation as an integer: missing or empty reads as "0", unparsable as 0. */
  function AnnotationVersion(annotations: map<string, string>): (v: int)
    ensures "version" !in annotations ==> v == 0
    ensures "version" in annotations && Decimal.Atoi(annotations["version"]).None? ==> v == 0
  {
    var text := if "version" in annotations && annotations["version"] != "" then annotations["version"] else "0";
    var parsed := Decimal.Atoi(text);
    if parsed.Some? then parsed.value else 0
  }

  /** createObject: Create, treating AlreadyExists as success. */
  function CreateObjectSpec(s: State, u: Unstructured): (r: Outcome)
    ensures PopFault(s).fault.None? ==> r.err.None? && KeyOf(u) in r.state.objects
    ensures PopFault(s).fault == Some(AlreadyExists) ==> r == Outcome(PopFault(s).state, None)
    ensures KeyOf(u) in s.objects ==> r.state.objects == s.objects
    ensures KeyOf(u) !in s.objects && KeyOf(u) in r.state.objects ==> r.state.objects == s.objects[KeyOf(u) := AsObj(u)]
    ensures r.state.objects.Keys <= s.objects.Keys + {KeyOf(u)}
  {
    var a := CreateOp(s, KeyOf(u), AsObj(u));
    if a.error.Some? && !a.error.value.AlreadyExists? then Outcome(a.state, Some("Failed to create resource: " + Message(a.error.value)))
    else Outcome(a.state, None)
  }

  /** One iteration of the loop of lines 104-133: the state and the text it appends to errMsg. */
  function CreateStep(s: State, u: Unstructured): Outcome {
    var g := GetOp(s, KeyOf(u));
    if g.result.Err? && g.result.error.NotFound? then CreateObjectSpec(g.state, u)
    else if g.result.Err? then Outcome(g.state, Some(Message(g.result.error)))
    else Outcome(g.state, None)
  }

  /**
   * Whatever the cluster answers, one iteration keeps every present object,
   * adds at most the object itself, and on a healthy cluster reports nothing
   * and leaves the object present.
   */
  lemma CreateStepEffect(s: State, u: Unstructured)
    ensures var r := CreateStep(s, u);
      && (forall k :: k in s.objects ==> k in r.state.objects && r.state.objects[k] == s.objects[k])
      && (KeyOf(u) !in s.objects && KeyOf(u) in r.state.objects ==> r.state.objects == s.objects[KeyOf(u) := AsObj(u)])
      && r.state.objects.Keys <= s.objects.Keys + {KeyOf(u)}
      && (Healthy(s) ==> Healthy(r.state) && r.err.None? && KeyOf(u) in r.state.objects)
  {
  }

  datatype Run = Run(state: State, errMsg: string)

  /** The text one iteration appends to errMsg. */
  function Appended(o: Outcome): string {
    if o.err.Some? then o.err.value else ""
  }

  /** The loop over all objects, each processed whatever the earlier ones reported. */
  function CreateAll(s: State, objs: seq<Unstructured>): Run
    decreases |objs|
  {
    if |objs| == 0 then Run(s, "")
    else Next(CreateAll(s, objs[..|objs| - 1]), objs[|objs| - 1])
  }

  /** One iteration: the object processed on the state so far, its message appended. */
  function Next(r: Run, u: Unstructured): Run {
    var o := CreateStep(r.state, u);
    Run(o.state, r.errMsg + Appended(o))
  }

  /** CreateOrUpdateFromBytes on the frames the decoder produced. */
  function CreateOrUpdateSpec(s: State, frames: seq<Frame>): (r: Outcome)
    ensures Objects(frames).Err? ==> r == Outcome(s, Some(Objects(frames).error))
  {
    var objs := Objects(frames);
    if objs.Err? then Outcome(s, Some(objs.error))
    else
      var run := CreateAll(s, objs.value);
      Outcome(run.state, if run.errMsg != "" then Some("Failed to create resource: " + run.errMsg) else None)
  }

  method CreateObject(c: Cluster, u: Unstructured) returns (err: Option<string>)
    modifies c
    ensures Outcome(c.Snapshot(), err) == CreateObjectSpec(old(c.Snapshot()), u)
  {
    var e := c.Create(KeyOf(u), AsObj(u));
    if e.Some? && !e.value.AlreadyExists? {
      return Some("Failed to create resource: " + Message(e.value));
    }
    return None;
  }

  /** The loop body of lines 105-132; its result is what it appends to errMsg. */
  method CreateIfAbsent(c: Cluster, obj: Unstructured) returns (err: Option<string>)
    modifies c
    ensures Outcome(c.Snapshot(), err) == CreateStep(old(c.Snapshot()), obj)
  {
    var found := c.Get(KeyOf(obj));
    if found.Err? && found.error.NotFound? {
      err := CreateObject(c, obj);
    } else if found.Err? {
      err := Some(Message(found.error));
    } else {
      err := None;
      var version := AnnotationVersion(obj.annotations);
      var versionInCluster := AnnotationVersion(found.value.annotations);
      if version > versionInCluster {
        // The merge of a newer version is left unimplemented.
      }
    }
  }

  /** The loop of lines 104-133: every object processed, the messages concatenated. */
  method CreateObjects(c: Cluster, objs: seq<Unstructured>) returns (errMsg: string)
    modifies c
    ensures Run(c.Snapshot(), errMsg) == CreateAll(old(c.Snapshot()), objs)
  {
    ghost var s0 := c.Snapshot();
    errMsg := "";
    var i := 0;
    while i < |objs|
      invariant 0 <= i <= |objs|
      invariant Run(c.Snapshot(), errMsg) == CreateAll(s0, objs[..i])
    {
      assert objs[..i + 1][..i] == objs[..i];
      var e := CreateIfAbsent(c, objs[i]);
      if e.Some? {
        errMsg := errMsg + e.value;
      } else {
        assert errMsg + "" == errMsg;
      }
      i := i + 1;
    }
    assert objs[..i] == objs;
  }

  method CreateOrUpdateFromBytes(c: Cluster, content: string, decode: string -> seq<Frame>) returns (err: Option<string>)
    modifies c
    ensures Outcome(c.Snapshot(), err) == CreateOrUpdateSpec(old(c.Snapshot()), decode(content))
  {
    var objects := YamlToObjects(decode(content));
    if objects.Err? {
      return Some(objects.error);
    }
    var errMsg := CreateObjects(c, objects.value);
    err := if errMsg != "" then Some("Failed to create resource: " + errMsg) else None;
  }

  // ----------------------------------------------------------------- lemmas

  /** A list of decodable frames gives its objects in order. */
  lemma {:induction false} AllDecoded(frames: seq<Frame>)
    requires forall i :: 0 <= i < |frames| ==> frames[i].Decoded?
    ensures Objects(frames).Ok? && |Objects(frames).value| == |frames|
    ensures forall i :: 0 <= i < |frames| ==> Objects(frames).value[i] == frames[i].obj
    decreases |frames|
  {
    if |frames| > 0 {
      AllDecoded(frames[1..]);
      assert frames[0] == Decoded(frames[0].obj);
      var rest := Objects(frames[1..]).value;
      assert Objects(frames) == Ok([frames[0].obj] + rest);
      forall i | 0 <= i < |frames|
        ensures Objects(frames).value[i] == frames[i].obj
      {
        if i > 0 {
          assert frames[1..][i - 1] == frames[i];
        }
      }
    }
  }

  /** A version written in decimal reads back as itself. */
  lemma AnnotationVersionOfDecimal(annotations: map<string, string>, i: int)
    requires "version" in annotations && annotations["version"] == Decimal.IntToDecimal(i)
    ensures AnnotationVersion(annotations) == i
  {
    Decimal.AtoiIntToDecimal(i);
  }

  /** Whatever the cluster answers, objects already present are never modified. */
  lemma {:induction false} CreateAllKeepsExisting(s: State, objs: seq<Unstructured>, k: Resource)
    requires k in s.objects
    ensures k in CreateAll(s, objs).state.objects && CreateAll(s, objs).state.objects[k] == s.objects[k]
    decreases |objs|
  {
    if |objs| > 0 {
      var init := objs[..|objs| - 1];
      CreateAllKeepsExisting(s, init, k);
      CreateStepEffect(CreateAll(s, init).state, objs[|objs| - 1]);
    }
  }

  /** Whatever the cluster answers, every new object is one of the listed objects, stored under its own key. */
  lemma {:induction false} CreateAllOnlyAdds(s: State, objs: seq<Unstructured>, k: Resource)
    requires k !in s.objects && k in CreateAll(s, objs).state.objects
    ensures exists i :: 0 <= i < |objs| && KeyOf(objs[i]) == k && CreateAll(s, objs).state.objects[k] == AsObj(objs[i])
    decreases |objs|
  {
    var init := objs[..|objs| - 1];
    var last := objs[|objs| - 1];
    var prev := CreateAll(s, init).state;
    CreateStepEffect(prev, last);
    if k in prev.objects {
      CreateAllOnlyAdds(s, init, k);
      var i :| 0 <= i < |init| && KeyOf(init[i]) == k && prev.objects[k] == AsObj(init[i]);
      assert objs[i] == init[i];
    } else {
      assert KeyOf(last) == k;
    }
  }

  /** On a cluster whose calls all succeed every listed object exists afterwards and no error is reported. */
  lemma {:induction false} CreateAllHealthy(s: State, objs: seq<Unstructured>)
    requires Healthy(s)
    ensures Healthy(CreateAll(s, objs).state)
    ensures CreateAll(s, objs).errMsg == ""
    ensures forall u :: u in objs ==> KeyOf(u) in CreateAll(s, objs).state.objects
    decreases |objs|
  {
    if |objs| > 0 {
      var init := objs[..|objs| - 1];
      var last := objs[|objs| - 1];
      CreateAllHealthy(s, init);
      var prev := CreateAll(s, init);
      var o := CreateStep(prev.state, last);
      CreateStepEffect(prev.state, last);
      assert CreateAll(s, objs) == Run(o.state, prev.errMsg + Appended(o));
      assert Appended(o) == "";
      forall u | u in objs
        ensures KeyOf(u) in o.state.objects
      {
        if u != last {
          assert objs == init + [last];
          assert u in init;
          assert KeyOf(u) in prev.state.objects;
        }
      }
    }
  }

  /** Later objects are processed whatever the earlier ones reported, and the messages accumulate in order. */
  lemma {:induction false} CreateAllConcat(s: State, front: seq<Unstructured>, back: seq<Unstructured>)
    ensures var f := CreateAll(s, front);
      var b := CreateAll(f.state, back);
      CreateAll(s, front + back) == Run(b.state, f.errMsg + b.errMsg)
    decreases |back|
  {
    var f := CreateAll(s, front);
    if |back| == 0 {
      assert front + back == front;
      assert f.errMsg + "" == f.errMsg;
    } else {
      var init := back[..|back| - 1];
      var last := back[|back| - 1];
      var p := CreateAll(s, front + init);
      var b' := CreateAll(f.state, init);
      assert CreateAll(s, front + back) == Next(p, last) by {
        assert (front + back)[..|front + back| - 1] == front + init;
      }
      assert p == Run(b'.state, f.errMsg + b'.errMsg) by {
        CreateAllConcat(s, front, init);
      }
      assert CreateAll(f.state, back) == Next(b', last);
      NextKeepsPrefix(f.errMsg, b', last);
    }
  }

  /** The text already accumulated does not influence the next iteration, which only appends to it. */
  lemma NextKeepsPrefix(pre: string, r: Run, u: Unstructured)
    ensures Next(Run(r.state, pre + r.errMsg), u) == Run(Next(r, u).state, pre + Next(r, u).errMsg)
  {
    var o := CreateStep(r.state, u);
    assert (pre + r.errMsg) + Appended(o) == pre + (r.errMsg + Appended(o));
  }
}
