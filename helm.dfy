/**
 * utils/helm/helm.go: rendering a chart into manifests. Locating, loading,
 * value computation, template rendering and manifest sorting belong to the
 * Helm library and are parameters that may fail; the model keeps the order
 * of the steps, the error propagation and the filter on rendered file names.
 */
module Helm {
  import opened Wrappers
  import Text

  datatype Chart = Chart(name: string, version: string)

  /** The Helm library steps GetManifests goes through. */
  datatype Engine = Engine(
    locate: string -> Result<string, string>,
    load: string -> Result<Chart, string>,
    values: (string, string, string, Chart) -> Result<string, string>,
    render: (Chart, string) -> Result<map<string, string>, string>,
    sort: map<string, string> -> Result<(seq<string>, seq<string>), string>)

  /** Rendered files that are not manifests: notes (".txt") and partials ("_" prefix, tested on the whole path). */
  predicate Excluded(name: string) {
    Text.HasSuffix(name, ".txt") || Text.HasPrefix(name, "_")
  }

  function Filtered(files: map<string, string>): (kept: map<string, string>)
    ensures kept.Keys <= files.Keys
    ensures forall k :: k in kept ==> !Text.HasSuffix(k, ".txt") && !Text.HasPrefix(k, "_")
    ensures forall k :: k in files && !Excluded(k) ==> k in kept && kept[k] == files[k]
  {
    map k | k in files && !Excluded(k) :: files[k]
  }

  /** The loop of lines 66-70, deleting keys from the map while ranging over it. */
  method FilterFiles(files: map<string, string>) returns (kept: map<string, string>)
    ensures kept == Filtered(files)
  {
    kept := files;
    var pending := files.Keys;
    while pending != {}
      invariant pending <= files.Keys
      invariant kept.Keys <= files.Keys
      invariant forall k :: k in kept ==> kept[k] == files[k]
      invariant forall k :: k in pending ==> k in kept
      invariant forall k :: k in files && k !in pending ==> (k in kept <==> !Excluded(k))
      decreases pending
    {
      var k :| k in pending;
      if Text.HasSuffix(k, ".txt") || Text.HasPrefix(k, "_") {
        kept := kept - {k};
      }
      pending := pending - {k};
    }
  }

  /** GetManifests: the first failing step's error, or the non-hook manifests of the filtered files. */
  function Manifests(e: Engine, name: string, namespace: string, path: string, raw: string): Result<seq<string>, string> {
    var located := e.locate(path);
    if located.Err? then Err(located.error)
    else
      var chart := e.load(located.value);
      if chart.Err? then Err(chart.error)
      else
        var values := e.values(name, namespace, raw, chart.value);
        if values.Err? then Err(values.error)
        else
          var files := e.render(chart.value, values.value);
          if files.Err? then Err(files.error)
          else
            var sorted := e.sort(Filtered(files.value));
            if sorted.Err? then Err(sorted.error) else Ok(sorted.value.1)
  }

  method GetManifests(e: Engine, name: string, namespace: string, path: string, raw: string)
    returns (r: Result<seq<string>, string>)
    ensures r == Manifests(e, name, namespace, path, raw)
  {
    var located := e.locate(path);
    if located.Err? {
      return Err(located.error);
    }
    var chart := e.load(located.value);
    if chart.Err? {
      return Err(chart.error);
    }
    var values := e.values(name, namespace, raw, chart.value);
    if values.Err? {
      return Err(values.error);
    }
    var files := e.render(chart.value, values.value);
    if files.Err? {
      return Err(files.error);
    }
    var kept := FilterFiles(files.value);
    var sorted := e.sort(kept);
    if sorted.Err? {
      return Err(sorted.error);
    }
    return Ok(sorted.value.1);
  }

  /** Filtering keeps exactly the manifest files: it is idempotent and ignores excluded files' contents. */
  lemma FilteredIdempotent(files: map<string, string>)
    ensures Filtered(Filtered(files)) == Filtered(files)
  {
  }

  /**
   * Renders that agree on every non-excluded file give the same manifests:
   * notes and partials never reach the manifest list.
   */
  lemma ExcludedFilesIgnored(e: Engine, e': Engine, name: string, namespace: string, path: string, raw: string)
    requires e.locate == e'.locate && e.load == e'.load && e.values == e'.values && e.sort == e'.sort
    requires forall c, v :: e.render(c, v).Err? <==> e'.render(c, v).Err?
    requires forall c, v :: e.render(c, v).Err? ==> e.render(c, v).error == e'.render(c, v).error
    requires forall c, v :: e.render(c, v).Ok? ==> Filtered(e.render(c, v).value) == Filtered(e'.render(c, v).value)
    ensures Manifests(e, name, namespace, path, raw) == Manifests(e', name, namespace, path, raw)
  {
  }

  /** The first failing step's error is returned as it is, with no manifests. */
  lemma ManifestsErrors(e: Engine, name: string, namespace: string, path: string, raw: string)
    ensures var r := Manifests(e, name, namespace, path, raw);
      var located := e.locate(path);
      && (located.Err? ==> r == Err(located.error))
      && (located.Ok? ==>
        var chart := e.load(located.value);
        && (chart.Err? ==> r == Err(chart.error))
        && (chart.Ok? ==>
          var values := e.values(name, namespace, raw, chart.value);
          && (values.Err? ==> r == Err(values.error))
          && (values.Ok? ==>
            var files := e.render(chart.value, values.value);
            && (files.Err? ==> r == Err(files.error))
            && (files.Ok? && e.sort(Filtered(files.value)).Err? ==> r == Err(e.sort(Filtered(files.value)).error)))))
  {
  }

  /**
   * Manifests are returned only when every step succeeded, and they are the
   * sorter's manifest list (hooks dropped) for the filtered render.
   */
  lemma ManifestsSuccess(e: Engine, name: string, namespace: string, path: string, raw: string)
    requires Manifests(e, name, namespace, path, raw).Ok?
    ensures var located := e.locate(path);
      && located.Ok?
      && var chart := e.load(located.value);
      && chart.Ok?
      && var values := e.values(name, namespace, raw, chart.value);
      && values.Ok?
      && var files := e.render(chart.value, values.value);
      && files.Ok?
      && var sorted := e.sort(Filtered(files.value));
      && sorted.Ok?
      && Manifests(e, name, namespace, path, raw).value == sorted.value.1
  {
  }
}
