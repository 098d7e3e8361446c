/** domashna1/pipeline/pipeline_runner.py: a list of filters run in order, each
    fed the previous one's output. */
module PipelineRunner {
  import opened Common

  /** A filter's `process` as a function of what it is handed: `None` is a call
      without an argument, which raises `TypeError` for a filter whose parameter
      has no default; `Some(d)` a call with the previous output `d`, however
      falsy `d` is. An exception escapes as `Err`. */
  type Stage<!D> = Option<D> -> Result<Option<D>>

  /** What a run returns (or the exception that ended it) and what each filter
      that ran was handed, in order. */
  datatype Trace<D> = Trace(result: Result<Option<D>>, inputs: seq<Option<D>>)

  /** The first `n` filters run from `data = None`: stopping at the first that raises. */
  function RunPrefix<D>(filters: seq<Stage<D>>, n: nat): Trace<D>
    requires n <= |filters|
  {
    if n == 0 then Trace(Ok(None), [])
    else
      var before := RunPrefix(filters, n - 1);
      if before.result.Err? then before
      else
        var data := before.result.value;
        Trace(filters[n - 1](data), before.inputs + [data])
  }

  /** Once a filter has raised, the filters after it change nothing. */
  lemma {:induction false} RunPrefixStops<D>(filters: seq<Stage<D>>, n: nat, m: nat)
    requires n <= m <= |filters| && RunPrefix(filters, n).result.Err?
    ensures RunPrefix(filters, m) == RunPrefix(filters, n)
    decreases m
  {
    if n < m {
      RunPrefixStops(filters, n, m - 1);
    }
  }

  /** The run chains the filters: each filter that ran is called once, in list
      order; the first is called without an argument and each later one with its
      predecessor's output. A successful run ran every filter and returns the
      last one's output (`None` when there is none); a failed one ends with the
      exception of the last filter that ran. */
  lemma {:induction false} RunChains<D>(filters: seq<Stage<D>>, n: nat)
    requires n <= |filters|
    ensures var t := RunPrefix(filters, n);
      && |t.inputs| <= n
      && (|t.inputs| > 0 ==> t.inputs[0] == None)
      && (forall k :: 0 <= k < |t.inputs| - 1 ==> filters[k](t.inputs[k]) == Ok(t.inputs[k + 1]))
      && (t.result.Ok? ==> |t.inputs| == n)
      && (t.result.Ok? && n == 0 ==> t.result == Ok(None))
      && (n > 0 ==> |t.inputs| > 0 && t.result == filters[|t.inputs| - 1](t.inputs[|t.inputs| - 1]))
  {
    if n > 0 {
      RunChains(filters, n - 1);
      var before := RunPrefix(filters, n - 1);
      var t := RunPrefix(filters, n);
      if before.result.Ok? {
        assert t.inputs[..|before.inputs|] == before.inputs;
        if n - 1 > 0 {
          assert filters[n - 2](t.inputs[n - 2]) == Ok(t.inputs[n - 1]);
        }
      }
    }
  }

  /** `Pipeline(filters)`. */
  class Pipeline<D> {
    const filters: seq<Stage<D>>

    constructor (filters: seq<Stage<D>>)
      ensures this.filters == filters
    {
      this.filters := filters;
    }

    /** `run`: no exception handling, so the first filter that raises ends the
        run. Also returns what each filter was handed. */
    method Run() returns (r: Result<Option<D>>, inputs: seq<Option<D>>)
      ensures Trace(r, inputs) == RunPrefix(filters, |filters|)
    {
      var data: Option<D> := None;
      inputs := [];
      var i := 0;
      while i < |filters|
        invariant 0 <= i <= |filters|
        invariant RunPrefix(filters, i) == Trace(Ok(data), inputs)
      {
        var f := filters[i];
        var out;
        if data.None? {
          out := f(None);
        } else {
          out := f(data);
        }
        inputs := inputs + [data];
        if out.Err? {
          RunPrefixStops(filters, i + 1, |filters|);
          return Err(out.error), inputs;
        }
        data := out.value;
        i := i + 1;
      }
      r := Ok(data);
    }
  }
}
