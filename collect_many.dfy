/** The collector registered with Prometheus: `CollectMany.collect` runs the
    builder of every configured device, in configuration order, and yields what
    each yields; an exception from any builder ends the scrape. */
module Aggregator {
  import opened Snapshot
  import opened DumpStore
  import opened MetricBuilder

  /** What each builder's `build()` gives, in configuration order. */
  function Outcomes(builders: seq<Builder>, files: Files): (rs: seq<Result<seq<Gauge>>>)
    ensures |rs| == |builders|
    ensures forall i :: 0 <= i < |builders| ==> rs[i] == Build(builders[i], files)
  {
    seq(|builders|, i requires 0 <= i < |builders| => Build(builders[i], files))
  }

  /** `yield from` each outcome in turn: the first error ends the run. */
  function ChainAll(rs: seq<Result<seq<Gauge>>>): Result<seq<Gauge>>
    decreases |rs|
  {
    if rs == [] then Ok([]) else Chain(rs[0], ChainAll(rs[1..]))
  }

  /** `for builder in self.builders: yield from builder.build()`. */
  function CollectMany(builders: seq<Builder>, files: Files): (r: Result<seq<Gauge>>)
    ensures builders == [] ==> r == Ok([])
  {
    ChainAll(Outcomes(builders, files))
  }

  /** A run of outcomes succeeds exactly when every outcome does. */
  lemma {:induction false} ChainAllSucceeds(rs: seq<Result<seq<Gauge>>>)
    ensures ChainAll(rs).Ok? <==> forall i :: 0 <= i < |rs| ==> rs[i].Ok?
    decreases |rs|
  {
    if rs != [] {
      ChainAllSucceeds(rs[1..]);
      assert forall i :: 0 < i < |rs| ==> rs[i] == rs[1..][i - 1];
    }
  }

  /** A scrape succeeds exactly when every builder's does. */
  lemma CollectManySucceeds(builders: seq<Builder>, files: Files)
    ensures CollectMany(builders, files).Ok? <==> forall i :: 0 <= i < |builders| ==> Build(builders[i], files).Ok?
  {
    ChainAllSucceeds(Outcomes(builders, files));
  }

  /** `yield from` is associative: how the chained parts are grouped does not matter. */
  lemma ChainAssoc(a: Result<seq<Gauge>>, m: Result<seq<Gauge>>, z: Result<seq<Gauge>>)
    ensures Chain(a, Chain(m, z)) == Chain(Chain(a, m), z)
  {
    if a.Ok? && m.Ok? && z.Ok? {
      assert a.value + (m.value + z.value) == (a.value + m.value) + z.value;
    }
  }

  /** Running two runs of outcomes one after the other is running their
      concatenation. */
  lemma {:induction false} ChainAllAppend(xs: seq<Result<seq<Gauge>>>, ys: seq<Result<seq<Gauge>>>)
    ensures ChainAll(xs + ys) == Chain(ChainAll(xs), ChainAll(ys))
    decreases |xs|
  {
    var u := ChainAll(ys);
    if xs == [] {
      assert xs + ys == ys;
      if u.Ok? {
        assert [] + u.value == u.value;
      }
    } else {
      var zs := xs + ys;
      assert zs[0] == xs[0] && zs[1..] == xs[1..] + ys;
      ChainAllAppend(xs[1..], ys);
      ChainAssoc(xs[0], ChainAll(xs[1..]), u);
    }
  }

  /** Running two lists of builders one after the other is running their
      concatenation. */
  lemma CollectManyAppend(xs: seq<Builder>, ys: seq<Builder>, files: Files)
    ensures CollectMany(xs + ys, files) == Chain(CollectMany(xs, files), CollectMany(ys, files))
  {
    var os, ox, oy := Outcomes(xs + ys, files), Outcomes(xs, files), Outcomes(ys, files);
    assert os == ox + oy by {
      forall i | 0 <= i < |os| ensures os[i] == (ox + oy)[i] {
        if i < |xs| {
          assert (xs + ys)[i] == xs[i];
        } else {
          assert (xs + ys)[i] == ys[i - |xs|];
        }
      }
    }
    ChainAllAppend(ox, oy);
  }

  /** Each outcome is one contiguous block of the run: the outcomes before it,
      then it, then those after it. */
  lemma ChainAllBlock(rs: seq<Result<seq<Gauge>>>, i: int)
    requires 0 <= i < |rs|
    ensures ChainAll(rs) == Chain(ChainAll(rs[..i]), Chain(rs[i], ChainAll(rs[i + 1..])))
  {
    var rest := rs[i..];
    assert rs == rs[..i] + rest;
    assert rest[0] == rs[i] && rest[1..] == rs[i + 1..];
    ChainAllAppend(rs[..i], rest);
  }

  /** Each builder's output is one contiguous block of the scrape: everything the
      builders before it yield, then its own gauges, then everything after. */
  lemma CollectManyBlock(builders: seq<Builder>, files: Files, i: int)
    requires 0 <= i < |builders|
    ensures CollectMany(builders, files) ==
      Chain(CollectMany(builders[..i], files),
            Chain(Build(builders[i], files), CollectMany(builders[i + 1..], files)))
  {
    var rs := Outcomes(builders, files);
    ChainAllBlock(rs, i);
    assert rs[..i] == Outcomes(builders[..i], files);
    assert rs[i + 1..] == Outcomes(builders[i + 1..], files);
  }

  /** A failed run of outcomes fails with the first error in it. */
  lemma {:induction false} ChainAllFirstError(rs: seq<Result<seq<Gauge>>>)
    requires ChainAll(rs).Err?
    ensures exists i :: 0 <= i < |rs| && ChainAll(rs) == rs[i] && forall j :: 0 <= j < i ==> rs[j].Ok?
    decreases |rs|
  {
    if rs[0].Ok? {
      var tail := rs[1..];
      ChainAllFirstError(tail);
      var k :| 0 <= k < |tail| && ChainAll(tail) == tail[k] && forall j :: 0 <= j < k ==> tail[j].Ok?;
      assert forall j :: 0 < j < |rs| ==> rs[j] == tail[j - 1];
      assert ChainAll(rs) == rs[k + 1];
    }
  }

  /** A failed scrape fails with the error of the first builder that fails. */
  lemma CollectManyFirstError(builders: seq<Builder>, files: Files)
    requires CollectMany(builders, files).Err?
    ensures exists i ::
      && 0 <= i < |builders|
      && CollectMany(builders, files) == Build(builders[i], files)
      && (forall j :: 0 <= j < i ==> Build(builders[j], files).Ok?)
  {
    var rs := Outcomes(builders, files);
    ChainAllFirstError(rs);
    var i :| 0 <= i < |rs| && ChainAll(rs) == rs[i] && forall j :: 0 <= j < i ==> rs[j].Ok?;
    assert CollectMany(builders, files) == Build(builders[i], files);
  }
}
