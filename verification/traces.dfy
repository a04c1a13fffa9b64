/** Sequences of calls on one `asset_manager` and what holds across them:
    the store only ever holds the last value a loader produced for a path,
    an entry changes only through calls naming its path, repeated gets of a
    path whose load succeeded are cache hits, a failed load is retried and
    reported again on every get, and a forget makes the next get load again. */
module Traces {
  import opened Wrappers
  import opened Meta
  import opened Cache

  /** One public call on the manager. */
  datatype Op<P> =
    | SetLoaderOp(t: TypeId, loader: Loader<P>)
    | SetWriterOp(t: TypeId, writer: HostFn)
    | LoadOp(t: TypeId, path: string)
    | GetOp(t: TypeId, path: string)
    | WriteOp(t: TypeId, path: string, value: P)
    | ForgetOp(path: string)
    | SetErrorCallbackOp(sink: Option<HostFn>)
    | SetInfosCallbackOp(sink: Option<HostFn>)
    | ErrorOp(message: string)
    | InfosOp(message: string)

  function Apply<P>(m: ManagerState<P>, op: Op<P>): (r: ManagerState<P>)
  {
    match op
    case SetLoaderOp(t, fn) => SetLoader(m, t, fn)
    case SetWriterOp(t, fn) => SetWriter(m, t, fn)
    case LoadOp(t, path) => LoadAsset(m, t, path).next
    case GetOp(t, path) => GetAsset(m, t, path).next
    case WriteOp(t, path, value) => WriteAsset(m, t, path, value)
    case ForgetOp(path) => ForgetAsset(m, path)
    case SetErrorCallbackOp(fn) => SetErrorCallback(m, fn)
    case SetInfosCallbackOp(fn) => SetInfosCallback(m, fn)
    case ErrorOp(message) => InvokeError(m, message)
    case InfosOp(message) => InvokeInfos(m, message)
  }

  /** The manager after the calls `ops`, in order. */
  function Run<P>(m: ManagerState<P>, ops: seq<Op<P>>): (r: ManagerState<P>)
    decreases |ops|
  {
    if ops == [] then m else Run(Apply(m, ops[0]), ops[1..])
  }

  /** No call undoes anything the manager did: each one only appends to the log. */
  lemma ApplyExtendsLog<P>(m: ManagerState<P>, op: Op<P>)
    ensures m.log <= Apply(m, op).log
  {
    match op
    case LoadOp(t, path) =>
      assert LoadAsset(m, t, path).next.log[..|m.log|] == m.log;
    case GetOp(t, path) =>
      if path !in m.assets {
        assert LoadAsset(m, t, path).next.log[..|m.log|] == m.log;
      }
    case WriteOp(t, path, value) =>
      assert WriteAsset(m, t, path, value).log[..|m.log|] == m.log;
    case ErrorOp(message) =>
      assert InvokeError(m, message).log[..|m.log|] == m.log;
    case InfosOp(message) =>
      assert InvokeInfos(m, message).log[..|m.log|] == m.log;
    case _ =>
  }

  lemma {:induction false} RunExtendsLog<P>(m: ManagerState<P>, ops: seq<Op<P>>)
    ensures m.log <= Run(m, ops).log
    decreases |ops|
  {
    if ops != [] {
      ApplyExtendsLog(m, ops[0]);
      RunExtendsLog(Apply(m, ops[0]), ops[1..]);
    }
  }

  // ---------------------------------------------------------------------
  // The store holds exactly what the loaders last produced

  /** Is `e` a loader call on `path` that succeeded? */
  predicate LoadedInto<P>(e: Event<P>, path: string)
  {
    e.LoaderCalled? && e.meta.filepath == path && e.result.Some?
  }

  /** The result of the latest successful loader call on `path`, if any. */
  function LastLoaded<P>(log: seq<Event<P>>, path: string): (last: Option<Asset<P>>)
  {
    if log == [] then None
    else if LoadedInto(log[|log| - 1], path) then log[|log| - 1].result
    else LastLoaded(log[..|log| - 1], path)
  }

  /** Every stored asset is the value its path's latest successful load produced. */
  ghost predicate Coherent<P>(m: ManagerState<P>)
  {
    forall p :: p in m.assets ==> LastLoaded(m.log, p) == Some(m.assets[p])
  }

  lemma {:induction false} LastLoadedSkips<P>(log: seq<Event<P>>, es: seq<Event<P>>, path: string)
    requires forall i :: 0 <= i < |es| ==> !LoadedInto(es[i], path)
    ensures LastLoaded(log + es, path) == LastLoaded(log, path)
    decreases |es|
  {
    if es != [] {
      var init := es[..|es| - 1];
      assert (log + es)[..|log + es| - 1] == log + init;
      assert (log + es)[|log + es| - 1] == es[|es| - 1];
      LastLoadedSkips(log, init, path);
    } else {
      assert log + es == log;
    }
  }

  /** A successful load makes its result the latest one for its path only. */
  lemma LastLoadedAfterLoad<P>(log: seq<Event<P>>, t: TypeId, path: string, a: Asset<P>, q: string)
    ensures LastLoaded(log + [LoaderCalled(t, MetaOf(path), Some(a))], q)
         == if q == path then Some(a) else LastLoaded(log, q)
  {
    if q != path {
      LastLoadedSkips(log, [LoaderCalled(t, MetaOf(path), Some(a))], q);
    } else {
      assert LoadedInto((log + [LoaderCalled(t, MetaOf(path), Some(a))])[|log|], q);
    }
  }

  lemma LoadKeepsCoherent<P>(m: ManagerState<P>, t: TypeId, path: string)
    requires Coherent(m)
    ensures Coherent(LoadAsset(m, t, path).next)
  {
    var r := LoadAsset(m, t, path);
    if t !in m.loaders {
      LastLoadedSkips(m.log, Deliver(m.errCb, LoaderNotFound, true), path);
      forall p | p in r.next.assets ensures LastLoaded(r.next.log, p) == Some(r.next.assets[p]) {
        LastLoadedSkips(m.log, Deliver(m.errCb, LoaderNotFound, true), p);
      }
    } else {
      var meta := MetaOf(path);
      var res := m.loaders[t](meta);
      if res.None? {
        var es := [LoaderCalled(t, meta, res)] + Deliver(m.errCb, LoadFailedMessage(t, path), true);
        assert r.next.log == m.log + es;
        forall p | p in r.next.assets ensures LastLoaded(r.next.log, p) == Some(r.next.assets[p]) {
          LastLoadedSkips(m.log, es, p);
        }
      } else {
        assert r.next.log == m.log + [LoaderCalled(t, meta, Some(res.value))];
        forall p | p in r.next.assets ensures LastLoaded(r.next.log, p) == Some(r.next.assets[p]) {
          LastLoadedAfterLoad(m.log, t, path, res.value, p);
        }
      }
    }
  }

  lemma ApplyKeepsCoherent<P>(m: ManagerState<P>, op: Op<P>)
    requires Coherent(m)
    ensures Coherent(Apply(m, op))
  {
    var m' := Apply(m, op);
    match op
    case LoadOp(t, path) =>
      LoadKeepsCoherent(m, t, path);
    case GetOp(t, path) =>
      if path !in m.assets { LoadKeepsCoherent(m, t, path); }
    case ForgetOp(path) =>
    case SetLoaderOp(_, _) =>
    case SetWriterOp(_, _) =>
    case SetErrorCallbackOp(_) =>
    case SetInfosCallbackOp(_) =>
    case _ =>
      var es := m'.log[|m.log|..];
      assert m'.log == m.log + es;
      forall p | p in m'.assets ensures LastLoaded(m'.log, p) == Some(m'.assets[p]) {
        LastLoadedSkips(m.log, es, p);
      }
  }

  lemma {:induction false} RunKeepsCoherent<P>(m: ManagerState<P>, ops: seq<Op<P>>)
    requires Coherent(m)
    ensures Coherent(Run(m, ops))
    decreases |ops|
  {
    if ops != [] {
      ApplyKeepsCoherent(m, ops[0]);
      RunKeepsCoherent(Apply(m, ops[0]), ops[1..]);
    }
  }

  /** Whatever calls a fresh manager receives, each stored asset is the value
      the latest successful loader call on its path returned: writes, failed
      loads and notifications never put anything into the store. */
  lemma StoreHoldsLatestLoad<P>(ops: seq<Op<P>>, p: string)
    ensures var m := Run(Empty(), ops);
      p in m.assets ==> LastLoaded(m.log, p) == Some(m.assets[p])
  {
    RunKeepsCoherent(Empty<P>(), ops);
  }

  // ---------------------------------------------------------------------
  // An entry changes only through calls on its own path

  /** Does `op` name `path` as the asset to load, get or forget? */
  predicate Targets<P>(op: Op<P>, path: string)
  {
    (op.LoadOp? || op.GetOp? || op.ForgetOp?) && op.path == path
  }

  lemma {:induction false} RunIsolatesEntry<P>(m: ManagerState<P>, ops: seq<Op<P>>, p: string)
    requires forall i :: 0 <= i < |ops| ==> !Targets(ops[i], p)
    ensures var m' := Run(m, ops);
      && (p in m'.assets <==> p in m.assets)
      && (p in m.assets ==> m'.assets[p] == m.assets[p])
    decreases |ops|
  {
    if ops != [] {
      var m' := Apply(m, ops[0]);
      assert p in m'.assets <==> p in m.assets;
      assert p in m.assets ==> m'.assets[p] == m.assets[p];
      RunIsolatesEntry(m', ops[1..], p);
    }
  }

  // ---------------------------------------------------------------------
  // Loader invocations

  /** The number of loader calls on `path` in `log`. */
  function LoadsOf<P>(log: seq<Event<P>>, path: string): (count: nat)
  {
    if log == [] then 0
    else LoadsOf(log[..|log| - 1], path)
         + (if log[|log| - 1].LoaderCalled? && log[|log| - 1].meta.filepath == path then 1 else 0)
  }

  /** Appending one event adds one loader call on `path` exactly when the event is one. */
  lemma LoadsOfAppend<P>(log: seq<Event<P>>, e: Event<P>, path: string)
    ensures LoadsOf(log + [e], path)
         == LoadsOf(log, path) + (if e.LoaderCalled? && e.meta.filepath == path then 1 else 0)
  {
    assert (log + [e])[..|log|] == log;
  }

  function Repeat<T>(x: T, n: nat): (r: seq<T>)
    ensures |r| == n && forall i :: 0 <= i < n ==> r[i] == x
  {
    if n == 0 then [] else [x] + Repeat(x, n - 1)
  }

  /** A load whose loader succeeds, in closed form: one loader call logged,
      the result stored under the path, nothing else changed. */
  lemma LoadSucceeds<P>(m: ManagerState<P>, t: TypeId, path: string)
    requires t in m.loaders && m.loaders[t](MetaOf(path)).Some?
    ensures var v := m.loaders[t](MetaOf(path)).value;
      LoadAsset(m, t, path)
      == Step(m.(assets := m.assets[path := v],
                 log := m.log + [LoaderCalled(t, MetaOf(path), Some(v))]), Some(v))
  {
    var v := m.loaders[t](MetaOf(path)).value;
    assert LoadAsset(m, t, path).next.assets == m.assets[path := v];
  }

  /** Once `path` is stored, any number of further gets on it change nothing. */
  lemma {:induction false} RepeatedGetsAreHits<P>(m: ManagerState<P>, t: TypeId, path: string, n: nat)
    requires path in m.assets
    ensures Run(m, Repeat<Op<P>>(GetOp(t, path), n)) == m
  {
    if n > 0 {
      var ops := Repeat<Op<P>>(GetOp(t, path), n);
      assert ops[1..] == Repeat<Op<P>>(GetOp(t, path), n - 1);
      RepeatedGetsAreHits(m, t, path, n - 1);
    }
  }

  /** `n` gets on a path never loaded, with a loader that succeeds, call that
      loader exactly once: the first get loads, the others hit the cache. */
  lemma GetsLoadOnce<P>(m: ManagerState<P>, t: TypeId, path: string, n: nat)
    requires path !in m.assets && t in m.loaders
    requires m.loaders[t](MetaOf(path)).Some?
    requires n > 0
    ensures var m' := Run(m, Repeat<Op<P>>(GetOp(t, path), n));
      && m'.log == m.log + [LoaderCalled(t, MetaOf(path), m.loaders[t](MetaOf(path)))]
      && LoadsOf(m'.log, path) == LoadsOf(m.log, path) + 1
      && m'.assets == m.assets[path := m.loaders[t](MetaOf(path)).value]
  {
    var v := m.loaders[t](MetaOf(path)).value;
    var e := LoaderCalled(t, MetaOf(path), Some(v));
    var first := m.(assets := m.assets[path := v], log := m.log + [e]);
    var ops := Repeat<Op<P>>(GetOp(t, path), n);
    calc {
      Run(m, ops);
      { assert ops[1..] == Repeat<Op<P>>(GetOp(t, path), n - 1);
        LoadSucceeds(m, t, path);
        assert GetAsset(m, t, path).next == first; }
      Run(first, Repeat<Op<P>>(GetOp(t, path), n - 1));
      { RepeatedGetsAreHits(first, t, path, n - 1); }
      first;
    }
    LoadsOfAppend(m.log, e, path);
  }

  /** `block` written `n` times in a row. */
  function Times<T>(block: seq<T>, n: nat): seq<T>
  {
    if n == 0 then [] else block + Times(block, n - 1)
  }

  /** What a load whose loader returns null logs: the loader call, then the
      failure report when an error sink is set. */
  function FailedLoadEvents<P>(errCb: Option<HostFn>, t: TypeId, path: string): (es: seq<Event<P>>)
    ensures errCb.None? ==> es == [LoaderCalled(t, MetaOf(path), None)]
    ensures errCb.Some? ==>
      es == [LoaderCalled(t, MetaOf(path), None), ErrorReported(errCb.value, LoadFailedMessage(t, path))]
  {
    [LoaderCalled(t, MetaOf(path), None)] + Deliver(errCb, LoadFailedMessage(t, path), true)
  }

  /** One get on an unstored path whose loader returns null: only the log
      changes, by the events of a failed load, and the result is null. */
  lemma FailedGet<P>(m: ManagerState<P>, t: TypeId, path: string)
    requires path !in m.assets && t in m.loaders
    requires m.loaders[t](MetaOf(path)).None?
    ensures GetAsset(m, t, path) == Step(m.(log := m.log + FailedLoadEvents(m.errCb, t, path)), None)
  {
  }

  /** The first of `n` gets on such a path fails, and the rest run on the
      manager it leaves. */
  lemma FailedGetThenRest<P>(m: ManagerState<P>, t: TypeId, path: string, n: nat)
    requires path !in m.assets && t in m.loaders
    requires m.loaders[t](MetaOf(path)).None?
    requires n > 0
    ensures Run(m, Repeat<Op<P>>(GetOp(t, path), n))
         == Run(m.(log := m.log + FailedLoadEvents(m.errCb, t, path)), Repeat<Op<P>>(GetOp(t, path), n - 1))
  {
    var ops := Repeat<Op<P>>(GetOp(t, path), n);
    assert ops[1..] == Repeat<Op<P>>(GetOp(t, path), n - 1);
    FailedGet(m, t, path);
  }

  /** The events of a failed load hold exactly one loader call on its path. */
  lemma FailedLoadCountsOnce<P>(log: seq<Event<P>>, errCb: Option<HostFn>, t: TypeId, path: string)
    ensures LoadsOf(log + FailedLoadEvents(errCb, t, path), path) == LoadsOf(log, path) + 1
  {
    var block: seq<Event<P>> := FailedLoadEvents(errCb, t, path);
    LoadsOfAppend(log, block[0], path);
    LoadsSkipsReports(log + [block[0]], block[1..], path);
    assert log + block == log + [block[0]] + block[1..];
  }

  /** A failed load is never cached: `n` gets on an unstored path whose loader
      returns null leave everything but the log as it was, and log the failed
      load `n` times, loader call and report each time. */
  lemma {:induction false} GetsRetryFailedLoad<P>(m: ManagerState<P>, t: TypeId, path: string, n: nat)
    requires path !in m.assets && t in m.loaders
    requires m.loaders[t](MetaOf(path)).None?
    ensures Run(m, Repeat<Op<P>>(GetOp(t, path), n))
         == m.(log := m.log + Times(FailedLoadEvents(m.errCb, t, path), n))
    decreases n
  {
    var block: seq<Event<P>> := FailedLoadEvents(m.errCb, t, path);
    if n == 0 {
      assert m.log + Times(block, 0) == m.log;
    } else {
      var m1 := m.(log := m.log + block);
      calc {
        Run(m, Repeat<Op<P>>(GetOp(t, path), n));
        { FailedGetThenRest(m, t, path, n); }
        Run(m1, Repeat<Op<P>>(GetOp(t, path), n - 1));
        { GetsRetryFailedLoad(m1, t, path, n - 1); }
        m1.(log := m1.log + Times(block, n - 1));
        { assert m1.log + Times(block, n - 1) == m.log + Times(block, n); }
        m.(log := m.log + Times(block, n));
      }
    }
  }

  /** Loader calls on a path add up over concatenated logs. */
  lemma {:induction false} LoadsOfConcat<P>(a: seq<Event<P>>, b: seq<Event<P>>, path: string)
    ensures LoadsOf(a + b, path) == LoadsOf(a, path) + LoadsOf(b, path)
    decreases |b|
  {
    if b == [] {
      assert a + b == a;
    } else {
      var init := b[..|b| - 1];
      assert (a + b)[..|a + b| - 1] == a + init;
      assert (a + b)[|a + b| - 1] == b[|b| - 1];
      LoadsOfConcat(a, init, path);
    }
  }

  /** A block holding one loader call on a path, repeated `n` times, holds `n`. */
  lemma {:induction false} LoadsOfTimes<P>(block: seq<Event<P>>, path: string, n: nat)
    requires LoadsOf(block, path) == 1
    ensures LoadsOf(Times(block, n), path) == n
    decreases n
  {
    if n > 0 {
      LoadsOfTimes(block, path, n - 1);
      LoadsOfConcat(block, Times(block, n - 1), path);
    }
  }

  /** `n` failed loads of a path hold `n` loader calls on it. */
  lemma FailedLoadsCount<P>(log: seq<Event<P>>, errCb: Option<HostFn>, t: TypeId, path: string, n: nat)
    ensures LoadsOf(log + Times(FailedLoadEvents(errCb, t, path), n), path) == LoadsOf(log, path) + n
  {
    var block: seq<Event<P>> := FailedLoadEvents(errCb, t, path);
    FailedLoadCountsOnce<P>([], errCb, t, path);
    assert [] + block == block;
    LoadsOfTimes(block, path, n);
    LoadsOfConcat(log, Times(block, n), path);
  }

  /** Every one of `n` gets on an unstored path whose loader fails calls the
      loader again, and the path stays unstored. */
  lemma GetsRetryEveryTime<P>(m: ManagerState<P>, t: TypeId, path: string, n: nat)
    requires path !in m.assets && t in m.loaders
    requires m.loaders[t](MetaOf(path)).None?
    ensures var m' := Run(m, Repeat<Op<P>>(GetOp(t, path), n));
      && path !in m'.assets
      && LoadsOf(m'.log, path) == LoadsOf(m.log, path) + n
  {
    GetsRetryFailedLoad(m, t, path, n);
    FailedLoadsCount(m.log, m.errCb, t, path, n);
  }

  /** A get after a forget calls the loader again. */
  lemma ForgetThenGetReloads<P>(m: ManagerState<P>, t: TypeId, path: string)
    requires t in m.loaders
    ensures var m' := GetAsset(ForgetAsset(m, path), t, path).next;
      && |m'.log| > |m.log|
      && m'.log[|m.log|] == LoaderCalled(t, MetaOf(path), m.loaders[t](MetaOf(path)))
      && LoadsOf(m'.log, path) == LoadsOf(m.log, path) + 1
  {
    var m' := GetAsset(ForgetAsset(m, path), t, path).next;
    var e := LoaderCalled(t, MetaOf(path), m.loaders[t](MetaOf(path)));
    var es := Deliver(m.errCb, LoadFailedMessage(t, path), true);
    var tail := if m.loaders[t](MetaOf(path)).None? then es else [];
    assert m'.log == m.log + [e] + tail;
    LoadsSkipsReports(m.log + [e], tail, path);
    assert (m.log + [e])[..|m.log|] == m.log;
  }

  lemma {:induction false} LoadsSkipsReports<P>(log: seq<Event<P>>, es: seq<Event<P>>, path: string)
    requires forall i :: 0 <= i < |es| ==> es[i].ErrorReported?
    ensures LoadsOf(log + es, path) == LoadsOf(log, path)
    decreases |es|
  {
    if es != [] {
      var init := es[..|es| - 1];
      assert (log + es)[..|log + es| - 1] == log + init;
      assert (log + es)[|log + es| - 1] == es[|es| - 1];
      LoadsSkipsReports(log, init, path);
    } else {
      assert log + es == log;
    }
  }

  /** Registering a second loader for a type discards the first: later loads
      behave as if only the second had ever been registered. */
  lemma SetLoaderLastWins<P>(m: ManagerState<P>, t: TypeId, f: Loader<P>, g: Loader<P>, path: string)
    ensures SetLoader(SetLoader(m, t, f), t, g) == SetLoader(m, t, g)
    ensures LoadAsset(SetLoader(SetLoader(m, t, f), t, g), t, path)
         == LoadAsset(SetLoader(m, t, g), t, path)
  {
    assert m.loaders[t := f][t := g] == m.loaders[t := g];
  }

  /** A get whose path the first get left stored is answered from the cache
      with the same answer. */
  lemma SecondGetIsHit<P>(m: ManagerState<P>, t: TypeId, path: string)
    ensures var first := GetAsset(m, t, path);
      path in first.next.assets ==> GetAsset(first.next, t, path) == first
  {
  }
}
