/** The behaviour of `asset_manager` (include/asset_manager.hpp) as functions on
    its state. A `ManagerState` value holds the five fields of the class plus the
    ordered log of what the class did to the outside world: loader calls,
    writer calls and messages handed to the two notification sinks. Each
    public operation of the class is one function here; the class in
    asset_manager.dfy is proved to follow them. */
module Cache {
  import opened Wrappers
  import opened Meta

  /** `std::type_index` of a declared type. `write_asset` boxes a pointer to
      its argument, whose type is `const T*`: `ConstPointer(T)`. */
  datatype TypeId = Named(name: string) | ConstPointer(pointee: TypeId)

  /** A stored `std::any`: the dynamic type it holds and the value. */
  datatype Asset<P> = Asset(tag: TypeId, payload: P)

  /** A loader; `None` is the null `unique_ptr` that signals failure. */
  type Loader<P> = AssetMeta -> Option<Asset<P>>

  /** Identity of a host-supplied writer or notification callback. Only its
      invocations are observable, as events of the log. */
  datatype HostFn = HostFn(id: nat)

  datatype Event<P> =
    | LoaderCalled(tid: TypeId, meta: AssetMeta, result: Option<Asset<P>>)
    | WriterCalled(writer: HostFn, meta: AssetMeta, argument: Asset<P>)
    | ErrorReported(sink: HostFn, message: string)
    | InfoReported(sink: HostFn, message: string)

  datatype ManagerState<P> = ManagerState(
    loaders: map<TypeId, Loader<P>>,
    writers: map<TypeId, HostFn>,
    assets: map<string, Asset<P>>,
    errCb: Option<HostFn>,
    infosCb: Option<HostFn>,
    log: seq<Event<P>>)

  /** The result of an operation that also returns something. */
  datatype Step<P, R> = Step(next: ManagerState<P>, out: R)

  const LoaderNotFound: string := "loader not found"
  const WriterNotFound: string := "no writer found"

  /** A stand-in for `typeid(T).name()`, whose text is implementation-defined.
      Its rules are this model's own: a named type gives its own name, and a
      pointer type ends in " const*" (an implementation may mangle both). */
  function TypeName(t: TypeId): (name: string)
    ensures t.Named? ==> name == t.name
    ensures t.ConstPointer? ==> |name| >= 7 && name[|name| - 7..] == " const*"
  {
    match t
    case Named(n) => n
    case ConstPointer(u) => TypeName(u) + " const*"
  }

  /** The error of a failed load: fixed text around the declared type and
      the file path, so its length is fixed by theirs. */
  function LoadFailedMessage(t: TypeId, filepath: string): (message: string)
    ensures |message| == 40 + |TypeName(t)| + |filepath|
  {
    "loader of type \"" + TypeName(t) + "\" failed to load file \"" + filepath + "\""
  }

  /** The error of a failed load names the declared type right after its
      opening text and the file path just before its closing quote. */
  lemma LoadFailedMessageNames(t: TypeId, filepath: string)
    ensures var message := LoadFailedMessage(t, filepath);
      && message[16..16 + |TypeName(t)|] == TypeName(t)
      && message[|message| - |filepath| - 1..|message| - 1] == filepath
  {
  }

  /** A default-constructed manager: no loaders, writers, assets or sinks. */
  function Empty<P>(): (m: ManagerState<P>)
    ensures m.loaders == map[] && m.writers == map[] && m.assets == map[]
    ensures m.errCb == None && m.infosCb == None && m.log == []
  {
    ManagerState(map[], map[], map[], None, None, [])
  }

  /** What a sink that may be unset receives for one message. */
  function Deliver<P>(sink: Option<HostFn>, message: string, error: bool): (es: seq<Event<P>>)
    ensures sink.None? ==> es == []
    ensures sink.Some? ==> |es| == 1
    ensures sink.Some? && error ==> es[0] == ErrorReported(sink.value, message)
    ensures sink.Some? && !error ==> es[0] == InfoReported(sink.value, message)
  {
    match sink
    case None => []
    case Some(fn) => if error then [ErrorReported(fn, message)] else [InfoReported(fn, message)]
  }

  /** Two managers that agree on everything but the log. */
  ghost predicate SameTables<P>(a: ManagerState<P>, b: ManagerState<P>)
  {
    a.loaders == b.loaders && a.writers == b.writers && a.assets == b.assets
    && a.errCb == b.errCb && a.infosCb == b.infosCb
  }

  /** `set_error_callback_fn`: replaces the error sink (None is an empty `std::function`). */
  function SetErrorCallback<P>(m: ManagerState<P>, fn: Option<HostFn>): (r: ManagerState<P>)
    ensures r.errCb == fn
    ensures r.loaders == m.loaders && r.writers == m.writers && r.assets == m.assets
    ensures r.infosCb == m.infosCb && r.log == m.log
  {
    m.(errCb := fn)
  }

  /** `set_infos_callback_fn`: replaces the information sink. */
  function SetInfosCallback<P>(m: ManagerState<P>, fn: Option<HostFn>): (r: ManagerState<P>)
    ensures r.infosCb == fn
    ensures r.loaders == m.loaders && r.writers == m.writers && r.assets == m.assets
    ensures r.errCb == m.errCb && r.log == m.log
  {
    m.(infosCb := fn)
  }

  /** `invoke_error_cb`: the message reaches the error sink when one is set, and nothing happens otherwise. */
  function InvokeError<P>(m: ManagerState<P>, message: string): (r: ManagerState<P>)
    ensures SameTables(r, m)
    ensures m.errCb.None? ==> r.log == m.log
    ensures m.errCb.Some? ==> r.log == m.log + [ErrorReported(m.errCb.value, message)]
  {
    m.(log := m.log + Deliver(m.errCb, message, true))
  }

  /** `invoke_infos_cb`: the message reaches the information sink when one is set. */
  function InvokeInfos<P>(m: ManagerState<P>, message: string): (r: ManagerState<P>)
    ensures SameTables(r, m)
    ensures m.infosCb.None? ==> r.log == m.log
    ensures m.infosCb.Some? ==> r.log == m.log + [InfoReported(m.infosCb.value, message)]
  {
    m.(log := m.log + Deliver(m.infosCb, message, false))
  }

  /** `set_loader<T>`: `fn` becomes the loader of `t`, whatever was there before. */
  function SetLoader<P>(m: ManagerState<P>, t: TypeId, fn: Loader<P>): (r: ManagerState<P>)
    ensures t in r.loaders && r.loaders[t] == fn
    ensures r.loaders.Keys == m.loaders.Keys + {t}
    ensures forall u :: u in m.loaders && u != t ==> r.loaders[u] == m.loaders[u]
    ensures r.writers == m.writers && r.assets == m.assets
    ensures r.errCb == m.errCb && r.infosCb == m.infosCb && r.log == m.log
  {
    m.(loaders := m.loaders[t := fn])
  }

  /** `set_writer<T>`: `fn` becomes the writer of `t`, whatever was there before. */
  function SetWriter<P>(m: ManagerState<P>, t: TypeId, fn: HostFn): (r: ManagerState<P>)
    ensures t in r.writers && r.writers[t] == fn
    ensures r.writers.Keys == m.writers.Keys + {t}
    ensures forall u :: u in m.writers && u != t ==> r.writers[u] == m.writers[u]
    ensures r.loaders == m.loaders && r.assets == m.assets
    ensures r.errCb == m.errCb && r.infosCb == m.infosCb && r.log == m.log
  {
    m.(writers := m.writers[t := fn])
  }

  /** `load_asset<T>`. Without a loader for `t`: one "loader not found" error,
      no loader call, empty result. Otherwise the loader is called exactly once
      with the descriptor of `filepath`; on failure one error naming the type
      and the path is reported and the store is left as it was; on success the
      result replaces whatever was stored under `filepath`, nothing else is
      stored or removed, and the stored value is returned. */
  function LoadAsset<P>(m: ManagerState<P>, t: TypeId, filepath: string): (r: Step<P, Option<Asset<P>>>)
    ensures r.next.loaders == m.loaders && r.next.writers == m.writers
    ensures r.next.errCb == m.errCb && r.next.infosCb == m.infosCb
    ensures t !in m.loaders ==>
      r.out == None && r.next.assets == m.assets
      && r.next.log == m.log + Deliver(m.errCb, LoaderNotFound, true)
    ensures t in m.loaders ==>
      var res := m.loaders[t](MetaOf(filepath));
      && r.out == res
      && r.next.log == m.log + [LoaderCalled(t, MetaOf(filepath), res)]
                             + (if res.None? then Deliver(m.errCb, LoadFailedMessage(t, filepath), true) else [])
    ensures r.out.None? ==> r.next.assets == m.assets
    ensures r.out.Some? ==>
      && filepath in r.next.assets && r.next.assets[filepath] == r.out.value
      && r.next.assets.Keys == m.assets.Keys + {filepath}
      && forall p :: p in m.assets && p != filepath ==> r.next.assets[p] == m.assets[p]
  {
    if t !in m.loaders then
      Step(InvokeError(m, LoaderNotFound), None)
    else
      var meta := MetaOf(filepath);
      var result := m.loaders[t](meta);
      var called := m.(log := m.log + [LoaderCalled(t, meta, result)]);
      if result.None? then
        Step(InvokeError(called, LoadFailedMessage(t, meta.filepath)), None)
      else
        var stored := Store(called, filepath, result.value);
        Step(stored, Some(stored.assets[filepath]))
  }

  /** The end of a successful `load_asset`: an entry already under `filepath`
      is erased, then `a` is stored under it. */
  function Store<P>(m: ManagerState<P>, filepath: string, a: Asset<P>): (r: ManagerState<P>)
    ensures filepath in r.assets && r.assets[filepath] == a
    ensures r.assets.Keys == m.assets.Keys + {filepath}
    ensures forall p :: p in m.assets && p != filepath ==> r.assets[p] == m.assets[p]
    ensures r.loaders == m.loaders && r.writers == m.writers
    ensures r.errCb == m.errCb && r.infosCb == m.infosCb && r.log == m.log
  {
    var erased := if filepath in m.assets then m.(assets := m.assets - {filepath}) else m;
    erased.(assets := erased.assets[filepath := a])
  }

  /** `std::any_cast<T>` on a pointer: the payload when the held type is `t`, null otherwise. */
  function AnyCast<P>(a: Asset<P>, t: TypeId): (r: Option<P>)
    ensures r.Some? <==> a.tag == t
    ensures r.Some? ==> a == Asset(t, r.value)
  {
    if a.tag == t then Some(a.payload) else None
  }

  /** `get_asset<T>`. A stored path is a pure cache hit: nothing changes, no
      loader runs, nothing is reported. An absent path is handed to
      `load_asset<T>` once; its failure yields null, its success yields the
      freshly stored value cast to `t`. */
  function GetAsset<P>(m: ManagerState<P>, t: TypeId, filepath: string): (r: Step<P, Option<P>>)
    ensures filepath in m.assets ==> r.next == m && r.out == AnyCast(m.assets[filepath], t)
    ensures filepath !in m.assets ==> r.next == LoadAsset(m, t, filepath).next
    ensures filepath !in m.assets && LoadAsset(m, t, filepath).out.None? ==> r.out == None
    ensures filepath in r.next.assets ==> r.out == AnyCast(r.next.assets[filepath], t)
    ensures r.out.Some? ==> filepath in r.next.assets && r.next.assets[filepath] == Asset(t, r.out.value)
  {
    if filepath !in m.assets then
      var loaded := LoadAsset(m, t, filepath);
      if loaded.out.None? then Step(loaded.next, None)
      else Step(loaded.next, AnyCast(loaded.next.assets[filepath], t))
    else
      Step(m, AnyCast(m.assets[filepath], t))
  }

  /** `write_asset<T>`. Without a writer for `t`: one "no writer found" error.
      Otherwise the writer is called once, with the descriptor of `filepath`
      and an `any` holding a `const T*` to the value. The store never changes. */
  function WriteAsset<P>(m: ManagerState<P>, t: TypeId, filepath: string, value: P): (r: ManagerState<P>)
    ensures SameTables(r, m)
    ensures t !in m.writers ==> r.log == m.log + Deliver(m.errCb, WriterNotFound, true)
    ensures t in m.writers ==>
      r.log == m.log + [WriterCalled(m.writers[t], MetaOf(filepath), Asset(ConstPointer(t), value))]
  {
    if t !in m.writers then InvokeError(m, WriterNotFound)
    else m.(log := m.log + [WriterCalled(m.writers[t], MetaOf(filepath), Asset(ConstPointer(t), value))])
  }

  /** `forget_asset`: removes the entry for `filepath` and nothing else; an
      absent path is a silent no-op. */
  function ForgetAsset<P>(m: ManagerState<P>, filepath: string): (r: ManagerState<P>)
    ensures filepath !in r.assets
    ensures r.assets.Keys == m.assets.Keys - {filepath}
    ensures forall p :: p in r.assets ==> r.assets[p] == m.assets[p]
    ensures filepath !in m.assets ==> r.assets == m.assets
    ensures r.loaders == m.loaders && r.writers == m.writers
    ensures r.errCb == m.errCb && r.infosCb == m.infosCb && r.log == m.log
  {
    m.(assets := m.assets - {filepath})
  }
}
