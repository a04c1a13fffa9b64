/** The class `asset_manager` of include/asset_manager.hpp, with its five
    fields updated in place. Calls out to loaders, writers and sinks are
    recorded in the ghost `log`; every method is proved to do what the
    corresponding function of `Cache` says. */
module Manager {
  import opened Wrappers
  import opened Meta
  import opened Cache

  class AssetManager<P> {
    var loaders: map<TypeId, Loader<P>>
    var writers: map<TypeId, HostFn>
    var assets: map<string, Asset<P>>
    var errCb: Option<HostFn>
    var infosCb: Option<HostFn>
    ghost var log: seq<Event<P>>

    /** The abstract value of this manager. */
    ghost function State(): ManagerState<P>
      reads this
    {
      ManagerState(loaders, writers, assets, errCb, infosCb, log)
    }

    constructor ()
      ensures State() == Empty()
    {
      loaders, writers, assets := map[], map[], map[];
      errCb, infosCb := None, None;
      log := [];
    }

    method SetErrorCallbackFn(fn: Option<HostFn>)
      modifies this
      ensures State() == SetErrorCallback(old(State()), fn)
    {
      errCb := fn;
    }

    method SetInfosCallbackFn(fn: Option<HostFn>)
      modifies this
      ensures State() == SetInfosCallback(old(State()), fn)
    {
      infosCb := fn;
    }

    method InvokeErrorCb(message: string)
      modifies this
      ensures State() == InvokeError(old(State()), message)
    {
      if errCb.Some? {
        log := log + [ErrorReported(errCb.value, message)];
      }
    }

    method InvokeInfosCb(message: string)
      modifies this
      ensures State() == InvokeInfos(old(State()), message)
    {
      if infosCb.Some? {
        log := log + [InfoReported(infosCb.value, message)];
      }
    }

    method SetLoader(t: TypeId, fn: Loader<P>)
      modifies this
      ensures State() == Cache.SetLoader(old(State()), t, fn)
    {
      loaders := loaders[t := fn];
    }

    method SetWriter(t: TypeId, fn: HostFn)
      modifies this
      ensures State() == Cache.SetWriter(old(State()), t, fn)
    {
      writers := writers[t := fn];
    }

    /** Returns the stored asset (the C++ returns a reference to it). */
    method LoadAsset(t: TypeId, filepath: string) returns (r: Option<Asset<P>>)
      modifies this
      ensures Step(State(), r) == Cache.LoadAsset(old(State()), t, filepath)
      ensures r.Some? ==> filepath in assets && assets[filepath] == r.value
    {
      if t !in loaders {
        InvokeErrorCb(LoaderNotFound);
        return None;
      }

      var meta := MetaOf(filepath);
      var result := loaders[t](meta);
      log := log + [LoaderCalled(t, meta, result)];

      if result.None? {
        InvokeErrorCb(LoadFailedMessage(t, meta.filepath));
        return None;
      }

      // the asset is being reloaded: the old entry is replaced
      if filepath in assets {
        assets := assets - {filepath};
      }
      assets := assets[filepath := result.value];
      r := Some(assets[filepath]);
    }

    /** Returns the payload when it is stored with type `t`, None for the C++ nullptr. */
    method GetAsset(t: TypeId, filepath: string) returns (r: Option<P>)
      modifies this
      ensures Step(State(), r) == Cache.GetAsset(old(State()), t, filepath)
    {
      if filepath !in assets {
        var result := LoadAsset(t, filepath);
        if result.None? {
          return None;
        }
      }
      var a := assets[filepath];
      r := if a.tag == t then Some(a.payload) else None;
    }

    method WriteAsset(t: TypeId, filepath: string, asset: P)
      modifies this
      ensures State() == Cache.WriteAsset(old(State()), t, filepath, asset)
    {
      if t !in writers {
        InvokeErrorCb(WriterNotFound);
        return;
      }
      log := log + [WriterCalled(writers[t], MetaOf(filepath), Asset(ConstPointer(t), asset))];
    }

    method ForgetAsset(filepath: string)
      modifies this
      ensures State() == Cache.ForgetAsset(old(State()), filepath)
    {
      assets := assets - {filepath};
    }
  }
}
