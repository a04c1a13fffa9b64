/** The demonstration program examples/basic_usage.cpp: the calls of its
    `main`, made on the class — a preload, a cache hit, a forget and reload,
    and a get that loads on first access. */
module BasicUsage {
  import opened Wrappers
  import opened Meta
  import opened Cache
  import opened Manager
  import Traces

  const StdString: TypeId := Named("std::string")

  /** The fixed text every string `my_custom_loader` builds begins with. */
  const Greeting: string := "Test std::string!"

  /** `my_custom_loader`: always succeeds, with a string built from the file name. */
  function CustomLoader(meta: AssetMeta): (r: Option<Asset<string>>)
    ensures r.Some? && r.value.tag == StdString
    ensures |r.value.payload| == |Greeting| + |meta.filename|
    ensures r.value.payload[..|Greeting|] == Greeting && r.value.payload[|Greeting|..] == meta.filename
  {
    Some(Asset(StdString, Greeting + meta.filename))
  }

  /** The value `my_custom_loader` gives a path. */
  function Expected(path: string): (a: Asset<string>)
  {
    CustomLoader(MetaOf(path)).value
  }

  /** The first half of `main`: preload, cache hit, forget, reload. The hit
      changes nothing, and afterwards the path is stored again with two loader
      calls logged. */
  lemma DemoFirstPath(first: string)
    ensures
      var m1 := LoadAsset(SetLoader(Empty(), StdString, CustomLoader), StdString, first).next;
      var hit := GetAsset(m1, StdString, first);
      var reload := GetAsset(ForgetAsset(hit.next, first), StdString, first);
      var e1 := LoaderCalled(StdString, MetaOf(first), Some(Expected(first)));
      && hit == Step(m1, Some(Expected(first).payload))
      && reload == Step(ManagerState(map[StdString := CustomLoader], map[], map[first := Expected(first)],
                                None, None, [e1, e1]), Some(Expected(first).payload))
  {
    var m0 := SetLoader(Empty(), StdString, CustomLoader);
    assert m0 == ManagerState(map[StdString := CustomLoader], map[], map[], None, None, []);
    Traces.LoadSucceeds(m0, StdString, first);
    var m1 := LoadAsset(m0, StdString, first).next;
    var hit := GetAsset(m1, StdString, first);
    var forgotten := ForgetAsset(hit.next, first);
    assert forgotten.assets == map[];
    Traces.LoadSucceeds(forgotten, StdString, first);
  }

  /** `main` of the demonstration on the manager's state, for any two
      distinct paths in place of "aaa" and "bbb": the get right after the
      preload is a cache hit, both later gets return the custom loader's
      string for their path, and the loader runs twice on the first path
      (preload, reload after forget) and once on the second. */
  lemma DemoOutcome(first: string, second: string)
    requires first != second
    ensures
      var m1 := LoadAsset(SetLoader(Empty(), StdString, CustomLoader), StdString, first).next;
      var hit := GetAsset(m1, StdString, first);
      var reload := GetAsset(ForgetAsset(hit.next, first), StdString, first);
      var newer := GetAsset(reload.next, StdString, second);
      && hit == Step(m1, Some(Greeting + MetaOf(first).filename))
      && reload.out == Some(Greeting + MetaOf(first).filename)
      && newer.out == Some(Greeting + MetaOf(second).filename)
      && Traces.LoadsOf(newer.next.log, first) == 2
      && Traces.LoadsOf(newer.next.log, second) == 1
  {
    DemoFirstPath(first);
    var e1 := LoaderCalled(StdString, MetaOf(first), Some(Expected(first)));
    var e2 := LoaderCalled(StdString, MetaOf(second), Some(Expected(second)));
    var reloaded := ManagerState(map[StdString := CustomLoader], map[], map[first := Expected(first)],
                            None, None, [e1, e1]);
    Traces.LoadSucceeds(reloaded, StdString, second);
    assert GetAsset(reloaded, StdString, second).next.log == [e1, e1, e2];
    DemoLoadCounts(e1, e2);
  }

  /** Two loader calls on one path and then one on another. */
  lemma DemoLoadCounts(e1: Event<string>, e2: Event<string>)
    requires e1.LoaderCalled? && e2.LoaderCalled? && e1.meta.filepath != e2.meta.filepath
    ensures Traces.LoadsOf([e1, e1, e2], e1.meta.filepath) == 2
    ensures Traces.LoadsOf([e1, e1, e2], e2.meta.filepath) == 1
  {
    var first, second := e1.meta.filepath, e2.meta.filepath;
    assert [e1] == [] + [e1] && [e1, e1] == [e1] + [e1] && [e1, e1, e2] == [e1, e1] + [e2];
    Traces.LoadsOfAppend([], e1, first);
    Traces.LoadsOfAppend([], e1, second);
    Traces.LoadsOfAppend([e1], e1, first);
    Traces.LoadsOfAppend([e1], e1, second);
    Traces.LoadsOfAppend([e1, e1], e2, first);
    Traces.LoadsOfAppend([e1, e1], e2, second);
  }

  /** The calls of `main` of the demonstration, made on the class: returns what `data_aaa`
      and `data_bbb` point to at the end, and the log of the manager. */
  method Demo(first: string, second: string)
    returns (aaa: Option<string>, bbb: Option<string>, ghost log: seq<Event<string>>)
    requires first != second
    ensures aaa == Some(Greeting + MetaOf(first).filename)
    ensures bbb == Some(Greeting + MetaOf(second).filename)
    ensures Traces.LoadsOf(log, first) == 2 && Traces.LoadsOf(log, second) == 1
  {
    DemoOutcome(first, second);
    var am := new AssetManager<string>();
    am.SetLoader(StdString, CustomLoader);

    // preload
    var loaded := am.LoadAsset(StdString, first);

    // the asset is preloaded: no loader call
    aaa := am.GetAsset(StdString, first);

    // forget the asset and load it again
    am.ForgetAsset(first);
    aaa := am.GetAsset(StdString, first);

    // load an asset that was never preloaded
    bbb := am.GetAsset(StdString, second);
    log := am.log;
  }

  /** `main` with paths that, like its own "aaa" and "bbb", hold neither '/'
      nor '.': at the end `data_aaa` and `data_bbb` point to
      "Test std::string!" followed by the path itself, so "Test std::string!aaa"
      and "Test std::string!bbb" for the program's paths. */
  method DemoOnPlainPaths(first: string, second: string) returns (aaa: Option<string>, bbb: Option<string>)
    requires first != second
    requires forall i :: 0 <= i < |first| ==> first[i] != '/' && first[i] != '.'
    requires forall i :: 0 <= i < |second| ==> second[i] != '/' && second[i] != '.'
    ensures aaa == Some(Greeting + first) && bbb == Some(Greeting + second)
  {
    ghost var log;
    aaa, bbb, log := Demo(first, second);
    MetaOfPlainName(first);
    MetaOfPlainName(second);
  }
}
