# asset_manager — a verified model of a type-keyed asset cache

The library is one C++ class, `asset_manager`. A host registers, per declared
type `T`, a loader that turns a path descriptor (`asset_meta`: path, file name,
extension) into a boxed value (`std::unique_ptr<std::any>`, null on failure),
and optionally a writer. Values are then fetched by file path: `get_asset<T>`
answers from the path-keyed store when the path is there, and otherwise loads
the file once through `load_asset<T>`. `forget_asset` evicts one path;
`write_asset<T>` hands a value to the writer and never touches the store. A
missing loader, a failed load and a missing writer are reported through an
optional error callback and then give an empty result. A stored value whose
type is not `T` makes `get_asset<T>` return null without any report. The
manager itself throws nothing.

The model has these parts:

- `wrappers.dfy` (`Wrappers`): the `Option` type. It stands for `std::optional`, a
  null `unique_ptr` and a null `T*`.
- `meta.dfy` (`Meta`): the path descriptor and its construction from a path.
- `cache.dfy` (`Cache`): the manager's state as a value, `ManagerState`. It holds the
  loader table, the writer table, the asset store and the two callbacks. It also
  holds an ordered log of what the manager did to the outside world: loader
  calls, writer calls and messages delivered to a sink. Each public operation is
  one function on `ManagerState`. Its `ensures` state what the source promises: the
  error cases, what is stored, and what is left unchanged.
- `asset_manager.dfy` (`Manager`): class `AssetManager`. It has the C++ fields,
  updated in place, and the log as a ghost field. Each method is proved to
  produce exactly the state, and return exactly the value, that the
  corresponding `Cache` function gives.
- `traces.dfy` (`Traces`): arbitrary sequences of calls, with the properties
  that hold across them. Every stored value is the one that the latest
  successful loader call on its path produced. An entry changes only through a
  load, get or forget of its own path. Repeated gets of a path whose
  load succeeded make one loader call; a failed load is never stored, so it is
  retried, and reported again, on every get.
  A forget followed by a get reloads. The last registered loader wins.
- `basic_usage.dfy` (`BasicUsage`): the calls of `main` in
  `examples/basic_usage.cpp`, made on the class.

Modelling choices:

- A type identity (`std::type_index`) is a `TypeId`. It is either a named type
  or `ConstPointer(T)`. `write_asset<T>` passes the writer
  `std::make_any(&asset)` without a template argument, which does not compile
  as written (see "Left out"). The model reads it as `std::any(&asset)`, so the
  `any` the writer receives holds a `const T*`, not a `T`.
- A stored `std::any` is an `Asset(tag, payload)`. The tag is whatever type the
  loader boxed, which need not be the `T` it was registered under. `get_asset<T>`
  ends in the pointer form of `any_cast<T>`, so it returns null when the stored
  tag is not `T`. That happens even right after a load that succeeded and was
  stored.
- A loader is a Dafny function value `AssetMeta -> Option<Asset<P>>`. `None`
  stands for the null result.
- Writers and callbacks are host functions whose effects lie outside the
  manager. Each is an identity (`HostFn`). Calling one appends an event to the
  log. An empty `std::function` callback is `None`.
- The class has no extension-association table and no untyped,
  extension-driven load; every load goes through the loader registered for a
  declared type.
- The missing-loader message is exactly "loader not found", without the type.
- A cache hit is cast to `T` like a fresh load, and is null when the stored
  value's type is not `T`.

## Model

| member | source | states |
|---|---|---|
| `Meta.LastIndexOf` | include/asset_meta.hpp:17-18 | the index found holds the character sought and no later position does; -1 when there is none |
| `Meta.FileName` | include/asset_meta.hpp:17 | the file name is never longer than the path |
| `Meta.FileNameIsLastSegment` | include/asset_meta.hpp:17 | the file name is the suffix of the path after its last '/': it holds no '/', and it is the whole path or is preceded by a '/' |
| `Meta.ExtensionStart` | include/asset_meta.hpp:18 | the extension starts at a dot that is not the first character of the name, and no dot follows it; it is empty exactly when the name is "." or "..", or has no dot after its first character |
| `Meta.MetaOf` | include/asset_meta.hpp:12-19 | the descriptor keeps the path exactly as given |
| `Meta.MetaOfSplitsFileName` | include/asset_meta.hpp:17-18 | file name followed by extension is the final path segment, which holds no '/'; the extension is empty or one leading dot followed by no further dot; it is not empty when the segment has a dot after its first character and is neither "." nor ".." |
| `Meta.MetaOfPlainName` | include/asset_meta.hpp:17-18 | a name without '/' or '.' is its own file name and has an empty extension |
| `Cache.TypeName` | include/asset_manager.hpp:147 | a stand-in for `typeid(T).name()`, whose text is implementation-defined; its rules are this model's own, not the compiler's: a named type gives its own name, and the name of a `const T*` ends in " const*" |
| `Cache.LoadFailedMessage` | include/asset_manager.hpp:146-147 | the failed-load message is fixed text around the type name and the path, so its length is 40 plus theirs |
| `Cache.LoadFailedMessageNames` | include/asset_manager.hpp:146-147 | the failed-load message names the declared type right after its opening text and the file path just before its closing quote |
| `Cache.Empty` | include/asset_manager.hpp:36 | a new manager has no loaders, writers, assets or callbacks, and has done nothing |
| `Cache.Deliver` | include/asset_manager.hpp:99-113 | an unset sink receives nothing; a set sink receives exactly one message, as an error or as information |
| `Cache.SetErrorCallback` | include/asset_manager.hpp:89-92 | the error sink becomes the given one; everything else is unchanged |
| `Cache.SetInfosCallback` | include/asset_manager.hpp:94-97 | the information sink becomes the given one; everything else is unchanged |
| `Cache.InvokeError` | include/asset_manager.hpp:99-105 | the message is delivered to the error sink exactly when one is set; no table changes |
| `Cache.InvokeInfos` | include/asset_manager.hpp:107-113 | the message is delivered to the information sink exactly when one is set; no table changes |
| `Cache.SetLoader` | include/asset_manager.hpp:115-120 | the given loader becomes T's loader, replacing any earlier one; other types' loaders, the writers, the store and the log are unchanged |
| `Cache.SetWriter` | include/asset_manager.hpp:122-127 | the given writer becomes T's writer, replacing any earlier one; other types' writers, the loaders, the store and the log are unchanged |
| `Cache.LoadAsset` | include/asset_manager.hpp:129-159 | no loader: one "loader not found" error, no loader call, empty result, store unchanged; otherwise exactly one loader call on the path's descriptor; a null result gives one error naming type and path, an empty result and an unchanged store; success stores the result under the path, replacing any old entry, leaves every other entry alone, and returns the stored value; tables and callbacks never change |
| `Cache.Store` | include/asset_manager.hpp:151-158 | after erasing any old entry and inserting, the path holds the new value, the key set gains at most that path, and every other entry is unchanged |
| `Cache.AnyCast` | include/asset_manager.hpp:177 | the payload comes back exactly when the held type is the requested one |
| `Cache.GetAsset` | include/asset_manager.hpp:161-178 | a stored path is a pure hit: state unchanged (no loader call, no message), result is the stored value cast to T; an absent path goes through load_asset once, with null on failure; a non-null result is stored under the path with type T |
| `Cache.WriteAsset` | include/asset_manager.hpp:180-191 | no writer: one "no writer found" error; otherwise exactly one call of T's writer with the path's descriptor and a `const T*` to the value; the store and the tables never change |
| `Cache.ForgetAsset` | include/asset_manager.hpp:193-196 | exactly the path's key is removed, all other entries keep their values, an absent path changes nothing, and nothing is reported |
| `Manager.AssetManager.constructor` | include/asset_manager.hpp:36 | the new object's state is the empty manager |
| `Manager.AssetManager.SetErrorCallbackFn` | include/asset_manager.hpp:89-92 | the new state is `Cache.SetErrorCallback` of the old |
| `Manager.AssetManager.SetInfosCallbackFn` | include/asset_manager.hpp:94-97 | the new state is `Cache.SetInfosCallback` of the old |
| `Manager.AssetManager.InvokeErrorCb` | include/asset_manager.hpp:99-105 | the new state is `Cache.InvokeError` of the old |
| `Manager.AssetManager.InvokeInfosCb` | include/asset_manager.hpp:107-113 | the new state is `Cache.InvokeInfos` of the old |
| `Manager.AssetManager.SetLoader` | include/asset_manager.hpp:115-120 | the new state is `Cache.SetLoader` of the old |
| `Manager.AssetManager.SetWriter` | include/asset_manager.hpp:122-127 | the new state is `Cache.SetWriter` of the old |
| `Manager.AssetManager.LoadAsset` | include/asset_manager.hpp:129-159 | state and result are those of `Cache.LoadAsset`; a returned asset is the one now in the store under the path |
| `Manager.AssetManager.GetAsset` | include/asset_manager.hpp:161-178 | state and result are those of `Cache.GetAsset` |
| `Manager.AssetManager.WriteAsset` | include/asset_manager.hpp:180-191 | the new state is `Cache.WriteAsset` of the old |
| `Manager.AssetManager.ForgetAsset` | include/asset_manager.hpp:193-196 | the new state is `Cache.ForgetAsset` of the old |
| `Traces.ApplyExtendsLog` | include/asset_manager.hpp:89-196 | every public operation only appends to the log |
| `Traces.RunExtendsLog` | include/asset_manager.hpp:99-196 | over any sequence of calls the log only grows: no call undoes an invocation or a report |
| `Traces.LastLoadedSkips` | include/asset_manager.hpp:99-113 | events that are not successful loads of a path do not change which value was last loaded for it |
| `Traces.LastLoadedAfterLoad` | include/asset_manager.hpp:142-158 | a successful loader call on a path makes its result the latest load for that path and for no other |
| `Traces.LoadKeepsCoherent` | include/asset_manager.hpp:129-159 | load_asset keeps every stored value equal to the latest successful load of its path, on all three outcomes |
| `Traces.ApplyKeepsCoherent` | include/asset_manager.hpp:89-196 | every public operation keeps every stored value equal to the latest successful load of its path |
| `Traces.RunKeepsCoherent` | include/asset_manager.hpp:89-196 | any sequence of calls keeps every stored value equal to the latest successful load of its path |
| `Traces.StoreHoldsLatestLoad` | include/asset_manager.hpp:151-158 | from a new manager, after any calls, a stored value is always the value the latest successful loader call on that path returned; failed loads, writes and reports never place anything in the store |
| `Traces.RunIsolatesEntry` | include/asset_manager.hpp:115-196 | calls that do not load, get or forget a path leave that path's presence and value unchanged |
| `Traces.LoadSucceeds` | include/asset_manager.hpp:141-158 | a load whose loader succeeds logs exactly one loader call, stores the result under the path, changes nothing else and returns the result |
| `Traces.LoadsOfAppend` | include/asset_manager.hpp:142 | an appended event adds one loader call for a path exactly when it is a loader call on that path |
| `Traces.RepeatedGetsAreHits` | include/asset_manager.hpp:164-177 | once a path is stored, any number of gets of it leave the manager unchanged |
| `Traces.GetsLoadOnce` | include/asset_manager.hpp:161-178 | n >= 1 gets of an unstored path whose loader succeeds make exactly one loader call and store its result |
| `Traces.FailedLoadEvents` | include/asset_manager.hpp:142-148 | a failed load logs its loader call with a null result, followed by the failure report exactly when an error sink is set |
| `Traces.FailedGet` | include/asset_manager.hpp:161-178 | a get of an unstored path whose loader returns null returns null and changes only the log, by the failed load's events |
| `Traces.FailedGetThenRest` | include/asset_manager.hpp:161-178 | the first of n gets on such a path fails and the remaining n-1 run on the manager it leaves |
| `Traces.FailedLoadCountsOnce` | include/asset_manager.hpp:142-148 | the events of a failed load hold exactly one loader call on its path |
| `Traces.GetsRetryFailedLoad` | include/asset_manager.hpp:161-178 | a failed load is never cached: n gets of an unstored path whose loader returns null leave the store and tables as they were and log the failed load n times, report included |
| `Traces.LoadsOfConcat` | include/asset_manager.hpp:142 | loader calls on a path add up over concatenated logs |
| `Traces.LoadsOfTimes` | include/asset_manager.hpp:142 | a block of events holding one loader call on a path, repeated n times, holds n |
| `Traces.FailedLoadsCount` | include/asset_manager.hpp:142-148 | n failed loads of a path hold n loader calls on it |
| `Traces.GetsRetryEveryTime` | include/asset_manager.hpp:161-178 | each of n gets of an unstored path whose loader fails calls the loader again (n calls in all), and the path stays unstored |
| `Traces.ForgetThenGetReloads` | include/asset_manager.hpp:193-196 | a get after forgetting a path calls T's loader again, exactly once |
| `Traces.LoadsSkipsReports` | include/asset_manager.hpp:99-105 | error reports do not count as loader calls |
| `Traces.SetLoaderLastWins` | include/asset_manager.hpp:115-120 | registering f then g for T equals registering only g, so later loads of T behave as if f never existed |
| `Traces.SecondGetIsHit` | include/asset_manager.hpp:161-178 | a get repeated on a path that the first get left stored returns the same answer and changes nothing |
| `BasicUsage.CustomLoader` | examples/basic_usage.cpp:4-7 | `my_custom_loader` never fails; it boxes a `std::string` made of the text "Test std::string!" followed by the descriptor's file name |
| `BasicUsage.DemoFirstPath` | examples/basic_usage.cpp:15-26 | after set_loader and a preload, the get is a pure hit returning the loader's string; after forget, the get reloads it, leaving one entry and two logged loader calls |
| `BasicUsage.DemoOutcome` | examples/basic_usage.cpp:9-33 | on the manager's state, for any two distinct paths: the get after the preload changes nothing; both later gets return "Test std::string!" followed by their file name; the loader runs twice on the first path and once on the second |
| `BasicUsage.DemoOnPlainPaths` | examples/basic_usage.cpp:9-33 | for paths that, like "aaa" and "bbb", hold neither '/' nor '.', the calls end with "Test std::string!" followed by the path itself: "Test std::string!aaa" and "Test std::string!bbb" for the program's own paths |
| `BasicUsage.Demo` | examples/basic_usage.cpp:9-33 | the same calls, made on the class, return the same two strings, and the class's log shows the same loader calls |

## Left out

- Untyped, extension-driven loading and extension associations. The class has no such operation and no such table; it appears only as a commented-out plan (include/asset_manager.hpp:17, 65-66).
- Multithreading and the performance callbacks. Both exist only as planned work in comments (include/asset_manager.hpp:16-20).
- Manager.AssetManager.LoadAsset: returns the stored value, not a `std::reference_wrapper` to the store's `unique_ptr`. So the model does not capture that a later reload destroys the old `unique_ptr` and leaves earlier `T*` results dangling.
- Manager.AssetManager.GetAsset: returns the payload by value, not a `T*` into the store. Pointer identity and aliasing are not modelled.
- Exceptions. These are not modelled:
  - calling an empty `std::function` registered as a loader or writer (`std::bad_function_call`);
  - a loader or writer that throws.
  A loader is a pure, total, deterministic function of the descriptor.
- A loader that returns a non-null `unique_ptr` holding an empty `std::any` throws nothing: `load_asset` stores it, and `get_asset<T>` returns null because the held type is `void`. The model has no separate empty value; such a result is an `Asset` whose tag is no declared type, and `Cache.AnyCast` gives `None` for it.
- The effects of writers and callbacks (for example, writing to disk). They are outside the manager; only their invocations are recorded.
- Cache.WriteAsset: include/asset_manager.hpp:190 calls `std::make_any(&asset)` without a template argument, so `write_asset<T>` does not compile as written. The model adopts the `std::any(&asset)` reading, in which the writer receives a `const T*`.
- Cache.TypeName: the text of `typeid(T).name()` is implementation-defined. The model uses the type's own name, and the error message is built from it as in the source.
- Meta.MetaOf: `std::filesystem` path rules are simplified to '/' as the only separator. Root names, Windows separators and normalisation are not modelled. The special names "." and "..", and a leading dot, do follow the library's rule for extensions.
- examples/text_file_loader.cpp: reading a file through `std::ifstream` is I/O.
- The key order of `std::map` and `std::unordered_map`. No operation of the class depends on it.
