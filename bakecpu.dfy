/**
 * BakeCPURenderEngine: reading the bake maps out of the configuration, and the
 * start/stop lifecycle that moves the PhotonGI cache between a render state
 * and the engine.
 */
module BakeCpu {

  import opened Wrappers
  import opened CTypes
  import opened Properties

  /** The object tag of the engine and of the render states it produces. */
  const BAKECPU_TAG: string := "BAKECPU"
  /** The object tag of the Sobol sampler, the default `sampler.type`. */
  const SOBOL_TAG: string := "SOBOL"
  const RTPATHCPU_SAMPLER: string := "RTPATHCPUSAMPLER"

  const DEFAULT_MAP_TYPE: string := "LIGHTMAP"
  const DEFAULT_FILE_NAME: string := "objectNameToBake"
  const DEFAULT_SIZE: uint32 := 512

  datatype BakeMapType = LIGHTMAP

  datatype BakeMapInfo = BakeMapInfo(
    mapType: BakeMapType,
    fileName: string,
    width: uint32,
    height: uint32,
    objectNames: seq<string>)

  datatype EngineError =
    | BakeMapSyntaxError(mapKey: string)
    | UnknownBakeMapType(mapType: string)
    | BadProperty(cause: PropertyError)
    | IncompatibleSampler
    | WrongEngineTag(expected: string, found: string)

  //----------------------------------------------------------------------------
  // Reading the bake maps
  //----------------------------------------------------------------------------

  /** The text of a property value, as `Get<string>(i)` gives it. */
  function ValueText(v: Value): string
  {
    match v
    case Text(s) => s
    case UInt(n) => Decimal.ToText(n as nat)
  }

  function Lift<T>(r: Result<T, PropertyError>): Result<T, EngineError>
  {
    match r
    case Success(v) => Success(v)
    case Failure(e) => Failure(BadProperty(e))
  }

  /** The descriptor one `bake.maps.<tag>` sub-name defines. */
  function ReadMapInfo(cfg: Properties, mapKey: string): (r: Result<BakeMapInfo, EngineError>)
  {
    var tag := ExtractField(mapKey, 2);
    if tag == "" then Failure(BakeMapSyntaxError(mapKey))
    else
      var prefix := "bake.maps." + tag;
      var mapType :- Lift(GetString(prefix + ".type", GetOr(cfg, prefix + ".type", [Text(DEFAULT_MAP_TYPE)]), 0));
      if mapType != DEFAULT_MAP_TYPE then Failure(UnknownBakeMapType(mapType))
      else
        var fileName :- Lift(GetString(prefix + ".filename", GetOr(cfg, prefix + ".filename", [Text(DEFAULT_FILE_NAME)]), 0));
        var width :- Lift(GetUInt(prefix + ".width", GetOr(cfg, prefix + ".width", [UInt(DEFAULT_SIZE)])));
        var height :- Lift(GetUInt(prefix + ".height", GetOr(cfg, prefix + ".height", [UInt(DEFAULT_SIZE)])));
        var names := GetOr(cfg, prefix + ".objectnames", [Text(DEFAULT_FILE_NAME)]);
        Success(BakeMapInfo(LIGHTMAP, fileName, width, height, seq(|names|, i requires 0 <= i < |names| => ValueText(names[i]))))
  }

  /** The descriptors of all sub-names, in order; the first failing sub-name's error otherwise. */
  function ReadMapInfos(cfg: Properties, mapKeys: seq<string>): Result<seq<BakeMapInfo>, EngineError>
  {
    if mapKeys == [] then Success([])
    else
      var infos :- ReadMapInfos(cfg, mapKeys[..|mapKeys| - 1]);
      var info :- ReadMapInfo(cfg, mapKeys[|mapKeys| - 1]);
      Success(infos + [info])
  }

  /** Reading succeeds exactly when every sub-name is read without error, and then gives one descriptor per sub-name, in order. */
  lemma {:induction false} ReadMapInfosSuccess(cfg: Properties, mapKeys: seq<string>)
    ensures ReadMapInfos(cfg, mapKeys).Success? <==> forall i :: 0 <= i < |mapKeys| ==> ReadMapInfo(cfg, mapKeys[i]).Success?
    ensures ReadMapInfos(cfg, mapKeys).Success? ==>
      var infos := ReadMapInfos(cfg, mapKeys).value;
      |infos| == |mapKeys| && forall i :: 0 <= i < |mapKeys| ==> infos[i] == ReadMapInfo(cfg, mapKeys[i]).value
  {
    if mapKeys != [] {
      var front := mapKeys[..|mapKeys| - 1];
      ReadMapInfosSuccess(cfg, front);
      assert forall i :: 0 <= i < |front| ==> front[i] == mapKeys[i];
    }
  }

  /** On failure, the error is that of the first sub-name that cannot be read. */
  lemma {:induction false} ReadMapInfosFirstError(cfg: Properties, mapKeys: seq<string>)
    requires ReadMapInfos(cfg, mapKeys).Failure?
    ensures exists i :: 0 <= i < |mapKeys| && ReadMapInfo(cfg, mapKeys[i]).Failure?
                && ReadMapInfos(cfg, mapKeys).error == ReadMapInfo(cfg, mapKeys[i]).error
                && forall j :: 0 <= j < i ==> ReadMapInfo(cfg, mapKeys[j]).Success?
  {
    var front := mapKeys[..|mapKeys| - 1];
    var n := |mapKeys| - 1;
    assert forall i :: 0 <= i < |front| ==> front[i] == mapKeys[i];
    if ReadMapInfos(cfg, front).Failure? {
      ReadMapInfosFirstError(cfg, front);
      var i :| 0 <= i < |front| && ReadMapInfo(cfg, front[i]).Failure?
        && ReadMapInfos(cfg, front).error == ReadMapInfo(cfg, front[i]).error
        && forall j :: 0 <= j < i ==> ReadMapInfo(cfg, front[j]).Success?;
      assert ReadMapInfo(cfg, mapKeys[i]).Failure?;
    } else {
      ReadMapInfosSuccess(cfg, front);
      assert ReadMapInfo(cfg, mapKeys[n]).Failure?;
    }
  }

  /** A sub-name whose third field is empty is a syntax error. */
  lemma EmptyTagIsSyntaxError(cfg: Properties, mapKey: string)
    requires ExtractField(mapKey, 2) == ""
    ensures ReadMapInfo(cfg, mapKey) == Failure(BakeMapSyntaxError(mapKey))
  {
  }

  /** A map with no properties of its own gets the defaults: a LIGHTMAP of 512x512 named and baking "objectNameToBake". */
  lemma {:induction false} MapDefaults(cfg: Properties, tag: string)
    requires tag != "" && '.' !in tag
    requires forall suffix :: suffix in [".type", ".filename", ".width", ".height", ".objectnames"] ==> "bake.maps." + tag + suffix !in cfg
    ensures ReadMapInfo(cfg, "bake.maps." + tag) ==
      Success(BakeMapInfo(LIGHTMAP, DEFAULT_FILE_NAME, DEFAULT_SIZE, DEFAULT_SIZE, [DEFAULT_FILE_NAME]))
  {
    FieldsOfThree("bake", "maps", tag);
    assert "bake.maps." + tag == "bake" + "." + "maps" + "." + tag;
    var prefix := "bake.maps." + tag;
    assert prefix + ".type" !in cfg && prefix + ".filename" !in cfg && prefix + ".width" !in cfg;
    assert prefix + ".height" !in cfg && prefix + ".objectnames" !in cfg;
    var names := [Text(DEFAULT_FILE_NAME)];
    assert seq(|names|, i requires 0 <= i < |names| => ValueText(names[i])) == [DEFAULT_FILE_NAME];
  }

  /** A `.type` of LIGHTMAP, or none at all, never gives the unknown-map-type error. */
  lemma {:induction false} MapTypeIsLightmap(cfg: Properties, tag: string)
    requires tag != "" && '.' !in tag
    requires var key := "bake.maps." + tag + ".type";
             key !in cfg || (|cfg[key]| > 0 && cfg[key][0] == Text(DEFAULT_MAP_TYPE))
    ensures var r := ReadMapInfo(cfg, "bake.maps." + tag);
            !(r.Failure? && r.error.UnknownBakeMapType?)
  {
    FieldsOfThree("bake", "maps", tag);
    assert "bake.maps." + tag == "bake" + "." + "maps" + "." + tag;
  }

  lemma {:induction false} UnknownMapTypeRejected(cfg: Properties, tag: string, mapType: string)
    requires tag != "" && '.' !in tag && mapType != DEFAULT_MAP_TYPE
    requires "bake.maps." + tag + ".type" in cfg
    requires var vs := cfg["bake.maps." + tag + ".type"]; |vs| > 0 && vs[0] == Text(mapType)
    ensures ReadMapInfo(cfg, "bake.maps." + tag) == Failure(UnknownBakeMapType(mapType))
  {
    FieldsOfThree("bake", "maps", tag);
    assert "bake.maps." + tag == "bake" + "." + "maps" + "." + tag;
  }

  /** The object names are the values of `.objectnames`, in index order. */
  lemma ObjectNamesInOrder(cfg: Properties, mapKey: string)
    requires ReadMapInfo(cfg, mapKey).Success?
    ensures var prefix := "bake.maps." + ExtractField(mapKey, 2);
      var names := GetOr(cfg, prefix + ".objectnames", [Text(DEFAULT_FILE_NAME)]);
      var info := ReadMapInfo(cfg, mapKey).value;
      |info.objectNames| == |names| &&
      forall i :: 0 <= i < |names| ==> Success(info.objectNames[i]) == GetString(prefix + ".objectnames", names, i)
  {
  }

  /** Once a prefix of the sub-names fails, reading all of them fails with the same error. */
  lemma {:induction false} ReadMapInfosPrefixFailure(cfg: Properties, mapKeys: seq<string>, k: nat)
    requires k <= |mapKeys| && ReadMapInfos(cfg, mapKeys[..k]).Failure?
    ensures ReadMapInfos(cfg, mapKeys) == ReadMapInfos(cfg, mapKeys[..k])
    decreases |mapKeys|
  {
    if k < |mapKeys| {
      var front := mapKeys[..|mapKeys| - 1];
      assert front[..k] == mapKeys[..k];
      ReadMapInfosPrefixFailure(cfg, front, k);
    } else {
      assert mapKeys[..k] == mapKeys;
    }
  }

  /** The body of the constructor's loop for one sub-name. */
  method ReadMapInfoFromConfig(cfg: Properties, mapKey: string) returns (r: Result<BakeMapInfo, EngineError>)
    ensures r == ReadMapInfo(cfg, mapKey)
  {
    var mapTagStr := ExtractField(mapKey, 2);
    if mapTagStr == "" {
      return Failure(BakeMapSyntaxError(mapKey));
    }
    var prefix := "bake.maps." + mapTagStr;
    var mapType :- Lift(GetString(prefix + ".type", GetOr(cfg, prefix + ".type", [Text(DEFAULT_MAP_TYPE)]), 0));
    if mapType != DEFAULT_MAP_TYPE {
      return Failure(UnknownBakeMapType(mapType));
    }
    var fileName :- Lift(GetString(prefix + ".filename", GetOr(cfg, prefix + ".filename", [Text(DEFAULT_FILE_NAME)]), 0));
    var width :- Lift(GetUInt(prefix + ".width", GetOr(cfg, prefix + ".width", [UInt(DEFAULT_SIZE)])));
    var height :- Lift(GetUInt(prefix + ".height", GetOr(cfg, prefix + ".height", [UInt(DEFAULT_SIZE)])));
    var objNamesProp := GetOr(cfg, prefix + ".objectnames", [Text(DEFAULT_FILE_NAME)]);
    var objectNames: seq<string> := [];
    for i := 0 to |objNamesProp|
      invariant objectNames == seq(i, j requires 0 <= j < i => ValueText(objNamesProp[j]))
    {
      // Get<string>(i) with i below GetSize() cannot fail
      objectNames := objectNames + [ValueText(objNamesProp[i])];
    }
    return Success(BakeMapInfo(LIGHTMAP, fileName, width, height, objectNames));
  }

  /** The constructor's loop over the sub-names returned by `GetAllUniqueSubNames("bake.maps")`. */
  method ReadBakeMaps(cfg: Properties, mapKeys: seq<string>) returns (r: Result<seq<BakeMapInfo>, EngineError>)
    ensures r == ReadMapInfos(cfg, mapKeys)
  {
    var mapInfos: seq<BakeMapInfo> := [];
    var k := 0;
    while k < |mapKeys|
      invariant 0 <= k <= |mapKeys|
      invariant ReadMapInfos(cfg, mapKeys[..k]) == Success(mapInfos)
    {
      assert mapKeys[..k + 1][..k] == mapKeys[..k];
      var mapKey := mapKeys[k];
      if ReadMapInfo(cfg, mapKey).Failure? {
        ReadMapInfosPrefixFailure(cfg, mapKeys, k + 1);
      }
      var info :- ReadMapInfoFromConfig(cfg, mapKey);
      mapInfos := mapInfos + [info];
      k := k + 1;
    }
    assert mapKeys[..k] == mapKeys;
    return Success(mapInfos);
  }
}

/**
 * The engine's objects: the PhotonGI cache, the render state that can carry it
 * from one run to the next, and the engine itself.  A C++ `delete` is modelled
 * as clearing the object's `live` flag; the calls into collaborators whose
 * internals are not part of this model are recorded, in order, in `calls`.
 */
module BakeCpuEngine {

  import opened Wrappers
  import opened CTypes
  import opened Properties
  import opened BakeCpu

  /** The scene a cache is attached to, identified opaquely. */
  type SceneId = nat

  /** The collaborator calls whose effect is not otherwise visible in the model. */
  datatype Call =
    | SetCacheScene            // photonGICache->SetScene(scene)
    | CacheFromProperties      // PhotonGICache::FromProperties(scene, cfg)
    | CachePreprocess(threads: nat)
    | DeleteRenderState
    | ParsePathTracerOptions
    | InitPixelFilterDistribution
    | StartBase                // CPUNoTileRenderEngine::StartLockLess()
    | StopBase                 // CPUNoTileRenderEngine::StopLockLess()
    | DeletePixelFilterDistribution
    | DeleteCache

  class PhotonGICache {
    /** The scene back-reference; it is not saved by serialisation. */
    var scene: Option<SceneId>
    /** The thread count given to Preprocess, once it has run. */
    var preprocessedWith: Option<nat>
    var live: bool

    /** `PhotonGICache::FromProperties` when the cache is enabled. */
    constructor FromProperties(s: SceneId)
      ensures scene == Some(s) && preprocessedWith == None && live
    {
      scene := Some(s);
      preprocessedWith := None;
      live := true;
    }
  }

  class BakeCPURenderState {
    const engineTag: string
    var bootStrapSeed: uint32
    var photonGICache: PhotonGICache?
    var live: bool

    constructor (tag: string, seed: uint32, cache: PhotonGICache?)
      ensures engineTag == tag && bootStrapSeed == seed && photonGICache == cache && live
    {
      engineTag := tag;
      bootStrapSeed := seed;
      photonGICache := cache;
      live := true;
    }
  }

  /** The `sampler.type` the engine is configured with (Sobol when undefined). */
  function SamplerType(cfg: Properties): Result<string, PropertyError>
  {
    GetString("sampler.type", GetOr(cfg, "sampler.type", [Text(SOBOL_TAG)]), 0)
  }

  /** The errors StartLockLess raises, in the order it checks for them. */
  function StartError(cfg: Properties, state: Option<string>): (r: Option<EngineError>)
    ensures SamplerType(cfg) == Success(RTPATHCPU_SAMPLER) ==> r == Some(IncompatibleSampler)
    ensures SamplerType(cfg).Success? && SamplerType(cfg).value != RTPATHCPU_SAMPLER ==>
              (r.Some? <==> state.Some? && state.value != BAKECPU_TAG)
    ensures r.Some? && r.value.WrongEngineTag? ==> SamplerType(cfg).Success? && SamplerType(cfg).value != RTPATHCPU_SAMPLER
  {
    match SamplerType(cfg)
    case Failure(e) => Some(BadProperty(e))
    case Success(t) =>
      if t == RTPATHCPU_SAMPLER then Some(IncompatibleSampler)
      else if state.Some? && state.value != BAKECPU_TAG then Some(WrongEngineTag(BAKECPU_TAG, state.value))
      else None
  }

  /** The calls of the restore step: SetScene only on a restored cache, then the state's deletion. */
  function RestoreCalls(restored: bool, restoredCache: bool): seq<Call>
  {
    if !restored then [] else (if restoredCache then [SetCacheScene] else []) + [DeleteRenderState]
  }

  /** The calls of the allocation step: none when a cache is held; Preprocess only on a built cache. */
  function AllocateCalls(held: bool, built: bool, threads: nat): seq<Call>
  {
    if held then [] else [CacheFromProperties] + (if built then [CachePreprocess(threads)] else [])
  }

  lemma TraceAppend(before: seq<Call>, a: seq<Call>, b: seq<Call>, c: seq<Call>)
    ensures ((before + a) + b) + c == before + (a + b + c)
  {
  }

  /** The calls a successful StartLockLess makes, in order. */
  function StartCalls(restored: bool, restoredCache: bool, held: bool, built: bool, threads: nat): (r: seq<Call>)
    ensures CachePreprocess(threads) in r <==> !held && built
    ensures (SetCacheScene in r) <==> restored && restoredCache
    ensures |r| >= 3 && r[|r| - 1] == StartBase
  {
    RestoreCalls(restored, restoredCache) + AllocateCalls(held, built, threads)
    + [ParsePathTracerOptions, InitPixelFilterDistribution, StartBase]
  }

  class BakeCPURenderEngine {
    const cfg: Properties
    const mapInfos: seq<BakeMapInfo>
    const scene: SceneId
    /** renderThreads.size() */
    const threadCount: nat

    var bootStrapSeed: uint32
    var photonGICache: PhotonGICache?
    var startRenderState: BakeCPURenderState?
    /** The cache the path tracer was given by SetPhotonGICache. */
    var pathTracerCache: PhotonGICache?
    var hasPixelFilterDistribution: bool
    var calls: seq<Call>

    constructor FromInfos(cfg: Properties, mapInfos: seq<BakeMapInfo>, scene: SceneId, threadCount: nat, seed: uint32)
      ensures this.cfg == cfg && this.mapInfos == mapInfos && this.scene == scene && this.threadCount == threadCount
      ensures bootStrapSeed == seed && photonGICache == null && startRenderState == null
      ensures pathTracerCache == null && !hasPixelFilterDistribution && calls == []
    {
      this.cfg := cfg;
      this.mapInfos := mapInfos;
      this.scene := scene;
      this.threadCount := threadCount;
      bootStrapSeed := seed;
      photonGICache := null;
      startRenderState := null;
      pathTracerCache := null;
      hasPixelFilterDistribution := false;
      calls := [];
    }

    /**
     * `new BakeCPURenderEngine(rcfg)`: reads the bake maps named by `mapKeys`
     * (the result of `GetAllUniqueSubNames("bake.maps")`), or throws.
     */
    static method New(cfg: Properties, mapKeys: seq<string>, scene: SceneId, threadCount: nat, seed: uint32)
      returns (r: Result<BakeCPURenderEngine, EngineError>)
      ensures ReadMapInfos(cfg, mapKeys).Failure? ==> r == Failure(ReadMapInfos(cfg, mapKeys).error)
      ensures ReadMapInfos(cfg, mapKeys).Success? ==>
                r.Success? && fresh(r.value) && r.value.mapInfos == ReadMapInfos(cfg, mapKeys).value
                && r.value.cfg == cfg && r.value.scene == scene && r.value.threadCount == threadCount
                && r.value.bootStrapSeed == seed && r.value.photonGICache == null && r.value.startRenderState == null
                && r.value.pathTracerCache == null && !r.value.hasPixelFilterDistribution && r.value.calls == []
    {
      var infos := ReadBakeMaps(cfg, mapKeys);
      if infos.Failure? {
        return Failure(infos.error);
      }
      var e := new BakeCPURenderEngine.FromInfos(cfg, infos.value, scene, threadCount, seed);
      return Success(e);
    }

    /** The objects StartLockLess may change: the pending render state and the cache it carries. */
    ghost function StartFrame(): set<object>
      reads this, startRenderState
    {
      if startRenderState == null then {}
      else {startRenderState} + (if startRenderState.photonGICache == null then {} else {startRenderState.photonGICache})
    }

    /** `~BakeCPURenderEngine()`: deletes whatever cache is still held. */
    method Destroy()
      modifies photonGICache
      ensures photonGICache != null ==> !photonGICache.live
    {
      if photonGICache != null {
        photonGICache.live := false;
      }
    }

    /** A new render state with the current seed and the current cache; the engine keeps referring to that cache too. */
    method GetRenderState() returns (rs: BakeCPURenderState)
      ensures fresh(rs) && rs.live
      ensures rs.engineTag == BAKECPU_TAG && rs.bootStrapSeed == bootStrapSeed && rs.photonGICache == photonGICache
    {
      rs := new BakeCPURenderState(BAKECPU_TAG, bootStrapSeed, photonGICache);
    }

    /** The restore step of StartLockLess, once the engine tag has been checked. */
    method RestoreRenderState()
      requires startRenderState != null
      modifies this, StartFrame()
      ensures startRenderState == null
      ensures bootStrapSeed == Inc32(old(startRenderState.bootStrapSeed))
      ensures photonGICache == old(startRenderState.photonGICache)
      ensures old(startRenderState).photonGICache == null && !old(startRenderState).live
      ensures var c := old(startRenderState.photonGICache);
              c != null ==> c.scene == Some(scene) && c.preprocessedWith == old(c.preprocessedWith) && c.live == old(c.live)
      ensures calls == old(calls) + (if old(startRenderState.photonGICache) != null then [SetCacheScene] else []) + [DeleteRenderState]
      ensures pathTracerCache == old(pathTracerCache) && hasPixelFilterDistribution == old(hasPixelFilterDistribution)
    {
      var rs := startRenderState;
      // a new seed to continue the rendering
      bootStrapSeed := Inc32(rs.bootStrapSeed);
      // the cache moves from the state to the engine
      photonGICache := rs.photonGICache;
      rs.photonGICache := null;
      // the scene is not saved by serialisation
      if photonGICache != null {
        photonGICache.scene := Some(scene);
        calls := calls + [SetCacheScene];
      }
      rs.live := false;
      calls := calls + [DeleteRenderState];
      startRenderState := null;
    }

    /** The allocation step of StartLockLess: a new cache, preprocessed, only when none is held. */
    method AllocateCacheIfNone(cacheEnabled: bool)
      modifies this
      ensures old(photonGICache) != null ==> photonGICache == old(photonGICache) && calls == old(calls)
      ensures old(photonGICache) == null ==>
                (photonGICache != null <==> cacheEnabled)
                && calls == old(calls) + [CacheFromProperties] + (if cacheEnabled then [CachePreprocess(threadCount)] else [])
      ensures old(photonGICache) == null && photonGICache != null ==>
                fresh(photonGICache) && photonGICache.live
                && photonGICache.scene == Some(scene) && photonGICache.preprocessedWith == Some(threadCount)
      ensures bootStrapSeed == old(bootStrapSeed) && startRenderState == old(startRenderState)
      ensures pathTracerCache == old(pathTracerCache) && hasPixelFilterDistribution == old(hasPixelFilterDistribution)
    {
      if photonGICache == null {
        calls := calls + [CacheFromProperties];
        // FromProperties gives nullptr when the cache is disabled
        if cacheEnabled {
          var cache := new PhotonGICache.FromProperties(scene);
          cache.preprocessedWith := Some(threadCount);
          calls := calls + [CachePreprocess(threadCount)];
          photonGICache := cache;
        }
      }
    }

    /** StartLockLess after its checks passed: restore, allocate, set up the path tracer, start the threads. */
    method StartChecked(cacheEnabled: bool)
      requires startRenderState != null ==> startRenderState.engineTag == BAKECPU_TAG
      modifies this, StartFrame()
      ensures startRenderState == null
      // restoring the render state
      ensures old(startRenderState) != null ==>
                bootStrapSeed == Inc32(old(startRenderState.bootStrapSeed))
                && old(startRenderState).photonGICache == null && !old(startRenderState).live
      ensures old(startRenderState) == null ==> bootStrapSeed == old(bootStrapSeed)
      ensures old(startRenderState) != null && old(startRenderState.photonGICache) != null ==>
                var c := old(startRenderState.photonGICache);
                photonGICache == c && c.scene == Some(scene) && c.preprocessedWith == old(c.preprocessedWith) && c.live == old(c.live)
      // a cache held before the start is kept and not preprocessed again
      ensures old(startRenderState) == null && old(photonGICache) != null ==> photonGICache == old(photonGICache)
      // otherwise a cache is built, and preprocessed, exactly when the cache is enabled
      ensures var held := if old(startRenderState) != null then old(startRenderState.photonGICache) else old(photonGICache);
              held == null ==>
                (photonGICache != null <==> cacheEnabled)
                && (photonGICache != null ==> (fresh(photonGICache) && photonGICache.live
                      && photonGICache.scene == Some(scene) && photonGICache.preprocessedWith == Some(threadCount)))
      // the per-run parameters
      ensures pathTracerCache == photonGICache && hasPixelFilterDistribution
      ensures var restored := old(startRenderState) != null;
              var held := if restored then old(startRenderState.photonGICache) else old(photonGICache);
              calls == old(calls) + StartCalls(restored, restored && held != null, held != null, cacheEnabled, threadCount)
    {
      ghost var restored := startRenderState != null;
      ghost var held := if restored then startRenderState.photonGICache else photonGICache;
      // Restore the render state if there is one
      if startRenderState != null {
        RestoreRenderState();
      }
      ghost var afterRestore := calls;
      assert afterRestore == old(calls) + RestoreCalls(restored, restored && held != null);

      // Allocate the cache if none was restored
      AllocateCacheIfNone(cacheEnabled);
      ghost var afterAllocate := calls;
      assert afterAllocate == afterRestore + AllocateCalls(held != null, cacheEnabled, threadCount);

      calls := calls + [ParsePathTracerOptions, InitPixelFilterDistribution];
      hasPixelFilterDistribution := true;
      pathTracerCache := photonGICache;
      calls := calls + [StartBase];
      assert calls == afterAllocate + [ParsePathTracerOptions, InitPixelFilterDistribution, StartBase];
      TraceAppend(old(calls), RestoreCalls(restored, restored && held != null),
                  AllocateCalls(held != null, cacheEnabled, threadCount),
                  [ParsePathTracerOptions, InitPixelFilterDistribution, StartBase]);
    }

    method StartLockLess(cacheEnabled: bool) returns (r: Outcome<EngineError>)
      modifies this, StartFrame()
      // the checks, in order, and nothing changes when one fails
      ensures var tag := if old(startRenderState) == null then None else Some(old(startRenderState).engineTag);
              r.Fail? <==> StartError(cfg, tag).Some?
      ensures var tag := if old(startRenderState) == null then None else Some(old(startRenderState).engineTag);
              r.Fail? ==> r.error == StartError(cfg, tag).value
      ensures r.Fail? ==> (bootStrapSeed == old(bootStrapSeed) && photonGICache == old(photonGICache)
                          && startRenderState == old(startRenderState) && pathTracerCache == old(pathTracerCache)
                          && hasPixelFilterDistribution == old(hasPixelFilterDistribution) && calls == old(calls))
      ensures r.Fail? ==> forall o :: o in old(StartFrame()) ==> unchanged(o)
      // restoring the render state
      ensures r.Pass? ==> startRenderState == null
      ensures r.Pass? && old(startRenderState) != null ==>
                bootStrapSeed == Inc32(old(startRenderState.bootStrapSeed))
                && old(startRenderState).photonGICache == null && !old(startRenderState).live
      ensures r.Pass? && old(startRenderState) == null ==> bootStrapSeed == old(bootStrapSeed)
      ensures r.Pass? && old(startRenderState) != null && old(startRenderState.photonGICache) != null ==>
                var c := old(startRenderState.photonGICache);
                photonGICache == c && c.scene == Some(scene) && c.preprocessedWith == old(c.preprocessedWith) && c.live == old(c.live)
      // a cache held before the start is kept and not preprocessed again
      ensures r.Pass? && old(startRenderState) == null && old(photonGICache) != null ==> photonGICache == old(photonGICache)
      // otherwise a cache is built, and preprocessed, exactly when the cache is enabled
      ensures var held := if old(startRenderState) != null then old(startRenderState.photonGICache) else old(photonGICache);
              r.Pass? && held == null ==>
                (photonGICache != null <==> cacheEnabled)
                && (photonGICache != null ==> (fresh(photonGICache) && photonGICache.live
                      && photonGICache.scene == Some(scene) && photonGICache.preprocessedWith == Some(threadCount)))
      // the per-run parameters
      ensures r.Pass? ==> pathTracerCache == photonGICache && hasPixelFilterDistribution
      ensures var restored := old(startRenderState) != null;
              var held := if restored then old(startRenderState.photonGICache) else old(photonGICache);
              r.Pass? ==> calls == old(calls) + StartCalls(restored, restored && held != null, held != null, cacheEnabled, threadCount)
    {
      // The sampler settings
      var samplerType := SamplerType(cfg);
      if samplerType.Failure? {
        return Fail(BadProperty(samplerType.error));
      }
      if samplerType.value == RTPATHCPU_SAMPLER {
        return Fail(IncompatibleSampler);
      }
      // The render state must be of the right type
      if startRenderState != null && startRenderState.engineTag != BAKECPU_TAG {
        return Fail(WrongEngineTag(BAKECPU_TAG, startRenderState.engineTag));
      }
      StartChecked(cacheEnabled);
      return Pass;
    }

    method StopLockLess()
      modifies this, photonGICache
      ensures calls == old(calls) + [StopBase, DeletePixelFilterDistribution] + (if old(photonGICache) != null then [DeleteCache] else [])
      ensures !hasPixelFilterDistribution && photonGICache == null
      ensures old(photonGICache) != null ==> !old(photonGICache).live
      ensures bootStrapSeed == old(bootStrapSeed) && startRenderState == old(startRenderState) && pathTracerCache == old(pathTracerCache)
    {
      calls := calls + [StopBase];
      hasPixelFilterDistribution := false;
      calls := calls + [DeletePixelFilterDistribution];
      if photonGICache != null {
        photonGICache.live := false;
        calls := calls + [DeleteCache];
      }
      photonGICache := null;
    }
  }

  /**
   * Capture on one engine and resume on another: the state is handed to the
   * target as its start render state.  The seed goes up by one and the target
   * takes the cache, which the source engine still refers to as well:
   * GetRenderState aliases the cache rather than moving it.
   */
  method CaptureAndResume(source: BakeCPURenderEngine, target: BakeCPURenderEngine, cacheEnabled: bool)
    returns (r: Outcome<EngineError>)
    requires source != target
    modifies target, source.photonGICache
    ensures r.Fail? <==> StartError(target.cfg, Some(BAKECPU_TAG)).Some?
    ensures r.Pass? ==> target.bootStrapSeed == Inc32(source.bootStrapSeed) && target.startRenderState == null
    ensures r.Pass? && old(source.photonGICache) != null ==>
              target.photonGICache == source.photonGICache && source.photonGICache == old(source.photonGICache)
              && target.photonGICache.scene == Some(target.scene)
              && target.photonGICache.preprocessedWith == old(source.photonGICache.preprocessedWith)
  {
    var rs := source.GetRenderState();
    target.startRenderState := rs;
    r := target.StartLockLess(cacheEnabled);
  }

  /** StopLockLess deletes the cache, so a render state captured after it carries none. */
  method StopAndCapture(e: BakeCPURenderEngine) returns (rs: BakeCPURenderState)
    modifies e, e.photonGICache
    ensures fresh(rs) && rs.photonGICache == null && rs.bootStrapSeed == old(e.bootStrapSeed)
    ensures old(e.photonGICache) != null ==> !old(e.photonGICache).live
  {
    e.StopLockLess();
    rs := e.GetRenderState();
  }

  /** A render state captured before StopLockLess points at a cache that the stop then deletes. */
  method CaptureAndStop(e: BakeCPURenderEngine) returns (rs: BakeCPURenderState)
    modifies e, e.photonGICache
    ensures fresh(rs) && rs.photonGICache == old(e.photonGICache)
    ensures rs.photonGICache != null ==> !rs.photonGICache.live
  {
    rs := e.GetRenderState();
    e.StopLockLess();
  }
}
