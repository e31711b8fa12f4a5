/** The engine create-info record of the engine factory: its default values and its lowering
    into the struct the native engine's C interface takes. */
module EngineCreateInfo {
  import opened NativeInts

  /** Adapter id meaning "let the engine choose", from the engine's headers. */
  const DEFAULT_ADAPTER_ID: u32 := 0xFFFF_FFFF
  /** No optional validation, from the engine's headers. */
  const VALIDATION_FLAG_NONE: u32 := 0
  /** The default shader-compilation thread count, the engine's "choose for me" value. */
  const AUTO_SHADER_COMPILATION_THREADS: u32 := 0xFFFF_FFFF

  datatype Version = Version(major: u32, minor: u32)

  datatype DeviceFeatureState = Disabled | Enabled | Optional

  /** The requested state of every optional device feature. */
  datatype DeviceFeatures = DeviceFeatures(states: seq<DeviceFeatureState>)

  /** Whether the crate is built with debug assertions. */
  datatype BuildProfile = Debug | Release

  /** The wrapper's own record. */
  datatype CreateInfo = CreateInfo(
    engineApiVersion: i32,
    adapterId: u32,
    graphicsApiVersion: Version,
    numImmediateContexts: u32,
    numDeferredContexts: u32,
    features: DeviceFeatures,
    enableValidation: bool,
    validationFlags: u32,
    numAsyncShaderCompilationThreads: u32,
    padding: u32)

  /** A raw pointer of the C interface. */
  datatype Ptr = Null | Address(addr: nat)

  /** The binding struct passed to the native engine. */
  datatype NativeCreateInfo = NativeCreateInfo(
    engineApiVersion: i32,
    adapterId: u32,
    graphicsApiVersion: Version,
    immediateContextInfo: Ptr,
    numImmediateContexts: u32,
    numDeferredContexts: u32,
    features: DeviceFeatures,
    enableValidation: bool,
    validationFlags: u32,
    rawMemAllocator: Ptr,
    asyncShaderCompilationThreadPool: Ptr,
    numAsyncShaderCompilationThreads: u32,
    padding: u32,
    xrAttribs: Ptr)

  predicate PointersNull(n: NativeCreateInfo)
  {
    n.immediateContextInfo == Null && n.rawMemAllocator == Null
    && n.asyncShaderCompilationThreadPool == Null && n.xrAttribs == Null
  }

  /** `EngineCreateInfo::default()`. The engine's API version constant and the binding's default
      device features are defined outside this model and come in as parameters. */
  function Default(profile: BuildProfile, apiVersion: u32, defaultFeatures: DeviceFeatures): (c: CreateInfo)
    ensures c.numImmediateContexts == 0 && c.numDeferredContexts == 0
    ensures c.graphicsApiVersion == Version(0, 0)
    ensures c.adapterId == DEFAULT_ADAPTER_ID
    ensures c.validationFlags == VALIDATION_FLAG_NONE
    ensures c.numAsyncShaderCompilationThreads == AUTO_SHADER_COMPILATION_THREADS
    ensures c.padding == 0
    ensures c.enableValidation <==> profile == Debug
    ensures c.features == defaultFeatures
    ensures (c.engineApiVersion as int - apiVersion as int) % U32_LIMIT == 0
    ensures apiVersion as int < I32_LIMIT ==> c.engineApiVersion as int == apiVersion as int
  {
    CreateInfo(
      engineApiVersion := AsI32(apiVersion),
      adapterId := DEFAULT_ADAPTER_ID,
      graphicsApiVersion := Version(0, 0),
      numImmediateContexts := 0,
      numDeferredContexts := 0,
      features := defaultFeatures,
      enableValidation := profile == Debug,
      validationFlags := VALIDATION_FLAG_NONE,
      numAsyncShaderCompilationThreads := AUTO_SHADER_COMPILATION_THREADS,
      padding := 0)
  }

  /** `From<&EngineCreateInfo>` for the binding struct: every scalar field is copied and every
      pointer field is null. */
  function Lower(c: CreateInfo): (n: NativeCreateInfo)
    ensures PointersNull(n)
    ensures n.engineApiVersion == c.engineApiVersion && n.adapterId == c.adapterId
    ensures n.graphicsApiVersion == c.graphicsApiVersion
    ensures n.numImmediateContexts == c.numImmediateContexts && n.numDeferredContexts == c.numDeferredContexts
    ensures n.features == c.features
    ensures n.enableValidation == c.enableValidation && n.validationFlags == c.validationFlags
    ensures n.numAsyncShaderCompilationThreads == c.numAsyncShaderCompilationThreads
    ensures n.padding == c.padding
  {
    NativeCreateInfo(
      c.engineApiVersion, c.adapterId, c.graphicsApiVersion, Null,
      c.numImmediateContexts, c.numDeferredContexts, c.features,
      c.enableValidation, c.validationFlags, Null, Null,
      c.numAsyncShaderCompilationThreads, c.padding, Null)
  }

  /** The wrapper-owned fields of a binding struct, the pointers dropped. */
  function Fields(n: NativeCreateInfo): CreateInfo
  {
    CreateInfo(
      n.engineApiVersion, n.adapterId, n.graphicsApiVersion,
      n.numImmediateContexts, n.numDeferredContexts, n.features,
      n.enableValidation, n.validationFlags,
      n.numAsyncShaderCompilationThreads, n.padding)
  }

  /** Lowering loses nothing: the record is recovered from the binding struct, and the structs
      lowering produces are exactly those whose pointers are all null. */
  lemma LowerRoundTrip(c: CreateInfo, n: NativeCreateInfo)
    ensures Fields(Lower(c)) == c
    ensures Lower(Fields(n)) == n <==> PointersNull(n)
  {
  }

  /** Distinct records lower to distinct binding structs. */
  lemma LowerInjective(a: CreateInfo, b: CreateInfo)
    requires Lower(a) == Lower(b)
    ensures a == b
  {
    LowerRoundTrip(a, Lower(a));
    LowerRoundTrip(b, Lower(b));
  }

  /** What the engine receives from a default record: no contexts requested, graphics API
      version 0.0, the default adapter, no validation flags, an automatic thread count, null
      pointers, and validation on exactly in debug builds. */
  lemma DefaultLowered(profile: BuildProfile, apiVersion: u32, defaultFeatures: DeviceFeatures)
    ensures
      var n := Lower(Default(profile, apiVersion, defaultFeatures));
      && PointersNull(n)
      && n.numImmediateContexts == 0 && n.numDeferredContexts == 0
      && n.graphicsApiVersion == Version(0, 0)
      && n.adapterId == DEFAULT_ADAPTER_ID
      && n.validationFlags == VALIDATION_FLAG_NONE
      && n.numAsyncShaderCompilationThreads == AUTO_SHADER_COMPILATION_THREADS
      && n.padding == 0
      && (n.enableValidation <==> profile == Debug)
  {
  }
}
