# Adapter selection and engine create-info of the Diligent Engine Rust bindings

This project models the two pieces of self-contained logic in the Rust bindings to the
Diligent rendering engine:

- **Adapter selection** (`find_adapter`, nested in `SampleApp::new`). Given an optional
  explicit adapter index, a requested adapter type and the list of adapters the engine
  enumerated, it picks an adapter. An explicit index that is in range wins. Otherwise the
  first adapter of the requested type wins. Otherwise a scan keeps the adapter of the highest
  type (Discrete > Integrated > Software > Unknown). The scan is modelled exactly as written
  (`AdapterScan.Step`, folded by `AdapterScan.ScanPrefix`). That includes its memory
  tie-break, which can never fire (see Findings).
- **Engine create-info** (`EngineCreateInfo`). This covers its `Default` values, with the
  build profile as a parameter, and the `From` conversion into the binding struct. That
  conversion copies every scalar field and nulls every pointer.
- Two small settings of the sample application: the sync interval `present` passes, and the
  width of the adapters window.

Modules: `Wrappers` (Option), `NativeInts` (u32/i32 and the `as i32` cast),
`GraphicsTypes` (adapter records, type order, maximum type), `AdapterScan` (the best-type
scan as written and as intended), `SampleApp` (the full `find_adapter` and the two settings),
`EngineCreateInfo` (defaults and lowering).

Parameters stand in for what the bindings define outside this code. These are the engine's
API version constant and the binding's `DeviceFeatures::default()`. `DEFAULT_ADAPTER_ID`
(0xFFFFFFFF) and `VALIDATION_FLAG_NONE` (0) carry the values of the engine's headers. The
proofs use them only by name.

## Model

| member | source | states |
|---|---|---|
| GraphicsTypes.MaxType | src/samples/sample_app.rs:166-171 | the type the scan prefers bounds every adapter's type under the Discrete > Integrated > Software > Unknown order, and it is attained when the list is non-empty |
| GraphicsTypes.MaxTypeUpTo | src/samples/sample_app.rs:166-171 | the highest type among the first n adapters bounds each of them and is attained when n > 0; Unknown for n = 0, the scan's starting type at :161 |
| AdapterScan.Step | src/samples/sample_app.rs:166-193 | one scan iteration: the best type never decreases; the index moves only to the current adapter; a higher type takes the index and best type and leaves the remembered memory and stored total as they were; an adapter of the best type met while nothing is remembered takes the index and is remembered; once memory is remembered, an adapter that is not of a higher type changes nothing; a lower type changes nothing |
| AdapterScan.ScanPrefix | src/samples/sample_app.rs:160-193 | after n adapters: the stored total equals the remembered adapter's own total (so the comparison at :182 never succeeds); an index exists iff n > 0, and it is in range with the best type |
| AdapterScan.ScanPrefixBestIsMax | src/samples/sample_app.rs:161-171 | after n adapters, the loop's best type is the highest type among them (Unknown before any adapter) |
| AdapterScan.ScanPrefixAtMostOneBefore | src/samples/sample_app.rs:166-193 | at most one adapter of the best type precedes the chosen one; while nothing is remembered, the chosen adapter is the only one of the best type |
| AdapterScan.ScanPrefixRemembersAtFirstTie | src/samples/sample_app.rs:166-191 | after n adapters, memory is unremembered exactly while no adapter has had exactly the best type of the adapters before it |
| AdapterScan.ScanPrefixSecondOnlyWithoutTie | src/samples/sample_app.rs:166-191 | after n adapters, the chosen adapter is the second of the best type only if no adapter before it had exactly the best type of the adapters before it |
| AdapterScan.ScanPrefixFirstOnlyAfterTie | src/samples/sample_app.rs:166-191 | after n adapters, when the chosen adapter is the first of the best type, every later adapter of that type has such a tie before it |
| AdapterScan.Scan | src/samples/sample_app.rs:160-193 | None exactly for an empty list; otherwise an in-range index of an adapter of the maximum type present. It is the second adapter of that type when no adapter before it has exactly the best type of the adapters before it, and the first one otherwise |
| AdapterScan.ScanRuleIsScan | src/samples/sample_app.rs:160-193 | a position satisfies the first-or-second rule exactly when the scan returns it, so the rule decides the scan completely |
| AdapterScan.ScanTwoDiscrete | src/samples/sample_app.rs:166-191 | two discrete adapters select the second one (:187-191 takes it because nothing is remembered yet) |
| AdapterScan.ScanRisingThenTwoDiscrete | src/samples/sample_app.rs:166-191 | software, integrated, discrete, discrete selects the fourth adapter: every earlier adapter raised the best type, so nothing was remembered |
| AdapterScan.ScanEarlyTieKeepsFirstDiscrete | src/samples/sample_app.rs:166-191 | software, software, discrete, discrete selects the first discrete adapter: the second software adapter was remembered, so the later discrete one cannot move the index |
| AdapterScan.RememberedMemoryNeverMovesIndex | src/samples/sample_app.rs:178-186 | once curr_adapter_mem is set, a later adapter that is not of a higher type leaves the whole scan state, index included, unchanged |
| AdapterScan.HigherTypeKeepsRememberedMemory | src/samples/sample_app.rs:167-170 | a higher type takes over the index and best type but keeps the memory remembered for a lower type |
| AdapterScan.StepIgnoresMemory | src/samples/sample_app.rs:171-191 | one iteration over adapters of equal type from states that differ only in memory leads to states that still differ only in memory |
| AdapterScan.ScanPrefixIgnoresMemory | src/samples/sample_app.rs:166-193 | after any number of iterations, two adapter lists with the same types give the same best type, the same index and the same remembered-or-not status |
| AdapterScan.ScanIgnoresMemory | src/samples/sample_app.rs:160-193 | the scan's choice depends on adapter types only, never on memory sizes or descriptions |
| AdapterScan.StepIntended | src/samples/sample_app.rs:166-193 | corrected iteration: a higher type, or the first adapter of the best type, is taken and its own memory and total are remembered; an adapter of the best type with strictly more total memory takes the index; one with no more memory changes nothing; a lower type changes nothing |
| AdapterScan.ScanPrefixIntended | src/samples/sample_app.rs:160-193 | corrected scan after n adapters: the chosen adapter has the best type and the most memory of that type, and every earlier adapter of that type has strictly less |
| AdapterScan.ScanIntended | src/samples/sample_app.rs:160-193 | the corrected scan picks the highest type, then the greatest total memory, then the earliest index |
| AdapterScan.ScanPrefersLessMemory | src/samples/sample_app.rs:178-186 | as written, two discrete adapters of 8 GiB then 1 GiB select the 1 GiB one, where the corrected scan selects the 8 GiB one |
| AdapterScan.ScanStopsAtSecondOfBestType | src/samples/sample_app.rs:178-186 | as written, three discrete adapters of 1, 2 and 8 GiB select the second; the corrected scan selects the third |
| SampleApp.FirstOfType | src/samples/sample_app.rs:153-157 | the position of the first adapter of the requested type, and None exactly when no adapter has that type |
| SampleApp.Preselect | src/samples/sample_app.rs:142-158 | an in-range explicit index is kept; an out-of-range one is dropped; then a requested type other than Unknown picks its first adapter, if there is one |
| SampleApp.FindAdapter | src/samples/sample_app.rs:137-202 | None exactly for an empty list, otherwise an in-range index; an in-range explicit index is returned unchanged; else the first adapter of a requested, present, non-Unknown type; else the best-type scan's choice, under its exact first-or-second rule |
| SampleApp.InvalidIndexIsDiscarded | src/samples/sample_app.rs:144-150 | an explicit index at or past the end of the list gives the same result as no index |
| SampleApp.MissingTypeFallsBackToScan | src/samples/sample_app.rs:153-161 | a requested type that no adapter has gives the same result as requesting Unknown, that is the best-type scan |
| SampleApp.FindAdapterIgnoresMemory | src/samples/sample_app.rs:137-202 | adapter lists that differ only in memory sizes and descriptions select the same adapter |
| SampleApp.FindAdapterIntended | src/samples/sample_app.rs:137-202 | the same selection with the corrected scan: the explicit index and requested-type stages are unchanged, and the fallback picks a maximum-type adapter with the most memory, the earliest among equals |
| SampleApp.SyncInterval | src/samples/sample_app.rs:115 | the sync interval is 1 exactly when vsync is on and 0 exactly when it is off |
| SampleApp.AdaptersWindowWidth | src/samples/sample_app.rs:74 | the adapters window width is the smaller of the swap chain's width and 330 |
| NativeInts.AsI32 | src/core/engine_factory.rs:40 | the `as i32` cast keeps values below 2^31, makes larger ones negative, and is congruent to its input modulo 2^32 |
| EngineCreateInfo.Default | src/core/engine_factory.rs:37-60 | zero immediate and deferred contexts, graphics API version 0.0, the default adapter id, no validation flags, the 0xFFFFFFFF "engine chooses" shader-compilation thread count, padding 0, the binding's default features, the API version cast to i32, and validation enabled exactly in debug builds |
| EngineCreateInfo.Lower | src/core/engine_factory.rs:62-81 | every scalar field is copied unchanged and all four pointer fields are null |
| EngineCreateInfo.LowerRoundTrip | src/core/engine_factory.rs:62-81 | lowering loses no field (the record is recovered from the binding struct), and its results are exactly the binding structs whose pointers are all null |
| EngineCreateInfo.LowerInjective | src/core/engine_factory.rs:62-81 | distinct records lower to distinct binding structs |
| EngineCreateInfo.DefaultLowered | src/core/engine_factory.rs:37-81 | the binding struct built from a default record has null pointers, no contexts, version 0.0, the default adapter, no validation flags, automatic thread count, padding 0, and validation exactly in debug builds |

## Left out

- The println of the chosen adapter at src/samples/sample_app.rs:196-199 is output only.
- Memory sizes are unbounded naturals. The u64 sums at src/samples/sample_app.rs:174-181 could overflow, and that is not modelled. Memory never affects the result as written.
- `GraphicsAdapterInfo` keeps only type, memory sizes and description. The other fields are never read by adapter selection.
- `AdapterType`'s declaration is not part of this model. The order Unknown < Software < Integrated < Discrete follows from the `>` at src/samples/sample_app.rs:167 and the comment at :168.
- `DILIGENT_API_VERSION` and `DeviceFeatures::default()` come from the generated bindings, which are not part of this model. `EngineCreateInfo.Default` takes them as parameters.
- Device, context and swap-chain creation, the panics on unsupported backends, the event loop, rendering, resizing, presenting and the imgui window: these are calls into the native engine and the UI library.
- The window position at src/samples/sample_app.rs:81 is floating-point arithmetic.
- `EngineFactory` methods, `enumerate_adapters`, the sampler and the shader resource binding forward through the engine's function-pointer tables. The `SamplerDesc` conversion copies float fields and a raw name pointer.

## Findings

| source | as written | input that shows it | evidently intended | confidence | as-written member | corrected member |
|---|---|---|---|---|---|---|
| src/samples/sample_app.rs:166-191 | Two things combine. The higher-type branch at :169-170 takes the index but never sets `curr_adapter_mem`. So when the next adapter of that type arrives, :188-190 take it unconditionally, whatever its memory. After that, :179-182 compare the remembered adapter's own total with the stored total, which is the same value, so no third adapter of that type is ever taken. | two discrete adapters, 8 GiB then 1 GiB: index 1 (1 GiB) is selected; three discrete adapters of 1, 2, 8 GiB: index 1 is selected | "Select adapter with more memory" (comment at :172): among adapters of the highest type, pick the one with the greatest total memory | high; not executed | AdapterScan.ScanPrefersLessMemory | AdapterScan.ScanIntended |

`SampleApp.FindAdapter` follows the code as written. `SampleApp.FindAdapterIntended` is the
same selection built on the corrected scan.
