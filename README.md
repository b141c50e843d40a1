# JSON mapping plugin — a Dafny model

This project models the core of the UDA JSON mapping plugin. The plugin answers UDA
`get`/`read` requests for an IMAS IDS path such as `magnetics/coil[3]/current`. It
works in three steps:

- It finds the mapping registered for that path in per-machine JSON mapping files.
- It evaluates that mapping into a UDA `DATA_BLOCK`.
- It applies any scaling, offsetting, slicing and subsetting.

Each Dafny module follows one part of the C++ source:

| module | file | models |
|---|---|---|
| `Wrappers` | `wrappers.dfy` | `Option`, `Result`, and `Outcome` (`Done`, `Threw`, `Undefined`) |
| `UdaTypes` | `uda_types.dfy` | the UDA type codes and `size_of_uda_type` |
| `DataBlocks` | `data_block.dfy` | `DIMS` and `DATA_BLOCK`: the `Block` value, the mutable `DataBlock` class, method-0 `uncompressDim` |
| `CText` | `ctext.dfy` | the C/C++ text routines the plugin relies on |
| `Json` | `json.dfy` | the nlohmann JSON value and the accessors the plugin uses |
| `UdaHelpers` | `uda_helpers.dfy` | the `setReturnData*` helpers and `setReturnTimeArray` |
| `ScaleOffset` | `scale_offset.dfy` | element-wise scale and offset over spans and data blocks |
| `Subset` | `subset.dfy` | `SubsetInfo`, `subset_info_converter`, and the index walk of `subset` |
| `SubsetTheory` | `subset_theory.dfy` | what the walk computes: a strided box in row-major order |
| `SubsetApply` | `subset_apply.dfy` | `do_a_subset`, `do_dim_subset`, `apply_subsetting` |
| `RamCaches` | `ram_cache.dfy` | the ring-buffer `RamCache`, `make_data_entry`, `copy_from_cache` |
| `Mappings` | `mappings.dfy` | the value, plugin, slice, dimension and custom mappings, and the map-argument datatype check |
| `MappingHandlers` | `mapping_handler.dfy` | the `MappingHandler` class: loading, registration, configuration, cache setup |
| `JsonMappingPlugins` | `json_mapping_plugin.dfy` | the plugin class: index extraction, signal typing, mapping lookup, `get`, `execute`, `entry_handle` |

State is modelled the way the C++ updates it. The handler, the plugin, the RAM cache and
the data block are classes with fields and `modifies` clauses. Each method is proved
equal to a specification function of the old state and its inputs. The properties the
source promises are then proved about those functions as lemmas.

Outcomes are modelled explicitly:

- A C++ exception is `Threw`.
- Undefined behaviour is `Undefined`, for example `front()` of an empty array, `%` by zero, or a const `operator[]` on a missing key.
- `RAISE_PLUGIN_ERROR` returns 999, which is `Mappings.PluginError`.

Foreign code is passed in as parameters:

- `inja::render`, `callPlugin`, the expression evaluator, `std::stof` and UDA's `setReturnData*` string and int-scalar setters are fields of `Mappings.External`.
- The `FIND_*` macros and the help and version text are fields of `JsonMappingPlugins.Host`.
- The parsed mapping files are a map from path to parsed JSON (`MappingHandlers.Files`).
- Environment variables are `Option<string>` parameters.

`SubsetInfo` and its accessors are the fields of `Subset.SubsetInfo`. `SubsetInfo(size)`
is `Subset.FullRange`, and `validate()` is `Subset.Validate`; the plugin itself calls
neither.

The subsetting chain (`subset`, `do_dim_subset`, the dimension loop, `do_a_subset`,
`apply_subsetting`) takes a `Subset.Variant`. `AsWritten` is the source: the converter
lets `dimid == rank` through, and the output length is the product of the rounded-down
sizes. `Corrected` is the corrected walk of the Findings section. Each method is proved
to compute its function for either variant, and the lemmas state what each variant
returns. The mapping dispatcher
`Mappings.Map` has no contract of its own. Its dimension and slice cases are stated by
the lemmas named below.

## Model

| member | source | states |
|---|---|---|
| UdaTypes.SizeOfUdaType | JSON_mapping_plugin/src/utils/uda_type_sizes.hpp:10-36 | a size exists exactly for the ten supported tags, and it is that tag's positive C++ width; every other tag has none (the `runtime_error`) |
| UdaTypes.SignedUnsignedSameSize | JSON_mapping_plugin/src/utils/uda_type_sizes.hpp:14-29 | short/unsigned short are 2 bytes, int/unsigned int 4, long/unsigned long and long64/unsigned long64 8 |
| UdaTypes.ElementsFromBytes | JSON_mapping_plugin/src/utils/ram_cache.cpp:71 | dividing the byte count of n elements by the type size gives back n |
| UdaTypes.Int32Of | JSON_mapping_plugin/src/map_types/value_mapping.cpp:98 | conversion to `int` yields a value in the int range congruent to the input modulo 2^32, and the input itself when it fits |
| UdaTypes.UInt32Of | JSON_mapping_plugin/src/map_types/value_mapping.cpp:102 | conversion to `unsigned int` yields a value below 2^32 congruent to the input modulo 2^32, and the input itself when it fits |
| DataBlocks.Ramp | JSON_mapping_plugin/src/utils/uda_plugin_helpers.cpp:12-14 | method-0 decompression yields n values, value i being `dim0 + i * diff` |
| DataBlocks.Expand | JSON_mapping_plugin/src/utils/ram_cache.cpp:26-38 | a compressed dim gains its `dim_n` ramp values and nothing else changes; an uncompressed dim is unchanged |
| DataBlocks.Decompress | JSON_mapping_plugin/src/utils/ram_cache.cpp:26-38 | the result is uncompressed with the same `dim_n` and type; a compressed dim gets `dim_n` values, an uncompressed one is unchanged |
| DataBlocks.DataBlock.constructor | JSON_mapping_plugin/src/utils/uda_plugin_helpers.hpp:28 | a new block is the `initDataBlock` state over a fresh buffer |
| DataBlocks.DataBlock.Reset | JSON_mapping_plugin/src/utils/uda_plugin_helpers.hpp:28 | `initDataBlock` returns the block to its initial state |
| DataBlocks.DataBlock.SetData | JSON_mapping_plugin/src/utils/uda_plugin_helpers.hpp:81-82 | the data buffer is replaced by a fresh one holding exactly the values; every other field is unchanged |
| CText.Stoi | JSON_mapping_plugin/JSON_mapping_plugin.cpp:121 | `std::stoi` throws `invalid_argument` exactly when no digits follow the optional spaces and sign; a parsed value lies in the int range |
| CText.StoiReadsNumericPrefix | JSON_mapping_plugin/JSON_mapping_plugin.cpp:121 | `stoi` of a number's decimal text followed by a non-digit yields that number |
| CText.Strtol | JSON_mapping_plugin/JSON_mapping_plugin.cpp:213 | the result lies in the long range, and the whole string is consumed exactly when the scan ends at its end |
| CText.StrtolReadsNatToString | JSON_mapping_plugin/JSON_mapping_plugin.cpp:213 | `strtol` of a number's decimal text yields that number and consumes everything |
| CText.DigitsValueOfNatToString | JSON_mapping_plugin/JSON_mapping_plugin.cpp:243 | `std::to_string` of a non-negative number reads back as that number |
| CText.Split | JSON_mapping_plugin/JSON_mapping_plugin.cpp:311 | `boost::split` yields at least one token, and no token contains the separator |
| CText.JoinSplit | JSON_mapping_plugin/JSON_mapping_plugin.cpp:260 | joining the split tokens with the separator gives back the string |
| CText.ReplaceLast | JSON_mapping_plugin/JSON_mapping_plugin.cpp:243 | with no occurrence the string is unchanged; otherwise only the last occurrence of the character is replaced |
| CText.ToLower | JSON_mapping_plugin/JSON_mapping_plugin.cpp:325 | same length, each character lower-cased |
| CText.ToUpper | JSON_mapping_plugin/src/handlers/mapping_handler.cpp:186 | same length, each character upper-cased, and no lower-case letter remains |
| CText.ToLowerFoldsCase | JSON_mapping_plugin/JSON_mapping_plugin.cpp:325 | two machine names lower-case to the same name exactly when they differ only in the case of their letters |
| Json.ConstAt | JSON_mapping_plugin/src/handlers/mapping_handler.cpp:185 | the const `operator[]` gives the field when the object has the key, is undefined on a missing key, and throws on a non-object |
| Json.At | JSON_mapping_plugin/src/handlers/mapping_handler.cpp:138 | `at` gives the field when present and throws otherwise, never undefined |
| Json.GetString | JSON_mapping_plugin/src/handlers/mapping_handler.cpp:185 | `get<std::string>` succeeds exactly on strings and returns their text |
| Json.Items | JSON_mapping_plugin/src/handlers/mapping_handler.cpp:225 | `items()` of an object is its fields, of null nothing, of a primitive one entry with key "" |
| Json.Update | JSON_mapping_plugin/src/handlers/mapping_handler.cpp:105 | `update` succeeds exactly on an object (or null) updated with an object; the other object's keys win, and the receiver's other keys are kept |
| Json.Assign | JSON_mapping_plugin/JSON_mapping_plugin.cpp:351 | `j[key] = v` on an object or null sets the key and keeps every other key |
| UdaHelpers.TypeMapAt | JSON_mapping_plugin/src/utils/uda_plugin_helpers.hpp:16-20 | `UDA_TYPE_MAP.at` succeeds for unsigned int, int, float and double, and throws for bool |
| UdaHelpers.Description | JSON_mapping_plugin/src/utils/uda_plugin_helpers.hpp:33-36 | the description is a prefix of the given one, shorter than `STRING_LENGTH`; it is the whole of a short one, and empty when none is given |
| UdaHelpers.UnitDim | JSON_mapping_plugin/src/utils/uda_plugin_helpers.hpp:64-79 | each dim is compressed, unsigned int, `dim_n` = its extent, and decompresses to 0, 1, 2, … |
| UdaHelpers.UnitDims | JSON_mapping_plugin/src/utils/uda_plugin_helpers.hpp:64-79 | one unit dim per shape entry, in order |
| UdaHelpers.ScalarBlock | JSON_mapping_plugin/src/utils/uda_plugin_helpers.hpp:24-44 | rank 0, `data_n` 1, the value as the only element, the mapped type and the description; throws exactly for an unmapped type |
| UdaHelpers.SetReturnDataScalarType | JSON_mapping_plugin/src/utils/uda_plugin_helpers.hpp:24-44 | the method returns 0 and leaves the block equal to `ScalarBlock`, or throws exactly when it does |
| UdaHelpers.ArrayBlock | JSON_mapping_plugin/src/utils/uda_plugin_helpers.hpp:46-89 | rank = number of extents, `data_n` = their product, unit dims per extent, order -1, the values copied; more values than the product overflow the buffer (undefined) |
| UdaHelpers.UnitShape | JSON_mapping_plugin/src/utils/uda_plugin_helpers.hpp:62-79 | the loop builds one compressed unit dimension per shape entry and the product of the shape as the length |
| UdaHelpers.SetReturnDataArrayType | JSON_mapping_plugin/src/utils/uda_plugin_helpers.hpp:46-89 | the method returns 0 and leaves the block equal to `ArrayBlock`, failing exactly when it does |
| UdaHelpers.VectorBlock | JSON_mapping_plugin/src/utils/uda_plugin_helpers.hpp:91-127 | rank 1 with one unit dim of the input's length, `data_n` = length, the values in order |
| UdaHelpers.SetReturnDataArrayTypeVec | JSON_mapping_plugin/src/utils/uda_plugin_helpers.hpp:91-127 | the method returns 0 and leaves the block equal to `VectorBlock` |
| UdaHelpers.SetReturnDataValArray | JSON_mapping_plugin/src/utils/uda_plugin_helpers.hpp:129-165 | the `valarray` variant gives the same block as the vector variant |
| UdaHelpers.VectorIsRankOneArray | JSON_mapping_plugin/src/utils/uda_plugin_helpers.hpp:46-127 | the vector variant is the array variant with the one-entry shape [length] |
| UdaHelpers.ArrayBlockConsistent | JSON_mapping_plugin/src/utils/uda_plugin_helpers.hpp:46-89 | with exactly product-many values, the block's buffer holds `data_n` values and it has `rank` dims |
| UdaHelpers.Product | JSON_mapping_plugin/src/utils/uda_plugin_helpers.hpp:62-79 | the element count of a shape is 0 exactly when some extent is 0 |
| UdaHelpers.UnitDescriptor | JSON_mapping_plugin/src/utils/uda_plugin_helpers.cpp:26-31 | the ordering dim becomes compressed unsigned int with no data, keeping its length, units and label |
| UdaHelpers.TimeArray | JSON_mapping_plugin/src/utils/uda_plugin_helpers.cpp:5-34 | for `0 <= order < rank`: the data, length, type, units and label come from `dims[order]`; the result has rank 1 and order -1; `dims[order]` becomes a unit descriptor; only `dims[0]` is expanded; the other dims are untouched |
| UdaHelpers.SetReturnTimeArray | JSON_mapping_plugin/src/utils/uda_plugin_helpers.cpp:5-34 | the method returns 0 and leaves the block equal to `TimeArray` of the old block |
| ScaleOffset.Trunc | JSON_mapping_plugin/src/helpers/scale_offset.hpp:22 | conversion to an integer element type truncates toward zero |
| ScaleOffset.Apply | JSON_mapping_plugin/src/helpers/scale_offset.hpp:9-43 | one element gains the offset or is multiplied by the scale; for an integer element type the result is a whole number truncated toward zero from the exact one |
| ScaleOffset.Mapped | JSON_mapping_plugin/src/helpers/scale_offset.hpp:21-22 | the transformed span has the same length, element i transformed |
| ScaleOffset.ForEach | JSON_mapping_plugin/src/helpers/scale_offset.hpp:21-22 | the `for_each` loop transforms the first n array cells in place and leaves the rest |
| ScaleOffset.OffsetSpan | JSON_mapping_plugin/src/helpers/scale_offset.hpp:15-25 | an empty span returns 1 unchanged; otherwise every element gains the offset and 0 is returned |
| ScaleOffset.ScaleSpan | JSON_mapping_plugin/src/helpers/scale_offset.hpp:33-43 | an empty span returns 1 unchanged; otherwise every element is multiplied and 0 is returned |
| ScaleOffset.OffsetValue | JSON_mapping_plugin/src/helpers/scale_offset.hpp:9-13 | the one pointed-to value gains the offset; returns 0 |
| ScaleOffset.ScaleValue | JSON_mapping_plugin/src/helpers/scale_offset.hpp:27-31 | the one pointed-to value is multiplied; returns 0 |
| ScaleOffset.TransformBlock | JSON_mapping_plugin/src/utils/scale_offset.cpp:7-151 | an unhandled type returns 1 untouched; rank > 0 transforms `data_n` elements, and `data_n == 0` returns 1; rank 0 transforms the single value; rank, length and type never change |
| ScaleOffset.TransformOffset | JSON_mapping_plugin/src/utils/scale_offset.cpp:7-78 | the method's code and new block are `TransformBlock` of the old block with the offset |
| ScaleOffset.TransformScale | JSON_mapping_plugin/src/utils/scale_offset.cpp:80-151 | the method's code and new block are `TransformBlock` of the old block with the scale, mirroring the offset case for case |
| ScaleOffset.TransformSpanElements | JSON_mapping_plugin/src/utils/scale_offset.cpp:10-37 | for a handled array: code 0, each of the first `data_n` elements transformed, the rest of the buffer untouched |
| ScaleOffset.IntegralTransformsAreWhole | JSON_mapping_plugin/src/utils/scale_offset.cpp:10-78 | on short, int and long blocks every transformed element is a whole number |
| ScaleOffset.ScaleThenOffset | JSON_mapping_plugin/src/map_types/plugin_mapping.cpp:80-87 | scaling then offsetting a float array gives `x * scale + offset` per element |
| ScaleOffset.OffsetsCompose | JSON_mapping_plugin/src/helpers/scale_offset.hpp:15-25 | two offsets of a float span add up |
| ScaleOffset.NeutralTransforms | JSON_mapping_plugin/src/helpers/scale_offset.hpp:15-43 | offset 0 and scale 1 leave a span unchanged |
| Subset.Size | JSON_mapping_plugin/src/utils/subset.hpp:30 | `size()` is `(stop - start) / stride` in uint64, rounding down, with its wrap for a reversed range |
| Subset.SizeCases | JSON_mapping_plugin/src/utils/subset.hpp:30 | the three regimes of `size()`: floor of range over stride, wrap of a reversed range, 0 for a negative stride |
| Subset.CeilSize | JSON_mapping_plugin/src/utils/subset.cpp:93-109 | the number of strides the walk takes is exactly the count of steps before `stop` |
| Subset.CeilSizeSteps | JSON_mapping_plugin/src/utils/subset.cpp:93-109 | the rounded-up quotient counts exactly the steps `start + d * stride < stop` |
| Subset.FullRange | JSON_mapping_plugin/src/utils/subset.hpp:25 | `SubsetInfo(size)` starts at 0 with stride 1 and walks every index below `size`; it validates exactly when `size > 1` |
| Subset.ValidateMeans | JSON_mapping_plugin/src/utils/subset.hpp:32 | a validated forward axis is walked inside its dim, and a negative stride (compared as uint64) never validates on an axis below 2^63 |
| Subset.ConvertBound | JSON_mapping_plugin/src/utils/subset.cpp:25-30 | an unset lower or upper bound becomes 0, an unset or zero stride becomes 1, the stride is then narrowed to `int` (the constructor parameter at subset.hpp:27), and `dim_size` is the dim's length |
| Subset.StrideNarrowing | JSON_mapping_plugin/src/utils/subset.hpp:27 | a stride in the int range is kept; any other keeps its value modulo 2^32, so a nonzero multiple of 2^32 becomes a zero stride |
| Subset.ConverterReadsPastLastDim | JSON_mapping_plugin/src/utils/subset.cpp:22-25 | a bound naming dimension `rank` reads past the dims as written, where the corrected converter throws |
| Subset.ConvertBoundsAsWritten | JSON_mapping_plugin/src/utils/subset.cpp:15-34 | the loop as written succeeds exactly when every dim id is between 0 and the rank and names an existing dim, converting each bound in order |
| Subset.SubsetInfoConverterAsWritten | JSON_mapping_plugin/src/utils/subset.cpp:15-34 | as written: throws unless `nbound == rank`; succeeds exactly when every dim id is at most the rank and names an existing dim; one `SubsetInfo` per bound |
| Subset.ConvertersAgree | JSON_mapping_plugin/src/utils/subset.cpp:15-34 | wherever the corrected loop succeeds, the loop as written gives the same axes |
| Subset.ConverterVariantsAgree | JSON_mapping_plugin/src/utils/subset.cpp:15-34 | wherever the corrected converter succeeds, the converter as written gives the same axes |
| Subset.ConvertBounds | JSON_mapping_plugin/src/utils/subset.cpp:15-34 | succeeds exactly when every dim id is below rank, converting each bound in order |
| Subset.SubsetInfoConverter | JSON_mapping_plugin/src/utils/subset.cpp:15-34 | the corrected converter: throws unless `nbound == rank` and every dim id is below rank; otherwise one `SubsetInfo` per bound |
| Subset.Factors | JSON_mapping_plugin/src/utils/subset.cpp:45-51 | the first factor is 1, and there is one factor per extent (at least one) |
| Subset.GetIndexFactors | JSON_mapping_plugin/src/utils/subset.cpp:45-51 | the loop computes `Factors` |
| Subset.GetInputOffset | JSON_mapping_plugin/src/utils/subset.cpp:63-69 | the loop computes the unsigned-int dot product of indices and factors |
| Subset.WalkSetup | JSON_mapping_plugin/src/utils/subset.cpp:81-89 | the set-up loop yields the output length (the unsigned-int product of the rounded-down sizes as written, of the rounded-up ones when corrected), the extents and the starting indices |
| Subset.Carry | JSON_mapping_plugin/src/utils/subset.cpp:96-104 | the carry cascade keeps the index vector's length, and throws only when the last axis overflows |
| Subset.CarryIndices | JSON_mapping_plugin/src/utils/subset.cpp:96-104 | the carry loop computes `Carry` from axis 0 |
| Subset.Walk | JSON_mapping_plugin/src/utils/subset.cpp:93-109 | the walk from output o yields `len - o` outputs when it succeeds |
| Subset.WalkStep | JSON_mapping_plugin/src/utils/subset.cpp:93-109 | one iteration: a throwing carry aborts, an out-of-range read is undefined, otherwise one output is prepended to the rest of the walk |
| Subset.FillOutputs | JSON_mapping_plugin/src/utils/subset.cpp:93-109 | the output loop computes `Walk` |
| Subset.SubsetOfLength | JSON_mapping_plugin/src/utils/subset.cpp:76-111 | `len` outputs; an empty input or no axes is undefined |
| Subset.SubsetAsWritten | JSON_mapping_plugin/src/utils/subset.cpp:76-111 | `subset` as written produces the product of the rounded-down sizes |
| Subset.SubsetSpec | JSON_mapping_plugin/src/utils/subset.cpp:76-111 | the corrected `subset` produces the product of the rounded-up sizes |
| Subset.Subset | JSON_mapping_plugin/src/utils/subset.cpp:76-111 | the method computes `SubsetBy`: as written it returns `SubsetAsWritten` (a zero stride being undefined), corrected `SubsetSpec` |
| Subset.SubsetBy | JSON_mapping_plugin/src/utils/subset.cpp:76-111 | as written (the source) it is `SubsetAsWritten` when no stride is zero and undefined otherwise; corrected it is `SubsetSpec` |
| Subset.ElemIsScaledThenOffset | JSON_mapping_plugin/src/utils/subset.cpp:106 | an output element is the input scaled then offset, as the plugin's transforms do it, truncated toward zero for an integer element type |
| SubsetTheory.Length32IsProduct | JSON_mapping_plugin/src/utils/subset.cpp:81-92 | without unsigned-int wrap the running length is the product of the sizes |
| SubsetTheory.FactorsAreProducts | JSON_mapping_plugin/src/utils/subset.cpp:45-51 | factor k is the product of the first k extents |
| SubsetTheory.Dot32IsRowMajor | JSON_mapping_plugin/src/utils/subset.cpp:63-69 | for in-range indices the input offset is the row-major position |
| SubsetTheory.SubsetOfLengthIsBoxPrefix | JSON_mapping_plugin/src/utils/subset.cpp:76-111 | a walk of any length up to the box's size yields that prefix of the box |
| SubsetTheory.TotalWithinArray | JSON_mapping_plugin/src/utils/subset.cpp:81-92 | the box has at most as many points as the array |
| SubsetTheory.SubsetSpecIsBox | JSON_mapping_plugin/src/utils/subset.cpp:76-111 | the corrected `subset` returns exactly the box: output o is the input at the row-major position of the o-th strided point, scaled and offset |
| SubsetTheory.SizeIsFloor | JSON_mapping_plugin/src/utils/subset.hpp:30 | on a regular axis, `size()` is the rounded-down quotient |
| SubsetTheory.SizesAsWrittenBelow | JSON_mapping_plugin/src/utils/subset.hpp:30 | each as-written size is at most the number of steps walked, and equal exactly when the stride divides the range |
| SubsetTheory.LengthAsWritten | JSON_mapping_plugin/src/utils/subset.cpp:81-92 | the as-written length is the product of the floor sizes, at most the box's size, and equal exactly when every stride divides |
| SubsetTheory.WholeBoxIffDivides | JSON_mapping_plugin/src/utils/subset.cpp:81-92 | as written, the whole box is produced exactly when every stride divides its range |
| SubsetTheory.SubsetAsWrittenIsPrefix | JSON_mapping_plugin/src/utils/subset.cpp:76-111 | `subset` as written returns the first floor-product points of the box |
| SubsetTheory.SubsetAsWrittenDropsPoints | JSON_mapping_plugin/src/utils/subset.cpp:76-111 | one non-dividing stride makes `subset` as written return fewer points than the box |
| SubsetTheory.StrayAxesRegular | JSON_mapping_plugin/src/utils/subset.hpp:30 | on the 5 x 2 example the walk takes 3 x 2 steps, while the floor sizes are 2 x 2 |
| SubsetTheory.LocateTwo | JSON_mapping_plugin/src/utils/subset.cpp:63-69 | over two regular axes, output o reads input `start0 + (o mod c0) stride0 + (start1 + ((o div c0) mod c1) stride1) dimSize0` |
| SubsetTheory.StrayLocate | JSON_mapping_plugin/src/utils/subset.cpp:63-69 | on the 5 x 2 example output o reads input `2 (o mod 3) + 5 (o div 3)` |
| SubsetTheory.StrayBoxAt | JSON_mapping_plugin/src/utils/subset.cpp:93-109 | element o of the 5 x 2 example box |
| SubsetTheory.StrayBox | JSON_mapping_plugin/src/utils/subset.cpp:93-109 | the 5 x 2 example box is the input at 0, 2, 4, 5, 7, 9 |
| SubsetTheory.FloorSizeStrays | JSON_mapping_plugin/src/utils/subset.cpp:76-111 | as written, the 5 x 2 example returns only the first 4 of those 6 points |
| SubsetTheory.CeilSizeKeepsAll | JSON_mapping_plugin/src/utils/subset.cpp:76-111 | corrected, the 5 x 2 example returns all 6 points |
| SubsetTheory.GridAxesRegular | JSON_mapping_plugin/src/utils/subset.cpp:81-92 | the 4 x 3 example (columns 1..3 of every row) has 3 x 3 steps, and its floor sizes agree |
| SubsetTheory.GridLocate | JSON_mapping_plugin/src/utils/subset.cpp:63-69 | output `3y + x` of the 4 x 3 example reads input `4y + 1 + x` |
| SubsetTheory.GridBoxAt | JSON_mapping_plugin/src/utils/subset.cpp:93-109 | element `3y + x` of the 4 x 3 example box |
| SubsetTheory.GridBoxFormula | JSON_mapping_plugin/src/utils/subset.cpp:93-109 | output o of the 4 x 3 example is the input at `1 + (o mod 3) + 4 (o div 3)` |
| SubsetTheory.GridBox | JSON_mapping_plugin/src/utils/subset.cpp:93-109 | the 4 x 3 example box is the input at 1, 2, 3, 5, 6, 7, 9, 10, 11 |
| SubsetTheory.GridSubsetIsBox | JSON_mapping_plugin/src/utils/subset.cpp:76-111 | with dividing strides, `subset` as written returns the whole 4 x 3 box |
| SubsetTheory.GridSubset | JSON_mapping_plugin/src/utils/subset.cpp:77-111 | on input 0..11 the 4 x 3 example yields [1, 2, 3, 5, 6, 7, 9, 10, 11] |
| SubsetApply.DimSubset | JSON_mapping_plugin/src/utils/subset.cpp:144-207 | for either walk: an unsupported dim type throws; a subset dim is uncompressed with `dim_n` equal to its value count, and keeps its type, units and label |
| SubsetApply.DimSubsetting | JSON_mapping_plugin/src/utils/subset.cpp:171-207 | the method computes `DimSubset`, as written or corrected |
| SubsetApply.DimsSubset | JSON_mapping_plugin/src/utils/subset.cpp:136-141 | for either walk: dims i < n are each subset along their own axis with scale 1 and offset 0; the remaining dims are kept |
| SubsetApply.DimsSubsetting | JSON_mapping_plugin/src/utils/subset.cpp:136-141 | the loop computes `DimsSubset`, and the dims it leaves are `DimsLeft` even when a dim fails |
| SubsetApply.DimsSubsetStops | JSON_mapping_plugin/src/utils/subset.cpp:136-141 | a failing dim ends the loop with that failure |
| SubsetApply.DimsLeft | JSON_mapping_plugin/src/utils/subset.cpp:136-141 | the dims as the loop leaves them: the same number of dims, those from n on untouched, and the loop's result when it succeeds |
| SubsetApply.DimLeft | JSON_mapping_plugin/src/utils/subset.cpp:145-158 | a dim whose subset fails: untouched when its type is unsupported, otherwise uncompressed in place, with its length and type kept |
| SubsetApply.DimsLeftStops | JSON_mapping_plugin/src/utils/subset.cpp:136-141 | a failing dim k leaves the dims done before it, dim k as `DimLeft` leaves it, and the rest untouched |
| SubsetApply.DimsLeftFrozen | JSON_mapping_plugin/src/utils/subset.cpp:136-141 | once a dim has failed, no later step of the loop changes the dims |
| SubsetApply.BlockSubset | JSON_mapping_plugin/src/utils/subset.cpp:113-142 | `do_a_subset`, as written (converter with `dimid > rank`, floor-length walk) or corrected: `data_n` becomes the output length (positive), with rank, type, order and the number of dims kept |
| SubsetApply.ApplySubsetting | JSON_mapping_plugin/src/utils/subset.cpp:209-248 | for either variant: rank 0 is a no-op; an unsupported type throws; otherwise as `BlockSubset` |
| SubsetApply.ApplySubsettingTo | JSON_mapping_plugin/src/utils/subset.cpp:209-248 | the method's result is `ApplySubsetting` of the old block; on success the new block is its value, and after an exception the block is `SubsettingLeft` |
| SubsetApply.ReplaceSubset | JSON_mapping_plugin/src/utils/subset.cpp:129-141 | the method stores the new payload and `data_n`, and its result is `DimsSubset` of the old dims; the block's dims become `DimsLeft`, and every other field is kept |
| SubsetApply.ConversionFails | JSON_mapping_plugin/src/utils/subset.cpp:122 | a failing conversion is the outcome of `apply_subsetting`, and the block is left as it was |
| SubsetApply.WalkFails | JSON_mapping_plugin/src/utils/subset.cpp:124 | a failing walk is the outcome, and the block is left as it was |
| SubsetApply.WalkEmpty | JSON_mapping_plugin/src/utils/subset.cpp:127 | an empty walk is undefined, because the log reads its first element |
| SubsetApply.DimsLoopFails | JSON_mapping_plugin/src/utils/subset.cpp:136-141 | a failing dim is the outcome of `apply_subsetting` |
| SubsetApply.SubsettingLeft | JSON_mapping_plugin/src/utils/subset.cpp:113-142 | the block after `apply_subsetting`, whatever the outcome: the result on success; unchanged when the rank is 0, the type unsupported or the conversion fails; after a failing dim, the new payload with the dims done so far and the failing dim uncompressed |
| SubsetApply.Strided | JSON_mapping_plugin/src/utils/subset.cpp:144-169 | one axis: as many outputs as strides walked |
| SubsetApply.OneAxisBox | JSON_mapping_plugin/src/utils/subset.cpp:144-169 | the box along one axis is the strided selection |
| SubsetApply.OneAxisLocate | JSON_mapping_plugin/src/utils/subset.cpp:144-169 | along one axis, output o reads `start + o * stride` |
| SubsetApply.TotalPositive | JSON_mapping_plugin/src/utils/subset.cpp:113-142 | a regular selection is never empty |
| SubsetApply.DimSubsetIsStrided | JSON_mapping_plugin/src/utils/subset.cpp:144-169 | corrected, a dim's subset holds the strided values of its expanded dim |
| SubsetApply.DimSubsetAsWrittenIsStrided | JSON_mapping_plugin/src/utils/subset.cpp:144-169 | as written, a dim's subset holds the first `size()` strided values, as many as the corrected one exactly when the stride divides the range |
| SubsetApply.SubsetIsBox | JSON_mapping_plugin/src/utils/subset.cpp:113-142 | corrected, the subset block's data is the box of the input data along the converted axes |
| SubsetApply.SubsetAsWrittenIsBoxPrefix | JSON_mapping_plugin/src/utils/subset.cpp:113-142 | as written, the subset block's data is the first floor-product points of that box and `data_n` that product, which is the whole box exactly when every stride divides its range |
| SubsetApply.StepsOfTwoAsWritten | JSON_mapping_plugin/src/utils/subset.cpp:113-142 | on five floats with the request 0:5:2, the subsetting as written completes with `data_n` 2 and keeps only elements 0 and 2 |
| SubsetApply.StepsOfTwoCorrected | JSON_mapping_plugin/src/utils/subset.cpp:113-142 | on the same block and request, the corrected subsetting keeps elements 0, 2 and 4 |
| SubsetApply.StepsOfTwoAxis | JSON_mapping_plugin/src/utils/subset.cpp:15-34 | the request 0:5:2 on a five-element dimension converts to the single axis start 0, stop 5, stride 2 over 5 |
| SubsetApply.StepsOfTwoStrided | JSON_mapping_plugin/src/utils/subset.hpp:30 | that axis takes three steps, elements 0, 2 and 4, where `size()` counts two |
| RamCaches.Width | JSON_mapping_plugin/src/utils/ram_cache.cpp:18 | each cached element has the positive width of its type |
| RamCaches.CachedDim | JSON_mapping_plugin/src/utils/ram_cache.cpp:23-43 | a dim is cached as its `dim_n` values, expanded first when compressed; an unsized type throws |
| RamCaches.EntryDims | JSON_mapping_plugin/src/utils/ram_cache.cpp:20-44 | one cached value list per dim below rank, each that dim's `CachedDim` |
| RamCaches.EntryDimsStops | JSON_mapping_plugin/src/utils/ram_cache.cpp:20-44 | the first failing dim ends the loop |
| RamCaches.DimTypes | JSON_mapping_plugin/src/utils/ram_cache.cpp:43 | the entry records each dim's type in order |
| RamCaches.Entry | JSON_mapping_plugin/src/utils/ram_cache.cpp:13-53 | `make_data_entry` copies exactly the first `data_n` values, one dim entry per rank, and the order, data type and error type; the error arrays are left empty |
| RamCaches.MakeDataEntry | JSON_mapping_plugin/src/utils/ram_cache.cpp:13-53 | the method computes `Entry` of the block |
| RamCaches.RestoredDim | JSON_mapping_plugin/src/utils/ram_cache.cpp:93-101 | a restored dim holds the cached values, uncompressed, with `dim_n` their count and the cached type |
| RamCaches.RestoredDims | JSON_mapping_plugin/src/utils/ram_cache.cpp:90-104 | one restored dim per cached dim, failing exactly on an unsized dim type |
| RamCaches.RestoredDimsStops | JSON_mapping_plugin/src/utils/ram_cache.cpp:90-104 | the first failing dim ends the loop |
| RamCaches.RestoreDims | JSON_mapping_plugin/src/utils/ram_cache.cpp:90-104 | the loop computes `RestoredDims` |
| RamCaches.Restore | JSON_mapping_plugin/src/utils/ram_cache.cpp:69-105 | a hit restores the data type, `data_n` = byte count / type size, the payload, rank = number of dims, and the order |
| RamCaches.Restored | JSON_mapping_plugin/src/utils/ram_cache.cpp:69-105 | the block as the copy leaves it: initialised with the entry's type before the type size is asked for, so an unsized type leaves just that; the dims and order are set only when every dim is restored |
| RamCaches.CopyEntry | JSON_mapping_plugin/src/utils/ram_cache.cpp:69-105 | the method returns true and leaves the block equal to `Restore` of the entry, or fails exactly when `Restore` does, leaving the block `Restored` |
| RamCaches.RoundTrip | JSON_mapping_plugin/src/utils/ram_cache.cpp:13-109 | make then copy reproduces data type, `data_n`, payload, rank, each dim's length, type and expanded values, and order |
| RamCaches.RoundTripPlain | JSON_mapping_plugin/src/utils/ram_cache.cpp:13-109 | for a block with exact buffers and uncompressed dims, the round trip gives back data, dims and order unchanged |
| RamCaches.Added | JSON_mapping_plugin/src/utils/ram_cache.hpp:99-111 | below capacity `add` appends; when full it overwrites the current slot and advances the position modulo capacity; the invariant `\|keys\| == \|values\| <= max` and `position < max` is kept; capacity 0 is undefined |
| RamCaches.FirstIndex | JSON_mapping_plugin/src/utils/ram_cache.cpp:58 | the lookup finds the lowest index holding the key, and none exactly when the key is absent |
| RamCaches.Lookup | JSON_mapping_plugin/src/utils/ram_cache.cpp:58-66 | a lookup finds nothing exactly when the key is absent, and otherwise the value stored beside the key's first occurrence |
| RamCaches.AddedThenFound | JSON_mapping_plugin/src/utils/ram_cache.hpp:99-118 | a new key is found with the value just added |
| RamCaches.DuplicateShadowed | JSON_mapping_plugin/src/utils/ram_cache.hpp:99-106 | adding an existing key appends a duplicate, and lookup still returns the older value |
| RamCaches.Run | JSON_mapping_plugin/src/utils/ram_cache.hpp:99-111 | any sequence of adds keeps the cache invariant |
| RamCaches.RunHolds | JSON_mapping_plugin/src/utils/ram_cache.hpp:99-111 | after any adds the cache holds the last `capacity` entries, rotated by the current position |
| RamCaches.HoldsStep | JSON_mapping_plugin/src/utils/ram_cache.hpp:99-111 | one add extends that description by the new entry |
| RamCaches.HoldsGrow | JSON_mapping_plugin/src/utils/ram_cache.hpp:100-102 | the append case keeps that description |
| RamCaches.HoldsWrap | JSON_mapping_plugin/src/utils/ram_cache.hpp:103-106 | the overwrite case keeps that description |
| RamCaches.CachedIffRecent | JSON_mapping_plugin/src/utils/ram_cache.hpp:99-118 | a key is cached exactly when it is among the last `capacity` keys added |
| RamCaches.FirstEvicted | JSON_mapping_plugin/src/utils/ram_cache.hpp:99-118 | after N + 1 distinct keys in capacity N, the first is gone and the other N are present |
| RamCaches.RamCache.constructor | JSON_mapping_plugin/src/utils/ram_cache.hpp:89-92 | a default cache is empty with capacity 100 |
| RamCaches.RamCache.WithCapacity | JSON_mapping_plugin/src/utils/ram_cache.hpp:94-97 | an explicit cache is empty with the given capacity |
| RamCaches.RamCache.Add | JSON_mapping_plugin/src/utils/ram_cache.hpp:99-111 | the method's new state is `Added` of the old one, and the invariant holds |
| RamCaches.RamCache.AddBlock | JSON_mapping_plugin/src/utils/ram_cache.hpp:113-116 | the block is made into an entry and added; a failing entry leaves the cache unchanged |
| RamCaches.RamCache.HasEntry | JSON_mapping_plugin/src/utils/ram_cache.hpp:118 | true exactly when the key is among the keys |
| RamCaches.RamCache.Find | JSON_mapping_plugin/src/utils/ram_cache.cpp:58 | the search loop returns the lowest matching index, or none exactly when absent |
| RamCaches.RamCache.CopyFromCache | JSON_mapping_plugin/src/utils/ram_cache.cpp:56-109 | a miss returns false with the block untouched; a hit restores the entry found by lookup into the block, and a failed restore leaves the block `Restored` |
| Mappings.MapTypeOf | JSON_mapping_plugin/src/map_types/base_mapping.hpp:11-18 | each MAP_TYPE string maps to its enum value |
| Mappings.CustomKindOf | JSON_mapping_plugin/src/map_types/custom_mapping.hpp:5-8 | the two routine names map to their kinds; anything else is INVALID |
| Mappings.ExtractDatatype | JSON_mapping_plugin/src/map_types/map_arguments.hpp:26-40 | no datatype keeps UNKNOWN with code 0; an in-range datatype is stored; one below 0 or above CAPNP returns the plugin error |
| Mappings.NewMapArguments | JSON_mapping_plugin/src/map_types/map_arguments.hpp:17-23 | entries, globals and signal type are stored; the datatype is the requested one when in range and UNKNOWN otherwise, the error code being ignored |
| Mappings.Elements | JSON_mapping_plugin/src/map_types/value_mapping.cpp:52-78 | each array element converted to the deduced element type, in order |
| Mappings.Element | JSON_mapping_plugin/src/map_types/value_mapping.cpp:57-69 | a float read as float is kept; an integer read as `int` or `unsigned int` is congruent to the JSON integer modulo 2^32 and equal to it when it fits; a float read into either is truncated toward zero; every element that fits lies in the type's range |
| Mappings.TypeDeduceArray | JSON_mapping_plugin/src/map_types/value_mapping.cpp:52-78 | undefined exactly for an empty array or a float element outside the integer element type; otherwise code 0 and a rank-1 block of the converted elements, typed by the first element |
| Mappings.TypeDeducePrim | JSON_mapping_plugin/src/map_types/value_mapping.cpp:88-130 | numbers become rank-0 scalars (an integer keeping its low 32 bits); bool throws; a string is rendered twice and `stoi`'d, throwing only when out of range; a non-primitive returns 1 unchanged |
| Mappings.IntegerArrayNarrows | JSON_mapping_plugin/src/map_types/value_mapping.cpp:61-72 | an integer array stores values in its element type's range, each congruent modulo 2^32 to its JSON integer and equal to it when in range |
| Mappings.NarrowingExamples | JSON_mapping_plugin/src/map_types/value_mapping.cpp:61-102 | `[1, -1]` read as unsigned stores 4294967295; the scalar 5000000000 stores 705032704; `[-1, 3000000000]` read as int stores -1294967296 |
| Mappings.UnsignedArrayWraps | JSON_mapping_plugin/src/map_types/value_mapping.cpp:61-72 | the array `[1, -1]` is typed by its unsigned first element and stores 1 and 4294967295 |
| Mappings.IntArrayWraps | JSON_mapping_plugin/src/map_types/value_mapping.cpp:61-72 | the array `[-1, 3000000000]` is typed by its signed first element and stores -1 and -1294967296 |
| Mappings.ValueMap | JSON_mapping_plugin/src/map_types/value_mapping.cpp:16-134 | null, discarded, binary, object and non-numeric arrays return 1 unchanged; a numeric array's type comes from its first element (empty, or a float outside an integer type, is undefined); numbers become rank-0 scalars, integers narrowed to 32 bits; bool throws; strings are rendered twice and `stoi`'d |
| Mappings.RenderedNumberIsInt | JSON_mapping_plugin/src/map_types/value_mapping.cpp:109-127 | a string that renders to a number followed by text becomes that int scalar |
| CText.StoiRejectsText | JSON_mapping_plugin/src/map_types/value_mapping.cpp:117-121 | `stoi` throws `invalid_argument` on empty text and on text starting with anything but a digit, a space or a sign |
| Mappings.RenderedTextIsString | JSON_mapping_plugin/src/map_types/value_mapping.cpp:109-127 | a string that does not parse is returned as the rendered string |
| Mappings.ArgText | JSON_mapping_plugin/src/map_types/plugin_mapping.cpp:32-44 | a string arg appends `key=<render(render(value))>, `, a bool arg `key, `, anything else nothing |
| Mappings.ArgsTextEndsWithSeparator | JSON_mapping_plugin/src/map_types/plugin_mapping.cpp:32-44 | the argument text is empty or ends with `, ` |
| Mappings.RequestShape | JSON_mapping_plugin/src/map_types/plugin_mapping.cpp:23-58 | the request begins with `<plugin>::get(`, so it is never empty, and no `)` is appended |
| Mappings.OtherArgsSkipped | JSON_mapping_plugin/src/map_types/plugin_mapping.cpp:41-54 | args that are neither strings nor bools add nothing |
| Mappings.BuildRequest | JSON_mapping_plugin/src/map_types/plugin_mapping.cpp:23-58 | the loop builds exactly `RequestString` |
| Mappings.Transforms | JSON_mapping_plugin/src/map_types/plugin_mapping.cpp:80-87 | no transform keeps the code; scale alone, offset alone, or scale then offset, with the last transform's code |
| Mappings.PluginMap | JSON_mapping_plugin/src/map_types/plugin_mapping.cpp:60-90 | a non-zero plugin code is returned unchanged; TIME returns `setReturnTimeArray`'s code with no transform; otherwise `Transforms` on the plugin's block |
| Mappings.PluginScalesThenOffsets | JSON_mapping_plugin/src/map_types/plugin_mapping.cpp:80-87 | with both configured, the result is the offset of the scaled block |
| Mappings.GetSlice2D | JSON_mapping_plugin/src/map_types/slice_mapping.hpp:22-26 | get_slice2D yields `rows` elements, element j being `orig[start + j * stride]`, every such index inside the buffer when the slice is |
| Mappings.IndexParses | JSON_mapping_plugin/src/map_types/slice_mapping.cpp:22-27 | each index string is rendered and then `stoi`'d |
| Mappings.Converted | JSON_mapping_plugin/src/map_types/slice_mapping.cpp:22-27 | succeeds exactly when every parse does, keeping the values in order |
| Mappings.SliceIndices | JSON_mapping_plugin/src/map_types/slice_mapping.cpp:22-27 | all indices, rendered and parsed, or the first failure |
| Mappings.SliceColumn | JSON_mapping_plugin/src/map_types/slice_mapping.cpp:30-38 | the column at the index, read as float, is set as a rank-1 array; undefined when it leaves the buffer |
| Mappings.MapSlice | JSON_mapping_plugin/src/map_types/slice_mapping.cpp:16-42 | rank other than 2 returns 1 unchanged; rank 2 replaces the data with the column at the first index |
| Mappings.SliceShape | JSON_mapping_plugin/src/map_types/slice_mapping.cpp:18-38 | the rank-2 result has rank 1, code 0 and length `data_n / dims[0].dim_n` |
| Mappings.ColumnElements | JSON_mapping_plugin/src/map_types/slice_mapping.cpp:30-33 | element j of the column is `input[idx + j * dims[0].dim_n]` |
| Mappings.SliceElements | JSON_mapping_plugin/src/map_types/slice_mapping.cpp:16-42 | element j of the sliced block is the float view at `first index + j * dims[0].dim_n` |
| Mappings.CustomMap | JSON_mapping_plugin/src/map_types/custom_mapping.cpp:15-38 | MASTU and DRAFT set their hello-world strings; INVALID returns 1 and writes nothing |
| Mappings.UnknownCustomTypeReturnsOne | JSON_mapping_plugin/src/map_types/custom_mapping.hpp:5-8 | an unrecognised CUSTOM_TYPE returns 1 with the block unchanged |
| Mappings.DimProbeAbsent | JSON_mapping_plugin/src/map_types/dim_mapping.cpp:7-9 | a probe absent from the entries returns 1 without evaluating anything |
| Mappings.DimProbeResult | JSON_mapping_plugin/src/map_types/dim_mapping.cpp:5-30 | the probe runs with signal type DIM; its non-zero code is passed on; `data_n == 0` returns 1; otherwise an int scalar of `data_n` with code 0 |
| Mappings.SliceInnerCodePassedOn | JSON_mapping_plugin/src/map_types/slice_mapping.cpp:7-14 | a non-zero code of the wrapped mapping is returned with no slicing |
| Mappings.MapFuelMonotone | JSON_mapping_plugin/src/map_types/dim_mapping.cpp:16-19 | a result reached within the fuel bound does not change with more fuel |
| Mappings.DimFuelMonotone | JSON_mapping_plugin/src/map_types/dim_mapping.cpp:16-19 | likewise for the dimension probe |
| Mappings.SliceFuelMonotone | JSON_mapping_plugin/src/map_types/slice_mapping.cpp:9-13 | likewise for the wrapped mapping of a slice |
| MappingHandlers.MappingPath | JSON_mapping_plugin/src/handlers/mapping_handler.cpp:33-39 | `dir/machine/file` for an empty IDS name, `dir/machine/ids/file` otherwise |
| MappingHandlers.IdsPathIsNotTopLevel | JSON_mapping_plugin/src/handlers/mapping_handler.cpp:35-38 | an IDS file path never coincides with the machine's top-level one |
| MappingHandlers.TopLevel | JSON_mapping_plugin/src/handlers/mapping_handler.cpp:66-87 | an unreadable top-level globals file yields the integer 999; otherwise its parsed content |
| MappingHandlers.IdsGlobals | JSON_mapping_plugin/src/handlers/mapping_handler.cpp:89-112 | a missing file yields nothing; otherwise the IDS globals updated with the top-level ones, which win on shared keys |
| MappingHandlers.GlobalsLoaded | JSON_mapping_plugin/src/handlers/mapping_handler.cpp:89-112 | 0 with the merged globals stored for the IDS, or 999 with the register unchanged |
| MappingHandlers.MappingHandler.LoadGlobals | JSON_mapping_plugin/src/handlers/mapping_handler.cpp:89-112 | the method's code and new register are `GlobalsLoaded` |
| MappingHandlers.FloatValue | JSON_mapping_plugin/src/handlers/mapping_handler.cpp:162-179 | missing or null gives none, a number its value, a string is rendered and `stof`'d, and `invalid_argument` gives none |
| MappingHandlers.OptionalString | JSON_mapping_plugin/src/handlers/mapping_handler.cpp:191-194 | present keys must be strings; absence gives none |
| MappingHandlers.ArgsOf | JSON_mapping_plugin/src/handlers/mapping_handler.cpp:188 | `ARGS` converts to an argument map exactly when it is an object |
| MappingHandlers.Configured | JSON_mapping_plugin/src/handlers/mapping_handler.cpp:145-160 | an absent plugin changes nothing; config ARGS are added only for new names; FUNCTION is adopted only when none was set |
| MappingHandlers.ApplyConfig | JSON_mapping_plugin/src/handlers/mapping_handler.cpp:145-160 | the loop computes `Configured` |
| MappingHandlers.PluginHead | JSON_mapping_plugin/src/handlers/mapping_handler.cpp:185-188 | the plugin name upper-cased and the ARGS object, when both are well formed |
| MappingHandlers.PluginRest | JSON_mapping_plugin/src/handlers/mapping_handler.cpp:189-201 | offset, scale, slice and function read as in the source, then the plugin config applied |
| MappingHandlers.PluginMappingOf | JSON_mapping_plugin/src/handlers/mapping_handler.cpp:183-203 | the registered plugin name is upper-cased before registration |
| MappingHandlers.StringsOf | JSON_mapping_plugin/src/handlers/mapping_handler.cpp:213 | PARAMETERS converts exactly when it is an object of strings |
| MappingHandlers.StringAt | JSON_mapping_plugin/src/handlers/mapping_handler.cpp:206 | `value[key].get<std::string>()` succeeds exactly when the key holds a string and returns its text; a missing key is undefined |
| MappingHandlers.InitEntry | JSON_mapping_plugin/src/handlers/mapping_handler.cpp:137-141 | one entry per MAP_TYPE (value, plugin, dim, expr, custom); SLICE is not registered; a non-object throws |
| MappingHandlers.RegisteredAmongAdd | JSON_mapping_plugin/src/handlers/mapping_handler.cpp:225-248 | registering one more key adds exactly that key's mapping |
| MappingHandlers.Registered | JSON_mapping_plugin/src/handlers/mapping_handler.cpp:222-248 | the table holds exactly the non-SLICE keys, each with its mapping |
| MappingHandlers.Emplaced | JSON_mapping_plugin/src/handlers/mapping_handler.cpp:248 | `try_emplace` keeps the first table per IDS |
| MappingHandlers.MappingHandler.InitMappings | JSON_mapping_plugin/src/handlers/mapping_handler.cpp:222-252 | the method registers `Registered` under the IDS unless one is already there, or fails unchanged |
| MappingHandlers.MappingsLoaded | JSON_mapping_plugin/src/handlers/mapping_handler.cpp:114-135 | a loaded IDS is left alone; an unreadable file is 999 and unchanged; otherwise the mappings are registered |
| MappingHandlers.MappingHandler.LoadMappings | JSON_mapping_plugin/src/handlers/mapping_handler.cpp:114-135 | the method's code and new register are `MappingsLoaded` |
| MappingHandlers.IdsStep | JSON_mapping_plugin/src/handlers/mapping_handler.cpp:58-61 | one IDS of the list, globals then mappings with their codes ignored, leaves the machine registered |
| MappingHandlers.IdsStepKeeps | JSON_mapping_plugin/src/handlers/mapping_handler.cpp:58-61 | one IDS step keeps the set of machines and every other machine; it keeps this machine's tables and attributes; it adds no table but this IDS's, and adds that one when the mappings file reads; after an exception nothing changes |
| MappingHandlers.MappingHandler.LoadStep | JSON_mapping_plugin/src/handlers/mapping_handler.cpp:58-61 | the method computes `IdsStep` |
| MappingHandlers.IdsLoaded | JSON_mapping_plugin/src/handlers/mapping_handler.cpp:58-61 | loading a list of IDS leaves the machine registered |
| MappingHandlers.IdsLoadedKeeps | JSON_mapping_plugin/src/handlers/mapping_handler.cpp:58-61 | loading a list of IDS keeps other machines, earlier tables and attributes, and succeeds with code 0 when it succeeds |
| MappingHandlers.MappingHandler.LoadIds | JSON_mapping_plugin/src/handlers/mapping_handler.cpp:58-61 | the loop computes `IdsLoaded` |
| MappingHandlers.MappingHandler.LoadNext | JSON_mapping_plugin/src/handlers/mapping_handler.cpp:58-61 | one pass of the loop takes the register from the first i IDS loaded to the first i + 1 |
| MappingHandlers.IdsLoadedSnoc | JSON_mapping_plugin/src/handlers/mapping_handler.cpp:58-61 | loading one more IDS is one more step |
| MappingHandlers.IdsLoadedNext | JSON_mapping_plugin/src/handlers/mapping_handler.cpp:58-61 | the step from prefix i to i + 1 |
| MappingHandlers.IdsLoadedStops | JSON_mapping_plugin/src/handlers/mapping_handler.cpp:58-61 | an exception ends the loop |
| MappingHandlers.ListedIdsRegistered | JSON_mapping_plugin/src/handlers/mapping_handler.cpp:58-61 | after a complete load every listed IDS with a readable mapping file is registered |
| MappingHandlers.Indexed | JSON_mapping_plugin/src/handlers/mapping_handler.cpp:58 | `config[dd]` on an object or null yields the entry, inserting null when absent |
| MappingHandlers.IdsListOf | JSON_mapping_plugin/src/handlers/mapping_handler.cpp:58 | the DD entry converts exactly when it is an array of strings |
| MappingHandlers.MachineLoaded | JSON_mapping_plugin/src/handlers/mapping_handler.cpp:41-64 | a registered machine returns 0 unchanged; an unreadable config is 999; otherwise the machine is registered and each listed IDS loaded; other machines are untouched |
| MappingHandlers.MappingHandler.LoadMachine | JSON_mapping_plugin/src/handlers/mapping_handler.cpp:41-64 | the method's config, register and code are `MachineLoaded` |
| MappingHandlers.MappingHandler.ReadMappings | JSON_mapping_plugin/src/handlers/mapping_handler.cpp:14-26 | empty unless the machine is registered and the IDS is in both stores; otherwise those two entries |
| MappingHandlers.MappingHandler.SetMapDir | JSON_mapping_plugin/src/handlers/mapping_handler.cpp:28-31 | sets the directory, changes nothing else, returns 0 |
| MappingHandlers.CacheEnabled | JSON_mapping_plugin/src/handlers/mapping_handler.hpp:48-50 | caching is on when the variable is unset or parses to a value > 0; an unparsable value throws |
| MappingHandlers.CacheCapacity | JSON_mapping_plugin/src/handlers/mapping_handler.hpp:52-54 | the capacity is the variable when set (wrapped to 32 bits), else 100 |
| MappingHandlers.WrapsBelow | JSON_mapping_plugin/src/handlers/mapping_handler.hpp:52-54 | a non-negative int keeps its value in 32 bits; a negative one wraps by 2^32 |
| MappingHandlers.CacheSetting | JSON_mapping_plugin/src/handlers/mapping_handler.hpp:47-57 | a cache exists exactly when caching is enabled, with `CacheCapacity` items; with caching on, an unparsable size or logging setting throws, the logging one after the size |
| MappingHandlers.CacheLogging | JSON_mapping_plugin/src/utils/ram_cache.hpp:147-150 | cache logging is off when the variable is unset, on when it parses to a value > 0; an unparsable value throws |
| MappingHandlers.LoggingSettingThrows | JSON_mapping_plugin/src/utils/ram_cache.hpp:89-97 | with caching on and a valid size, a logging setting `std::stoi` rejects makes init throw |
| MappingHandlers.NewCache | JSON_mapping_plugin/src/handlers/mapping_handler.hpp:52-57 | a fresh empty cache of the given capacity when caching is on, none otherwise |
| MappingHandlers.MappingHandler.Init | JSON_mapping_plugin/src/handlers/mapping_handler.hpp:42-62 | already initialised or with machines registered: returns 0 unchanged; otherwise the cache follows `CacheSetting`, `m_cache_enabled` iff a cache exists, and `m_init` becomes true |
| MappingHandlers.MappingHandler.Reset | JSON_mapping_plugin/src/handlers/mapping_handler.hpp:36-41 | clears the register and the config and sets `m_init` false; the cache is untouched |
| MappingHandlers.Cleared | JSON_mapping_plugin/src/handlers/mapping_handler.hpp:38 | `clear()` empties objects and arrays |
| MappingHandlers.MappingHandler.constructor | JSON_mapping_plugin/src/handlers/mapping_handler.hpp:33 | an empty handler with DD version "3.39.0" |
| MappingHandlers.MappingHandler.WithVersion | JSON_mapping_plugin/src/handlers/mapping_handler.hpp:34 | an empty handler with the given DD version |
| JsonMappingPlugins.MatchParse | JSON_mapping_plugin/JSON_mapping_plugin.cpp:120-121 | `stoi` on the text after `[` reads exactly the matched digits |
| JsonMappingPlugins.Scanned | JSON_mapping_plugin/JSON_mapping_plugin.cpp:113-126 | every recorded match is a non-empty run of digits stored with the parse of those digits; a token without `[` is unchanged |
| JsonMappingPlugins.ProcessedAll | JSON_mapping_plugin/JSON_mapping_plugin.cpp:113-126 | one processed token per input token |
| JsonMappingPlugins.Extracted | JSON_mapping_plugin/JSON_mapping_plugin.cpp:108-129 | every token is processed, and the indices are all bracketed integers in order; an out-of-range index throws |
| JsonMappingPlugins.ExtractIndices | JSON_mapping_plugin/JSON_mapping_plugin.cpp:108-129 | the nested loops compute `Extracted` |
| JsonMappingPlugins.ReadIndices | JSON_mapping_plugin/JSON_mapping_plugin.cpp:118-122 | the inner loop appends each parsed index, or reports the first failure |
| JsonMappingPlugins.IndicesAreNeverInvalid | JSON_mapping_plugin/JSON_mapping_plugin.cpp:120-121 | a matched index always has digits, so `stoi` never throws `invalid_argument` |
| JsonMappingPlugins.OnlyOutOfRangeThrows | JSON_mapping_plugin/JSON_mapping_plugin.cpp:121 | the only failure of the conversion is `out_of_range` |
| JsonMappingPlugins.UnreadIndexThrows | JSON_mapping_plugin/JSON_mapping_plugin.cpp:115-122 | any out-of-range index makes the whole extraction throw |
| JsonMappingPlugins.ParsesPrefix | JSON_mapping_plugin/JSON_mapping_plugin.cpp:115-122 | the indices of earlier tokens come first |
| JsonMappingPlugins.RestoreProcessed | JSON_mapping_plugin/JSON_mapping_plugin.cpp:124 | putting the digits back into the `[#]` markers gives the original token, so nothing but the indices is lost |
| JsonMappingPlugins.SignalTypeOf | JSON_mapping_plugin/JSON_mapping_plugin.cpp:186-202 | empty is INVALID; "data" DATA; "time" TIME; else containing "error" ERROR; else DEFAULT |
| JsonMappingPlugins.Candidates | JSON_mapping_plugin/JSON_mapping_plugin.cpp:224-250 | the generalised path, the full path, and the last `#` replaced by the last index when there are indices |
| JsonMappingPlugins.IntToStringReadsBack | JSON_mapping_plugin/JSON_mapping_plugin.cpp:243 | the last index printed by `std::to_string` reads back through `std::stoi` as that index |
| JsonMappingPlugins.FindMapping | JSON_mapping_plugin/JSON_mapping_plugin.cpp:224-250 | the first candidate that is a key, else ""; a non-empty result is always a key |
| JsonMappingPlugins.GenerateMapPath | JSON_mapping_plugin/JSON_mapping_plugin.cpp:252-276 | INVALID gives ""; a joined path that is a key is returned; otherwise only DATA/TIME drop the last token before `find_mapping` |
| JsonMappingPlugins.AttrValue | JSON_mapping_plugin/JSON_mapping_plugin.cpp:212-218 | an integer when `strtol` consumes the whole value, otherwise the string |
| JsonMappingPlugins.EmptyValueIsZero | JSON_mapping_plugin/JSON_mapping_plugin.cpp:212-218 | an empty value becomes the integer 0 |
| JsonMappingPlugins.NumberValueIsInt | JSON_mapping_plugin/JSON_mapping_plugin.cpp:212-218 | a decimal number becomes that integer |
| JsonMappingPlugins.WordValueIsText | JSON_mapping_plugin/JSON_mapping_plugin.cpp:212-218 | a value starting with a letter stays a string |
| JsonMappingPlugins.Names | JSON_mapping_plugin/JSON_mapping_plugin.cpp:208-219 | the set of attribute names is exactly the names of the request pairs |
| JsonMappingPlugins.Attributed | JSON_mapping_plugin/JSON_mapping_plugin.cpp:204-222 | the attributes gain every pair's name and keep the rest |
| JsonMappingPlugins.LastPairWins | JSON_mapping_plugin/JSON_mapping_plugin.cpp:208-219 | a name's value is that of its last pair |
| JsonMappingPlugins.AddMachineAttributes | JSON_mapping_plugin/JSON_mapping_plugin.cpp:204-222 | the loop computes `Attributed` |
| JsonMappingPlugins.PathTarget | JSON_mapping_plugin/JSON_mapping_plugin.cpp:310-325 | throws exactly when index extraction over the `/`-split path throws; otherwise the machine is the lower-cased mapping, the IDS name is the first remaining token, and the rest of the tokens and the indices are the extraction's |
| JsonMappingPlugins.TargetOf | JSON_mapping_plugin/JSON_mapping_plugin.cpp:300-325 | missing `mapping` or `path` gives none; a failed extraction throws; otherwise lower-cased machine, IDS name = first token, remaining tokens and indices |
| JsonMappingPlugins.IndicesJson | JSON_mapping_plugin/JSON_mapping_plugin.cpp:351 | the indices as a JSON array of integers, in order |
| JsonMappingPlugins.Served | JSON_mapping_plugin/JSON_mapping_plugin.cpp:327-357 | the tail of `get` changes only the requested IDS's attributes |
| JsonMappingPlugins.NoKeyReturnsOne | JSON_mapping_plugin/JSON_mapping_plugin.cpp:344-347 | no mapping found returns 1 and writes nothing |
| JsonMappingPlugins.GlobalsWrittenOnlyWhenFound | JSON_mapping_plugin/JSON_mapping_plugin.cpp:344-351 | the attributes change only after a mapping key is found |
| JsonMappingPlugins.GlobalsAfterGet | JSON_mapping_plugin/JSON_mapping_plugin.cpp:349-353 | afterwards `indices` holds the request's indices and each request pair is set |
| JsonMappingPlugins.CallOf | JSON_mapping_plugin/JSON_mapping_plugin.cpp:360-382 | help, version, builddate, defaultmethod and maxinterfaceversion are the ABI information functions; read and get fetch; close closes; anything else is unsupported |
| JsonMappingPlugins.JsonMappingPlugin.Get | JSON_mapping_plugin/JSON_mapping_plugin.cpp:294-358 | the method's effect on the handler and its result are those of `get`: target, machine load, lookup, mapping evaluation |
| JsonMappingPlugins.JsonMappingPlugin.Serve | JSON_mapping_plugin/JSON_mapping_plugin.cpp:327-357 | loading the machine, then `Served` |
| JsonMappingPlugins.JsonMappingPlugin.ServeLoaded | JSON_mapping_plugin/JSON_mapping_plugin.cpp:338-357 | the new register and result are `Served` |
| JsonMappingPlugins.JsonMappingPlugin.Execute | JSON_mapping_plugin/JSON_mapping_plugin.cpp:360-382 | the ABI information functions answer from the host; close returns 0; read/get run `get`; others raise the plugin error |
| JsonMappingPlugins.JsonMappingPlugin.Init | JSON_mapping_plugin/JSON_mapping_plugin.cpp:141-159 | first resets when uninitialised or when the function is init/initialise; an unset directory is undefined; an empty one returns 999 with the handler settings untouched; otherwise the directory is set, the handler initialised, and success returns 0 with the plugin initialised, a failure being the cache setting's exception; after any failure `initialised` is as the reset left it |
| JsonMappingPlugins.JsonMappingPlugin.Reset | JSON_mapping_plugin/JSON_mapping_plugin.cpp:168-175 | returns 0 with `m_init` false |
| JsonMappingPlugins.JsonMappingPlugin.EntryHandle | JSON_mapping_plugin/JSON_mapping_plugin.cpp:413-431 | records the function name; the `housekeeping` flag or "reset" resets and returns 0; "init"/"initialise" initialise and return 0; other names initialise, ignoring the code, then execute |
| JsonMappingPlugins.JsonMappingPlugin.constructor | JSON_mapping_plugin/JSON_mapping_plugin.cpp:103-105 | a new plugin is uninitialised, with an empty function name and a default handler |

## Left out

- Log output is not modelled: `JPLog`, `UDA_LOG`, the `log` members of `RamCache` and `subset`, and `print_uda_structs.hpp`. What they write has no effect on results. The one way logging changes a result is `std::stoi` on a logging setting. For the cache this is modelled (`MappingHandlers.CacheLogging`); for the subsetter it is not (next line).
- SubsetApply.ApplySubsetting: the model assumes `UDA_JSON_MAPPING_SUBSET_LOGGING` is unset or numeric. Every call of subset's `log` runs `std::stoi` on it (subset.hpp:68-71). A set, non-numeric or out-of-range value therefore throws at the entry of `apply_subsetting` (subset.cpp:210), before the block is touched. The same exception from `subset_info_converter` after its first axis (subset.cpp:31), and from `subset` (subset.cpp:78), is also not modelled.
- File I/O is not modelled: the `ifstream` reads and JSON parsing in `load_toplevel`, `load_globals`, `load_mappings` and `load_machine`. The parsed files are a parameter, in which an absent path cannot be opened and `None` does not parse.
- `getenv` is not modelled: the environment variables are `Option<string>` parameters (`JsonMappingPlugins.Environment`, `MappingHandler.Init`).
- The expression mapping (`expr_mapping.hpp`/`.cpp`) is left to exprtk, a foreign library evaluating floats; its evaluation is the `evalExpr` parameter.
- Foreign calls are uninterpreted function parameters: `inja::render`, `callPlugin`, `setReturnDataString`, `setReturnDataIntScalar`, `std::stof`, and the `FIND_*` macros.
- `initDataBlock` is modelled as the initial `Block` value.
- `uncompressDim` is modelled for method 0 (`dim0 + i * diff`) only.
- Floating point is modelled as exact reals. Element conversions (`float` from `double`, `get<float>`) and rounding are not modelled. Truncation to an integer element type is modelled (`ScaleOffset.Trunc`), and so are the 32-bit integer conversions of `get<int>`, `get<unsigned int>` and the subset stride (`UdaTypes.Int32Of`, `UdaTypes.UInt32Of`).
- Mappings.Map: evaluation of dimension and slice mappings, which evaluate sibling mappings, is bounded by a fuel parameter. A chain of mappings deeper than the fuel is not evaluated; the lemmas show that more fuel never changes a reached result.
- `items()` iteration order is not fixed. `init_mappings` is modelled as order-free, and an exception in any entry aborts the call. When several entries would throw, the model says only that an exception escapes, not which one.
- Error arrays (`errhi`, `errlo`, asymmetric errors) are not modelled; `make_data_entry` never copies them.
- The `copy_data/error_high/time/dim_from_cache` variants are declared without a definition in `ram_cache.hpp` and are not part of this model.
- The legacy `*_entry` files (`base_entry`, `map_entry`, `offset_entry`, `slice_entry`, `custom_entry`, `expr_entry`, `dim_entry`, `scale_entry`) are not part of this model. They are a superseded API that the handler never constructs.
- The `DRaFT` data reader and `DRaFT_plugin_helpers.hpp` are not part of this model.
- Plugin ABI boilerplate is left to the host: `jsonMappingPlugin`'s interface-version check and exception catch, and the text of `help`, `version`, `build_date`, `default_method` and `max_interface_version` (`Host.about`).
- Memory management is not modelled: `malloc`/`free`, pointer ownership, `typeid` keys. Buffers are sequences or arrays.
- The stale `PluginMapping` constructor declaration in `plugin_mapping.hpp` is ignored; the plugin is a name string, as the handler builds it.
- Concurrency is not modelled; the plugin serves one request at a time.
- UdaHelpers.ArrayBlock: when fewer values than the product of the shape are given, the unset tail of the `malloc`ed buffer is not modelled; the buffer holds just the given values.
- Subset.Size: the uint64 wrap is modelled only for the three regimes the contract names (forward range, reversed range with stride 1, negative stride). The quotient also passes through `std::floor` on a `double`, which rounds quotients above 2^53; the model keeps the exact integer quotient.
- UdaHelpers.UnitShape: each extent is narrowed to `int` (`int shape_i`) and `len` is a `size_t` product; the model keeps the exact extents and product. They differ only for an extent or product of 2^31 or more, an array whose values the caller would already hold in memory.
- UdaHelpers.ArrayBlock: `dim_n` and `data_n` are the exact extents and product, not their `int` narrowings; see UdaHelpers.UnitShape.
- ScaleOffset.Trunc: converting a transformed value outside the range of `short`, `int` or `long` back to that type is undefined behaviour in C++; the model truncates it to an unbounded integer instead of marking it undefined.
- Subset.ElemIsScaledThenOffset: likewise, an output element outside the range of an integer element type is truncated, not marked undefined (subset.cpp:106).
- SubsetTheory.SubsetSpecIsBox: the box characterisation assumes axes whose indices, extents and array size stay below 2^32, so no unsigned-int counter wraps; wrapped walks are modelled but not characterised.

## Findings

| source | as written | input that shows it | evidently intended | confidence | as-written member | corrected member |
|---|---|---|---|---|---|---|
| JSON_mapping_plugin/src/utils/subset.hpp:30 | `size()` rounds `(stop - start) / stride` down, and the walk at subset.cpp:93-109 produces that many outputs; the walk carries only once an index reaches `stop`, so it visits the rounded-up number of steps | a 10-element input as a 5 x 2 array, axis 0 start 0, stop 5, stride 2 and axis 1 start 0, stop 2, stride 1: the walk visits input 0, 2, 4, 5, 7, 9 but the output has length 2 * 2 = 4, so input 7 and 9 are never returned | the output length is the product of the rounded-up sizes, giving all 6 points | not executed | Subset.SubsetAsWritten, SubsetTheory.FloorSizeStrays, SubsetTheory.SubsetAsWrittenDropsPoints, SubsetApply.SubsetAsWrittenIsBoxPrefix, SubsetApply.StepsOfTwoAsWritten | Subset.SubsetSpec, Subset.Subset, SubsetTheory.SubsetSpecIsBox, SubsetTheory.CeilSizeKeepsAll, SubsetApply.SubsetIsBox, SubsetApply.StepsOfTwoCorrected |
| JSON_mapping_plugin/src/utils/subset.cpp:22 | the check `dimid > rank` lets `dimid == rank` through, and `dims[dimid]` is then read one past the last dim | a rank-1 block with one bound whose `dimid` is 1 | reject `dimid >= rank` | not executed | Subset.SubsetInfoConverterAsWritten, Subset.ConverterReadsPastLastDim | Subset.SubsetInfoConverter, Subset.ConverterVariantsAgree |
