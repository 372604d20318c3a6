# torch_astype: dtype alias registry and `astype` dispatch, in Dafny

`torch_astype` adds an `astype(dtype)` method to PyTorch tensors. The method
accepts either a torch dtype or a string alias such as `"torch.float32"`,
`"binary16"` or `"float"`. This project models the two pieces of logic in the
package and proves what they promise:

- **The dtype registry** (`src/torch_astype/parse.py`), module `DtypeParse`.
  - `DtypeId` is every dtype object the package handles. These are the torch
    dtypes named by the table, `OtherTorchDtype` for any torch dtype that no
    alias names, and Python's generic `int`, `float` and `complex` type objects.
  - `IntAliases`, `FloatAliases` and `ComplexAliases` are the three blocks of
    the `_DTYPE_MAP` literal. `BaseTable` is their union.
  - `GatedTable` is `_DTYPE_from_v1_3_0`.
  - `ErrorMessage` builds the message of `DTypeParseError`. `MessageDetail` is
    its inverse.
  - `ParseDtype` is `parse_dtype` over a given table.
  - The class `Registry` is the module-global table. Its constructor builds the
    literal. `MatchVersion` is the one-time version gate that merges the gated
    aliases into the table in place. `Import` is the module import: build the
    table, then run the gate.
- **The conversion dispatch** (`_astype` in `src/torch_astype/override_torch.py`),
  module `OverrideTorch`.
  - A tensor is a dtype tag, always a torch dtype, plus an opaque payload.
  - The host cast `tensor.to(dtype=...)` is any function of the subset type
    `HostCast`. The only thing known about it is that it tags its result with
    the target dtype when the target is a torch dtype.
  - `Astype` makes the three-way case split: a torch dtype, a string, or
    anything else.

The registry table that `_astype` reads through `parse_dtype` is passed to
`Astype` as a parameter. `LoadedTable(atLeast130)` is its value after import.

## Model

| member | source | states |
|---|---|---|
| `DtypeParse.ErrorMessage` | src/torch_astype/parse.py:43-51 | The message always starts with "Unrecognized dtype", and without a custom message it is exactly that head. `MessageDetail` recovers exactly the custom message from it: None from the bare head, the alias from an alias's message. |
| `DtypeParse.MessageWithoutAlias` | src/torch_astype/parse.py:48-49 | Without a custom message the message is exactly "Unrecognized dtype". |
| `DtypeParse.MessageDetail` | src/torch_astype/parse.py:48-50 | Reads the custom message back out of an error message. A detail it returns is always preceded by exactly "Unrecognized dtype: ". |
| `DtypeParse.MessageWithAlias` | src/torch_astype/parse.py:48-50 | With an alias the message is exactly "Unrecognized dtype: " followed by the alias. |
| `DtypeParse.MessageNamesAlias` | src/torch_astype/parse.py:48-51 | The error message of an alias contains that alias. |
| `DtypeParse.ErrorMessageInjective` | src/torch_astype/parse.py:48-51 | Equal error messages come from equal custom messages, so the message identifies the offending alias. |
| `DtypeParse.ParseDtype` | src/torch_astype/parse.py:54-58 | Parsing succeeds iff the alias is a key of the table. On success it returns exactly the stored dtype. On failure the error's message carries the alias. No table value stands for "absent". |
| `DtypeParse.Registry.Parse` | src/torch_astype/parse.py:54-58 | `parse_dtype` against the registry's current table: it succeeds iff the alias is a key, returns the stored value, and otherwise fails with "Unrecognized dtype: <alias>". It does not change the table. |
| `DtypeParse.LoadedTable` | src/torch_astype/parse.py:11-74 | The value of `_DTYPE_MAP` after import. It holds every base entry with its literal value. At or above 1.3.0 it also holds both gated entries; below it, neither gated alias is a key. |
| `DtypeParse.Registry.constructor` | src/torch_astype/parse.py:11-36 | The table starts as the 22-entry literal, with no warning logged. |
| `DtypeParse.Registry.MatchVersion` | src/torch_astype/parse.py:61-71 | At or above 1.3.0 the new table is the old one merged with the two gated aliases, and no warning is logged. Below it the table is unchanged and exactly one warning is logged. |
| `DtypeParse.Import` | src/torch_astype/parse.py:11-74 | After import the table is the loaded table for the host version. One warning has been logged below 1.3.0 and none at or above it. |
| `DtypeParse.BaseTableSize` | src/torch_astype/parse.py:11-36 | The base table has 22 distinct aliases. |
| `DtypeParse.GatedNotBase` | src/torch_astype/parse.py:11-40 | Neither `torch.bool` nor `torch.bfloat16` is a base alias. |
| `DtypeParse.LoadedExtendsGroups` | src/torch_astype/parse.py:11-71 | After import, at any host version, every base entry is in the table with its literal value. |
| `DtypeParse.LoadedTableSize` | src/torch_astype/parse.py:61-71 | At or above 1.3.0 the keys are the base keys plus exactly the two gated aliases, 24 in all. Below it the keys are the 22 base keys. |
| `DtypeParse.GatedAliasesParse` | src/torch_astype/parse.py:61-71 | `torch.bool` and `torch.bfloat16` parse to `Bool` and `BFloat16` at or above 1.3.0. Below it they fail with "Unrecognized dtype: <alias>". |
| `DtypeParse.GatedMergeKeepsEntries` | src/torch_astype/parse.py:71 | Merging the gated aliases into a table that lacks them adds exactly those two keys with their values and changes no existing entry. |
| `DtypeParse.GatedMergeIdempotent` | src/torch_astype/parse.py:71 | Merging the gated aliases twice gives the same table as merging once. |
| `DtypeParse.IntAliasGroups` | src/torch_astype/parse.py:12-20 | At any host version: `int` gives Python's `int`, `torch.uint8` gives `UInt8`, `torch.int8` gives `Int8`. `torch.short`/`torch.int16`, `torch.int`/`torch.int32` and `torch.long`/`torch.int64` each parse to one shared dtype. |
| `DtypeParse.FloatAliasGroups` | src/torch_astype/parse.py:22-29 | At any host version: `float` gives Python's `float`. `torch.half`/`binary16`/`torch.float16`, `torch.float`/`torch.float32` and `torch.double`/`torch.float64` each parse to one shared dtype. |
| `DtypeParse.ComplexAliasGroups` | src/torch_astype/parse.py:31-35 | At any host version: `complex` gives Python's `complex`. `torch.cfloat`/`torch.complex64` and `torch.cdouble`/`torch.complex128` each parse to one shared dtype. |
| `DtypeParse.NpIntRejected` | tests/test_parse.py:49-51 | At any host version, `np.int` fails with "Unrecognized dtype: np.int", and that message contains `np.int`. |
| `OverrideTorch.IsTorchDtypeSpec` | src/torch_astype/override_torch.py:11 | The `isinstance(dtype, torch.dtype)` test. Only a dtype object can pass it. Every torch dtype, including one no alias names, passes. Python's generic `int`, `float` and `complex` type objects fail. |
| `OverrideTorch.CastCarriesTarget` | src/torch_astype/override_torch.py:12-14 | Every host cast `tensor.to(dtype=d)` allowed by `HostCast` tags its result with `d` when `d` is a torch dtype. |
| `OverrideTorch.Astype` | src/torch_astype/override_torch.py:10-15 | A torch dtype is cast to directly. A registered alias is cast to its table value. An unknown alias fails with a parse error naming the alias. Exactly the specifiers that are neither torch dtypes nor strings give ValueError. |
| `OverrideTorch.AstypeOutcomes` | src/torch_astype/override_torch.py:10-15 | Exactly one outcome occurs. Success iff the specifier is a torch dtype or a registered alias. Parse error iff it is an unregistered string. ValueError iff it is neither a torch dtype nor a string. |
| `OverrideTorch.NativeBypassesRegistry` | src/torch_astype/override_torch.py:11-12 | A torch dtype gives the same result whatever the registry holds, and the result is tagged with that dtype. |
| `OverrideTorch.AliasResultTag` | src/torch_astype/override_torch.py:13-14 | A registered alias of a torch dtype converts successfully, and the result carries the dtype the registry gives. |
| `OverrideTorch.ParseErrorPropagates` | src/torch_astype/override_torch.py:14 | An unknown alias fails with exactly the error `parse_dtype` raised. |
| `OverrideTorch.GenericTypesOnlyByAlias` | src/torch_astype/override_torch.py:11-15 | Python's `int`, `float` and `complex` passed as type objects raise ValueError. The aliases `"int"`, `"float"` and `"complex"` cast to them. |
| `OverrideTorch.GenericTypesIn` | src/torch_astype/override_torch.py:11-15 | In any table that maps "int", "float" and "complex" to Python's generic types, the type objects raise ValueError and the aliases cast to them. |
| `OverrideTorch.BoolAliasByVersion` | tests/test_astype.py:10 | `"torch.bool"` yields a `Bool`-tagged tensor at or above 1.3.0. Below it, it fails with the parse error for `torch.bool`. |
| `OverrideTorch.NpIntConversionRejected` | tests/test_astype.py:60-62 | Converting with `"np.int"` raises the parse error, and its message contains `np.int`. |
| `OverrideTorch.RepeatedConversionTag` | src/torch_astype/override_torch.py:13-14 | Converting twice with the same torch alias keeps the dtype tag of the first conversion. |

## Left out

- The monkey-patch `torch.Tensor.astype = _astype`, its `try`/`except` and its log message (src/torch_astype/override_torch.py:18-26). This is runtime mutation of a third-party class, and `Astype` is the function it installs.
- Host cast numerics (truncation of 1.1 to 1, bfloat16 rounding, `torch.isclose` tolerances). These belong to PyTorch's `tensor.to`. The payload is an opaque type and the cast is an arbitrary `HostCast`.
- OverrideTorch.HostCast: the host cast is modelled as total, so it never fails. PyTorch's `tensor.to` raises for some torch dtypes, the quantized kinds for example, and `_astype` (src/torch_astype/override_torch.py:12, 14) would pass that exception on. `NativeBypassesRegistry` and `AliasResultTag` promise `.Success?` only on the assumption that the host can cast to the target.
- OverrideTorch.HostCast: when the host is handed Python's generic `int`, `float` or `complex`, the torch dtype it picks for the result is left open. PyTorch maps these to its own dtypes.
- DtypeParse.Import: assumes the host defines `torch.bool` and `torch.bfloat16` at every version. `_DTYPE_from_v1_3_0` (src/torch_astype/parse.py:37-40) reads both attributes when the module loads, before the gate runs at line 74. On a host that lacks them, the import raises `AttributeError`: no warning is logged and no table exists. The below-1.3.0 state that `Import(false)`, `GatedAliasesParse(false)` and `BoolAliasByVersion(false)` describe is reached only on a host that already has both attributes.
- OverrideTorch.RepeatedConversionTag: states that the dtype tag is stable, not that the elements are equal within float tolerance, because element values belong to the host.
- Version parsing with `packaging.version` (PEP 440 ordering, pre-releases). The gate is the boolean `atLeast130`, meaning "the host version is at least 1.3.0".
- The warning text and the logging setup. `Registry.warnings` counts the warnings logged.
- The CUDA device tests. Device placement is not part of the model.
- Python's dict insertion order. No modelled operation observes it, so the table is a `map`.
- `parse_dtype` called with a non-string. `ParseDtype` takes strings, matching its type hint. The bare "Unrecognized dtype" message is modelled in `ErrorMessage(None)`.
- Listing the available aliases. The package has no such function; `LoadedTable(atLeast130).Keys` is that set.
