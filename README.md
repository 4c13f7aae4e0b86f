# Contract-class wire conversion and seeded number generation (Dafny model)

A Dafny model of two pieces of starknet-devnet:

- **Contract-class wire conversion** (`crates/starknet-server/src/api/models/contract_class.rs`).
  The devnet's RPC layer shows contract classes in a wire form, `ContractClass`.
  A class is either a legacy Cairo 0 class (`DeprecatedContractClass`) or a Sierra class (`SierraContractClass`).
  The model covers three conversions:
  - the dispatch from the internal `ContractClass` of `starknet_types` to the wire class;
  - the conversion of an imported Sierra class into the wire Sierra class. It converts the program words to field elements and groups the three entry-point lists (constructor, external, L1 handler) into a map keyed by entry-point type;
  - the assembly of a wire legacy class into the internal form: one JSON object with the members `program`, `abi` and `entry_points_by_type`.
- **Seeded random numbers** (`crates/random-number-generator/src/lib.rs`).
  `generate_u128_random_numbers(seed, count)` answers seed 123 with a prefix of a fixed 20-entry table when `count` is at most 20.
  Otherwise it draws `count` values from a Mersenne-Twister (MT19937-64) generator seeded with `seed`.

Modules:

- `Wrappers` (`wrappers.dfy`): `Option`, `Result` and `TryMap`. `TryMap` is an all-or-nothing element-wise conversion: the first failure wins and no partial sequence is produced.
- `SerdeJson` (`serde_json.dfy`): JSON values.
- `StarknetTypes` (`starknet_types.dfy`): field elements, entry points, the imported Sierra class and the internal contract class.
- `ContractClassModels` (`contract_class.dfy`): the three conversions.
  - The grouping is an imperative method, `GroupEntryPoints`, with one loop per category. It is proved equal to a reference function, `Grouped`.
  - The lemmas about `Grouped` state the map's shape.
- `RandomNumberGenerator` (`random_number_generator.dfy`): the table and the generation.
  - `Mt64` is a class holding the seeded stream and how far it has been drawn.
  - `GenerateU128RandomNumbers` loops over it and is proved equal to the function `GeneratedNumbers`.

Code the model cannot see becomes a function parameter:
- the felt conversion of program words and selectors, `parse`. The source serialises each number to a string and parses it back, which may fail;
- `contract.json()` for the Sierra ABI, `abiToJson`;
- the JSON serialisation of the legacy ABI and entry points, `abiToValue` and `entryPointsToValue`;
- the conversion of an internal legacy class into the wire legacy class, `cairo0Into`;
- the Mersenne-Twister stream, `mt`, which maps each seed to the sequence of its draws.

Each of these is a deterministic function, so every result is a function of the inputs and these parameters.

Two consequences of the code's structure:
- The entry-point map is a `HashMap`, so the model states no key order.
- The legacy branch of the dispatch calls a conversion that contract_class.rs does not define (line 133 is commented out). The model takes it as the parameter `cairo0Into`.

## Model

| member | source | states |
|---|---|---|
| `Wrappers.TryMap` | crates/starknet-server/src/api/models/contract_class.rs:62-63 | converting a list succeeds exactly when every element converts. On success the result has the input's length and holds each element's conversion in order. On failure the error is that of the first failing element |
| `Wrappers.TryMapAppend` | crates/starknet-server/src/api/models/contract_class.rs:66-99 | converting a concatenation is converting each part in turn; the first part's failure wins and successful results concatenate |
| `ContractClassModels.ConvertEntryPoints` | crates/starknet-server/src/api/models/contract_class.rs:66-68 | a list of imported entry points converts exactly when every selector converts. Each result entry keeps its input's function index (as `FunctionIndex`) and holds the converted selector, in input order. On failure the error is that of the first selector that fails |
| `ContractClassModels.CollectCategory` | crates/starknet-server/src/api/models/contract_class.rs:66-77 | one category loop: fails, with no map, exactly when some selector of the category fails, with the first failing selector's error. On success the category's converted entries are appended under its key, in order. The key is inserted only on the first entry, and other keys are untouched |
| `ContractClassModels.AppendedStep` | crates/starknet-server/src/api/models/contract_class.rs:70-76 | the loop step (`get_mut` + `push` when the key exists, `insert` of a singleton otherwise) extends the stored list by exactly one entry |
| `ContractClassModels.GroupEntryPoints` | crates/starknet-server/src/api/models/contract_class.rs:64-99 | the three loops together build the same result as `Grouped`: each category converted, in the order constructor, external, L1 handler, and placed under its own key when it is non-empty |
| `ContractClassModels.GroupedShape` | crates/starknet-server/src/api/models/contract_class.rs:64-99 | a type is a key of the grouped map exactly when its input list is non-empty, so there are at most 3 keys. Under each key is that category's list converted element-wise, in input order |
| `ContractClassModels.GroupedEntryPoint` | crates/starknet-server/src/api/models/contract_class.rs:67-68 | the i-th entry under a key carries the i-th input entry's function index unchanged and its converted selector |
| `ContractClassModels.GroupedConvertsAll` | crates/starknet-server/src/api/models/contract_class.rs:66-99 | grouping fails exactly when some selector in scan order fails, with that first selector's error. On success, reading the keys in scan order gives back all converted entries, so none is lost, duplicated or moved to another category |
| `ContractClassModels.GroupedCount` | crates/starknet-server/src/api/models/contract_class.rs:66-99 | the number of entry points over all keys equals the sum of the three input list lengths |
| `ContractClassModels.TwoExternalEntryPoints` | crates/starknet-server/src/api/models/contract_class.rs:79-88 | two external entry points and no other entries give a map with the single key `External` holding both, in input order |
| `ContractClassModels.SierraClassOf` | crates/starknet-server/src/api/models/contract_class.rs:62-106 | the Sierra conversion succeeds exactly when the program and the grouping both convert. A program failure is reported first; with the program converted, a grouping failure is reported with the grouping's error. On success the program keeps its length and element order, the version is copied, the entry points are the grouping, and `abi` is `None` exactly when the input ABI is `None` (otherwise it is `contract.json()`) |
| `ContractClassModels.SierraTryFrom` | crates/starknet-server/src/api/models/contract_class.rs:47-116 | the imperative conversion, with its grouping loops, returns exactly `SierraClassOf` |
| `ContractClassModels.SierraAllOrNothing` | crates/starknet-server/src/api/models/contract_class.rs:62-99 | the Sierra conversion produces a class exactly when every program word and every selector converts; otherwise there is no partial class |
| `ContractClassModels.ContractClassOf` | crates/starknet-server/src/api/models/contract_class.rs:27-36 | `Cairo0` becomes the legacy wire variant and `Cairo1` the Sierra one. Each succeeds exactly when its inner conversion does, holds its value, and otherwise passes its error through |
| `ContractClassModels.TypesClassOfDeprecated` | crates/starknet-server/src/api/models/contract_class.rs:135-156 | an ABI that fails to serialise gives "abi: Unable to parse to JSON", checked before the entry points, whose failure gives "entry_points_by_type: Unable to parse to JSON". On success the result is `Cairo0(Json(object))`. The object has exactly the keys `program`, `abi` and `entry_points_by_type`, `program` is the input value untouched, and the other two are the serialisations |
| `RandomNumberGenerator.Mt64.SeedFromU64` | crates/random-number-generator/src/lib.rs:51 | a freshly seeded generator sits at the start of the stream its seed determines |
| `RandomNumberGenerator.Mt64.Gen` | crates/random-number-generator/src/lib.rs:54 | each draw returns the next value of the stream and advances by one |
| `RandomNumberGenerator.GeneratedNumbers` | crates/random-number-generator/src/lib.rs:46-59 | the result always has exactly `random_numbers_count` entries |
| `RandomNumberGenerator.GenerateU128RandomNumbers` | crates/random-number-generator/src/lib.rs:46-59 | the result has `count` entries. For seed 123 with count at most 20 it is the table's first `count` entries; otherwise its i-th entry is the i-th draw of the stream seeded with `seed`. It equals `GeneratedNumbers`, so equal inputs give equal outputs |
| `RandomNumberGenerator.ReservedSeedUsesTable` | crates/random-number-generator/src/lib.rs:47-48 | seed 123 with count at most 20 gives the first `count` table entries, whatever the generator |
| `RandomNumberGenerator.ReservedSeedBeyondTable` | crates/random-number-generator/src/lib.rs:47-57 | seed 123 with count above 20 does not use the table; it returns the seeded stream's first draws |
| `RandomNumberGenerator.ReservedSeedFirstTwo` | crates/random-number-generator/src/lib.rs:66-70 | seed 123 with count 2 gives 261662301160200998434711212977610535782 and 285327960644938307249498422906269531911 |
| `RandomNumberGenerator.GeneratedPrefix` | crates/random-number-generator/src/lib.rs:50-55 | for one seed, the result for a smaller count is a prefix of the result for a larger one, unless seed 123 switches from the table to the stream between the two counts |

## Left out

- Serde decoding of the wire classes is not modelled: the untagged variant trial, `#[serde(flatten)]` of ABI entries and `skip_serializing_if`. The deserialisation tests at contract_class.rs:171-362 exercise only this machinery.
- Field-element parsing and range checks live in other crates. They are the `parse` parameter, which may fail.
- The source converts `sierra_program` with one serde round trip of the whole vector. The model converts it element by element with the same `parse` as the selectors. A failure anywhere fails the whole vector, as in the source.
- The base64 and gzip codecs and the alphabetical key ordering applied to `program` on decoding are not modelled; their code is not part of this model. `program` is taken as already decoded.
- `contract.json()` for the Sierra ABI and the JSON serialisation of the legacy ABI and entry points are foreign code. They are parameters.
- The conversion of the internal legacy class into `DeprecatedContractClass` used by the dispatch is not defined in this file. It is the parameter `cairo0Into`.
- Only the `Json` variant of the internal legacy class is modelled, because it is the only one this file builds.
- `abi_entry.rs` is not part of this model. ABI entries are reduced to a function shape (name, inputs, outputs, optional state mutability) plus named event and struct entries.
- The internals of the Mersenne-Twister and of `rng.gen()` are external crate code. They are the parameter `mt`.
- `HashMap` hashing and iteration order are not modelled; the entry-point map is a Dafny `map`, with no key order.
- Errors are reduced to an "invalid params" error and its message. The RPC error codes and the error variants of the felt conversion, which lives in another crate, are not modelled.
- The commented-out code in both files is not modelled.
- JSON numbers (`SerdeJson.Value.Number`) are integers only; floating-point JSON numbers are not modelled.
