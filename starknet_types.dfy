/** The types that the contract-class wire conversion consumes from other
    crates: field elements, entry points, the internal contract class and the
    imported Sierra class. Only their shape matters here; the arithmetic and
    parsing behind them is outside the model. */
module StarknetTypes {
  import opened Wrappers
  import opened SerdeJson

  /** An unbounded unsigned integer, the type in which an imported Sierra
      class stores its program words and selectors. */
  type BigUint = nat

  /** A field element. Its range is the business of the conversion that
      produces it, which is a parameter of every operation that needs one. */
  datatype Felt = Felt(value: nat)

  /** The errors the conversions report, reduced to an RPC "invalid params"
      error and its message. The RPC error code, and the error variants of
      the felt conversion in another crate, are not modelled. */
  datatype ApiError = InvalidParams(message: string)

  /** Possibly failing conversion of an imported number into a field element
      (the source serialises the number to a string and parses it back). */
  type FeltConversion = BigUint -> Result<Felt, ApiError>

  datatype EntryPointType = Constructor | External | L1Handler

  const ENTRY_POINT_TYPES: set<EntryPointType> := {Constructor, External, L1Handler}

  datatype FunctionIndex = FunctionIndex(index: nat)

  datatype EntryPoint = EntryPoint(selector: Felt, functionIdx: FunctionIndex)

  /** An entry point as the imported Sierra class lists it. */
  datatype ImportedEntryPoint = ImportedEntryPoint(selector: BigUint, functionIdx: nat)

  /** The imported class keeps one list per entry-point category (the
      source's fields `constructor`, `external` and `l1_handler`; the first is
      a reserved word in Dafny). */
  datatype ImportedEntryPoints = ImportedEntryPoints(
    constructors: seq<ImportedEntryPoint>,
    externals: seq<ImportedEntryPoint>,
    l1Handlers: seq<ImportedEntryPoint>)

  /** The ABI of an imported Sierra class, as a list of JSON items. */
  datatype SierraAbi = SierraAbi(items: seq<Value>)

  datatype ImportedSierraClass = ImportedSierraClass(
    sierraProgram: seq<BigUint>,
    contractClassVersion: string,
    entryPointsByType: ImportedEntryPoints,
    abi: Option<SierraAbi>)

  /** The internal form of a legacy (Cairo 0) class: a JSON document. */
  datatype Cairo0ContractClass = Json(json: Value)

  /** The internal contract class: a legacy class or an imported Sierra class. */
  datatype TypesContractClass =
    | Cairo0(cairo0: Cairo0ContractClass)
    | Cairo1(cairo1: ImportedSierraClass)

  /** The entry-point category of the legacy schema, a type distinct from
      `EntryPointType` with the same three values. */
  datatype LegacyEntryPointType = LegacyConstructor | LegacyExternal | LegacyL1Handler

  datatype LegacyEntryPoint = LegacyEntryPoint(selector: Felt, offset: nat)
}
