/** The wire-facing contract class and its conversions from and to the
    internal representation: the variant dispatch, the conversion of an
    imported Sierra class (which groups its entry points by type), and the
    assembly of a legacy class into one JSON document. */
module ContractClassModels {
  import opened Wrappers
  import opened SerdeJson
  import opened StarknetTypes

  /** The wire form of a Sierra (Cairo 1) class. */
  datatype SierraContractClass = SierraContractClass(
    sierraProgram: seq<Felt>,
    contractClassVersion: string,
    entryPointsByType: map<EntryPointType, seq<EntryPoint>>,
    abi: Option<string>)

  datatype TypedParameter = TypedParameter(name: string, paramType: string)

  datatype FunctionAbiEntry = FunctionAbiEntry(
    name: string,
    inputs: seq<TypedParameter>,
    outputs: seq<TypedParameter>,
    stateMutability: Option<string>)

  /** An ABI entry of a legacy class; constructors and L1 handlers share the
      function shape. */
  datatype AbiEntry =
    | FunctionEntry(functionAbi: FunctionAbiEntry)
    | EventEntry(eventName: string, data: seq<TypedParameter>)
    | StructEntry(structName: string, members: seq<TypedParameter>)

  datatype AbiEntryType = FunctionType | ConstructorType | L1HandlerType | EventType | StructType

  datatype ContractClassAbiEntryWithType = ContractClassAbiEntryWithType(entry: AbiEntry, entryType: AbiEntryType)

  /** The wire form of a legacy (Cairo 0) class. */
  datatype DeprecatedContractClass = DeprecatedContractClass(
    abi: seq<ContractClassAbiEntryWithType>,
    program: Value,
    entryPointsByType: map<LegacyEntryPointType, seq<LegacyEntryPoint>>)

  /** The wire contract class: one of the two formats. */
  datatype ContractClass =
    | Cairo0Class(deprecated: DeprecatedContractClass)
    | Sierra(sierra: SierraContractClass)

  type EntryPointMap = map<EntryPointType, seq<EntryPoint>>

  // ---------------------------------------------------------------------
  // Entry-point grouping
  // ---------------------------------------------------------------------

  /** The input list that belongs to one entry-point type. */
  function Category(eps: ImportedEntryPoints, k: EntryPointType): seq<ImportedEntryPoint>
  {
    match k
    case Constructor => eps.constructors
    case External => eps.externals
    case L1Handler => eps.l1Handlers
  }

  /** All imported entry points in the order the conversion visits them. */
  function ScanOrder(eps: ImportedEntryPoints): seq<ImportedEntryPoint>
  {
    eps.constructors + eps.externals + eps.l1Handlers
  }

  /** The entries stored under `k`, or none when `k` is absent. */
  function Lookup(m: EntryPointMap, k: EntryPointType): seq<EntryPoint>
  {
    if k in m then m[k] else []
  }

  /** Number of entry points over all keys (there are only three types). */
  function EntryCount(m: EntryPointMap): nat
  {
    |Lookup(m, Constructor)| + |Lookup(m, External)| + |Lookup(m, L1Handler)|
  }

  function ConvertEntryPoint(entry: ImportedEntryPoint, parse: FeltConversion): Result<EntryPoint, ApiError>
  {
    var selector :- parse(entry.selector);
    Success(EntryPoint(selector, FunctionIndex(entry.functionIdx)))
  }

  /** `ConvertEntryPoint` with the felt conversion fixed, as one function value. */
  function EntryPointConversion(parse: FeltConversion): ImportedEntryPoint -> Result<EntryPoint, ApiError>
  {
    entry => ConvertEntryPoint(entry, parse)
  }

  /** Index of the first entry whose selector the felt conversion rejects. */
  ghost predicate FirstBadSelector(entries: seq<ImportedEntryPoint>, parse: FeltConversion, j: int)
  {
    && 0 <= j < |entries|
    && parse(entries[j].selector).Failure?
    && forall i :: 0 <= i < j ==> parse(entries[i].selector).Success?
  }

  /** Element-wise conversion of a list of imported entry points: each
      selector goes through the felt conversion, each function index is kept. */
  function ConvertEntryPoints(entries: seq<ImportedEntryPoint>, parse: FeltConversion): (r: Result<seq<EntryPoint>, ApiError>)
    ensures r.Success? <==> forall i :: 0 <= i < |entries| ==> parse(entries[i].selector).Success?
    ensures r.Success? ==> |r.value| == |entries|
    ensures r.Success? ==> forall i :: 0 <= i < |entries| ==>
      r.value[i] == EntryPoint(parse(entries[i].selector).value, FunctionIndex(entries[i].functionIdx))
    ensures r.Failure? ==> exists j :: FirstBadSelector(entries, parse, j) && parse(entries[j].selector).error == r.error
  {
    var r := TryMap(entries, EntryPointConversion(parse));
    assert forall i :: 0 <= i < |entries| ==>
      EntryPointConversion(parse)(entries[i]) == ConvertEntryPoint(entries[i], parse);
    if r.Failure? then
      ghost var j :| FirstFailureAt(entries, EntryPointConversion(parse), j)
        && EntryPointConversion(parse)(entries[j]).error == r.error;
      assert FirstBadSelector(entries, parse, j);
      r
    else
      r
  }

  /** The map holding `s` under `k`, or the empty map when `s` is empty. */
  function Group(k: EntryPointType, s: seq<EntryPoint>): EntryPointMap
  {
    if s == [] then map[] else map[k := s]
  }

  /** `m` with `s` appended to the list under `key`; the key is created only
      when there is something to append, and other keys are untouched. */
  function Appended(m: EntryPointMap, key: EntryPointType, s: seq<EntryPoint>): (r: EntryPointMap)
    ensures s == [] ==> r == m
    ensures s != [] ==> r.Keys == m.Keys + {key} && r[key] == Lookup(m, key) + s
    ensures forall k :: k in m && k != key ==> r[k] == m[k]
  {
    if s == [] then m else m[key := Lookup(m, key) + s]
  }

  /** Appending one entry point at a time, as the loops do with `get_mut`
      and `push` or with `insert`, builds `Appended`. */
  lemma AppendedStep(m: EntryPointMap, key: EntryPointType, done: seq<EntryPoint>, entry: EntryPoint)
    ensures var a := Appended(m, key, done);
      Appended(m, key, done + [entry])
        == if key in a then a[key := a[key] + [entry]] else a[key := [entry]]
  {
    var a := Appended(m, key, done);
    assert Lookup(m, key) + (done + [entry]) == Lookup(m, key) + done + [entry];
    if done == [] {
      assert done + [entry] == [entry];
      assert a == m;
    }
  }

  /** Appending under a key the map does not have yet adds that key's group. */
  lemma AppendedFresh(m: EntryPointMap, key: EntryPointType, s: seq<EntryPoint>)
    requires key !in m
    ensures Appended(m, key, s) == m + Group(key, s)
  {
    if s != [] {
      assert [] + s == s;
    }
  }

  /** Reference definition of the grouping: each category converted on its
      own, in the order constructor, external, L1 handler, and put under its
      own key when it has any entries. */
  function Grouped(eps: ImportedEntryPoints, parse: FeltConversion): Result<EntryPointMap, ApiError>
  {
    var c :- ConvertEntryPoints(eps.constructors, parse);
    var e :- ConvertEntryPoints(eps.externals, parse);
    var l :- ConvertEntryPoints(eps.l1Handlers, parse);
    Success(Group(Constructor, c) + Group(External, e) + Group(L1Handler, l))
  }

  /** One of the source's three loops: convert each entry of one category in
      order and append it to the list under `key`, creating the list on the
      first entry. A failing selector abandons the whole map. */
  method CollectCategory(m: EntryPointMap, key: EntryPointType, entries: seq<ImportedEntryPoint>, parse: FeltConversion)
    returns (r: Result<EntryPointMap, ApiError>)
    ensures r.Success? <==> ConvertEntryPoints(entries, parse).Success?
    ensures r.Failure? ==> r.error == ConvertEntryPoints(entries, parse).error
    ensures r.Success? ==> r.value == Appended(m, key, ConvertEntryPoints(entries, parse).value)
  {
    var acc := m;
    ghost var done: seq<EntryPoint> := [];
    for i := 0 to |entries|
      invariant ConvertEntryPoints(entries[..i], parse) == Success(done)
      invariant acc == Appended(m, key, done)
    {
      var selector := parse(entries[i].selector);
      assert entries[..i + 1][..i] == entries[..i];
      if selector.Failure? {
        assert ConvertEntryPoints(entries[..i + 1], parse) == Failure(selector.error);
        assert entries[..i + 1] + entries[i + 1..] == entries;
        TryMapAppend(entries[..i + 1], entries[i + 1..], EntryPointConversion(parse));
        return Failure(selector.error);
      }
      var entry := EntryPoint(selector.value, FunctionIndex(entries[i].functionIdx));
      AppendedStep(m, key, done, entry);
      if key in acc {
        acc := acc[key := acc[key] + [entry]];
      } else {
        acc := acc[key := [entry]];
      }
      done := done + [entry];
    }
    assert entries[..|entries|] == entries;
    return Success(acc);
  }

  /** The entry-point grouping of the Sierra conversion, as the source runs
      it: three loops over one mutable map. */
  method GroupEntryPoints(eps: ImportedEntryPoints, parse: FeltConversion) returns (r: Result<EntryPointMap, ApiError>)
    ensures r == Grouped(eps, parse)
  {
    var m: EntryPointMap := map[];
    m :- CollectCategory(m, Constructor, eps.constructors, parse);
    ghost var c := ConvertEntryPoints(eps.constructors, parse).value;
    AppendedFresh(map[], Constructor, c);
    m :- CollectCategory(m, External, eps.externals, parse);
    ghost var e := ConvertEntryPoints(eps.externals, parse).value;
    AppendedFresh(Group(Constructor, c), External, e);
    m :- CollectCategory(m, L1Handler, eps.l1Handlers, parse);
    ghost var l := ConvertEntryPoints(eps.l1Handlers, parse).value;
    AppendedFresh(Group(Constructor, c) + Group(External, e), L1Handler, l);
    return Success(m);
  }

  /** The map has a key exactly for the non-empty categories, and under each
      key the category's entries, converted one by one, in input order. */
  lemma GroupedShape(eps: ImportedEntryPoints, parse: FeltConversion)
    requires Grouped(eps, parse).Success?
    ensures forall k :: k in Grouped(eps, parse).value <==> Category(eps, k) != []
    ensures forall k :: k in Grouped(eps, parse).value ==>
      Grouped(eps, parse).value[k] == ConvertEntryPoints(Category(eps, k), parse).value
    ensures |Grouped(eps, parse).value| <= 3
  {
    var c := ConvertEntryPoints(eps.constructors, parse).value;
    var e := ConvertEntryPoints(eps.externals, parse).value;
    var l := ConvertEntryPoints(eps.l1Handlers, parse).value;
    var m := Grouped(eps, parse).value;
    assert m == Group(Constructor, c) + Group(External, e) + Group(L1Handler, l);
    forall k
      ensures k in m <==> Category(eps, k) != []
      ensures k in m ==> m[k] == ConvertEntryPoints(Category(eps, k), parse).value
    {
      match k
      case Constructor =>
        assert |c| == |eps.constructors|;
      case External =>
        assert |e| == |eps.externals|;
      case L1Handler =>
        assert |l| == |eps.l1Handlers|;
    }
    assert m.Keys <= ENTRY_POINT_TYPES;
    assert |ENTRY_POINT_TYPES| == 3 by {
      assert ENTRY_POINT_TYPES == {Constructor} + {External} + {L1Handler};
    }
    SubsetCardinality(m.Keys, ENTRY_POINT_TYPES);
  }

  lemma SubsetCardinality<T>(a: set<T>, b: set<T>)
    requires a <= b
    ensures |a| <= |b|
  {
    assert b == a + (b - a);
  }

  /** Each stored entry point carries its input entry's function index
      unchanged and the converted selector. */
  lemma GroupedEntryPoint(eps: ImportedEntryPoints, parse: FeltConversion, k: EntryPointType, i: int)
    requires Grouped(eps, parse).Success?
    requires 0 <= i < |Category(eps, k)|
    ensures k in Grouped(eps, parse).value
    ensures |Grouped(eps, parse).value[k]| == |Category(eps, k)|
    ensures Grouped(eps, parse).value[k][i].functionIdx == FunctionIndex(Category(eps, k)[i].functionIdx)
    ensures Success(Grouped(eps, parse).value[k][i].selector) == parse(Category(eps, k)[i].selector)
  {
    GroupedShape(eps, parse);
  }

  /** The grouping fails exactly when some selector fails to convert, with the
      error of the first such selector in scan order; on success, reading the
      keys in scan order gives back every converted entry, so no entry is
      lost, duplicated or moved to another category. */
  lemma {:induction false} GroupedConvertsAll(eps: ImportedEntryPoints, parse: FeltConversion)
    ensures Grouped(eps, parse).Success? <==> ConvertEntryPoints(ScanOrder(eps), parse).Success?
    ensures Grouped(eps, parse).Failure? ==>
      Grouped(eps, parse).error == ConvertEntryPoints(ScanOrder(eps), parse).error
    ensures Grouped(eps, parse).Success? ==>
      var m := Grouped(eps, parse).value;
      Lookup(m, Constructor) + Lookup(m, External) + Lookup(m, L1Handler)
        == ConvertEntryPoints(ScanOrder(eps), parse).value
  {
    var f := EntryPointConversion(parse);
    TryMapAppend(eps.constructors, eps.externals, f);
    TryMapAppend(eps.constructors + eps.externals, eps.l1Handlers, f);
    if Grouped(eps, parse).Success? {
      GroupedShape(eps, parse);
    }
  }

  /** The total number of entry points equals the number of imported ones. */
  lemma GroupedCount(eps: ImportedEntryPoints, parse: FeltConversion)
    requires Grouped(eps, parse).Success?
    ensures EntryCount(Grouped(eps, parse).value)
         == |eps.constructors| + |eps.externals| + |eps.l1Handlers|
  {
    GroupedConvertsAll(eps, parse);
  }

  /** Two external entry points and no others give one key holding both, in
      input order. */
  lemma TwoExternalEntryPoints(parse: FeltConversion, a: ImportedEntryPoint, b: ImportedEntryPoint)
    requires parse(a.selector).Success? && parse(b.selector).Success?
    ensures var r := Grouped(ImportedEntryPoints([], [a, b], []), parse);
      && r.Success?
      && r.value.Keys == {External}
      && r.value[External] == [
        EntryPoint(parse(a.selector).value, FunctionIndex(a.functionIdx)),
        EntryPoint(parse(b.selector).value, FunctionIndex(b.functionIdx))]
  {
  }

  // ---------------------------------------------------------------------
  // Imported Sierra class -> wire Sierra class
  // ---------------------------------------------------------------------

  /** Reference definition of the Sierra conversion. The program is converted
      first; its failure is reported before any selector's. */
  function SierraClassOf(value: ImportedSierraClass, parse: FeltConversion, abiToJson: SierraAbi -> string)
    : (r: Result<SierraContractClass, ApiError>)
    ensures r.Success? <==>
      && (forall i :: 0 <= i < |value.sierraProgram| ==> parse(value.sierraProgram[i]).Success?)
      && Grouped(value.entryPointsByType, parse).Success?
    ensures TryMap(value.sierraProgram, parse).Failure? ==>
      r == Failure(TryMap(value.sierraProgram, parse).error)
    ensures TryMap(value.sierraProgram, parse).Success? && Grouped(value.entryPointsByType, parse).Failure? ==>
      r == Failure(Grouped(value.entryPointsByType, parse).error)
    ensures r.Success? ==>
      && |r.value.sierraProgram| == |value.sierraProgram|
      && (forall i :: 0 <= i < |value.sierraProgram| ==>
            Success(r.value.sierraProgram[i]) == parse(value.sierraProgram[i]))
      && r.value.contractClassVersion == value.contractClassVersion
      && r.value.entryPointsByType == Grouped(value.entryPointsByType, parse).value
      && (r.value.abi.None? <==> value.abi.None?)
      && (value.abi.Some? ==> r.value.abi.value == abiToJson(value.abi.value))
  {
    var sierraProgram :- TryMap(value.sierraProgram, parse);
    var entryPoints :- Grouped(value.entryPointsByType, parse);
    Success(SierraContractClass(
      sierraProgram, value.contractClassVersion, entryPoints, MapOption(value.abi, abiToJson)))
  }

  /** The Sierra conversion as the source runs it, with the grouping loops. */
  method SierraTryFrom(value: ImportedSierraClass, parse: FeltConversion, abiToJson: SierraAbi -> string)
    returns (r: Result<SierraContractClass, ApiError>)
    ensures r == SierraClassOf(value, parse, abiToJson)
  {
    var sierraProgram :- TryMap(value.sierraProgram, parse);
    var entryPoints :- GroupEntryPoints(value.entryPointsByType, parse);
    return Success(SierraContractClass(
      sierraProgram, value.contractClassVersion, entryPoints, MapOption(value.abi, abiToJson)));
  }

  /** The Sierra conversion succeeds exactly when every program word and every
      selector converts; a single failure anywhere means no class at all. */
  lemma SierraAllOrNothing(value: ImportedSierraClass, parse: FeltConversion, abiToJson: SierraAbi -> string)
    ensures SierraClassOf(value, parse, abiToJson).Success? <==>
      && (forall i :: 0 <= i < |value.sierraProgram| ==> parse(value.sierraProgram[i]).Success?)
      && (forall i :: 0 <= i < |ScanOrder(value.entryPointsByType)| ==>
            parse(ScanOrder(value.entryPointsByType)[i].selector).Success?)
  {
    GroupedConvertsAll(value.entryPointsByType, parse);
  }

  // ---------------------------------------------------------------------
  // Internal contract class -> wire contract class
  // ---------------------------------------------------------------------

  /** Dispatch on the internal variant: a legacy class becomes the legacy
      wire variant, an imported Sierra class the Sierra wire variant; the
      inner conversion's error is passed through. The legacy inner conversion
      lives outside this file and is a parameter. */
  function ContractClassOf(
    value: TypesContractClass,
    cairo0Into: Cairo0ContractClass -> Result<DeprecatedContractClass, ApiError>,
    parse: FeltConversion,
    abiToJson: SierraAbi -> string)
    : (r: Result<ContractClass, ApiError>)
    ensures r.Success? ==> (r.value.Cairo0Class? <==> value.Cairo0?)
    ensures value.Cairo0? ==>
      && (r.Success? <==> cairo0Into(value.cairo0).Success?)
      && (r.Success? ==> r.value.deprecated == cairo0Into(value.cairo0).value)
      && (r.Failure? ==> r.error == cairo0Into(value.cairo0).error)
    ensures value.Cairo1? ==>
      && (r.Success? <==> SierraClassOf(value.cairo1, parse, abiToJson).Success?)
      && (r.Success? ==> r.value.sierra == SierraClassOf(value.cairo1, parse, abiToJson).value)
      && (r.Failure? ==> r.error == SierraClassOf(value.cairo1, parse, abiToJson).error)
  {
    match value
    case Cairo0(c) =>
      var d :- cairo0Into(c);
      Success(Cairo0Class(d))
    case Cairo1(s) =>
      var sierra :- SierraClassOf(s, parse, abiToJson);
      Success(Sierra(sierra))
  }

  // ---------------------------------------------------------------------
  // Wire legacy class -> internal contract class
  // ---------------------------------------------------------------------

  const ABI_NOT_JSON: ApiError := InvalidParams("abi: Unable to parse to JSON")
  const ENTRY_POINTS_NOT_JSON: ApiError := InvalidParams("entry_points_by_type: Unable to parse to JSON")

  const PROGRAM_KEY: string := "program"
  const ABI_KEY: string := "abi"
  const ENTRY_POINTS_KEY: string := "entry_points_by_type"

  /** Reads a member of the JSON document of an internal legacy class. */
  function Cairo0Member(c: TypesContractClass, name: string): Option<Value>
  {
    if c.Cairo0? && c.cairo0.json.Object? && name in c.cairo0.json.fields
    then Some(c.cairo0.json.fields[name])
    else None
  }

  /** Assembles the internal legacy class: the abi and the entry points are
      serialised to JSON (the serialisations are parameters, either of which
      may fail), the abi first, and put beside the program in one object. */
  function TypesClassOfDeprecated(
    value: DeprecatedContractClass,
    abiToValue: seq<ContractClassAbiEntryWithType> -> Option<Value>,
    entryPointsToValue: map<LegacyEntryPointType, seq<LegacyEntryPoint>> -> Option<Value>)
    : (r: Result<TypesContractClass, ApiError>)
    ensures r.Success? <==> abiToValue(value.abi).Some? && entryPointsToValue(value.entryPointsByType).Some?
    ensures abiToValue(value.abi).None? ==> r == Failure(ABI_NOT_JSON)
    ensures abiToValue(value.abi).Some? && entryPointsToValue(value.entryPointsByType).None? ==>
      r == Failure(ENTRY_POINTS_NOT_JSON)
    ensures r.Success? ==>
      && r.value.Cairo0?
      && r.value.cairo0.json.Object?
      && r.value.cairo0.json.fields.Keys == {PROGRAM_KEY, ABI_KEY, ENTRY_POINTS_KEY}
      && Cairo0Member(r.value, PROGRAM_KEY) == Some(value.program)
      && Cairo0Member(r.value, ABI_KEY) == abiToValue(value.abi)
      && Cairo0Member(r.value, ENTRY_POINTS_KEY) == entryPointsToValue(value.entryPointsByType)
  {
    match abiToValue(value.abi)
    case None => Failure(ABI_NOT_JSON)
    case Some(abiJson) =>
      match entryPointsToValue(value.entryPointsByType)
      case None => Failure(ENTRY_POINTS_NOT_JSON)
      case Some(entryPointsJson) =>
        Success(Cairo0(Json(Object(map[
          PROGRAM_KEY := value.program,
          ABI_KEY := abiJson,
          ENTRY_POINTS_KEY := entryPointsJson]))))
  }
}
