/** The dtype alias registry: a table from alias strings to dtype identifiers,
    lookup with a dedicated parse error, and the one-time version gate that
    adds the boolean and bfloat16 aliases. */
module DtypeParse {
  import opened Wrappers

  /** A dtype object: one of the host library's torch dtypes, or one of
      Python's generic `int`, `float` and `complex` type objects. The table
      names the torch dtypes listed first; `OtherTorchDtype` stands for every
      torch dtype no alias names (`torch.complex32`, the quantized kinds, ...). */
  datatype DtypeId =
    | UInt8 | Int8 | Int16 | Int32 | Int64
    | Float16 | Float32 | Float64 | BFloat16
    | Complex64 | Complex128
    | Bool
    | OtherTorchDtype(name: string)
    | PyInt | PyFloat | PyComplex
  {
    /** True of the values that are instances of `torch.dtype`. */
    predicate IsTorchDtype() {
      !(PyInt? || PyFloat? || PyComplex?)
    }
  }

  /** The integer aliases of the base table, with Python's generic `int`. */
  const IntAliases: map<string, DtypeId> := map[
    "int" := PyInt,
    "torch.uint8" := UInt8,
    "torch.int8" := Int8,
    "torch.int16" := Int16,
    "torch.short" := Int16,
    "torch.int32" := Int32,
    "torch.int" := Int32,
    "torch.int64" := Int64,
    "torch.long" := Int64
  ]

  /** The floating-point aliases of the base table, with Python's `float`. */
  const FloatAliases: map<string, DtypeId> := map[
    "float" := PyFloat,
    "torch.float16" := Float16,
    "binary16" := Float16,
    "torch.half" := Float16,
    "torch.float32" := Float32,
    "torch.float" := Float32,
    "torch.float64" := Float64,
    "torch.double" := Float64
  ]

  /** The complex aliases of the base table, with Python's `complex`. */
  const ComplexAliases: map<string, DtypeId> := map[
    "complex" := PyComplex,
    "torch.complex64" := Complex64,
    "torch.cfloat" := Complex64,
    "torch.complex128" := Complex128,
    "torch.cdouble" := Complex128
  ]

  /** The table literal every host version gets: the three groups above,
      whose keys are pairwise distinct (BaseTableSize). */
  const BaseTable: map<string, DtypeId> := IntAliases + FloatAliases + ComplexAliases

  /** The aliases whose dtypes first appeared in host version 1.3.0. */
  const GatedTable: map<string, DtypeId> := map[
    "torch.bool" := Bool,
    "torch.bfloat16" := BFloat16
  ]

  /** The exception raised for an alias that is not in the table. */
  datatype DTypeParseError = DTypeParseError(message: string)

  const MessageHead: string := "Unrecognized dtype"
  const MessageSeparator: string := ": "

  /** The detail part of an error message, or None when the message is the
      bare head: the inverse of ErrorMessage. */
  function MessageDetail(message: string): (detail: Option<string>)
    ensures detail.Some? ==> message == MessageHead + MessageSeparator + detail.value
  {
    var n := |MessageHead + MessageSeparator|;
    if n <= |message| && message[..n] == MessageHead + MessageSeparator
    then Some(message[n..])
    else None
  }

  /** True when `part` occurs in `text` starting at index `i`. */
  predicate OccursAt(text: string, part: string, i: int) {
    0 <= i <= |text| - |part| && text[i..i + |part|] == part
  }

  /** True when `part` occurs in `text` as a contiguous piece. */
  predicate Contains(text: string, part: string) {
    exists i :: 0 <= i <= |text| - |part| && OccursAt(text, part, i)
  }

  /** The message DTypeParseError is built with: the head alone when no
      custom message is given, otherwise the head, a colon and the message. */
  function ErrorMessage(customMessage: Option<string>): (m: string)
    ensures |MessageHead| <= |m| && m[..|MessageHead|] == MessageHead
    ensures customMessage.None? ==> m == MessageHead
    ensures MessageDetail(m) == customMessage
  {
    match customMessage
    case None => MessageHead
    case Some(detail) =>
      var m := MessageHead + MessageSeparator + detail;
      assert m[..|MessageHead + MessageSeparator|] == MessageHead + MessageSeparator;
      m
  }

  /** The message without an alias, spelled out. */
  lemma MessageWithoutAlias()
    ensures ErrorMessage(None) == "Unrecognized dtype"
  {
  }

  /** The message for an alias, spelled out. */
  lemma MessageWithAlias(alias: string)
    ensures ErrorMessage(Some(alias)) == "Unrecognized dtype: " + alias
  {
    assert MessageHead + MessageSeparator == "Unrecognized dtype: ";
  }

  /** Looks an alias up; an absent alias raises DTypeParseError naming it. */
  function ParseDtype(table: map<string, DtypeId>, alias: string): (r: Result<DtypeId, DTypeParseError>)
    ensures r.Success? <==> alias in table
    ensures r.Success? ==> r.value == table[alias]
    ensures r.Failure? ==> MessageDetail(r.error.message) == Some(alias)
  {
    if alias in table then Success(table[alias])
    else Failure(DTypeParseError(ErrorMessage(Some(alias))))
  }

  /** The table as it stands after import, for a host version at or above
      1.3.0 (`atLeast130`) or below it. */
  function LoadedTable(atLeast130: bool): (t: map<string, DtypeId>)
    ensures Extends(t, BaseTable)
    ensures atLeast130 ==> Extends(t, GatedTable)
    ensures !atLeast130 ==> t.Keys !! GatedTable.Keys
  {
    GatedNotBase();
    if atLeast130 then BaseTable + GatedTable else BaseTable
  }

  /** The module-global alias table and the warnings logged about it. */
  class Registry {
    var table: map<string, DtypeId>
    var warnings: nat

    /** The table literal, before the version gate has run. */
    constructor ()
      ensures table == BaseTable && warnings == 0
    {
      table := BaseTable;
      warnings := 0;
    }

    /** The version gate: at or above 1.3.0 the gated aliases are merged into
        the table in place; below it the table is left alone and a warning is
        logged. */
    method MatchVersion(atLeast130: bool)
      modifies this
      ensures atLeast130 ==> table == old(table) + GatedTable && warnings == old(warnings)
      ensures !atLeast130 ==> table == old(table) && warnings == old(warnings) + 1
    {
      if !atLeast130 {
        warnings := warnings + 1;
      } else {
        table := table + GatedTable;
      }
    }

    /** parse_dtype against the current table; the table is not changed. */
    method Parse(alias: string) returns (r: Result<DtypeId, DTypeParseError>)
      ensures r.Success? <==> alias in table
      ensures r.Success? ==> r.value == table[alias]
      ensures r.Failure? ==> r.error.message == MessageHead + MessageSeparator + alias
    {
      r := ParseDtype(table, alias);
    }
  }

  /** Importing the module: build the table, then run the gate once. */
  method Import(atLeast130: bool) returns (reg: Registry)
    ensures fresh(reg)
    ensures reg.table == LoadedTable(atLeast130)
    ensures reg.warnings == if atLeast130 then 0 else 1
  {
    reg := new Registry();
    reg.MatchVersion(atLeast130);
  }

  /** Merging maps with disjoint keys adds their sizes. */
  lemma DisjointMergeSize(m: map<string, DtypeId>, n: map<string, DtypeId>)
    requires m.Keys !! n.Keys
    ensures (m + n).Keys == m.Keys + n.Keys
    ensures |m + n| == |m| + |n|
  {
    assert (m + n).Keys == m.Keys + n.Keys;
  }

  // Sizes and disjointness of the three alias groups, one small fact at a
  // time: stated together, the string comparisons swamp the solver.

  lemma IntSize()
    ensures |IntAliases| == 9
  {
  }

  lemma FloatSize()
    ensures |FloatAliases| == 8
  {
  }

  lemma ComplexSize()
    ensures |ComplexAliases| == 5
  {
  }

  lemma IntFloatDisjoint()
    ensures IntAliases.Keys !! FloatAliases.Keys
  {
  }

  lemma IntComplexDisjoint()
    ensures IntAliases.Keys !! ComplexAliases.Keys
  {
  }

  lemma FloatComplexDisjoint()
    ensures FloatAliases.Keys !! ComplexAliases.Keys
  {
  }

  lemma GroupsDisjoint()
    ensures IntAliases.Keys !! FloatAliases.Keys
    ensures IntAliases.Keys !! ComplexAliases.Keys && FloatAliases.Keys !! ComplexAliases.Keys
  {
    IntFloatDisjoint();
    IntComplexDisjoint();
    FloatComplexDisjoint();
  }

  lemma GatedNotInt()
    ensures "torch.bool" !in IntAliases && "torch.bfloat16" !in IntAliases
  {
  }

  lemma GatedNotFloat()
    ensures "torch.bool" !in FloatAliases && "torch.bfloat16" !in FloatAliases
  {
  }

  lemma GatedNotComplex()
    ensures "torch.bool" !in ComplexAliases && "torch.bfloat16" !in ComplexAliases
  {
  }
  /** Neither gated alias is in the base table. */
  lemma GatedNotBase()
    ensures BaseTable.Keys !! GatedTable.Keys
  {
    GatedNotInt(); GatedNotFloat(); GatedNotComplex();
  }

  /** Every entry of `part` is in `t` with the same value. */
  predicate Extends(t: map<string, DtypeId>, part: map<string, DtypeId>) {
    forall k :: k in part ==> k in t && t[k] == part[k]
  }

  /** The base table holds each group's entries unchanged. */
  lemma BaseExtendsGroups()
    ensures Extends(BaseTable, IntAliases)
    ensures Extends(BaseTable, FloatAliases)
    ensures Extends(BaseTable, ComplexAliases)
  {
    GroupsDisjoint();
  }

  /** So does the table after import, at any host version. */
  lemma LoadedExtendsGroups(atLeast130: bool)
    ensures Extends(LoadedTable(atLeast130), BaseTable)
    ensures Extends(LoadedTable(atLeast130), IntAliases)
    ensures Extends(LoadedTable(atLeast130), FloatAliases)
    ensures Extends(LoadedTable(atLeast130), ComplexAliases)
  {
    GatedNotBase();
    BaseExtendsGroups();
  }

  /** The base table has 22 aliases, and neither gated alias is one of them. */
  lemma BaseTableSize()
    ensures |BaseTable| == 22
  {
    IntSize(); FloatSize(); ComplexSize();
    GroupsDisjoint();
    DisjointMergeSize(IntAliases, FloatAliases);
    DisjointMergeSize(IntAliases + FloatAliases, ComplexAliases);
  }

  /** Merging the gated aliases into a table without them adds two keys. */
  lemma GatedMergeSize(m: map<string, DtypeId>)
    requires m.Keys !! GatedTable.Keys
    ensures (m + GatedTable).Keys == m.Keys + {"torch.bool", "torch.bfloat16"}
    ensures |m + GatedTable| == |m| + 2
  {
    assert GatedTable.Keys == {"torch.bool", "torch.bfloat16"};
    assert |GatedTable| == 2;
    DisjointMergeSize(m, GatedTable);
  }

  /** At or above 1.3.0 the table holds exactly the base aliases and the
      two gated ones, 24 in all; below it, the 22 base aliases. */
  lemma LoadedTableSize(atLeast130: bool)
    ensures LoadedTable(atLeast130).Keys
         == if atLeast130 then BaseTable.Keys + {"torch.bool", "torch.bfloat16"} else BaseTable.Keys
    ensures |LoadedTable(atLeast130)| == if atLeast130 then 24 else 22
  {
    BaseTableSize();
    if atLeast130 {
      GatedNotBase();
      GatedMergeSize(BaseTable);
    }
  }

  /** In a table that holds the gated aliases (`present`) or none of them,
      they parse to their dtypes or fail naming themselves. */
  lemma GatedParseIn(t: map<string, DtypeId>, present: bool)
    requires present ==> Extends(t, GatedTable)
    requires !present ==> t.Keys !! GatedTable.Keys
    ensures ParseDtype(t, "torch.bool")
         == if present then Success(Bool) else Failure(DTypeParseError("Unrecognized dtype: torch.bool"))
    ensures ParseDtype(t, "torch.bfloat16")
         == if present then Success(BFloat16) else Failure(DTypeParseError("Unrecognized dtype: torch.bfloat16"))
  {
    assert "torch.bool" in GatedTable && "torch.bfloat16" in GatedTable;
    MessageWithAlias("torch.bool");
    MessageWithAlias("torch.bfloat16");
    assert "Unrecognized dtype: " + "torch.bool" == "Unrecognized dtype: torch.bool";
    assert "Unrecognized dtype: " + "torch.bfloat16" == "Unrecognized dtype: torch.bfloat16";
  }

  /** The gated aliases parse at or above 1.3.0 and fail below it. */
  lemma GatedAliasesParse(atLeast130: bool)
    ensures ParseDtype(LoadedTable(atLeast130), "torch.bool")
         == if atLeast130 then Success(Bool) else Failure(DTypeParseError("Unrecognized dtype: torch.bool"))
    ensures ParseDtype(LoadedTable(atLeast130), "torch.bfloat16")
         == if atLeast130 then Success(BFloat16) else Failure(DTypeParseError("Unrecognized dtype: torch.bfloat16"))
  {
    GatedParseIn(LoadedTable(atLeast130), atLeast130);
  }

  /** The merge changes no entry the table already had when the gated
      aliases are new to it, and adds nothing but the gated entries. */
  lemma GatedMergeKeepsEntries(m: map<string, DtypeId>)
    requires m.Keys !! GatedTable.Keys
    ensures (m + GatedTable).Keys == m.Keys + GatedTable.Keys
    ensures forall k :: k in m ==> (m + GatedTable)[k] == m[k]
    ensures forall k :: k in GatedTable ==> (m + GatedTable)[k] == GatedTable[k]
  {
  }

  /** Merging the gated aliases a second time changes nothing. */
  lemma GatedMergeIdempotent(m: map<string, DtypeId>)
    ensures m + GatedTable + GatedTable == m + GatedTable
  {
  }

  /** An alias of a group the table extends parses to the group's dtype. */
  lemma GroupLookup(t: map<string, DtypeId>, group: map<string, DtypeId>, alias: string)
    requires Extends(t, group) && alias in group
    ensures ParseDtype(t, alias) == Success(group[alias])
  {
  }

  /** In any table holding the integer aliases, each integer synonym group
      resolves to one dtype. */
  lemma IntGroupsIn(t: map<string, DtypeId>)
    requires Extends(t, IntAliases)
    ensures ParseDtype(t, "int") == Success(PyInt)
    ensures ParseDtype(t, "torch.uint8") == Success(UInt8)
    ensures ParseDtype(t, "torch.int8") == Success(Int8)
    ensures ParseDtype(t, "torch.short") == ParseDtype(t, "torch.int16") == Success(Int16)
    ensures ParseDtype(t, "torch.int") == ParseDtype(t, "torch.int32") == Success(Int32)
    ensures ParseDtype(t, "torch.long") == ParseDtype(t, "torch.int64") == Success(Int64)
  {
    GroupLookup(t, IntAliases, "int");
    GroupLookup(t, IntAliases, "torch.uint8");
    GroupLookup(t, IntAliases, "torch.int8");
    GroupLookup(t, IntAliases, "torch.short");
    GroupLookup(t, IntAliases, "torch.int16");
    GroupLookup(t, IntAliases, "torch.int");
    GroupLookup(t, IntAliases, "torch.int32");
    GroupLookup(t, IntAliases, "torch.long");
    GroupLookup(t, IntAliases, "torch.int64");
  }

  /** The integer synonym groups resolve to one dtype each, whatever the
      host version. */
  lemma IntAliasGroups(atLeast130: bool)
    ensures var t := LoadedTable(atLeast130);
      && ParseDtype(t, "int") == Success(PyInt)
      && ParseDtype(t, "torch.uint8") == Success(UInt8)
      && ParseDtype(t, "torch.int8") == Success(Int8)
      && ParseDtype(t, "torch.short") == ParseDtype(t, "torch.int16") == Success(Int16)
      && ParseDtype(t, "torch.int") == ParseDtype(t, "torch.int32") == Success(Int32)
      && ParseDtype(t, "torch.long") == ParseDtype(t, "torch.int64") == Success(Int64)
  {
    LoadedExtendsGroups(atLeast130);
    IntGroupsIn(LoadedTable(atLeast130));
  }

  /** In any table holding the floating-point aliases, each floating-point
      synonym group resolves to one dtype. */
  lemma FloatGroupsIn(t: map<string, DtypeId>)
    requires Extends(t, FloatAliases)
    ensures ParseDtype(t, "float") == Success(PyFloat)
    ensures ParseDtype(t, "torch.half") == ParseDtype(t, "binary16") == ParseDtype(t, "torch.float16") == Success(Float16)
    ensures ParseDtype(t, "torch.float") == ParseDtype(t, "torch.float32") == Success(Float32)
    ensures ParseDtype(t, "torch.double") == ParseDtype(t, "torch.float64") == Success(Float64)
  {
    GroupLookup(t, FloatAliases, "float");
    GroupLookup(t, FloatAliases, "torch.half");
    GroupLookup(t, FloatAliases, "binary16");
    GroupLookup(t, FloatAliases, "torch.float16");
    GroupLookup(t, FloatAliases, "torch.float");
    GroupLookup(t, FloatAliases, "torch.float32");
    GroupLookup(t, FloatAliases, "torch.double");
    GroupLookup(t, FloatAliases, "torch.float64");
  }

  /** The floating-point synonym groups resolve to one dtype each, whatever
      the host version. */
  lemma FloatAliasGroups(atLeast130: bool)
    ensures var t := LoadedTable(atLeast130);
      && ParseDtype(t, "float") == Success(PyFloat)
      && ParseDtype(t, "torch.half") == ParseDtype(t, "binary16") == ParseDtype(t, "torch.float16") == Success(Float16)
      && ParseDtype(t, "torch.float") == ParseDtype(t, "torch.float32") == Success(Float32)
      && ParseDtype(t, "torch.double") == ParseDtype(t, "torch.float64") == Success(Float64)
  {
    LoadedExtendsGroups(atLeast130);
    FloatGroupsIn(LoadedTable(atLeast130));
  }

  /** In any table holding the complex aliases, each complex synonym group
      resolves to one dtype. */
  lemma ComplexGroupsIn(t: map<string, DtypeId>)
    requires Extends(t, ComplexAliases)
    ensures ParseDtype(t, "complex") == Success(PyComplex)
    ensures ParseDtype(t, "torch.cfloat") == ParseDtype(t, "torch.complex64") == Success(Complex64)
    ensures ParseDtype(t, "torch.cdouble") == ParseDtype(t, "torch.complex128") == Success(Complex128)
  {
    GroupLookup(t, ComplexAliases, "complex");
    GroupLookup(t, ComplexAliases, "torch.cfloat");
    GroupLookup(t, ComplexAliases, "torch.complex64");
    GroupLookup(t, ComplexAliases, "torch.cdouble");
    GroupLookup(t, ComplexAliases, "torch.complex128");
  }

  /** The complex synonym groups resolve to one dtype each, whatever the
      host version. */
  lemma ComplexAliasGroups(atLeast130: bool)
    ensures var t := LoadedTable(atLeast130);
      && ParseDtype(t, "complex") == Success(PyComplex)
      && ParseDtype(t, "torch.cfloat") == ParseDtype(t, "torch.complex64") == Success(Complex64)
      && ParseDtype(t, "torch.cdouble") == ParseDtype(t, "torch.complex128") == Success(Complex128)
  {
    LoadedExtendsGroups(atLeast130);
    ComplexGroupsIn(LoadedTable(atLeast130));
  }

  /** The error message of an unknown alias names that alias. */
  lemma MessageNamesAlias(alias: string)
    ensures Contains(ErrorMessage(Some(alias)), alias)
  {
    var m := ErrorMessage(Some(alias));
    assert OccursAt(m, alias, |MessageHead + MessageSeparator|);
  }

  /** Distinct custom messages give distinct error messages. */
  lemma ErrorMessageInjective(a: Option<string>, b: Option<string>)
    requires ErrorMessage(a) == ErrorMessage(b)
    ensures a == b
  {
  }

  /** "np.int" is in no group and is not gated. */
  lemma NpIntNotAlias(atLeast130: bool)
    ensures "np.int" !in LoadedTable(atLeast130)
  {
    assert "np.int" !in IntAliases && "np.int" !in FloatAliases;
    assert "np.int" !in ComplexAliases && "np.int" !in GatedTable;
  }

  /** "np.int" is not an alias at any host version, and its error says so. */
  lemma NpIntRejected(atLeast130: bool)
    ensures var r := ParseDtype(LoadedTable(atLeast130), "np.int");
      r == Failure(DTypeParseError("Unrecognized dtype: np.int")) && Contains(r.error.message, "np.int")
  {
    NpIntNotAlias(atLeast130);
    MessageWithAlias("np.int");
    assert "Unrecognized dtype: " + "np.int" == "Unrecognized dtype: np.int";
    MessageNamesAlias("np.int");
  }
}
