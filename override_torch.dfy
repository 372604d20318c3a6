/** The conversion facade: `astype(tensor, dtype)` resolves its dtype
    specifier and hands the cast to the host tensor library. */
module OverrideTorch {
  import opened Wrappers
  import opened DtypeParse

  /** The element data of a tensor; its meaning belongs to the host library. */
  type Payload(==, !new)

  /** The dtypes a tensor can carry: torch dtypes only. */
  type TorchDtype = d: DtypeId | d.IsTorchDtype() witness Float32

  /** A tensor, seen only through its dtype tag and its data. */
  datatype Tensor = Tensor(dtype: TorchDtype, payload: Payload)

  /** The host cast `tensor.to(dtype=d)` yields a tensor tagged `d` whenever
      `d` is a torch dtype; which torch dtype the host picks for Python's
      generic `int`, `float` and `complex`, and what happens to the data, is
      the host's business. */
  ghost predicate KeepsTargetTag(cast: (Tensor, DtypeId) -> Tensor) {
    forall t: Tensor, d: DtypeId | d.IsTorchDtype() :: cast(t, d).dtype == d
  }

  /** Every cast primitive the host library might supply. */
  type HostCast = cast: (Tensor, DtypeId) -> Tensor | KeepsTargetTag(cast)
    witness (t: Tensor, d: DtypeId) => Tensor(if d.IsTorchDtype() then d else Float64, t.payload)

  /** What every host cast guarantees: the result carries the requested
      torch dtype. */
  lemma CastCarriesTarget(cast: HostCast, t: Tensor, d: DtypeId)
    requires d.IsTorchDtype()
    ensures cast(t, d).dtype == d
  {
  }

  /** The `dtype` argument of astype: a dtype object passed as it is (a torch
      dtype, or one of Python's generic type objects), a string alias, or any
      other value. */
  datatype DtypeSpec = Native(dtype: DtypeId) | Str(alias: string) | Other

  /** What astype raises: the registry's parse error, passed on unchanged,
      or a bare ValueError. */
  datatype AstypeError = ParseFailed(cause: DTypeParseError) | ValueError

  /** True of the specifiers that pass the `isinstance(dtype, torch.dtype)`
      test. */
  predicate IsTorchDtypeSpec(spec: DtypeSpec): (b: bool)
    ensures b ==> spec.Native?
    ensures spec.Native? && spec.dtype.IsTorchDtype() ==> b
    ensures spec.Native? && (spec.dtype == PyInt || spec.dtype == PyFloat || spec.dtype == PyComplex) ==> !b
  {
    spec.Native? && spec.dtype.IsTorchDtype()
  }

  /** astype: a torch dtype goes straight to the host cast, a string is
      resolved through the registry first, anything else is refused. */
  function Astype(table: map<string, DtypeId>, t: Tensor, spec: DtypeSpec, cast: HostCast)
    : (r: Result<Tensor, AstypeError>)
    ensures IsTorchDtypeSpec(spec) ==> r == Success(cast(t, spec.dtype))
    ensures spec.Str? && spec.alias in table ==> r == Success(cast(t, table[spec.alias]))
    ensures spec.Str? && spec.alias !in table ==>
      r.Failure? && r.error.ParseFailed? && MessageDetail(r.error.cause.message) == Some(spec.alias)
    ensures r == Failure(ValueError) <==> !IsTorchDtypeSpec(spec) && !spec.Str?
  {
    if IsTorchDtypeSpec(spec) then
      Success(cast(t, spec.dtype))
    else if spec.Str? then
      match ParseDtype(table, spec.alias)
      case Success(d) => Success(cast(t, d))
      case Failure(e) => Failure(ParseFailed(e))
    else
      Failure(ValueError)
  }

  /** Exactly one of the three outcomes occurs: a torch dtype or a known
      alias converts, an unknown alias raises the parse error, and every
      other specifier raises ValueError; a string never reaches ValueError. */
  lemma AstypeOutcomes(table: map<string, DtypeId>, t: Tensor, spec: DtypeSpec, cast: HostCast)
    ensures var r := Astype(table, t, spec, cast);
      && (r.Success? <==> IsTorchDtypeSpec(spec) || (spec.Str? && spec.alias in table))
      && (r.Failure? && r.error.ParseFailed? <==> spec.Str? && spec.alias !in table)
      && (r == Failure(ValueError) <==> !IsTorchDtypeSpec(spec) && !spec.Str?)
  {
  }

  /** A torch dtype passed directly is cast to without consulting the
      registry: the result is the same whatever the table holds, and carries
      that dtype. */
  lemma NativeBypassesRegistry(table1: map<string, DtypeId>, table2: map<string, DtypeId>,
                               t: Tensor, d: DtypeId, cast: HostCast)
    requires d.IsTorchDtype()
    ensures Astype(table1, t, Native(d), cast) == Astype(table2, t, Native(d), cast)
    ensures Astype(table1, t, Native(d), cast).Success?
    ensures Astype(table1, t, Native(d), cast).value.dtype == d
  {
  }

  /** A registered alias of a torch dtype yields a tensor tagged with the
      dtype the registry gives for it. */
  lemma AliasResultTag(table: map<string, DtypeId>, t: Tensor, alias: string, cast: HostCast)
    requires alias in table && table[alias].IsTorchDtype()
    ensures Astype(table, t, Str(alias), cast).Success?
    ensures Astype(table, t, Str(alias), cast).value.dtype == table[alias]
  {
  }

  /** An unknown alias fails with exactly the error the registry raised. */
  lemma ParseErrorPropagates(table: map<string, DtypeId>, t: Tensor, alias: string, cast: HostCast)
    requires alias !in table
    ensures Astype(table, t, Str(alias), cast) == Failure(ParseFailed(ParseDtype(table, alias).error))
  {
  }

  /** In a table that maps "int", "float" and "complex" to Python's generic
      types, those types are reached through their aliases only. */
  lemma GenericTypesIn(table: map<string, DtypeId>, t: Tensor, cast: HostCast)
    requires ParseDtype(table, "int") == Success(PyInt)
    requires ParseDtype(table, "float") == Success(PyFloat)
    requires ParseDtype(table, "complex") == Success(PyComplex)
    ensures Astype(table, t, Native(PyInt), cast) == Failure(ValueError)
    ensures Astype(table, t, Native(PyFloat), cast) == Failure(ValueError)
    ensures Astype(table, t, Native(PyComplex), cast) == Failure(ValueError)
    ensures Astype(table, t, Str("int"), cast) == Success(cast(t, PyInt))
    ensures Astype(table, t, Str("float"), cast) == Success(cast(t, PyFloat))
    ensures Astype(table, t, Str("complex"), cast) == Success(cast(t, PyComplex))
  {
  }

  /** Python's generic `int`, `float` and `complex` are reached only through
      their aliases: passed as type objects they are not torch dtypes and
      raise ValueError. */
  lemma GenericTypesOnlyByAlias(atLeast130: bool, t: Tensor, cast: HostCast)
    ensures var table := LoadedTable(atLeast130);
      && Astype(table, t, Native(PyInt), cast) == Failure(ValueError)
      && Astype(table, t, Native(PyFloat), cast) == Failure(ValueError)
      && Astype(table, t, Native(PyComplex), cast) == Failure(ValueError)
      && Astype(table, t, Str("int"), cast) == Success(cast(t, PyInt))
      && Astype(table, t, Str("float"), cast) == Success(cast(t, PyFloat))
      && Astype(table, t, Str("complex"), cast) == Success(cast(t, PyComplex))
  {
    IntAliasGroups(atLeast130);
    FloatAliasGroups(atLeast130);
    ComplexAliasGroups(atLeast130);
    GenericTypesIn(LoadedTable(atLeast130), t, cast);
  }

  /** "torch.bool" converts to a boolean tensor at or above host version
      1.3.0 and is an unknown alias below it. */
  lemma BoolAliasByVersion(atLeast130: bool, t: Tensor, cast: HostCast)
    ensures var r := Astype(LoadedTable(atLeast130), t, Str("torch.bool"), cast);
      if atLeast130 then r.Success? && r.value.dtype == Bool
      else r == Failure(ParseFailed(DTypeParseError("Unrecognized dtype: torch.bool")))
  {
    GatedAliasesParse(atLeast130);
  }

  /** Converting with "np.int" raises the parse error, whose message names
      the alias. */
  lemma NpIntConversionRejected(atLeast130: bool, t: Tensor, cast: HostCast)
    ensures var r := Astype(LoadedTable(atLeast130), t, Str("np.int"), cast);
      r.Failure? && r.error.ParseFailed? && Contains(r.error.cause.message, "np.int")
  {
    NpIntRejected(atLeast130);
  }

  /** Converting twice with the same alias leaves the dtype tag where the
      first conversion put it. */
  lemma RepeatedConversionTag(table: map<string, DtypeId>, t: Tensor, alias: string, cast: HostCast)
    requires alias in table && table[alias].IsTorchDtype()
    ensures var once := Astype(table, t, Str(alias), cast);
      once.Success? && Astype(table, once.value, Str(alias), cast).Success?
      && Astype(table, once.value, Str(alias), cast).value.dtype == once.value.dtype
  {
  }
}
