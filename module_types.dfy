// The catalog schema: a Terraform module with typed parameters, the seven
// module categories, and the consistency rules every catalog entry obeys.
module ModuleTypes {
  import opened Wrappers
  import JsStrings

  datatype ParamType = StringParam | NumberParam | BooleanParam | ListParam

  /** One input of a module. All values, whatever their type, are carried as text. */
  datatype ModuleParameter = ModuleParameter(
    name: string,
    paramType: ParamType,
    description: string,
    required: bool,
    defaultValue: Option<string>,
    options: Option<seq<string>>)

  datatype TerraformModule = TerraformModule(
    id: string,
    name: string,
    description: string,
    category: string,
    parameters: seq<ModuleParameter>)

  /** The category key modules are grouped and filtered by. */
  function Category(m: TerraformModule): string
  {
    m.category
  }

  /** A category as the module selector lists it (icon and colour left out). */
  datatype ModuleCategory = ModuleCategory(id: string, name: string)

  const ModuleCategories: seq<ModuleCategory> := [
    ModuleCategory("networking", "Networking"),
    ModuleCategory("compute", "Compute"),
    ModuleCategory("storage", "Storage"),
    ModuleCategory("database", "Database"),
    ModuleCategory("security", "Security"),
    ModuleCategory("identity", "Identity & Access"),
    ModuleCategory("monitoring", "Monitoring & Logging")
  ]

  /** The category ids, in the order the selector presents them. */
  const CategoryIds: seq<string> :=
    ["networking", "compute", "storage", "database", "security", "identity", "monitoring"]

  /** The rules a parameter declaration keeps: options only on strings, a default that
      is one of the options, boolean defaults `"true"`/`"false"`, numeric defaults in digits. */
  predicate WellFormedParameter(p: ModuleParameter)
  {
    (p.options.Some? ==> p.paramType == StringParam)
    && (p.options.Some? && p.defaultValue.Some? ==> p.defaultValue.value in p.options.value)
    && (p.paramType == BooleanParam ==> p.defaultValue == Some("true") || p.defaultValue == Some("false"))
    && (p.paramType == NumberParam && p.defaultValue.Some? ==> JsStrings.IsDigits(p.defaultValue.value))
  }

  predicate DistinctNames(ps: seq<ModuleParameter>)
  {
    forall i, j :: 0 <= i < j < |ps| ==> ps[i].name != ps[j].name
  }

  predicate WellFormedModule(m: TerraformModule)
  {
    m.category in CategoryIds
    && (forall k :: 0 <= k < |m.parameters| ==> WellFormedParameter(m.parameters[k]))
    && DistinctNames(m.parameters)
  }

  predicate IdsDistinct(mods: seq<TerraformModule>)
  {
    forall i, j :: 0 <= i < j < |mods| ==> mods[i].id != mods[j].id
  }

  /** Ids are distinct as soon as some lookup maps each module's id back to its position. */
  lemma IdsDistinctByIndex(mods: seq<TerraformModule>, index: string -> int)
    requires forall i :: 0 <= i < |mods| ==> index(mods[i].id) == i
    ensures IdsDistinct(mods)
  {
  }

  /** No category id contains a path separator, so a category names one folder. */
  lemma CategoryIdsHaveNoSlash()
    ensures forall c :: c in CategoryIds ==> '/' !in c
  {
  }

  /** The ids in `CategoryIds` are those of `ModuleCategories`, in the same order. */
  lemma CategoryIdsMatch()
    ensures |CategoryIds| == |ModuleCategories|
    ensures forall i :: 0 <= i < |CategoryIds| ==> CategoryIds[i] == ModuleCategories[i].id
  {
  }
}
