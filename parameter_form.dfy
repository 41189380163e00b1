// The parameter form: one card per selected catalog module, one input per declared
// parameter, each showing the user's override or the declared default, and reporting
// every edit as a (module id, parameter name, text) change.
module ParameterForm {
  import opened Wrappers
  import opened ModuleTypes
  import Seqs
  import Catalog
  import Templates
  import Generator
  import AwsCatalog
  import AzureCatalog
  import GcpCatalog

  /** `parameters[moduleId]?.[name]`: the user's text for a parameter, if any. */
  function Override(parameters: Generator.Parameters, moduleId: string, name: string): (r: Option<string>)
    ensures r.Some? <==> moduleId in parameters && name in parameters[moduleId]
    ensures r.Some? ==> r.value == parameters[moduleId][name]
  {
    Templates.Lookup(Generator.ParamsOf(parameters, moduleId), name)
  }

  /** `override || defaultValue || ""`: the text an input box shows. */
  function Shown(override: Option<string>, defaultValue: Option<string>): (r: string)
    ensures Templates.Truthy(override) ==> r == override.value
    ensures !Templates.Truthy(override) && Templates.Truthy(defaultValue) ==> r == defaultValue.value
    ensures !Templates.Truthy(override) && !Templates.Truthy(defaultValue) ==> r == ""
  {
    Templates.OrElse(override, Templates.OrElse(defaultValue, ""))
  }

  /** `override || defaultValue`: the option a drop-down shows, possibly none. */
  function Selection(override: Option<string>, defaultValue: Option<string>): (r: Option<string>)
    ensures Templates.Truthy(override) ==> r == override
    ensures !Templates.Truthy(override) ==> r == defaultValue
  {
    if Templates.Truthy(override) then override else defaultValue
  }

  /** The tick of a boolean parameter's box as the form computes it: ticked when the
      override or the default is `"true"`. */
  function CheckedAsWritten(override: Option<string>, defaultValue: Option<string>): bool
  {
    override == Some("true") || defaultValue == Some("true")
  }

  /** The tick the box evidently should show: the override when there is one, the default
      otherwise. */
  function Checked(override: Option<string>, defaultValue: Option<string>): bool
  {
    if override.Some? then override.value == "true" else defaultValue == Some("true")
  }

  /** What ticking or clearing the box reports. */
  function Emit(checked: bool): (r: string)
    ensures r == "true" || r == "false"
    ensures r == "true" <==> checked
  {
    if checked then "true" else "false"
  }

  /** The input of one parameter. */
  datatype Widget =
    | TextInput(text: string, placeholder: Option<string>)
    | SelectBox(selection: Option<string>, choices: seq<string>)
    | NumberInput(text: string, placeholder: Option<string>)
    | CheckBox(checked: bool)
    | ListInput(text: string, placeholder: Option<string>)

  /** The input chosen by the parameter's type; a string gets a drop-down when it declares
      options and a text box otherwise. */
  function WidgetFor(p: ModuleParameter, override: Option<string>): Widget
  {
    match p.paramType
    case StringParam =>
      if p.options.None? then TextInput(Shown(override, p.defaultValue), p.defaultValue)
      else SelectBox(Selection(override, p.defaultValue), p.options.value)
    case NumberParam => NumberInput(Shown(override, p.defaultValue), p.defaultValue)
    case BooleanParam => CheckBox(CheckedAsWritten(override, p.defaultValue))
    case ListParam => ListInput(Shown(override, p.defaultValue), p.defaultValue)
  }

  /** One labelled input: the name, the required marker and the input. */
  datatype Field = Field(name: string, required: bool, widget: Widget)

  function FieldOf(moduleId: string, parameters: Generator.Parameters): ModuleParameter -> Field
  {
    (p: ModuleParameter) => Field(p.name, p.required, WidgetFor(p, Override(parameters, moduleId, p.name)))
  }

  /** One module card: the module and a field per declared parameter, in declaration order. */
  datatype ModuleCard = ModuleCard(forModule: TerraformModule, fields: seq<Field>)

  function CardFor(parameters: Generator.Parameters): TerraformModule -> ModuleCard
  {
    (m: TerraformModule) => ModuleCard(m, Seqs.Map(m.parameters, FieldOf(m.id, parameters)))
  }

  function CardModule(c: ModuleCard): TerraformModule
  {
    c.forModule
  }

  function Cards(data: seq<TerraformModule>, parameters: Generator.Parameters): seq<ModuleCard>
  {
    Seqs.Map(data, CardFor(parameters))
  }

  /** The whole form: nothing when no catalog module is selected, otherwise a card per
      selected module in catalog order. */
  function Form(provider: string, selected: seq<string>, parameters: Generator.Parameters): Option<seq<ModuleCard>>
  {
    var data := Catalog.SelectModules(Catalog.GetModules(provider), selected);
    if |data| == 0 then None else Some(Cards(data, parameters))
  }

  /** A card lists its module's parameters in declaration order, each with its input. */
  ghost predicate ListsParameters(c: ModuleCard, parameters: Generator.Parameters)
  {
    |c.fields| == |c.forModule.parameters|
    && forall k :: 0 <= k < |c.fields| ==>
         c.fields[k].name == c.forModule.parameters[k].name
         && c.fields[k].widget == WidgetFor(c.forModule.parameters[k],
                                            Override(parameters, c.forModule.id, c.forModule.parameters[k].name))
  }

  /** What editing a field reports: the module's id, the parameter's name and the new text. */
  datatype Change = Change(moduleId: string, paramName: string, value: string)

  /** The change reported when the user types or picks `text` in a non-boolean input, or
      ticks (`text` is `"true"`) or clears the box of a boolean one. */
  function EditField(m: TerraformModule, p: ModuleParameter, text: string): (c: Change)
    ensures c.moduleId == m.id && c.paramName == p.name
    ensures p.paramType == BooleanParam ==> c.value == Emit(text == "true")
    ensures p.paramType != BooleanParam ==> c.value == text
  {
    Change(m.id, p.name, if p.paramType == BooleanParam then Emit(text == "true") else text)
  }

  // ---------------------------------------------------------------- properties

  /** The form is empty exactly when no module of the provider's catalog is selected. */
  lemma FormAbsentIffNothingSelected(provider: string, selected: seq<string>, parameters: Generator.Parameters)
    ensures Form(provider, selected, parameters).None?
            <==> forall m :: m in Catalog.GetModules(provider) ==> m.id !in selected
  {
    hide AwsCatalog.Modules, AzureCatalog.Modules, GcpCatalog.Modules;
    var data := Catalog.SelectModules(Catalog.GetModules(provider), selected);
    if |data| > 0 {
      assert data[0] in data;
    }
  }

  /** A card per module, in order, each listing the module's parameters. */
  lemma CardsFollowModules(data: seq<TerraformModule>, parameters: Generator.Parameters)
    ensures Seqs.Map(Cards(data, parameters), CardModule) == data
    ensures forall c :: c in Cards(data, parameters) ==> ListsParameters(c, parameters)
  {
    var cards := Cards(data, parameters);
    assert Seqs.Map(cards, CardModule) == data;
    forall c | c in cards ensures ListsParameters(c, parameters) {
      var i :| 0 <= i < |cards| && cards[i] == c;
    }
  }

  /** The cards are the selected catalog modules in catalog order, and each card lists the
      module's parameters in declaration order with the input for each. */
  lemma FormFollowsCatalog(provider: string, selected: seq<string>, parameters: Generator.Parameters)
    requires Form(provider, selected, parameters).Some?
    ensures Seqs.Map(Form(provider, selected, parameters).value, CardModule)
            == Catalog.SelectModules(Catalog.GetModules(provider), selected)
    ensures Seqs.IsSubsequence(Seqs.Map(Form(provider, selected, parameters).value, CardModule), Catalog.GetModules(provider))
    ensures forall c :: c in Form(provider, selected, parameters).value ==> ListsParameters(c, parameters)
  {
    hide AwsCatalog.Modules, AzureCatalog.Modules, GcpCatalog.Modules, Cards, ListsParameters;
    CardsFollowModules(Catalog.SelectModules(Catalog.GetModules(provider), selected), parameters);
  }

  /** After typing `text` the box shows it back, unless it is empty: an emptied box falls
      back to the declared default. */
  lemma TypedTextShown(text: string, defaultValue: Option<string>)
    ensures text != "" ==> Shown(Some(text), defaultValue) == text
    ensures text == "" ==> Shown(Some(text), defaultValue) == Shown(None, defaultValue)
  {
  }

  /** When the template falls back to the same non-empty default as the catalog, an input box
      shows exactly the text the generated file receives. */
  lemma ShownMatchesTemplate(override: Option<string>, defaultValue: string)
    requires defaultValue != ""
    ensures Shown(override, Some(defaultValue)) == Templates.OrElse(override, defaultValue)
  {
  }

  /** A drop-down of a catalog parameter never shows anything but one of its options, and
      always shows one when the parameter has a default. */
  lemma SelectionIsAnOption(p: ModuleParameter, override: Option<string>)
    requires WellFormedParameter(p) && p.paramType == StringParam && p.options.Some?
    requires override.None? || override.value in p.options.value
    ensures WidgetFor(p, override).SelectBox?
    ensures WidgetFor(p, override).selection.Some? ==> WidgetFor(p, override).selection.value in p.options.value
    ensures p.defaultValue.Some? ==> WidgetFor(p, override).selection.Some?
  {
  }

  /** Ticking or clearing the box and reading it back gives what the user set, whatever the
      default: the box and the stored value agree. */
  lemma CheckBoxRoundTrip(checked: bool, defaultValue: Option<string>)
    ensures Checked(Some(Emit(checked)), defaultValue) == checked
  {
  }

  /** The box shows what the generated file receives: a template that falls back to the
      catalog's boolean default turns the stored value into `"true"` exactly when the box is
      ticked. */
  lemma CheckBoxMatchesTemplate(override: Option<string>, defaultValue: string)
    requires defaultValue == "true" || defaultValue == "false"
    requires override.None? || override.value == "true" || override.value == "false"
    ensures Checked(override, Some(defaultValue)) <==> Templates.OrElse(override, defaultValue) == "true"
  {
  }

  /** As written, a box whose default is `"true"` cannot be cleared: after the user clears it
      the form stores `"false"` (and the generated file says `false`), yet the box stays ticked.
      The VPC module's `enable_dns_hostnames` is such a parameter. */
  lemma CheckBoxAsWrittenStaysTicked()
    ensures Emit(false) == "false"
    ensures CheckedAsWritten(Some(Emit(false)), Some("true"))
    ensures Templates.OrElse(Some(Emit(false)), "true") == "false"
    ensures !Checked(Some(Emit(false)), Some("true"))
  {
  }

  /** The page's box for a boolean parameter: with a default other than `"true"` it shows
      what the user last set; with the default `"true"` it is ticked whatever was stored. */
  lemma RenderedBoxTick(p: ModuleParameter, override: Option<string>, checked: bool)
    requires p.paramType == BooleanParam
    ensures WidgetFor(p, override).CheckBox?
    ensures p.defaultValue != Some("true") ==> WidgetFor(p, Some(Emit(checked))).checked == checked
    ensures p.defaultValue == Some("true") ==> WidgetFor(p, override).checked
  {
  }
}
