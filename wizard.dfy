// The four-step wizard page: the state it keeps, the handlers that change it and the
// step buttons, with the conditions under which each button is enabled.
module Wizard {
  import opened Wrappers
  import Seqs
  import Templates
  import Generator

  datatype Step = ProviderStep | ModulesStep | ParametersStep | GenerateStep

  /** The selection after clicking a module: the id is removed when present and appended
      otherwise. */
  function Toggled(selected: seq<string>, moduleId: string): (r: seq<string>)
    ensures moduleId in r <==> moduleId !in selected
    ensures forall id :: id != moduleId ==> (id in r <==> id in selected)
    ensures moduleId !in selected ==> r == selected + [moduleId]
    ensures moduleId in selected ==> Seqs.IsSubsequence(r, selected)
  {
    if moduleId in selected then
      Seqs.FilterIsSubsequence(selected, (id: string) => id != moduleId);
      Seqs.Filter(selected, (id: string) => id != moduleId)
    else selected + [moduleId]
  }

  /** After `parameters[moduleId][paramName] := value`; a module with no record yet gets one. */
  function SetParameter(parameters: Generator.Parameters, moduleId: string, paramName: string, value: string)
    : (r: Generator.Parameters)
    ensures moduleId in r && r[moduleId] == Generator.ParamsOf(parameters, moduleId)[paramName := value]
    ensures forall id :: id != moduleId ==> (id in r <==> id in parameters) && (id in parameters ==> r[id] == parameters[id])
  {
    parameters[moduleId := Generator.ParamsOf(parameters, moduleId)[paramName := value]]
  }

  class Wizard {
    var currentStep: Step
    var selectedProvider: Option<string>
    var selectedModules: seq<string>
    var parameters: Generator.Parameters
    var isGenerating: bool

    /** Between events: no id is selected twice, no generation is running, every step after
        the first has a provider, and the last two steps have a selected module. */
    ghost predicate Valid()
      reads this
    {
      Seqs.NoDuplicates(selectedModules)
      && !isGenerating
      && (currentStep != ProviderStep ==> selectedProvider.Some?)
      && (currentStep == ParametersStep || currentStep == GenerateStep ==> |selectedModules| > 0)
    }

    predicate CanProceedToModules()
      reads this
    {
      selectedProvider.Some?
    }

    predicate CanProceedToParameters()
      reads this
    {
      |selectedModules| > 0
    }

    /** A non-empty provider id and at least one selected module. */
    predicate CanGenerate()
      reads this
    {
      Templates.Truthy(selectedProvider) && |selectedModules| > 0
    }

    constructor()
      ensures Valid()
      ensures currentStep == ProviderStep && selectedProvider == None
      ensures selectedModules == [] && parameters == map[] && !isGenerating
    {
      currentStep := ProviderStep;
      selectedProvider := None;
      selectedModules := [];
      parameters := map[];
      isGenerating := false;
    }

    /** Picking a provider on the first step clears the selection and every entered value. */
    method ChangeProvider(providerId: string)
      requires Valid() && currentStep == ProviderStep
      modifies this
      ensures Valid()
      ensures selectedProvider == Some(providerId) && selectedModules == [] && parameters == map[]
      ensures currentStep == old(currentStep) && isGenerating == old(isGenerating)
    {
      selectedProvider := Some(providerId);
      selectedModules := [];
      parameters := map[];
    }

    /** Clicking a module card on the second step. */
    method ToggleModule(moduleId: string)
      requires Valid() && currentStep == ModulesStep && Templates.Truthy(selectedProvider)
      modifies this
      ensures Valid()
      ensures selectedModules == Toggled(old(selectedModules), moduleId)
      ensures currentStep == old(currentStep) && selectedProvider == old(selectedProvider)
      ensures parameters == old(parameters) && isGenerating == old(isGenerating)
    {
      ToggledKeepsDistinct(selectedModules, moduleId);
      selectedModules := Toggled(selectedModules, moduleId);
    }

    /** Editing a field of the parameter form on the third step. */
    method ChangeParameter(moduleId: string, paramName: string, value: string)
      requires Valid() && currentStep == ParametersStep && Templates.Truthy(selectedProvider)
      modifies this
      ensures Valid()
      ensures parameters == SetParameter(old(parameters), moduleId, paramName, value)
      ensures currentStep == old(currentStep) && selectedProvider == old(selectedProvider)
      ensures selectedModules == old(selectedModules) && isGenerating == old(isGenerating)
    {
      parameters := SetParameter(parameters, moduleId, paramName, value);
    }

    /** "Download Project" on the last step: nothing is produced unless a provider and a
        module are chosen; otherwise the archive of the current state. No generation is
        running afterwards, and nothing else changes. */
    method Generate() returns (archive: Option<seq<Generator.Entry>>)
      requires Valid() && currentStep == GenerateStep
      modifies this
      ensures Valid() && !isGenerating
      ensures old(CanGenerate()) ==>
                archive == Some(Generator.ProjectEntries(Templates.OrElse(selectedProvider, ""), selectedModules, parameters))
      ensures !old(CanGenerate()) ==> archive == None
      ensures currentStep == old(currentStep) && selectedProvider == old(selectedProvider)
      ensures selectedModules == old(selectedModules) && parameters == old(parameters)
    {
      hide Generator.ProjectEntries;
      if !Templates.Truthy(selectedProvider) || |selectedModules| == 0 {
        return None;
      }
      isGenerating := true;
      var entries := Generator.GenerateProject(selectedProvider.value, selectedModules, parameters);
      archive := Some(entries);
      isGenerating := false;
    }

    /** "Continue to Modules": disabled until a provider is picked. */
    method ContinueToModules()
      requires Valid() && currentStep == ProviderStep
      modifies this
      ensures Valid()
      ensures currentStep == if old(CanProceedToModules()) then ModulesStep else ProviderStep
      ensures selectedProvider == old(selectedProvider) && selectedModules == old(selectedModules)
      ensures parameters == old(parameters) && isGenerating == old(isGenerating)
    {
      if CanProceedToModules() {
        currentStep := ModulesStep;
      }
    }

    /** "Back to Provider". */
    method BackToProvider()
      requires Valid() && currentStep == ModulesStep && Templates.Truthy(selectedProvider)
      modifies this
      ensures Valid()
      ensures currentStep == ProviderStep
      ensures selectedProvider == old(selectedProvider) && selectedModules == old(selectedModules)
      ensures parameters == old(parameters) && isGenerating == old(isGenerating)
    {
      currentStep := ProviderStep;
    }

    /** "Configure Parameters": disabled while no module is selected. */
    method ContinueToParameters()
      requires Valid() && currentStep == ModulesStep && Templates.Truthy(selectedProvider)
      modifies this
      ensures Valid()
      ensures currentStep == if old(CanProceedToParameters()) then ParametersStep else ModulesStep
      ensures selectedProvider == old(selectedProvider) && selectedModules == old(selectedModules)
      ensures parameters == old(parameters) && isGenerating == old(isGenerating)
    {
      if CanProceedToParameters() {
        currentStep := ParametersStep;
      }
    }

    /** "Back to Modules". */
    method BackToModules()
      requires Valid() && currentStep == ParametersStep && Templates.Truthy(selectedProvider)
      modifies this
      ensures Valid()
      ensures currentStep == ModulesStep
      ensures selectedProvider == old(selectedProvider) && selectedModules == old(selectedModules)
      ensures parameters == old(parameters) && isGenerating == old(isGenerating)
    {
      currentStep := ModulesStep;
    }

    /** "Ready to Generate": always enabled. */
    method ReadyToGenerate()
      requires Valid() && currentStep == ParametersStep && Templates.Truthy(selectedProvider)
      modifies this
      ensures Valid()
      ensures currentStep == GenerateStep
      ensures selectedProvider == old(selectedProvider) && selectedModules == old(selectedModules)
      ensures parameters == old(parameters) && isGenerating == old(isGenerating)
    {
      currentStep := GenerateStep;
    }

    /** "Back to Configure". */
    method BackToConfigure()
      requires Valid() && currentStep == GenerateStep
      modifies this
      ensures Valid()
      ensures currentStep == ParametersStep
      ensures selectedProvider == old(selectedProvider) && selectedModules == old(selectedModules)
      ensures parameters == old(parameters) && isGenerating == old(isGenerating)
    {
      currentStep := ParametersStep;
    }
  }

  // ---------------------------------------------------------------- properties

  /** Clicking never makes an id appear twice. */
  lemma ToggledKeepsDistinct(selected: seq<string>, moduleId: string)
    requires Seqs.NoDuplicates(selected)
    ensures Seqs.NoDuplicates(Toggled(selected, moduleId))
  {
    var r := Toggled(selected, moduleId);
    if moduleId in selected {
      SubsequenceKeepsDistinct(r, selected);
    }
  }

  /** A subsequence of a sequence without repetitions has none either. */
  lemma {:induction false} SubsequenceKeepsDistinct<T>(r: seq<T>, s: seq<T>)
    requires Seqs.IsSubsequence(r, s) && Seqs.NoDuplicates(s)
    ensures Seqs.NoDuplicates(r)
    decreases |s|
  {
    if |r| > 0 {
      assert Seqs.NoDuplicates(s[1..]) by {
        forall i, j | 0 <= i < j < |s[1..]| ensures s[1..][i] != s[1..][j] {
          assert s[1..][i] == s[i + 1] && s[1..][j] == s[j + 1];
        }
      }
      if r[0] == s[0] {
        SubsequenceKeepsDistinct(r[1..], s[1..]);
        SubsequenceMembers(r[1..], s[1..]);
        forall j | 0 < j < |r| ensures r[0] != r[j] {
          assert r[j] == r[1..][j - 1] && r[j] in s[1..];
          var k :| 0 <= k < |s[1..]| && s[1..][k] == r[j];
          assert s[k + 1] == r[j];
        }
      } else {
        SubsequenceKeepsDistinct(r, s[1..]);
      }
    }
  }

  /** Every element of a subsequence is an element of the sequence. */
  lemma {:induction false} SubsequenceMembers<T>(r: seq<T>, s: seq<T>)
    requires Seqs.IsSubsequence(r, s)
    ensures forall x :: x in r ==> x in s
    decreases |s|
  {
    if |r| > 0 {
      if r[0] == s[0] {
        SubsequenceMembers(r[1..], s[1..]);
        assert forall x :: x in r ==> x == r[0] || x in r[1..];
      } else {
        SubsequenceMembers(r, s[1..]);
      }
      assert forall x :: x in s[1..] ==> x in s;
    }
  }

  /** Clicking a module the selection does not hold, then clicking it again, gives back the
      selection; clicking twice always gives back the same set of ids. */
  lemma ToggleTwice(selected: seq<string>, moduleId: string)
    ensures forall id :: id in Toggled(Toggled(selected, moduleId), moduleId) <==> id in selected
    ensures moduleId !in selected ==> Toggled(Toggled(selected, moduleId), moduleId) == selected
  {
    if moduleId !in selected {
      var once := selected + [moduleId];
      FilterDropsLast(selected, moduleId);
    }
  }

  /** Filtering out an element that occurs only as the last one removes just that one. */
  lemma {:induction false} FilterDropsLast(s: seq<string>, x: string)
    requires x !in s
    ensures Seqs.Filter(s + [x], (id: string) => id != x) == s
    decreases |s|
  {
    var keep := (id: string) => id != x;
    if |s| == 0 {
      assert [x][1..] == [];
    } else {
      assert (s + [x])[1..] == s[1..] + [x];
      FilterDropsLast(s[1..], x);
      assert keep(s[0]);
    }
  }

  /** An edit sets exactly the edited value: every other value reads as before. */
  lemma SetParameterReadsBack(parameters: Generator.Parameters, moduleId: string, paramName: string, value: string,
                              otherModule: string, otherParam: string)
    ensures var r := SetParameter(parameters, moduleId, paramName, value);
            Templates.Lookup(Generator.ParamsOf(r, moduleId), paramName) == Some(value)
            && ((otherModule, otherParam) != (moduleId, paramName) ==>
                  Templates.Lookup(Generator.ParamsOf(r, otherModule), otherParam)
                  == Templates.Lookup(Generator.ParamsOf(parameters, otherModule), otherParam))
  {
  }
}
