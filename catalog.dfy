// Access to the three provider catalogs as the generator, the module selector and the
// parameter form see them: the provider switch, the selection filter and the lookup by id.
module Catalog {
  import opened Wrappers
  import opened ModuleTypes
  import Seqs
  import AwsCatalog
  import AzureCatalog
  import GcpCatalog

  /** The provider ids the wizard offers. */
  const ProviderIds: seq<string> := ["aws", "azure", "gcp"]

  /** The module list of a provider; any other provider string has none. */
  function GetModules(provider: string): seq<TerraformModule>
  {
    if provider == "aws" then AwsCatalog.Modules()
    else if provider == "azure" then AzureCatalog.Modules()
    else if provider == "gcp" then GcpCatalog.Modules()
    else []
  }

  /** What every catalog guarantees: entries obey the schema rules and ids are unique. */
  predicate ValidCatalog(mods: seq<TerraformModule>)
  {
    (forall m :: m in mods ==> WellFormedModule(m)) && IdsDistinct(mods)
  }

  /** Every provider's module list is a valid catalog, and an unknown provider's is empty. */
  lemma GetModulesValid(provider: string)
    ensures ValidCatalog(GetModules(provider))
    ensures provider !in ProviderIds ==> GetModules(provider) == []
  {
    hide AwsCatalog.Modules, AzureCatalog.Modules, GcpCatalog.Modules;
    if provider == "aws" {
      AwsCatalog.ModulesWellFormed();
      AwsCatalog.IdsUnique();
    } else if provider == "azure" {
      AzureCatalog.ModulesWellFormed();
      AzureCatalog.IdsUnique();
    } else if provider == "gcp" {
      GcpCatalog.ModulesWellFormed();
      GcpCatalog.IdsUnique();
    }
  }

  /** `modules.find(m => m.id === id)`: the first module with that id, if any. */
  function Find(mods: seq<TerraformModule>, id: string): (r: Option<TerraformModule>)
    ensures r.Some? <==> exists i :: 0 <= i < |mods| && mods[i].id == id
    ensures r.Some? ==> r.value.id == id && r.value in mods
    ensures r.Some? ==> exists i :: 0 <= i < |mods| && mods[i] == r.value
                                      && forall j :: 0 <= j < i ==> mods[j].id != id
  {
    if |mods| == 0 then None
    else if mods[0].id == id then Some(mods[0])
    else
      var r := Find(mods[1..], id);
      assert forall i :: 0 < i < |mods| ==> mods[i] == mods[1..][i - 1];
      r
  }

  /** In a catalog with unique ids, the module found for the id of a member is that member. */
  lemma FindMember(mods: seq<TerraformModule>, m: TerraformModule)
    requires IdsDistinct(mods) && m in mods
    ensures Find(mods, m.id) == Some(m)
  {
    var r := Find(mods, m.id);
    var i :| 0 <= i < |mods| && mods[i] == r.value;
    var k :| 0 <= k < |mods| && mods[k] == m;
    assert mods[i].id == mods[k].id;
  }

  function IsSelected(selected: seq<string>): TerraformModule -> bool
  {
    (m: TerraformModule) => m.id in selected
  }

  /** `modules.filter(module => selected.includes(module.id))`: the selected catalog
      modules, in catalog order. */
  function SelectModules(mods: seq<TerraformModule>, selected: seq<string>): (r: seq<TerraformModule>)
    ensures forall m :: m in r <==> m in mods && m.id in selected
    ensures Seqs.IsSubsequence(r, mods)
  {
    Seqs.FilterIsSubsequence(mods, IsSelected(selected));
    Seqs.Filter(mods, IsSelected(selected))
  }

  /** The selection is read as a set of ids: order, repetitions and ids outside the
      catalog make no difference. */
  lemma {:induction false} SelectionAsSet(mods: seq<TerraformModule>, s1: seq<string>, s2: seq<string>)
    requires forall m :: m in mods ==> (m.id in s1 <==> m.id in s2)
    ensures SelectModules(mods, s1) == SelectModules(mods, s2)
  {
    Seqs.FilterCongruent(mods, IsSelected(s1), IsSelected(s2));
  }

  /** Keeping part of a catalog with unique ids keeps the ids unique. */
  lemma {:induction false} FilterIdsDistinct(mods: seq<TerraformModule>, keep: TerraformModule -> bool)
    requires IdsDistinct(mods)
    ensures IdsDistinct(Seqs.Filter(mods, keep))
    decreases |mods|
  {
    if |mods| > 0 {
      var tail := mods[1..];
      assert IdsDistinct(tail) by {
        forall i, j | 0 <= i < j < |tail| ensures tail[i].id != tail[j].id {
          assert tail[i] == mods[i + 1] && tail[j] == mods[j + 1];
        }
      }
      FilterIdsDistinct(tail, keep);
      if keep(mods[0]) {
        var r := Seqs.Filter(mods, keep);
        forall j | 0 < j < |r| ensures r[0].id != r[j].id {
          assert r[j] in tail;
          var k :| 0 <= k < |tail| && tail[k] == r[j];
          assert mods[k + 1] == r[j];
        }
      }
    }
  }

  /** The selected modules of a catalog with unique ids have unique ids. */
  lemma SelectedIdsDistinct(mods: seq<TerraformModule>, selected: seq<string>)
    requires IdsDistinct(mods)
    ensures IdsDistinct(SelectModules(mods, selected))
  {
    FilterIdsDistinct(mods, IsSelected(selected));
  }
}
