// The module selector page: the provider's catalog shown as one card per module,
// grouped under the fixed list of categories, with the selection marked on each card.
module ModuleSelector {
  import opened ModuleTypes
  import Seqs
  import Catalog
  import AwsCatalog
  import AzureCatalog
  import GcpCatalog

  /** `modules.filter(module => module.category === categoryId)`. */
  function ModulesByCategory(modules: seq<TerraformModule>, categoryId: string): (r: seq<TerraformModule>)
    ensures forall m :: m in r <==> m in modules && m.category == categoryId
    ensures Seqs.IsSubsequence(r, modules)
  {
    Seqs.FilterIsSubsequence(modules, Seqs.KeyIs(Category, categoryId));
    Seqs.KeyIsMeans(Category, categoryId);
    Seqs.Filter(modules, Seqs.KeyIs(Category, categoryId))
  }

  /** One category card: the category and the modules listed under it. */
  datatype Section = Section(category: ModuleCategory, modules: seq<TerraformModule>)

  function SectionOf(modules: seq<TerraformModule>): ModuleCategory -> Section
  {
    (c: ModuleCategory) => Section(c, ModulesByCategory(modules, c.id))
  }

  function HasModules(s: Section): bool
  {
    |s.modules| > 0
  }

  function SectionModules(s: Section): seq<TerraformModule>
  {
    s.modules
  }

  function SectionCategory(s: Section): ModuleCategory
  {
    s.category
  }

  /** The cards for the categories `cats`, in that order, skipping categories with no module. */
  function ListSections(cats: seq<ModuleCategory>, modules: seq<TerraformModule>): seq<Section>
  {
    Seqs.Filter(Seqs.Map(cats, SectionOf(modules)), HasModules)
  }

  /** The page for a provider: its catalog under the seven fixed categories. */
  function Sections(provider: string): seq<Section>
  {
    ListSections(ModuleCategories, Catalog.GetModules(provider))
  }

  /** One module card: highlighted and ticked when the module's id is selected. */
  datatype Card = Card(shown: TerraformModule, highlighted: bool, checked: bool, paramCount: nat)

  function CardOf(m: TerraformModule, selectedModules: seq<string>): Card
  {
    Card(m, m.id in selectedModules, m.id in selectedModules, |m.parameters|)
  }

  /** What a click on the card of `m` reports: the module's id. */
  function ClickedId(m: TerraformModule): string
  {
    m.id
  }

  // ---------------------------------------------------------------- properties

  /** A shown card holds exactly the modules of its category, and is never empty; a category
      is shown exactly when it has a module. */
  lemma SectionsShowNonEmptyCategories(cats: seq<ModuleCategory>, modules: seq<TerraformModule>, c: ModuleCategory)
    ensures Section(c, ModulesByCategory(modules, c.id)) in ListSections(cats, modules)
            <==> c in cats && ModulesByCategory(modules, c.id) != []
    ensures forall s :: s in ListSections(cats, modules) ==>
              s.category in cats && s.modules == ModulesByCategory(modules, s.category.id) && s.modules != []
  {
    var all := Seqs.Map(cats, SectionOf(modules));
    if c in cats {
      var i :| 0 <= i < |cats| && cats[i] == c;
      assert all[i] == Section(c, ModulesByCategory(modules, c.id));
    }
    forall s | s in all ensures s.category in cats && s.modules == ModulesByCategory(modules, s.category.id) {
      var i :| 0 <= i < |all| && all[i] == s;
    }
  }

  /** The cards follow the order of the category list. */
  lemma SectionsInCategoryOrder(cats: seq<ModuleCategory>, modules: seq<TerraformModule>)
    ensures Seqs.IsSubsequence(Seqs.Map(ListSections(cats, modules), SectionCategory), cats)
  {
    var all := Seqs.Map(cats, SectionOf(modules));
    Seqs.FilterIsSubsequence(all, HasModules);
    Seqs.MapSubsequence(ListSections(cats, modules), all, SectionCategory);
    assert Seqs.Map(all, SectionCategory) == cats;
  }

  /** With distinct category ids covering every module's category, the cards together list
      each module of the catalog exactly once. */
  lemma SectionsCoverModules(cats: seq<ModuleCategory>, modules: seq<TerraformModule>)
    requires forall i, j :: 0 <= i < j < |cats| ==> cats[i].id != cats[j].id
    requires forall m :: m in modules ==> exists c :: c in cats && m.category == c.id
    ensures multiset(Seqs.Flatten(Seqs.Map(ListSections(cats, modules), SectionModules))) == multiset(modules)
  {
    var all := Seqs.Map(cats, SectionOf(modules));
    var ids := Seqs.Map(cats, (c: ModuleCategory) => c.id);
    forall s | s in all && !HasModules(s) ensures SectionModules(s) == [] {}
    Seqs.FlattenMapFilterEmpty(all, HasModules, SectionModules);
    assert Seqs.Map(all, SectionModules) == Seqs.Buckets(modules, Category, ids) by {
      forall i | 0 <= i < |cats|
        ensures Seqs.Map(all, SectionModules)[i] == Seqs.Buckets(modules, Category, ids)[i]
      {
        assert ModulesByCategory(modules, cats[i].id) == Seqs.Filter(modules, Seqs.KeyIs(Category, ids[i]));
      }
    }
    forall m | m in modules ensures Category(m) in ids {
      var c :| c in cats && m.category == c.id;
      var i :| 0 <= i < |cats| && cats[i] == c;
      assert ids[i] == c.id;
    }
    assert Seqs.NoDuplicates(ids);
    Seqs.BucketsPartition(modules, Category, ids);
  }

  /** Every module of every provider's catalog is on the provider's page exactly once, under the
      fixed categories in their fixed order. */
  lemma PageListsCatalog(provider: string)
    ensures multiset(Seqs.Flatten(Seqs.Map(Sections(provider), SectionModules))) == multiset(Catalog.GetModules(provider))
    ensures Seqs.IsSubsequence(Seqs.Map(Sections(provider), SectionCategory), ModuleCategories)
  {
    hide AwsCatalog.Modules, AzureCatalog.Modules, GcpCatalog.Modules;
    var modules := Catalog.GetModules(provider);
    Catalog.GetModulesValid(provider);
    CategoryIdsMatch();
    forall m | m in modules ensures exists c :: c in ModuleCategories && m.category == c.id {
      assert WellFormedModule(m);
      var i :| 0 <= i < |CategoryIds| && CategoryIds[i] == m.category;
      assert ModuleCategories[i] in ModuleCategories;
    }
    SectionsCoverModules(ModuleCategories, modules);
    SectionsInCategoryOrder(ModuleCategories, modules);
  }

  /** An empty catalog shows no card at all. */
  lemma NoModulesNoSections(cats: seq<ModuleCategory>)
    ensures ListSections(cats, []) == []
  {
    var all := Seqs.Map(cats, SectionOf([]));
    forall s | s in all ensures !HasModules(s) {
      var i :| 0 <= i < |all| && all[i] == s;
    }
    Seqs.FilterNone(all, HasModules);
  }

  /** A provider outside the catalog gets an empty page. */
  lemma UnknownProviderShowsNothing(provider: string)
    requires provider !in Catalog.ProviderIds
    ensures Sections(provider) == []
  {
    hide AwsCatalog.Modules, AzureCatalog.Modules, GcpCatalog.Modules, ListSections;
    NoModulesNoSections(ModuleCategories);
  }

  /** A card is highlighted, and its box ticked, exactly when the generator would write the
      module: the card's module is among the selected catalog modules. */
  lemma CardMarksSelection(provider: string, selectedModules: seq<string>, s: Section, m: TerraformModule)
    requires s in Sections(provider) && m in s.modules
    ensures CardOf(m, selectedModules).checked <==> m in Catalog.SelectModules(Catalog.GetModules(provider), selectedModules)
    ensures CardOf(m, selectedModules).highlighted == CardOf(m, selectedModules).checked
    ensures ClickedId(m) == CardOf(m, selectedModules).shown.id
  {
    hide AwsCatalog.Modules, AzureCatalog.Modules, GcpCatalog.Modules;
    SectionsShowNonEmptyCategories(ModuleCategories, Catalog.GetModules(provider), s.category);
  }
}
