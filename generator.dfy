// The project assembler `generateTerraformProject` (src/utils/terraformGenerator.ts:257-375).
// The archive is modelled as the sequence of folder and file entries the generator adds to
// it, in the order it adds them; a path is the list of its folder names and its file name.
module Generator {
  import opened Wrappers
  import opened ModuleTypes
  import Seqs
  import JsStrings
  import Catalog
  import Templates
  import TemplateRegistry
  import RootFiles
  import AwsCatalog
  import AzureCatalog
  import GcpCatalog

  /** The values the user entered: module id to parameter name to value. */
  type Parameters = map<string, Templates.Params>

  /** An entry of the archive, with its path from the archive root. */
  datatype Entry = Folder(path: seq<string>) | File(path: seq<string>, content: string)

  /** `parameters[module.id] || {}`: an object is always truthy, so a stored map is passed
      as it is, even when empty, and a module without one gets the empty map. The
      catalog defaults are not merged in: the templates supply their own fallbacks. */
  function ParamsOf(parameters: Parameters, id: string): (r: Templates.Params)
    ensures id in parameters ==> r == parameters[id]
    ensures id !in parameters ==> r == map[]
  {
    if id in parameters then parameters[id] else map[]
  }

  // ---------------------------------------------------------------- grouping

  /** The categories of `mods` in order of first appearance: the key order of an object
      filled by `reduce` (category ids are not integer-like, so insertion order is kept). */
  function Categories(mods: seq<TerraformModule>): seq<string>
  {
    Seqs.Dedup(Seqs.Map(mods, Category))
  }

  /** The modules of one category, in the order of `mods`. */
  function Group(mods: seq<TerraformModule>, c: string): seq<TerraformModule>
  {
    Seqs.Filter(mods, Seqs.KeyIs(Category, c))
  }

  /** `groups` holds, for each category of `done` and no other key, its modules in order;
      `cats` lists those categories in order of first appearance. */
  ghost predicate Grouped(done: seq<TerraformModule>, cats: seq<string>, groups: map<string, seq<TerraformModule>>)
  {
    && cats == Categories(done)
    && (forall c :: c in groups <==> c in cats)
    && (forall c :: c in cats ==> groups[c] == Group(done, c))
  }

  /** A category that has not been seen has an empty group. */
  lemma UnseenCategory(done: seq<TerraformModule>, c: string)
    requires c !in Categories(done)
    ensures Group(done, c) == []
  {
    forall x | x in done
      ensures !Seqs.KeyIs(Category, c)(x)
    {
      var k :| 0 <= k < |done| && done[k] == x;
      assert Seqs.Map(done, Category)[k] == x.category;
    }
    Seqs.FilterNone(done, Seqs.KeyIs(Category, c));
  }

  /** The category list after one more module. */
  lemma StepCategories(done: seq<TerraformModule>, m: TerraformModule, cats: seq<string>)
    requires cats == Categories(done)
    ensures Categories(done + [m]) == if m.category in cats then cats else cats + [m.category]
  {
    Seqs.MapConcat(done, [m], Category);
    assert Seqs.Map([m], Category) == [m.category];
    Seqs.DedupSnoc(Seqs.Map(done, Category), m.category);
  }

  /** The group of each category after one more module. */
  lemma StepGroup(done: seq<TerraformModule>, m: TerraformModule, c: string)
    ensures Group(done + [m], c) == if m.category == c then Group(done, c) + [m] else Group(done, c)
  {
    Seqs.FilterSnoc(done, m, Seqs.KeyIs(Category, c));
    assert Seqs.KeyIs(Category, c)(m) == (Category(m) == c);
  }

  /** One step of the `reduce`: create the bucket on first sight, then push the module. */
  lemma GroupedStep(done: seq<TerraformModule>, m: TerraformModule, cats: seq<string>,
                    groups: map<string, seq<TerraformModule>>)
    requires Grouped(done, cats, groups)
    ensures Grouped(done + [m],
                    if m.category in groups then cats else cats + [m.category],
                    groups[m.category := (if m.category in groups then groups[m.category] else []) + [m]])
  {
    hide Categories, Group;
    StepCategories(done, m, cats);
    GroupedStepAll(done, m, cats, groups);
  }

  /** Every bucket after that step. */
  lemma GroupedStepAll(done: seq<TerraformModule>, m: TerraformModule, cats: seq<string>,
                       groups: map<string, seq<TerraformModule>>)
    requires Grouped(done, cats, groups)
    ensures forall c :: c in cats || c == m.category ==>
              groups[m.category := (if m.category in groups then groups[m.category] else []) + [m]][c]
              == Group(done + [m], c)
  {
    hide Categories, Group;
    forall c | c in cats || c == m.category
      ensures groups[m.category := (if m.category in groups then groups[m.category] else []) + [m]][c]
              == Group(done + [m], c)
    {
      GroupedStepAt(done, m, cats, groups, c);
    }
  }

  /** The bucket of one category after that step. */
  lemma GroupedStepAt(done: seq<TerraformModule>, m: TerraformModule, cats: seq<string>,
                      groups: map<string, seq<TerraformModule>>, c: string)
    requires Grouped(done, cats, groups)
    requires c in cats || c == m.category
    ensures groups[m.category := (if m.category in groups then groups[m.category] else []) + [m]][c]
            == Group(done + [m], c)
  {
    var groups' := groups[m.category := (if m.category in groups then groups[m.category] else []) + [m]];
    StepGroup(done, m, c);
    hide Categories, Group;
    if c == m.category {
      if m.category !in groups {
        UnseenCategory(done, c);
        assert groups'[c] == [] + [m];
      } else {
        assert groups'[c] == groups[c] + [m];
      }
    } else {
      assert c in cats && groups'[c] == groups[c];
    }
  }

  /** The `reduce` that groups the selected modules by category: `acc[category]` is
      created on first sight and the module pushed onto it. */
  method GroupByCategory(mods: seq<TerraformModule>) returns (cats: seq<string>, groups: map<string, seq<TerraformModule>>)
    ensures cats == Categories(mods)
    ensures forall c :: c in groups <==> c in cats
    ensures forall c :: c in cats ==> groups[c] == Group(mods, c)
  {
    hide Grouped, Categories, Group;
    cats, groups := [], map[];
    GroupedStart();
    var i := 0;
    while i < |mods|
      invariant 0 <= i <= |mods|
      invariant Grouped(mods[..i], cats, groups)
    {
      var m := mods[i];
      ghost var cats0, groups0 := cats, groups;
      GroupedStep(mods[..i], m, cats, groups);
      if m.category !in groups {
        groups := groups[m.category := []];
        cats := cats + [m.category];
      }
      groups := groups[m.category := groups[m.category] + [m]];
      if m.category in groups0 {
        assert groups == groups0[m.category := groups0[m.category] + [m]];
      } else {
        assert groups == groups0[m.category := [] + [m]];
      }
      assert mods[..i + 1] == mods[..i] + [m];
      i := i + 1;
    }
    assert mods[..|mods|] == mods;
    GroupedAll(mods, cats, groups);
  }

  lemma GroupedStart()
    ensures Grouped([], [], map[])
  {
  }

  lemma GroupedAll(mods: seq<TerraformModule>, cats: seq<string>, groups: map<string, seq<TerraformModule>>)
    requires Grouped(mods, cats, groups)
    ensures cats == Categories(mods)
    ensures forall c :: c in groups <==> c in cats
    ensures forall c :: c in cats ==> groups[c] == Group(mods, c)
  {
  }

  /** Grouping is a partition: every module lands in the group of its category and in no
      other, and the groups in category order hold the modules exactly once each. */
  lemma GroupingPartition(mods: seq<TerraformModule>)
    ensures multiset(Seqs.Flatten(Seqs.Buckets(mods, Category, Categories(mods)))) == multiset(mods)
    ensures forall m, c :: m in mods ==> (m in Group(mods, c) <==> m.category == c)
  {
    var cats := Categories(mods);
    forall m | m in mods ensures Category(m) in cats {
      var k :| 0 <= k < |mods| && mods[k] == m;
      assert Seqs.Map(mods, Category)[k] == m.category;
    }
    Seqs.BucketsPartition(mods, Category, cats);
  }

  // ---------------------------------------------------------------- archive contents

  /** The selected modules of the provider's catalog, in catalog order. */
  function SelectedData(provider: string, selected: seq<string>): seq<TerraformModule>
  {
    Catalog.SelectModules(Catalog.GetModules(provider), selected)
  }

  /** `<provider>/<category>/<id>.tf`, written only when the module has a template. */
  function ModuleFile(provider: string, parameters: Parameters, category: string, m: TerraformModule): seq<Entry>
  {
    match TemplateRegistry.TemplateFor(provider, m.id)
    case Some(template) =>
      [File([provider, category, m.id + ".tf"], Templates.Render(template, ParamsOf(parameters, m.id)))]
    case None => []
  }

  function ModuleFileOf(provider: string, parameters: Parameters, category: string): TerraformModule -> seq<Entry>
  {
    m => ModuleFile(provider, parameters, category, m)
  }

  /** The entries of one category: its folder, then the files of its modules in order. */
  function CategoryEntries(provider: string, parameters: Parameters, category: string, group: seq<TerraformModule>): seq<Entry>
  {
    [Folder([provider, category])] + Seqs.Flatten(Seqs.Map(group, ModuleFileOf(provider, parameters, category)))
  }

  function CategoryEntriesOf(provider: string, parameters: Parameters, mods: seq<TerraformModule>): string -> seq<Entry>
  {
    c => CategoryEntries(provider, parameters, c, Group(mods, c))
  }

  /** The module part of the archive: the categories in order of first appearance. */
  function ModuleEntries(provider: string, selected: seq<string>, parameters: Parameters): seq<Entry>
  {
    var mods := SelectedData(provider, selected);
    Seqs.Flatten(Seqs.Map(Categories(mods), CategoryEntriesOf(provider, parameters, mods)))
  }

  /** The provider folder and the four root files. */
  function RootEntries(provider: string, selected: seq<string>): seq<Entry>
  {
    [Folder([provider]),
     File([provider, "main.tf"], RootFiles.MainFile(provider)),
     File([provider, "variables.tf"], RootFiles.VariablesFile(provider)),
     File([provider, "terraform.tfvars"], RootFiles.TfvarsFile(provider)),
     File([provider, "outputs.tf"], RootFiles.OutputsFile(selected))]
  }

  // ---------------------------------------------------------------- README.md

  /** `- **<name>**: <description>` for a catalog module, `''` for an unknown id. */
  function ModuleLine(mods: seq<TerraformModule>, id: string): string
  {
    match Catalog.Find(mods, id)
    case Some(m) => ModuleBullet(m)
    case None => ""
  }

  function ModuleBullet(m: TerraformModule): string
  {
    "- **" + m.name + "**: " + m.description
  }

  function ModuleLineOf(mods: seq<TerraformModule>): string -> string
  {
    id => ModuleLine(mods, id)
  }

  /** `Boolean` on a string: only `''` is falsy. */
  function NonEmpty(s: string): bool
  {
    s != ""
  }

  function IsFound(mods: seq<TerraformModule>): string -> bool
  {
    id => Catalog.Find(mods, id).Some?
  }

  /** `selectedModules.map(...).filter(Boolean).join('\n')`. */
  function ModuleList(mods: seq<TerraformModule>, selected: seq<string>): string
  {
    JsStrings.Join(Seqs.Filter(Seqs.Map(selected, ModuleLineOf(mods)), NonEmpty), "\n")
  }

  /** The README: the provider in upper case in the title, the fixed text and the list of
      the selected modules. */
  function Readme(provider: string, selected: seq<string>): string
  {
    ReadmeText0() + JsStrings.ToUpperAscii(provider) + ReadmeText1()
    + ModuleList(Catalog.GetModules(provider), selected) + ReadmeText2()
  }

  /** Dropping the empty lines keeps exactly the lines of the ids found in the catalog, in
      selection order: no bullet is empty. */
  lemma {:induction false} ModuleLinesOfFoundIds(mods: seq<TerraformModule>, selected: seq<string>)
    ensures Seqs.Filter(Seqs.Map(selected, ModuleLineOf(mods)), NonEmpty)
         == Seqs.Map(Seqs.Filter(selected, IsFound(mods)), ModuleLineOf(mods))
    decreases |selected|
  {
    if |selected| > 0 {
      var id := selected[0];
      ModuleLinesOfFoundIds(mods, selected[1..]);
      assert Seqs.Map(selected, ModuleLineOf(mods))[1..] == Seqs.Map(selected[1..], ModuleLineOf(mods));
      if Catalog.Find(mods, id).Some? {
        assert ModuleLine(mods, id) == ModuleBullet(Catalog.Find(mods, id).value);
        assert "- **" <= ModuleLine(mods, id);
      }
    }
  }

  /** Each selected module of the catalog is listed in the README by name and
      description. */
  lemma ReadmeListsModule(provider: string, selected: seq<string>, m: TerraformModule)
    requires m in Catalog.GetModules(provider) && m.id in selected
    ensures JsStrings.Contains(Readme(provider, selected), ModuleBullet(m))
  {
    hide ReadmeText0, ReadmeText1, ReadmeText2, ModuleBullet, JsStrings.Contains,
         AwsCatalog.Modules, AzureCatalog.Modules, GcpCatalog.Modules;
    var mods := Catalog.GetModules(provider);
    Catalog.GetModulesValid(provider);
    Catalog.FindMember(mods, m);
    var found := Seqs.Filter(selected, IsFound(mods));
    assert m.id in found;
    var k := Seqs.IndexOf(found, m.id);
    ModuleLinesOfFoundIds(mods, selected);
    var lines := Seqs.Map(found, ModuleLineOf(mods));
    assert lines[k] == ModuleBullet(m);
    JsStrings.JoinContains(lines, k, "\n");
    var head := ReadmeText0() + JsStrings.ToUpperAscii(provider) + ReadmeText1();
    JsStrings.ContainsWiden(head, ModuleList(mods, selected), ReadmeText2(), ModuleBullet(m));
  }

  /** The README lists nothing for an id that is not in the catalog. */
  lemma ReadmeSkipsUnknownIds(mods: seq<TerraformModule>, selected: seq<string>, id: string)
    requires Catalog.Find(mods, id).None?
    ensures ModuleList(mods, selected + [id]) == ModuleList(mods, selected)
  {
    var lines := Seqs.Map(selected, ModuleLineOf(mods));
    Seqs.MapConcat(selected, [id], ModuleLineOf(mods));
    assert ModuleLineOf(mods)(id) == "";
    assert Seqs.Map([id], ModuleLineOf(mods)) == [""];
    Seqs.FilterSnoc(lines, "", NonEmpty);
    assert !NonEmpty("");
    assert Seqs.Filter(lines + [""], NonEmpty) == Seqs.Filter(lines, NonEmpty);
  }

  /** The README entry. */
  function ReadmeEntry(provider: string, selected: seq<string>): Entry
  {
    File([provider, "README.md"], Readme(provider, selected))
  }

  /** Every entry, in the order `generateTerraformProject` adds it to the archive. */
  function ProjectEntries(provider: string, selected: seq<string>, parameters: Parameters): seq<Entry>
  {
    RootEntries(provider, selected) + ModuleEntries(provider, selected, parameters) + [ReadmeEntry(provider, selected)]
  }

  // ---------------------------------------------------------------- the assembler

  /** `entries` is `base` followed by the files of the modules in `done`. */
  ghost predicate ModulesWritten(provider: string, parameters: Parameters, category: string,
                                 done: seq<TerraformModule>, base: seq<Entry>, entries: seq<Entry>)
  {
    entries == base + Seqs.Flatten(Seqs.Map(done, ModuleFileOf(provider, parameters, category)))
  }

  lemma ModulesWrittenStart(provider: string, parameters: Parameters, category: string, base: seq<Entry>)
    ensures ModulesWritten(provider, parameters, category, [], base, base)
  {
    hide ModuleFile;
    assert Seqs.Map([], ModuleFileOf(provider, parameters, category)) == [];
  }

  /** Handling one more module appends its file, if it has one. */
  lemma ModulesWrittenStep(provider: string, parameters: Parameters, category: string,
                           done: seq<TerraformModule>, m: TerraformModule, base: seq<Entry>, entries: seq<Entry>)
    requires ModulesWritten(provider, parameters, category, done, base, entries)
    ensures ModulesWritten(provider, parameters, category, done + [m], base,
                           entries + ModuleFile(provider, parameters, category, m))
  {
    hide ModuleFile;
    Seqs.FlattenMapSnoc(done, m, ModuleFileOf(provider, parameters, category));
  }

  /** `entries` is `base` followed by the entries of the categories in `done`. */
  ghost predicate CategoriesWritten(provider: string, parameters: Parameters, mods: seq<TerraformModule>,
                                    done: seq<string>, base: seq<Entry>, entries: seq<Entry>)
  {
    entries == base + Seqs.Flatten(Seqs.Map(done, CategoryEntriesOf(provider, parameters, mods)))
  }

  lemma CategoriesWrittenStart(provider: string, parameters: Parameters, mods: seq<TerraformModule>, base: seq<Entry>)
    ensures CategoriesWritten(provider, parameters, mods, [], base, base)
  {
    hide CategoryEntries;
    assert Seqs.Map([], CategoryEntriesOf(provider, parameters, mods)) == [];
  }

  /** Handling one more category appends its folder and the files of its group. */
  lemma CategoriesWrittenStep(provider: string, parameters: Parameters, mods: seq<TerraformModule>,
                              done: seq<string>, c: string, base: seq<Entry>, entries: seq<Entry>, after: seq<Entry>)
    requires CategoriesWritten(provider, parameters, mods, done, base, entries)
    requires ModulesWritten(provider, parameters, c, Group(mods, c), entries + [Folder([provider, c])], after)
    ensures CategoriesWritten(provider, parameters, mods, done + [c], base, after)
  {
    hide ModuleFile;
    Seqs.FlattenMapSnoc(done, c, CategoryEntriesOf(provider, parameters, mods));
  }

  /** All categories handled: the module part of the archive has been written. */
  lemma CategoriesWrittenAll(provider: string, selected: seq<string>, parameters: Parameters,
                             base: seq<Entry>, entries: seq<Entry>)
    requires CategoriesWritten(provider, parameters, SelectedData(provider, selected),
                               Categories(SelectedData(provider, selected)), base, entries)
    ensures entries == base + ModuleEntries(provider, selected, parameters)
  {
    hide ModuleFile, CategoryEntries, SelectedData;
  }

  /** `generateTerraformProject` up to the archive: the entries it adds, in order. */
  method GenerateProject(provider: string, selected: seq<string>, parameters: Parameters) returns (entries: seq<Entry>)
    ensures entries == ProjectEntries(provider, selected, parameters)
  {
    hide RootFiles.MainFile, RootFiles.VariablesFile, RootFiles.TfvarsFile, RootFiles.OutputsFile,
         Readme, Templates.Render, TemplateRegistry.TemplateFor,
         AwsCatalog.Modules, AzureCatalog.Modules, GcpCatalog.Modules,
         ModulesWritten, CategoriesWritten, ModuleEntries, Categories, Group;
    entries := [Folder([provider])];
    entries := entries + [File([provider, "main.tf"], RootFiles.MainFile(provider))];
    entries := entries + [File([provider, "variables.tf"], RootFiles.VariablesFile(provider))];
    var vars := RootFiles.TerraformVars(provider);
    entries := entries + [File([provider, "terraform.tfvars"], vars)];
    var outputs := RootFiles.GenerateOutputs(selected);
    entries := entries + [File([provider, "outputs.tf"], outputs)];
    ghost var root := entries;

    var modules := Catalog.GetModules(provider);
    var selectedData := Catalog.SelectModules(modules, selected);
    var cats, groups := GroupByCategory(selectedData);
    CategoriesWrittenStart(provider, parameters, selectedData, root);
    var i := 0;
    while i < |cats|
      invariant 0 <= i <= |cats|
      invariant CategoriesWritten(provider, parameters, selectedData, cats[..i], root, entries)
    {
      var category := cats[i];
      ghost var before := entries;
      entries := entries + [Folder([provider, category])];
      var categoryModules := groups[category];
      ModulesWrittenStart(provider, parameters, category, entries);
      var j := 0;
      while j < |categoryModules|
        invariant 0 <= j <= |categoryModules|
        invariant ModulesWritten(provider, parameters, category, categoryModules[..j], before + [Folder([provider, category])], entries)
      {
        var m := categoryModules[j];
        var moduleParams := ParamsOf(parameters, m.id);
        var template := TemplateRegistry.TemplateFor(provider, m.id);
        ModulesWrittenStep(provider, parameters, category, categoryModules[..j], m, before + [Folder([provider, category])], entries);
        if template.Some? {
          var content := Templates.Render(template.value, moduleParams);
          entries := entries + [File([provider, category, m.id + ".tf"], content)];
        } else {
          assert entries + ModuleFile(provider, parameters, category, m) == entries;
        }
        assert categoryModules[..j + 1] == categoryModules[..j] + [m];
        j := j + 1;
      }
      assert categoryModules[..j] == categoryModules;
      CategoriesWrittenStep(provider, parameters, selectedData, cats[..i], category, root, before, entries);
      assert cats[..i + 1] == cats[..i] + [category];
      i := i + 1;
    }
    assert cats[..i] == cats;
    CategoriesWrittenAll(provider, selected, parameters, root, entries);
    var readme := Readme(provider, selected);
    entries := entries + [File([provider, "README.md"], readme)];
  }

  // ---------------------------------------------------------------- what the archive holds

  /** Some selected module of the catalog `mods` writes this file: `<provider>/<category>/<id>.tf`. */
  ghost predicate WritesModule(provider: string, mods: seq<TerraformModule>, selected: seq<string>, parameters: Parameters,
                               path: seq<string>, content: string)
  {
    exists m :: m in mods && m.id in selected && File(path, content) in ModuleFile(provider, parameters, m.category, m)
  }

  /** `path` lies under the provider's folder. */
  ghost predicate UnderProvider(provider: string, path: seq<string>)
  {
    |path| > 0 && path[0] == provider
  }

  /** `path` is the folder `<provider>/<category>` of a selected module of the catalog `mods`. */
  ghost predicate CategoryFolder(provider: string, mods: seq<TerraformModule>, selected: seq<string>, path: seq<string>)
  {
    |path| == 2 && path[0] == provider && HasCategory(mods, selected, path[1])
  }

  /** `e` is the provider folder or a file directly inside it. */
  ghost predicate AtTopLevel(provider: string, e: Entry)
  {
    UnderProvider(provider, e.path) && (e.Folder? ==> |e.path| == 1) && (e.File? ==> |e.path| == 2)
  }

  /** Some selected module of the catalog `mods` has category `c`. */
  ghost predicate HasCategory(mods: seq<TerraformModule>, selected: seq<string>, c: string)
  {
    exists m :: m in mods && m.id in selected && m.category == c
  }

  /** A module writes one file exactly when the provider has a template for it: the
      template rendered with the user's values for the module, or an empty table. */
  lemma ModuleFileContent(provider: string, parameters: Parameters, category: string, m: TerraformModule, e: Entry)
    ensures e in ModuleFile(provider, parameters, category, m)
            <==> TemplateRegistry.TemplateFor(provider, m.id).Some?
                 && e == File([provider, category, m.id + ".tf"],
                              Templates.Render(TemplateRegistry.TemplateFor(provider, m.id).value, ParamsOf(parameters, m.id)))
  {
    hide Templates.Render, TemplateRegistry.TemplateFor;
  }

  /** A selected module's category is listed and the module is in its group. */
  lemma ModulePlaced(mods: seq<TerraformModule>, m: TerraformModule)
    requires m in mods
    ensures m.category in Categories(mods) && m in Group(mods, m.category)
  {
    var k :| 0 <= k < |mods| && mods[k] == m;
    assert Seqs.Map(mods, Category)[k] == m.category;
    assert Seqs.KeyIs(Category, m.category)(m) == (Category(m) == m.category);
  }

  /** A module of a group has the group's category; the groups hold selected modules. */
  lemma GroupMember(mods: seq<TerraformModule>, c: string, m: TerraformModule)
    requires m in Group(mods, c)
    ensures m in mods && m.category == c
  {
    assert Seqs.KeyIs(Category, c)(m) == (Category(m) == c);
  }

  /** Every listed category is the category of some module. */
  lemma CategoryHasModule(mods: seq<TerraformModule>, c: string)
    requires c in Categories(mods)
    ensures exists m :: m in mods && m.category == c
  {
    var i :| 0 <= i < |mods| && Seqs.Map(mods, Category)[i] == c;
    assert mods[i] in mods;
  }

  /** An entry of one category's part is its folder or the file of one of its modules. */
  lemma CategoryEntriesMember(provider: string, parameters: Parameters, c: string, group: seq<TerraformModule>, e: Entry)
    requires e in CategoryEntries(provider, parameters, c, group)
    ensures e == Folder([provider, c]) || exists m :: m in group && e in ModuleFile(provider, parameters, c, m)
  {
    hide ModuleFile;
    var files := Seqs.Map(group, ModuleFileOf(provider, parameters, c));
    if e != Folder([provider, c]) {
      Seqs.FlattenMember(files, e);
      var j :| 0 <= j < |files| && e in files[j];
      assert group[j] in group && e in ModuleFile(provider, parameters, c, group[j]);
    }
  }

  /** An entry of the module part belongs to the part of one listed category. */
  lemma ModuleEntriesMember(provider: string, selected: seq<string>, parameters: Parameters, e: Entry)
    requires e in ModuleEntries(provider, selected, parameters)
    ensures exists c :: c in Categories(SelectedData(provider, selected))
                        && e in CategoryEntries(provider, parameters, c, Group(SelectedData(provider, selected), c))
  {
    hide CategoryEntries, ModuleFile, AwsCatalog.Modules, AzureCatalog.Modules, GcpCatalog.Modules;
    var mods := SelectedData(provider, selected);
    var cats := Categories(mods);
    var parts := Seqs.Map(cats, CategoryEntriesOf(provider, parameters, mods));
    Seqs.FlattenMember(parts, e);
    var k :| 0 <= k < |parts| && e in parts[k];
    assert cats[k] in cats && parts[k] == CategoryEntries(provider, parameters, cats[k], Group(mods, cats[k]));
  }

  /** A listed category's folder is the folder of a selected catalog module. */
  lemma ListedCategoryFolder(provider: string, selected: seq<string>, c: string)
    requires c in Categories(SelectedData(provider, selected))
    ensures CategoryFolder(provider, Catalog.GetModules(provider), selected, [provider, c])
  {
    hide AwsCatalog.Modules, AzureCatalog.Modules, GcpCatalog.Modules;
    CategoryHasModule(SelectedData(provider, selected), c);
  }

  /** A file of a grouped module is written by a selected catalog module. */
  lemma GroupedModuleFile(provider: string, selected: seq<string>, parameters: Parameters, c: string,
                          m: TerraformModule, e: Entry)
    requires m in Group(SelectedData(provider, selected), c)
    requires e in ModuleFile(provider, parameters, c, m)
    ensures e.File? && WritesModule(provider, Catalog.GetModules(provider), selected, parameters, e.path, e.content)
  {
    hide Templates.Render, TemplateRegistry.TemplateFor, AwsCatalog.Modules, AzureCatalog.Modules, GcpCatalog.Modules,
         ModuleFile;
    GroupMember(SelectedData(provider, selected), c, m);
    ModuleFileContent(provider, parameters, c, m, e);
  }

  /** Where an entry of the module part comes from: a category folder or a module file,
      both of selected modules of the provider's catalog. */
  lemma ModuleEntryOrigin(provider: string, selected: seq<string>, parameters: Parameters, e: Entry)
    requires e in ModuleEntries(provider, selected, parameters)
    ensures e.Folder? ==> CategoryFolder(provider, Catalog.GetModules(provider), selected, e.path)
    ensures e.File? ==> WritesModule(provider, Catalog.GetModules(provider), selected, parameters, e.path, e.content)
  {
    hide Templates.Render, TemplateRegistry.TemplateFor, AwsCatalog.Modules, AzureCatalog.Modules, GcpCatalog.Modules,
         ModuleFile, CategoryEntries, ModuleEntries, CategoryFolder, WritesModule, Catalog.GetModules;
    var mods := SelectedData(provider, selected);
    ModuleEntriesMember(provider, selected, parameters, e);
    var c :| c in Categories(mods) && e in CategoryEntries(provider, parameters, c, Group(mods, c));
    CategoryEntriesMember(provider, parameters, c, Group(mods, c), e);
    if e == Folder([provider, c]) {
      ListedCategoryFolder(provider, selected, c);
    } else {
      var m :| m in Group(mods, c) && e in ModuleFile(provider, parameters, c, m);
      GroupedModuleFile(provider, selected, parameters, c, m, e);
    }
  }

  /** Every selected catalog module with a template is written, with its rendered content. */
  lemma ModuleFileWritten(provider: string, selected: seq<string>, parameters: Parameters, m: TerraformModule, e: Entry)
    requires m in Catalog.GetModules(provider) && m.id in selected
    requires e in ModuleFile(provider, parameters, m.category, m)
    ensures e in ModuleEntries(provider, selected, parameters)
  {
    hide Templates.Render, TemplateRegistry.TemplateFor, AwsCatalog.Modules, AzureCatalog.Modules, GcpCatalog.Modules,
         ModuleFile, CategoryEntries, Categories;
    var mods := SelectedData(provider, selected);
    assert m in mods;
    ModuleFileListed(provider, parameters, mods, m, e);
  }

  /** The file of each module of `mods` is among the entries of its category. */
  lemma ModuleFileListed(provider: string, parameters: Parameters, mods: seq<TerraformModule>, m: TerraformModule, e: Entry)
    requires m in mods
    requires e in ModuleFile(provider, parameters, m.category, m)
    ensures e in Seqs.Flatten(Seqs.Map(Categories(mods), CategoryEntriesOf(provider, parameters, mods)))
  {
    hide ModuleFile;
    ModulePlaced(mods, m);
    var c := m.category;
    var cats := Categories(mods);
    var k := Seqs.IndexOf(cats, c);
    var group := Group(mods, c);
    var j := Seqs.IndexOf(group, m);
    var files := Seqs.Map(group, ModuleFileOf(provider, parameters, c));
    assert e in files[j];
    Seqs.FlattenMember(files, e);
    var parts := Seqs.Map(cats, CategoryEntriesOf(provider, parameters, mods));
    assert parts[k] == [Folder([provider, c])] + Seqs.Flatten(files);
    Seqs.FlattenMember(parts, e);
  }

  /** The category folder of every selected catalog module is written. */
  lemma CategoryFolderWritten(provider: string, selected: seq<string>, parameters: Parameters, m: TerraformModule)
    requires m in Catalog.GetModules(provider) && m.id in selected
    ensures Folder([provider, m.category]) in ModuleEntries(provider, selected, parameters)
  {
    hide Templates.Render, TemplateRegistry.TemplateFor, AwsCatalog.Modules, AzureCatalog.Modules, GcpCatalog.Modules,
         ModuleFile, CategoryEntries, Categories;
    var mods := SelectedData(provider, selected);
    assert m in mods;
    ModulePlaced(mods, m);
    CategoryFolderListed(provider, parameters, mods, m.category);
  }

  /** Each category of `mods` contributes its folder. */
  lemma CategoryFolderListed(provider: string, parameters: Parameters, mods: seq<TerraformModule>, c: string)
    requires c in Categories(mods)
    ensures Folder([provider, c]) in Seqs.Flatten(Seqs.Map(Categories(mods), CategoryEntriesOf(provider, parameters, mods)))
  {
    hide ModuleFile;
    var cats := Categories(mods);
    var k := Seqs.IndexOf(cats, c);
    var parts := Seqs.Map(cats, CategoryEntriesOf(provider, parameters, mods));
    assert parts[k][0] == Folder([provider, c]);
    Seqs.FlattenMember(parts, Folder([provider, c]));
  }

  /** The root entries and the README sit one level below the archive root or at it:
      never at a module file's depth and never at a category folder's path. */
  lemma FixedEntries(provider: string, selected: seq<string>, e: Entry)
    requires e in RootEntries(provider, selected) + [ReadmeEntry(provider, selected)]
    ensures AtTopLevel(provider, e)
  {
    hide RootFiles.MainFile, RootFiles.VariablesFile, RootFiles.TfvarsFile, RootFiles.OutputsFile, Readme;
  }

  /** A file at depth three is in the archive exactly when it is the file of a selected
      catalog module with a template, holding that template rendered with the user's
      values for the module. */
  lemma ModuleFileIff(provider: string, selected: seq<string>, parameters: Parameters, path: seq<string>, content: string)
    requires |path| == 3
    ensures File(path, content) in ProjectEntries(provider, selected, parameters)
            <==> WritesModule(provider, Catalog.GetModules(provider), selected, parameters, path, content)
  {
    hide Templates.Render, TemplateRegistry.TemplateFor, AwsCatalog.Modules, AzureCatalog.Modules, GcpCatalog.Modules,
         ModuleEntries, RootEntries, ReadmeEntry, ModuleFile;
    var e := File(path, content);
    if e in ProjectEntries(provider, selected, parameters) {
      if e in RootEntries(provider, selected) + [ReadmeEntry(provider, selected)] {
        FixedEntries(provider, selected, e);
      } else {
        ModuleEntryOrigin(provider, selected, parameters, e);
      }
    }
    if WritesModule(provider, Catalog.GetModules(provider), selected, parameters, path, content) {
      var m :| m in Catalog.GetModules(provider) && m.id in selected
               && e in ModuleFile(provider, parameters, m.category, m);
      ModuleFileWritten(provider, selected, parameters, m, e);
    }
  }

  /** A category folder is in the archive exactly when some selected catalog module has
      that category, whether or not any of its modules has a template. */
  lemma CategoryFolderIff(provider: string, selected: seq<string>, parameters: Parameters, c: string)
    ensures Folder([provider, c]) in ProjectEntries(provider, selected, parameters)
            <==> HasCategory(Catalog.GetModules(provider), selected, c)
  {
    hide Templates.Render, TemplateRegistry.TemplateFor, AwsCatalog.Modules, AzureCatalog.Modules, GcpCatalog.Modules,
         ModuleEntries, RootEntries, ReadmeEntry, ModuleFile;
    var e := Folder([provider, c]);
    if e in ProjectEntries(provider, selected, parameters) {
      if e in RootEntries(provider, selected) + [ReadmeEntry(provider, selected)] {
        FixedEntries(provider, selected, e);
      } else {
        ModuleEntryOrigin(provider, selected, parameters, e);
      }
    }
    if HasCategory(Catalog.GetModules(provider), selected, c) {
      var m :| m in Catalog.GetModules(provider) && m.id in selected && m.category == c;
      CategoryFolderWritten(provider, selected, parameters, m);
    }
  }

  /** Every entry of the archive lies under the provider's folder. */
  lemma EntriesUnderProvider(provider: string, selected: seq<string>, parameters: Parameters, e: Entry)
    requires e in ProjectEntries(provider, selected, parameters)
    ensures UnderProvider(provider, e.path)
  {
    hide Templates.Render, TemplateRegistry.TemplateFor, AwsCatalog.Modules, AzureCatalog.Modules, GcpCatalog.Modules,
         ModuleEntries, RootEntries, ReadmeEntry, ModuleFile;
    if e in RootEntries(provider, selected) + [ReadmeEntry(provider, selected)] {
      FixedEntries(provider, selected, e);
    } else {
      ModuleEntryOrigin(provider, selected, parameters, e);
      if e.File? {
        var m :| m in Catalog.GetModules(provider) && m.id in selected
                 && e in ModuleFile(provider, parameters, m.category, m);
        ModuleFileContent(provider, parameters, m.category, m, e);
      }
    }
  }

  /** The archive always holds the four root files and the README, whatever is selected. */
  lemma RootFilesPresent(provider: string, selected: seq<string>, parameters: Parameters)
    ensures Folder([provider]) in ProjectEntries(provider, selected, parameters)
    ensures File([provider, "main.tf"], RootFiles.MainFile(provider)) in ProjectEntries(provider, selected, parameters)
    ensures File([provider, "variables.tf"], RootFiles.VariablesFile(provider)) in ProjectEntries(provider, selected, parameters)
    ensures File([provider, "terraform.tfvars"], RootFiles.TfvarsFile(provider)) in ProjectEntries(provider, selected, parameters)
    ensures File([provider, "outputs.tf"], RootFiles.OutputsFile(selected)) in ProjectEntries(provider, selected, parameters)
    ensures File([provider, "README.md"], Readme(provider, selected)) in ProjectEntries(provider, selected, parameters)
  {
    hide RootFiles.MainFile, RootFiles.VariablesFile, RootFiles.TfvarsFile, RootFiles.OutputsFile, Readme,
         ModuleEntries;
    var entries := ProjectEntries(provider, selected, parameters);
    assert entries[|entries| - 1] == File([provider, "README.md"], Readme(provider, selected));
  }

  /** A provider outside the catalog gets only the root files and the README. */
  lemma UnknownProviderHasOnlyRootFiles(provider: string, selected: seq<string>, parameters: Parameters)
    requires provider !in Catalog.ProviderIds
    ensures ProjectEntries(provider, selected, parameters) == RootEntries(provider, selected) + [ReadmeEntry(provider, selected)]
  {
    hide RootFiles.MainFile, RootFiles.VariablesFile, RootFiles.TfvarsFile, RootFiles.OutputsFile, Readme,
         Templates.Render, TemplateRegistry.TemplateFor, AwsCatalog.Modules, AzureCatalog.Modules, GcpCatalog.Modules,
         RootEntries, ReadmeEntry;
    assert SelectedData(provider, selected) == [];
    assert Categories([]) == [] by { assert Seqs.Map([], Category) == []; }
    assert Seqs.Map([], CategoryEntriesOf(provider, parameters, [])) == [];
  }

  /** Each category's modules keep their catalog order. */
  lemma GroupsInCatalogOrder(provider: string, selected: seq<string>, c: string)
    ensures Seqs.IsSubsequence(Group(SelectedData(provider, selected), c), Catalog.GetModules(provider))
  {
    hide AwsCatalog.Modules, AzureCatalog.Modules, GcpCatalog.Modules;
    var mods := SelectedData(provider, selected);
    Seqs.FilterIsSubsequence(mods, Seqs.KeyIs(Category, c));
    Seqs.SubsequenceTrans(Group(mods, c), mods, Catalog.GetModules(provider));
  }

  // ---------------------------------------------------------------- fixed text

  function ReadmeText0(): string
  {
    @"# "
  }

  function ReadmeText1(): string
  {
    @" Terraform Infrastructure

This Terraform configuration was generated using the Terraform Project Generator.

## Structure

- `main.tf` - Main Terraform configuration and provider setup
- `variables.tf` - Variable definitions
- `terraform.tfvars` - Variable values (edit as needed)
- `outputs.tf` - Output definitions
- `networking/` - Networking resources (VPC, subnets, etc.)
- `compute/` - Compute resources (EC2, etc.)
- `storage/` - Storage resources (S3, etc.)
- `security/` - Security resources (IAM, security groups, etc.)

## Usage

1. Install Terraform: https://www.terraform.io/downloads.html
2. Configure AWS credentials: https://docs.aws.amazon.com/cli/latest/userguide/cli-configure-files.html
3. Edit `terraform.tfvars` with your desired values
4. Run the following commands:

```bash
# Initialize Terraform
terraform init

# Plan the deployment
terraform plan

# Apply the configuration
terraform apply
```

## Generated Modules

"
  }

  function ReadmeText2(): string
  {
    @"

## Cleanup

To destroy the infrastructure:

```bash
terraform destroy
```
"
  }

}
