// The module library page: every catalog module of the three providers in one list,
// narrowed by a search text, a provider and a category, each card showing a short
// parameter summary and a preview of an example resource block.
module ModuleLibrary {
  import opened Wrappers
  import opened ModuleTypes
  import Seqs
  import JsStrings
  import Templates
  import AwsCatalog
  import AzureCatalog
  import GcpCatalog

  /** A catalog module labelled with the provider it belongs to (`{ ...m, provider }`). */
  datatype LibraryModule = LibraryModule(base: TerraformModule, provider: string)

  function TagWith(provider: string): TerraformModule -> LibraryModule
  {
    (m: TerraformModule) => LibraryModule(m, provider)
  }

  /** The three catalogs one after the other, each module labelled `AWS`, `Azure` or `GCP`. */
  function Library(aws: seq<TerraformModule>, azure: seq<TerraformModule>, gcp: seq<TerraformModule>)
    : seq<LibraryModule>
  {
    Seqs.Map(aws, TagWith("AWS")) + Seqs.Map(azure, TagWith("Azure")) + Seqs.Map(gcp, TagWith("GCP"))
  }

  function AllModules(): seq<LibraryModule>
  {
    Library(AwsCatalog.Modules(), AzureCatalog.Modules(), GcpCatalog.Modules())
  }

  // ---------------------------------------------------------------- the filter

  /** The name or the description includes the search text, ignoring ASCII case. */
  predicate MatchesSearch(e: LibraryModule, searchTerm: string)
  {
    var term := JsStrings.ToLowerAscii(searchTerm);
    JsStrings.Contains(JsStrings.ToLowerAscii(e.base.name), term)
    || JsStrings.Contains(JsStrings.ToLowerAscii(e.base.description), term)
  }

  predicate MatchesProvider(e: LibraryModule, selectedProvider: string)
  {
    selectedProvider == "all" || e.provider == selectedProvider
  }

  predicate MatchesCategory(e: LibraryModule, selectedCategory: string)
  {
    selectedCategory == "all" || e.base.category == selectedCategory
  }

  function Matches(searchTerm: string, selectedProvider: string, selectedCategory: string): LibraryModule -> bool
  {
    (e: LibraryModule) =>
      MatchesSearch(e, searchTerm) && MatchesProvider(e, selectedProvider) && MatchesCategory(e, selectedCategory)
  }

  /** The modules shown for the current search text, provider and category. */
  function FilteredModules(mods: seq<LibraryModule>, searchTerm: string, selectedProvider: string,
                           selectedCategory: string): seq<LibraryModule>
  {
    Seqs.Filter(mods, Matches(searchTerm, selectedProvider, selectedCategory))
  }

  function EntryCategory(e: LibraryModule): string
  {
    e.base.category
  }

  /** The category choices: each category of the list once, in order of first appearance. */
  function LibraryCategories(mods: seq<LibraryModule>): seq<string>
  {
    Seqs.Dedup(Seqs.Map(mods, EntryCategory))
  }

  /** The label of a category choice: the first letter in upper case (ASCII). */
  function CategoryLabel(c: string): (r: string)
    ensures |r| == |c|
    ensures |c| > 0 ==> r[0] == JsStrings.UpperChar(c[0]) && r[1..] == c[1..]
  {
    if |c| == 0 then "" else [JsStrings.UpperChar(c[0])] + c[1..]
  }

  // ---------------------------------------------------------------- the card

  function Min(a: nat, b: nat): nat
  {
    if a < b then a else b
  }

  /** The parameters listed on a card: the first three. */
  function ShownParameters(m: TerraformModule): seq<ModuleParameter>
  {
    m.parameters[..Min(3, |m.parameters|)]
  }

  /** `+N more parameters`, present only when there are more than three. */
  function MoreParameters(m: TerraformModule): Option<nat>
  {
    if |m.parameters| > 3 then Some(|m.parameters| - 3) else None
  }

  function IsRequired(p: ModuleParameter): bool
  {
    p.required
  }

  /** The `N required` figure of the list view. */
  function RequiredCount(m: TerraformModule): nat
  {
    |Seqs.Filter(m.parameters, IsRequired)|
  }

  /** The example value of a parameter: a string's default (or `example`) in quotes, any
      other type's default (or `true`) bare. */
  function ExampleValue(p: ModuleParameter): string
  {
    if p.paramType == StringParam then "\"" + Templates.OrElse(p.defaultValue, "example") + "\""
    else Templates.OrElse(p.defaultValue, "true")
  }

  function ExampleLine(p: ModuleParameter): string
  {
    "  " + p.name + " = " + ExampleValue(p)
  }

  function HeaderLine(e: LibraryModule): string
  {
    "# " + e.base.name + " Example"
  }

  function ResourceLine(e: LibraryModule): string
  {
    "resource \"" + JsStrings.ToLowerAscii(e.provider) + "_" + e.base.id + "\" \"example\" {"
  }

  /** The lines that follow the parameters: a blank line and the tags block. */
  function TagLines(e: LibraryModule): seq<string>
  {
    ["  ", "  tags = {", "    Name        = \"" + e.base.name + " Example\"",
     "    Environment = \"production\"", "    ManagedBy   = \"Terraform\"", "  }", "}"]
  }

  /** The parameter block: one line per shown parameter (an empty line when there are none). */
  function ParameterBlock(e: LibraryModule): string
  {
    JsStrings.Join(Seqs.Map(ShownParameters(e.base), ExampleLine), "\n")
  }

  /** The example resource block a card shows and copies. */
  function ExampleCode(e: LibraryModule): string
  {
    JsStrings.Join([HeaderLine(e), ResourceLine(e), ParameterBlock(e)] + TagLines(e), "\n")
  }

  /** The code preview: the first four lines, then `  ...` on a line of its own when the code
      has more. */
  function Preview(code: string): string
  {
    var lines := JsStrings.Split(code, '\n');
    JsStrings.Join(lines[..Min(4, |lines|)], "\n") + (if |lines| > 4 then "\n  ..." else "")
  }

  // ---------------------------------------------------------------- properties

  /** The library holds every module of each catalog, labelled with its provider, and
      nothing else. */
  lemma LibraryContents(aws: seq<TerraformModule>, azure: seq<TerraformModule>, gcp: seq<TerraformModule>,
                        e: LibraryModule)
    ensures |Library(aws, azure, gcp)| == |aws| + |azure| + |gcp|
    ensures e in Library(aws, azure, gcp) <==>
              (e.provider == "AWS" && e.base in aws)
              || (e.provider == "Azure" && e.base in azure)
              || (e.provider == "GCP" && e.base in gcp)
  {
    TaggedMember(aws, "AWS", e);
    TaggedMember(azure, "Azure", e);
    TaggedMember(gcp, "GCP", e);
  }

  lemma TaggedMember(mods: seq<TerraformModule>, provider: string, e: LibraryModule)
    ensures e in Seqs.Map(mods, TagWith(provider)) <==> e.provider == provider && e.base in mods
  {
    var tagged := Seqs.Map(mods, TagWith(provider));
    if e in tagged {
      var i :| 0 <= i < |tagged| && tagged[i] == e;
    }
    if e.provider == provider && e.base in mods {
      var i :| 0 <= i < |mods| && mods[i] == e.base;
      assert tagged[i] == e;
    }
  }

  /** A module is shown exactly when the search text, the provider and the category all
      match; the shown modules keep the library's order. */
  lemma FilterShowsMatches(mods: seq<LibraryModule>, searchTerm: string, selectedProvider: string,
                           selectedCategory: string, e: LibraryModule)
    ensures e in FilteredModules(mods, searchTerm, selectedProvider, selectedCategory) <==>
              e in mods && MatchesSearch(e, searchTerm) && MatchesProvider(e, selectedProvider)
              && MatchesCategory(e, selectedCategory)
    ensures Seqs.IsSubsequence(FilteredModules(mods, searchTerm, selectedProvider, selectedCategory), mods)
  {
    var keep := Matches(searchTerm, selectedProvider, selectedCategory);
    assert keep(e) == (MatchesSearch(e, searchTerm) && MatchesProvider(e, selectedProvider)
                       && MatchesCategory(e, selectedCategory));
    Seqs.FilterIsSubsequence(mods, keep);
  }

  /** With an empty search and both selections on `all` (the start state, and what "Clear
      Filters" restores), every module is shown. */
  lemma NoFilterShowsAll(mods: seq<LibraryModule>)
    ensures FilteredModules(mods, "", "all", "all") == mods
  {
    var keep := Matches("", "all", "all");
    forall e | e in mods ensures keep(e) {
      assert JsStrings.ToLowerAscii("") == "";
      JsStrings.ContainsEmpty(JsStrings.ToLowerAscii(e.base.name));
    }
    Seqs.FilterAll(mods, keep);
  }

  /** The category choices are distinct, are exactly the categories in the list, and come in
      the order in which each first appears. */
  lemma CategoriesDeduplicated(mods: seq<LibraryModule>)
    ensures Seqs.NoDuplicates(LibraryCategories(mods))
    ensures forall c :: c in LibraryCategories(mods) <==> exists e :: e in mods && e.base.category == c
    ensures forall i, j :: 0 <= i < j < |LibraryCategories(mods)| ==>
              Seqs.IndexOf(Seqs.Map(mods, EntryCategory), LibraryCategories(mods)[i])
              < Seqs.IndexOf(Seqs.Map(mods, EntryCategory), LibraryCategories(mods)[j])
  {
    var cats := Seqs.Map(mods, EntryCategory);
    forall c ensures c in LibraryCategories(mods) <==> exists e :: e in mods && e.base.category == c {
      if c in cats {
        var i :| 0 <= i < |cats| && cats[i] == c;
        assert mods[i] in mods;
      }
      if exists e :: e in mods && e.base.category == c {
        var e :| e in mods && e.base.category == c;
        var i :| 0 <= i < |mods| && mods[i] == e;
        assert cats[i] == c;
      }
    }
    Seqs.DedupFirstOccurrence(cats);
  }

  /** Every category choice of the library is one of the seven fixed categories. */
  lemma LibraryCategoriesKnown(c: string)
    requires c in LibraryCategories(AllModules())
    ensures c in CategoryIds
  {
    hide AwsCatalog.Modules, AzureCatalog.Modules, GcpCatalog.Modules, LibraryCategories, Library;
    CategoriesDeduplicated(AllModules());
    var e :| e in AllModules() && e.base.category == c;
    LibraryContents(AwsCatalog.Modules(), AzureCatalog.Modules(), GcpCatalog.Modules(), e);
    AwsCatalog.ModulesWellFormed();
    AzureCatalog.ModulesWellFormed();
    GcpCatalog.ModulesWellFormed();
  }

  /** The card lists at most three parameters; together with `+N more` it accounts for all of
      them, and the required figure never exceeds the total. */
  lemma ParameterSummary(m: TerraformModule)
    ensures |ShownParameters(m)| <= 3
    ensures |ShownParameters(m)| + (if MoreParameters(m).Some? then MoreParameters(m).value else 0) == |m.parameters|
    ensures MoreParameters(m).Some? <==> |m.parameters| > 3
    ensures RequiredCount(m) <= |m.parameters|
    ensures forall p :: p in Seqs.Filter(m.parameters, IsRequired) <==> p in m.parameters && p.required
  {
  }

  /** A parameter's example value falls back to `"example"` for strings and `true` otherwise
      when it has no (or an empty) default. */
  lemma ExampleValueFallback(p: ModuleParameter)
    ensures Templates.Truthy(p.defaultValue) && p.paramType == StringParam ==>
              ExampleValue(p) == "\"" + p.defaultValue.value + "\""
    ensures Templates.Truthy(p.defaultValue) && p.paramType != StringParam ==> ExampleValue(p) == p.defaultValue.value
    ensures !Templates.Truthy(p.defaultValue) && p.paramType == StringParam ==> ExampleValue(p) == "\"example\""
    ensures !Templates.Truthy(p.defaultValue) && p.paramType != StringParam ==> ExampleValue(p) == "true"
  {
  }

  /** The example lists a line for each of the first three parameters. */
  lemma ExampleShowsFirstParameters(e: LibraryModule, k: nat)
    requires k < 3 && k < |e.base.parameters|
    ensures JsStrings.Contains(ExampleCode(e), ExampleLine(e.base.parameters[k]))
  {
    hide ExampleLine, TagLines, HeaderLine, ResourceLine;
    var shown := Seqs.Map(ShownParameters(e.base), ExampleLine);
    assert shown[k] == ExampleLine(e.base.parameters[k]);
    JsStrings.JoinContains(shown, k, "\n");
    var lines := [HeaderLine(e), ResourceLine(e), ParameterBlock(e)] + TagLines(e);
    JsStrings.JoinContains(lines, 2, "\n");
    JsStrings.ContainsTrans(ExampleCode(e), ParameterBlock(e), ExampleLine(e.base.parameters[k]));
  }

  /** A text of at most four lines is previewed whole. */
  lemma ShortTextPreviewedWhole(code: string)
    requires |JsStrings.Split(code, '\n')| <= 4
    ensures Preview(code) == code
  {
    var lines := JsStrings.Split(code, '\n');
    assert lines[..|lines|] == lines;
    JsStrings.JoinSplit(code, '\n');
  }

  /** A longer text is previewed as its first four lines, cut just before the fourth line
      break, followed by the ellipsis line. */
  lemma LongTextPreviewCut(code: string)
    requires |JsStrings.Split(code, '\n')| > 4
    ensures exists head :: Preview(code) == head + "\n  ..." && |head| < |code| && code[..|head|] == head
                           && code[|head|] == '\n' && JsStrings.CountChar(head, '\n') == 3
  {
    var lines := JsStrings.Split(code, '\n');
    var head := JsStrings.Join(lines[..4], "\n");
    JoinAt(lines, 4, "\n");
    JsStrings.JoinSplit(code, '\n');
    assert code == head + "\n" + JsStrings.Join(lines[4..], "\n");
    assert code[..|head|] == head;
    JoinCountsSeparatorsExactly(lines[..4], '\n');
    assert Preview(code) == head + "\n  ...";
  }

  /** Joining splits at the separator after the `k`-th piece. */
  lemma {:induction false} JoinAt(parts: seq<string>, k: nat, sep: string)
    requires 1 <= k < |parts|
    ensures JsStrings.Join(parts, sep) == JsStrings.Join(parts[..k], sep) + sep + JsStrings.Join(parts[k..], sep)
    decreases k
  {
    if k == 1 {
      assert parts[..1] == [parts[0]];
    } else {
      JoinAt(parts[1..], k - 1, sep);
      assert parts[..k][1..] == parts[1..][..k - 1];
      assert parts[1..][k - 1..] == parts[k..];
    }
  }

  /** Joining `n` pieces free of a one-character separator puts it in exactly `n - 1` times. */
  lemma {:induction false} JoinCountsSeparatorsExactly(parts: seq<string>, c: char)
    requires |parts| > 0
    requires forall k :: 0 <= k < |parts| ==> c !in parts[k]
    ensures JsStrings.CountChar(JsStrings.Join(parts, [c]), c) == |parts| - 1
    decreases |parts|
  {
    CountCharAbsent(parts[0], c);
    if |parts| > 1 {
      JoinCountsSeparatorsExactly(parts[1..], c);
      CountCharConcat(parts[0], [c] + JsStrings.Join(parts[1..], [c]), c);
      CountCharConcat([c], JsStrings.Join(parts[1..], [c]), c);
      assert parts[0] + [c] + JsStrings.Join(parts[1..], [c]) == parts[0] + ([c] + JsStrings.Join(parts[1..], [c]));
    }
  }

  lemma {:induction false} CountCharAbsent(s: string, c: char)
    requires c !in s
    ensures JsStrings.CountChar(s, c) == 0
    decreases |s|
  {
    if |s| > 0 {
      assert s[0] != c;
      assert forall x :: x in s[1..] ==> x in s;
      CountCharAbsent(s[1..], c);
    }
  }

  /** Joining `n` pieces with a one-character separator puts it in at least `n - 1` times. */
  lemma {:induction false} JoinCountsSeparators(parts: seq<string>, c: char)
    requires |parts| > 0
    ensures JsStrings.CountChar(JsStrings.Join(parts, [c]), c) >= |parts| - 1
    decreases |parts|
  {
    if |parts| > 1 {
      JoinCountsSeparators(parts[1..], c);
      CountCharConcat(parts[0], [c] + JsStrings.Join(parts[1..], [c]), c);
      CountCharConcat([c], JsStrings.Join(parts[1..], [c]), c);
      assert parts[0] + [c] + JsStrings.Join(parts[1..], [c]) == parts[0] + ([c] + JsStrings.Join(parts[1..], [c]));
    }
  }

  lemma {:induction false} CountCharConcat(a: string, b: string, c: char)
    ensures JsStrings.CountChar(a + b, c) == JsStrings.CountChar(a, c) + JsStrings.CountChar(b, c)
    decreases |a|
  {
    if |a| > 0 {
      assert (a + b)[1..] == a[1..] + b;
      CountCharConcat(a[1..], b, c);
    } else {
      assert a + b == b;
    }
  }

  /** Every example has more than four lines, so its preview is always its first four lines
      followed by the ellipsis line. */
  lemma ExamplePreviewIsCut(e: LibraryModule)
    ensures |JsStrings.Split(ExampleCode(e), '\n')| > 4
    ensures exists head :: Preview(ExampleCode(e)) == head + "\n  ..." && |head| < |ExampleCode(e)|
                           && ExampleCode(e)[..|head|] == head && ExampleCode(e)[|head|] == '\n'
                           && JsStrings.CountChar(head, '\n') == 3
  {
    assert |TagLines(e)| == 7;
    hide TagLines, HeaderLine, ResourceLine, ParameterBlock, Preview;
    var lines := [HeaderLine(e), ResourceLine(e), ParameterBlock(e)] + TagLines(e);
    JoinCountsSeparators(lines, '\n');
    JsStrings.SplitLength(ExampleCode(e), '\n');
    LongTextPreviewCut(ExampleCode(e));
  }
}
