# infra-craftsman: a Dafny model of the Terraform project generator

infra-craftsman is a web wizard that writes a Terraform project. The user works through four steps:

1. pick a cloud provider (`aws`, `azure` or `gcp`);
2. tick modules from that provider's catalog;
3. fill in the modules' parameters on a form;
4. download a zip archive.

The archive holds a folder named after the provider:

- `main.tf`, `variables.tf`, `terraform.tfvars`, `outputs.tf` and a `README.md`;
- one sub-folder per category of the selected modules;
- in each sub-folder, one `<id>.tf` per module that has a template, rendered from the user's values.

A separate library page lists every module of the three catalogs. It has a search box, a provider filter and a category filter, and shows an example snippet per module.

This project models that core and proves what it promises:

- the module schema and the three catalogs, as constant data with lemmas over it;
- the template engine, with templates as data and one interpreter that spells out JavaScript's `||`, `undefined` and `split`/`trim`/`join` rules;
- the project assembler;
- the wizard state: a class whose fields are the page's five state cells and whose methods are its handlers and step buttons;
- the module selector page and the parameter form;
- the library page's filter, category list and example snippet.

Files and modules:

| file | module | what it holds |
|---|---|---|
| `wrappers.dfy` | `Wrappers` | `Option` |
| `seqs.dfy` | `Seqs` | `filter`, `map`, flatten, subsequence, first index, deduplication (`new Set`), grouping into buckets |
| `js_strings.dfy` | `JsStrings` | `split`, `join`, `trim`, ASCII `toLowerCase`/`toUpperCase`, `includes` on strings, number printing |
| `module_types.dfy` | `ModuleTypes` | `TerraformModule`, `ModuleParameter`, the seven categories, the schema rules |
| `catalog_aws.dfy`, `catalog_azure.dfy`, `catalog_gcp.dfy` | `AwsCatalog`, `AzureCatalog`, `GcpCatalog` | the three catalogs, one function per module, with per-module and catalog-wide lemmas |
| `catalog.dfy` | `Catalog` | `getModules`, `find`, the selected-module filter |
| `templates.dfy` | `Templates` | override records, JS truthiness, template segments, `Render` and its generic lemmas |
| `templates_aws.dfy`, `templates_azure.dfy`, `templates_gcp.dfy` | `AwsTemplates`, `AzureTemplates`, `GcpTemplates` | every template of the three tables, as data |
| `template_registry.dfy` | `TemplateRegistry` | the lookup of a module's template, provider by provider |
| `template_facts.dfy` | `TemplateFacts` | what particular templates render |
| `root_files.dfy` | `RootFiles` | `main.tf`, `variables.tf`, `terraform.tfvars`, `outputs.tf` |
| `generator.dfy` | `Generator` | grouping, the README, `generateTerraformProject` as a method building the archive's entry list |
| `module_selector.dfy` | `ModuleSelector` | the module selector page |
| `parameter_form.dfy` | `ParameterForm` | the parameter form |
| `wizard.dfy` | `Wizard` | the wizard page state and handlers |
| `module_library.dfy` | `ModuleLibrary` | the library page |

Where the code and the design description differ, the model follows the code:

- The assembler does **not** merge catalog defaults into the values a template receives. It passes `parameters[id] || {}` as it is, so a template falls back to its own literal. For example, the AWS Batch compute environment's catalog default is `m5.large,m5.xlarge`, but the template's fallback is `"m5.large"`.
- The assembler does not reject an empty selection. That guard lives only in the wizard's `handleGenerate`.
- The generator imports tables of "missing" AWS and Azure templates, but the templates file does not define them. They are modelled as empty tables.
- A category folder is written even when none of its modules has a template.
- `outputs.tf` depends only on the selected ids, never on the provider.

## Model

| member | source | states |
|---|---|---|
| ModuleTypes.CategoryIdsMatch | src/components/ModuleSelector.tsx:24-67 | the seven category ids are, in order, the ids of the seven category records of the selector page |
| ModuleTypes.CategoryIdsHaveNoSlash | src/components/ModuleSelector.tsx:24-67 | no category id contains `/`, so a category cannot be mistaken for a nested path |
| AwsCatalog.ModulesWellFormed | src/data/modules.ts:3-401 | every AWS module has category one of the seven ids and distinct parameter names. Only string parameters carry options, and a default lies among its options. Booleans default to `"true"` or `"false"`, and number defaults are non-empty decimal digits |
| AwsCatalog.IdsUnique | src/data/modules.ts:3-401 | the AWS module ids are pairwise distinct |
| AwsCatalog.Ec2InstanceTypeOptionsHasDefault | src/data/modules.ts:31-60 | the EC2 `instance_type` default `t3.micro` is one of its options |
| AzureCatalog.ModulesWellFormed | src/data/modules.ts:403-701 | the same schema rules for every Azure module |
| AzureCatalog.IdsUnique | src/data/modules.ts:403-701 | the Azure module ids are pairwise distinct |
| AzureCatalog.VirtualMachineVmSizeOptionsHasDefault | src/data/modules.ts:457-483 | the `vm_size` default is one of its options |
| GcpCatalog.ModulesWellFormed | src/data/modules.ts:703-989 | the same schema rules for every GCP module |
| GcpCatalog.IdsUnique | src/data/modules.ts:703-989 | the GCP module ids are pairwise distinct (`subnet` recurs only across providers) |
| GcpCatalog.ComputeInstanceMachineTypeOptionsHasDefault | src/data/modules.ts:749-778 | the compute instance's `machine_type` default is one of its options |
| GcpCatalog.ComputeInstanceTemplateMachineTypeOptionsHasDefault | src/data/modules.ts:791-812 | the instance template's `machine_type` default is one of its options |
| Catalog.GetModulesValid | src/components/ModuleSelector.tsx:78-85 | every provider's module list obeys the schema rules and has unique ids; any provider other than the three has an empty list |
| Catalog.Find | src/utils/terraformGenerator.ts:356 | `find` returns a module exactly when some module has the id: the first one with it |
| Catalog.FindMember | src/utils/terraformGenerator.ts:356 | in a catalog with unique ids, finding a member's id returns that member |
| Catalog.SelectModules | src/utils/terraformGenerator.ts:281 | a module is kept iff it is in the catalog and its id is selected; the result is a subsequence of the catalog, so catalog order is kept |
| Catalog.SelectionAsSet | src/utils/terraformGenerator.ts:281 | two selections that agree on which catalog ids they contain select the same modules: order, repetitions and unknown ids make no difference |
| Catalog.SelectedIdsDistinct | src/utils/terraformGenerator.ts:281 | the selected modules have unique ids |
| Seqs.Filter | src/utils/terraformGenerator.ts:281 | `filter` keeps exactly the elements that satisfy the test, and never lengthens the list |
| Seqs.FilterIsSubsequence | src/utils/terraformGenerator.ts:281 | `filter` keeps the original order |
| Seqs.Dedup | src/pages/ModuleLibrary.tsx:74 | `[...new Set(s)]` has no repetitions and the same elements as `s` |
| Seqs.DedupFirstOccurrence | src/pages/ModuleLibrary.tsx:74 | the deduplicated list is in order of first occurrence |
| Seqs.BucketsPartition | src/utils/terraformGenerator.ts:284-290 | with distinct keys covering every element, the per-key buckets together hold each element exactly once |
| JsStrings.Split | src/utils/terraformTemplates.ts:26-27 | `split(sep)` returns at least one piece, and no piece contains the separator |
| JsStrings.SplitLength | src/utils/terraformTemplates.ts:26-27 | `split(sep)` returns one more piece than the text has separators |
| JsStrings.JoinSplit | src/utils/terraformTemplates.ts:26-27 | joining the pieces of `split(sep)` with `sep` gives back the text |
| JsStrings.Trim | src/utils/terraformTemplates.ts:200 | `trim()` returns the slice of its input left after cutting only whitespace off both ends, and no whitespace remains at either end |
| JsStrings.TrimClean | src/utils/terraformTemplates.ts:200 | `trim()` leaves a text without edge whitespace unchanged |
| JsStrings.ToLowerAscii | src/pages/ModuleLibrary.tsx:65-66 | `toLowerCase()` keeps the length and lowers each ASCII letter |
| JsStrings.ToUpperAscii | src/utils/terraformGenerator.ts:23 | `toUpperCase()` keeps the length and raises each ASCII letter |
| JsStrings.NatToString | src/utils/terraformTemplates.ts:35-59 | `${n}` of a non-negative integer is a non-empty string of decimal digits |
| JsStrings.NatToStringRoundTrip | src/utils/terraformTemplates.ts:35-59 | the digits printed for `n` read back as `n` |
| Templates.RenderConcat | src/utils/terraformTemplates.ts:5-514 | a template literal renders piece by piece: rendering distributes over concatenation |
| Templates.RenderLocal | src/utils/terraformTemplates.ts:5-514 | each template is a function of the keys it reads: records that agree on them render identical text |
| Templates.OrLine | src/utils/terraformTemplates.ts:7 | `${params.k \|\| 'f'}` renders the value when it is present and non-empty, and `f` when it is missing or `""`, between its surrounding text |
| Templates.RawLine | src/utils/terraformTemplates.ts:343-344 | `${params.k}` renders the value verbatim, or the text `undefined` when it is missing |
| Templates.ChoiceLine | src/utils/terraformTemplates.ts:153 | `${params.k === 'e' ? 'a' : 'b'}` renders `a` exactly when the value is the text `e` |
| Templates.QuotedListLine | src/utils/terraformTemplates.ts:200 | a list parameter renders as its trimmed, double-quoted comma-separated items joined by `, `, or the fallback when it is missing |
| Templates.QuotedListFallsBackWhenAbsent | src/utils/terraformTemplates.ts:288 | a quoted list falls back exactly when the key is missing; a present key is never replaced by the fallback |
| Templates.QuotedEmpty | src/utils/terraformTemplates.ts:288 | an empty list value renders as `""`, a one-item list of the empty text |
| Templates.QuotedJoinNonEmpty | src/utils/terraformTemplates.ts:288 | a quoted list of at least one item is never the empty text, so the `\|\|` after it never fires |
| Templates.ListItemsCount | src/utils/terraformTemplates.ts:26-27 | `v?.split(',') \|\| defaults` has one more item than `v` has commas, or the defaults' count when `v` is missing |
| Templates.ItemBlocks | src/utils/terraformTemplates.ts:35-59 | `map` over the items yields one block per item, the k-th rendered from the k-th item at index k |
| Templates.RenderRepeatBlocks | src/utils/terraformTemplates.ts:35-59 | the repeated text is exactly those blocks joined with `''`, in order |
| Templates.RepeatBlocks | src/utils/terraformTemplates.ts:35-80 | every repeated segment's blocks occur in the rendered template |
| Templates.EmptyIsAbsent | src/utils/terraformTemplates.ts:5-514 | when a template reads a key only through `\|\|`, setting it to `""` renders the same as leaving it out |
| Templates.FallbackValueIsAbsent | src/utils/terraformTemplates.ts:5-514 | when every read of a key is `params.k \|\| v`, setting it to `v` renders the same as leaving it out |
| TemplateFacts.VpcCidrLine | src/utils/terraformTemplates.ts:7 | the VPC's `cidr_block` line holds the override when it is non-empty, and `10.0.0.0/16` when it is missing or `""` |
| TemplateFacts.VpcCidrEmptyIsAbsent | src/utils/terraformTemplates.ts:5-23 | the VPC template renders the same for an empty `vpc_cidr` as for a missing one |
| TemplateFacts.S3VersioningStatus | src/utils/terraformTemplates.ts:153 | S3 versioning status is `Enabled` iff `versioning` is exactly `true`, `Suspended` otherwise |
| TemplateFacts.EcsCapacityProviders | src/utils/terraformTemplates.ts:288 | ECS capacity providers are the quoted items of the override, `"FARGATE", "EC2"` when it is missing, and `[""]` when it is empty |
| TemplateFacts.BatchInstanceTypes | src/utils/terraformTemplates.ts:200 | Batch instance types are the quoted items of the override, `"m5.large"` when it is missing |
| TemplateFacts.StorageBucketAclLines | src/utils/terraformTemplates.ts:498-499 | the bucket ACL's `bucket` is the raw value (`undefined` when missing), and `role_entity` falls back to `"READER:allUsers"` |
| TemplateFacts.VpnCustomerGatewayId | src/utils/terraformTemplates.ts:343 | a missing `customer_gateway_id` is written as `undefined` |
| TemplateFacts.VpnGatewayId | src/utils/terraformTemplates.ts:344 | a missing `vpn_gateway_id` is written as `undefined` |
| TemplateFacts.CustomerGatewayAddress | src/utils/terraformTemplates.ts:366 | a missing `ip_address` is written as `undefined` |
| TemplateFacts.AppEngineProject | src/utils/terraformTemplates.ts:465 | a missing `project_id` is written as `undefined` |
| TemplateFacts.VpcDeclarations | src/utils/terraformTemplates.ts:6-17 | the VPC template declares `aws_vpc.main` and `aws_internet_gateway.main` for every input |
| TemplateFacts.SubnetReferences | src/utils/terraformTemplates.ts:37-67 | the subnet template refers to `aws_vpc.main` and `aws_internet_gateway.main` for every input |
| TemplateFacts.SubnetRefersToVpc | src/utils/terraformTemplates.ts:6-67 | the resources the subnet template refers to are exactly the ones the VPC template declares |
| TemplateFacts.KmsKeyRingReference | src/utils/terraformTemplates.ts:511 | the crypto key refers to `google_kms_key_ring.<key_ring>.id`, and to `google_kms_key_ring.main` when `key_ring` is missing or `""` |
| TemplateFacts.KmsKeyRingDeclaresMain | src/utils/terraformTemplates.ts:503 | the key ring template declares `google_kms_key_ring.main`, so the default reference resolves |
| TemplateFacts.SubnetCounts | src/utils/terraformTemplates.ts:26-27 | there are one more public (private) CIDRs than commas in the override, or two when it is missing |
| TemplateFacts.SubnetPublicBlocks | src/utils/terraformTemplates.ts:35-46 | the subnet file holds one public subnet block per public CIDR, in order |
| TemplateFacts.SubnetPrivateBlocks | src/utils/terraformTemplates.ts:48-59 | the subnet file holds one private subnet block per private CIDR, in order |
| TemplateFacts.SubnetAssociationBlocks | src/utils/terraformTemplates.ts:76-80 | the subnet file holds one route-table association per public CIDR, in order |
| TemplateFacts.SubnetPublic | src/utils/terraformTemplates.ts:35-80 | the k-th public CIDR gives an `aws_subnet "public_<k+1>"` block with the trimmed CIDR, and an association to it |
| TemplateFacts.SubnetPrivate | src/utils/terraformTemplates.ts:48-59 | the k-th private CIDR gives an `aws_subnet "private_<k+1>"` block with the trimmed CIDR |
| TemplateRegistry.TemplateKeysAreCatalogIds | src/utils/terraformGenerator.ts:302-310 | a template is found only for the id of a module in the provider's catalog; the lookup is the provider's own table, since the missing-template tables are empty |
| TemplateRegistry.AwsTemplateIdsInCatalog | src/utils/terraformTemplates.ts:3-373 | every key of the AWS template table is an AWS catalog id |
| TemplateRegistry.AzureTemplateIdsInCatalog | src/utils/terraformTemplates.ts:375-430 | every key of the Azure template table is an Azure catalog id |
| TemplateRegistry.GcpTemplateIdsInCatalog | src/utils/terraformTemplates.ts:432-514 | every key of the GCP template table is a GCP catalog id |
| TemplateRegistry.UnknownProviderHasNoTemplates | src/utils/terraformGenerator.ts:302-310 | a provider other than the three has no template for any id |
| RootFiles.VariablesStartWithBase | src/utils/terraformGenerator.ts:22-81 | the declared variables start with `project_name` and `environment`, then add the provider's; only those two for an unknown provider |
| RootFiles.VariablesFileBlocks | src/utils/terraformGenerator.ts:22-81 | `variables.tf` is the header `# Variables for <PROVIDER> infrastructure` followed by one block per declared variable; the base text is its start, and all of it for an unknown provider |
| RootFiles.VariablesFileDeclares | src/utils/terraformGenerator.ts:22-81 | each declared variable's `variable "<name>" {` line is in `variables.tf` |
| RootFiles.RenderVariableStartsWithHeader | src/utils/terraformGenerator.ts:25-29 | a variable block holds the line declaring its variable |
| RootFiles.Spaces | src/utils/terraformGenerator.ts:87-98 | the alignment gap is exactly n spaces |
| RootFiles.TerraformVars | src/utils/terraformGenerator.ts:83-102 | the `+=` steps build exactly the tfvars text: the header, the two base lines, then the provider's lines |
| RootFiles.AssignedStep | src/utils/terraformGenerator.ts:90-98 | one `vars += "\n" + line` step adds exactly one setting |
| RootFiles.SettingsMatchVariables | src/utils/terraformGenerator.ts:22-102 | `terraform.tfvars` assigns exactly the variables `variables.tf` declares, in the same order, including GCP's `project_id`, which has no default |
| RootFiles.GenerateOutputs | src/utils/terraformGenerator.ts:104-164 | the four `if (includes(id)) outputs += ...` steps build exactly the outputs text: the header, then the selected sections in the fixed order |
| RootFiles.WrittenStep | src/utils/terraformGenerator.ts:107-161 | one `if` step appends the section's blocks exactly when its id is selected |
| RootFiles.SelectedSections | src/utils/terraformGenerator.ts:104-164 | a section is written iff its id is selected; the written sections keep the order vpc, subnet, ec2, s3 |
| RootFiles.SectionIds | src/utils/terraformGenerator.ts:107-150 | the four sections are tested on `vpc`, `subnet`, `ec2` and `s3` |
| RootFiles.OutputsFileSections | src/utils/terraformGenerator.ts:104-164 | a selected section's blocks occur in `outputs.tf`, and a section is written only when its id is selected, whatever the provider |
| RootFiles.MainFileEmpty | src/utils/terraformGenerator.ts:166-255 | `main.tf` is `""` exactly for a provider other than the three |
| RootFiles.MainReferenced | src/utils/terraformGenerator.ts:166-251 | each variable main.tf is built around occurs in it as `var.<name>` |
| RootFiles.MainReferencesAreVariables | src/utils/terraformGenerator.ts:22-251 | every variable `main.tf` references is declared in `variables.tf` |
| RootFiles.MainUsesDeclaredVariables | src/utils/terraformGenerator.ts:22-251 | every `var.<name>` of `main.tf` is declared in `variables.tf` and assigned in `terraform.tfvars` |
| Generator.ParamsOf | src/utils/terraformGenerator.ts:297 | a template receives the module's stored record when there is one, even empty, and the empty record otherwise; catalog defaults are not merged in |
| Generator.GroupByCategory | src/utils/terraformGenerator.ts:284-290 | the `reduce` builds one bucket per category in first-appearance order, and no other key; each bucket is that category's modules in selection-list order |
| Generator.GroupedStep | src/utils/terraformGenerator.ts:285-288 | one step of the `reduce` keeps the grouping invariant for the modules handled so far |
| Generator.GroupingPartition | src/utils/terraformGenerator.ts:284-290 | each module lands in exactly the bucket of its own category, and the buckets together hold the selected modules exactly once each |
| Generator.GroupsInCatalogOrder | src/utils/terraformGenerator.ts:280-290 | each bucket keeps catalog order |
| Generator.StepCategories | src/utils/terraformGenerator.ts:285-287 | a category is added to the key list only on first sight |
| Generator.StepGroup | src/utils/terraformGenerator.ts:288 | the push adds the module at the end of its own bucket only |
| Generator.GenerateProject | src/utils/terraformGenerator.ts:257-369 | the imperative assembler, with its nested `forEach` loops, adds exactly the entries of the archive in order: the provider folder, the four root files, each category's folder followed by its modules' files, then the README |
| Generator.ModulesWrittenStep | src/utils/terraformGenerator.ts:296-315 | handling one module appends its file exactly when it has a template |
| Generator.CategoriesWrittenStep | src/utils/terraformGenerator.ts:293-317 | handling one category appends its folder and the files of its bucket |
| Generator.ModuleFileContent | src/utils/terraformGenerator.ts:297-315 | a module yields a file iff its provider has a template for it; the file is `<provider>/<category>/<id>.tf` holding that template rendered with the user's record for the module |
| Generator.ModuleFileIff | src/utils/terraformGenerator.ts:280-316 | a file at depth three is in the archive iff a selected catalog module with a template writes it, with that content |
| Generator.ModuleFileWritten | src/utils/terraformGenerator.ts:280-316 | every selected catalog module with a template has its rendered file in the archive |
| Generator.ModuleEntryOrigin | src/utils/terraformGenerator.ts:293-316 | every module-part entry is the folder of a selected module's category or the file of a selected catalog module |
| Generator.CategoryFolderIff | src/utils/terraformGenerator.ts:293-294 | a category folder is in the archive iff some selected catalog module has that category, whether or not any of its modules has a template |
| Generator.CategoryFolderWritten | src/utils/terraformGenerator.ts:294 | the category folder of every selected catalog module is written |
| Generator.RootFilesPresent | src/utils/terraformGenerator.ts:262-269 | for every provider and selection, including an empty one, the archive holds the provider folder and `main.tf`, `variables.tf`, `terraform.tfvars`, `outputs.tf` and `README.md`, each with its content |
| Generator.FixedEntries | src/utils/terraformGenerator.ts:262-269 | the root files and the README sit directly in the provider folder |
| Generator.EntriesUnderProvider | src/utils/terraformGenerator.ts:262-369 | every entry of the archive lies under the provider's folder |
| Generator.UnknownProviderHasOnlyRootFiles | src/utils/terraformGenerator.ts:271-278 | for a provider other than the three, the archive is the root files and the README only |
| Generator.ModuleLinesOfFoundIds | src/utils/terraformGenerator.ts:355-358 | after `filter(Boolean)` the README lines are exactly those of the selected ids found in the catalog, in selection order |
| Generator.ReadmeListsModule | src/utils/terraformGenerator.ts:355-358 | each selected catalog module has its `- **name**: description` line in the README |
| Generator.ReadmeSkipsUnknownIds | src/utils/terraformGenerator.ts:355-358 | an id not in the catalog adds nothing to the README's module list |
| ModuleSelector.ModulesByCategory | src/components/ModuleSelector.tsx:89-91 | a category's list holds exactly the modules of that category, in catalog order |
| ModuleSelector.SectionsShowNonEmptyCategories | src/components/ModuleSelector.tsx:105-107 | a category card is shown iff the category has a module, and holds exactly that category's modules |
| ModuleSelector.SectionsInCategoryOrder | src/components/ModuleSelector.tsx:105 | the cards follow the fixed category order |
| ModuleSelector.SectionsCoverModules | src/components/ModuleSelector.tsx:105-123 | with distinct categories covering every module, the cards together list each module exactly once |
| ModuleSelector.PageListsCatalog | src/components/ModuleSelector.tsx:24-123 | every module of the provider's catalog appears on the page exactly once, under the seven categories in their fixed order |
| ModuleSelector.NoModulesNoSections | src/components/ModuleSelector.tsx:107 | an empty module list shows no card |
| ModuleSelector.UnknownProviderShowsNothing | src/components/ModuleSelector.tsx:78-85 | a provider other than the three gets an empty page |
| ModuleSelector.CardMarksSelection | src/components/ModuleSelector.tsx:127-135 | a card is highlighted and ticked iff its id is selected, exactly when the generator would write the module, and a click reports exactly its id |
| ParameterForm.Override | src/components/ParameterForm.tsx:67 | `parameters[id]?.[name]` is present iff the module has a record holding the name, and is then that value |
| ParameterForm.Shown | src/components/ParameterForm.tsx:67 | a text, number or list box shows the override if non-empty, else the default if non-empty, else `""` |
| ParameterForm.Selection | src/components/ParameterForm.tsx:74 | a drop-down shows the override if non-empty, else the default |
| ParameterForm.Emit | src/components/ParameterForm.tsx:105-107 | ticking or clearing a box reports exactly `"true"` or `"false"`, `"true"` iff ticked |
| ParameterForm.EditField | src/components/ParameterForm.tsx:68-120 | an edit reports the module's id, the parameter's name and the typed text, or `"true"`/`"false"` for a box |
| ParameterForm.FormAbsentIffNothingSelected | src/components/ParameterForm.tsx:29-33 | nothing is rendered iff no module of the provider's catalog is selected |
| ParameterForm.FormFollowsCatalog | src/components/ParameterForm.tsx:29-63 | the cards are the selected catalog modules in catalog order, each listing its parameters in declaration order with the input chosen by the type, a check box showing the tick as the form computes it |
| ParameterForm.CardsFollowModules | src/components/ParameterForm.tsx:47-63 | there is one card per module, in order, each listing the module's parameters |
| ParameterForm.TypedTextShown | src/components/ParameterForm.tsx:67-68 | a typed non-empty text is shown back; an emptied box shows the default again |
| ParameterForm.ShownMatchesTemplate | src/components/ParameterForm.tsx:67 | when the template falls back to the same non-empty default, the box shows exactly what the file receives |
| ParameterForm.SelectionIsAnOption | src/components/ParameterForm.tsx:72-88 | a catalog drop-down shows only one of its options, and always one when the parameter has a default |
| ParameterForm.CheckBoxRoundTrip | src/components/ParameterForm.tsx:104-107 | with the corrected tick, clearing or ticking a box and reading it back gives what the user set, whatever the default |
| ParameterForm.CheckBoxMatchesTemplate | src/components/ParameterForm.tsx:104 | with the corrected tick, the box is ticked iff the generated file receives `true` when the template falls back to the catalog's default |
| ParameterForm.CheckBoxAsWrittenStaysTicked | src/components/ParameterForm.tsx:104 | as written, a box whose default is `"true"` stays ticked after it is cleared, although the stored value and the file say `false` |
| ParameterForm.RenderedBoxTick | src/components/ParameterForm.tsx:100-108 | the page's box for a boolean parameter shows what the user last set when the default is not `"true"`, and is always ticked when it is |
| Wizard.Toggled | src/pages/Index.tsx:36-42 | a click removes the id when present and appends it otherwise; every other id's presence is unchanged; a removal keeps the others' relative order |
| Wizard.ToggledKeepsDistinct | src/pages/Index.tsx:36-42 | clicking never makes an id appear twice |
| Wizard.ToggleTwice | src/pages/Index.tsx:36-42 | clicking an absent id twice restores the list, and any double click restores the set of ids |
| Wizard.SetParameter | src/pages/Index.tsx:44-52 | `parameters[m][p] = v` creates the module's record if needed; every other module's record is unchanged |
| Wizard.SetParameterReadsBack | src/pages/Index.tsx:44-52 | after the edit, the edited value reads back, and every other module or parameter name reads as before |
| Wizard.Wizard.constructor | src/pages/Index.tsx:16-20 | the page starts on the provider step, with no provider, no modules, no values and no generation running |
| Wizard.Wizard.ChangeProvider | src/pages/Index.tsx:30-34 | picking a provider sets it and clears the selection and every entered value |
| Wizard.Wizard.ToggleModule | src/pages/Index.tsx:36-42 | a click replaces the selection by its toggled form and changes nothing else |
| Wizard.Wizard.ChangeParameter | src/pages/Index.tsx:44-52 | an edit replaces the values by their edited form and changes nothing else |
| Wizard.Wizard.Generate | src/pages/Index.tsx:54-85 | nothing is generated without a truthy provider and a selected module; otherwise the archive is that of the current state; `isGenerating` is false afterwards and nothing else changes |
| Wizard.Wizard.ContinueToModules | src/pages/Index.tsx:178-179 | "Continue to Modules" moves on only when a provider is chosen |
| Wizard.Wizard.BackToProvider | src/pages/Index.tsx:199 | "Back to Provider" returns to the first step |
| Wizard.Wizard.ContinueToParameters | src/pages/Index.tsx:206-207 | "Configure Parameters" moves on only when a module is selected |
| Wizard.Wizard.BackToModules | src/pages/Index.tsx:227 | "Back to Modules" returns to the second step |
| Wizard.Wizard.ReadyToGenerate | src/pages/Index.tsx:234 | "Ready to Generate" always moves to the last step |
| Wizard.Wizard.BackToConfigure | src/pages/Index.tsx:277 | "Back to Configure" returns to the third step |
| ModuleLibrary.LibraryContents | src/pages/ModuleLibrary.tsx:31-35 | the library is the AWS, Azure and GCP catalogs in that order, each module tagged with its provider's name, and nothing else |
| ModuleLibrary.TaggedMember | src/pages/ModuleLibrary.tsx:32-34 | a tagged list holds exactly the catalog's modules with that tag |
| ModuleLibrary.FilterShowsMatches | src/pages/ModuleLibrary.tsx:63-72 | a module is shown iff its name or description contains the search text ignoring case, the provider filter is `all` or its provider, and the category filter is `all` or its category; the shown list keeps the library's order |
| ModuleLibrary.NoFilterShowsAll | src/pages/ModuleLibrary.tsx:65-68 | an empty search with both filters `all` shows every module |
| ModuleLibrary.CategoriesDeduplicated | src/pages/ModuleLibrary.tsx:74 | the category choices are the library's categories, each once, in first-occurrence order |
| ModuleLibrary.LibraryCategoriesKnown | src/pages/ModuleLibrary.tsx:74 | every category choice is one of the seven ids |
| ModuleLibrary.CategoryLabel | src/pages/ModuleLibrary.tsx:240 | a category's label is the id with its first letter in upper case |
| ModuleLibrary.ParameterSummary | src/pages/ModuleLibrary.tsx:139-151 | a card lists at most three parameters. "+N more" appears iff there are more than three, with N the rest. The required figure counts exactly the required parameters |
| ModuleLibrary.ExampleValueFallback | src/pages/ModuleLibrary.tsx:99 | a string parameter's example value is its default or `example`, in quotes; any other type's is its default or `true`, bare |
| ModuleLibrary.ExampleShowsFirstParameters | src/pages/ModuleLibrary.tsx:95-107 | each of the first three parameters has its `name = value` line in the example |
| ModuleLibrary.ShortTextPreviewedWhole | src/pages/ModuleLibrary.tsx:171-172 | a text of at most four lines is previewed whole |
| ModuleLibrary.LongTextPreviewCut | src/pages/ModuleLibrary.tsx:171-172 | a longer text is previewed as its first four lines (the prefix that stops just before its fourth line break and holds three line breaks) followed by `\n  ...` |
| ModuleLibrary.ExamplePreviewIsCut | src/pages/ModuleLibrary.tsx:95-172 | every example has more than four lines, so its preview is always its first four lines followed by `\n  ...` |

## Left out

- Packaging is not modelled: the zip library, `generateAsync`, `saveAs` and the date-stamped file name. The archive is the ordered list of folder and file entries the generator adds; the clock is not modelled.
- React rendering, styling, icons and toasts are left out, as are the clipboard copy on the library page and the `async`/`await` around generation. The library page's tabs are left out too.
- Wizard.Wizard.Generate: the generation is one atomic call. `isGenerating` is reset before the method returns, so the time while it is `true` (the disabled button) is not modelled, nor is the exception path that reaches the `finally`.
- Wizard.Wizard.ToggleModule, Wizard.Wizard.ChangeParameter, Wizard.Wizard.BackToProvider, Wizard.Wizard.ContinueToParameters, Wizard.Wizard.BackToModules and Wizard.Wizard.ReadyToGenerate: these buttons and handlers exist only while the page renders the modules or parameters step. The page renders them only when `selectedProvider` is truthy, so each method requires that.
- The provider selector, profile, project details and dashboard pages are not part of this model. Only the provider ids `aws`, `azure` and `gcp` matter, and they are a constant.
- Case folding covers ASCII letters only; Unicode `toLowerCase`/`toUpperCase` rules are not modelled.
- The generator's unused provider-to-templates map is not modelled.
- The fixed multi-line text is carried as string constants with nothing proved about its HCL syntax. This covers the bodies of the root files and the README, and the parts of each template outside its interpolations.
- RootFiles.OutputsFileSections: "a section is written only when its id is selected" is stated on the list of written sections, not as the absence of the section's text from the file.
- Generator.GenerateProject: path uniqueness within the archive is not stated. A zip writer would overwrite an entry added twice at the same path, and the model keeps both.
- ModuleLibrary.ExampleShowsFirstParameters: it states that the lines occur in the example, not where.

## Findings

| source | as written | input that shows it | evidently intended | confidence | as-written member | corrected member |
|---|---|---|---|---|---|---|
| src/components/ParameterForm.tsx:104 | a box is ticked when the stored value or the default is `"true"` | the VPC module's `enable_dns_hostnames` (default `"true"`): the user clears the box, `"false"` is stored and the file gets `false`, yet the box stays ticked | tick from the stored value when there is one, from the default otherwise (`ParameterForm.Checked`; the page model `ParameterForm.WidgetFor` keeps the tick as written) | not executed | ParameterForm.CheckBoxAsWrittenStaysTicked | ParameterForm.CheckBoxRoundTrip |
