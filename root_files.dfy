// The four files the generator writes at the root of every project: main.tf,
// variables.tf, terraform.tfvars and outputs.tf (src/utils/terraformGenerator.ts:22-255).
// Their text is fixed per provider (per selection for outputs.tf); the model keeps the
// repeated block shapes (`variable`, `name = "value"`, `output`) as data so that what each
// file declares can be named.
module RootFiles {
  import opened Wrappers
  import Seqs
  import JsStrings
  import Catalog

  // ---------------------------------------------------------------- variables.tf

  /** A `variable` block. Every variable the generator declares has type `string`. */
  datatype Variable = Variable(name: string, description: string, defaultValue: Option<string>)

  /** `variable "<name>" {`, the line that declares a variable. */
  function VariableHeader(name: string): string
  {
    "variable \"" + name + "\" {"
  }

  /** The lines after the header: description, type, default when there is one, `}`. */
  function VariableBody(v: Variable): string
  {
    "\n  description = \"" + v.description + "\"\n  type        = string\n"
    + (if v.defaultValue.Some? then "  default     = \"" + v.defaultValue.value + "\"\n" else "")
    + "}"
  }

  function RenderVariable(v: Variable): string
  {
    VariableHeader(v.name) + VariableBody(v)
  }

  /** A block starts with the line declaring its variable. */
  lemma RenderVariableStartsWithHeader(v: Variable)
    ensures JsStrings.Contains(RenderVariable(v), VariableHeader(v.name))
  {
    hide VariableHeader, VariableBody;
    JsStrings.ContainsMiddle("", VariableHeader(v.name), VariableBody(v));
    assert "" + VariableHeader(v.name) + VariableBody(v) == RenderVariable(v);
  }

  function ProjectNameVariable(): Variable
  {
    Variable("project_name", "Name of the project, used for resource naming", Some("terraform-generated"))
  }

  function EnvironmentVariable(): Variable
  {
    Variable("environment", "Environment name (dev, staging, prod)", Some("dev"))
  }

  function AwsRegionVariable(): Variable
  {
    Variable("aws_region", "AWS region for resources", Some("us-west-2"))
  }

  function LocationVariable(): Variable
  {
    Variable("location", "Azure region for resources", Some("East US"))
  }

  function ResourceGroupNameVariable(): Variable
  {
    Variable("resource_group_name", "Name of the resource group", Some("terraform-rg"))
  }

  /** The one variable without a default: a GCP project id cannot be guessed. */
  function ProjectIdVariable(): Variable
  {
    Variable("project_id", "GCP project ID", None)
  }

  function RegionVariable(): Variable
  {
    Variable("region", "GCP region for resources", Some("us-central1"))
  }

  function ZoneVariable(): Variable
  {
    Variable("zone", "GCP zone for resources", Some("us-central1-a"))
  }

  /** The two variables every project declares. */
  function BaseVariables(): seq<Variable>
  {
    [ProjectNameVariable(), EnvironmentVariable()]
  }

  /** The variables a provider adds after the base ones; an unknown provider adds none. */
  function ProviderVariables(provider: string): seq<Variable>
  {
    if provider == "aws" then [AwsRegionVariable()]
    else if provider == "azure" then [LocationVariable(), ResourceGroupNameVariable()]
    else if provider == "gcp" then [ProjectIdVariable(), RegionVariable(), ZoneVariable()]
    else []
  }

  /** The variables variables.tf declares, in file order. */
  function Variables(provider: string): seq<Variable>
  {
    BaseVariables() + ProviderVariables(provider)
  }

  function VariableNames(provider: string): seq<string>
  {
    Seqs.Map(Variables(provider), (v: Variable) => v.name)
  }

  function Blocks(vs: seq<Variable>): string
  {
    JsStrings.Join(Seqs.Map(vs, RenderVariable), "\n\n")
  }

  function VariablesHeader(provider: string): string
  {
    "# Variables for " + JsStrings.ToUpperAscii(provider) + " infrastructure\n\n"
  }

  /** `baseVariables`: the header naming the provider in upper case, then the base blocks. */
  function BaseVariablesText(provider: string): string
  {
    VariablesHeader(provider) + Blocks(BaseVariables())
  }

  /** `generateVariablesFile`: the base text, plus the provider's blocks for a known provider. */
  function VariablesFile(provider: string): string
  {
    if provider == "aws" || provider == "azure" || provider == "gcp" then
      BaseVariablesText(provider) + "\n\n" + Blocks(ProviderVariables(provider))
    else BaseVariablesText(provider)
  }

  /** The declared variables start with the base two, and are only those for an unknown
      provider. */
  lemma VariablesStartWithBase(provider: string)
    ensures BaseVariables() <= Variables(provider)
    ensures |Variables(provider)| == 2 + |ProviderVariables(provider)|
    ensures provider !in Catalog.ProviderIds <==> Variables(provider) == BaseVariables()
  {
    hide ProjectNameVariable, EnvironmentVariable, AwsRegionVariable, LocationVariable,
         ResourceGroupNameVariable, ProjectIdVariable, RegionVariable, ZoneVariable;
  }

  /** The file is the header followed by one block per declared variable, in order; the
      base text is always its start, and is all of it for an unknown provider. */
  lemma VariablesFileBlocks(provider: string)
    ensures VariablesFile(provider) == VariablesHeader(provider) + Blocks(Variables(provider))
    ensures BaseVariablesText(provider) <= VariablesFile(provider)
    ensures provider !in Catalog.ProviderIds ==> VariablesFile(provider) == BaseVariablesText(provider)
  {
    hide ProjectNameVariable, EnvironmentVariable, AwsRegionVariable, LocationVariable,
         ResourceGroupNameVariable, ProjectIdVariable, RegionVariable, ZoneVariable,
         RenderVariable, VariablesHeader;
    var base := BaseVariables();
    var extra := ProviderVariables(provider);
    if |extra| > 0 {
      Seqs.MapConcat(base, extra, RenderVariable);
      JsStrings.JoinAppend(Seqs.Map(base, RenderVariable), Seqs.Map(extra, RenderVariable), "\n\n");
    } else {
      assert Variables(provider) == base;
    }
  }

  /** Each declared variable has its header line in the file. */
  lemma VariablesFileDeclares(provider: string, k: nat)
    requires k < |Variables(provider)|
    ensures JsStrings.Contains(VariablesFile(provider), VariableHeader(Variables(provider)[k].name))
  {
    hide ProjectNameVariable, EnvironmentVariable, AwsRegionVariable, LocationVariable,
         ResourceGroupNameVariable, ProjectIdVariable, RegionVariable, ZoneVariable,
         VariablesHeader, VariablesFile, JsStrings.Contains, VariableHeader, RenderVariable;
    var v := Variables(provider)[k];
    var parts := Seqs.Map(Variables(provider), RenderVariable);
    VariablesFileBlocks(provider);
    JsStrings.JoinContains(parts, k, "\n\n");
    assert parts[k] == RenderVariable(v);
    JsStrings.ContainsWiden(VariablesHeader(provider), Blocks(Variables(provider)), "", parts[k]);
    assert VariablesHeader(provider) + Blocks(Variables(provider)) + "" == VariablesFile(provider);
    RenderVariableStartsWithHeader(v);
    JsStrings.ContainsTrans(VariablesFile(provider), parts[k], VariableHeader(v.name));
  }

  // ---------------------------------------------------------------- terraform.tfvars

  /** A `name = "value"` line; `gap` spaces follow the name so that the `=` signs of a
      group of lines are aligned. */
  datatype Setting = Setting(name: string, gap: nat, value: string)

  function Spaces(n: nat): (r: string)
    ensures |r| == n && forall i :: 0 <= i < n ==> r[i] == ' '
  {
    if n == 0 then "" else " " + Spaces(n - 1)
  }

  function RenderSetting(s: Setting): string
  {
    s.name + Spaces(s.gap) + "= \"" + s.value + "\""
  }

  function TfvarsHeader(): string
  {
    "# Terraform variables file\n# Edit these values according to your requirements\n\n"
  }

  function ProjectNameSetting(): Setting
  {
    Setting("project_name", 1, "my-terraform-project")
  }

  function EnvironmentSetting(): Setting
  {
    Setting("environment", 2, "dev")
  }

  function AwsRegionSetting(): Setting
  {
    Setting("aws_region", 3, "us-west-2")
  }

  function LocationSetting(): Setting
  {
    Setting("location", 12, "East US")
  }

  function ResourceGroupNameSetting(): Setting
  {
    Setting("resource_group_name", 1, "terraform-rg")
  }

  function ProjectIdSetting(): Setting
  {
    Setting("project_id", 1, "my-gcp-project")
  }

  function RegionSetting(): Setting
  {
    Setting("region", 5, "us-central1")
  }

  function ZoneSetting(): Setting
  {
    Setting("zone", 7, "us-central1-a")
  }

  function BaseSettings(): seq<Setting>
  {
    [ProjectNameSetting(), EnvironmentSetting()]
  }

  function ProviderSettings(provider: string): seq<Setting>
  {
    if provider == "aws" then [AwsRegionSetting()]
    else if provider == "azure" then [LocationSetting(), ResourceGroupNameSetting()]
    else if provider == "gcp" then [ProjectIdSetting(), RegionSetting(), ZoneSetting()]
    else []
  }

  /** The lines of terraform.tfvars, in file order. */
  function Settings(provider: string): seq<Setting>
  {
    BaseSettings() + ProviderSettings(provider)
  }

  function SettingNames(provider: string): seq<string>
  {
    Seqs.Map(Settings(provider), (s: Setting) => s.name)
  }

  /** The tfvars text: the header, then the settings one per line. */
  function TfvarsFile(provider: string): string
  {
    TfvarsHeader() + JsStrings.Join(Seqs.Map(Settings(provider), RenderSetting), "\n")
  }

  /** `vars` is the header and the lines of the non-empty `written`, one per line. */
  ghost predicate Assigned(vars: string, written: seq<Setting>)
  {
    |written| > 0 && vars == TfvarsHeader() + JsStrings.Join(Seqs.Map(written, RenderSetting), "\n")
  }

  /** The starting text holds the two base lines. */
  lemma AssignedStart()
    ensures Assigned(TfvarsHeader() + RenderSetting(ProjectNameSetting()) + "\n" + RenderSetting(EnvironmentSetting()),
                     BaseSettings())
  {
    hide ProjectNameSetting, EnvironmentSetting, RenderSetting, TfvarsHeader;
    assert Seqs.Map([ProjectNameSetting()], RenderSetting) == [RenderSetting(ProjectNameSetting())];
    AssignedStep(TfvarsHeader() + RenderSetting(ProjectNameSetting()), [ProjectNameSetting()], EnvironmentSetting());
    assert [ProjectNameSetting()] + [EnvironmentSetting()] == BaseSettings();
  }

  /** `vars += "\n" + line` assigns one more setting. */
  lemma AssignedStep(vars: string, written: seq<Setting>, s: Setting)
    requires Assigned(vars, written)
    ensures Assigned(vars + "\n" + RenderSetting(s), written + [s])
  {
    hide RenderSetting, TfvarsHeader;
    Seqs.MapConcat(written, [s], RenderSetting);
    assert Seqs.Map([s], RenderSetting) == [RenderSetting(s)];
    JsStrings.JoinAppend(Seqs.Map(written, RenderSetting), [RenderSetting(s)], "\n");
  }

  /** Once every setting of the provider is written, the text is the whole file. */
  lemma AssignedAll(provider: string, vars: string)
    requires Assigned(vars, Settings(provider))
    ensures vars == TfvarsFile(provider)
  {
    hide ProjectNameSetting, EnvironmentSetting, AwsRegionSetting, LocationSetting,
         ResourceGroupNameSetting, ProjectIdSetting, RegionSetting, ZoneSetting,
         RenderSetting, TfvarsHeader;
  }

  /** `generateTerraformVars`: the base lines, then `+=` of the provider's lines. */
  method TerraformVars(provider: string) returns (vars: string)
    ensures vars == TfvarsFile(provider)
  {
    hide ProjectNameSetting, EnvironmentSetting, AwsRegionSetting, LocationSetting,
         ResourceGroupNameSetting, ProjectIdSetting, RegionSetting, ZoneSetting,
         RenderSetting, TfvarsHeader, Assigned;
    vars := TfvarsHeader() + RenderSetting(ProjectNameSetting()) + "\n" + RenderSetting(EnvironmentSetting());
    ghost var written := BaseSettings();
    AssignedStart();
    if provider == "aws" {
      AssignedStep(vars, written, AwsRegionSetting());
      vars := vars + "\n" + RenderSetting(AwsRegionSetting());
      written := written + [AwsRegionSetting()];
    } else if provider == "azure" {
      AssignedStep(vars, written, LocationSetting());
      AssignedStep(vars + "\n" + RenderSetting(LocationSetting()), written + [LocationSetting()], ResourceGroupNameSetting());
      vars := vars + "\n" + RenderSetting(LocationSetting()) + "\n" + RenderSetting(ResourceGroupNameSetting());
      written := written + [LocationSetting()] + [ResourceGroupNameSetting()];
    } else if provider == "gcp" {
      AssignedStep(vars, written, ProjectIdSetting());
      AssignedStep(vars + "\n" + RenderSetting(ProjectIdSetting()), written + [ProjectIdSetting()], RegionSetting());
      AssignedStep(vars + "\n" + RenderSetting(ProjectIdSetting()) + "\n" + RenderSetting(RegionSetting()),
                   written + [ProjectIdSetting()] + [RegionSetting()], ZoneSetting());
      vars := vars + "\n" + RenderSetting(ProjectIdSetting()) + "\n" + RenderSetting(RegionSetting())
              + "\n" + RenderSetting(ZoneSetting());
      written := written + [ProjectIdSetting()] + [RegionSetting()] + [ZoneSetting()];
    }
    assert written == Settings(provider);
    AssignedAll(provider, vars);
  }

  /** terraform.tfvars assigns exactly the variables variables.tf declares, in the same
      order; in particular GCP's `project_id`, which has no default, gets a value. */
  lemma SettingsMatchVariables(provider: string)
    ensures SettingNames(provider) == VariableNames(provider)
  {
  }

  // ---------------------------------------------------------------- outputs.tf

  /** An `output` block; `value` is the Terraform expression it exports. */
  datatype Output = Output(name: string, description: string, value: string)

  /** The outputs written for one module id when it is selected. */
  datatype OutputSection = OutputSection(moduleId: string, outputs: seq<Output>)

  function RenderOutput(o: Output): string
  {
    "output \"" + o.name + "\" {\n  description = \"" + o.description + "\"\n  value       = " + o.value + "\n}\n\n"
  }

  function SectionText(s: OutputSection): string
  {
    Seqs.Flatten(Seqs.Map(s.outputs, RenderOutput))
  }

  function VpcOutputs(): seq<Output>
  {
    [Output("vpc_id", "ID of the VPC", "aws_vpc.main.id"),
     Output("vpc_cidr_block", "CIDR block of the VPC", "aws_vpc.main.cidr_block")]
  }

  function SubnetOutputs(): seq<Output>
  {
    [Output("public_subnet_ids", "IDs of public subnets", "[aws_subnet.public_1.id, aws_subnet.public_2.id]"),
     Output("private_subnet_ids", "IDs of private subnets", "[aws_subnet.private_1.id, aws_subnet.private_2.id]")]
  }

  function Ec2Outputs(): seq<Output>
  {
    [Output("instance_ids", "IDs of EC2 instances", "aws_instance.main[*].id"),
     Output("instance_public_ips", "Public IP addresses of EC2 instances", "aws_instance.main[*].public_ip")]
  }

  function S3Outputs(): seq<Output>
  {
    [Output("s3_bucket_name", "Name of the S3 bucket", "aws_s3_bucket.main.id"),
     Output("s3_bucket_arn", "ARN of the S3 bucket", "aws_s3_bucket.main.arn")]
  }

  function VpcSection(): OutputSection { OutputSection("vpc", VpcOutputs()) }
  function SubnetSection(): OutputSection { OutputSection("subnet", SubnetOutputs()) }
  function Ec2Section(): OutputSection { OutputSection("ec2", Ec2Outputs()) }
  function S3Section(): OutputSection { OutputSection("s3", S3Outputs()) }

  /** The four sections of `generateOutputsFile`, in the order the file tests them. */
  function OutputSections(): seq<OutputSection>
  {
    [VpcSection(), SubnetSection(), Ec2Section(), S3Section()]
  }

  function SectionSelected(selected: seq<string>): OutputSection -> bool
  {
    (s: OutputSection) => s.moduleId in selected
  }

  /** The sections written for a selection: those whose id is selected, in the fixed order. */
  function SelectedSections(selected: seq<string>): (r: seq<OutputSection>)
    ensures forall s :: s in r <==> s in OutputSections() && s.moduleId in selected
    ensures Seqs.IsSubsequence(r, OutputSections())
  {
    Seqs.FilterIsSubsequence(OutputSections(), SectionSelected(selected));
    Seqs.Filter(OutputSections(), SectionSelected(selected))
  }

  function OutputsHeader(): string
  {
    "# Outputs for generated infrastructure\n\n"
  }

  /** The outputs text: the header and the blocks of each selected section. */
  function OutputsFile(selected: seq<string>): string
  {
    OutputsHeader() + Seqs.Flatten(Seqs.Map(SelectedSections(selected), SectionText))
  }

  lemma SectionIds()
    ensures VpcSection().moduleId == "vpc" && SubnetSection().moduleId == "subnet"
    ensures Ec2Section().moduleId == "ec2" && S3Section().moduleId == "s3"
  {
    hide VpcOutputs, SubnetOutputs, Ec2Outputs, S3Outputs;
  }

  /** `outputs` is the header and the blocks of the sections selected among `seen`. */
  ghost predicate Written(selected: seq<string>, seen: seq<OutputSection>, outputs: string)
  {
    outputs == OutputsHeader() + Seqs.Flatten(Seqs.Map(Seqs.Filter(seen, SectionSelected(selected)), SectionText))
  }

  /** One `if (selectedModules.includes(s.moduleId)) outputs += ...` step keeps `Written`. */
  lemma WrittenStep(selected: seq<string>, seen: seq<OutputSection>, s: OutputSection, outputs: string)
    requires Written(selected, seen, outputs)
    ensures Written(selected, seen + [s], if s.moduleId in selected then outputs + SectionText(s) else outputs)
  {
    hide SectionText, OutputsHeader;
    Seqs.FilterMapStep(OutputsHeader(), seen, s, SectionSelected(selected), SectionText, outputs);
  }

  /** No section has been looked at yet: the text is the header. */
  lemma WrittenStart(selected: seq<string>)
    ensures Written(selected, [], OutputsHeader())
  {
    hide OutputsHeader;
  }

  /** All four sections handled: the text is the whole file. */
  lemma WrittenAll(selected: seq<string>, outputs: string)
    requires Written(selected, OutputSections(), outputs)
    ensures outputs == OutputsFile(selected)
  {
    hide OutputsHeader, SectionText, VpcOutputs, SubnetOutputs, Ec2Outputs, S3Outputs;
  }

  /** `generateOutputsFile`: four `if (selectedModules.includes(id)) outputs += ...` steps. */
  method GenerateOutputs(selected: seq<string>) returns (outputs: string)
    ensures outputs == OutputsFile(selected)
  {
    SectionIds();
    hide VpcOutputs, SubnetOutputs, Ec2Outputs, S3Outputs, SectionText,
         VpcSection, SubnetSection, Ec2Section, S3Section, Written;
    ghost var seen: seq<OutputSection> := [];
    outputs := OutputsHeader();
    WrittenStart(selected);
    ghost var before := outputs;
    if "vpc" in selected {
      outputs := outputs + SectionText(VpcSection());
    }
    WrittenStep(selected, seen, VpcSection(), before);
    seen, before := seen + [VpcSection()], outputs;
    if "subnet" in selected {
      outputs := outputs + SectionText(SubnetSection());
    }
    WrittenStep(selected, seen, SubnetSection(), before);
    seen, before := seen + [SubnetSection()], outputs;
    if "ec2" in selected {
      outputs := outputs + SectionText(Ec2Section());
    }
    WrittenStep(selected, seen, Ec2Section(), before);
    seen, before := seen + [Ec2Section()], outputs;
    if "s3" in selected {
      outputs := outputs + SectionText(S3Section());
    }
    WrittenStep(selected, seen, S3Section(), before);
    seen := seen + [S3Section()];
    assert seen == OutputSections();
    WrittenAll(selected, outputs);
  }

  /** Each selected section's blocks occur in the file, and a section is written only
      when its id is selected; the file does not depend on the provider at all. */
  lemma OutputsFileSections(selected: seq<string>, s: OutputSection)
    requires s in OutputSections()
    ensures s.moduleId in selected ==> JsStrings.Contains(OutputsFile(selected), SectionText(s))
    ensures s in SelectedSections(selected) <==> s.moduleId in selected
  {
    hide VpcOutputs, SubnetOutputs, Ec2Outputs, S3Outputs, SectionText, OutputsHeader, JsStrings.Contains;
    var written := SelectedSections(selected);
    if s.moduleId in selected {
      var texts := Seqs.Map(written, SectionText);
      var k :| 0 <= k < |written| && written[k] == s;
      JsStrings.FlattenContains(texts, k);
      JsStrings.ContainsWiden(OutputsHeader(), Seqs.Flatten(texts), "", SectionText(s));
      assert OutputsHeader() + Seqs.Flatten(texts) + "" == OutputsFile(selected);
    }
  }

  // ---------------------------------------------------------------- main.tf

  /** `var.<name>`: a reference to an input variable. */
  function VarRef(name: string): string
  {
    "var." + name
  }

  /** Fixed text with variable references between its pieces:
      `texts[0] var.refs[0] texts[1] ... var.refs[n-1] texts[n]`. */
  function Weave(texts: seq<string>, refs: seq<string>): string
    decreases |refs|
  {
    if |texts| == 0 then ""
    else if |refs| == 0 then texts[0]
    else texts[0] + VarRef(refs[0]) + Weave(texts[1..], refs[1..])
  }

  /** Every reference woven into the text occurs in it. */
  lemma {:induction false} WeaveContains(texts: seq<string>, refs: seq<string>, k: nat)
    requires |texts| == |refs| + 1 && k < |refs|
    ensures JsStrings.Contains(Weave(texts, refs), VarRef(refs[k]))
    decreases |refs|
  {
    hide VarRef;
    if k == 0 {
      JsStrings.ContainsMiddle(texts[0], VarRef(refs[0]), Weave(texts[1..], refs[1..]));
    } else {
      WeaveContains(texts[1..], refs[1..], k - 1);
      JsStrings.ContainsWiden(texts[0] + VarRef(refs[0]), Weave(texts[1..], refs[1..]), "", VarRef(refs[k]));
      assert texts[0] + VarRef(refs[0]) + Weave(texts[1..], refs[1..]) + "" == Weave(texts, refs);
    }
  }

  function MainAwsReferences(): seq<string>
  {
    ["aws_region", "project_name", "environment"]
  }

  function MainAzureReferences(): seq<string>
  {
    ["resource_group_name", "location", "project_name", "environment"]
  }

  function MainGcpReferences(): seq<string>
  {
    ["project_id", "region", "zone"]
  }

  /** The variables main.tf references, in text order; none for an unknown provider. */
  function MainReferences(provider: string): seq<string>
  {
    if provider == "aws" then MainAwsReferences()
    else if provider == "azure" then MainAzureReferences()
    else if provider == "gcp" then MainGcpReferences()
    else []
  }

  function MainAws(): string
  {
    Weave([MainAwsText0(), MainAwsText1(), MainAwsText2(), MainAwsText3()], MainAwsReferences())
  }

  function MainAzure(): string
  {
    Weave([MainAzureText0(), MainAzureText1(), MainAzureText2(), MainAzureText3(), MainAzureText4()],
          MainAzureReferences())
  }

  function MainGcp(): string
  {
    Weave([MainGcpText0(), MainGcpText1(), MainGcpText2(), MainGcpText3()], MainGcpReferences())
  }

  /** `generateMainFile`: the terraform and provider blocks of a known provider, else `""`. */
  function MainFile(provider: string): string
  {
    if provider == "aws" then MainAws()
    else if provider == "azure" then MainAzure()
    else if provider == "gcp" then MainGcp()
    else ""
  }

  /** main.tf is empty exactly for an unknown provider. */
  lemma MainFileEmpty(provider: string)
    ensures MainFile(provider) == "" <==> provider !in Catalog.ProviderIds
  {
    hide MainAwsText0, MainAwsText1, MainAwsText2, MainAwsText3,
         MainAzureText0, MainAzureText1, MainAzureText2, MainAzureText3, MainAzureText4,
         MainGcpText0, MainGcpText1, MainGcpText2, MainGcpText3;
    if provider == "aws" {
      MainReferenced(provider, "aws_region");
    } else if provider == "azure" {
      MainReferenced(provider, "resource_group_name");
    } else if provider == "gcp" {
      MainReferenced(provider, "project_id");
    }
  }

  /** Each reference of `MainReferences` occurs as `var.<name>` in main.tf. */
  lemma MainReferenced(provider: string, name: string)
    requires name in MainReferences(provider)
    ensures JsStrings.Contains(MainFile(provider), VarRef(name))
  {
    hide MainAwsText0, MainAwsText1, MainAwsText2, MainAwsText3,
         MainAzureText0, MainAzureText1, MainAzureText2, MainAzureText3, MainAzureText4,
         MainGcpText0, MainGcpText1, MainGcpText2, MainGcpText3, VarRef, JsStrings.Contains;
    var refs := MainReferences(provider);
    var k := Seqs.IndexOf(refs, name);
    if provider == "aws" {
      WeaveContains([MainAwsText0(), MainAwsText1(), MainAwsText2(), MainAwsText3()], refs, k);
    } else if provider == "azure" {
      WeaveContains([MainAzureText0(), MainAzureText1(), MainAzureText2(), MainAzureText3(), MainAzureText4()], refs, k);
    } else {
      WeaveContains([MainGcpText0(), MainGcpText1(), MainGcpText2(), MainGcpText3()], refs, k);
    }
  }

  lemma VariableRecordNames()
    ensures ProjectNameVariable().name == "project_name" && EnvironmentVariable().name == "environment"
    ensures AwsRegionVariable().name == "aws_region"
    ensures LocationVariable().name == "location" && ResourceGroupNameVariable().name == "resource_group_name"
    ensures ProjectIdVariable().name == "project_id" && RegionVariable().name == "region"
    ensures ZoneVariable().name == "zone"
  {
  }

  /** The names main.tf references are among the declared ones. */
  lemma MainReferencesAreVariables(provider: string)
    ensures forall name :: name in MainReferences(provider) ==> name in VariableNames(provider)
  {
    VariableRecordNames();
    hide ProjectNameVariable, EnvironmentVariable, AwsRegionVariable, LocationVariable,
         ResourceGroupNameVariable, ProjectIdVariable, RegionVariable, ZoneVariable,
         RenderVariable, VariablesFile;
    var names := VariableNames(provider);
    assert names[0] == "project_name" && names[1] == "environment";
    if provider == "aws" {
      assert names[2] == "aws_region";
    } else if provider == "azure" {
      assert names[2] == "location" && names[3] == "resource_group_name";
    } else if provider == "gcp" {
      assert names[2] == "project_id" && names[3] == "region" && names[4] == "zone";
    }
  }

  /** Every variable main.tf references is declared in variables.tf and assigned in
      terraform.tfvars, for each provider. */
  lemma MainUsesDeclaredVariables(provider: string, name: string)
    requires name in MainReferences(provider)
    ensures JsStrings.Contains(MainFile(provider), VarRef(name))
    ensures JsStrings.Contains(VariablesFile(provider), VariableHeader(name))
    ensures name in SettingNames(provider)
  {
    hide ProjectNameVariable, EnvironmentVariable, AwsRegionVariable, LocationVariable,
         ResourceGroupNameVariable, ProjectIdVariable, RegionVariable, ZoneVariable,
         MainAwsText0, MainAwsText1, MainAwsText2, MainAwsText3,
         MainAzureText0, MainAzureText1, MainAzureText2, MainAzureText3, MainAzureText4,
         MainGcpText0, MainGcpText1, MainGcpText2, MainGcpText3,
         MainFile, VariablesFile, VarRef, VariableHeader, JsStrings.Contains,
         MainAwsReferences, MainAzureReferences, MainGcpReferences, SettingNames;
    MainReferenced(provider, name);
    MainReferencesAreVariables(provider);
    var names := VariableNames(provider);
    var k := Seqs.IndexOf(names, name);
    assert Variables(provider)[k].name == name;
    VariablesFileDeclares(provider, k);
    SettingsMatchVariables(provider);
  }

  // ---------------------------------------------------------------- fixed text

  function MainAwsText0(): string
  {
    @"# Main Terraform configuration

terraform {
  required_version = "">= 1.0""
  required_providers {
    aws = {
      source  = ""hashicorp/aws""
      version = ""~> 5.0""
    }
    random = {
      source  = ""hashicorp/random""
      version = ""~> 3.1""
    }
  }
}

# Configure the AWS Provider
provider ""aws"" {
  region = "
  }

  function MainAwsText1(): string
  {
    @"

  default_tags {
    tags = {
      Project     = "
  }

  function MainAwsText2(): string
  {
    @"
      Environment = "
  }

  function MainAwsText3(): string
  {
    @"
      ManagedBy   = ""Terraform""
    }
  }
}"
  }

  function MainAzureText0(): string
  {
    @"# Main Terraform configuration

terraform {
  required_version = "">= 1.0""
  required_providers {
    azurerm = {
      source  = ""hashicorp/azurerm""
      version = ""~> 3.0""
    }
    random = {
      source  = ""hashicorp/random""
      version = ""~> 3.1""
    }
  }
}

# Configure the Microsoft Azure Provider
provider ""azurerm"" {
  features {}
}

# Resource Group
resource ""azurerm_resource_group"" ""main"" {
  name     = "
  }

  function MainAzureText1(): string
  {
    @"
  location = "
  }

  function MainAzureText2(): string
  {
    @"

  tags = {
    Project     = "
  }

  function MainAzureText3(): string
  {
    @"
    Environment = "
  }

  function MainAzureText4(): string
  {
    @"
    ManagedBy   = ""Terraform""
  }
}"
  }

  function MainGcpText0(): string
  {
    @"# Main Terraform configuration

terraform {
  required_version = "">= 1.0""
  required_providers {
    google = {
      source  = ""hashicorp/google""
      version = ""~> 4.0""
    }
    random = {
      source  = ""hashicorp/random""
      version = ""~> 3.1""
    }
  }
}

# Configure the Google Cloud Provider
provider ""google"" {
  project = "
  }

  function MainGcpText1(): string
  {
    @"
  region  = "
  }

  function MainGcpText2(): string
  {
    @"
  zone    = "
  }

  function MainGcpText3(): string
  {
    @"
}"
  }
}
