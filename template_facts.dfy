// Facts about individual templates of src/utils/terraformTemplates.ts: the fallback rule
// at work, the S3 versioning switch, quoted lists, `undefined` interpolation, the subnet
// blocks and the resource names one template declares and another refers to.
module TemplateFacts {
  import opened Wrappers
  import opened Templates
  import JsStrings
  import Seqs
  import AwsTemplates
  import GcpTemplates

  /** `resource "<kind>" "<name>"` occurs in the text. */
  predicate Declares(text: string, kind: string, name: string)
  {
    JsStrings.Contains(text, "resource \"" + kind + "\" \"" + name + "\"")
  }

  /** An attribute reference `<kind>.<name>.id` occurs in the text. */
  predicate References(text: string, kind: string, name: string)
  {
    JsStrings.Contains(text, kind + "." + name + ".id")
  }

  /** A literal segment that is a resource header declares that resource in every
      rendering. */
  lemma DeclaresAt(t: Template, i: nat, p: Params, kind: string, name: string)
    requires i < |t| && t[i] == Lit("resource \"" + kind + "\" \"" + name + "\"")
    ensures Declares(Render(t, p), kind, name)
  {
    RenderAt(t, i, p);
  }

  /** A literal segment that is an `.id` reference makes every rendering refer to it. */
  lemma ReferencesAt(t: Template, i: nat, p: Params, kind: string, name: string)
    requires i < |t| && t[i] == Lit(kind + "." + name + ".id")
    ensures References(Render(t, p), kind, name)
  {
    RenderAt(t, i, p);
  }

  /** The quoted list of the items of `value` as the templates write it. */
  function QuotedJoin(value: string): string
  {
    JsStrings.Join(Seqs.Map(JsStrings.Split(value, ','), Quote), ", ")
  }

  /** The `vpc_cidr` line: the override when it is non-empty, `10.0.0.0/16` when it is
      missing or `""`. */
  lemma VpcCidrLine(p: Params)
    ensures !Truthy(Lookup(p, "vpc_cidr")) ==>
              JsStrings.Contains(Render(AwsTemplates.Vpc(), p), "  cidr_block           = \"" + "10.0.0.0/16" + "\"\n")
    ensures Truthy(Lookup(p, "vpc_cidr")) ==>
              JsStrings.Contains(Render(AwsTemplates.Vpc(), p),
                "  cidr_block           = \"" + Lookup(p, "vpc_cidr").value + "\"\n")
  {
    VpcCidrSlots();
    hide AwsTemplates.Vpc, JsStrings.Contains;
    OrLine(AwsTemplates.Vpc(), 4, p);
  }

  /** The segments of the VPC template around its `vpc_cidr` hole. */
  lemma VpcCidrSlots()
    ensures |AwsTemplates.Vpc()| > 5
    ensures AwsTemplates.Vpc()[3] == Lit("  cidr_block           = \"")
    ensures AwsTemplates.Vpc()[4] == Or("vpc_cidr", "10.0.0.0/16")
    ensures AwsTemplates.Vpc()[5] == Lit("\"\n")
  {
    hide AwsTemplates.VpcText0, AwsTemplates.VpcText1, AwsTemplates.VpcText2;
  }

  /** The VPC template cannot tell an empty `vpc_cidr` from a missing one. */
  lemma VpcCidrEmptyIsAbsent(p: Params)
    ensures Render(AwsTemplates.Vpc(), p["vpc_cidr" := ""]) == Render(AwsTemplates.Vpc(), p - {"vpc_cidr"})
  {
    hide AwsTemplates.VpcText0, AwsTemplates.VpcText1, AwsTemplates.VpcText2, JsStrings.Contains;
    assert ReadsOnlyWithFallback(AwsTemplates.Vpc(), "vpc_cidr");
    EmptyIsAbsent(AwsTemplates.Vpc(), p, "vpc_cidr");
  }

  /** S3 versioning is `Enabled` exactly when the override is the text `true`. */
  lemma S3VersioningStatus(p: Params)
    ensures JsStrings.Contains(Render(AwsTemplates.S3(), p),
              "    status = \"" + (if Lookup(p, "versioning") == Some("true") then "Enabled" else "Suspended") + "\"\n")
  {
    hide AwsTemplates.S3Text0, AwsTemplates.S3Text1, AwsTemplates.S3Text2, AwsTemplates.S3Text3,
         AwsTemplates.S3Text4, AwsTemplates.S3Text5, AwsTemplates.S3Text6, AwsTemplates.S3Text7,
         AwsTemplates.S3Text8, JsStrings.Contains;
    ChoiceLine(AwsTemplates.S3(), 12, p);
  }

  /** ECS capacity providers: the quoted items of the override, `"FARGATE", "EC2"` when it
      is missing; an empty override gives the one-item list `[""]`. */
  lemma EcsCapacityProviders(p: Params)
    ensures Lookup(p, "capacity_providers").None? ==>
              JsStrings.Contains(Render(AwsTemplates.EcsCluster(), p),
                "  capacity_providers = [" + "\"FARGATE\", \"EC2\"" + "]\n")
    ensures Lookup(p, "capacity_providers").Some? ==>
              JsStrings.Contains(Render(AwsTemplates.EcsCluster(), p),
                "  capacity_providers = [" + QuotedJoin(Lookup(p, "capacity_providers").value) + "]\n")
    ensures Lookup(p, "capacity_providers") == Some("") ==>
              JsStrings.Contains(Render(AwsTemplates.EcsCluster(), p), "  capacity_providers = [" + "\"\"" + "]\n")
  {
    hide AwsTemplates.EcsClusterText0, JsStrings.Contains;
    QuotedListLine(AwsTemplates.EcsCluster(), 8, p);
    QuotedEmpty();
  }

  /** Batch instance types: the quoted items of the override, `"m5.large"` when it is
      missing. */
  lemma BatchInstanceTypes(p: Params)
    ensures Lookup(p, "instance_types").None? ==>
              JsStrings.Contains(Render(AwsTemplates.BatchComputeEnvironment(), p),
                "    instance_types      = [" + "\"m5.large\"" + " ]\n")
    ensures Lookup(p, "instance_types").Some? ==>
              JsStrings.Contains(Render(AwsTemplates.BatchComputeEnvironment(), p),
                "    instance_types      = [" + QuotedJoin(Lookup(p, "instance_types").value) + " ]\n")
  {
    hide AwsTemplates.BatchComputeEnvironmentText0, AwsTemplates.BatchComputeEnvironmentText1,
         AwsTemplates.BatchComputeEnvironmentText2, AwsTemplates.BatchComputeEnvironmentText3,
         AwsTemplates.BatchComputeEnvironmentText4, JsStrings.Contains;
    QuotedListLine(AwsTemplates.BatchComputeEnvironment(), 17, p);
  }

  /** Storage bucket ACL: `bucket` interpolates the raw value, `undefined` when it is
      missing, and `role_entity` falls back to `"READER:allUsers"`. */
  lemma StorageBucketAclLines(p: Params)
    ensures Lookup(p, "bucket_name").None? ==>
              JsStrings.Contains(Render(GcpTemplates.StorageBucketAcl(), p), "  bucket      = \"" + "undefined" + "\"\n")
    ensures Lookup(p, "bucket_name").Some? ==>
              JsStrings.Contains(Render(GcpTemplates.StorageBucketAcl(), p),
                "  bucket      = \"" + Lookup(p, "bucket_name").value + "\"\n")
    ensures Lookup(p, "role_entity").None? ==>
              JsStrings.Contains(Render(GcpTemplates.StorageBucketAcl(), p),
                "  role_entity = [" + "\"READER:allUsers\"" + "]\n")
    ensures Lookup(p, "role_entity").Some? ==>
              JsStrings.Contains(Render(GcpTemplates.StorageBucketAcl(), p),
                "  role_entity = [" + QuotedJoin(Lookup(p, "role_entity").value) + "]\n")
  {
    hide GcpTemplates.StorageBucketAclText0, JsStrings.Contains;
    RawLine(GcpTemplates.StorageBucketAcl(), 4, p);
    QuotedListLine(GcpTemplates.StorageBucketAcl(), 7, p);
  }

  /** The VPN connection interpolates a missing `customer_gateway_id` as `undefined`. */
  lemma VpnCustomerGatewayId(p: Params)
    ensures Lookup(p, "customer_gateway_id").None? ==>
              JsStrings.Contains(Render(AwsTemplates.VpnConnection(), p),
                "  customer_gateway_id = \"" + "undefined" + "\"\n")
  {
    hide AwsTemplates.VpnConnectionText0, JsStrings.Contains;
    RawLine(AwsTemplates.VpnConnection(), 4, p);
  }

  /** The VPN connection interpolates a missing `vpn_gateway_id` as `undefined`. */
  lemma VpnGatewayId(p: Params)
    ensures Lookup(p, "vpn_gateway_id").None? ==>
              JsStrings.Contains(Render(AwsTemplates.VpnConnection(), p),
                "  vpn_gateway_id     = \"" + "undefined" + "\"\n")
  {
    hide AwsTemplates.VpnConnectionText0, JsStrings.Contains;
    RawLine(AwsTemplates.VpnConnection(), 7, p);
  }

  /** The customer gateway interpolates a missing `ip_address` as `undefined`. */
  lemma CustomerGatewayAddress(p: Params)
    ensures Lookup(p, "ip_address").None? ==>
              JsStrings.Contains(Render(AwsTemplates.CustomerGateway(), p), "  ip_address = \"" + "undefined" + "\"\n")
  {
    hide AwsTemplates.CustomerGatewayText0, JsStrings.Contains;
    RawLine(AwsTemplates.CustomerGateway(), 7, p);
  }

  /** The App Engine application interpolates a missing `project_id` as `undefined`. */
  lemma AppEngineProject(p: Params)
    ensures Lookup(p, "project_id").None? ==>
              JsStrings.Contains(Render(GcpTemplates.AppEngineApplication(), p), "  project     = \"" + "undefined" + "\"\n")
  {
    hide GcpTemplates.AppEngineApplicationText0, JsStrings.Contains;
    RawLine(GcpTemplates.AppEngineApplication(), 4, p);
  }

  lemma VpcHeader()
    ensures "resource \"" + "aws_vpc" + "\" \"" + "main" + "\"" == "resource \"aws_vpc\" \"main\""
  {
  }

  lemma GatewayHeader()
    ensures "resource \"" + "aws_internet_gateway" + "\" \"" + "main" + "\""
         == "resource \"aws_internet_gateway\" \"main\""
  {
  }

  lemma KeyRingHeader()
    ensures "resource \"" + "google_kms_key_ring" + "\" \"" + "main" + "\""
         == "resource \"google_kms_key_ring\" \"main\""
  {
  }

  lemma VpcReference()
    ensures "aws_vpc" + "." + "main" + ".id" == "aws_vpc.main.id"
  {
  }

  lemma GatewayReference()
    ensures "aws_internet_gateway" + "." + "main" + ".id" == "aws_internet_gateway.main.id"
  {
  }

  lemma KeyRingLine()
    ensures "  key_ring = google_kms_key_ring." + "main" + ".id\n"
         == "  key_ring = " + ("google_kms_key_ring" + "." + "main" + ".id") + "\n"
  {
  }

  /** The VPC template declares the VPC and the internet gateway named `main`, whatever
      the overrides. */
  lemma VpcDeclarations(p: Params)
    ensures Declares(Render(AwsTemplates.Vpc(), p), "aws_vpc", "main")
    ensures Declares(Render(AwsTemplates.Vpc(), p), "aws_internet_gateway", "main")
  {
    hide AwsTemplates.VpcText0, AwsTemplates.VpcText1, AwsTemplates.VpcText2, JsStrings.Contains;
    VpcHeader();
    GatewayHeader();
    DeclaresAt(AwsTemplates.Vpc(), 1, p, "aws_vpc", "main");
    DeclaresAt(AwsTemplates.Vpc(), 10, p, "aws_internet_gateway", "main");
  }

  /** The subnet template refers to the VPC and the internet gateway named `main`,
      whatever the overrides. */
  lemma SubnetReferences(q: Params)
    ensures References(Render(AwsTemplates.Subnet(), q), "aws_vpc", "main")
    ensures References(Render(AwsTemplates.Subnet(), q), "aws_internet_gateway", "main")
  {
    hide AwsTemplates.SubnetText0, AwsTemplates.SubnetText1, AwsTemplates.SubnetText2,
         AwsTemplates.SubnetText3, AwsTemplates.SubnetText4, AwsTemplates.SubnetText5,
         AwsTemplates.PublicSubnetBlock, AwsTemplates.PrivateSubnetBlock, AwsTemplates.RouteTableAssociationBlock, JsStrings.Contains;
    VpcReference();
    GatewayReference();
    ReferencesAt(AwsTemplates.Subnet(), 9, q, "aws_vpc", "main");
    ReferencesAt(AwsTemplates.Subnet(), 11, q, "aws_internet_gateway", "main");
  }

  /** The resources the subnet template refers to are exactly the ones the VPC template
      declares, for any overrides of either. */
  lemma SubnetRefersToVpc(p: Params, q: Params)
    ensures References(Render(AwsTemplates.Subnet(), q), "aws_vpc", "main")
            && Declares(Render(AwsTemplates.Vpc(), p), "aws_vpc", "main")
    ensures References(Render(AwsTemplates.Subnet(), q), "aws_internet_gateway", "main")
            && Declares(Render(AwsTemplates.Vpc(), p), "aws_internet_gateway", "main")
  {
    hide Render, JsStrings.Contains;
    SubnetReferences(q);
    VpcDeclarations(p);
  }

  /** The crypto key refers to the key ring named by `key_ring`, `main` when it is missing
      or `""`, which is the name the key ring template declares. */
  lemma KmsKeyRingReference(p: Params)
    ensures Truthy(Lookup(p, "key_ring")) ==>
              JsStrings.Contains(Render(GcpTemplates.KmsCryptoKey(), p),
                "  key_ring = google_kms_key_ring." + Lookup(p, "key_ring").value + ".id\n")
    ensures !Truthy(Lookup(p, "key_ring")) ==>
              References(Render(GcpTemplates.KmsCryptoKey(), p), "google_kms_key_ring", "main")
  {
    OrLine(GcpTemplates.KmsCryptoKey(), 7, p);
    if !Truthy(Lookup(p, "key_ring")) {
      var reference := "google_kms_key_ring" + "." + "main" + ".id";
      KeyRingLine();
      JsStrings.ContainsMiddle("  key_ring = ", reference, "\n");
      JsStrings.ContainsTrans(Render(GcpTemplates.KmsCryptoKey(), p), "  key_ring = " + reference + "\n", reference);
    }
  }

  /** The key ring template declares the key ring `main`, whatever the values. */
  lemma KmsKeyRingDeclaresMain(q: Params)
    ensures Declares(Render(GcpTemplates.KmsKeyRing(), q), "google_kms_key_ring", "main")
  {
    KeyRingHeader();
    DeclaresAt(GcpTemplates.KmsKeyRing(), 1, q, "google_kms_key_ring", "main");
  }

  /** The public subnet CIDRs the subnet template iterates over: the comma-separated
      pieces of the override, or the two defaults when it is missing. */
  function PublicCidrs(p: Params): seq<string>
  {
    ListItems(Lookup(p, "public_subnet_cidrs"), ["10.0.1.0/24", "10.0.2.0/24"])
  }

  /** The private subnet CIDRs, likewise. */
  function PrivateCidrs(p: Params): seq<string>
  {
    ListItems(Lookup(p, "private_subnet_cidrs"), ["10.0.10.0/24", "10.0.20.0/24"])
  }

  /** There is one public subnet per comma-separated piece of the override (an empty
      override is one empty piece), two when the override is missing; likewise private. */
  lemma SubnetCounts(p: Params)
    ensures |PublicCidrs(p)| == if "public_subnet_cidrs" in p then JsStrings.CountChar(p["public_subnet_cidrs"], ',') + 1 else 2
    ensures |PrivateCidrs(p)| == if "private_subnet_cidrs" in p then JsStrings.CountChar(p["private_subnet_cidrs"], ',') + 1 else 2
  {
    ListItemsCount(Lookup(p, "public_subnet_cidrs"), ["10.0.1.0/24", "10.0.2.0/24"]);
    ListItemsCount(Lookup(p, "private_subnet_cidrs"), ["10.0.10.0/24", "10.0.20.0/24"]);
  }

  /** The subnet output holds, as consecutive text, one public subnet block per public
      CIDR. */
  lemma SubnetPublicBlocks(p: Params)
    ensures JsStrings.Contains(Render(AwsTemplates.Subnet(), p),
              Seqs.Flatten(ItemBlocks(PublicCidrs(p), AwsTemplates.PublicSubnetBlock())))
  {
    hide AwsTemplates.SubnetText0, AwsTemplates.SubnetText1, AwsTemplates.SubnetText2,
         AwsTemplates.SubnetText3, AwsTemplates.SubnetText4, AwsTemplates.SubnetText5,
         AwsTemplates.PublicSubnetBlock, AwsTemplates.PrivateSubnetBlock, AwsTemplates.RouteTableAssociationBlock,
         JsStrings.Contains;
    RepeatBlocks(AwsTemplates.Subnet(), 1, p);
  }

  /** The subnet output holds one private subnet block per private CIDR. */
  lemma SubnetPrivateBlocks(p: Params)
    ensures JsStrings.Contains(Render(AwsTemplates.Subnet(), p),
              Seqs.Flatten(ItemBlocks(PrivateCidrs(p), AwsTemplates.PrivateSubnetBlock())))
  {
    hide AwsTemplates.SubnetText0, AwsTemplates.SubnetText1, AwsTemplates.SubnetText2,
         AwsTemplates.SubnetText3, AwsTemplates.SubnetText4, AwsTemplates.SubnetText5,
         AwsTemplates.PublicSubnetBlock, AwsTemplates.PrivateSubnetBlock, AwsTemplates.RouteTableAssociationBlock,
         JsStrings.Contains;
    RepeatBlocks(AwsTemplates.Subnet(), 4, p);
  }

  /** The subnet output holds one route table association per public CIDR. */
  lemma SubnetAssociationBlocks(p: Params)
    ensures JsStrings.Contains(Render(AwsTemplates.Subnet(), p),
              Seqs.Flatten(ItemBlocks(PublicCidrs(p), AwsTemplates.RouteTableAssociationBlock())))
  {
    hide AwsTemplates.SubnetText0, AwsTemplates.SubnetText1, AwsTemplates.SubnetText2,
         AwsTemplates.SubnetText3, AwsTemplates.SubnetText4, AwsTemplates.SubnetText5,
         AwsTemplates.PublicSubnetBlock, AwsTemplates.PrivateSubnetBlock, AwsTemplates.RouteTableAssociationBlock,
         JsStrings.Contains;
    RepeatBlocks(AwsTemplates.Subnet(), 13, p);
  }

  /** Block `k` of the public subnets is `aws_subnet.public_<k+1>` with the trimmed CIDR. */
  lemma PublicSubnetBlockLines(item: string, k: nat)
    ensures JsStrings.Contains(RenderItem(AwsTemplates.PublicSubnetBlock(), item, k),
              "resource \"aws_subnet\" \"public_" + OrdinalText(k) + "\" {\n")
    ensures JsStrings.Contains(RenderItem(AwsTemplates.PublicSubnetBlock(), item, k),
              "  cidr_block              = \"" + JsStrings.Trim(item) + "\"\n")
  {
    hide AwsTemplates.PublicSubnetBlockText0, AwsTemplates.PublicSubnetBlockText1,
         AwsTemplates.PublicSubnetBlockText2, AwsTemplates.PublicSubnetBlockText3,
         JsStrings.Contains, OrdinalText, JsStrings.Trim, RenderItem;
    var b := AwsTemplates.PublicSubnetBlock();
    assert b[1] == Text("resource \"aws_subnet\" \"public_") && b[2] == Ordinal && b[3] == Text("\" {\n");
    assert b[7] == Text("  cidr_block              = \"") && b[8] == Trimmed && b[9] == Text("\"\n");
    ItemLineAt(b, 2, item, k);
    ItemLineAt(b, 8, item, k);
  }

  /** Block `k` of the private subnets is `aws_subnet.private_<k+1>` with the trimmed CIDR. */
  lemma PrivateSubnetBlockLines(item: string, k: nat)
    ensures JsStrings.Contains(RenderItem(AwsTemplates.PrivateSubnetBlock(), item, k),
              "resource \"aws_subnet\" \"private_" + OrdinalText(k) + "\" {\n")
    ensures JsStrings.Contains(RenderItem(AwsTemplates.PrivateSubnetBlock(), item, k),
              "  cidr_block        = \"" + JsStrings.Trim(item) + "\"\n")
  {
    hide AwsTemplates.PrivateSubnetBlockText0, AwsTemplates.PrivateSubnetBlockText1,
         AwsTemplates.PrivateSubnetBlockText2, AwsTemplates.PrivateSubnetBlockText3,
         JsStrings.Contains, OrdinalText, JsStrings.Trim, RenderItem;
    var b := AwsTemplates.PrivateSubnetBlock();
    assert b[1] == Text("resource \"aws_subnet\" \"private_") && b[2] == Ordinal && b[3] == Text("\" {\n");
    assert b[7] == Text("  cidr_block        = \"") && b[8] == Trimmed && b[9] == Text("\"\n");
    ItemLineAt(b, 2, item, k);
    ItemLineAt(b, 8, item, k);
  }

  /** Association `k` ties `aws_subnet.public_<k+1>` to the public route table. */
  lemma AssociationBlockLines(item: string, k: nat)
    ensures JsStrings.Contains(RenderItem(AwsTemplates.RouteTableAssociationBlock(), item, k),
              "  subnet_id      = aws_subnet.public_" + OrdinalText(k) + ".id\n")
  {
    hide AwsTemplates.RouteTableAssociationBlockText0, AwsTemplates.RouteTableAssociationBlockText1,
         JsStrings.Contains, OrdinalText, RenderItem;
    var b := AwsTemplates.RouteTableAssociationBlock();
    assert b[4] == Text("  subnet_id      = aws_subnet.public_") && b[5] == Ordinal && b[6] == Text(".id\n");
    ItemLineAt(b, 5, item, k);
  }

  /** For every public CIDR (position `k`, value `cidr`) the output declares `public_<k+1>`
      with that CIDR trimmed and associates it with the route table. */
  lemma SubnetPublic(p: Params, k: nat, cidr: string)
    requires k < |PublicCidrs(p)| && PublicCidrs(p)[k] == cidr
    ensures JsStrings.Contains(Render(AwsTemplates.Subnet(), p),
              "resource \"aws_subnet\" \"public_" + OrdinalText(k) + "\" {\n")
    ensures JsStrings.Contains(Render(AwsTemplates.Subnet(), p),
              "  cidr_block              = \"" + JsStrings.Trim(cidr) + "\"\n")
    ensures JsStrings.Contains(Render(AwsTemplates.Subnet(), p),
              "  subnet_id      = aws_subnet.public_" + OrdinalText(k) + ".id\n")
  {
    hide Render, AwsTemplates.Subnet, AwsTemplates.PublicSubnetBlock, AwsTemplates.RouteTableAssociationBlock,
         JsStrings.Contains, OrdinalText, JsStrings.Trim, RenderItem, Seqs.Flatten;
    var out := Render(AwsTemplates.Subnet(), p);
    var subnets := ItemBlocks(PublicCidrs(p), AwsTemplates.PublicSubnetBlock());
    var associations := ItemBlocks(PublicCidrs(p), AwsTemplates.RouteTableAssociationBlock());
    SubnetPublicBlocks(p);
    SubnetAssociationBlocks(p);
    JsStrings.FlattenContains(subnets, k);
    JsStrings.FlattenContains(associations, k);
    PublicSubnetBlockLines(cidr, k);
    AssociationBlockLines(cidr, k);
    JsStrings.ContainsTrans(out, Seqs.Flatten(subnets), subnets[k]);
    JsStrings.ContainsTrans(out, Seqs.Flatten(associations), associations[k]);
    JsStrings.ContainsTrans(out, subnets[k], "resource \"aws_subnet\" \"public_" + OrdinalText(k) + "\" {\n");
    JsStrings.ContainsTrans(out, subnets[k], "  cidr_block              = \"" + JsStrings.Trim(cidr) + "\"\n");
    JsStrings.ContainsTrans(out, associations[k], "  subnet_id      = aws_subnet.public_" + OrdinalText(k) + ".id\n");
  }

  /** For every private CIDR (position `k`, value `cidr`) the output declares
      `private_<k+1>` with that CIDR trimmed. */
  lemma SubnetPrivate(p: Params, k: nat, cidr: string)
    requires k < |PrivateCidrs(p)| && PrivateCidrs(p)[k] == cidr
    ensures JsStrings.Contains(Render(AwsTemplates.Subnet(), p),
              "resource \"aws_subnet\" \"private_" + OrdinalText(k) + "\" {\n")
    ensures JsStrings.Contains(Render(AwsTemplates.Subnet(), p),
              "  cidr_block        = \"" + JsStrings.Trim(cidr) + "\"\n")
  {
    hide Render, AwsTemplates.Subnet, AwsTemplates.PrivateSubnetBlock,
         JsStrings.Contains, OrdinalText, JsStrings.Trim, RenderItem, Seqs.Flatten;
    var out := Render(AwsTemplates.Subnet(), p);
    var subnets := ItemBlocks(PrivateCidrs(p), AwsTemplates.PrivateSubnetBlock());
    SubnetPrivateBlocks(p);
    JsStrings.FlattenContains(subnets, k);
    PrivateSubnetBlockLines(cidr, k);
    JsStrings.ContainsTrans(out, Seqs.Flatten(subnets), subnets[k]);
    JsStrings.ContainsTrans(out, subnets[k], "resource \"aws_subnet\" \"private_" + OrdinalText(k) + "\" {\n");
    JsStrings.ContainsTrans(out, subnets[k], "  cidr_block        = \"" + JsStrings.Trim(cidr) + "\"\n");
  }
}
