// The AWS module catalog: 33 modules, in declaration order.
// The records of src/data/modules.ts:3-401, one record function per module.
module AwsCatalog {
  import opened Wrappers
  import opened ModuleTypes

  const Count: nat := 33

  /** src/data/modules.ts:6 */
  function Vpc(): TerraformModule
  {
    TerraformModule("vpc", "VPC", "Virtual Private Cloud with customizable CIDR blocks", "networking", [
      ModuleParameter("vpc_cidr", StringParam, "CIDR block for VPC", true, Some("10.0.0.0/16"), None),
      ModuleParameter("enable_dns_hostnames", BooleanParam, "Enable DNS hostnames", false, Some("true"), None)])
  }

  /** src/data/modules.ts:16 */
  function Subnet(): TerraformModule
  {
    TerraformModule("subnet", "Subnets", "Public and private subnets across availability zones", "networking", [
      ModuleParameter("public_subnet_cidrs", ListParam, "CIDR blocks for public subnets", true, Some("10.0.1.0/24,10.0.2.0/24"), None),
      ModuleParameter("private_subnet_cidrs", ListParam, "CIDR blocks for private subnets", true, Some("10.0.10.0/24,10.0.20.0/24"), None)])
  }

  /** Allowed values of `ec2.instance_type`. */
  function Ec2InstanceTypeOptions(): seq<string>
  {
    ["t3.nano", "t3.micro", "t3.small", "t3.medium", "t3.large", "t3.xlarge", "t3.2xlarge", "t3a.nano"] +
    ["t3a.micro", "t3a.small", "t3a.medium", "t3a.large", "t3a.xlarge", "t3a.2xlarge", "t4g.nano", "t4g.micro"] +
    ["t4g.small", "t4g.medium", "t4g.large", "t4g.xlarge", "t4g.2xlarge", "m5.large", "m5.xlarge", "m5.2xlarge"] +
    ["m5.4xlarge", "m5.8xlarge", "m5.12xlarge", "m5.16xlarge", "m5.24xlarge", "m5a.large", "m5a.xlarge", "m5a.2xlarge"] +
    ["m5a.4xlarge", "m5a.8xlarge", "m5a.12xlarge", "m5a.16xlarge", "m5a.24xlarge", "m6i.large", "m6i.xlarge", "m6i.2xlarge"] +
    ["m6i.4xlarge", "m6i.8xlarge", "m6i.12xlarge", "m6i.16xlarge", "m6i.24xlarge", "m6i.32xlarge", "c5.large", "c5.xlarge"] +
    ["c5.2xlarge", "c5.4xlarge", "c5.9xlarge", "c5.12xlarge", "c5.18xlarge", "c5.24xlarge", "c5a.large", "c5a.xlarge"] +
    ["c5a.2xlarge", "c5a.4xlarge", "c5a.8xlarge", "c5a.12xlarge", "c5a.16xlarge", "c5a.24xlarge", "c6i.large", "c6i.xlarge"] +
    ["c6i.2xlarge", "c6i.4xlarge", "c6i.8xlarge", "c6i.12xlarge", "c6i.16xlarge", "c6i.24xlarge", "c6i.32xlarge", "r5.large"] +
    ["r5.xlarge", "r5.2xlarge", "r5.4xlarge", "r5.8xlarge", "r5.12xlarge", "r5.16xlarge", "r5.24xlarge", "r5a.large"] +
    ["r5a.xlarge", "r5a.2xlarge", "r5a.4xlarge", "r5a.8xlarge", "r5a.12xlarge", "r5a.16xlarge", "r5a.24xlarge", "r6i.large"] +
    ["r6i.xlarge", "r6i.2xlarge", "r6i.4xlarge", "r6i.8xlarge", "r6i.12xlarge", "r6i.16xlarge", "r6i.24xlarge", "r6i.32xlarge"] +
    ["i3.large", "i3.xlarge", "i3.2xlarge", "i3.4xlarge", "i3.8xlarge", "i3.16xlarge", "d3.xlarge", "d3.2xlarge"] +
    ["d3.4xlarge", "d3.8xlarge", "p3.2xlarge", "p3.8xlarge", "p3.16xlarge", "p3dn.24xlarge", "p4d.24xlarge", "g4dn.xlarge"] +
    ["g4dn.2xlarge", "g4dn.4xlarge", "g4dn.8xlarge", "g4dn.12xlarge", "g4dn.16xlarge"]
  }

  /** src/data/modules.ts:26 */
  function Ec2(): TerraformModule
  {
    TerraformModule("ec2", "EC2 Instances", "Elastic Compute Cloud instances", "compute", [
      ModuleParameter("instance_type", StringParam, "EC2 instance type", true, Some("t3.micro"), Some(Ec2InstanceTypeOptions())),
      ModuleParameter("instance_count", NumberParam, "Number of instances", true, Some("1"), None),
      ModuleParameter("ami_id", StringParam, "AMI ID for instances", false, Some("ami-0c02fb55956c7d316"), None),
      ModuleParameter("key_name", StringParam, "EC2 Key Pair name", false, None, None)])
  }

  /** src/data/modules.ts:67 */
  function S3(): TerraformModule
  {
    TerraformModule("s3", "S3 Bucket", "Simple Storage Service bucket", "storage", [
      ModuleParameter("bucket_name", StringParam, "S3 bucket name", true, None, None),
      ModuleParameter("versioning", BooleanParam, "Enable versioning", false, Some("false"), None)])
  }

  /** src/data/modules.ts:79 */
  function RouteTable(): TerraformModule
  {
    TerraformModule("route_table", "Route Table", "Route table for VPC routing configuration", "networking", [
      ModuleParameter("vpc_id", StringParam, "VPC ID for route table", true, None, None),
      ModuleParameter("public_route_table", BooleanParam, "Create public route table", false, Some("true"), None),
      ModuleParameter("private_route_table", BooleanParam, "Create private route table", false, Some("true"), None)])
  }

  /** src/data/modules.ts:90 */
  function InternetGateway(): TerraformModule
  {
    TerraformModule("internet_gateway", "Internet Gateway", "Internet gateway for VPC internet access", "networking", [
      ModuleParameter("vpc_id", StringParam, "VPC ID to attach gateway", true, None, None)])
  }

  /** src/data/modules.ts:99 */
  function NatGateway(): TerraformModule
  {
    TerraformModule("nat_gateway", "NAT Gateway", "NAT gateway for private subnet internet access", "networking", [
      ModuleParameter("subnet_id", StringParam, "Public subnet ID for NAT gateway", true, None, None),
      ModuleParameter("allocation_id", StringParam, "Elastic IP allocation ID", false, None, None)])
  }

  /** src/data/modules.ts:111 */
  function BatchJobQueue(): TerraformModule
  {
    TerraformModule("batch_job_queue", "Batch Job Queue", "AWS Batch job queue for processing batch workloads", "compute", [
      ModuleParameter("job_queue_name", StringParam, "Name of the batch job queue", true, Some("my-job-queue"), None),
      ModuleParameter("priority", NumberParam, "Priority of the job queue", true, Some("1"), None),
      ModuleParameter("state", StringParam, "State of the job queue", false, Some("ENABLED"), Some(["ENABLED", "DISABLED"]))])
  }

  /** src/data/modules.ts:122 */
  function BatchComputeEnvironment(): TerraformModule
  {
    TerraformModule("batch_compute_environment", "Batch Compute Environment", "Managed compute environment for AWS Batch", "compute", [
      ModuleParameter("compute_environment_name", StringParam, "Name of compute environment", true, Some("my-compute-env"), None),
      ModuleParameter("instance_types", ListParam, "Instance types for compute environment", true, Some("m5.large,m5.xlarge"), None),
      ModuleParameter("min_vcpus", NumberParam, "Minimum vCPUs", true, Some("0"), None),
      ModuleParameter("max_vcpus", NumberParam, "Maximum vCPUs", true, Some("100"), None)])
  }

  /** src/data/modules.ts:134 */
  function FargateTaskDefinition(): TerraformModule
  {
    TerraformModule("fargate_task_definition", "Fargate Task Definition", "Task definition for AWS Fargate serverless containers", "compute", [
      ModuleParameter("task_family", StringParam, "Task definition family name", true, Some("my-fargate-task"), None),
      ModuleParameter("cpu", StringParam, "CPU units (256, 512, 1024, etc.)", true, Some("256"), Some(["256", "512", "1024", "2048", "4096"])),
      ModuleParameter("memory", StringParam, "Memory in MB", true, Some("512"), Some(["512", "1024", "2048", "4096", "8192"])),
      ModuleParameter("container_image", StringParam, "Docker container image", true, Some("nginx:latest"), None)])
  }

  /** src/data/modules.ts:146 */
  function EcsCluster(): TerraformModule
  {
    TerraformModule("ecs_cluster", "ECS Cluster", "Elastic Container Service cluster for container orchestration", "compute", [
      ModuleParameter("cluster_name", StringParam, "Name of the ECS cluster", true, Some("my-ecs-cluster"), None),
      ModuleParameter("capacity_providers", ListParam, "Capacity providers for the cluster", false, Some("FARGATE,EC2"), None)])
  }

  /** src/data/modules.ts:156 */
  function EcsService(): TerraformModule
  {
    TerraformModule("ecs_service", "ECS Service", "Service to run and maintain containers in ECS cluster", "compute", [
      ModuleParameter("service_name", StringParam, "Name of the ECS service", true, Some("my-ecs-service"), None),
      ModuleParameter("desired_count", NumberParam, "Desired number of tasks", true, Some("2"), None),
      ModuleParameter("launch_type", StringParam, "Launch type for service", true, Some("FARGATE"), Some(["FARGATE", "EC2"]))])
  }

  /** src/data/modules.ts:169 */
  function VpnConnection(): TerraformModule
  {
    TerraformModule("vpn_connection", "VPN Connection", "Site-to-site VPN connection to AWS VPC", "networking", [
      ModuleParameter("customer_gateway_id", StringParam, "Customer gateway ID", true, None, None),
      ModuleParameter("vpn_gateway_id", StringParam, "VPN gateway ID", true, None, None),
      ModuleParameter("static_routes_only", BooleanParam, "Use static routes only", false, Some("false"), None)])
  }

  /** src/data/modules.ts:180 */
  function VpnGateway(): TerraformModule
  {
    TerraformModule("vpn_gateway", "VPN Gateway", "Virtual private gateway for VPN connections", "networking", [
      ModuleParameter("vpn_gateway_name", StringParam, "Name tag for VPN gateway", true, Some("main-vpn-gw"), None),
      ModuleParameter("amazon_side_asn", NumberParam, "ASN for Amazon side of BGP session", false, Some("64512"), None)])
  }

  /** src/data/modules.ts:190 */
  function CustomerGateway(): TerraformModule
  {
    TerraformModule("customer_gateway", "Customer Gateway", "Customer side of VPN connection", "networking", [
      ModuleParameter("bgp_asn", NumberParam, "BGP ASN of customer gateway", true, Some("65000"), None),
      ModuleParameter("ip_address", StringParam, "Public IP address of customer gateway", true, None, None),
      ModuleParameter("type", StringParam, "Type of VPN connection", true, Some("ipsec.1"), Some(["ipsec.1"]))])
  }

  /** src/data/modules.ts:201 */
  function Elb(): TerraformModule
  {
    TerraformModule("elb", "Classic Load Balancer", "Classic Elastic Load Balancer (ELB)", "networking", [
      ModuleParameter("load_balancer_name", StringParam, "Name of the load balancer", true, Some("my-classic-lb"), None),
      ModuleParameter("listener_port", NumberParam, "Port for load balancer listener", true, Some("80"), None),
      ModuleParameter("health_check_target", StringParam, "Health check target", true, Some("HTTP:80/"), None)])
  }

  /** src/data/modules.ts:212 */
  function Alb(): TerraformModule
  {
    TerraformModule("alb", "Application Load Balancer", "Application Load Balancer for HTTP/HTTPS traffic", "networking", [
      ModuleParameter("load_balancer_name", StringParam, "Name of the application load balancer", true, Some("my-app-lb"), None),
      ModuleParameter("load_balancer_type", StringParam, "Type of load balancer", true, Some("application"), Some(["application"])),
      ModuleParameter("scheme", StringParam, "Load balancer scheme", true, Some("internet-facing"), Some(["internet-facing", "internal"]))])
  }

  /** src/data/modules.ts:223 */
  function Nlb(): TerraformModule
  {
    TerraformModule("nlb", "Network Load Balancer", "Network Load Balancer for TCP/UDP traffic", "networking", [
      ModuleParameter("load_balancer_name", StringParam, "Name of the network load balancer", true, Some("my-net-lb"), None),
      ModuleParameter("load_balancer_type", StringParam, "Type of load balancer", true, Some("network"), Some(["network"])),
      ModuleParameter("scheme", StringParam, "Load balancer scheme", true, Some("internet-facing"), Some(["internet-facing", "internal"]))])
  }

  /** src/data/modules.ts:234 */
  function NetworkAcl(): TerraformModule
  {
    TerraformModule("network_acl", "Network ACL", "Network Access Control List for subnet-level security", "networking", [
      ModuleParameter("network_acl_name", StringParam, "Name tag for network ACL", true, Some("main-nacl"), None)])
  }

  /** src/data/modules.ts:245 */
  function GlacierVault(): TerraformModule
  {
    TerraformModule("glacier_vault", "Glacier Vault", "Amazon Glacier vault for long-term archival storage", "storage", [
      ModuleParameter("vault_name", StringParam, "Name of the Glacier vault", true, Some("my-glacier-vault"), None),
      ModuleParameter("notification_topic", StringParam, "SNS topic for notifications", false, None, None)])
  }

  /** src/data/modules.ts:255 */
  function S3AccessPoint(): TerraformModule
  {
    TerraformModule("s3_access_point", "S3 Access Point", "S3 access point for simplified bucket access management", "storage", [
      ModuleParameter("access_point_name", StringParam, "Name of the S3 access point", true, Some("my-access-point"), None),
      ModuleParameter("bucket_name", StringParam, "Name of the S3 bucket", true, None, None)])
  }

  /** src/data/modules.ts:267 */
  function RdsCluster(): TerraformModule
  {
    TerraformModule("rds_cluster", "RDS Aurora Cluster", "Amazon RDS Aurora database cluster", "database", [
      ModuleParameter("cluster_identifier", StringParam, "Cluster identifier", true, Some("my-aurora-cluster"), None),
      ModuleParameter("engine", StringParam, "Database engine", true, Some("aurora-mysql"), Some(["aurora-mysql", "aurora-postgresql"])),
      ModuleParameter("master_username", StringParam, "Master username", true, Some("admin"), None),
      ModuleParameter("database_name", StringParam, "Initial database name", false, Some("mydb"), None)])
  }

  /** src/data/modules.ts:279 */
  function RedshiftCluster(): TerraformModule
  {
    TerraformModule("redshift_cluster", "Redshift Cluster", "Amazon Redshift data warehouse cluster", "database", [
      ModuleParameter("cluster_identifier", StringParam, "Cluster identifier", true, Some("my-redshift-cluster"), None),
      ModuleParameter("node_type", StringParam, "Node type", true, Some("dc2.large"), Some(["dc2.large", "dc2.8xlarge", "ra3.xlplus", "ra3.4xlarge"])),
      ModuleParameter("number_of_nodes", NumberParam, "Number of nodes", true, Some("1"), None),
      ModuleParameter("master_username", StringParam, "Master username", true, Some("admin"), None)])
  }

  /** src/data/modules.ts:293 */
  function IamInstanceProfile(): TerraformModule
  {
    TerraformModule("iam_instance_profile", "IAM Instance Profile", "IAM instance profile for EC2 instances", "identity", [
      ModuleParameter("instance_profile_name", StringParam, "Name of instance profile", true, Some("my-instance-profile"), None),
      ModuleParameter("role_name", StringParam, "IAM role name to attach", true, None, None)])
  }

  /** src/data/modules.ts:303 */
  function IamPolicyAttachment(): TerraformModule
  {
    TerraformModule("iam_policy_attachment", "IAM Policy Attachment", "Attach IAM policy to user, group, or role", "identity", [
      ModuleParameter("attachment_name", StringParam, "Name of policy attachment", true, Some("my-policy-attachment"), None),
      ModuleParameter("policy_arn", StringParam, "ARN of the policy to attach", true, None, None),
      ModuleParameter("users", ListParam, "List of user names", false, None, None),
      ModuleParameter("roles", ListParam, "List of role names", false, None, None),
      ModuleParameter("groups", ListParam, "List of group names", false, None, None)])
  }

  /** src/data/modules.ts:316 */
  function OrganizationsAccount(): TerraformModule
  {
    TerraformModule("organizations_account", "Organizations Account", "AWS Organizations member account", "identity", [
      ModuleParameter("account_name", StringParam, "Name of the account", true, Some("member-account"), None),
      ModuleParameter("email", StringParam, "Email address for the account", true, None, None)])
  }

  /** src/data/modules.ts:326 */
  function OrganizationsOrganizationalUnit(): TerraformModule
  {
    TerraformModule("organizations_organizational_unit", "Organizational Unit", "AWS Organizations organizational unit", "identity", [
      ModuleParameter("ou_name", StringParam, "Name of organizational unit", true, Some("production-ou"), None),
      ModuleParameter("parent_id", StringParam, "Parent organizational unit ID", true, None, None)])
  }

  /** src/data/modules.ts:338 */
  function Cloudtrail(): TerraformModule
  {
    TerraformModule("cloudtrail", "CloudTrail", "AWS CloudTrail for API logging and monitoring", "monitoring", [
      ModuleParameter("trail_name", StringParam, "Name of CloudTrail", true, Some("my-cloudtrail"), None),
      ModuleParameter("s3_bucket_name", StringParam, "S3 bucket for CloudTrail logs", true, None, None),
      ModuleParameter("include_global_service_events", BooleanParam, "Include global service events", false, Some("true"), None)])
  }

  /** src/data/modules.ts:349 */
  function ConfigRule(): TerraformModule
  {
    TerraformModule("config_rule", "Config Rule", "AWS Config rule for compliance monitoring", "monitoring", [
      ModuleParameter("rule_name", StringParam, "Name of Config rule", true, Some("my-config-rule"), None),
      ModuleParameter("source_identifier", StringParam, "Source identifier for rule", true, Some("S3_BUCKET_PUBLIC_ACCESS_PROHIBITED"), None)])
  }

  /** src/data/modules.ts:359 */
  function SnsTopic(): TerraformModule
  {
    TerraformModule("sns_topic", "SNS Topic", "Simple Notification Service topic for messaging", "monitoring", [
      ModuleParameter("topic_name", StringParam, "Name of SNS topic", true, Some("my-sns-topic"), None),
      ModuleParameter("display_name", StringParam, "Display name for topic", false, None, None)])
  }

  /** src/data/modules.ts:369 */
  function SqsQueue(): TerraformModule
  {
    TerraformModule("sqs_queue", "SQS Queue", "Simple Queue Service for message queuing", "monitoring", [
      ModuleParameter("queue_name", StringParam, "Name of SQS queue", true, Some("my-sqs-queue"), None),
      ModuleParameter("visibility_timeout_seconds", NumberParam, "Visibility timeout in seconds", false, Some("30"), None),
      ModuleParameter("message_retention_seconds", NumberParam, "Message retention in seconds", false, Some("345600"), None)])
  }

  /** src/data/modules.ts:382 */
  function WafWebAcl(): TerraformModule
  {
    TerraformModule("waf_web_acl", "WAF Web ACL", "Web Application Firewall access control list", "security", [
      ModuleParameter("web_acl_name", StringParam, "Name of WAF Web ACL", true, Some("my-web-acl"), None),
      ModuleParameter("default_action", StringParam, "Default action for requests", true, Some("ALLOW"), Some(["ALLOW", "BLOCK"]))])
  }

  /** src/data/modules.ts:392 */
  function ShieldProtection(): TerraformModule
  {
    TerraformModule("shield_protection", "Shield Protection", "AWS Shield Advanced protection for resources", "security", [
      ModuleParameter("protection_name", StringParam, "Name of Shield protection", true, Some("my-shield-protection"), None),
      ModuleParameter("resource_arn", StringParam, "ARN of resource to protect", true, None, None)])
  }

  /** Entries 0 to 7 of the catalog. */
  function Part0(): seq<TerraformModule>
  {
    [Vpc(), Subnet(), Ec2(), S3(),
     RouteTable(), InternetGateway(), NatGateway(), BatchJobQueue()]
  }

  /** Entries 8 to 15 of the catalog. */
  function Part1(): seq<TerraformModule>
  {
    [BatchComputeEnvironment(), FargateTaskDefinition(), EcsCluster(), EcsService(),
     VpnConnection(), VpnGateway(), CustomerGateway(), Elb()]
  }

  /** Entries 16 to 23 of the catalog. */
  function Part2(): seq<TerraformModule>
  {
    [Alb(), Nlb(), NetworkAcl(), GlacierVault(),
     S3AccessPoint(), RdsCluster(), RedshiftCluster(), IamInstanceProfile()]
  }

  /** Entries 24 to 31 of the catalog. */
  function Part3(): seq<TerraformModule>
  {
    [IamPolicyAttachment(), OrganizationsAccount(), OrganizationsOrganizationalUnit(), Cloudtrail(),
     ConfigRule(), SnsTopic(), SqsQueue(), WafWebAcl()]
  }

  /** Entries 32 to 32 of the catalog. */
  function Part4(): seq<TerraformModule>
  {
    [ShieldProtection()]
  }

  /** The catalog, in declaration order. */
  function Modules(): seq<TerraformModule>
  {
    Part0() + Part1() + Part2() + Part3() + Part4()
  }

  /** Position of the module with id `id`, or -1 when the catalog has none. */
  function IdIndex(id: string): int
  {
    if |id| == 2 then (if id == "s3" then 3 else -1)
    else if |id| == 3 then (if id == "vpc" then 0 else if id == "ec2" then 2 else if id == "elb" then 15 else if id == "alb" then 16 else if id == "nlb" then 17 else -1)
    else if |id| == 6 then (if id == "subnet" then 1 else -1)
    else if |id| == 9 then (if id == "sns_topic" then 29 else if id == "sqs_queue" then 30 else -1)
    else if |id| == 10 then (if id == "cloudtrail" then 27 else -1)
    else if |id| == 11 then (if id == "route_table" then 4 else if id == "nat_gateway" then 6 else if id == "ecs_cluster" then 10 else if id == "ecs_service" then 11 else if id == "vpn_gateway" then 13 else if id == "network_acl" then 18 else if id == "rds_cluster" then 21 else if id == "config_rule" then 28 else if id == "waf_web_acl" then 31 else -1)
    else if |id| == 13 then (if id == "glacier_vault" then 19 else -1)
    else if |id| == 14 then (if id == "vpn_connection" then 12 else -1)
    else if |id| == 15 then (if id == "batch_job_queue" then 7 else if id == "s3_access_point" then 20 else -1)
    else if |id| == 16 then (if id == "internet_gateway" then 5 else if id == "customer_gateway" then 14 else if id == "redshift_cluster" then 22 else -1)
    else if |id| == 17 then (if id == "shield_protection" then 32 else -1)
    else if |id| == 20 then (if id == "iam_instance_profile" then 23 else -1)
    else if |id| == 21 then (if id == "iam_policy_attachment" then 24 else if id == "organizations_account" then 25 else -1)
    else if |id| == 23 then (if id == "fargate_task_definition" then 9 else -1)
    else if |id| == 25 then (if id == "batch_compute_environment" then 8 else -1)
    else if |id| == 33 then (if id == "organizations_organizational_unit" then 26 else -1)
    else -1
  }

  lemma Ec2InstanceTypeOptionsHasDefault()
    ensures "t3.micro" in Ec2InstanceTypeOptions()
  {
    assert Ec2InstanceTypeOptions()[1] == "t3.micro";
  }

  lemma VpcWellFormed()
    ensures WellFormedModule(Vpc())
  {}

  lemma VpcIndex()
    ensures Vpc().id == "vpc" && IdIndex("vpc") == 0
  {
  }

  lemma SubnetWellFormed()
    ensures WellFormedModule(Subnet())
  {}

  lemma SubnetIndex()
    ensures Subnet().id == "subnet" && IdIndex("subnet") == 1
  {
  }

  lemma Ec2WellFormed()
    ensures WellFormedModule(Ec2())
  {
    hide Ec2InstanceTypeOptions;
    Ec2InstanceTypeOptionsHasDefault();
  }

  lemma Ec2Index()
    ensures Ec2().id == "ec2" && IdIndex("ec2") == 2
  {
  }

  lemma S3WellFormed()
    ensures WellFormedModule(S3())
  {}

  lemma S3Index()
    ensures S3().id == "s3" && IdIndex("s3") == 3
  {
  }

  lemma RouteTableWellFormed()
    ensures WellFormedModule(RouteTable())
  {}

  lemma RouteTableIndex()
    ensures RouteTable().id == "route_table" && IdIndex("route_table") == 4
  {
  }

  lemma InternetGatewayWellFormed()
    ensures WellFormedModule(InternetGateway())
  {}

  lemma InternetGatewayIndex()
    ensures InternetGateway().id == "internet_gateway" && IdIndex("internet_gateway") == 5
  {
  }

  lemma NatGatewayWellFormed()
    ensures WellFormedModule(NatGateway())
  {}

  lemma NatGatewayIndex()
    ensures NatGateway().id == "nat_gateway" && IdIndex("nat_gateway") == 6
  {
  }

  lemma BatchJobQueueWellFormed()
    ensures WellFormedModule(BatchJobQueue())
  {}

  lemma BatchJobQueueIndex()
    ensures BatchJobQueue().id == "batch_job_queue" && IdIndex("batch_job_queue") == 7
  {
  }

  lemma BatchComputeEnvironmentWellFormed()
    ensures WellFormedModule(BatchComputeEnvironment())
  {}

  lemma BatchComputeEnvironmentIndex()
    ensures BatchComputeEnvironment().id == "batch_compute_environment" && IdIndex("batch_compute_environment") == 8
  {
  }

  lemma FargateTaskDefinitionWellFormed()
    ensures WellFormedModule(FargateTaskDefinition())
  {}

  lemma FargateTaskDefinitionIndex()
    ensures FargateTaskDefinition().id == "fargate_task_definition" && IdIndex("fargate_task_definition") == 9
  {
  }

  lemma EcsClusterWellFormed()
    ensures WellFormedModule(EcsCluster())
  {}

  lemma EcsClusterIndex()
    ensures EcsCluster().id == "ecs_cluster" && IdIndex("ecs_cluster") == 10
  {
  }

  lemma EcsServiceWellFormed()
    ensures WellFormedModule(EcsService())
  {}

  lemma EcsServiceIndex()
    ensures EcsService().id == "ecs_service" && IdIndex("ecs_service") == 11
  {
  }

  lemma VpnConnectionWellFormed()
    ensures WellFormedModule(VpnConnection())
  {}

  lemma VpnConnectionIndex()
    ensures VpnConnection().id == "vpn_connection" && IdIndex("vpn_connection") == 12
  {
  }

  lemma VpnGatewayWellFormed()
    ensures WellFormedModule(VpnGateway())
  {}

  lemma VpnGatewayIndex()
    ensures VpnGateway().id == "vpn_gateway" && IdIndex("vpn_gateway") == 13
  {
  }

  lemma CustomerGatewayWellFormed()
    ensures WellFormedModule(CustomerGateway())
  {}

  lemma CustomerGatewayIndex()
    ensures CustomerGateway().id == "customer_gateway" && IdIndex("customer_gateway") == 14
  {
  }

  lemma ElbWellFormed()
    ensures WellFormedModule(Elb())
  {}

  lemma ElbIndex()
    ensures Elb().id == "elb" && IdIndex("elb") == 15
  {
  }

  lemma AlbWellFormed()
    ensures WellFormedModule(Alb())
  {}

  lemma AlbIndex()
    ensures Alb().id == "alb" && IdIndex("alb") == 16
  {
  }

  lemma NlbWellFormed()
    ensures WellFormedModule(Nlb())
  {}

  lemma NlbIndex()
    ensures Nlb().id == "nlb" && IdIndex("nlb") == 17
  {
  }

  lemma NetworkAclWellFormed()
    ensures WellFormedModule(NetworkAcl())
  {}

  lemma NetworkAclIndex()
    ensures NetworkAcl().id == "network_acl" && IdIndex("network_acl") == 18
  {
  }

  lemma GlacierVaultWellFormed()
    ensures WellFormedModule(GlacierVault())
  {}

  lemma GlacierVaultIndex()
    ensures GlacierVault().id == "glacier_vault" && IdIndex("glacier_vault") == 19
  {
  }

  lemma S3AccessPointWellFormed()
    ensures WellFormedModule(S3AccessPoint())
  {}

  lemma S3AccessPointIndex()
    ensures S3AccessPoint().id == "s3_access_point" && IdIndex("s3_access_point") == 20
  {
  }

  lemma RdsClusterWellFormed()
    ensures WellFormedModule(RdsCluster())
  {}

  lemma RdsClusterIndex()
    ensures RdsCluster().id == "rds_cluster" && IdIndex("rds_cluster") == 21
  {
  }

  lemma RedshiftClusterWellFormed()
    ensures WellFormedModule(RedshiftCluster())
  {}

  lemma RedshiftClusterIndex()
    ensures RedshiftCluster().id == "redshift_cluster" && IdIndex("redshift_cluster") == 22
  {
  }

  lemma IamInstanceProfileWellFormed()
    ensures WellFormedModule(IamInstanceProfile())
  {}

  lemma IamInstanceProfileIndex()
    ensures IamInstanceProfile().id == "iam_instance_profile" && IdIndex("iam_instance_profile") == 23
  {
  }

  lemma IamPolicyAttachmentWellFormed()
    ensures WellFormedModule(IamPolicyAttachment())
  {}

  lemma IamPolicyAttachmentIndex()
    ensures IamPolicyAttachment().id == "iam_policy_attachment" && IdIndex("iam_policy_attachment") == 24
  {
  }

  lemma OrganizationsAccountWellFormed()
    ensures WellFormedModule(OrganizationsAccount())
  {}

  lemma OrganizationsAccountIndex()
    ensures OrganizationsAccount().id == "organizations_account" && IdIndex("organizations_account") == 25
  {
  }

  lemma OrganizationsOrganizationalUnitWellFormed()
    ensures WellFormedModule(OrganizationsOrganizationalUnit())
  {}

  lemma OrganizationsOrganizationalUnitIndex()
    ensures OrganizationsOrganizationalUnit().id == "organizations_organizational_unit" && IdIndex("organizations_organizational_unit") == 26
  {
  }

  lemma CloudtrailWellFormed()
    ensures WellFormedModule(Cloudtrail())
  {}

  lemma CloudtrailIndex()
    ensures Cloudtrail().id == "cloudtrail" && IdIndex("cloudtrail") == 27
  {
  }

  lemma ConfigRuleWellFormed()
    ensures WellFormedModule(ConfigRule())
  {}

  lemma ConfigRuleIndex()
    ensures ConfigRule().id == "config_rule" && IdIndex("config_rule") == 28
  {
  }

  lemma SnsTopicWellFormed()
    ensures WellFormedModule(SnsTopic())
  {}

  lemma SnsTopicIndex()
    ensures SnsTopic().id == "sns_topic" && IdIndex("sns_topic") == 29
  {
  }

  lemma SqsQueueWellFormed()
    ensures WellFormedModule(SqsQueue())
  {}

  lemma SqsQueueIndex()
    ensures SqsQueue().id == "sqs_queue" && IdIndex("sqs_queue") == 30
  {
  }

  lemma WafWebAclWellFormed()
    ensures WellFormedModule(WafWebAcl())
  {}

  lemma WafWebAclIndex()
    ensures WafWebAcl().id == "waf_web_acl" && IdIndex("waf_web_acl") == 31
  {
  }

  lemma ShieldProtectionWellFormed()
    ensures WellFormedModule(ShieldProtection())
  {}

  lemma ShieldProtectionIndex()
    ensures ShieldProtection().id == "shield_protection" && IdIndex("shield_protection") == 32
  {
  }

  lemma VpcListed()
    ensures Vpc() in Modules()
  {
    hide Vpc, Subnet, Ec2, Ec2InstanceTypeOptions, S3, RouteTable, InternetGateway, NatGateway, BatchJobQueue, BatchComputeEnvironment, FargateTaskDefinition, EcsCluster, EcsService, VpnConnection, VpnGateway, CustomerGateway, Elb, Alb, Nlb, NetworkAcl, GlacierVault, S3AccessPoint, RdsCluster, RedshiftCluster, IamInstanceProfile, IamPolicyAttachment, OrganizationsAccount, OrganizationsOrganizationalUnit, Cloudtrail, ConfigRule, SnsTopic, SqsQueue, WafWebAcl, ShieldProtection;
  }

  lemma SubnetListed()
    ensures Subnet() in Modules()
  {
    hide Vpc, Subnet, Ec2, Ec2InstanceTypeOptions, S3, RouteTable, InternetGateway, NatGateway, BatchJobQueue, BatchComputeEnvironment, FargateTaskDefinition, EcsCluster, EcsService, VpnConnection, VpnGateway, CustomerGateway, Elb, Alb, Nlb, NetworkAcl, GlacierVault, S3AccessPoint, RdsCluster, RedshiftCluster, IamInstanceProfile, IamPolicyAttachment, OrganizationsAccount, OrganizationsOrganizationalUnit, Cloudtrail, ConfigRule, SnsTopic, SqsQueue, WafWebAcl, ShieldProtection;
  }

  lemma Ec2Listed()
    ensures Ec2() in Modules()
  {
    hide Vpc, Subnet, Ec2, Ec2InstanceTypeOptions, S3, RouteTable, InternetGateway, NatGateway, BatchJobQueue, BatchComputeEnvironment, FargateTaskDefinition, EcsCluster, EcsService, VpnConnection, VpnGateway, CustomerGateway, Elb, Alb, Nlb, NetworkAcl, GlacierVault, S3AccessPoint, RdsCluster, RedshiftCluster, IamInstanceProfile, IamPolicyAttachment, OrganizationsAccount, OrganizationsOrganizationalUnit, Cloudtrail, ConfigRule, SnsTopic, SqsQueue, WafWebAcl, ShieldProtection;
  }

  lemma S3Listed()
    ensures S3() in Modules()
  {
    hide Vpc, Subnet, Ec2, Ec2InstanceTypeOptions, S3, RouteTable, InternetGateway, NatGateway, BatchJobQueue, BatchComputeEnvironment, FargateTaskDefinition, EcsCluster, EcsService, VpnConnection, VpnGateway, CustomerGateway, Elb, Alb, Nlb, NetworkAcl, GlacierVault, S3AccessPoint, RdsCluster, RedshiftCluster, IamInstanceProfile, IamPolicyAttachment, OrganizationsAccount, OrganizationsOrganizationalUnit, Cloudtrail, ConfigRule, SnsTopic, SqsQueue, WafWebAcl, ShieldProtection;
  }

  lemma RouteTableListed()
    ensures RouteTable() in Modules()
  {
    hide Vpc, Subnet, Ec2, Ec2InstanceTypeOptions, S3, RouteTable, InternetGateway, NatGateway, BatchJobQueue, BatchComputeEnvironment, FargateTaskDefinition, EcsCluster, EcsService, VpnConnection, VpnGateway, CustomerGateway, Elb, Alb, Nlb, NetworkAcl, GlacierVault, S3AccessPoint, RdsCluster, RedshiftCluster, IamInstanceProfile, IamPolicyAttachment, OrganizationsAccount, OrganizationsOrganizationalUnit, Cloudtrail, ConfigRule, SnsTopic, SqsQueue, WafWebAcl, ShieldProtection;
  }

  lemma InternetGatewayListed()
    ensures InternetGateway() in Modules()
  {
    hide Vpc, Subnet, Ec2, Ec2InstanceTypeOptions, S3, RouteTable, InternetGateway, NatGateway, BatchJobQueue, BatchComputeEnvironment, FargateTaskDefinition, EcsCluster, EcsService, VpnConnection, VpnGateway, CustomerGateway, Elb, Alb, Nlb, NetworkAcl, GlacierVault, S3AccessPoint, RdsCluster, RedshiftCluster, IamInstanceProfile, IamPolicyAttachment, OrganizationsAccount, OrganizationsOrganizationalUnit, Cloudtrail, ConfigRule, SnsTopic, SqsQueue, WafWebAcl, ShieldProtection;
  }

  lemma NatGatewayListed()
    ensures NatGateway() in Modules()
  {
    hide Vpc, Subnet, Ec2, Ec2InstanceTypeOptions, S3, RouteTable, InternetGateway, NatGateway, BatchJobQueue, BatchComputeEnvironment, FargateTaskDefinition, EcsCluster, EcsService, VpnConnection, VpnGateway, CustomerGateway, Elb, Alb, Nlb, NetworkAcl, GlacierVault, S3AccessPoint, RdsCluster, RedshiftCluster, IamInstanceProfile, IamPolicyAttachment, OrganizationsAccount, OrganizationsOrganizationalUnit, Cloudtrail, ConfigRule, SnsTopic, SqsQueue, WafWebAcl, ShieldProtection;
  }

  lemma BatchJobQueueListed()
    ensures BatchJobQueue() in Modules()
  {
    hide Vpc, Subnet, Ec2, Ec2InstanceTypeOptions, S3, RouteTable, InternetGateway, NatGateway, BatchJobQueue, BatchComputeEnvironment, FargateTaskDefinition, EcsCluster, EcsService, VpnConnection, VpnGateway, CustomerGateway, Elb, Alb, Nlb, NetworkAcl, GlacierVault, S3AccessPoint, RdsCluster, RedshiftCluster, IamInstanceProfile, IamPolicyAttachment, OrganizationsAccount, OrganizationsOrganizationalUnit, Cloudtrail, ConfigRule, SnsTopic, SqsQueue, WafWebAcl, ShieldProtection;
  }

  lemma BatchComputeEnvironmentListed()
    ensures BatchComputeEnvironment() in Modules()
  {
    hide Vpc, Subnet, Ec2, Ec2InstanceTypeOptions, S3, RouteTable, InternetGateway, NatGateway, BatchJobQueue, BatchComputeEnvironment, FargateTaskDefinition, EcsCluster, EcsService, VpnConnection, VpnGateway, CustomerGateway, Elb, Alb, Nlb, NetworkAcl, GlacierVault, S3AccessPoint, RdsCluster, RedshiftCluster, IamInstanceProfile, IamPolicyAttachment, OrganizationsAccount, OrganizationsOrganizationalUnit, Cloudtrail, ConfigRule, SnsTopic, SqsQueue, WafWebAcl, ShieldProtection;
  }

  lemma FargateTaskDefinitionListed()
    ensures FargateTaskDefinition() in Modules()
  {
    hide Vpc, Subnet, Ec2, Ec2InstanceTypeOptions, S3, RouteTable, InternetGateway, NatGateway, BatchJobQueue, BatchComputeEnvironment, FargateTaskDefinition, EcsCluster, EcsService, VpnConnection, VpnGateway, CustomerGateway, Elb, Alb, Nlb, NetworkAcl, GlacierVault, S3AccessPoint, RdsCluster, RedshiftCluster, IamInstanceProfile, IamPolicyAttachment, OrganizationsAccount, OrganizationsOrganizationalUnit, Cloudtrail, ConfigRule, SnsTopic, SqsQueue, WafWebAcl, ShieldProtection;
  }

  lemma EcsClusterListed()
    ensures EcsCluster() in Modules()
  {
    hide Vpc, Subnet, Ec2, Ec2InstanceTypeOptions, S3, RouteTable, InternetGateway, NatGateway, BatchJobQueue, BatchComputeEnvironment, FargateTaskDefinition, EcsCluster, EcsService, VpnConnection, VpnGateway, CustomerGateway, Elb, Alb, Nlb, NetworkAcl, GlacierVault, S3AccessPoint, RdsCluster, RedshiftCluster, IamInstanceProfile, IamPolicyAttachment, OrganizationsAccount, OrganizationsOrganizationalUnit, Cloudtrail, ConfigRule, SnsTopic, SqsQueue, WafWebAcl, ShieldProtection;
  }

  lemma EcsServiceListed()
    ensures EcsService() in Modules()
  {
    hide Vpc, Subnet, Ec2, Ec2InstanceTypeOptions, S3, RouteTable, InternetGateway, NatGateway, BatchJobQueue, BatchComputeEnvironment, FargateTaskDefinition, EcsCluster, EcsService, VpnConnection, VpnGateway, CustomerGateway, Elb, Alb, Nlb, NetworkAcl, GlacierVault, S3AccessPoint, RdsCluster, RedshiftCluster, IamInstanceProfile, IamPolicyAttachment, OrganizationsAccount, OrganizationsOrganizationalUnit, Cloudtrail, ConfigRule, SnsTopic, SqsQueue, WafWebAcl, ShieldProtection;
  }

  lemma VpnConnectionListed()
    ensures VpnConnection() in Modules()
  {
    hide Vpc, Subnet, Ec2, Ec2InstanceTypeOptions, S3, RouteTable, InternetGateway, NatGateway, BatchJobQueue, BatchComputeEnvironment, FargateTaskDefinition, EcsCluster, EcsService, VpnConnection, VpnGateway, CustomerGateway, Elb, Alb, Nlb, NetworkAcl, GlacierVault, S3AccessPoint, RdsCluster, RedshiftCluster, IamInstanceProfile, IamPolicyAttachment, OrganizationsAccount, OrganizationsOrganizationalUnit, Cloudtrail, ConfigRule, SnsTopic, SqsQueue, WafWebAcl, ShieldProtection;
  }

  lemma VpnGatewayListed()
    ensures VpnGateway() in Modules()
  {
    hide Vpc, Subnet, Ec2, Ec2InstanceTypeOptions, S3, RouteTable, InternetGateway, NatGateway, BatchJobQueue, BatchComputeEnvironment, FargateTaskDefinition, EcsCluster, EcsService, VpnConnection, VpnGateway, CustomerGateway, Elb, Alb, Nlb, NetworkAcl, GlacierVault, S3AccessPoint, RdsCluster, RedshiftCluster, IamInstanceProfile, IamPolicyAttachment, OrganizationsAccount, OrganizationsOrganizationalUnit, Cloudtrail, ConfigRule, SnsTopic, SqsQueue, WafWebAcl, ShieldProtection;
  }

  lemma CustomerGatewayListed()
    ensures CustomerGateway() in Modules()
  {
    hide Vpc, Subnet, Ec2, Ec2InstanceTypeOptions, S3, RouteTable, InternetGateway, NatGateway, BatchJobQueue, BatchComputeEnvironment, FargateTaskDefinition, EcsCluster, EcsService, VpnConnection, VpnGateway, CustomerGateway, Elb, Alb, Nlb, NetworkAcl, GlacierVault, S3AccessPoint, RdsCluster, RedshiftCluster, IamInstanceProfile, IamPolicyAttachment, OrganizationsAccount, OrganizationsOrganizationalUnit, Cloudtrail, ConfigRule, SnsTopic, SqsQueue, WafWebAcl, ShieldProtection;
  }

  lemma ElbListed()
    ensures Elb() in Modules()
  {
    hide Vpc, Subnet, Ec2, Ec2InstanceTypeOptions, S3, RouteTable, InternetGateway, NatGateway, BatchJobQueue, BatchComputeEnvironment, FargateTaskDefinition, EcsCluster, EcsService, VpnConnection, VpnGateway, CustomerGateway, Elb, Alb, Nlb, NetworkAcl, GlacierVault, S3AccessPoint, RdsCluster, RedshiftCluster, IamInstanceProfile, IamPolicyAttachment, OrganizationsAccount, OrganizationsOrganizationalUnit, Cloudtrail, ConfigRule, SnsTopic, SqsQueue, WafWebAcl, ShieldProtection;
  }

  lemma AlbListed()
    ensures Alb() in Modules()
  {
    hide Vpc, Subnet, Ec2, Ec2InstanceTypeOptions, S3, RouteTable, InternetGateway, NatGateway, BatchJobQueue, BatchComputeEnvironment, FargateTaskDefinition, EcsCluster, EcsService, VpnConnection, VpnGateway, CustomerGateway, Elb, Alb, Nlb, NetworkAcl, GlacierVault, S3AccessPoint, RdsCluster, RedshiftCluster, IamInstanceProfile, IamPolicyAttachment, OrganizationsAccount, OrganizationsOrganizationalUnit, Cloudtrail, ConfigRule, SnsTopic, SqsQueue, WafWebAcl, ShieldProtection;
  }

  lemma NlbListed()
    ensures Nlb() in Modules()
  {
    hide Vpc, Subnet, Ec2, Ec2InstanceTypeOptions, S3, RouteTable, InternetGateway, NatGateway, BatchJobQueue, BatchComputeEnvironment, FargateTaskDefinition, EcsCluster, EcsService, VpnConnection, VpnGateway, CustomerGateway, Elb, Alb, Nlb, NetworkAcl, GlacierVault, S3AccessPoint, RdsCluster, RedshiftCluster, IamInstanceProfile, IamPolicyAttachment, OrganizationsAccount, OrganizationsOrganizationalUnit, Cloudtrail, ConfigRule, SnsTopic, SqsQueue, WafWebAcl, ShieldProtection;
  }

  lemma NetworkAclListed()
    ensures NetworkAcl() in Modules()
  {
    hide Vpc, Subnet, Ec2, Ec2InstanceTypeOptions, S3, RouteTable, InternetGateway, NatGateway, BatchJobQueue, BatchComputeEnvironment, FargateTaskDefinition, EcsCluster, EcsService, VpnConnection, VpnGateway, CustomerGateway, Elb, Alb, Nlb, NetworkAcl, GlacierVault, S3AccessPoint, RdsCluster, RedshiftCluster, IamInstanceProfile, IamPolicyAttachment, OrganizationsAccount, OrganizationsOrganizationalUnit, Cloudtrail, ConfigRule, SnsTopic, SqsQueue, WafWebAcl, ShieldProtection;
  }

  lemma GlacierVaultListed()
    ensures GlacierVault() in Modules()
  {
    hide Vpc, Subnet, Ec2, Ec2InstanceTypeOptions, S3, RouteTable, InternetGateway, NatGateway, BatchJobQueue, BatchComputeEnvironment, FargateTaskDefinition, EcsCluster, EcsService, VpnConnection, VpnGateway, CustomerGateway, Elb, Alb, Nlb, NetworkAcl, GlacierVault, S3AccessPoint, RdsCluster, RedshiftCluster, IamInstanceProfile, IamPolicyAttachment, OrganizationsAccount, OrganizationsOrganizationalUnit, Cloudtrail, ConfigRule, SnsTopic, SqsQueue, WafWebAcl, ShieldProtection;
  }

  lemma S3AccessPointListed()
    ensures S3AccessPoint() in Modules()
  {
    hide Vpc, Subnet, Ec2, Ec2InstanceTypeOptions, S3, RouteTable, InternetGateway, NatGateway, BatchJobQueue, BatchComputeEnvironment, FargateTaskDefinition, EcsCluster, EcsService, VpnConnection, VpnGateway, CustomerGateway, Elb, Alb, Nlb, NetworkAcl, GlacierVault, S3AccessPoint, RdsCluster, RedshiftCluster, IamInstanceProfile, IamPolicyAttachment, OrganizationsAccount, OrganizationsOrganizationalUnit, Cloudtrail, ConfigRule, SnsTopic, SqsQueue, WafWebAcl, ShieldProtection;
  }

  lemma RdsClusterListed()
    ensures RdsCluster() in Modules()
  {
    hide Vpc, Subnet, Ec2, Ec2InstanceTypeOptions, S3, RouteTable, InternetGateway, NatGateway, BatchJobQueue, BatchComputeEnvironment, FargateTaskDefinition, EcsCluster, EcsService, VpnConnection, VpnGateway, CustomerGateway, Elb, Alb, Nlb, NetworkAcl, GlacierVault, S3AccessPoint, RdsCluster, RedshiftCluster, IamInstanceProfile, IamPolicyAttachment, OrganizationsAccount, OrganizationsOrganizationalUnit, Cloudtrail, ConfigRule, SnsTopic, SqsQueue, WafWebAcl, ShieldProtection;
  }

  lemma RedshiftClusterListed()
    ensures RedshiftCluster() in Modules()
  {
    hide Vpc, Subnet, Ec2, Ec2InstanceTypeOptions, S3, RouteTable, InternetGateway, NatGateway, BatchJobQueue, BatchComputeEnvironment, FargateTaskDefinition, EcsCluster, EcsService, VpnConnection, VpnGateway, CustomerGateway, Elb, Alb, Nlb, NetworkAcl, GlacierVault, S3AccessPoint, RdsCluster, RedshiftCluster, IamInstanceProfile, IamPolicyAttachment, OrganizationsAccount, OrganizationsOrganizationalUnit, Cloudtrail, ConfigRule, SnsTopic, SqsQueue, WafWebAcl, ShieldProtection;
  }

  lemma IamInstanceProfileListed()
    ensures IamInstanceProfile() in Modules()
  {
    hide Vpc, Subnet, Ec2, Ec2InstanceTypeOptions, S3, RouteTable, InternetGateway, NatGateway, BatchJobQueue, BatchComputeEnvironment, FargateTaskDefinition, EcsCluster, EcsService, VpnConnection, VpnGateway, CustomerGateway, Elb, Alb, Nlb, NetworkAcl, GlacierVault, S3AccessPoint, RdsCluster, RedshiftCluster, IamInstanceProfile, IamPolicyAttachment, OrganizationsAccount, OrganizationsOrganizationalUnit, Cloudtrail, ConfigRule, SnsTopic, SqsQueue, WafWebAcl, ShieldProtection;
  }

  lemma IamPolicyAttachmentListed()
    ensures IamPolicyAttachment() in Modules()
  {
    hide Vpc, Subnet, Ec2, Ec2InstanceTypeOptions, S3, RouteTable, InternetGateway, NatGateway, BatchJobQueue, BatchComputeEnvironment, FargateTaskDefinition, EcsCluster, EcsService, VpnConnection, VpnGateway, CustomerGateway, Elb, Alb, Nlb, NetworkAcl, GlacierVault, S3AccessPoint, RdsCluster, RedshiftCluster, IamInstanceProfile, IamPolicyAttachment, OrganizationsAccount, OrganizationsOrganizationalUnit, Cloudtrail, ConfigRule, SnsTopic, SqsQueue, WafWebAcl, ShieldProtection;
  }

  lemma OrganizationsAccountListed()
    ensures OrganizationsAccount() in Modules()
  {
    hide Vpc, Subnet, Ec2, Ec2InstanceTypeOptions, S3, RouteTable, InternetGateway, NatGateway, BatchJobQueue, BatchComputeEnvironment, FargateTaskDefinition, EcsCluster, EcsService, VpnConnection, VpnGateway, CustomerGateway, Elb, Alb, Nlb, NetworkAcl, GlacierVault, S3AccessPoint, RdsCluster, RedshiftCluster, IamInstanceProfile, IamPolicyAttachment, OrganizationsAccount, OrganizationsOrganizationalUnit, Cloudtrail, ConfigRule, SnsTopic, SqsQueue, WafWebAcl, ShieldProtection;
  }

  lemma OrganizationsOrganizationalUnitListed()
    ensures OrganizationsOrganizationalUnit() in Modules()
  {
    hide Vpc, Subnet, Ec2, Ec2InstanceTypeOptions, S3, RouteTable, InternetGateway, NatGateway, BatchJobQueue, BatchComputeEnvironment, FargateTaskDefinition, EcsCluster, EcsService, VpnConnection, VpnGateway, CustomerGateway, Elb, Alb, Nlb, NetworkAcl, GlacierVault, S3AccessPoint, RdsCluster, RedshiftCluster, IamInstanceProfile, IamPolicyAttachment, OrganizationsAccount, OrganizationsOrganizationalUnit, Cloudtrail, ConfigRule, SnsTopic, SqsQueue, WafWebAcl, ShieldProtection;
  }

  lemma CloudtrailListed()
    ensures Cloudtrail() in Modules()
  {
    hide Vpc, Subnet, Ec2, Ec2InstanceTypeOptions, S3, RouteTable, InternetGateway, NatGateway, BatchJobQueue, BatchComputeEnvironment, FargateTaskDefinition, EcsCluster, EcsService, VpnConnection, VpnGateway, CustomerGateway, Elb, Alb, Nlb, NetworkAcl, GlacierVault, S3AccessPoint, RdsCluster, RedshiftCluster, IamInstanceProfile, IamPolicyAttachment, OrganizationsAccount, OrganizationsOrganizationalUnit, Cloudtrail, ConfigRule, SnsTopic, SqsQueue, WafWebAcl, ShieldProtection;
  }

  lemma ConfigRuleListed()
    ensures ConfigRule() in Modules()
  {
    hide Vpc, Subnet, Ec2, Ec2InstanceTypeOptions, S3, RouteTable, InternetGateway, NatGateway, BatchJobQueue, BatchComputeEnvironment, FargateTaskDefinition, EcsCluster, EcsService, VpnConnection, VpnGateway, CustomerGateway, Elb, Alb, Nlb, NetworkAcl, GlacierVault, S3AccessPoint, RdsCluster, RedshiftCluster, IamInstanceProfile, IamPolicyAttachment, OrganizationsAccount, OrganizationsOrganizationalUnit, Cloudtrail, ConfigRule, SnsTopic, SqsQueue, WafWebAcl, ShieldProtection;
  }

  lemma SnsTopicListed()
    ensures SnsTopic() in Modules()
  {
    hide Vpc, Subnet, Ec2, Ec2InstanceTypeOptions, S3, RouteTable, InternetGateway, NatGateway, BatchJobQueue, BatchComputeEnvironment, FargateTaskDefinition, EcsCluster, EcsService, VpnConnection, VpnGateway, CustomerGateway, Elb, Alb, Nlb, NetworkAcl, GlacierVault, S3AccessPoint, RdsCluster, RedshiftCluster, IamInstanceProfile, IamPolicyAttachment, OrganizationsAccount, OrganizationsOrganizationalUnit, Cloudtrail, ConfigRule, SnsTopic, SqsQueue, WafWebAcl, ShieldProtection;
  }

  lemma SqsQueueListed()
    ensures SqsQueue() in Modules()
  {
    hide Vpc, Subnet, Ec2, Ec2InstanceTypeOptions, S3, RouteTable, InternetGateway, NatGateway, BatchJobQueue, BatchComputeEnvironment, FargateTaskDefinition, EcsCluster, EcsService, VpnConnection, VpnGateway, CustomerGateway, Elb, Alb, Nlb, NetworkAcl, GlacierVault, S3AccessPoint, RdsCluster, RedshiftCluster, IamInstanceProfile, IamPolicyAttachment, OrganizationsAccount, OrganizationsOrganizationalUnit, Cloudtrail, ConfigRule, SnsTopic, SqsQueue, WafWebAcl, ShieldProtection;
  }

  lemma WafWebAclListed()
    ensures WafWebAcl() in Modules()
  {
    hide Vpc, Subnet, Ec2, Ec2InstanceTypeOptions, S3, RouteTable, InternetGateway, NatGateway, BatchJobQueue, BatchComputeEnvironment, FargateTaskDefinition, EcsCluster, EcsService, VpnConnection, VpnGateway, CustomerGateway, Elb, Alb, Nlb, NetworkAcl, GlacierVault, S3AccessPoint, RdsCluster, RedshiftCluster, IamInstanceProfile, IamPolicyAttachment, OrganizationsAccount, OrganizationsOrganizationalUnit, Cloudtrail, ConfigRule, SnsTopic, SqsQueue, WafWebAcl, ShieldProtection;
  }

  lemma ShieldProtectionListed()
    ensures ShieldProtection() in Modules()
  {
    hide Vpc, Subnet, Ec2, Ec2InstanceTypeOptions, S3, RouteTable, InternetGateway, NatGateway, BatchJobQueue, BatchComputeEnvironment, FargateTaskDefinition, EcsCluster, EcsService, VpnConnection, VpnGateway, CustomerGateway, Elb, Alb, Nlb, NetworkAcl, GlacierVault, S3AccessPoint, RdsCluster, RedshiftCluster, IamInstanceProfile, IamPolicyAttachment, OrganizationsAccount, OrganizationsOrganizationalUnit, Cloudtrail, ConfigRule, SnsTopic, SqsQueue, WafWebAcl, ShieldProtection;
  }

  lemma Part0WellFormed()
    ensures forall m :: m in Part0() ==> WellFormedModule(m)
  {
    hide Vpc, Subnet, Ec2, Ec2InstanceTypeOptions, S3, RouteTable, InternetGateway, NatGateway, BatchJobQueue, BatchComputeEnvironment, FargateTaskDefinition, EcsCluster, EcsService, VpnConnection, VpnGateway, CustomerGateway, Elb, Alb, Nlb, NetworkAcl, GlacierVault, S3AccessPoint, RdsCluster, RedshiftCluster, IamInstanceProfile, IamPolicyAttachment, OrganizationsAccount, OrganizationsOrganizationalUnit, Cloudtrail, ConfigRule, SnsTopic, SqsQueue, WafWebAcl, ShieldProtection;
    VpcWellFormed();
    SubnetWellFormed();
    Ec2WellFormed();
    S3WellFormed();
    RouteTableWellFormed();
    InternetGatewayWellFormed();
    NatGatewayWellFormed();
    BatchJobQueueWellFormed();
  }

  lemma Part0Index()
    ensures |Part0()| == 8
    ensures forall j :: 0 <= j < |Part0()| ==> IdIndex(Part0()[j].id) == 0 + j
  {
    hide Vpc, Subnet, Ec2, Ec2InstanceTypeOptions, S3, RouteTable, InternetGateway, NatGateway, BatchJobQueue, BatchComputeEnvironment, FargateTaskDefinition, EcsCluster, EcsService, VpnConnection, VpnGateway, CustomerGateway, Elb, Alb, Nlb, NetworkAcl, GlacierVault, S3AccessPoint, RdsCluster, RedshiftCluster, IamInstanceProfile, IamPolicyAttachment, OrganizationsAccount, OrganizationsOrganizationalUnit, Cloudtrail, ConfigRule, SnsTopic, SqsQueue, WafWebAcl, ShieldProtection, IdIndex;
    VpcIndex();
    SubnetIndex();
    Ec2Index();
    S3Index();
    RouteTableIndex();
    InternetGatewayIndex();
    NatGatewayIndex();
    BatchJobQueueIndex();
  }

  lemma Part1WellFormed()
    ensures forall m :: m in Part1() ==> WellFormedModule(m)
  {
    hide Vpc, Subnet, Ec2, Ec2InstanceTypeOptions, S3, RouteTable, InternetGateway, NatGateway, BatchJobQueue, BatchComputeEnvironment, FargateTaskDefinition, EcsCluster, EcsService, VpnConnection, VpnGateway, CustomerGateway, Elb, Alb, Nlb, NetworkAcl, GlacierVault, S3AccessPoint, RdsCluster, RedshiftCluster, IamInstanceProfile, IamPolicyAttachment, OrganizationsAccount, OrganizationsOrganizationalUnit, Cloudtrail, ConfigRule, SnsTopic, SqsQueue, WafWebAcl, ShieldProtection;
    BatchComputeEnvironmentWellFormed();
    FargateTaskDefinitionWellFormed();
    EcsClusterWellFormed();
    EcsServiceWellFormed();
    VpnConnectionWellFormed();
    VpnGatewayWellFormed();
    CustomerGatewayWellFormed();
    ElbWellFormed();
  }

  lemma Part1Index()
    ensures |Part1()| == 8
    ensures forall j :: 0 <= j < |Part1()| ==> IdIndex(Part1()[j].id) == 8 + j
  {
    hide Vpc, Subnet, Ec2, Ec2InstanceTypeOptions, S3, RouteTable, InternetGateway, NatGateway, BatchJobQueue, BatchComputeEnvironment, FargateTaskDefinition, EcsCluster, EcsService, VpnConnection, VpnGateway, CustomerGateway, Elb, Alb, Nlb, NetworkAcl, GlacierVault, S3AccessPoint, RdsCluster, RedshiftCluster, IamInstanceProfile, IamPolicyAttachment, OrganizationsAccount, OrganizationsOrganizationalUnit, Cloudtrail, ConfigRule, SnsTopic, SqsQueue, WafWebAcl, ShieldProtection, IdIndex;
    BatchComputeEnvironmentIndex();
    FargateTaskDefinitionIndex();
    EcsClusterIndex();
    EcsServiceIndex();
    VpnConnectionIndex();
    VpnGatewayIndex();
    CustomerGatewayIndex();
    ElbIndex();
  }

  lemma Part2WellFormed()
    ensures forall m :: m in Part2() ==> WellFormedModule(m)
  {
    hide Vpc, Subnet, Ec2, Ec2InstanceTypeOptions, S3, RouteTable, InternetGateway, NatGateway, BatchJobQueue, BatchComputeEnvironment, FargateTaskDefinition, EcsCluster, EcsService, VpnConnection, VpnGateway, CustomerGateway, Elb, Alb, Nlb, NetworkAcl, GlacierVault, S3AccessPoint, RdsCluster, RedshiftCluster, IamInstanceProfile, IamPolicyAttachment, OrganizationsAccount, OrganizationsOrganizationalUnit, Cloudtrail, ConfigRule, SnsTopic, SqsQueue, WafWebAcl, ShieldProtection;
    AlbWellFormed();
    NlbWellFormed();
    NetworkAclWellFormed();
    GlacierVaultWellFormed();
    S3AccessPointWellFormed();
    RdsClusterWellFormed();
    RedshiftClusterWellFormed();
    IamInstanceProfileWellFormed();
  }

  lemma Part2Index()
    ensures |Part2()| == 8
    ensures forall j :: 0 <= j < |Part2()| ==> IdIndex(Part2()[j].id) == 16 + j
  {
    hide Vpc, Subnet, Ec2, Ec2InstanceTypeOptions, S3, RouteTable, InternetGateway, NatGateway, BatchJobQueue, BatchComputeEnvironment, FargateTaskDefinition, EcsCluster, EcsService, VpnConnection, VpnGateway, CustomerGateway, Elb, Alb, Nlb, NetworkAcl, GlacierVault, S3AccessPoint, RdsCluster, RedshiftCluster, IamInstanceProfile, IamPolicyAttachment, OrganizationsAccount, OrganizationsOrganizationalUnit, Cloudtrail, ConfigRule, SnsTopic, SqsQueue, WafWebAcl, ShieldProtection, IdIndex;
    AlbIndex();
    NlbIndex();
    NetworkAclIndex();
    GlacierVaultIndex();
    S3AccessPointIndex();
    RdsClusterIndex();
    RedshiftClusterIndex();
    IamInstanceProfileIndex();
  }

  lemma Part3WellFormed()
    ensures forall m :: m in Part3() ==> WellFormedModule(m)
  {
    hide Vpc, Subnet, Ec2, Ec2InstanceTypeOptions, S3, RouteTable, InternetGateway, NatGateway, BatchJobQueue, BatchComputeEnvironment, FargateTaskDefinition, EcsCluster, EcsService, VpnConnection, VpnGateway, CustomerGateway, Elb, Alb, Nlb, NetworkAcl, GlacierVault, S3AccessPoint, RdsCluster, RedshiftCluster, IamInstanceProfile, IamPolicyAttachment, OrganizationsAccount, OrganizationsOrganizationalUnit, Cloudtrail, ConfigRule, SnsTopic, SqsQueue, WafWebAcl, ShieldProtection;
    IamPolicyAttachmentWellFormed();
    OrganizationsAccountWellFormed();
    OrganizationsOrganizationalUnitWellFormed();
    CloudtrailWellFormed();
    ConfigRuleWellFormed();
    SnsTopicWellFormed();
    SqsQueueWellFormed();
    WafWebAclWellFormed();
  }

  lemma Part3Index()
    ensures |Part3()| == 8
    ensures forall j :: 0 <= j < |Part3()| ==> IdIndex(Part3()[j].id) == 24 + j
  {
    hide Vpc, Subnet, Ec2, Ec2InstanceTypeOptions, S3, RouteTable, InternetGateway, NatGateway, BatchJobQueue, BatchComputeEnvironment, FargateTaskDefinition, EcsCluster, EcsService, VpnConnection, VpnGateway, CustomerGateway, Elb, Alb, Nlb, NetworkAcl, GlacierVault, S3AccessPoint, RdsCluster, RedshiftCluster, IamInstanceProfile, IamPolicyAttachment, OrganizationsAccount, OrganizationsOrganizationalUnit, Cloudtrail, ConfigRule, SnsTopic, SqsQueue, WafWebAcl, ShieldProtection, IdIndex;
    IamPolicyAttachmentIndex();
    OrganizationsAccountIndex();
    OrganizationsOrganizationalUnitIndex();
    CloudtrailIndex();
    ConfigRuleIndex();
    SnsTopicIndex();
    SqsQueueIndex();
    WafWebAclIndex();
  }

  lemma Part4WellFormed()
    ensures forall m :: m in Part4() ==> WellFormedModule(m)
  {
    hide Vpc, Subnet, Ec2, Ec2InstanceTypeOptions, S3, RouteTable, InternetGateway, NatGateway, BatchJobQueue, BatchComputeEnvironment, FargateTaskDefinition, EcsCluster, EcsService, VpnConnection, VpnGateway, CustomerGateway, Elb, Alb, Nlb, NetworkAcl, GlacierVault, S3AccessPoint, RdsCluster, RedshiftCluster, IamInstanceProfile, IamPolicyAttachment, OrganizationsAccount, OrganizationsOrganizationalUnit, Cloudtrail, ConfigRule, SnsTopic, SqsQueue, WafWebAcl, ShieldProtection;
    ShieldProtectionWellFormed();
  }

  lemma Part4Index()
    ensures |Part4()| == 1
    ensures forall j :: 0 <= j < |Part4()| ==> IdIndex(Part4()[j].id) == 32 + j
  {
    hide Vpc, Subnet, Ec2, Ec2InstanceTypeOptions, S3, RouteTable, InternetGateway, NatGateway, BatchJobQueue, BatchComputeEnvironment, FargateTaskDefinition, EcsCluster, EcsService, VpnConnection, VpnGateway, CustomerGateway, Elb, Alb, Nlb, NetworkAcl, GlacierVault, S3AccessPoint, RdsCluster, RedshiftCluster, IamInstanceProfile, IamPolicyAttachment, OrganizationsAccount, OrganizationsOrganizationalUnit, Cloudtrail, ConfigRule, SnsTopic, SqsQueue, WafWebAcl, ShieldProtection, IdIndex;
    ShieldProtectionIndex();
  }

  /** Every catalog entry satisfies the schema rules. */
  lemma ModulesWellFormed()
    ensures forall m :: m in Modules() ==> WellFormedModule(m)
  {
    hide Vpc, Subnet, Ec2, Ec2InstanceTypeOptions, S3, RouteTable, InternetGateway, NatGateway, BatchJobQueue, BatchComputeEnvironment, FargateTaskDefinition, EcsCluster, EcsService, VpnConnection, VpnGateway, CustomerGateway, Elb, Alb, Nlb, NetworkAcl, GlacierVault, S3AccessPoint, RdsCluster, RedshiftCluster, IamInstanceProfile, IamPolicyAttachment, OrganizationsAccount, OrganizationsOrganizationalUnit, Cloudtrail, ConfigRule, SnsTopic, SqsQueue, WafWebAcl, ShieldProtection;
    hide Part0, Part1, Part2, Part3, Part4;
    Part0WellFormed(); Part1WellFormed(); Part2WellFormed(); Part3WellFormed(); Part4WellFormed();
  }

  /** No two catalog entries share an id. */
  lemma IdsUnique()
    ensures IdsDistinct(Modules())
  {
    hide Vpc, Subnet, Ec2, Ec2InstanceTypeOptions, S3, RouteTable, InternetGateway, NatGateway, BatchJobQueue, BatchComputeEnvironment, FargateTaskDefinition, EcsCluster, EcsService, VpnConnection, VpnGateway, CustomerGateway, Elb, Alb, Nlb, NetworkAcl, GlacierVault, S3AccessPoint, RdsCluster, RedshiftCluster, IamInstanceProfile, IamPolicyAttachment, OrganizationsAccount, OrganizationsOrganizationalUnit, Cloudtrail, ConfigRule, SnsTopic, SqsQueue, WafWebAcl, ShieldProtection, IdIndex;
    hide Part0, Part1, Part2, Part3, Part4;
    Part0Index(); Part1Index(); Part2Index(); Part3Index(); Part4Index();
    IdsDistinctByIndex(Modules(), IdIndex);
  }
}
