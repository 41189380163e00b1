// The AWS templates (`awsTemplates`, src/utils/terraformTemplates.ts:3-374): each template
// literal as its list of segments, and the table that maps module ids to templates.
module AwsTemplates {
  import opened Templates

  function VpcText0(): string
  {
    @"  enable_dns_support   = true

  tags = {
    Name = ""${var.project_name}-vpc""
  }
}

# Internet Gateway
"
  }

  function VpcText1(): string
  {
    @" {
  vpc_id = "
  }

  function VpcText2(): string
  {
    @"

  tags = {
    Name = ""${var.project_name}-igw""
  }
}"
  }

  /** src/utils/terraformTemplates.ts:5-23 */
  function Vpc(): Template
  {
    [Lit("# VPC Configuration\n"),
    Lit("resource \"aws_vpc\" \"main\""),
    Lit(" {\n"),
    Lit("  cidr_block           = \""),
    Or("vpc_cidr", "10.0.0.0/16"),
    Lit("\"\n"),
    Lit("  enable_dns_hostnames = "),
    Or("enable_dns_hostnames", "true"),
    Lit("\n"),
    Lit(VpcText0()),
    Lit("resource \"aws_internet_gateway\" \"main\""),
    Lit(VpcText1()),
    Lit("aws_vpc.main.id"),
    Lit(VpcText2())]
  }

  function PublicSubnetBlockText0(): string
  {
    "  availability_zone       = data.aws_availability_zones.available.names["
  }

  function PublicSubnetBlockText1(): string
  {
    @"  map_public_ip_on_launch = true

  tags = {
"
  }

  function PublicSubnetBlockText2(): string
  {
    "    Name = \"${var.project_name}-public-subnet-"
  }

  function PublicSubnetBlockText3(): string
  {
    @"    Type = ""Public""
  }
}"
  }

  /** One public subnet per item of `public_subnet_cidrs` (lines 35-46). */
  function PublicSubnetBlock(): seq<ItemPiece>
  {
    [Text("\n"),
    Text("resource \"aws_subnet\" \"public_"),
    Ordinal,
    Text("\" {\n"),
    Text("  vpc_id                  = "),
    Text("aws_vpc.main.id"),
    Text("\n"),
    Text("  cidr_block              = \""),
    Trimmed,
    Text("\"\n"),
    Text(PublicSubnetBlockText0()),
    Position,
    Text("]\n"),
    Text(PublicSubnetBlockText1()),
    Text(PublicSubnetBlockText2()),
    Ordinal,
    Text("\"\n"),
    Text(PublicSubnetBlockText3())]
  }

  function PrivateSubnetBlockText0(): string
  {
    "  availability_zone = data.aws_availability_zones.available.names["
  }

  function PrivateSubnetBlockText1(): string
  {
    @"
  tags = {
"
  }

  function PrivateSubnetBlockText2(): string
  {
    "    Name = \"${var.project_name}-private-subnet-"
  }

  function PrivateSubnetBlockText3(): string
  {
    @"    Type = ""Private""
  }
}"
  }

  /** One private subnet per item of `private_subnet_cidrs` (lines 49-59). */
  function PrivateSubnetBlock(): seq<ItemPiece>
  {
    [Text("\n"),
    Text("resource \"aws_subnet\" \"private_"),
    Ordinal,
    Text("\" {\n"),
    Text("  vpc_id            = "),
    Text("aws_vpc.main.id"),
    Text("\n"),
    Text("  cidr_block        = \""),
    Trimmed,
    Text("\"\n"),
    Text(PrivateSubnetBlockText0()),
    Position,
    Text("]\n"),
    Text(PrivateSubnetBlockText1()),
    Text(PrivateSubnetBlockText2()),
    Ordinal,
    Text("\"\n"),
    Text(PrivateSubnetBlockText3())]
  }

  function RouteTableAssociationBlockText0(): string
  {
    "resource \"aws_route_table_association\" \"public_"
  }

  function RouteTableAssociationBlockText1(): string
  {
    @"  route_table_id = aws_route_table.public.id
}"
  }

  /** One route table association per item of `public_subnet_cidrs` (lines 76-80). */
  function RouteTableAssociationBlock(): seq<ItemPiece>
  {
    [Text("\n"),
    Text(RouteTableAssociationBlockText0()),
    Ordinal,
    Text("\" {\n"),
    Text("  subnet_id      = aws_subnet.public_"),
    Ordinal,
    Text(".id\n"),
    Text(RouteTableAssociationBlockText1())]
  }

  function SubnetText0(): string
  {
    @"# Data source for availability zones
data ""aws_availability_zones"" ""available"" {
  state = ""available""
}

# Public Subnets
"
  }

  function SubnetText1(): string
  {
    @"
# Private Subnets
"
  }

  function SubnetText2(): string
  {
    @"
# Route table for public subnets
"
  }

  function SubnetText3(): string
  {
    @" {
  vpc_id = "
  }

  function SubnetText4(): string
  {
    @"

  route {
    cidr_block = ""0.0.0.0/0""
    gateway_id = "
  }

  function SubnetText5(): string
  {
    @"
  }

  tags = {
    Name = ""${var.project_name}-public-rt""
  }
}

# Associate public subnets with route table
"
  }

  /** src/utils/terraformTemplates.ts:25-80 */
  function Subnet(): Template
  {
    [Lit(SubnetText0()),
    Repeat("public_subnet_cidrs", ["10.0.1.0/24", "10.0.2.0/24"], PublicSubnetBlock()),
    Lit("\n"),
    Lit(SubnetText1()),
    Repeat("private_subnet_cidrs", ["10.0.10.0/24", "10.0.20.0/24"], PrivateSubnetBlock()),
    Lit("\n"),
    Lit(SubnetText2()),
    Lit("resource \"aws_route_table\" \"public\""),
    Lit(SubnetText3()),
    Lit("aws_vpc.main.id"),
    Lit(SubnetText4()),
    Lit("aws_internet_gateway.main.id"),
    Lit(SubnetText5()),
    Repeat("public_subnet_cidrs", ["10.0.1.0/24", "10.0.2.0/24"], RouteTableAssociationBlock())]
  }

  function Ec2Text0(): string
  {
    @" {
  name_prefix = ""${var.project_name}-ec2""
  vpc_id      = "
  }

  function Ec2Text1(): string
  {
    @"

  ingress {
    description = ""SSH""
    from_port   = 22
    to_port     = 22
    protocol    = ""tcp""
    cidr_blocks = [aws_vpc.main.cidr_block]
  }

  ingress {
    description = ""HTTP""
    from_port   = 80
    to_port     = 80
    protocol    = ""tcp""
    cidr_blocks = [""0.0.0.0/0""]
  }

  egress {
    from_port   = 0
    to_port     = 0
    protocol    = ""-1""
    cidr_blocks = [""0.0.0.0/0""]
  }

  tags = {
    Name = ""${var.project_name}-ec2-sg""
  }
}

# EC2 Instances
"
  }

  function Ec2Text2(): string
  {
    "  ami             = data.aws_ami.amazon_linux.id\n"
  }

  function Ec2Text3(): string
  {
    @"  subnet_id       = aws_subnet.public_1.id
  security_groups = [aws_security_group.ec2.id]

  tags = {
    Name = ""${var.project_name}-instance-${count.index + 1}""
  }
}

# Data source for Amazon Linux AMI
data ""aws_ami"" ""amazon_linux"" {
  most_recent = true
  owners      = [""amazon""]

  filter {
    name   = ""name""
    values = [""amzn2-ami-hvm-*-x86_64-gp2""]
  }
}"
  }

  /** src/utils/terraformTemplates.ts:83-138 */
  function Ec2(): Template
  {
    [Lit("# Security Group for EC2 instances\n"),
    Lit("resource \"aws_security_group\" \"ec2\""),
    Lit(Ec2Text0()),
    Lit("aws_vpc.main.id"),
    Lit(Ec2Text1()),
    Lit("resource \"aws_instance\" \"main\""),
    Lit(" {\n"),
    Lit("  count           = "),
    Or("instance_count", "1"),
    Lit("\n"),
    Lit(Ec2Text2()),
    Lit("  instance_type   = \""),
    Or("instance_type", "t3.micro"),
    Lit("\"\n"),
    Lit(Ec2Text3())]
  }

  function S3Text0(): string
  {
    @"
  tags = {
    Name = ""${var.project_name}-bucket""
  }
}

# S3 Bucket Versioning
"
  }

  function S3Text1(): string
  {
    "resource \"aws_s3_bucket_versioning\" \"main\""
  }

  function S3Text2(): string
  {
    @" {
  bucket = "
  }

  function S3Text3(): string
  {
    @"
  versioning_configuration {
"
  }

  function S3Text4(): string
  {
    @"  }
}

# S3 Bucket Public Access Block
"
  }

  function S3Text5(): string
  {
    "resource \"aws_s3_bucket_public_access_block\" \"main\""
  }

  function S3Text6(): string
  {
    @" {
  bucket = "
  }

  function S3Text7(): string
  {
    @"

  block_public_acls       = true
  block_public_policy     = true
  ignore_public_acls      = true
  restrict_public_buckets = true
}

# Random ID for bucket naming
"
  }

  function S3Text8(): string
  {
    @" {
  byte_length = 4
}"
  }

  /** src/utils/terraformTemplates.ts:140-170 */
  function S3(): Template
  {
    [Lit("# S3 Bucket\n"),
    Lit("resource \"aws_s3_bucket\" \"main\""),
    Lit(" {\n"),
    Lit("  bucket = \""),
    Or("bucket_name", "${var.project_name}-bucket-${random_id.bucket_suffix.hex}"),
    Lit("\"\n"),
    Lit(S3Text0()),
    Lit(S3Text1()),
    Lit(S3Text2()),
    Lit("aws_s3_bucket.main.id"),
    Lit(S3Text3()),
    Lit("    status = \""),
    Choice("versioning", "true", "Enabled", "Suspended"),
    Lit("\"\n"),
    Lit(S3Text4()),
    Lit(S3Text5()),
    Lit(S3Text6()),
    Lit("aws_s3_bucket.main.id"),
    Lit(S3Text7()),
    Lit("resource \"random_id\" \"bucket_suffix\""),
    Lit(S3Text8())]
  }

  function BatchJobQueueText0(): string
  {
    @"
  compute_environment_order {
    order               = 1
    compute_environment = aws_batch_compute_environment.main.arn
  }

  tags = {
    Name = ""${var.project_name}-job-queue""
  }
}"
  }

  /** src/utils/terraformTemplates.ts:173-187 */
  function BatchJobQueue(): Template
  {
    [Lit("# Batch Job Queue\n"),
    Lit("resource \"aws_batch_job_queue\" \"main\""),
    Lit(" {\n"),
    Lit("  name     = \""),
    Or("job_queue_name", "my-job-queue"),
    Lit("\"\n"),
    Lit("  state    = \""),
    Or("state", "ENABLED"),
    Lit("\"\n"),
    Lit("  priority = "),
    Or("priority", "1"),
    Lit("\n"),
    Lit(BatchJobQueueText0())]
  }

  function BatchComputeEnvironmentText0(): string
  {
    "resource \"aws_batch_compute_environment\" \"main\""
  }

  function BatchComputeEnvironmentText1(): string
  {
    @"  type                     = ""MANAGED""
  state                    = ""ENABLED""

  compute_resources {
    type                = ""EC2""
"
  }

  function BatchComputeEnvironmentText2(): string
  {
    @"    instance_role       = aws_iam_instance_profile.ecs_instance_role.arn
    
    subnets = [
      aws_subnet.private_1.id,
      aws_subnet.private_2.id
    ]
    
    security_group_ids = [
      aws_security_group.batch.id
    ]
  }

  service_role = aws_iam_role.batch_service_role.arn

  tags = {
    Name = ""${var.project_name}-batch-compute-env""
  }
}

# Security Group for Batch
"
  }

  function BatchComputeEnvironmentText3(): string
  {
    @" {
  name_prefix = ""${var.project_name}-batch""
  vpc_id      = "
  }

  function BatchComputeEnvironmentText4(): string
  {
    @"

  egress {
    from_port   = 0
    to_port     = 0
    protocol    = ""-1""
    cidr_blocks = [""0.0.0.0/0""]
  }

  tags = {
    Name = ""${var.project_name}-batch-sg""
  }
}"
  }

  /** src/utils/terraformTemplates.ts:189-235 */
  function BatchComputeEnvironment(): Template
  {
    [Lit("# Batch Compute Environment\n"),
    Lit(BatchComputeEnvironmentText0()),
    Lit(" {\n"),
    Lit("  compute_environment_name = \""),
    Or("compute_environment_name", "my-compute-env"),
    Lit("\"\n"),
    Lit(BatchComputeEnvironmentText1()),
    Lit("    min_vcpus           = "),
    Or("min_vcpus", "0"),
    Lit("\n"),
    Lit("    max_vcpus           = "),
    Or("max_vcpus", "100"),
    Lit("\n"),
    Lit("    desired_vcpus       = "),
    Or("min_vcpus", "0"),
    Lit("\n"),
    Lit("    instance_types      = ["),
    QuotedList("instance_types", "\"m5.large\""),
    Lit(" ]\n"),
    Lit(BatchComputeEnvironmentText2()),
    Lit("resource \"aws_security_group\" \"batch\""),
    Lit(BatchComputeEnvironmentText3()),
    Lit("aws_vpc.main.id"),
    Lit(BatchComputeEnvironmentText4())]
  }

  function FargateTaskDefinitionText0(): string
  {
    "resource \"aws_ecs_task_definition\" \"main\""
  }

  function FargateTaskDefinitionText1(): string
  {
    @"  network_mode             = ""awsvpc""
  requires_compatibilities = [""FARGATE""]
"
  }

  function FargateTaskDefinitionText2(): string
  {
    @"  execution_role_arn       = aws_iam_role.ecs_execution_role.arn

  container_definitions = jsonencode([
    {
      name  = ""main""
"
  }

  function FargateTaskDefinitionText3(): string
  {
    @"      
      portMappings = [
        {
          containerPort = 80
          hostPort      = 80
        }
      ]
      
      logConfiguration = {
        logDriver = ""awslogs""
        options = {
          awslogs-group         = aws_cloudwatch_log_group.main.name
          awslogs-region        = var.aws_region
          awslogs-stream-prefix = ""ecs""
        }
      }
    }
  ])

  tags = {
    Name = ""${var.project_name}-task-definition""
  }
}

# CloudWatch Log Group
"
  }

  function FargateTaskDefinitionText4(): string
  {
    "resource \"aws_cloudwatch_log_group\" \"main\""
  }

  function FargateTaskDefinitionText5(): string
  {
    @" {
  name              = ""/ecs/${var.project_name}""
  retention_in_days = 7

  tags = {
    Name = ""${var.project_name}-log-group""
  }
}"
  }

  /** src/utils/terraformTemplates.ts:237-282 */
  function FargateTaskDefinition(): Template
  {
    [Lit("# Fargate Task Definition\n"),
    Lit(FargateTaskDefinitionText0()),
    Lit(" {\n"),
    Lit("  family                   = \""),
    Or("task_family", "my-fargate-task"),
    Lit("\"\n"),
    Lit(FargateTaskDefinitionText1()),
    Lit("  cpu                      = \""),
    Or("cpu", "256"),
    Lit("\"\n"),
    Lit("  memory                   = \""),
    Or("memory", "512"),
    Lit("\"\n"),
    Lit(FargateTaskDefinitionText2()),
    Lit("      image = \""),
    Or("container_image", "nginx:latest"),
    Lit("\"\n"),
    Lit(FargateTaskDefinitionText3()),
    Lit(FargateTaskDefinitionText4()),
    Lit(FargateTaskDefinitionText5())]
  }

  function EcsClusterText0(): string
  {
    @"
  tags = {
    Name = ""${var.project_name}-ecs-cluster""
  }
}"
  }

  /** src/utils/terraformTemplates.ts:284-293 */
  function EcsCluster(): Template
  {
    [Lit("# ECS Cluster\n"),
    Lit("resource \"aws_ecs_cluster\" \"main\""),
    Lit(" {\n"),
    Lit("  name = \""),
    Or("cluster_name", "my-ecs-cluster"),
    Lit("\"\n"),
    Lit("\n"),
    Lit("  capacity_providers = ["),
    QuotedList("capacity_providers", "\"FARGATE\", \"EC2\""),
    Lit("]\n"),
    Lit(EcsClusterText0())]
  }

  function EcsServiceText0(): string
  {
    @"
  task_definition = aws_ecs_task_definition.main.arn
"
  }

  function EcsServiceText1(): string
  {
    @"
  network_configuration {
    subnets          = [aws_subnet.private_1.id, aws_subnet.private_2.id]
    security_groups  = [aws_security_group.ecs_service.id]
    assign_public_ip = false
  }

  tags = {
    Name = ""${var.project_name}-ecs-service""
  }
}

# Security Group for ECS Service
"
  }

  function EcsServiceText2(): string
  {
    "resource \"aws_security_group\" \"ecs_service\""
  }

  function EcsServiceText3(): string
  {
    @" {
  name_prefix = ""${var.project_name}-ecs-service""
  vpc_id      = "
  }

  function EcsServiceText4(): string
  {
    @"

  ingress {
    from_port   = 80
    to_port     = 80
    protocol    = ""tcp""
    cidr_blocks = [aws_vpc.main.cidr_block]
  }

  egress {
    from_port   = 0
    to_port     = 0
    protocol    = ""-1""
    cidr_blocks = [""0.0.0.0/0""]
  }

  tags = {
    Name = ""${var.project_name}-ecs-service-sg""
  }
}"
  }

  /** src/utils/terraformTemplates.ts:295-336 */
  function EcsService(): Template
  {
    [Lit("# ECS Service\n"),
    Lit("resource \"aws_ecs_service\" \"main\""),
    Lit(" {\n"),
    Lit("  name            = \""),
    Or("service_name", "my-ecs-service"),
    Lit("\"\n"),
    Lit("  cluster         = "),
    Lit("aws_ecs_cluster.main.id"),
    Lit(EcsServiceText0()),
    Lit("  desired_count   = "),
    Or("desired_count", "2"),
    Lit("\n"),
    Lit("  launch_type     = \""),
    Or("launch_type", "FARGATE"),
    Lit("\"\n"),
    Lit(EcsServiceText1()),
    Lit(EcsServiceText2()),
    Lit(EcsServiceText3()),
    Lit("aws_vpc.main.id"),
    Lit(EcsServiceText4())]
  }

  function VpnConnectionText0(): string
  {
    @"
  tags = {
    Name = ""${var.project_name}-vpn-connection""
  }
}"
  }

  /** src/utils/terraformTemplates.ts:341-351 */
  function VpnConnection(): Template
  {
    [Lit("# VPN Connection\n"),
    Lit("resource \"aws_vpn_connection\" \"main\""),
    Lit(" {\n"),
    Lit("  customer_gateway_id = \""),
    Raw("customer_gateway_id"),
    Lit("\"\n"),
    Lit("  vpn_gateway_id     = \""),
    Raw("vpn_gateway_id"),
    Lit("\"\n"),
    Lit("  type               = \"ipsec.1\"\n"),
    Lit("  static_routes_only = "),
    Or("static_routes_only", "false"),
    Lit("\n"),
    Lit(VpnConnectionText0())]
  }

  function VpnGatewayText0(): string
  {
    @" {
  vpc_id         = "
  }

  function VpnGatewayText1(): string
  {
    @"
  tags = {
"
  }

  function VpnGatewayText2(): string
  {
    @"  }
}"
  }

  /** src/utils/terraformTemplates.ts:353-361 */
  function VpnGateway(): Template
  {
    [Lit("# VPN Gateway\n"),
    Lit("resource \"aws_vpn_gateway\" \"main\""),
    Lit(VpnGatewayText0()),
    Lit("aws_vpc.main.id"),
    Lit("\n"),
    Lit("  amazon_side_asn = "),
    Or("amazon_side_asn", "64512"),
    Lit("\n"),
    Lit(VpnGatewayText1()),
    Lit("    Name = \""),
    Or("vpn_gateway_name", "main-vpn-gw"),
    Lit("\"\n"),
    Lit(VpnGatewayText2())]
  }

  function CustomerGatewayText0(): string
  {
    @"
  tags = {
    Name = ""${var.project_name}-customer-gateway""
  }
}"
  }

  /** src/utils/terraformTemplates.ts:363-372 */
  function CustomerGateway(): Template
  {
    [Lit("# Customer Gateway\n"),
    Lit("resource \"aws_customer_gateway\" \"main\""),
    Lit(" {\n"),
    Lit("  bgp_asn    = "),
    Or("bgp_asn", "65000"),
    Lit("\n"),
    Lit("  ip_address = \""),
    Raw("ip_address"),
    Lit("\"\n"),
    Lit("  type       = \""),
    Or("type", "ipsec.1"),
    Lit("\"\n"),
    Lit(CustomerGatewayText0())]
  }

  /** `awsTemplates`: module id to template. */
  function Registry(): map<string, Template>
  {
    map[
    "vpc" := Vpc(),
    "subnet" := Subnet(),
    "ec2" := Ec2(),
    "s3" := S3(),
    "batch_job_queue" := BatchJobQueue(),
    "batch_compute_environment" := BatchComputeEnvironment(),
    "fargate_task_definition" := FargateTaskDefinition(),
    "ecs_cluster" := EcsCluster(),
    "ecs_service" := EcsService(),
    "vpn_connection" := VpnConnection(),
    "vpn_gateway" := VpnGateway(),
    "customer_gateway" := CustomerGateway()]
  }

  /** `awsMissingTemplates`: imported by the generator but not defined in the templates
      file, so it has no entries. */
  function MissingTemplates(): map<string, Template>
  {
    map[]
  }
}
