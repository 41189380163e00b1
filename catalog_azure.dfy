// The Azure module catalog: 23 modules, in declaration order.
// The records of src/data/modules.ts:403-701, one record function per module.
module AzureCatalog {
  import opened Wrappers
  import opened ModuleTypes

  const Count: nat := 23

  /** src/data/modules.ts:406 */
  function VirtualNetwork(): TerraformModule
  {
    TerraformModule("virtual_network", "Virtual Network", "Azure Virtual Network for network isolation", "networking", [
      ModuleParameter("vnet_name", StringParam, "Virtual network name", true, Some("my-vnet"), None),
      ModuleParameter("address_space", ListParam, "Address space for VNet", true, Some("10.0.0.0/16"), None),
      ModuleParameter("dns_servers", ListParam, "Custom DNS servers", false, None, None)])
  }

  /** src/data/modules.ts:417 */
  function Subnet(): TerraformModule
  {
    TerraformModule("subnet", "Subnet", "Azure subnet within virtual network", "networking", [
      ModuleParameter("subnet_name", StringParam, "Subnet name", true, Some("my-subnet"), None),
      ModuleParameter("address_prefixes", ListParam, "Address prefixes for subnet", true, Some("10.0.1.0/24"), None),
      ModuleParameter("virtual_network_name", StringParam, "Virtual network name", true, None, None)])
  }

  /** src/data/modules.ts:428 */
  function RouteTable(): TerraformModule
  {
    TerraformModule("route_table", "Route Table", "Azure route table for custom routing", "networking", [
      ModuleParameter("route_table_name", StringParam, "Route table name", true, Some("my-route-table"), None),
      ModuleParameter("disable_bgp_route_propagation", BooleanParam, "Disable BGP route propagation", false, Some("false"), None)])
  }

  /** src/data/modules.ts:438 */
  function NatGateway(): TerraformModule
  {
    TerraformModule("nat_gateway", "NAT Gateway", "Azure NAT Gateway for outbound internet connectivity", "networking", [
      ModuleParameter("nat_gateway_name", StringParam, "NAT Gateway name", true, Some("my-nat-gateway"), None),
      ModuleParameter("sku_name", StringParam, "SKU name", true, Some("Standard"), Some(["Standard"])),
      ModuleParameter("idle_timeout_in_minutes", NumberParam, "Idle timeout in minutes", false, Some("4"), None)])
  }

  /** Allowed values of `virtual_machine.vm_size`. */
  function VirtualMachineVmSizeOptions(): seq<string>
  {
    ["Standard_B1ls", "Standard_B1s", "Standard_B1ms", "Standard_B2s", "Standard_B2ms", "Standard_B4ms", "Standard_B8ms", "Standard_B12ms"] +
    ["Standard_B16ms", "Standard_B20ms", "Standard_D2s_v3", "Standard_D4s_v3", "Standard_D8s_v3", "Standard_D16s_v3", "Standard_D32s_v3", "Standard_D48s_v3"] +
    ["Standard_D64s_v3", "Standard_D2s_v4", "Standard_D4s_v4", "Standard_D8s_v4", "Standard_D16s_v4", "Standard_D32s_v4", "Standard_D48s_v4", "Standard_D64s_v4"] +
    ["Standard_D2s_v5", "Standard_D4s_v5", "Standard_D8s_v5", "Standard_D16s_v5", "Standard_D32s_v5", "Standard_D48s_v5", "Standard_D64s_v5", "Standard_D96s_v5"] +
    ["Standard_F2s_v2", "Standard_F4s_v2", "Standard_F8s_v2", "Standard_F16s_v2", "Standard_F32s_v2", "Standard_F48s_v2", "Standard_F64s_v2", "Standard_F72s_v2"] +
    ["Standard_E2s_v3", "Standard_E4s_v3", "Standard_E8s_v3", "Standard_E16s_v3", "Standard_E20s_v3", "Standard_E32s_v3", "Standard_E48s_v3", "Standard_E64s_v3"] +
    ["Standard_E2s_v4", "Standard_E4s_v4", "Standard_E8s_v4", "Standard_E16s_v4", "Standard_E20s_v4", "Standard_E32s_v4", "Standard_E48s_v4", "Standard_E64s_v4"] +
    ["Standard_E2s_v5", "Standard_E4s_v5", "Standard_E8s_v5", "Standard_E16s_v5", "Standard_E20s_v5", "Standard_E32s_v5", "Standard_E48s_v5", "Standard_E64s_v5"] +
    ["Standard_E96s_v5", "Standard_H8", "Standard_H16", "Standard_H8m", "Standard_H16m", "Standard_H16r", "Standard_H16mr", "Standard_NC6"] +
    ["Standard_NC12", "Standard_NC24", "Standard_NC6s_v3", "Standard_NC12s_v3", "Standard_NC24s_v3", "Standard_ND6s", "Standard_ND12s", "Standard_ND24s"] +
    ["Standard_ND40rs_v2", "Standard_NV6", "Standard_NV12", "Standard_NV24", "Standard_NV12s_v3", "Standard_NV24s_v3", "Standard_NV48s_v3"]
  }

  /** src/data/modules.ts:451 */
  function VirtualMachine(): TerraformModule
  {
    TerraformModule("virtual_machine", "Virtual Machine", "Azure Virtual Machine with comprehensive size options", "compute", [
      ModuleParameter("vm_name", StringParam, "Virtual machine name", true, Some("my-vm"), None),
      ModuleParameter("vm_size", StringParam, "Virtual machine size", true, Some("Standard_B2s"), Some(VirtualMachineVmSizeOptions())),
      ModuleParameter("admin_username", StringParam, "Administrator username", true, Some("azureuser"), None),
      ModuleParameter("disable_password_authentication", BooleanParam, "Disable password authentication", false, Some("true"), None),
      ModuleParameter("source_image_reference", StringParam, "OS image reference", true, Some("Ubuntu"), Some(["Ubuntu", "CentOS", "RHEL", "Windows", "Debian"]))])
  }

  /** src/data/modules.ts:490 */
  function ContainerGroup(): TerraformModule
  {
    TerraformModule("container_group", "Container Group", "Azure Container Instances group for serverless containers", "compute", [
      ModuleParameter("container_group_name", StringParam, "Name of container group", true, Some("my-container-group"), None),
      ModuleParameter("os_type", StringParam, "Operating system type", true, Some("Linux"), Some(["Linux", "Windows"])),
      ModuleParameter("container_image", StringParam, "Docker container image", true, Some("nginx:latest"), None),
      ModuleParameter("cpu", StringParam, "CPU cores", true, Some("0.5"), None),
      ModuleParameter("memory", StringParam, "Memory in GB", true, Some("1.5"), None)])
  }

  /** src/data/modules.ts:503 */
  function ContainerRegistry(): TerraformModule
  {
    TerraformModule("container_registry", "Container Registry", "Azure Container Registry for storing container images", "compute", [
      ModuleParameter("registry_name", StringParam, "Name of container registry", true, Some("mycontainerregistry"), None),
      ModuleParameter("sku", StringParam, "SKU tier", true, Some("Standard"), Some(["Basic", "Standard", "Premium"])),
      ModuleParameter("admin_enabled", BooleanParam, "Enable admin user", false, Some("false"), None)])
  }

  /** src/data/modules.ts:514 */
  function BatchAccount(): TerraformModule
  {
    TerraformModule("batch_account", "Batch Account", "Azure Batch account for large-scale parallel workloads", "compute", [
      ModuleParameter("batch_account_name", StringParam, "Name of batch account", true, Some("mybatchaccount"), None),
      ModuleParameter("pool_allocation_mode", StringParam, "Pool allocation mode", true, Some("BatchService"), Some(["BatchService", "UserSubscription"]))])
  }

  /** src/data/modules.ts:526 */
  function ApplicationGateway(): TerraformModule
  {
    TerraformModule("application_gateway", "Application Gateway", "Azure Application Gateway for web traffic load balancing", "networking", [
      ModuleParameter("gateway_name", StringParam, "Name of application gateway", true, Some("my-app-gateway"), None),
      ModuleParameter("sku_name", StringParam, "SKU name", true, Some("Standard_Small"), Some(["Standard_Small", "Standard_Medium", "Standard_Large", "WAF_Medium", "WAF_Large"])),
      ModuleParameter("sku_tier", StringParam, "SKU tier", true, Some("Standard"), Some(["Standard", "WAF"])),
      ModuleParameter("sku_capacity", NumberParam, "SKU capacity", true, Some("2"), None)])
  }

  /** src/data/modules.ts:538 */
  function Firewall(): TerraformModule
  {
    TerraformModule("firewall", "Azure Firewall", "Azure Firewall for network security", "networking", [
      ModuleParameter("firewall_name", StringParam, "Name of Azure Firewall", true, Some("my-firewall"), None),
      ModuleParameter("sku_name", StringParam, "SKU name", true, Some("AZFW_VNet"), Some(["AZFW_VNet", "AZFW_Hub"])),
      ModuleParameter("sku_tier", StringParam, "SKU tier", true, Some("Standard"), Some(["Standard", "Premium"]))])
  }

  /** src/data/modules.ts:549 */
  function VpnGateway(): TerraformModule
  {
    TerraformModule("vpn_gateway", "VPN Gateway", "Azure VPN Gateway for site-to-site connectivity", "networking", [
      ModuleParameter("vpn_gateway_name", StringParam, "Name of VPN gateway", true, Some("my-vpn-gateway"), None),
      ModuleParameter("type", StringParam, "VPN gateway type", true, Some("Vpn"), Some(["Vpn", "ExpressRoute"])),
      ModuleParameter("sku", StringParam, "Gateway SKU", true, Some("VpnGw1"), Some(["Basic", "VpnGw1", "VpnGw2", "VpnGw3"]))])
  }

  /** src/data/modules.ts:560 */
  function ExpressRouteCircuit(): TerraformModule
  {
    TerraformModule("express_route_circuit", "ExpressRoute Circuit", "Azure ExpressRoute circuit for private connectivity", "networking", [
      ModuleParameter("circuit_name", StringParam, "Name of ExpressRoute circuit", true, Some("my-er-circuit"), None),
      ModuleParameter("service_provider_name", StringParam, "Service provider name", true, None, None),
      ModuleParameter("peering_location", StringParam, "Peering location", true, None, None),
      ModuleParameter("bandwidth_in_mbps", NumberParam, "Bandwidth in Mbps", true, Some("50"), None)])
  }

  /** src/data/modules.ts:574 */
  function StorageShare(): TerraformModule
  {
    TerraformModule("storage_share", "Storage File Share", "Azure Storage file share for shared file access", "storage", [
      ModuleParameter("share_name", StringParam, "Name of file share", true, Some("my-file-share"), None),
      ModuleParameter("quota", NumberParam, "Storage quota in GB", true, Some("100"), None)])
  }

  /** src/data/modules.ts:584 */
  function BlobContainer(): TerraformModule
  {
    TerraformModule("blob_container", "Blob Container", "Azure Storage blob container for object storage", "storage", [
      ModuleParameter("container_name", StringParam, "Name of blob container", true, Some("my-blob-container"), None),
      ModuleParameter("container_access_type", StringParam, "Container access type", true, Some("private"), Some(["private", "blob", "container"]))])
  }

  /** src/data/modules.ts:596 */
  function PostgresqlServer(): TerraformModule
  {
    TerraformModule("postgresql_server", "PostgreSQL Server", "Azure Database for PostgreSQL server", "database", [
      ModuleParameter("server_name", StringParam, "Name of PostgreSQL server", true, Some("my-postgresql-server"), None),
      ModuleParameter("administrator_login", StringParam, "Administrator login username", true, Some("psqladmin"), None),
      ModuleParameter("sku_name", StringParam, "SKU name", true, Some("B_Gen5_2"), Some(["B_Gen5_1", "B_Gen5_2", "GP_Gen5_2", "GP_Gen5_4", "MO_Gen5_2"])),
      ModuleParameter("version", StringParam, "PostgreSQL version", true, Some("11"), Some(["9.5", "9.6", "10", "11"]))])
  }

  /** src/data/modules.ts:608 */
  function MariadbServer(): TerraformModule
  {
    TerraformModule("mariadb_server", "MariaDB Server", "Azure Database for MariaDB server", "database", [
      ModuleParameter("server_name", StringParam, "Name of MariaDB server", true, Some("my-mariadb-server"), None),
      ModuleParameter("administrator_login", StringParam, "Administrator login username", true, Some("mariadbadmin"), None),
      ModuleParameter("sku_name", StringParam, "SKU name", true, Some("B_Gen5_2"), Some(["B_Gen5_1", "B_Gen5_2", "GP_Gen5_2", "GP_Gen5_4", "MO_Gen5_2"])),
      ModuleParameter("version", StringParam, "MariaDB version", true, Some("10.2"), Some(["10.2", "10.3"]))])
  }

  /** src/data/modules.ts:620 */
  function CosmosdbSqlContainer(): TerraformModule
  {
    TerraformModule("cosmosdb_sql_container", "Cosmos DB SQL Container", "Azure Cosmos DB SQL API container", "database", [
      ModuleParameter("container_name", StringParam, "Name of Cosmos DB container", true, Some("my-container"), None),
      ModuleParameter("partition_key_path", StringParam, "Partition key path", true, Some("/partitionKey"), None),
      ModuleParameter("throughput", NumberParam, "Throughput (RU/s)", false, Some("400"), None)])
  }

  /** src/data/modules.ts:633 */
  function ManagedServiceIdentity(): TerraformModule
  {
    TerraformModule("managed_service_identity", "Managed Service Identity", "Azure Managed Service Identity for Azure resources", "identity", [
      ModuleParameter("identity_name", StringParam, "Name of managed identity", true, Some("my-managed-identity"), None),
      ModuleParameter("type", StringParam, "Identity type", true, Some("UserAssigned"), Some(["SystemAssigned", "UserAssigned"]))])
  }

  /** src/data/modules.ts:643 */
  function RoleAssignment(): TerraformModule
  {
    TerraformModule("role_assignment", "Role Assignment", "Azure RBAC role assignment", "identity", [
      ModuleParameter("role_definition_name", StringParam, "Role definition name", true, Some("Reader"), Some(["Reader", "Contributor", "Owner", "User Access Administrator"])),
      ModuleParameter("principal_id", StringParam, "Principal ID (user, group, or service principal)", true, None, None),
      ModuleParameter("scope", StringParam, "Scope for role assignment", true, None, None)])
  }

  /** src/data/modules.ts:656 */
  function LogAnalyticsSolution(): TerraformModule
  {
    TerraformModule("log_analytics_solution", "Log Analytics Solution", "Azure Log Analytics solution for monitoring", "monitoring", [
      ModuleParameter("solution_name", StringParam, "Name of Log Analytics solution", true, Some("ContainerInsights"), None),
      ModuleParameter("plan_name", StringParam, "Solution plan name", true, Some("ContainerInsights"), None),
      ModuleParameter("plan_product", StringParam, "Solution plan product", true, Some("OMSGallery/ContainerInsights"), None)])
  }

  /** src/data/modules.ts:667 */
  function AlertRuleMetric(): TerraformModule
  {
    TerraformModule("alert_rule_metric", "Metric Alert Rule", "Azure Monitor metric alert rule", "monitoring", [
      ModuleParameter("alert_rule_name", StringParam, "Name of alert rule", true, Some("my-alert-rule"), None),
      ModuleParameter("metric_name", StringParam, "Metric name to monitor", true, Some("Percentage CPU"), None),
      ModuleParameter("operator", StringParam, "Comparison operator", true, Some("GreaterThan"), Some(["Equals", "NotEquals", "GreaterThan", "GreaterThanOrEqual", "LessThan", "LessThanOrEqual"])),
      ModuleParameter("threshold", NumberParam, "Alert threshold", true, Some("80"), None)])
  }

  /** src/data/modules.ts:681 */
  function SecurityCenterSubscriptionPricing(): TerraformModule
  {
    TerraformModule("security_center_subscription_pricing", "Security Center Pricing", "Azure Security Center subscription pricing tier", "security", [
      ModuleParameter("tier", StringParam, "Pricing tier", true, Some("Standard"), Some(["Free", "Standard"])),
      ModuleParameter("resource_type", StringParam, "Resource type", true, Some("VirtualMachines"), Some(["VirtualMachines", "StorageAccounts", "SqlServers", "KeyVaults", "AppServices"]))])
  }

  /** src/data/modules.ts:691 */
  function KeyVault(): TerraformModule
  {
    TerraformModule("key_vault", "Key Vault", "Azure Key Vault for secrets management", "security", [
      ModuleParameter("key_vault_name", StringParam, "Name of Key Vault", true, Some("my-key-vault"), None),
      ModuleParameter("sku_name", StringParam, "SKU name", true, Some("standard"), Some(["standard", "premium"])),
      ModuleParameter("enabled_for_disk_encryption", BooleanParam, "Enable for disk encryption", false, Some("false"), None)])
  }

  /** Entries 0 to 7 of the catalog. */
  function Part0(): seq<TerraformModule>
  {
    [VirtualNetwork(), Subnet(), RouteTable(), NatGateway(),
     VirtualMachine(), ContainerGroup(), ContainerRegistry(), BatchAccount()]
  }

  /** Entries 8 to 15 of the catalog. */
  function Part1(): seq<TerraformModule>
  {
    [ApplicationGateway(), Firewall(), VpnGateway(), ExpressRouteCircuit(),
     StorageShare(), BlobContainer(), PostgresqlServer(), MariadbServer()]
  }

  /** Entries 16 to 22 of the catalog. */
  function Part2(): seq<TerraformModule>
  {
    [CosmosdbSqlContainer(), ManagedServiceIdentity(), RoleAssignment(), LogAnalyticsSolution(),
     AlertRuleMetric(), SecurityCenterSubscriptionPricing(), KeyVault()]
  }

  /** The catalog, in declaration order. */
  function Modules(): seq<TerraformModule>
  {
    Part0() + Part1() + Part2()
  }

  /** Position of the module with id `id`, or -1 when the catalog has none. */
  function IdIndex(id: string): int
  {
    if |id| == 6 then (if id == "subnet" then 1 else -1)
    else if |id| == 8 then (if id == "firewall" then 9 else -1)
    else if |id| == 9 then (if id == "key_vault" then 22 else -1)
    else if |id| == 11 then (if id == "route_table" then 2 else if id == "nat_gateway" then 3 else if id == "vpn_gateway" then 10 else -1)
    else if |id| == 13 then (if id == "batch_account" then 7 else if id == "storage_share" then 12 else -1)
    else if |id| == 14 then (if id == "blob_container" then 13 else if id == "mariadb_server" then 15 else -1)
    else if |id| == 15 then (if id == "virtual_network" then 0 else if id == "virtual_machine" then 4 else if id == "container_group" then 5 else if id == "role_assignment" then 18 else -1)
    else if |id| == 17 then (if id == "postgresql_server" then 14 else if id == "alert_rule_metric" then 20 else -1)
    else if |id| == 18 then (if id == "container_registry" then 6 else -1)
    else if |id| == 19 then (if id == "application_gateway" then 8 else -1)
    else if |id| == 21 then (if id == "express_route_circuit" then 11 else -1)
    else if |id| == 22 then (if id == "cosmosdb_sql_container" then 16 else if id == "log_analytics_solution" then 19 else -1)
    else if |id| == 24 then (if id == "managed_service_identity" then 17 else -1)
    else if |id| == 36 then (if id == "security_center_subscription_pricing" then 21 else -1)
    else -1
  }

  lemma VirtualMachineVmSizeOptionsHasDefault()
    ensures "Standard_B2s" in VirtualMachineVmSizeOptions()
  {
    assert VirtualMachineVmSizeOptions()[3] == "Standard_B2s";
  }

  lemma VirtualNetworkWellFormed()
    ensures WellFormedModule(VirtualNetwork())
  {}

  lemma VirtualNetworkIndex()
    ensures VirtualNetwork().id == "virtual_network" && IdIndex("virtual_network") == 0
  {
  }

  lemma SubnetWellFormed()
    ensures WellFormedModule(Subnet())
  {}

  lemma SubnetIndex()
    ensures Subnet().id == "subnet" && IdIndex("subnet") == 1
  {
  }

  lemma RouteTableWellFormed()
    ensures WellFormedModule(RouteTable())
  {}

  lemma RouteTableIndex()
    ensures RouteTable().id == "route_table" && IdIndex("route_table") == 2
  {
  }

  lemma NatGatewayWellFormed()
    ensures WellFormedModule(NatGateway())
  {}

  lemma NatGatewayIndex()
    ensures NatGateway().id == "nat_gateway" && IdIndex("nat_gateway") == 3
  {
  }

  lemma VirtualMachineWellFormed()
    ensures WellFormedModule(VirtualMachine())
  {
    hide VirtualMachineVmSizeOptions;
    VirtualMachineVmSizeOptionsHasDefault();
  }

  lemma VirtualMachineIndex()
    ensures VirtualMachine().id == "virtual_machine" && IdIndex("virtual_machine") == 4
  {
  }

  lemma ContainerGroupWellFormed()
    ensures WellFormedModule(ContainerGroup())
  {}

  lemma ContainerGroupIndex()
    ensures ContainerGroup().id == "container_group" && IdIndex("container_group") == 5
  {
  }

  lemma ContainerRegistryWellFormed()
    ensures WellFormedModule(ContainerRegistry())
  {}

  lemma ContainerRegistryIndex()
    ensures ContainerRegistry().id == "container_registry" && IdIndex("container_registry") == 6
  {
  }

  lemma BatchAccountWellFormed()
    ensures WellFormedModule(BatchAccount())
  {}

  lemma BatchAccountIndex()
    ensures BatchAccount().id == "batch_account" && IdIndex("batch_account") == 7
  {
  }

  lemma ApplicationGatewayWellFormed()
    ensures WellFormedModule(ApplicationGateway())
  {}

  lemma ApplicationGatewayIndex()
    ensures ApplicationGateway().id == "application_gateway" && IdIndex("application_gateway") == 8
  {
  }

  lemma FirewallWellFormed()
    ensures WellFormedModule(Firewall())
  {}

  lemma FirewallIndex()
    ensures Firewall().id == "firewall" && IdIndex("firewall") == 9
  {
  }

  lemma VpnGatewayWellFormed()
    ensures WellFormedModule(VpnGateway())
  {}

  lemma VpnGatewayIndex()
    ensures VpnGateway().id == "vpn_gateway" && IdIndex("vpn_gateway") == 10
  {
  }

  lemma ExpressRouteCircuitWellFormed()
    ensures WellFormedModule(ExpressRouteCircuit())
  {}

  lemma ExpressRouteCircuitIndex()
    ensures ExpressRouteCircuit().id == "express_route_circuit" && IdIndex("express_route_circuit") == 11
  {
  }

  lemma StorageShareWellFormed()
    ensures WellFormedModule(StorageShare())
  {}

  lemma StorageShareIndex()
    ensures StorageShare().id == "storage_share" && IdIndex("storage_share") == 12
  {
  }

  lemma BlobContainerWellFormed()
    ensures WellFormedModule(BlobContainer())
  {}

  lemma BlobContainerIndex()
    ensures BlobContainer().id == "blob_container" && IdIndex("blob_container") == 13
  {
  }

  lemma PostgresqlServerWellFormed()
    ensures WellFormedModule(PostgresqlServer())
  {}

  lemma PostgresqlServerIndex()
    ensures PostgresqlServer().id == "postgresql_server" && IdIndex("postgresql_server") == 14
  {
  }

  lemma MariadbServerWellFormed()
    ensures WellFormedModule(MariadbServer())
  {}

  lemma MariadbServerIndex()
    ensures MariadbServer().id == "mariadb_server" && IdIndex("mariadb_server") == 15
  {
  }

  lemma CosmosdbSqlContainerWellFormed()
    ensures WellFormedModule(CosmosdbSqlContainer())
  {}

  lemma CosmosdbSqlContainerIndex()
    ensures CosmosdbSqlContainer().id == "cosmosdb_sql_container" && IdIndex("cosmosdb_sql_container") == 16
  {
  }

  lemma ManagedServiceIdentityWellFormed()
    ensures WellFormedModule(ManagedServiceIdentity())
  {}

  lemma ManagedServiceIdentityIndex()
    ensures ManagedServiceIdentity().id == "managed_service_identity" && IdIndex("managed_service_identity") == 17
  {
  }

  lemma RoleAssignmentWellFormed()
    ensures WellFormedModule(RoleAssignment())
  {}

  lemma RoleAssignmentIndex()
    ensures RoleAssignment().id == "role_assignment" && IdIndex("role_assignment") == 18
  {
  }

  lemma LogAnalyticsSolutionWellFormed()
    ensures WellFormedModule(LogAnalyticsSolution())
  {}

  lemma LogAnalyticsSolutionIndex()
    ensures LogAnalyticsSolution().id == "log_analytics_solution" && IdIndex("log_analytics_solution") == 19
  {
  }

  lemma AlertRuleMetricWellFormed()
    ensures WellFormedModule(AlertRuleMetric())
  {}

  lemma AlertRuleMetricIndex()
    ensures AlertRuleMetric().id == "alert_rule_metric" && IdIndex("alert_rule_metric") == 20
  {
  }

  lemma SecurityCenterSubscriptionPricingWellFormed()
    ensures WellFormedModule(SecurityCenterSubscriptionPricing())
  {}

  lemma SecurityCenterSubscriptionPricingIndex()
    ensures SecurityCenterSubscriptionPricing().id == "security_center_subscription_pricing" && IdIndex("security_center_subscription_pricing") == 21
  {
  }

  lemma KeyVaultWellFormed()
    ensures WellFormedModule(KeyVault())
  {}

  lemma KeyVaultIndex()
    ensures KeyVault().id == "key_vault" && IdIndex("key_vault") == 22
  {
  }

  lemma VirtualNetworkListed()
    ensures VirtualNetwork() in Modules()
  {
    hide VirtualNetwork, Subnet, RouteTable, NatGateway, VirtualMachine, VirtualMachineVmSizeOptions, ContainerGroup, ContainerRegistry, BatchAccount, ApplicationGateway, Firewall, VpnGateway, ExpressRouteCircuit, StorageShare, BlobContainer, PostgresqlServer, MariadbServer, CosmosdbSqlContainer, ManagedServiceIdentity, RoleAssignment, LogAnalyticsSolution, AlertRuleMetric, SecurityCenterSubscriptionPricing, KeyVault;
  }

  lemma SubnetListed()
    ensures Subnet() in Modules()
  {
    hide VirtualNetwork, Subnet, RouteTable, NatGateway, VirtualMachine, VirtualMachineVmSizeOptions, ContainerGroup, ContainerRegistry, BatchAccount, ApplicationGateway, Firewall, VpnGateway, ExpressRouteCircuit, StorageShare, BlobContainer, PostgresqlServer, MariadbServer, CosmosdbSqlContainer, ManagedServiceIdentity, RoleAssignment, LogAnalyticsSolution, AlertRuleMetric, SecurityCenterSubscriptionPricing, KeyVault;
  }

  lemma RouteTableListed()
    ensures RouteTable() in Modules()
  {
    hide VirtualNetwork, Subnet, RouteTable, NatGateway, VirtualMachine, VirtualMachineVmSizeOptions, ContainerGroup, ContainerRegistry, BatchAccount, ApplicationGateway, Firewall, VpnGateway, ExpressRouteCircuit, StorageShare, BlobContainer, PostgresqlServer, MariadbServer, CosmosdbSqlContainer, ManagedServiceIdentity, RoleAssignment, LogAnalyticsSolution, AlertRuleMetric, SecurityCenterSubscriptionPricing, KeyVault;
  }

  lemma NatGatewayListed()
    ensures NatGateway() in Modules()
  {
    hide VirtualNetwork, Subnet, RouteTable, NatGateway, VirtualMachine, VirtualMachineVmSizeOptions, ContainerGroup, ContainerRegistry, BatchAccount, ApplicationGateway, Firewall, VpnGateway, ExpressRouteCircuit, StorageShare, BlobContainer, PostgresqlServer, MariadbServer, CosmosdbSqlContainer, ManagedServiceIdentity, RoleAssignment, LogAnalyticsSolution, AlertRuleMetric, SecurityCenterSubscriptionPricing, KeyVault;
  }

  lemma VirtualMachineListed()
    ensures VirtualMachine() in Modules()
  {
    hide VirtualNetwork, Subnet, RouteTable, NatGateway, VirtualMachine, VirtualMachineVmSizeOptions, ContainerGroup, ContainerRegistry, BatchAccount, ApplicationGateway, Firewall, VpnGateway, ExpressRouteCircuit, StorageShare, BlobContainer, PostgresqlServer, MariadbServer, CosmosdbSqlContainer, ManagedServiceIdentity, RoleAssignment, LogAnalyticsSolution, AlertRuleMetric, SecurityCenterSubscriptionPricing, KeyVault;
  }

  lemma ContainerGroupListed()
    ensures ContainerGroup() in Modules()
  {
    hide VirtualNetwork, Subnet, RouteTable, NatGateway, VirtualMachine, VirtualMachineVmSizeOptions, ContainerGroup, ContainerRegistry, BatchAccount, ApplicationGateway, Firewall, VpnGateway, ExpressRouteCircuit, StorageShare, BlobContainer, PostgresqlServer, MariadbServer, CosmosdbSqlContainer, ManagedServiceIdentity, RoleAssignment, LogAnalyticsSolution, AlertRuleMetric, SecurityCenterSubscriptionPricing, KeyVault;
  }

  lemma ContainerRegistryListed()
    ensures ContainerRegistry() in Modules()
  {
    hide VirtualNetwork, Subnet, RouteTable, NatGateway, VirtualMachine, VirtualMachineVmSizeOptions, ContainerGroup, ContainerRegistry, BatchAccount, ApplicationGateway, Firewall, VpnGateway, ExpressRouteCircuit, StorageShare, BlobContainer, PostgresqlServer, MariadbServer, CosmosdbSqlContainer, ManagedServiceIdentity, RoleAssignment, LogAnalyticsSolution, AlertRuleMetric, SecurityCenterSubscriptionPricing, KeyVault;
  }

  lemma BatchAccountListed()
    ensures BatchAccount() in Modules()
  {
    hide VirtualNetwork, Subnet, RouteTable, NatGateway, VirtualMachine, VirtualMachineVmSizeOptions, ContainerGroup, ContainerRegistry, BatchAccount, ApplicationGateway, Firewall, VpnGateway, ExpressRouteCircuit, StorageShare, BlobContainer, PostgresqlServer, MariadbServer, CosmosdbSqlContainer, ManagedServiceIdentity, RoleAssignment, LogAnalyticsSolution, AlertRuleMetric, SecurityCenterSubscriptionPricing, KeyVault;
  }

  lemma ApplicationGatewayListed()
    ensures ApplicationGateway() in Modules()
  {
    hide VirtualNetwork, Subnet, RouteTable, NatGateway, VirtualMachine, VirtualMachineVmSizeOptions, ContainerGroup, ContainerRegistry, BatchAccount, ApplicationGateway, Firewall, VpnGateway, ExpressRouteCircuit, StorageShare, BlobContainer, PostgresqlServer, MariadbServer, CosmosdbSqlContainer, ManagedServiceIdentity, RoleAssignment, LogAnalyticsSolution, AlertRuleMetric, SecurityCenterSubscriptionPricing, KeyVault;
  }

  lemma FirewallListed()
    ensures Firewall() in Modules()
  {
    hide VirtualNetwork, Subnet, RouteTable, NatGateway, VirtualMachine, VirtualMachineVmSizeOptions, ContainerGroup, ContainerRegistry, BatchAccount, ApplicationGateway, Firewall, VpnGateway, ExpressRouteCircuit, StorageShare, BlobContainer, PostgresqlServer, MariadbServer, CosmosdbSqlContainer, ManagedServiceIdentity, RoleAssignment, LogAnalyticsSolution, AlertRuleMetric, SecurityCenterSubscriptionPricing, KeyVault;
  }

  lemma VpnGatewayListed()
    ensures VpnGateway() in Modules()
  {
    hide VirtualNetwork, Subnet, RouteTable, NatGateway, VirtualMachine, VirtualMachineVmSizeOptions, ContainerGroup, ContainerRegistry, BatchAccount, ApplicationGateway, Firewall, VpnGateway, ExpressRouteCircuit, StorageShare, BlobContainer, PostgresqlServer, MariadbServer, CosmosdbSqlContainer, ManagedServiceIdentity, RoleAssignment, LogAnalyticsSolution, AlertRuleMetric, SecurityCenterSubscriptionPricing, KeyVault;
  }

  lemma ExpressRouteCircuitListed()
    ensures ExpressRouteCircuit() in Modules()
  {
    hide VirtualNetwork, Subnet, RouteTable, NatGateway, VirtualMachine, VirtualMachineVmSizeOptions, ContainerGroup, ContainerRegistry, BatchAccount, ApplicationGateway, Firewall, VpnGateway, ExpressRouteCircuit, StorageShare, BlobContainer, PostgresqlServer, MariadbServer, CosmosdbSqlContainer, ManagedServiceIdentity, RoleAssignment, LogAnalyticsSolution, AlertRuleMetric, SecurityCenterSubscriptionPricing, KeyVault;
  }

  lemma StorageShareListed()
    ensures StorageShare() in Modules()
  {
    hide VirtualNetwork, Subnet, RouteTable, NatGateway, VirtualMachine, VirtualMachineVmSizeOptions, ContainerGroup, ContainerRegistry, BatchAccount, ApplicationGateway, Firewall, VpnGateway, ExpressRouteCircuit, StorageShare, BlobContainer, PostgresqlServer, MariadbServer, CosmosdbSqlContainer, ManagedServiceIdentity, RoleAssignment, LogAnalyticsSolution, AlertRuleMetric, SecurityCenterSubscriptionPricing, KeyVault;
  }

  lemma BlobContainerListed()
    ensures BlobContainer() in Modules()
  {
    hide VirtualNetwork, Subnet, RouteTable, NatGateway, VirtualMachine, VirtualMachineVmSizeOptions, ContainerGroup, ContainerRegistry, BatchAccount, ApplicationGateway, Firewall, VpnGateway, ExpressRouteCircuit, StorageShare, BlobContainer, PostgresqlServer, MariadbServer, CosmosdbSqlContainer, ManagedServiceIdentity, RoleAssignment, LogAnalyticsSolution, AlertRuleMetric, SecurityCenterSubscriptionPricing, KeyVault;
  }

  lemma PostgresqlServerListed()
    ensures PostgresqlServer() in Modules()
  {
    hide VirtualNetwork, Subnet, RouteTable, NatGateway, VirtualMachine, VirtualMachineVmSizeOptions, ContainerGroup, ContainerRegistry, BatchAccount, ApplicationGateway, Firewall, VpnGateway, ExpressRouteCircuit, StorageShare, BlobContainer, PostgresqlServer, MariadbServer, CosmosdbSqlContainer, ManagedServiceIdentity, RoleAssignment, LogAnalyticsSolution, AlertRuleMetric, SecurityCenterSubscriptionPricing, KeyVault;
  }

  lemma MariadbServerListed()
    ensures MariadbServer() in Modules()
  {
    hide VirtualNetwork, Subnet, RouteTable, NatGateway, VirtualMachine, VirtualMachineVmSizeOptions, ContainerGroup, ContainerRegistry, BatchAccount, ApplicationGateway, Firewall, VpnGateway, ExpressRouteCircuit, StorageShare, BlobContainer, PostgresqlServer, MariadbServer, CosmosdbSqlContainer, ManagedServiceIdentity, RoleAssignment, LogAnalyticsSolution, AlertRuleMetric, SecurityCenterSubscriptionPricing, KeyVault;
  }

  lemma CosmosdbSqlContainerListed()
    ensures CosmosdbSqlContainer() in Modules()
  {
    hide VirtualNetwork, Subnet, RouteTable, NatGateway, VirtualMachine, VirtualMachineVmSizeOptions, ContainerGroup, ContainerRegistry, BatchAccount, ApplicationGateway, Firewall, VpnGateway, ExpressRouteCircuit, StorageShare, BlobContainer, PostgresqlServer, MariadbServer, CosmosdbSqlContainer, ManagedServiceIdentity, RoleAssignment, LogAnalyticsSolution, AlertRuleMetric, SecurityCenterSubscriptionPricing, KeyVault;
  }

  lemma ManagedServiceIdentityListed()
    ensures ManagedServiceIdentity() in Modules()
  {
    hide VirtualNetwork, Subnet, RouteTable, NatGateway, VirtualMachine, VirtualMachineVmSizeOptions, ContainerGroup, ContainerRegistry, BatchAccount, ApplicationGateway, Firewall, VpnGateway, ExpressRouteCircuit, StorageShare, BlobContainer, PostgresqlServer, MariadbServer, CosmosdbSqlContainer, ManagedServiceIdentity, RoleAssignment, LogAnalyticsSolution, AlertRuleMetric, SecurityCenterSubscriptionPricing, KeyVault;
  }

  lemma RoleAssignmentListed()
    ensures RoleAssignment() in Modules()
  {
    hide VirtualNetwork, Subnet, RouteTable, NatGateway, VirtualMachine, VirtualMachineVmSizeOptions, ContainerGroup, ContainerRegistry, BatchAccount, ApplicationGateway, Firewall, VpnGateway, ExpressRouteCircuit, StorageShare, BlobContainer, PostgresqlServer, MariadbServer, CosmosdbSqlContainer, ManagedServiceIdentity, RoleAssignment, LogAnalyticsSolution, AlertRuleMetric, SecurityCenterSubscriptionPricing, KeyVault;
  }

  lemma LogAnalyticsSolutionListed()
    ensures LogAnalyticsSolution() in Modules()
  {
    hide VirtualNetwork, Subnet, RouteTable, NatGateway, VirtualMachine, VirtualMachineVmSizeOptions, ContainerGroup, ContainerRegistry, BatchAccount, ApplicationGateway, Firewall, VpnGateway, ExpressRouteCircuit, StorageShare, BlobContainer, PostgresqlServer, MariadbServer, CosmosdbSqlContainer, ManagedServiceIdentity, RoleAssignment, LogAnalyticsSolution, AlertRuleMetric, SecurityCenterSubscriptionPricing, KeyVault;
  }

  lemma AlertRuleMetricListed()
    ensures AlertRuleMetric() in Modules()
  {
    hide VirtualNetwork, Subnet, RouteTable, NatGateway, VirtualMachine, VirtualMachineVmSizeOptions, ContainerGroup, ContainerRegistry, BatchAccount, ApplicationGateway, Firewall, VpnGateway, ExpressRouteCircuit, StorageShare, BlobContainer, PostgresqlServer, MariadbServer, CosmosdbSqlContainer, ManagedServiceIdentity, RoleAssignment, LogAnalyticsSolution, AlertRuleMetric, SecurityCenterSubscriptionPricing, KeyVault;
  }

  lemma SecurityCenterSubscriptionPricingListed()
    ensures SecurityCenterSubscriptionPricing() in Modules()
  {
    hide VirtualNetwork, Subnet, RouteTable, NatGateway, VirtualMachine, VirtualMachineVmSizeOptions, ContainerGroup, ContainerRegistry, BatchAccount, ApplicationGateway, Firewall, VpnGateway, ExpressRouteCircuit, StorageShare, BlobContainer, PostgresqlServer, MariadbServer, CosmosdbSqlContainer, ManagedServiceIdentity, RoleAssignment, LogAnalyticsSolution, AlertRuleMetric, SecurityCenterSubscriptionPricing, KeyVault;
  }

  lemma KeyVaultListed()
    ensures KeyVault() in Modules()
  {
    hide VirtualNetwork, Subnet, RouteTable, NatGateway, VirtualMachine, VirtualMachineVmSizeOptions, ContainerGroup, ContainerRegistry, BatchAccount, ApplicationGateway, Firewall, VpnGateway, ExpressRouteCircuit, StorageShare, BlobContainer, PostgresqlServer, MariadbServer, CosmosdbSqlContainer, ManagedServiceIdentity, RoleAssignment, LogAnalyticsSolution, AlertRuleMetric, SecurityCenterSubscriptionPricing, KeyVault;
  }

  lemma Part0WellFormed()
    ensures forall m :: m in Part0() ==> WellFormedModule(m)
  {
    hide VirtualNetwork, Subnet, RouteTable, NatGateway, VirtualMachine, VirtualMachineVmSizeOptions, ContainerGroup, ContainerRegistry, BatchAccount, ApplicationGateway, Firewall, VpnGateway, ExpressRouteCircuit, StorageShare, BlobContainer, PostgresqlServer, MariadbServer, CosmosdbSqlContainer, ManagedServiceIdentity, RoleAssignment, LogAnalyticsSolution, AlertRuleMetric, SecurityCenterSubscriptionPricing, KeyVault;
    VirtualNetworkWellFormed();
    SubnetWellFormed();
    RouteTableWellFormed();
    NatGatewayWellFormed();
    VirtualMachineWellFormed();
    ContainerGroupWellFormed();
    ContainerRegistryWellFormed();
    BatchAccountWellFormed();
  }

  lemma Part0Index()
    ensures |Part0()| == 8
    ensures forall j :: 0 <= j < |Part0()| ==> IdIndex(Part0()[j].id) == 0 + j
  {
    hide VirtualNetwork, Subnet, RouteTable, NatGateway, VirtualMachine, VirtualMachineVmSizeOptions, ContainerGroup, ContainerRegistry, BatchAccount, ApplicationGateway, Firewall, VpnGateway, ExpressRouteCircuit, StorageShare, BlobContainer, PostgresqlServer, MariadbServer, CosmosdbSqlContainer, ManagedServiceIdentity, RoleAssignment, LogAnalyticsSolution, AlertRuleMetric, SecurityCenterSubscriptionPricing, KeyVault, IdIndex;
    VirtualNetworkIndex();
    SubnetIndex();
    RouteTableIndex();
    NatGatewayIndex();
    VirtualMachineIndex();
    ContainerGroupIndex();
    ContainerRegistryIndex();
    BatchAccountIndex();
  }

  lemma Part1WellFormed()
    ensures forall m :: m in Part1() ==> WellFormedModule(m)
  {
    hide VirtualNetwork, Subnet, RouteTable, NatGateway, VirtualMachine, VirtualMachineVmSizeOptions, ContainerGroup, ContainerRegistry, BatchAccount, ApplicationGateway, Firewall, VpnGateway, ExpressRouteCircuit, StorageShare, BlobContainer, PostgresqlServer, MariadbServer, CosmosdbSqlContainer, ManagedServiceIdentity, RoleAssignment, LogAnalyticsSolution, AlertRuleMetric, SecurityCenterSubscriptionPricing, KeyVault;
    ApplicationGatewayWellFormed();
    FirewallWellFormed();
    VpnGatewayWellFormed();
    ExpressRouteCircuitWellFormed();
    StorageShareWellFormed();
    BlobContainerWellFormed();
    PostgresqlServerWellFormed();
    MariadbServerWellFormed();
  }

  lemma Part1Index()
    ensures |Part1()| == 8
    ensures forall j :: 0 <= j < |Part1()| ==> IdIndex(Part1()[j].id) == 8 + j
  {
    hide VirtualNetwork, Subnet, RouteTable, NatGateway, VirtualMachine, VirtualMachineVmSizeOptions, ContainerGroup, ContainerRegistry, BatchAccount, ApplicationGateway, Firewall, VpnGateway, ExpressRouteCircuit, StorageShare, BlobContainer, PostgresqlServer, MariadbServer, CosmosdbSqlContainer, ManagedServiceIdentity, RoleAssignment, LogAnalyticsSolution, AlertRuleMetric, SecurityCenterSubscriptionPricing, KeyVault, IdIndex;
    ApplicationGatewayIndex();
    FirewallIndex();
    VpnGatewayIndex();
    ExpressRouteCircuitIndex();
    StorageShareIndex();
    BlobContainerIndex();
    PostgresqlServerIndex();
    MariadbServerIndex();
  }

  lemma Part2WellFormed()
    ensures forall m :: m in Part2() ==> WellFormedModule(m)
  {
    hide VirtualNetwork, Subnet, RouteTable, NatGateway, VirtualMachine, VirtualMachineVmSizeOptions, ContainerGroup, ContainerRegistry, BatchAccount, ApplicationGateway, Firewall, VpnGateway, ExpressRouteCircuit, StorageShare, BlobContainer, PostgresqlServer, MariadbServer, CosmosdbSqlContainer, ManagedServiceIdentity, RoleAssignment, LogAnalyticsSolution, AlertRuleMetric, SecurityCenterSubscriptionPricing, KeyVault;
    CosmosdbSqlContainerWellFormed();
    ManagedServiceIdentityWellFormed();
    RoleAssignmentWellFormed();
    LogAnalyticsSolutionWellFormed();
    AlertRuleMetricWellFormed();
    SecurityCenterSubscriptionPricingWellFormed();
    KeyVaultWellFormed();
  }

  lemma Part2Index()
    ensures |Part2()| == 7
    ensures forall j :: 0 <= j < |Part2()| ==> IdIndex(Part2()[j].id) == 16 + j
  {
    hide VirtualNetwork, Subnet, RouteTable, NatGateway, VirtualMachine, VirtualMachineVmSizeOptions, ContainerGroup, ContainerRegistry, BatchAccount, ApplicationGateway, Firewall, VpnGateway, ExpressRouteCircuit, StorageShare, BlobContainer, PostgresqlServer, MariadbServer, CosmosdbSqlContainer, ManagedServiceIdentity, RoleAssignment, LogAnalyticsSolution, AlertRuleMetric, SecurityCenterSubscriptionPricing, KeyVault, IdIndex;
    CosmosdbSqlContainerIndex();
    ManagedServiceIdentityIndex();
    RoleAssignmentIndex();
    LogAnalyticsSolutionIndex();
    AlertRuleMetricIndex();
    SecurityCenterSubscriptionPricingIndex();
    KeyVaultIndex();
  }

  /** Every catalog entry satisfies the schema rules. */
  lemma ModulesWellFormed()
    ensures forall m :: m in Modules() ==> WellFormedModule(m)
  {
    hide VirtualNetwork, Subnet, RouteTable, NatGateway, VirtualMachine, VirtualMachineVmSizeOptions, ContainerGroup, ContainerRegistry, BatchAccount, ApplicationGateway, Firewall, VpnGateway, ExpressRouteCircuit, StorageShare, BlobContainer, PostgresqlServer, MariadbServer, CosmosdbSqlContainer, ManagedServiceIdentity, RoleAssignment, LogAnalyticsSolution, AlertRuleMetric, SecurityCenterSubscriptionPricing, KeyVault;
    hide Part0, Part1, Part2;
    Part0WellFormed(); Part1WellFormed(); Part2WellFormed();
  }

  /** No two catalog entries share an id. */
  lemma IdsUnique()
    ensures IdsDistinct(Modules())
  {
    hide VirtualNetwork, Subnet, RouteTable, NatGateway, VirtualMachine, VirtualMachineVmSizeOptions, ContainerGroup, ContainerRegistry, BatchAccount, ApplicationGateway, Firewall, VpnGateway, ExpressRouteCircuit, StorageShare, BlobContainer, PostgresqlServer, MariadbServer, CosmosdbSqlContainer, ManagedServiceIdentity, RoleAssignment, LogAnalyticsSolution, AlertRuleMetric, SecurityCenterSubscriptionPricing, KeyVault, IdIndex;
    hide Part0, Part1, Part2;
    Part0Index(); Part1Index(); Part2Index();
    IdsDistinctByIndex(Modules(), IdIndex);
  }
}
