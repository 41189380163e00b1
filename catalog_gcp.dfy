// The GCP module catalog: 20 modules, in declaration order.
// The records of src/data/modules.ts:703-989, one record function per module.
module GcpCatalog {
  import opened Wrappers
  import opened ModuleTypes

  const Count: nat := 20

  /** src/data/modules.ts:707 */
  function ComputeNetwork(): TerraformModule
  {
    TerraformModule("compute_network", "VPC Network", "Google Cloud VPC network for network isolation", "networking", [
      ModuleParameter("network_name", StringParam, "VPC network name", true, Some("my-vpc-network"), None),
      ModuleParameter("auto_create_subnetworks", BooleanParam, "Auto create subnetworks", false, Some("false"), None),
      ModuleParameter("routing_mode", StringParam, "Routing mode", true, Some("REGIONAL"), Some(["REGIONAL", "GLOBAL"]))])
  }

  /** src/data/modules.ts:718 */
  function ComputeSubnetwork(): TerraformModule
  {
    TerraformModule("compute_subnetwork", "Subnetwork", "Google Cloud subnetwork within VPC", "networking", [
      ModuleParameter("subnetwork_name", StringParam, "Subnetwork name", true, Some("my-subnetwork"), None),
      ModuleParameter("ip_cidr_range", StringParam, "IP CIDR range for subnetwork", true, Some("10.0.1.0/24"), None),
      ModuleParameter("region", StringParam, "Region for subnetwork", true, Some("us-central1"), None),
      ModuleParameter("network", StringParam, "VPC network name", true, None, None)])
  }

  /** src/data/modules.ts:730 */
  function ComputeRoute(): TerraformModule
  {
    TerraformModule("compute_route", "Route", "Google Cloud custom route for traffic routing", "networking", [
      ModuleParameter("route_name", StringParam, "Route name", true, Some("my-route"), None),
      ModuleParameter("dest_range", StringParam, "Destination IP range", true, Some("0.0.0.0/0"), None),
      ModuleParameter("network", StringParam, "VPC network name", true, None, None),
      ModuleParameter("next_hop_gateway", StringParam, "Next hop gateway", false, Some("default-internet-gateway"), None)])
  }

  /** Allowed values of `compute_instance.machine_type`. */
  function ComputeInstanceMachineTypeOptions(): seq<string>
  {
    ["e2-micro", "e2-small", "e2-medium", "e2-standard-2", "e2-standard-4", "e2-standard-8", "e2-standard-16", "e2-standard-32"] +
    ["e2-highmem-2", "e2-highmem-4", "e2-highmem-8", "e2-highmem-16", "e2-highcpu-2", "e2-highcpu-4", "e2-highcpu-8", "e2-highcpu-16"] +
    ["e2-highcpu-32", "n1-standard-1", "n1-standard-2", "n1-standard-4", "n1-standard-8", "n1-standard-16", "n1-standard-32", "n1-standard-64"] +
    ["n1-standard-96", "n1-highmem-2", "n1-highmem-4", "n1-highmem-8", "n1-highmem-16", "n1-highmem-32", "n1-highmem-64", "n1-highmem-96"] +
    ["n1-highcpu-2", "n1-highcpu-4", "n1-highcpu-8", "n1-highcpu-16", "n1-highcpu-32", "n1-highcpu-64", "n1-highcpu-96", "n2-standard-2"] +
    ["n2-standard-4", "n2-standard-8", "n2-standard-16", "n2-standard-32", "n2-standard-48", "n2-standard-64", "n2-standard-80", "n2-standard-128"] +
    ["n2-highmem-2", "n2-highmem-4", "n2-highmem-8", "n2-highmem-16", "n2-highmem-32", "n2-highmem-48", "n2-highmem-64", "n2-highmem-80"] +
    ["n2-highmem-96", "n2-highmem-128", "n2-highcpu-2", "n2-highcpu-4", "n2-highcpu-8", "n2-highcpu-16", "n2-highcpu-32", "n2-highcpu-48"] +
    ["n2-highcpu-64", "n2-highcpu-80", "n2-highcpu-96", "c2-standard-4", "c2-standard-8", "c2-standard-16", "c2-standard-30", "c2-standard-60"] +
    ["m1-ultramem-40", "m1-ultramem-80", "m1-ultramem-160", "m1-megamem-96", "a2-highgpu-1g", "a2-highgpu-2g", "a2-highgpu-4g", "a2-highgpu-8g"] +
    ["a2-megagpu-16g", "t2d-standard-1", "t2d-standard-2", "t2d-standard-4", "t2d-standard-8", "t2d-standard-16", "t2d-standard-32", "t2d-standard-48"] +
    ["t2d-standard-60"]
  }

  /** src/data/modules.ts:743 */
  function ComputeInstance(): TerraformModule
  {
    TerraformModule("compute_instance", "Compute Instance", "Google Cloud Compute Engine virtual machine", "compute", [
      ModuleParameter("instance_name", StringParam, "Instance name", true, Some("my-instance"), None),
      ModuleParameter("machine_type", StringParam, "Machine type", true, Some("e2-medium"), Some(ComputeInstanceMachineTypeOptions())),
      ModuleParameter("zone", StringParam, "Zone for instance", true, Some("us-central1-a"), None),
      ModuleParameter("source_image", StringParam, "Source image", true, Some("debian-cloud/debian-11"), None),
      ModuleParameter("disk_size_gb", NumberParam, "Boot disk size in GB", true, Some("20"), None)])
  }

  /** Allowed values of `compute_instance_template.machine_type`. */
  function ComputeInstanceTemplateMachineTypeOptions(): seq<string>
  {
    ["e2-micro", "e2-small", "e2-medium", "e2-standard-2", "e2-standard-4", "e2-standard-8", "e2-standard-16", "e2-standard-32"] +
    ["e2-highmem-2", "e2-highmem-4", "e2-highmem-8", "e2-highmem-16", "e2-highcpu-2", "e2-highcpu-4", "e2-highcpu-8", "e2-highcpu-16"] +
    ["e2-highcpu-32", "n1-standard-1", "n1-standard-2", "n1-standard-4", "n1-standard-8", "n1-standard-16", "n1-standard-32", "n1-highmem-2"] +
    ["n1-highmem-4", "n1-highmem-8", "n1-highmem-16", "n1-highmem-32", "n1-highcpu-2", "n1-highcpu-4", "n1-highcpu-8", "n1-highcpu-16"] +
    ["n1-highcpu-32", "n2-standard-2", "n2-standard-4", "n2-standard-8", "n2-standard-16", "n2-standard-32", "n2-highmem-2", "n2-highmem-4"] +
    ["n2-highmem-8", "n2-highmem-16", "n2-highmem-32", "c2-standard-4", "c2-standard-8", "c2-standard-16", "c2-standard-30"]
  }

  /** src/data/modules.ts:785 */
  function ComputeInstanceTemplate(): TerraformModule
  {
    TerraformModule("compute_instance_template", "Compute Instance Template", "Google Cloud instance template for managed instance groups", "compute", [
      ModuleParameter("template_name", StringParam, "Name of instance template", true, Some("my-instance-template"), None),
      ModuleParameter("machine_type", StringParam, "Machine type", true, Some("e2-medium"), Some(ComputeInstanceTemplateMachineTypeOptions())),
      ModuleParameter("source_image", StringParam, "Source image", true, Some("debian-cloud/debian-11"), None),
      ModuleParameter("disk_size_gb", NumberParam, "Boot disk size in GB", true, Some("20"), None)])
  }

  /** src/data/modules.ts:818 */
  function AppEngineApplication(): TerraformModule
  {
    TerraformModule("app_engine_application", "App Engine Application", "Google App Engine application for serverless web apps", "compute", [
      ModuleParameter("project_id", StringParam, "GCP project ID", true, None, None),
      ModuleParameter("location_id", StringParam, "Location for App Engine app", true, Some("us-central"), Some(["us-central", "us-west2", "us-east1", "europe-west", "asia-northeast1"]))])
  }

  /** src/data/modules.ts:828 */
  function CloudRunService(): TerraformModule
  {
    TerraformModule("cloud_run_service", "Cloud Run Service", "Google Cloud Run service for containerized applications", "compute", [
      ModuleParameter("service_name", StringParam, "Name of Cloud Run service", true, Some("my-cloud-run-service"), None),
      ModuleParameter("location", StringParam, "Location for service", true, Some("us-central1"), Some(["us-central1", "us-east1", "us-west1", "europe-west1", "asia-east1"])),
      ModuleParameter("image", StringParam, "Container image URL", true, Some("gcr.io/cloudrun/hello"), None)])
  }

  /** src/data/modules.ts:841 */
  function ComputeForwardingRule(): TerraformModule
  {
    TerraformModule("compute_forwarding_rule", "Compute Forwarding Rule", "Google Cloud forwarding rule for load balancing", "networking", [
      ModuleParameter("forwarding_rule_name", StringParam, "Name of forwarding rule", true, Some("my-forwarding-rule"), None),
      ModuleParameter("ip_protocol", StringParam, "IP protocol", true, Some("TCP"), Some(["TCP", "UDP", "ESP", "AH", "SCTP", "ICMP"])),
      ModuleParameter("port_range", StringParam, "Port range", true, Some("80"), None)])
  }

  /** src/data/modules.ts:852 */
  function ComputeTargetHttpsProxy(): TerraformModule
  {
    TerraformModule("compute_target_https_proxy", "Target HTTPS Proxy", "Google Cloud target HTTPS proxy for load balancing", "networking", [
      ModuleParameter("proxy_name", StringParam, "Name of HTTPS proxy", true, Some("my-https-proxy"), None),
      ModuleParameter("url_map", StringParam, "URL map for the proxy", true, None, None)])
  }

  /** src/data/modules.ts:862 */
  function ComputeManagedSslCertificate(): TerraformModule
  {
    TerraformModule("compute_managed_ssl_certificate", "Managed SSL Certificate", "Google Cloud managed SSL certificate", "networking", [
      ModuleParameter("certificate_name", StringParam, "Name of SSL certificate", true, Some("my-ssl-cert"), None),
      ModuleParameter("domains", ListParam, "List of domains for certificate", true, Some("example.com,www.example.com"), None)])
  }

  /** src/data/modules.ts:874 */
  function StorageBucketAcl(): TerraformModule
  {
    TerraformModule("storage_bucket_acl", "Storage Bucket ACL", "Google Cloud Storage bucket access control list", "storage", [
      ModuleParameter("bucket_name", StringParam, "Name of storage bucket", true, None, None),
      ModuleParameter("role_entity", ListParam, "Role entity pairs", true, Some("READER:allUsers"), None)])
  }

  /** src/data/modules.ts:884 */
  function StorageBucketObject(): TerraformModule
  {
    TerraformModule("storage_bucket_object", "Storage Bucket Object", "Google Cloud Storage bucket object", "storage", [
      ModuleParameter("object_name", StringParam, "Name of storage object", true, Some("my-object"), None),
      ModuleParameter("bucket_name", StringParam, "Name of storage bucket", true, None, None),
      ModuleParameter("source", StringParam, "Path to source file", true, None, None)])
  }

  /** src/data/modules.ts:897 */
  function BigqueryDataset(): TerraformModule
  {
    TerraformModule("bigquery_dataset", "BigQuery Dataset", "Google BigQuery dataset for analytics", "database", [
      ModuleParameter("dataset_id", StringParam, "Dataset ID", true, Some("my_dataset"), None),
      ModuleParameter("friendly_name", StringParam, "Friendly name for dataset", false, Some("My Dataset"), None),
      ModuleParameter("description", StringParam, "Dataset description", false, Some("My BigQuery dataset"), None),
      ModuleParameter("location", StringParam, "Dataset location", true, Some("US"), Some(["US", "EU", "asia-southeast1", "us-central1", "us-east1"]))])
  }

  /** src/data/modules.ts:909 */
  function BigtableInstance(): TerraformModule
  {
    TerraformModule("bigtable_instance", "Bigtable Instance", "Google Cloud Bigtable instance for NoSQL database", "database", [
      ModuleParameter("instance_name", StringParam, "Name of Bigtable instance", true, Some("my-bigtable-instance"), None),
      ModuleParameter("cluster_id", StringParam, "Cluster ID", true, Some("my-bigtable-cluster"), None),
      ModuleParameter("zone", StringParam, "Zone for cluster", true, Some("us-central1-b"), Some(["us-central1-a", "us-central1-b", "us-central1-c", "us-east1-a", "us-west1-a"])),
      ModuleParameter("num_nodes", NumberParam, "Number of nodes", true, Some("1"), None)])
  }

  /** src/data/modules.ts:923 */
  function IamPolicy(): TerraformModule
  {
    TerraformModule("iam_policy", "IAM Policy", "Google Cloud IAM policy for access control", "identity", [
      ModuleParameter("policy_data", StringParam, "JSON policy data", true, None, None)])
  }

  /** src/data/modules.ts:932 */
  function IamRole(): TerraformModule
  {
    TerraformModule("iam_role", "IAM Custom Role", "Google Cloud custom IAM role", "identity", [
      ModuleParameter("role_id", StringParam, "Role ID", true, Some("my_custom_role"), None),
      ModuleParameter("title", StringParam, "Role title", true, Some("My Custom Role"), None),
      ModuleParameter("description", StringParam, "Role description", false, Some("Custom role for my project"), None),
      ModuleParameter("permissions", ListParam, "List of permissions", true, Some("compute.instances.get,compute.instances.list"), None)])
  }

  /** src/data/modules.ts:946 */
  function MonitoringDashboard(): TerraformModule
  {
    TerraformModule("monitoring_dashboard", "Monitoring Dashboard", "Google Cloud Monitoring dashboard", "monitoring", [
      ModuleParameter("dashboard_name", StringParam, "Name of monitoring dashboard", true, Some("my-dashboard"), None),
      ModuleParameter("display_name", StringParam, "Display name for dashboard", true, Some("My Monitoring Dashboard"), None)])
  }

  /** src/data/modules.ts:956 */
  function LoggingProjectSink(): TerraformModule
  {
    TerraformModule("logging_project_sink", "Logging Project Sink", "Google Cloud Logging sink for exporting logs", "monitoring", [
      ModuleParameter("sink_name", StringParam, "Name of logging sink", true, Some("my-log-sink"), None),
      ModuleParameter("destination", StringParam, "Sink destination", true, None, None),
      ModuleParameter("filter", StringParam, "Log filter", false, Some("severity >= ERROR"), None)])
  }

  /** src/data/modules.ts:969 */
  function KmsKeyRing(): TerraformModule
  {
    TerraformModule("kms_key_ring", "KMS Key Ring", "Google Cloud KMS key ring for encryption keys", "security", [
      ModuleParameter("key_ring_name", StringParam, "Name of key ring", true, Some("my-key-ring"), None),
      ModuleParameter("location", StringParam, "Location for key ring", true, Some("global"), Some(["global", "us-central1", "us-east1", "us-west1", "europe-west1", "asia-east1"]))])
  }

  /** src/data/modules.ts:979 */
  function KmsCryptoKey(): TerraformModule
  {
    TerraformModule("kms_crypto_key", "KMS Crypto Key", "Google Cloud KMS cryptographic key", "security", [
      ModuleParameter("crypto_key_name", StringParam, "Name of crypto key", true, Some("my-crypto-key"), None),
      ModuleParameter("key_ring", StringParam, "Key ring name", true, None, None),
      ModuleParameter("purpose", StringParam, "Key purpose", true, Some("ENCRYPT_DECRYPT"), Some(["ENCRYPT_DECRYPT", "ASYMMETRIC_SIGN", "ASYMMETRIC_DECRYPT"]))])
  }

  /** Entries 0 to 7 of the catalog. */
  function Part0(): seq<TerraformModule>
  {
    [ComputeNetwork(), ComputeSubnetwork(), ComputeRoute(), ComputeInstance(),
     ComputeInstanceTemplate(), AppEngineApplication(), CloudRunService(), ComputeForwardingRule()]
  }

  /** Entries 8 to 15 of the catalog. */
  function Part1(): seq<TerraformModule>
  {
    [ComputeTargetHttpsProxy(), ComputeManagedSslCertificate(), StorageBucketAcl(), StorageBucketObject(),
     BigqueryDataset(), BigtableInstance(), IamPolicy(), IamRole()]
  }

  /** Entries 16 to 19 of the catalog. */
  function Part2(): seq<TerraformModule>
  {
    [MonitoringDashboard(), LoggingProjectSink(), KmsKeyRing(), KmsCryptoKey()]
  }

  /** The catalog, in declaration order. */
  function Modules(): seq<TerraformModule>
  {
    Part0() + Part1() + Part2()
  }

  /** Position of the module with id `id`, or -1 when the catalog has none. */
  function IdIndex(id: string): int
  {
    if |id| == 8 then (if id == "iam_role" then 15 else -1)
    else if |id| == 10 then (if id == "iam_policy" then 14 else -1)
    else if |id| == 12 then (if id == "kms_key_ring" then 18 else -1)
    else if |id| == 13 then (if id == "compute_route" then 2 else -1)
    else if |id| == 14 then (if id == "kms_crypto_key" then 19 else -1)
    else if |id| == 15 then (if id == "compute_network" then 0 else -1)
    else if |id| == 16 then (if id == "compute_instance" then 3 else if id == "bigquery_dataset" then 12 else -1)
    else if |id| == 17 then (if id == "cloud_run_service" then 6 else if id == "bigtable_instance" then 13 else -1)
    else if |id| == 18 then (if id == "compute_subnetwork" then 1 else if id == "storage_bucket_acl" then 10 else -1)
    else if |id| == 20 then (if id == "monitoring_dashboard" then 16 else if id == "logging_project_sink" then 17 else -1)
    else if |id| == 21 then (if id == "storage_bucket_object" then 11 else -1)
    else if |id| == 22 then (if id == "app_engine_application" then 5 else -1)
    else if |id| == 23 then (if id == "compute_forwarding_rule" then 7 else -1)
    else if |id| == 25 then (if id == "compute_instance_template" then 4 else -1)
    else if |id| == 26 then (if id == "compute_target_https_proxy" then 8 else -1)
    else if |id| == 31 then (if id == "compute_managed_ssl_certificate" then 9 else -1)
    else -1
  }

  lemma ComputeInstanceMachineTypeOptionsHasDefault()
    ensures "e2-medium" in ComputeInstanceMachineTypeOptions()
  {
    assert ComputeInstanceMachineTypeOptions()[2] == "e2-medium";
  }

  lemma ComputeInstanceTemplateMachineTypeOptionsHasDefault()
    ensures "e2-medium" in ComputeInstanceTemplateMachineTypeOptions()
  {
    assert ComputeInstanceTemplateMachineTypeOptions()[2] == "e2-medium";
  }

  lemma ComputeNetworkWellFormed()
    ensures WellFormedModule(ComputeNetwork())
  {}

  lemma ComputeNetworkIndex()
    ensures ComputeNetwork().id == "compute_network" && IdIndex("compute_network") == 0
  {
  }

  lemma ComputeSubnetworkWellFormed()
    ensures WellFormedModule(ComputeSubnetwork())
  {}

  lemma ComputeSubnetworkIndex()
    ensures ComputeSubnetwork().id == "compute_subnetwork" && IdIndex("compute_subnetwork") == 1
  {
  }

  lemma ComputeRouteWellFormed()
    ensures WellFormedModule(ComputeRoute())
  {}

  lemma ComputeRouteIndex()
    ensures ComputeRoute().id == "compute_route" && IdIndex("compute_route") == 2
  {
  }

  lemma ComputeInstanceWellFormed()
    ensures WellFormedModule(ComputeInstance())
  {
    hide ComputeInstanceMachineTypeOptions;
    ComputeInstanceMachineTypeOptionsHasDefault();
  }

  lemma ComputeInstanceIndex()
    ensures ComputeInstance().id == "compute_instance" && IdIndex("compute_instance") == 3
  {
  }

  lemma ComputeInstanceTemplateWellFormed()
    ensures WellFormedModule(ComputeInstanceTemplate())
  {
    hide ComputeInstanceTemplateMachineTypeOptions;
    ComputeInstanceTemplateMachineTypeOptionsHasDefault();
  }

  lemma ComputeInstanceTemplateIndex()
    ensures ComputeInstanceTemplate().id == "compute_instance_template" && IdIndex("compute_instance_template") == 4
  {
  }

  lemma AppEngineApplicationWellFormed()
    ensures WellFormedModule(AppEngineApplication())
  {}

  lemma AppEngineApplicationIndex()
    ensures AppEngineApplication().id == "app_engine_application" && IdIndex("app_engine_application") == 5
  {
  }

  lemma CloudRunServiceWellFormed()
    ensures WellFormedModule(CloudRunService())
  {}

  lemma CloudRunServiceIndex()
    ensures CloudRunService().id == "cloud_run_service" && IdIndex("cloud_run_service") == 6
  {
  }

  lemma ComputeForwardingRuleWellFormed()
    ensures WellFormedModule(ComputeForwardingRule())
  {}

  lemma ComputeForwardingRuleIndex()
    ensures ComputeForwardingRule().id == "compute_forwarding_rule" && IdIndex("compute_forwarding_rule") == 7
  {
  }

  lemma ComputeTargetHttpsProxyWellFormed()
    ensures WellFormedModule(ComputeTargetHttpsProxy())
  {}

  lemma ComputeTargetHttpsProxyIndex()
    ensures ComputeTargetHttpsProxy().id == "compute_target_https_proxy" && IdIndex("compute_target_https_proxy") == 8
  {
  }

  lemma ComputeManagedSslCertificateWellFormed()
    ensures WellFormedModule(ComputeManagedSslCertificate())
  {}

  lemma ComputeManagedSslCertificateIndex()
    ensures ComputeManagedSslCertificate().id == "compute_managed_ssl_certificate" && IdIndex("compute_managed_ssl_certificate") == 9
  {
  }

  lemma StorageBucketAclWellFormed()
    ensures WellFormedModule(StorageBucketAcl())
  {}

  lemma StorageBucketAclIndex()
    ensures StorageBucketAcl().id == "storage_bucket_acl" && IdIndex("storage_bucket_acl") == 10
  {
  }

  lemma StorageBucketObjectWellFormed()
    ensures WellFormedModule(StorageBucketObject())
  {}

  lemma StorageBucketObjectIndex()
    ensures StorageBucketObject().id == "storage_bucket_object" && IdIndex("storage_bucket_object") == 11
  {
  }

  lemma BigqueryDatasetWellFormed()
    ensures WellFormedModule(BigqueryDataset())
  {}

  lemma BigqueryDatasetIndex()
    ensures BigqueryDataset().id == "bigquery_dataset" && IdIndex("bigquery_dataset") == 12
  {
  }

  lemma BigtableInstanceWellFormed()
    ensures WellFormedModule(BigtableInstance())
  {}

  lemma BigtableInstanceIndex()
    ensures BigtableInstance().id == "bigtable_instance" && IdIndex("bigtable_instance") == 13
  {
  }

  lemma IamPolicyWellFormed()
    ensures WellFormedModule(IamPolicy())
  {}

  lemma IamPolicyIndex()
    ensures IamPolicy().id == "iam_policy" && IdIndex("iam_policy") == 14
  {
  }

  lemma IamRoleWellFormed()
    ensures WellFormedModule(IamRole())
  {}

  lemma IamRoleIndex()
    ensures IamRole().id == "iam_role" && IdIndex("iam_role") == 15
  {
  }

  lemma MonitoringDashboardWellFormed()
    ensures WellFormedModule(MonitoringDashboard())
  {}

  lemma MonitoringDashboardIndex()
    ensures MonitoringDashboard().id == "monitoring_dashboard" && IdIndex("monitoring_dashboard") == 16
  {
  }

  lemma LoggingProjectSinkWellFormed()
    ensures WellFormedModule(LoggingProjectSink())
  {}

  lemma LoggingProjectSinkIndex()
    ensures LoggingProjectSink().id == "logging_project_sink" && IdIndex("logging_project_sink") == 17
  {
  }

  lemma KmsKeyRingWellFormed()
    ensures WellFormedModule(KmsKeyRing())
  {}

  lemma KmsKeyRingIndex()
    ensures KmsKeyRing().id == "kms_key_ring" && IdIndex("kms_key_ring") == 18
  {
  }

  lemma KmsCryptoKeyWellFormed()
    ensures WellFormedModule(KmsCryptoKey())
  {}

  lemma KmsCryptoKeyIndex()
    ensures KmsCryptoKey().id == "kms_crypto_key" && IdIndex("kms_crypto_key") == 19
  {
  }

  lemma ComputeNetworkListed()
    ensures ComputeNetwork() in Modules()
  {
    hide ComputeNetwork, ComputeSubnetwork, ComputeRoute, ComputeInstance, ComputeInstanceMachineTypeOptions, ComputeInstanceTemplate, ComputeInstanceTemplateMachineTypeOptions, AppEngineApplication, CloudRunService, ComputeForwardingRule, ComputeTargetHttpsProxy, ComputeManagedSslCertificate, StorageBucketAcl, StorageBucketObject, BigqueryDataset, BigtableInstance, IamPolicy, IamRole, MonitoringDashboard, LoggingProjectSink, KmsKeyRing, KmsCryptoKey;
  }

  lemma ComputeSubnetworkListed()
    ensures ComputeSubnetwork() in Modules()
  {
    hide ComputeNetwork, ComputeSubnetwork, ComputeRoute, ComputeInstance, ComputeInstanceMachineTypeOptions, ComputeInstanceTemplate, ComputeInstanceTemplateMachineTypeOptions, AppEngineApplication, CloudRunService, ComputeForwardingRule, ComputeTargetHttpsProxy, ComputeManagedSslCertificate, StorageBucketAcl, StorageBucketObject, BigqueryDataset, BigtableInstance, IamPolicy, IamRole, MonitoringDashboard, LoggingProjectSink, KmsKeyRing, KmsCryptoKey;
  }

  lemma ComputeRouteListed()
    ensures ComputeRoute() in Modules()
  {
    hide ComputeNetwork, ComputeSubnetwork, ComputeRoute, ComputeInstance, ComputeInstanceMachineTypeOptions, ComputeInstanceTemplate, ComputeInstanceTemplateMachineTypeOptions, AppEngineApplication, CloudRunService, ComputeForwardingRule, ComputeTargetHttpsProxy, ComputeManagedSslCertificate, StorageBucketAcl, StorageBucketObject, BigqueryDataset, BigtableInstance, IamPolicy, IamRole, MonitoringDashboard, LoggingProjectSink, KmsKeyRing, KmsCryptoKey;
  }

  lemma ComputeInstanceListed()
    ensures ComputeInstance() in Modules()
  {
    hide ComputeNetwork, ComputeSubnetwork, ComputeRoute, ComputeInstance, ComputeInstanceMachineTypeOptions, ComputeInstanceTemplate, ComputeInstanceTemplateMachineTypeOptions, AppEngineApplication, CloudRunService, ComputeForwardingRule, ComputeTargetHttpsProxy, ComputeManagedSslCertificate, StorageBucketAcl, StorageBucketObject, BigqueryDataset, BigtableInstance, IamPolicy, IamRole, MonitoringDashboard, LoggingProjectSink, KmsKeyRing, KmsCryptoKey;
  }

  lemma ComputeInstanceTemplateListed()
    ensures ComputeInstanceTemplate() in Modules()
  {
    hide ComputeNetwork, ComputeSubnetwork, ComputeRoute, ComputeInstance, ComputeInstanceMachineTypeOptions, ComputeInstanceTemplate, ComputeInstanceTemplateMachineTypeOptions, AppEngineApplication, CloudRunService, ComputeForwardingRule, ComputeTargetHttpsProxy, ComputeManagedSslCertificate, StorageBucketAcl, StorageBucketObject, BigqueryDataset, BigtableInstance, IamPolicy, IamRole, MonitoringDashboard, LoggingProjectSink, KmsKeyRing, KmsCryptoKey;
  }

  lemma AppEngineApplicationListed()
    ensures AppEngineApplication() in Modules()
  {
    hide ComputeNetwork, ComputeSubnetwork, ComputeRoute, ComputeInstance, ComputeInstanceMachineTypeOptions, ComputeInstanceTemplate, ComputeInstanceTemplateMachineTypeOptions, AppEngineApplication, CloudRunService, ComputeForwardingRule, ComputeTargetHttpsProxy, ComputeManagedSslCertificate, StorageBucketAcl, StorageBucketObject, BigqueryDataset, BigtableInstance, IamPolicy, IamRole, MonitoringDashboard, LoggingProjectSink, KmsKeyRing, KmsCryptoKey;
  }

  lemma CloudRunServiceListed()
    ensures CloudRunService() in Modules()
  {
    hide ComputeNetwork, ComputeSubnetwork, ComputeRoute, ComputeInstance, ComputeInstanceMachineTypeOptions, ComputeInstanceTemplate, ComputeInstanceTemplateMachineTypeOptions, AppEngineApplication, CloudRunService, ComputeForwardingRule, ComputeTargetHttpsProxy, ComputeManagedSslCertificate, StorageBucketAcl, StorageBucketObject, BigqueryDataset, BigtableInstance, IamPolicy, IamRole, MonitoringDashboard, LoggingProjectSink, KmsKeyRing, KmsCryptoKey;
  }

  lemma ComputeForwardingRuleListed()
    ensures ComputeForwardingRule() in Modules()
  {
    hide ComputeNetwork, ComputeSubnetwork, ComputeRoute, ComputeInstance, ComputeInstanceMachineTypeOptions, ComputeInstanceTemplate, ComputeInstanceTemplateMachineTypeOptions, AppEngineApplication, CloudRunService, ComputeForwardingRule, ComputeTargetHttpsProxy, ComputeManagedSslCertificate, StorageBucketAcl, StorageBucketObject, BigqueryDataset, BigtableInstance, IamPolicy, IamRole, MonitoringDashboard, LoggingProjectSink, KmsKeyRing, KmsCryptoKey;
  }

  lemma ComputeTargetHttpsProxyListed()
    ensures ComputeTargetHttpsProxy() in Modules()
  {
    hide ComputeNetwork, ComputeSubnetwork, ComputeRoute, ComputeInstance, ComputeInstanceMachineTypeOptions, ComputeInstanceTemplate, ComputeInstanceTemplateMachineTypeOptions, AppEngineApplication, CloudRunService, ComputeForwardingRule, ComputeTargetHttpsProxy, ComputeManagedSslCertificate, StorageBucketAcl, StorageBucketObject, BigqueryDataset, BigtableInstance, IamPolicy, IamRole, MonitoringDashboard, LoggingProjectSink, KmsKeyRing, KmsCryptoKey;
  }

  lemma ComputeManagedSslCertificateListed()
    ensures ComputeManagedSslCertificate() in Modules()
  {
    hide ComputeNetwork, ComputeSubnetwork, ComputeRoute, ComputeInstance, ComputeInstanceMachineTypeOptions, ComputeInstanceTemplate, ComputeInstanceTemplateMachineTypeOptions, AppEngineApplication, CloudRunService, ComputeForwardingRule, ComputeTargetHttpsProxy, ComputeManagedSslCertificate, StorageBucketAcl, StorageBucketObject, BigqueryDataset, BigtableInstance, IamPolicy, IamRole, MonitoringDashboard, LoggingProjectSink, KmsKeyRing, KmsCryptoKey;
  }

  lemma StorageBucketAclListed()
    ensures StorageBucketAcl() in Modules()
  {
    hide ComputeNetwork, ComputeSubnetwork, ComputeRoute, ComputeInstance, ComputeInstanceMachineTypeOptions, ComputeInstanceTemplate, ComputeInstanceTemplateMachineTypeOptions, AppEngineApplication, CloudRunService, ComputeForwardingRule, ComputeTargetHttpsProxy, ComputeManagedSslCertificate, StorageBucketAcl, StorageBucketObject, BigqueryDataset, BigtableInstance, IamPolicy, IamRole, MonitoringDashboard, LoggingProjectSink, KmsKeyRing, KmsCryptoKey;
  }

  lemma StorageBucketObjectListed()
    ensures StorageBucketObject() in Modules()
  {
    hide ComputeNetwork, ComputeSubnetwork, ComputeRoute, ComputeInstance, ComputeInstanceMachineTypeOptions, ComputeInstanceTemplate, ComputeInstanceTemplateMachineTypeOptions, AppEngineApplication, CloudRunService, ComputeForwardingRule, ComputeTargetHttpsProxy, ComputeManagedSslCertificate, StorageBucketAcl, StorageBucketObject, BigqueryDataset, BigtableInstance, IamPolicy, IamRole, MonitoringDashboard, LoggingProjectSink, KmsKeyRing, KmsCryptoKey;
  }

  lemma BigqueryDatasetListed()
    ensures BigqueryDataset() in Modules()
  {
    hide ComputeNetwork, ComputeSubnetwork, ComputeRoute, ComputeInstance, ComputeInstanceMachineTypeOptions, ComputeInstanceTemplate, ComputeInstanceTemplateMachineTypeOptions, AppEngineApplication, CloudRunService, ComputeForwardingRule, ComputeTargetHttpsProxy, ComputeManagedSslCertificate, StorageBucketAcl, StorageBucketObject, BigqueryDataset, BigtableInstance, IamPolicy, IamRole, MonitoringDashboard, LoggingProjectSink, KmsKeyRing, KmsCryptoKey;
  }

  lemma BigtableInstanceListed()
    ensures BigtableInstance() in Modules()
  {
    hide ComputeNetwork, ComputeSubnetwork, ComputeRoute, ComputeInstance, ComputeInstanceMachineTypeOptions, ComputeInstanceTemplate, ComputeInstanceTemplateMachineTypeOptions, AppEngineApplication, CloudRunService, ComputeForwardingRule, ComputeTargetHttpsProxy, ComputeManagedSslCertificate, StorageBucketAcl, StorageBucketObject, BigqueryDataset, BigtableInstance, IamPolicy, IamRole, MonitoringDashboard, LoggingProjectSink, KmsKeyRing, KmsCryptoKey;
  }

  lemma IamPolicyListed()
    ensures IamPolicy() in Modules()
  {
    hide ComputeNetwork, ComputeSubnetwork, ComputeRoute, ComputeInstance, ComputeInstanceMachineTypeOptions, ComputeInstanceTemplate, ComputeInstanceTemplateMachineTypeOptions, AppEngineApplication, CloudRunService, ComputeForwardingRule, ComputeTargetHttpsProxy, ComputeManagedSslCertificate, StorageBucketAcl, StorageBucketObject, BigqueryDataset, BigtableInstance, IamPolicy, IamRole, MonitoringDashboard, LoggingProjectSink, KmsKeyRing, KmsCryptoKey;
  }

  lemma IamRoleListed()
    ensures IamRole() in Modules()
  {
    hide ComputeNetwork, ComputeSubnetwork, ComputeRoute, ComputeInstance, ComputeInstanceMachineTypeOptions, ComputeInstanceTemplate, ComputeInstanceTemplateMachineTypeOptions, AppEngineApplication, CloudRunService, ComputeForwardingRule, ComputeTargetHttpsProxy, ComputeManagedSslCertificate, StorageBucketAcl, StorageBucketObject, BigqueryDataset, BigtableInstance, IamPolicy, IamRole, MonitoringDashboard, LoggingProjectSink, KmsKeyRing, KmsCryptoKey;
  }

  lemma MonitoringDashboardListed()
    ensures MonitoringDashboard() in Modules()
  {
    hide ComputeNetwork, ComputeSubnetwork, ComputeRoute, ComputeInstance, ComputeInstanceMachineTypeOptions, ComputeInstanceTemplate, ComputeInstanceTemplateMachineTypeOptions, AppEngineApplication, CloudRunService, ComputeForwardingRule, ComputeTargetHttpsProxy, ComputeManagedSslCertificate, StorageBucketAcl, StorageBucketObject, BigqueryDataset, BigtableInstance, IamPolicy, IamRole, MonitoringDashboard, LoggingProjectSink, KmsKeyRing, KmsCryptoKey;
  }

  lemma LoggingProjectSinkListed()
    ensures LoggingProjectSink() in Modules()
  {
    hide ComputeNetwork, ComputeSubnetwork, ComputeRoute, ComputeInstance, ComputeInstanceMachineTypeOptions, ComputeInstanceTemplate, ComputeInstanceTemplateMachineTypeOptions, AppEngineApplication, CloudRunService, ComputeForwardingRule, ComputeTargetHttpsProxy, ComputeManagedSslCertificate, StorageBucketAcl, StorageBucketObject, BigqueryDataset, BigtableInstance, IamPolicy, IamRole, MonitoringDashboard, LoggingProjectSink, KmsKeyRing, KmsCryptoKey;
  }

  lemma KmsKeyRingListed()
    ensures KmsKeyRing() in Modules()
  {
    hide ComputeNetwork, ComputeSubnetwork, ComputeRoute, ComputeInstance, ComputeInstanceMachineTypeOptions, ComputeInstanceTemplate, ComputeInstanceTemplateMachineTypeOptions, AppEngineApplication, CloudRunService, ComputeForwardingRule, ComputeTargetHttpsProxy, ComputeManagedSslCertificate, StorageBucketAcl, StorageBucketObject, BigqueryDataset, BigtableInstance, IamPolicy, IamRole, MonitoringDashboard, LoggingProjectSink, KmsKeyRing, KmsCryptoKey;
  }

  lemma KmsCryptoKeyListed()
    ensures KmsCryptoKey() in Modules()
  {
    hide ComputeNetwork, ComputeSubnetwork, ComputeRoute, ComputeInstance, ComputeInstanceMachineTypeOptions, ComputeInstanceTemplate, ComputeInstanceTemplateMachineTypeOptions, AppEngineApplication, CloudRunService, ComputeForwardingRule, ComputeTargetHttpsProxy, ComputeManagedSslCertificate, StorageBucketAcl, StorageBucketObject, BigqueryDataset, BigtableInstance, IamPolicy, IamRole, MonitoringDashboard, LoggingProjectSink, KmsKeyRing, KmsCryptoKey;
  }

  lemma Part0WellFormed()
    ensures forall m :: m in Part0() ==> WellFormedModule(m)
  {
    hide ComputeNetwork, ComputeSubnetwork, ComputeRoute, ComputeInstance, ComputeInstanceMachineTypeOptions, ComputeInstanceTemplate, ComputeInstanceTemplateMachineTypeOptions, AppEngineApplication, CloudRunService, ComputeForwardingRule, ComputeTargetHttpsProxy, ComputeManagedSslCertificate, StorageBucketAcl, StorageBucketObject, BigqueryDataset, BigtableInstance, IamPolicy, IamRole, MonitoringDashboard, LoggingProjectSink, KmsKeyRing, KmsCryptoKey;
    ComputeNetworkWellFormed();
    ComputeSubnetworkWellFormed();
    ComputeRouteWellFormed();
    ComputeInstanceWellFormed();
    ComputeInstanceTemplateWellFormed();
    AppEngineApplicationWellFormed();
    CloudRunServiceWellFormed();
    ComputeForwardingRuleWellFormed();
  }

  lemma Part0Index()
    ensures |Part0()| == 8
    ensures forall j :: 0 <= j < |Part0()| ==> IdIndex(Part0()[j].id) == 0 + j
  {
    hide ComputeNetwork, ComputeSubnetwork, ComputeRoute, ComputeInstance, ComputeInstanceMachineTypeOptions, ComputeInstanceTemplate, ComputeInstanceTemplateMachineTypeOptions, AppEngineApplication, CloudRunService, ComputeForwardingRule, ComputeTargetHttpsProxy, ComputeManagedSslCertificate, StorageBucketAcl, StorageBucketObject, BigqueryDataset, BigtableInstance, IamPolicy, IamRole, MonitoringDashboard, LoggingProjectSink, KmsKeyRing, KmsCryptoKey, IdIndex;
    ComputeNetworkIndex();
    ComputeSubnetworkIndex();
    ComputeRouteIndex();
    ComputeInstanceIndex();
    ComputeInstanceTemplateIndex();
    AppEngineApplicationIndex();
    CloudRunServiceIndex();
    ComputeForwardingRuleIndex();
  }

  lemma Part1WellFormed()
    ensures forall m :: m in Part1() ==> WellFormedModule(m)
  {
    hide ComputeNetwork, ComputeSubnetwork, ComputeRoute, ComputeInstance, ComputeInstanceMachineTypeOptions, ComputeInstanceTemplate, ComputeInstanceTemplateMachineTypeOptions, AppEngineApplication, CloudRunService, ComputeForwardingRule, ComputeTargetHttpsProxy, ComputeManagedSslCertificate, StorageBucketAcl, StorageBucketObject, BigqueryDataset, BigtableInstance, IamPolicy, IamRole, MonitoringDashboard, LoggingProjectSink, KmsKeyRing, KmsCryptoKey;
    ComputeTargetHttpsProxyWellFormed();
    ComputeManagedSslCertificateWellFormed();
    StorageBucketAclWellFormed();
    StorageBucketObjectWellFormed();
    BigqueryDatasetWellFormed();
    BigtableInstanceWellFormed();
    IamPolicyWellFormed();
    IamRoleWellFormed();
  }

  lemma Part1Index()
    ensures |Part1()| == 8
    ensures forall j :: 0 <= j < |Part1()| ==> IdIndex(Part1()[j].id) == 8 + j
  {
    hide ComputeNetwork, ComputeSubnetwork, ComputeRoute, ComputeInstance, ComputeInstanceMachineTypeOptions, ComputeInstanceTemplate, ComputeInstanceTemplateMachineTypeOptions, AppEngineApplication, CloudRunService, ComputeForwardingRule, ComputeTargetHttpsProxy, ComputeManagedSslCertificate, StorageBucketAcl, StorageBucketObject, BigqueryDataset, BigtableInstance, IamPolicy, IamRole, MonitoringDashboard, LoggingProjectSink, KmsKeyRing, KmsCryptoKey, IdIndex;
    ComputeTargetHttpsProxyIndex();
    ComputeManagedSslCertificateIndex();
    StorageBucketAclIndex();
    StorageBucketObjectIndex();
    BigqueryDatasetIndex();
    BigtableInstanceIndex();
    IamPolicyIndex();
    IamRoleIndex();
  }

  lemma Part2WellFormed()
    ensures forall m :: m in Part2() ==> WellFormedModule(m)
  {
    hide ComputeNetwork, ComputeSubnetwork, ComputeRoute, ComputeInstance, ComputeInstanceMachineTypeOptions, ComputeInstanceTemplate, ComputeInstanceTemplateMachineTypeOptions, AppEngineApplication, CloudRunService, ComputeForwardingRule, ComputeTargetHttpsProxy, ComputeManagedSslCertificate, StorageBucketAcl, StorageBucketObject, BigqueryDataset, BigtableInstance, IamPolicy, IamRole, MonitoringDashboard, LoggingProjectSink, KmsKeyRing, KmsCryptoKey;
    MonitoringDashboardWellFormed();
    LoggingProjectSinkWellFormed();
    KmsKeyRingWellFormed();
    KmsCryptoKeyWellFormed();
  }

  lemma Part2Index()
    ensures |Part2()| == 4
    ensures forall j :: 0 <= j < |Part2()| ==> IdIndex(Part2()[j].id) == 16 + j
  {
    hide ComputeNetwork, ComputeSubnetwork, ComputeRoute, ComputeInstance, ComputeInstanceMachineTypeOptions, ComputeInstanceTemplate, ComputeInstanceTemplateMachineTypeOptions, AppEngineApplication, CloudRunService, ComputeForwardingRule, ComputeTargetHttpsProxy, ComputeManagedSslCertificate, StorageBucketAcl, StorageBucketObject, BigqueryDataset, BigtableInstance, IamPolicy, IamRole, MonitoringDashboard, LoggingProjectSink, KmsKeyRing, KmsCryptoKey, IdIndex;
    MonitoringDashboardIndex();
    LoggingProjectSinkIndex();
    KmsKeyRingIndex();
    KmsCryptoKeyIndex();
  }

  /** Every catalog entry satisfies the schema rules. */
  lemma ModulesWellFormed()
    ensures forall m :: m in Modules() ==> WellFormedModule(m)
  {
    hide ComputeNetwork, ComputeSubnetwork, ComputeRoute, ComputeInstance, ComputeInstanceMachineTypeOptions, ComputeInstanceTemplate, ComputeInstanceTemplateMachineTypeOptions, AppEngineApplication, CloudRunService, ComputeForwardingRule, ComputeTargetHttpsProxy, ComputeManagedSslCertificate, StorageBucketAcl, StorageBucketObject, BigqueryDataset, BigtableInstance, IamPolicy, IamRole, MonitoringDashboard, LoggingProjectSink, KmsKeyRing, KmsCryptoKey;
    hide Part0, Part1, Part2;
    Part0WellFormed(); Part1WellFormed(); Part2WellFormed();
  }

  /** No two catalog entries share an id. */
  lemma IdsUnique()
    ensures IdsDistinct(Modules())
  {
    hide ComputeNetwork, ComputeSubnetwork, ComputeRoute, ComputeInstance, ComputeInstanceMachineTypeOptions, ComputeInstanceTemplate, ComputeInstanceTemplateMachineTypeOptions, AppEngineApplication, CloudRunService, ComputeForwardingRule, ComputeTargetHttpsProxy, ComputeManagedSslCertificate, StorageBucketAcl, StorageBucketObject, BigqueryDataset, BigtableInstance, IamPolicy, IamRole, MonitoringDashboard, LoggingProjectSink, KmsKeyRing, KmsCryptoKey, IdIndex;
    hide Part0, Part1, Part2;
    Part0Index(); Part1Index(); Part2Index();
    IdsDistinctByIndex(Modules(), IdIndex);
  }
}
