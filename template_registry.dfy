// The template lookup of `generateTerraformProject` (src/utils/terraformGenerator.ts:293-306):
// which template, if any, the generator renders for a module of a provider.
module TemplateRegistry {
  import opened Wrappers
  import opened Templates
  import Catalog
  import AwsCatalog
  import AzureCatalog
  import GcpCatalog
  import AwsTemplates
  import AzureTemplates
  import GcpTemplates

  function Lookup(table: map<string, Template>, id: string): Option<Template>
  {
    if id in table then Some(table[id]) else None
  }

  /** `a || b` on two optional template functions: a function is always truthy. */
  function FirstOf(a: Option<Template>, b: Option<Template>): Option<Template>
  {
    if a.Some? then a else b
  }

  /** The template for a module: for AWS and Azure the provider's table, then its table
      of missing templates; for GCP only its table; for any other provider none. */
  function TemplateFor(provider: string, id: string): Option<Template>
  {
    if provider == "aws" then
      FirstOf(Lookup(AwsTemplates.Registry(), id), Lookup(AwsTemplates.MissingTemplates(), id))
    else if provider == "azure" then
      FirstOf(Lookup(AzureTemplates.Registry(), id), Lookup(AzureTemplates.MissingTemplates(), id))
    else if provider == "gcp" then
      Lookup(GcpTemplates.Registry(), id)
    else None
  }

  /** Every module id with a AWS template names a module of the AWS catalog. */
  lemma AwsTemplateIdsInCatalog(id: string)
    requires id in AwsTemplates.Registry()
    ensures exists m :: m in AwsCatalog.Modules() && m.id == id
  {
    hide AwsTemplates.Vpc, AwsTemplates.Subnet, AwsTemplates.Ec2, AwsTemplates.S3, AwsTemplates.BatchJobQueue, AwsTemplates.BatchComputeEnvironment, AwsTemplates.FargateTaskDefinition, AwsTemplates.EcsCluster, AwsTemplates.EcsService, AwsTemplates.VpnConnection, AwsTemplates.VpnGateway, AwsTemplates.CustomerGateway,
         AwsCatalog.Vpc, AwsCatalog.Subnet, AwsCatalog.Ec2, AwsCatalog.S3, AwsCatalog.BatchJobQueue, AwsCatalog.BatchComputeEnvironment, AwsCatalog.FargateTaskDefinition, AwsCatalog.EcsCluster, AwsCatalog.EcsService, AwsCatalog.VpnConnection, AwsCatalog.VpnGateway, AwsCatalog.CustomerGateway, AwsCatalog.Modules;
    if id == "vpc" {
      AwsCatalog.VpcIndex();
      AwsCatalog.VpcListed();
      assert AwsCatalog.Vpc() in AwsCatalog.Modules() && AwsCatalog.Vpc().id == id;
    } else if id == "subnet" {
      AwsCatalog.SubnetIndex();
      AwsCatalog.SubnetListed();
      assert AwsCatalog.Subnet() in AwsCatalog.Modules() && AwsCatalog.Subnet().id == id;
    } else if id == "ec2" {
      AwsCatalog.Ec2Index();
      AwsCatalog.Ec2Listed();
      assert AwsCatalog.Ec2() in AwsCatalog.Modules() && AwsCatalog.Ec2().id == id;
    } else if id == "s3" {
      AwsCatalog.S3Index();
      AwsCatalog.S3Listed();
      assert AwsCatalog.S3() in AwsCatalog.Modules() && AwsCatalog.S3().id == id;
    } else if id == "batch_job_queue" {
      AwsCatalog.BatchJobQueueIndex();
      AwsCatalog.BatchJobQueueListed();
      assert AwsCatalog.BatchJobQueue() in AwsCatalog.Modules() && AwsCatalog.BatchJobQueue().id == id;
    } else if id == "batch_compute_environment" {
      AwsCatalog.BatchComputeEnvironmentIndex();
      AwsCatalog.BatchComputeEnvironmentListed();
      assert AwsCatalog.BatchComputeEnvironment() in AwsCatalog.Modules() && AwsCatalog.BatchComputeEnvironment().id == id;
    } else if id == "fargate_task_definition" {
      AwsCatalog.FargateTaskDefinitionIndex();
      AwsCatalog.FargateTaskDefinitionListed();
      assert AwsCatalog.FargateTaskDefinition() in AwsCatalog.Modules() && AwsCatalog.FargateTaskDefinition().id == id;
    } else if id == "ecs_cluster" {
      AwsCatalog.EcsClusterIndex();
      AwsCatalog.EcsClusterListed();
      assert AwsCatalog.EcsCluster() in AwsCatalog.Modules() && AwsCatalog.EcsCluster().id == id;
    } else if id == "ecs_service" {
      AwsCatalog.EcsServiceIndex();
      AwsCatalog.EcsServiceListed();
      assert AwsCatalog.EcsService() in AwsCatalog.Modules() && AwsCatalog.EcsService().id == id;
    } else if id == "vpn_connection" {
      AwsCatalog.VpnConnectionIndex();
      AwsCatalog.VpnConnectionListed();
      assert AwsCatalog.VpnConnection() in AwsCatalog.Modules() && AwsCatalog.VpnConnection().id == id;
    } else if id == "vpn_gateway" {
      AwsCatalog.VpnGatewayIndex();
      AwsCatalog.VpnGatewayListed();
      assert AwsCatalog.VpnGateway() in AwsCatalog.Modules() && AwsCatalog.VpnGateway().id == id;
    } else if id == "customer_gateway" {
      AwsCatalog.CustomerGatewayIndex();
      AwsCatalog.CustomerGatewayListed();
      assert AwsCatalog.CustomerGateway() in AwsCatalog.Modules() && AwsCatalog.CustomerGateway().id == id;
    }
  }

  /** Every module id with a Azure template names a module of the Azure catalog. */
  lemma AzureTemplateIdsInCatalog(id: string)
    requires id in AzureTemplates.Registry()
    ensures exists m :: m in AzureCatalog.Modules() && m.id == id
  {
    hide AzureTemplates.ContainerGroup, AzureTemplates.ContainerRegistry, AzureTemplates.KeyVault,
         AzureCatalog.ContainerGroup, AzureCatalog.ContainerRegistry, AzureCatalog.KeyVault, AzureCatalog.Modules;
    if id == "container_group" {
      AzureCatalog.ContainerGroupIndex();
      AzureCatalog.ContainerGroupListed();
      assert AzureCatalog.ContainerGroup() in AzureCatalog.Modules() && AzureCatalog.ContainerGroup().id == id;
    } else if id == "container_registry" {
      AzureCatalog.ContainerRegistryIndex();
      AzureCatalog.ContainerRegistryListed();
      assert AzureCatalog.ContainerRegistry() in AzureCatalog.Modules() && AzureCatalog.ContainerRegistry().id == id;
    } else if id == "key_vault" {
      AzureCatalog.KeyVaultIndex();
      AzureCatalog.KeyVaultListed();
      assert AzureCatalog.KeyVault() in AzureCatalog.Modules() && AzureCatalog.KeyVault().id == id;
    }
  }

  /** Every module id with a GCP template names a module of the GCP catalog. */
  lemma GcpTemplateIdsInCatalog(id: string)
    requires id in GcpTemplates.Registry()
    ensures exists m :: m in GcpCatalog.Modules() && m.id == id
  {
    hide GcpTemplates.ComputeInstanceTemplate, GcpTemplates.AppEngineApplication, GcpTemplates.CloudRunService, GcpTemplates.StorageBucketAcl, GcpTemplates.KmsKeyRing, GcpTemplates.KmsCryptoKey,
         GcpCatalog.ComputeInstanceTemplate, GcpCatalog.AppEngineApplication, GcpCatalog.CloudRunService, GcpCatalog.StorageBucketAcl, GcpCatalog.KmsKeyRing, GcpCatalog.KmsCryptoKey, GcpCatalog.Modules;
    if id == "compute_instance_template" {
      GcpCatalog.ComputeInstanceTemplateIndex();
      GcpCatalog.ComputeInstanceTemplateListed();
      assert GcpCatalog.ComputeInstanceTemplate() in GcpCatalog.Modules() && GcpCatalog.ComputeInstanceTemplate().id == id;
    } else if id == "app_engine_application" {
      GcpCatalog.AppEngineApplicationIndex();
      GcpCatalog.AppEngineApplicationListed();
      assert GcpCatalog.AppEngineApplication() in GcpCatalog.Modules() && GcpCatalog.AppEngineApplication().id == id;
    } else if id == "cloud_run_service" {
      GcpCatalog.CloudRunServiceIndex();
      GcpCatalog.CloudRunServiceListed();
      assert GcpCatalog.CloudRunService() in GcpCatalog.Modules() && GcpCatalog.CloudRunService().id == id;
    } else if id == "storage_bucket_acl" {
      GcpCatalog.StorageBucketAclIndex();
      GcpCatalog.StorageBucketAclListed();
      assert GcpCatalog.StorageBucketAcl() in GcpCatalog.Modules() && GcpCatalog.StorageBucketAcl().id == id;
    } else if id == "kms_key_ring" {
      GcpCatalog.KmsKeyRingIndex();
      GcpCatalog.KmsKeyRingListed();
      assert GcpCatalog.KmsKeyRing() in GcpCatalog.Modules() && GcpCatalog.KmsKeyRing().id == id;
    } else if id == "kms_crypto_key" {
      GcpCatalog.KmsCryptoKeyIndex();
      GcpCatalog.KmsCryptoKeyListed();
      assert GcpCatalog.KmsCryptoKey() in GcpCatalog.Modules() && GcpCatalog.KmsCryptoKey().id == id;
    }
  }

  /** A template is only ever found for the id of a module in the provider's catalog; the
      tables of missing templates are empty, so the lookup is the provider's table. */
  lemma TemplateKeysAreCatalogIds(provider: string, id: string)
    requires TemplateFor(provider, id).Some?
    ensures exists m :: m in Catalog.GetModules(provider) && m.id == id
    ensures provider == "aws" ==> TemplateFor(provider, id) == Lookup(AwsTemplates.Registry(), id)
    ensures provider == "azure" ==> TemplateFor(provider, id) == Lookup(AzureTemplates.Registry(), id)
    ensures provider == "gcp" ==> TemplateFor(provider, id) == Lookup(GcpTemplates.Registry(), id)
  {
    hide AwsTemplates.Registry, AzureTemplates.Registry, GcpTemplates.Registry,
         AzureCatalog.Modules, AwsCatalog.Modules, GcpCatalog.Modules;
    if provider == "aws" {
      AwsTemplateIdsInCatalog(id);
    } else if provider == "azure" {
      AzureTemplateIdsInCatalog(id);
    } else {
      GcpTemplateIdsInCatalog(id);
    }
  }

  /** An unknown provider has no templates. */
  lemma UnknownProviderHasNoTemplates(provider: string, id: string)
    requires provider !in Catalog.ProviderIds
    ensures TemplateFor(provider, id) == None
  {
    hide AwsTemplates.Registry, AzureTemplates.Registry, GcpTemplates.Registry,
         AwsTemplates.MissingTemplates, AzureTemplates.MissingTemplates;
  }
}
