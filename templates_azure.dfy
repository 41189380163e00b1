// The Azure templates (`azureTemplates`, src/utils/terraformTemplates.ts:375-431): each template
// literal as its list of segments, and the table that maps module ids to templates.
module AzureTemplates {
  import opened Templates

  function ContainerGroupText0(): string
  {
    "resource \"azurerm_container_group\" \"main\""
  }

  function ContainerGroupText1(): string
  {
    @"  location            = var.location
  resource_group_name = var.resource_group_name
  ip_address_type     = ""Public""
"
  }

  function ContainerGroupText2(): string
  {
    @"
  container {
    name   = ""main""
"
  }

  function ContainerGroupText3(): string
  {
    @"
    ports {
      port     = 80
      protocol = ""TCP""
    }
  }

  tags = {
    Environment = var.environment
  }
}"
  }

  /** src/utils/terraformTemplates.ts:376-399 */
  function ContainerGroup(): Template
  {
    [Lit("# Container Group\n"),
    Lit(ContainerGroupText0()),
    Lit(" {\n"),
    Lit("  name                = \""),
    Or("container_group_name", "my-container-group"),
    Lit("\"\n"),
    Lit(ContainerGroupText1()),
    Lit("  os_type             = \""),
    Or("os_type", "Linux"),
    Lit("\"\n"),
    Lit(ContainerGroupText2()),
    Lit("    image  = \""),
    Or("container_image", "nginx:latest"),
    Lit("\"\n"),
    Lit("    cpu    = \""),
    Or("cpu", "0.5"),
    Lit("\"\n"),
    Lit("    memory = \""),
    Or("memory", "1.5"),
    Lit("\"\n"),
    Lit(ContainerGroupText3())]
  }

  function ContainerRegistryText0(): string
  {
    "resource \"azurerm_container_registry\" \"main\""
  }

  function ContainerRegistryText1(): string
  {
    @"  resource_group_name = var.resource_group_name
  location            = var.location
"
  }

  function ContainerRegistryText2(): string
  {
    @"
  tags = {
    Environment = var.environment
  }
}"
  }

  /** src/utils/terraformTemplates.ts:401-412 */
  function ContainerRegistry(): Template
  {
    [Lit("# Container Registry\n"),
    Lit(ContainerRegistryText0()),
    Lit(" {\n"),
    Lit("  name                = \""),
    Or("registry_name", "mycontainerregistry"),
    Lit("\"\n"),
    Lit(ContainerRegistryText1()),
    Lit("  sku                 = \""),
    Or("sku", "Standard"),
    Lit("\"\n"),
    Lit("  admin_enabled       = "),
    Or("admin_enabled", "false"),
    Lit("\n"),
    Lit(ContainerRegistryText2())]
  }

  function KeyVaultText0(): string
  {
    @"  location            = var.location
  resource_group_name = var.resource_group_name
  tenant_id           = data.azurerm_client_config.current.tenant_id
"
  }

  function KeyVaultText1(): string
  {
    @"
  tags = {
    Environment = var.environment
  }
}

data ""azurerm_client_config"" ""current"" {}"
  }

  /** src/utils/terraformTemplates.ts:414-429 */
  function KeyVault(): Template
  {
    [Lit("# Key Vault\n"),
    Lit("resource \"azurerm_key_vault\" \"main\""),
    Lit(" {\n"),
    Lit("  name                = \""),
    Or("key_vault_name", "my-key-vault"),
    Lit("\"\n"),
    Lit(KeyVaultText0()),
    Lit("  sku_name            = \""),
    Or("sku_name", "standard"),
    Lit("\"\n"),
    Lit("\n"),
    Lit("  enabled_for_disk_encryption = "),
    Or("enabled_for_disk_encryption", "false"),
    Lit("\n"),
    Lit(KeyVaultText1())]
  }

  /** `azureTemplates`: module id to template. */
  function Registry(): map<string, Template>
  {
    map[
    "container_group" := ContainerGroup(),
    "container_registry" := ContainerRegistry(),
    "key_vault" := KeyVault()]
  }

  /** `azureMissingTemplates`: imported by the generator but not defined in the templates
      file, so it has no entries. */
  function MissingTemplates(): map<string, Template>
  {
    map[]
  }
}
