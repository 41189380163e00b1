// The GCP templates (`gcpTemplates`, src/utils/terraformTemplates.ts:432-514): each template
// literal as its list of segments, and the table that maps module ids to templates.
module GcpTemplates {
  import opened Templates

  function ComputeInstanceTemplateText0(): string
  {
    "resource \"google_compute_instance_template\" \"main\""
  }

  function ComputeInstanceTemplateText1(): string
  {
    @"
  disk {
"
  }

  function ComputeInstanceTemplateText2(): string
  {
    @"    auto_delete  = true
    boot         = true
"
  }

  function ComputeInstanceTemplateText3(): string
  {
    @"  }

  network_interface {
    network = ""default""
    access_config {
      // Ephemeral public IP
    }
  }

  metadata = {
    startup-script = ""echo 'Hello World' > /tmp/hello.txt""
  }

  tags = [""web"", ""dev""]

  labels = {
    environment = var.environment
  }
}"
  }

  /** src/utils/terraformTemplates.ts:433-461 */
  function ComputeInstanceTemplate(): Template
  {
    [Lit("# Compute Instance Template\n"),
    Lit(ComputeInstanceTemplateText0()),
    Lit(" {\n"),
    Lit("  name         = \""),
    Or("template_name", "my-instance-template"),
    Lit("\"\n"),
    Lit("  machine_type = \""),
    Or("machine_type", "e2-medium"),
    Lit("\"\n"),
    Lit(ComputeInstanceTemplateText1()),
    Lit("    source_image = \""),
    Or("source_image", "debian-cloud/debian-11"),
    Lit("\"\n"),
    Lit(ComputeInstanceTemplateText2()),
    Lit("    disk_size_gb = "),
    Or("disk_size_gb", "20"),
    Lit("\n"),
    Lit(ComputeInstanceTemplateText3())]
  }

  function AppEngineApplicationText0(): string
  {
    "resource \"google_app_engine_application\" \"main\""
  }

  /** src/utils/terraformTemplates.ts:463-467 */
  function AppEngineApplication(): Template
  {
    [Lit("# App Engine Application\n"),
    Lit(AppEngineApplicationText0()),
    Lit(" {\n"),
    Lit("  project     = \""),
    Raw("project_id"),
    Lit("\"\n"),
    Lit("  location_id = \""),
    Or("location_id", "us-central"),
    Lit("\"\n"),
    Lit("}")]
  }

  function CloudRunServiceText0(): string
  {
    "resource \"google_cloud_run_service\" \"main\""
  }

  function CloudRunServiceText1(): string
  {
    @"
  template {
    spec {
      containers {
"
  }

  function CloudRunServiceText2(): string
  {
    @"      }
    }
  }

  traffic {
    percent         = 100
    latest_revision = true
  }
}

# Allow unauthenticated access
"
  }

  function CloudRunServiceText3(): string
  {
    "resource \"google_cloud_run_service_iam_member\" \"public\""
  }

  function CloudRunServiceText4(): string
  {
    @" {
  service  = google_cloud_run_service.main.name
  location = google_cloud_run_service.main.location
  role     = ""roles/run.invoker""
  member   = ""allUsers""
}"
  }

  /** src/utils/terraformTemplates.ts:469-494 */
  function CloudRunService(): Template
  {
    [Lit("# Cloud Run Service\n"),
    Lit(CloudRunServiceText0()),
    Lit(" {\n"),
    Lit("  name     = \""),
    Or("service_name", "my-cloud-run-service"),
    Lit("\"\n"),
    Lit("  location = \""),
    Or("location", "us-central1"),
    Lit("\"\n"),
    Lit(CloudRunServiceText1()),
    Lit("        image = \""),
    Or("image", "gcr.io/cloudrun/hello"),
    Lit("\"\n"),
    Lit(CloudRunServiceText2()),
    Lit(CloudRunServiceText3()),
    Lit(CloudRunServiceText4())]
  }

  function StorageBucketAclText0(): string
  {
    "resource \"google_storage_bucket_acl\" \"main\""
  }

  /** src/utils/terraformTemplates.ts:496-500 */
  function StorageBucketAcl(): Template
  {
    [Lit("# Storage Bucket ACL\n"),
    Lit(StorageBucketAclText0()),
    Lit(" {\n"),
    Lit("  bucket      = \""),
    Raw("bucket_name"),
    Lit("\"\n"),
    Lit("  role_entity = ["),
    QuotedList("role_entity", "\"READER:allUsers\""),
    Lit("]\n"),
    Lit("}")]
  }


  /** src/utils/terraformTemplates.ts:502-506 */
  function KmsKeyRing(): Template
  {
    [Lit("# KMS Key Ring\n"),
    Lit("resource \"google_kms_key_ring\" \"main\""),
    Lit(" {\n"),
    Lit("  name     = \""),
    Or("key_ring_name", "my-key-ring"),
    Lit("\"\n"),
    Lit("  location = \""),
    Or("location", "global"),
    Lit("\"\n"),
    Lit("}")]
  }


  /** src/utils/terraformTemplates.ts:508-513 */
  function KmsCryptoKey(): Template
  {
    [Lit("# KMS Crypto Key\n"),
    Lit("resource \"google_kms_crypto_key\" \"main\""),
    Lit(" {\n"),
    Lit("  name     = \""),
    Or("crypto_key_name", "my-crypto-key"),
    Lit("\"\n"),
    Lit("  key_ring = google_kms_key_ring."),
    Or("key_ring", "main"),
    Lit(".id\n"),
    Lit("  purpose  = \""),
    Or("purpose", "ENCRYPT_DECRYPT"),
    Lit("\"\n"),
    Lit("}")]
  }

  /** `gcpTemplates`: module id to template. */
  function Registry(): map<string, Template>
  {
    map[
    "compute_instance_template" := ComputeInstanceTemplate(),
    "app_engine_application" := AppEngineApplication(),
    "cloud_run_service" := CloudRunService(),
    "storage_bucket_acl" := StorageBucketAcl(),
    "kms_key_ring" := KmsKeyRing(),
    "kms_crypto_key" := KmsCryptoKey()]
  }
}
