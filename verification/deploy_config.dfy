/** The deployment settings `AppConfig` (`infrastructure/config.py`): field
    defaults, the tag-defaulting validator, the check that a database in a private
    subnet has NAT gateways, and the service-name formatter.

    Where the settings come from (init arguments, environment, `.env`, YAML) is the
    settings library's business; here the caller's overrides are given directly. */
module DeployConfig {
  import opened PyBuiltins

  datatype AppConfig = AppConfig(
    projectId: string,
    stage: string,
    tags: map<string, string>,
    dbInstanceType: string,
    dbAllocatedStorage: int,
    publicDbSubnet: bool,
    natGatewayCount: int)

  /** The values supplied for each field; `None` means the field's default. For
      `tags`, `None` also stands for an explicit `None`. */
  datatype Overrides = Overrides(
    projectId: Option<string>,
    stage: Option<string>,
    tags: Option<map<string, string>>,
    dbInstanceType: Option<string>,
    dbAllocatedStorage: Option<int>,
    publicDbSubnet: Option<bool>,
    natGatewayCount: Option<int>)

  const NO_OVERRIDES := Overrides(None, None, None, None, None, None, None)

  const DEFAULT_PROJECT_ID := "eoapi-template-demo"
  const DEFAULT_STAGE := "test"
  const DEFAULT_DB_INSTANCE_TYPE := "t3.small"
  const DEFAULT_DB_ALLOCATED_STORAGE := 5
  const DEFAULT_PUBLIC_DB_SUBNET := true
  const DEFAULT_NAT_GATEWAY_COUNT := 0

  /** The single way validation fails: a private database subnet without NAT. */
  datatype ConfigError = PrivateSubnetWithoutNat

  datatype Validated = Valid(config: AppConfig) | Invalid(error: ConfigError)

  function OrElse<T>(o: Option<T>, default: T): T {
    if o.Some? then o.value else default
  }

  /** `v or {"project_id": ..., "stage": ...}`: no tags, or an empty mapping, gives
      the two default tags; any other mapping is kept as given. */
  function DefaultTags(tags: Option<map<string, string>>, projectId: string, stage: string): (r: map<string, string>)
    ensures r != map[]
    ensures tags.Some? && tags.value != map[] ==> r == tags.value
    ensures tags.None? || tags.value == map[] ==>
      r.Keys == {"project_id", "stage"} && r["project_id"] == projectId && r["stage"] == stage
  {
    if tags.Some? && tags.value != map[] then tags.value
    else
      var r := map["project_id" := projectId, "stage" := stage];
      assert "stage" in r;
      r
  }

  /** The model validator: a database in a private subnet needs at least one NAT
      gateway; an accepted configuration is returned as it is. */
  function ValidateModel(c: AppConfig): (r: Validated)
    ensures r.Invalid? <==> !c.publicDbSubnet && c.natGatewayCount <= 0
    ensures r.Valid? ==> r.config == c
  {
    if !c.publicDbSubnet && c.natGatewayCount <= 0 then Invalid(PrivateSubnetWithoutNat) else Valid(c)
  }

  /** Building the settings: defaults for every field not supplied, then the
      `tags` validator (the settings class validates defaults too, so it also runs
      when no tags are given), then the model validator. */
  function Load(o: Overrides): (r: Validated)
    ensures r.Invalid? <==> o.publicDbSubnet == Some(false) && OrElse(o.natGatewayCount, DEFAULT_NAT_GATEWAY_COUNT) <= 0
    ensures r.Valid? ==>
      && r.config.projectId == OrElse(o.projectId, DEFAULT_PROJECT_ID)
      && r.config.stage == OrElse(o.stage, DEFAULT_STAGE)
      && r.config.tags != map[]
      && (o.tags.Some? && o.tags.value != map[] ==> r.config.tags == o.tags.value)
      && r.config.natGatewayCount == OrElse(o.natGatewayCount, DEFAULT_NAT_GATEWAY_COUNT)
    ensures r.Valid? ==>
      && r.config.tags == DefaultTags(o.tags, r.config.projectId, r.config.stage)
      && r.config.dbInstanceType == OrElse(o.dbInstanceType, DEFAULT_DB_INSTANCE_TYPE)
      && r.config.dbAllocatedStorage == OrElse(o.dbAllocatedStorage, DEFAULT_DB_ALLOCATED_STORAGE)
      && r.config.publicDbSubnet == OrElse(o.publicDbSubnet, DEFAULT_PUBLIC_DB_SUBNET)
  {
    var projectId := OrElse(o.projectId, DEFAULT_PROJECT_ID);
    var stage := OrElse(o.stage, DEFAULT_STAGE);
    ValidateModel(AppConfig(
      projectId,
      stage,
      DefaultTags(o.tags, projectId, stage),
      OrElse(o.dbInstanceType, DEFAULT_DB_INSTANCE_TYPE),
      OrElse(o.dbAllocatedStorage, DEFAULT_DB_ALLOCATED_STORAGE),
      OrElse(o.publicDbSubnet, DEFAULT_PUBLIC_DB_SUBNET),
      OrElse(o.natGatewayCount, DEFAULT_NAT_GATEWAY_COUNT)))
  }

  /** `build_service_name(service_id)`: project id, stage and service id joined by
      dashes. */
  function BuildServiceName(c: AppConfig, serviceId: string): (name: string)
    ensures |name| == |c.projectId| + |c.stage| + |serviceId| + 2
    ensures name[..|c.projectId|] == c.projectId && name[|c.projectId|] == '-'
    ensures name[|name| - |serviceId|..] == serviceId
  {
    c.projectId + "-" + c.stage + "-" + serviceId
  }

  // ---------------------------------------------------------------------------
  // Properties

  /** With nothing supplied, the settings are the documented defaults, tagged with
      the default project and stage, and they pass validation. */
  lemma DefaultsAreValid()
    ensures Load(NO_OVERRIDES) == Valid(AppConfig(
      "eoapi-template-demo", "test",
      map["project_id" := "eoapi-template-demo", "stage" := "test"],
      "t3.small", 5, true, 0))
  {
  }

  /** Whatever is supplied, the loaded settings always carry tags. */
  lemma LoadedTagsNonEmpty(o: Overrides)
    requires Load(o).Valid?
    ensures Load(o).config.tags != map[]
  {
  }

  /** A database in a public subnet passes validation whatever the NAT count. */
  lemma PublicSubnetAlwaysValid(o: Overrides)
    requires o.publicDbSubnet != Some(false)
    ensures Load(o).Valid?
  {
  }

  /** A database in a private subnet passes exactly when a positive NAT count is
      supplied. */
  lemma PrivateSubnetNeedsNat(o: Overrides)
    requires o.publicDbSubnet == Some(false)
    ensures Load(o).Valid? <==> o.natGatewayCount.Some? && o.natGatewayCount.value > 0
  {
  }

  /** The service name starts with `<project>-<stage>-` and ends with the service id. */
  lemma ServiceNameParts(c: AppConfig, serviceId: string)
    ensures var name := BuildServiceName(c, serviceId);
      var prefix := c.projectId + "-" + c.stage + "-";
      && |name| == |prefix| + |serviceId|
      && name[..|prefix|] == prefix
      && name[|prefix|..] == serviceId
  {
  }

  /** Within one deployment, distinct services get distinct names. */
  lemma ServiceNamesDistinct(c: AppConfig, a: string, b: string)
    requires a != b
    ensures BuildServiceName(c, a) != BuildServiceName(c, b)
  {
    ServiceNameParts(c, a);
    ServiceNameParts(c, b);
  }
}
