/**
  The deployment script of the Agora app: the `ENV` variable picks one of
  three parameter sets, every stack is named after the environment, the
  services are configured, and the stacks are declared in sequence together
  with the dependencies that fix their deploy order.
 */
module AgoraApp {
  import opened Wrappers
  import opened Strings
  import opened ServiceConfig
  import opened DependencyGraph

  /** The environments the script accepts, in the order the usage message lists them. */
  const ValidEnvironments: seq<string> := ["dev", "stage", "prod"]

  /** The environment-specific settings selected by `ENV`. */
  datatype EnvironmentVariables = EnvironmentVariables(
    vpcCidr: string,
    fqdn: string,
    certificateArn: string,
    tags: map<string, string>)

  /** The ARN of a certificate of the certificate manager in us-east-1, held by the given account. */
  function AcmCertificate(account: string, certificate: string): string {
    "arn:aws:acm:us-east-1:" + account + ":certificate/" + certificate
  }

  /** The message the script stops with when `ENV` is unset or unknown. */
  function UsageMessage(environment: Option<string>): string {
    "Must set environment variable `ENV` to one of " + Join(",", ValidEnvironments)
      + (". Currently set to " + Show(environment) + ".")
  }

  /** Picks the parameter set of the environment named by `ENV`; any other value is an error. */
  function SelectEnvironment(environment: Option<string>): (selected: Result<EnvironmentVariables, string>)
    ensures selected.Success? <==> environment.Some? && environment.value in ValidEnvironments
    ensures selected.Success? ==> selected.value.fqdn == environment.value + ".agora.io"
    ensures selected.Success? ==> selected.value.tags == map["CostCenter" := "NO PROGRAM / 000000"]
    ensures selected.Failure? ==> selected.error == UsageMessage(environment)
  {
    if environment == Some("prod") then
      assert "prod.agora.io" == "prod" + ".agora.io";
      Success(EnvironmentVariables(
        vpcCidr := "10.254.174.0/24",
        fqdn := "prod.agora.io",
        certificateArn := AcmCertificate("681175625864", "69b3ba97-b382-4648-8f94-a250b77b4994"),
        tags := map["CostCenter" := "NO PROGRAM / 000000"]))
    else if environment == Some("stage") then
      assert "stage.agora.io" == "stage" + ".agora.io";
      Success(EnvironmentVariables(
        vpcCidr := "10.254.173.0/24",
        fqdn := "stage.agora.io",
        certificateArn := AcmCertificate("681175625864", "69b3ba97-b382-4648-8f94-a250b77b4994"),
        tags := map["CostCenter" := "NO PROGRAM / 000000"]))
    else if environment == Some("dev") then
      assert "dev.agora.io" == "dev" + ".agora.io";
      Success(EnvironmentVariables(
        vpcCidr := "10.254.172.0/24",
        fqdn := "dev.agora.io",
        certificateArn := AcmCertificate("607346494281", "e8093404-7db1-4042-90d0-01eb5bde1ffc"),
        tags := map["CostCenter" := "NO PROGRAM / 000000"]))
    else
      Failure(UsageMessage(environment))
  }

  /** The network block of each environment. */
  lemma EnvironmentNetworks()
    ensures SelectEnvironment(Some("prod")).value.vpcCidr == "10.254.174.0/24"
    ensures SelectEnvironment(Some("stage")).value.vpcCidr == "10.254.173.0/24"
    ensures SelectEnvironment(Some("dev")).value.vpcCidr == "10.254.172.0/24"
  {
  }

  /** prod and stage share one certificate; dev has a certificate of its own. */
  lemma CertificateSharing()
    ensures SelectEnvironment(Some("prod")).value.certificateArn == SelectEnvironment(Some("stage")).value.certificateArn
    ensures SelectEnvironment(Some("dev")).value.certificateArn != SelectEnvironment(Some("prod")).value.certificateArn
  {
    assert SelectEnvironment(Some("dev")).value.certificateArn[23] == '0';
    assert SelectEnvironment(Some("prod")).value.certificateArn[23] == '8';
  }

  /** The usage message lists `dev,stage,prod` and echoes the current value. */
  lemma UsageMessageText(environment: Option<string>)
    ensures UsageMessage(environment)
      == "Must set environment variable `ENV` to one of " + "dev,stage,prod" + (". Currently set to " + Show(environment) + ".")
  {
    assert ValidEnvironments[1..] == ["stage", "prod"] && ValidEnvironments[1..][1..] == ["prod"];
    assert Join(",", ValidEnvironments) == "dev,stage,prod";
  }

  /** Every accepted environment is named in the usage message. */
  lemma UsageMessageNamesEveryEnvironment(environment: Option<string>, valid: string)
    requires valid in ValidEnvironments
    ensures Contains(UsageMessage(environment), valid)
  {
    var i :| 0 <= i < |ValidEnvironments| && ValidEnvironments[i] == valid;
    var before := "Must set environment variable `ENV` to one of ";
    var listed := Join(",", ValidEnvironments);
    var after := ". Currently set to " + Show(environment) + ".";
    JoinKeepsItem(",", ValidEnvironments, i);
    ContainsInContext(before, listed, after, valid);
  }

  /** The stacks the script declares. */
  datatype StackKind = Network | Ecs | LoadBalancer | ApiDocs | Mongo | Api | App | Apex

  /** The fixed part of each stack's construct id. */
  function Suffix(kind: StackKind): string {
    match kind
    case Network => "-network"
    case Ecs => "-ecs"
    case LoadBalancer => "-load-balancer"
    case ApiDocs => "-api-docs"
    case Mongo => "-mongo"
    case Api => "-api"
    case App => "-app"
    case Apex => "-apex"
  }

  /** The environment-specific start of every stack name. */
  function StackNamePrefix(environment: string): string {
    "agora-" + environment
  }

  /** The construct id of a stack: the prefix followed by the stack's suffix. */
  function ConstructId(prefix: string, kind: StackKind): string {
    prefix + Suffix(kind)
  }

  /** Within one environment no two stacks share a construct id. */
  lemma ConstructIdsDistinct(prefix: string, first: StackKind, second: StackKind)
    requires first != second
    ensures ConstructId(prefix, first) != ConstructId(prefix, second)
  {
    assert ConstructId(prefix, first)[|prefix|..] == Suffix(first);
    assert ConstructId(prefix, second)[|prefix|..] == Suffix(second);
  }

  /** Across the accepted environments construct ids never clash, even where two share an account. */
  lemma ConstructIdsUnique(env1: string, env2: string, first: StackKind, second: StackKind)
    requires env1 in ValidEnvironments && env2 in ValidEnvironments
    requires env1 != env2 || first != second
    ensures ConstructId(StackNamePrefix(env1), first) != ConstructId(StackNamePrefix(env2), second)
  {
    if env1 == env2 {
      ConstructIdsDistinct(StackNamePrefix(env1), first, second);
    } else {
      assert ConstructId(StackNamePrefix(env1), first)[6] == env1[0];
      assert ConstructId(StackNamePrefix(env2), second)[6] == env2[0];
    }
  }

  /** The order in which the script declares the stacks. */
  const DeclarationOrder: seq<StackKind> := [Network, Ecs, LoadBalancer, ApiDocs, Mongo, Api, App, Apex]

  /** The (dependent, dependency) pairs the script declares explicitly. */
  const DeclaredDependencies: set<(StackKind, StackKind)> :=
    {(Api, Mongo), (App, Api), (Apex, App), (Apex, ApiDocs), (Apex, Api)}

  /** The stacks whose outputs (VPC, cluster, load balancer) a stack is given when it is declared. */
  function StackReferences(kind: StackKind): set<StackKind> {
    match kind
    case Network => {}
    case Ecs => {Network}
    case LoadBalancer => {Network}
    case ApiDocs => {Network, Ecs}
    case Mongo => {Network, Ecs}
    case Api => {Network, Ecs}
    case App => {Network, Ecs}
    case Apex => {Network, Ecs, LoadBalancer}
  }

  /** The references as (dependent, dependency) pairs. */
  ghost const ReferenceDependencies: set<(StackKind, StackKind)> :=
    set kind, used | kind in DeclarationOrder && used in StackReferences(kind) :: (kind, used)

  /** Where each stack stands in the declaration order: it is deployed in that order. */
  function Position(kind: StackKind): (i: nat)
    ensures i < |DeclarationOrder| && DeclarationOrder[i] == kind
  {
    match kind
    case Network => 0
    case Ecs => 1
    case LoadBalancer => 2
    case ApiDocs => 3
    case Mongo => 4
    case Api => 5
    case App => 6
    case Apex => 7
  }

  /** The declaration order lists each stack once, at its position. */
  lemma DeclarationOrderByPosition()
    ensures forall i | 0 <= i < |DeclarationOrder| :: Position(DeclarationOrder[i]) == i
  {
  }

  /** Every declared dependency and every reference is deployed before the stack that needs it. */
  lemma DeclarationOrderIsDeployOrder()
    ensures RespectsRank(Position, DeclaredDependencies)
    ensures RespectsRank(Position, DeclaredDependencies + ReferenceDependencies)
  {
    forall p | p in ReferenceDependencies ensures Position(p.1) < Position(p.0) {
      var kind, used :| kind in DeclarationOrder && used in StackReferences(kind) && p == (kind, used);
    }
  }

  /** Neither the declared dependencies nor the references together with them form a cycle. */
  lemma DependenciesAcyclic()
    ensures Acyclic(DeclaredDependencies)
    ensures Acyclic(DeclaredDependencies + ReferenceDependencies)
  {
    DeclarationOrderIsDeployOrder();
    RankedMeansAcyclic(Position, DeclaredDependencies);
    RankedMeansAcyclic(Position, DeclaredDependencies + ReferenceDependencies);
  }

  /** The public apex stack waits for the database, through the api. */
  lemma ApexDependsOnMongo()
    ensures DependsOn(DeclaredDependencies, Apex, Mongo)
  {
    TwoStepDependency(DeclaredDependencies, Apex, Api, Mongo);
  }

  /** The apex stack is deployed last: it depends on every other stack and no stack depends on it. */
  lemma ApexDeploysLast(kind: StackKind)
    requires kind != Apex
    ensures DependsOn(DeclaredDependencies + ReferenceDependencies, Apex, kind)
    ensures !DependsOn(DeclaredDependencies + ReferenceDependencies, kind, Apex)
  {
    var all := DeclaredDependencies + ReferenceDependencies;
    DeclarationOrderIsDeployOrder();
    if kind == Mongo {
      TwoStepDependency(all, Apex, Api, Mongo);
    } else {
      assert kind in StackReferences(Apex) || (Apex, kind) in DeclaredDependencies;
      if kind in StackReferences(Apex) {
        assert Apex in DeclarationOrder;
        assert (Apex, kind) in ReferenceDependencies;
      }
      DirectDependency(all, Apex, kind);
    }
    if DependsOn(all, kind, Apex) {
      DependencyDeploysFirst(Position, all, kind, Apex);
    }
  }

  /** The version every image is tagged with. */
  const AgoraVersion: string := "0.0.2"

  /** A registry reference to an image of the project. */
  function ImageRef(name: string): string {
    "ghcr.io/sage-bionetworks/" + name + ":" + AgoraVersion
  }

  /** Registry references are stored unchanged by the service properties. */
  lemma RegistryImageKept(name: string)
    ensures NormalisedLocation(ImageRef(name)) == ImageRef(name)
  {
    assert ImageRef(name)[0] != ContainerLocationPathId[0];
    OtherLocationKept(ImageRef(name));
  }

  /** What a stack is declared with, besides its id and the stacks it references. */
  datatype StackSettings =
    | NetworkSettings(vpcCidr: string)
    | EcsSettings(namespace: string)
    | LoadBalancerSettings
    | ServiceSettings(props: ServiceProps)
    | LoadBalancedServiceSettings(props: ServiceProps, certificateArn: string, healthCheckPath: string)

  /** One stack as the script declares it. */
  datatype StackDecl = StackDecl(
    kind: StackKind,
    constructId: string,
    references: set<StackKind>,
    settings: StackSettings)

  /** The kinds of the given stacks. */
  function KindsOf(stacks: seq<StackDecl>): set<StackKind> {
    set i | 0 <= i < |stacks| :: stacks[i].kind
  }

  /** The app the stacks are declared in: its tags, its stacks in order, and the declared dependencies. */
  class CdkApp {
    var tags: map<string, string>
    var stacks: seq<StackDecl>
    var dependencies: set<(StackKind, StackKind)>

    /** Dependencies only ever join stacks that have been declared. */
    ghost predicate Valid()
      reads this
    {
      forall p | p in dependencies :: p.0 in KindsOf(stacks) && p.1 in KindsOf(stacks)
    }

    constructor ()
      ensures Valid()
      ensures tags == map[] && stacks == [] && dependencies == {}
    {
      tags := map[];
      stacks := [];
      dependencies := {};
    }

    /** Tags every resource of the app with `key`, replacing an earlier value of it. */
    method AddTag(key: string, value: string)
      requires Valid()
      modifies this
      ensures Valid()
      ensures tags == old(tags)[key := value]
      ensures stacks == old(stacks) && dependencies == old(dependencies)
    {
      tags := tags[key := value];
    }

    /** Declares a stack after the ones declared so far. */
    method AddStack(stack: StackDecl)
      requires Valid()
      modifies this
      ensures Valid()
      ensures stacks == old(stacks) + [stack]
      ensures tags == old(tags) && dependencies == old(dependencies)
    {
      stacks := stacks + [stack];
      assert forall i | 0 <= i < |old(stacks)| :: stacks[i] == old(stacks)[i];
      assert KindsOf(old(stacks)) <= KindsOf(stacks);
    }

    /** Makes the `dependent` stack wait for the `dependency` stack. */
    method AddDependency(dependent: StackKind, dependency: StackKind)
      requires Valid()
      requires dependent in KindsOf(stacks) && dependency in KindsOf(stacks)
      modifies this
      ensures Valid()
      ensures dependencies == old(dependencies) + {(dependent, dependency)}
      ensures tags == old(tags) && stacks == old(stacks)
    {
      dependencies := dependencies + {(dependent, dependency)};
    }
  }

  /** A service configured with the given values and the defaults for everything else. */
  ghost predicate ServiceAsDeclared(
    props: ServiceProps, name: string, image: string, port: int, memory: int,
    envVars: map<string, string>, volumes: seq<ContainerVolume>)
  {
    && props.containerName == name
    && props.containerLocation == ImageRef(image)
    && props.containerPort == port
    && props.containerMemory == memory
    && props.containerEnvVars == envVars
    && props.containerSecrets == []
    && props.containerVolumes == volumes
    && props.autoScaleMinCapacity == 1
    && props.autoScaleMaxCapacity == 1
    && props.containerCommand.None?
    && props.containerHealthcheck.None?
  }

  /** The environment variables of the database container. */
  const MongoEnvVars: map<string, string> := map[
    "MONGO_INITDB_ROOT_USERNAME" := "root",
    "MONGO_INITDB_ROOT_PASSWORD" := "changeme",
    "MONGO_INITDB_DATABASE" := "agora"]

  /** The settings the script gives each stack. */
  ghost predicate SettingsAsDeclared(kind: StackKind, settings: StackSettings, vars: EnvironmentVariables) {
    match kind
    case Network => settings == NetworkSettings(vars.vpcCidr)
    case Ecs => settings == EcsSettings(vars.fqdn)
    case LoadBalancer => settings == LoadBalancerSettings
    case ApiDocs =>
      settings.ServiceSettings? && ServiceAsDeclared(settings.props, "agora-api-docs", "agora-api-docs", 8010, 200, map[], [])
    case Mongo =>
      settings.ServiceSettings?
      && ServiceAsDeclared(settings.props, "agora-mongo", "agora-mongo", 27017, 500, MongoEnvVars, [ContainerVolume("/data/db", 30, false)])
    case Api =>
      settings.ServiceSettings? && ServiceAsDeclared(settings.props, "agora-api", "agora-data", 3333, 1024, map[], [])
    case App =>
      settings.ServiceSettings? && ServiceAsDeclared(settings.props, "agora-app", "agora-app", 4200, 200, map[], [])
    case Apex =>
      && settings.LoadBalancedServiceSettings?
      && ServiceAsDeclared(settings.props, "agora-apex", "agora-apex", 80, 200, map[], [])
      && settings.certificateArn == vars.certificateArn
      && settings.healthCheckPath == "/health"
  }

  /** One stack as the script declares it in the given environment. */
  ghost predicate StackAsDeclared(stack: StackDecl, kind: StackKind, environment: string, vars: EnvironmentVariables) {
    && stack.kind == kind
    && stack.constructId == ConstructId(StackNamePrefix(environment), kind)
    && stack.references == StackReferences(kind)
    && SettingsAsDeclared(kind, stack.settings, vars)
  }

  /** The stacks declared so far: the first ones of the declaration order, each as the script declares it. */
  ghost predicate StacksAsDeclared(stacks: seq<StackDecl>, environment: string, vars: EnvironmentVariables) {
    && |stacks| <= |DeclarationOrder|
    && forall i | 0 <= i < |stacks| :: StackAsDeclared(stacks[i], DeclarationOrder[i], environment, vars)
  }

  /** Declaring the next stack of the order as the script does keeps the declaration on track. */
  lemma DeclaredOneMore(stacks: seq<StackDecl>, stack: StackDecl, environment: string, vars: EnvironmentVariables)
    requires StacksAsDeclared(stacks, environment, vars) && |stacks| < |DeclarationOrder|
    requires StackAsDeclared(stack, DeclarationOrder[|stacks|], environment, vars)
    ensures StacksAsDeclared(stacks + [stack], environment, vars)
  {
  }

  /** Every stack whose position has been reached is declared. */
  lemma ReachedStacksDeclared(stacks: seq<StackDecl>, environment: string, vars: EnvironmentVariables, kind: StackKind)
    requires StacksAsDeclared(stacks, environment, vars) && Position(kind) < |stacks|
    ensures kind in KindsOf(stacks)
  {
    assert stacks[Position(kind)].kind == kind;
  }

  /** The whole app as the script leaves it in the given environment. */
  ghost predicate AppAsDeclared(app: CdkApp, environment: string, vars: EnvironmentVariables)
    reads app
  {
    && app.Valid()
    && app.tags == vars.tags
    && |app.stacks| == |DeclarationOrder|
    && StacksAsDeclared(app.stacks, environment, vars)
    && app.dependencies == DeclaredDependencies
  }

  /** No two stacks of the declared app share a construct id. */
  lemma AppConstructIdsDistinct(app: CdkApp, environment: string, vars: EnvironmentVariables, i: int, j: int)
    requires AppAsDeclared(app, environment, vars)
    requires 0 <= i < j < |app.stacks|
    ensures app.stacks[i].constructId != app.stacks[j].constructId
  {
    DeclarationOrderByPosition();
    ConstructIdsDistinct(StackNamePrefix(environment), DeclarationOrder[i], DeclarationOrder[j]);
  }

  /** Copies every tag of the environment onto the app. */
  method ApplyTags(app: CdkApp, tags: map<string, string>)
    requires app.Valid()
    modifies app
    ensures app.Valid()
    ensures app.tags == old(app.tags) + tags
    ensures app.stacks == old(app.stacks) && app.dependencies == old(app.dependencies)
  {
    var pending := tags.Keys;
    while pending != {}
      invariant app.Valid()
      invariant pending <= tags.Keys
      invariant app.tags == old(app.tags) + map key | key in tags.Keys - pending :: tags[key]
      invariant app.stacks == old(app.stacks) && app.dependencies == old(app.dependencies)
      decreases pending
    {
      var key :| key in pending;
      app.AddTag(key, tags[key]);
      pending := pending - {key};
    }
    assert tags == map key | key in tags.Keys - pending :: tags[key];
  }

  /** Declares `stack` as the next stack of the declaration order. */
  method DeclareNext(app: CdkApp, stack: StackDecl, environment: string, vars: EnvironmentVariables)
    requires app.Valid() && StacksAsDeclared(app.stacks, environment, vars)
    requires Position(stack.kind) == |app.stacks| && StackAsDeclared(stack, stack.kind, environment, vars)
    modifies app
    ensures app.Valid() && app.stacks == old(app.stacks) + [stack]
    ensures StacksAsDeclared(app.stacks, environment, vars)
    ensures app.tags == old(app.tags) && app.dependencies == old(app.dependencies)
  {
    DeclaredOneMore(app.stacks, stack, environment, vars);
    app.AddStack(stack);
  }

  /** Makes the `dependent` stack wait for the `dependency` stack, both declared already. */
  method DeclareDependency(app: CdkApp, dependent: StackKind, dependency: StackKind, environment: string, vars: EnvironmentVariables)
    requires app.Valid() && StacksAsDeclared(app.stacks, environment, vars)
    requires Position(dependent) < |app.stacks| && Position(dependency) < |app.stacks|
    modifies app
    ensures app.Valid() && app.dependencies == old(app.dependencies) + {(dependent, dependency)}
    ensures app.tags == old(app.tags) && app.stacks == old(app.stacks)
  {
    ReachedStacksDeclared(app.stacks, environment, vars, dependent);
    ReachedStacksDeclared(app.stacks, environment, vars, dependency);
    app.AddDependency(dependent, dependency);
  }

  /** Declares the network, the cluster and the load balancer. */
  method DeclareInfrastructure(app: CdkApp, environment: string, vars: EnvironmentVariables)
    requires app.Valid() && app.stacks == [] && app.dependencies == {}
    modifies app
    ensures app.Valid()
    ensures |app.stacks| == 3 && StacksAsDeclared(app.stacks, environment, vars)
    ensures app.tags == old(app.tags) && app.dependencies == {}
  {
    var prefix := StackNamePrefix(environment);
    DeclareNext(app, StackDecl(Network, prefix + "-network", {}, NetworkSettings(vars.vpcCidr)), environment, vars);
    DeclareNext(app, StackDecl(Ecs, prefix + "-ecs", {Network}, EcsSettings(vars.fqdn)), environment, vars);
    DeclareNext(app, StackDecl(LoadBalancer, prefix + "-load-balancer", {Network}, LoadBalancerSettings), environment, vars);
  }

  /** The api-docs stack: the documentation service. */
  method ApiDocsStack(environment: string, vars: EnvironmentVariables) returns (stack: StackDecl)
    ensures StackAsDeclared(stack, ApiDocs, environment, vars)
  {
    var props := new ServiceProps("agora-api-docs", ImageRef("agora-api-docs"), 8010, containerMemory := 200);
    RegistryImageKept("agora-api-docs");
    stack := StackDecl(ApiDocs, StackNamePrefix(environment) + "-api-docs", {Network, Ecs}, ServiceSettings(props));
  }

  /** The database stack: its credentials, database name and a 30 GiB data volume. */
  method MongoStack(environment: string, vars: EnvironmentVariables) returns (stack: StackDecl)
    ensures StackAsDeclared(stack, Mongo, environment, vars)
  {
    var props := new ServiceProps(
      "agora-mongo", ImageRef("agora-mongo"), 27017, containerMemory := 500,
      containerEnvVars := Some(MongoEnvVars),
      containerVolumes := Some([ContainerVolume(path := "/data/db", size := 30)]));
    RegistryImageKept("agora-mongo");
    stack := StackDecl(Mongo, StackNamePrefix(environment) + "-mongo", {Network, Ecs}, ServiceSettings(props));
  }

  /** The api stack, run from the `agora-data` image. */
  method ApiStack(environment: string, vars: EnvironmentVariables) returns (stack: StackDecl)
    ensures StackAsDeclared(stack, Api, environment, vars)
  {
    var props := new ServiceProps("agora-api", ImageRef("agora-data"), 3333, containerMemory := 1024);
    RegistryImageKept("agora-data");
    stack := StackDecl(Api, StackNamePrefix(environment) + "-api", {Network, Ecs}, ServiceSettings(props));
  }

  /** The web application stack. */
  method AppStack(environment: string, vars: EnvironmentVariables) returns (stack: StackDecl)
    ensures StackAsDeclared(stack, App, environment, vars)
  {
    var props := new ServiceProps("agora-app", ImageRef("agora-app"), 4200, containerMemory := 200);
    RegistryImageKept("agora-app");
    stack := StackDecl(App, StackNamePrefix(environment) + "-app", {Network, Ecs}, ServiceSettings(props));
  }

  /** The apex stack: served behind the load balancer with the environment's certificate. */
  method ApexStack(environment: string, vars: EnvironmentVariables) returns (stack: StackDecl)
    ensures StackAsDeclared(stack, Apex, environment, vars)
  {
    var props := new ServiceProps("agora-apex", ImageRef("agora-apex"), 80, containerMemory := 200);
    RegistryImageKept("agora-apex");
    stack := StackDecl(Apex, StackNamePrefix(environment) + "-apex", {Network, Ecs, LoadBalancer},
      LoadBalancedServiceSettings(props, vars.certificateArn, "/health"));
  }

  /** Declares the api-docs, database and api stacks; the api waits for the database. */
  method DeclareBackends(app: CdkApp, environment: string, vars: EnvironmentVariables)
    requires app.Valid() && |app.stacks| == 3 && StacksAsDeclared(app.stacks, environment, vars)
    requires app.dependencies == {}
    modifies app
    ensures app.Valid()
    ensures |app.stacks| == 6 && StacksAsDeclared(app.stacks, environment, vars)
    ensures app.tags == old(app.tags) && app.dependencies == {(Api, Mongo)}
  {
    var apiDocs := ApiDocsStack(environment, vars);
    DeclareNext(app, apiDocs, environment, vars);
    var mongo := MongoStack(environment, vars);
    DeclareNext(app, mongo, environment, vars);
    var api := ApiStack(environment, vars);
    DeclareNext(app, api, environment, vars);

    DeclareDependency(app, Api, Mongo, environment, vars);
  }

  /** Declares the app stack, which waits for the api. */
  method DeclareAppService(app: CdkApp, environment: string, vars: EnvironmentVariables)
    requires app.Valid() && |app.stacks| == 6 && StacksAsDeclared(app.stacks, environment, vars)
    modifies app
    ensures app.Valid()
    ensures |app.stacks| == 7 && StacksAsDeclared(app.stacks, environment, vars)
    ensures app.tags == old(app.tags) && app.dependencies == old(app.dependencies) + {(App, Api)}
  {
    var appStack := AppStack(environment, vars);
    DeclareNext(app, appStack, environment, vars);
    DeclareDependency(app, App, Api, environment, vars);
  }

  /** Declares the apex stack, which waits for the app, the api docs and the api. */
  method DeclareApexService(app: CdkApp, environment: string, vars: EnvironmentVariables)
    requires app.Valid() && |app.stacks| == 7 && StacksAsDeclared(app.stacks, environment, vars)
    modifies app
    ensures app.Valid()
    ensures |app.stacks| == 8 && StacksAsDeclared(app.stacks, environment, vars)
    ensures app.tags == old(app.tags)
    ensures app.dependencies == old(app.dependencies) + {(Apex, App)} + {(Apex, ApiDocs)} + {(Apex, Api)}
  {
    var apex := ApexStack(environment, vars);
    DeclareNext(app, apex, environment, vars);
    DeclareDependency(app, Apex, App, environment, vars);
    DeclareDependency(app, Apex, ApiDocs, environment, vars);
    DeclareDependency(app, Apex, Api, environment, vars);
  }

  /** Declares the app and apex stacks with their dependencies. */
  method DeclareFrontends(app: CdkApp, environment: string, vars: EnvironmentVariables)
    requires app.Valid() && |app.stacks| == 6 && StacksAsDeclared(app.stacks, environment, vars)
    requires app.dependencies == {(Api, Mongo)}
    modifies app
    ensures app.Valid()
    ensures |app.stacks| == 8 && StacksAsDeclared(app.stacks, environment, vars)
    ensures app.tags == old(app.tags) && app.dependencies == DeclaredDependencies
  {
    DeclareAppService(app, environment, vars);
    DeclareApexService(app, environment, vars);
    DeclaredOneByOne(app.dependencies);
  }

  /** The dependencies in the order the script adds them make up the declared ones. */
  lemma DeclaredOneByOne(added: set<(StackKind, StackKind)>)
    requires added == {(Api, Mongo)} + {(App, Api)} + {(Apex, App)} + {(Apex, ApiDocs)} + {(Apex, Api)}
    ensures added == DeclaredDependencies
  {
  }

  /** Runs the script for the given `ENV`: stops with the usage message, or yields the declared app. */
  method BuildApp(environment: Option<string>) returns (result: Result<CdkApp, string>)
    ensures result.Failure? <==> !(environment.Some? && environment.value in ValidEnvironments)
    ensures result.Failure? ==> result.error == UsageMessage(environment)
    ensures result.Success? ==>
      && fresh(result.value)
      && AppAsDeclared(result.value, environment.value, SelectEnvironment(environment).value)
  {
    var selected := SelectEnvironment(environment);
    if selected.Failure? {
      return Failure(selected.error);
    }
    var vars := selected.value;

    var app := new CdkApp();
    if vars.tags != map[] {
      ApplyTags(app, vars.tags);
    }
    assert app.tags == vars.tags;

    DeclareInfrastructure(app, environment.value, vars);
    DeclareBackends(app, environment.value, vars);
    DeclareFrontends(app, environment.value, vars);
    return Success(app);
  }
}
