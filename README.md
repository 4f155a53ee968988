# Agora infrastructure: a model of the deployment script

The Agora infrastructure is an AWS CDK application written in Python. Its
entry script reads the `ENV` variable and picks one of three parameter sets
(`dev`, `stage`, `prod`). Each set holds a VPC block, a domain, a
certificate ARN and cost-centre tags. Any other value, or no value, stops
the script with a usage message. The script then tags the app and declares
eight stacks in a fixed order, all named `agora-<env>-…`:

- the network, the ECS cluster and the load balancer;
- five container services: api-docs, mongo, api, app and the load-balanced apex.

Dependencies between the stacks settle the order in which they are deployed.
Each service is configured through `ServiceProps`. Its constructor removes a
leading `path://` marker from the container location and turns omitted
collections into empty ones.

The model has five modules, one per file:

- `Wrappers`: Option and Result.
- `Strings`: the Python string operations used. These are `in`, `removeprefix`, `join` and how an f-string prints `None`.
- `ServiceConfig` (`service_props.dfy`): the marker constant, the `ServiceSecret` and `ContainerVolume` records, and the `ServiceProps` class. The class's fields are set once, in its constructor.
- `DependencyGraph`: chains of dependencies, cycles, and the proof that any relation a ranking respects has no cycle.
- `AgoraApp` (`agora_app.dfy`): the environment selection, the usage message, the construct ids, the dependency relation, and the script itself. The script is an imperative method that fills a `CdkApp` object with tags, stacks and dependencies.

## Model

| member | source | states |
|---|---|---|
| ServiceConfig.NormalisedLocation | src/service_props.py:84-88 | the stored location is never longer than the given one and is always a suffix of it |
| ServiceConfig.LeadingSentinelRemoved | src/service_props.py:84-88 | a location starting with `path://` loses exactly its first seven characters |
| ServiceConfig.OtherLocationKept | src/service_props.py:84-88 | a location not starting with `path://` is stored unchanged, even when the marker occurs further in |
| ServiceConfig.ContainsGuardIsRedundant | src/service_props.py:84-88 | guarding `removeprefix` with the `in` test changes nothing: the rule equals `removeprefix` alone |
| ServiceConfig.InnerSentinelKept | src/service_props.py:84-88 | `docker/path://api` passes the `in` test, yet nothing is removed from it |
| ServiceConfig.SentinelRemovedOnce | src/service_props.py:84-88 | only one leading marker is removed: `path://path://docker` becomes `path://docker` |
| Strings.RemovePrefix | src/service_props.py:85-87 | when the prefix leads the string, prefix followed by result is the original string |
| ServiceConfig.ContainerVolumeDefaults | src/service_props.py:37-43 | a volume given only a path is 15 GiB and writable |
| ServiceConfig.ServiceProps.constructor | src/service_props.py:67-108 | every field is the given argument; the location is normalised; absent env vars, secrets and volumes become empty |
| ServiceConfig.DefaultServiceProps | src/service_props.py:72-79 | the defaults are 512 MiB of memory, empty collections, min and max capacity 1, and no command or health check |
| AgoraApp.SelectEnvironment | app.py:12-40 | the result is a success exactly for `dev`, `stage` and `prod`; on success the domain is `<env>.agora.io` and the tags are the cost centre; otherwise the error is the usage message |
| AgoraApp.EnvironmentNetworks | app.py:14-35 | each environment has its own VPC block: 10.254.174.0/24, 10.254.173.0/24 and 10.254.172.0/24 |
| AgoraApp.CertificateSharing | app.py:19-33 | prod and stage use the same certificate; dev's certificate differs from prod's |
| AgoraApp.UsageMessageText | app.py:36-40 | the message lists `dev,stage,prod` and echoes the current value, `None` when unset |
| AgoraApp.UsageMessageNamesEveryEnvironment | app.py:36-40 | every accepted environment occurs in the usage message |
| Strings.JoinKeepsItem | app.py:37 | every item of a `join` occurs in its result |
| AgoraApp.ConstructIdsDistinct | app.py:42-180 | within one environment, different stacks get different construct ids |
| AgoraApp.ConstructIdsUnique | app.py:42-180 | over all accepted environments, no two (environment, stack) pairs share a construct id |
| AgoraApp.Position | app.py:54-180 | each stack sits at exactly one position of the declaration order |
| AgoraApp.DeclarationOrderByPosition | app.py:54-180 | the declaration order lists every stack once |
| AgoraApp.DeclarationOrderIsDeployOrder | app.py:54-180 | in the declaration order, every declared dependency and every referenced stack comes before the stack that needs it |
| AgoraApp.DependenciesAcyclic | app.py:145-180 | the declared dependencies have no cycle, and neither do they together with the references |
| AgoraApp.ApexDependsOnMongo | app.py:145-180 | the apex stack depends on the database transitively, through the api |
| AgoraApp.ApexDeploysLast | app.py:67-180 | the apex depends on every other stack, and no stack depends on the apex |
| AgoraApp.RegistryImageKept | app.py:77-167 | the `ghcr.io/sage-bionetworks/<name>:0.0.2` references are stored unchanged |
| DependencyGraph.ChainDescends | app.py:145-180 | along a chain of dependencies, a respected rank strictly decreases |
| DependencyGraph.DependencyDeploysFirst | app.py:145-180 | a direct or transitive dependency ranks below its dependent |
| DependencyGraph.RankedMeansAcyclic | app.py:145-180 | a relation that some deploy order respects has no cycle |
| DependencyGraph.TwoStepDependency | app.py:145-180 | two declared steps make a transitive dependency |
| DependencyGraph.DirectDependency | app.py:145-180 | a declared pair is a dependency |
| AgoraApp.CdkApp.constructor | app.py:47 | a new app has no tags, no stacks and no dependencies |
| AgoraApp.CdkApp.AddStack | app.py:54-177 | the stack is appended after the ones declared so far; tags and dependencies are unchanged |
| AgoraApp.CdkApp.AddTag | app.py:52 | a tag is added to the app, replacing an earlier value for the key; nothing else changes |
| AgoraApp.CdkApp.AddDependency | app.py:145-180 | the pair joins the dependencies; it may only join stacks already declared |
| AgoraApp.ApplyTags | app.py:50-52 | after the loop the app's tags are its earlier tags overridden by every environment tag |
| AgoraApp.DeclareNext | app.py:54-177 | a stack is appended after the ones declared so far and matches the next entry of the declaration order |
| AgoraApp.DeclareDependency | app.py:145-180 | a dependency is added between two stacks already declared; tags and stacks are unchanged |
| AgoraApp.DeclareInfrastructure | app.py:54-75 | the network, cluster and load balancer are declared with the environment's VPC block and domain |
| AgoraApp.ApiDocsStack | app.py:77-89 | `agora-api-docs` on port 8010 with 200 MiB of memory, defaults elsewhere |
| AgoraApp.MongoStack | app.py:91-114 | `agora-mongo` on port 27017 with 500 MiB, the three `MONGO_INITDB_*` variables and a 30 GiB writable volume at `/data/db` |
| AgoraApp.ApiStack | app.py:132-144 | `agora-api` from the `agora-data` image on port 3333 with 1024 MiB |
| AgoraApp.AppStack | app.py:147-159 | `agora-app` on port 4200 with 200 MiB |
| AgoraApp.ApexStack | app.py:162-177 | `agora-apex` on port 80 with 200 MiB, behind the load balancer, with the environment's certificate and health check path `/health` |
| AgoraApp.DeclareBackends | app.py:77-145 | after the three network stacks come the api-docs, mongo and api stacks, and the api waits for mongo |
| AgoraApp.DeclareAppService | app.py:147-160 | the app stack is declared seventh and waits for the api |
| AgoraApp.DeclareApexService | app.py:162-180 | the apex stack is declared last and waits for app, api-docs and api |
| AgoraApp.DeclareFrontends | app.py:147-180 | the app and apex stacks follow, and the app waits for the api; the apex waits for app, api-docs and api |
| AgoraApp.AppConstructIdsDistinct | app.py:42-170 | in the app the script yields, any two stacks have different construct ids |
| AgoraApp.BuildApp | app.py:12-182 | the script fails exactly when `ENV` is unset or unknown, and then with the usage message. Otherwise the app has the environment's tags, all eight stacks in declaration order, each declared as in the script, and exactly the five declared dependencies |

## Left out

- Constructing and synthesising the CDK stacks is left out: VPC, cluster, load balancer, task definitions, `synth`. The model records only what each stack is declared with: construct id, referenced stacks, settings.
- Reading `ENV` is modelled as an `Option<string>` parameter. Stopping with `SystemExit` is modelled as a `Failure` result carrying the message.
- The ECS health-check type is reduced to its command, the only part kept. The model never examines it.
- The commented-out data stack (app.py lines 116-130) is not declared and is not modelled.
- CDK's own checks are not modelled. It rejects a duplicate id when a construct is created, and a dependency cycle when `add_dependency` is called. The model proves that neither can fire for this script: `AppConstructIdsDistinct` gives the stacks of the declared app pairwise-distinct ids, and `DependenciesAcyclic` shows the dependencies have no cycle.
- The passing of the VPC, cluster and load balancer to a stack is modelled as a reference. CDK turns each reference into an implicit deploy dependency, and the acyclicity and deploy-order lemmas cover those references too.
- Tags are applied in the iteration order of a map. Python dict order does not matter to the result, because every key is distinct, so it is not modelled.
- `ServiceProps` fields are `const`: the script never reassigns them after construction. Python stores the caller's own dict and lists (src/service_props.py lines 93, 98 and 103), so a later change to them would show in the props. The model copies values, so this aliasing is not captured, and the script never uses it.
- Python's unbounded `int` is modelled as Dafny's `int`. No width or wrap-around applies.
- The api service runs the `agora-data` image, as the script is written (app.py line 134). The model keeps that.
