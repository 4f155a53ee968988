/**
  The properties of one containerised ECS service: the two value records it
  is built from and the ServiceProps object whose constructor normalises the
  image reference and fills in omitted collections.
 */
module ServiceConfig {
  import opened Wrappers
  import opened Strings

  /** Marker that asks for the image to be built from a local directory, as in `path://docker/MyContainer`. */
  const ContainerLocationPathId: string := "path://"

  /** A secret pulled from the secrets manager into one environment variable of the container. */
  datatype ServiceSecret = ServiceSecret(secretName: string, environmentKey: string)

  /** A volume mounted into the container: mount path, size in GiB, read-only access. */
  datatype ContainerVolume = ContainerVolume(path: string, size: int := 15, readOnly: bool := false)

  /**
    Stands for the container health-check configuration of the ECS library.
    Only its command is kept; the model never looks inside it.
   */
  datatype HealthCheck = HealthCheck(command: seq<string>)

  /**
    The image reference a service stores for a given container location: when
    the sentinel occurs anywhere, a leading sentinel is removed.
   */
  function NormalisedLocation(location: string): (stored: string)
    ensures |stored| <= |location|
    ensures stored == location[|location| - |stored|..]
  {
    if Contains(location, ContainerLocationPathId)
    then RemovePrefix(location, ContainerLocationPathId)
    else location
  }

  /** A location that starts with the sentinel loses exactly its first seven characters. */
  lemma LeadingSentinelRemoved(location: string)
    requires ContainerLocationPathId <= location
    ensures NormalisedLocation(location) == location[7..]
  {
    assert OccursAt(location, ContainerLocationPathId, 0);
  }

  /** Any other location, including one holding the sentinel further in, is stored unchanged. */
  lemma OtherLocationKept(location: string)
    requires !(ContainerLocationPathId <= location)
    ensures NormalisedLocation(location) == location
  {
  }

  /** The containment test in front of the strip changes nothing: the rule is `removeprefix` alone. */
  lemma ContainsGuardIsRedundant(location: string)
    ensures NormalisedLocation(location) == RemovePrefix(location, ContainerLocationPathId)
  {
    if ContainerLocationPathId <= location {
      LeadingSentinelRemoved(location);
    }
  }

  /** A sentinel inside the location passes the containment test yet nothing is removed. */
  lemma InnerSentinelKept()
    ensures Contains("docker/path://api", ContainerLocationPathId)
    ensures NormalisedLocation("docker/path://api") == "docker/path://api"
  {
    var location := "docker/path://api";
    assert OccursAt(location, ContainerLocationPathId, 7);
    assert location[0] != ContainerLocationPathId[0];
  }

  /** Only one leading sentinel is removed; a second one right behind it stays. */
  lemma SentinelRemovedOnce()
    ensures NormalisedLocation("path://path://docker") == "path://docker"
  {
    LeadingSentinelRemoved("path://path://docker");
  }

  /** The defaults of the volume record: 15 GiB, writable. */
  lemma ContainerVolumeDefaults(path: string)
    ensures ContainerVolume(path).path == path
    ensures ContainerVolume(path).size == 15
    ensures !ContainerVolume(path).readOnly
  {
  }

  /**
    ECS service properties. Every field is set once, by the constructor, and
    never reassigned; the defaults of the omitted arguments are those of the
    constructor's parameters.
   */
  class ServiceProps {
    const containerName: string
    const containerLocation: string
    const containerPort: int
    const containerMemory: int
    const containerEnvVars: map<string, string>
    const containerSecrets: seq<ServiceSecret>
    const containerVolumes: seq<ContainerVolume>
    const autoScaleMinCapacity: int
    const autoScaleMaxCapacity: int
    const containerCommand: Option<seq<string>>
    const containerHealthcheck: Option<HealthCheck>

    constructor (
      containerName: string,
      containerLocation: string,
      containerPort: int,
      containerMemory: int := 512,
      containerEnvVars: Option<map<string, string>> := None,
      containerSecrets: Option<seq<ServiceSecret>> := None,
      containerVolumes: Option<seq<ContainerVolume>> := None,
      autoScaleMinCapacity: int := 1,
      autoScaleMaxCapacity: int := 1,
      containerCommand: Option<seq<string>> := None,
      containerHealthcheck: Option<HealthCheck> := None)
      ensures this.containerName == containerName
      ensures this.containerPort == containerPort
      ensures this.containerMemory == containerMemory
      ensures this.containerLocation == NormalisedLocation(containerLocation)
      ensures this.containerEnvVars == if containerEnvVars.Some? then containerEnvVars.value else map[]
      ensures this.containerSecrets == if containerSecrets.Some? then containerSecrets.value else []
      ensures this.containerVolumes == if containerVolumes.Some? then containerVolumes.value else []
      ensures this.autoScaleMinCapacity == autoScaleMinCapacity
      ensures this.autoScaleMaxCapacity == autoScaleMaxCapacity
      ensures this.containerCommand == containerCommand
      ensures this.containerHealthcheck == containerHealthcheck
    {
      this.containerName := containerName;
      this.containerPort := containerPort;
      this.containerMemory := containerMemory;
      var location := containerLocation;
      if Contains(location, ContainerLocationPathId) {
        location := RemovePrefix(location, ContainerLocationPathId);
      }
      this.containerLocation := location;

      if containerEnvVars.None? {
        this.containerEnvVars := map[];
      } else {
        this.containerEnvVars := containerEnvVars.value;
      }

      if containerSecrets.None? {
        this.containerSecrets := [];
      } else {
        this.containerSecrets := containerSecrets.value;
      }

      if containerVolumes.None? {
        this.containerVolumes := [];
      } else {
        this.containerVolumes := containerVolumes.value;
      }

      this.autoScaleMinCapacity := autoScaleMinCapacity;
      this.autoScaleMaxCapacity := autoScaleMaxCapacity;
      this.containerCommand := containerCommand;
      this.containerHealthcheck := containerHealthcheck;
    }
  }

  /** A service built from name, location and port alone takes every default. */
  method DefaultServiceProps(containerName: string, containerLocation: string, containerPort: int)
    returns (props: ServiceProps)
    ensures fresh(props)
    ensures props.containerName == containerName && props.containerPort == containerPort
    ensures props.containerLocation == NormalisedLocation(containerLocation)
    ensures props.containerMemory == 512
    ensures props.containerEnvVars == map[] && props.containerSecrets == [] && props.containerVolumes == []
    ensures props.autoScaleMinCapacity == 1 && props.autoScaleMaxCapacity == 1
    ensures props.containerCommand.None? && props.containerHealthcheck.None?
  {
    props := new ServiceProps(containerName, containerLocation, containerPort);
  }
}
