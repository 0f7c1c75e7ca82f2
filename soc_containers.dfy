/** `FunctionalTestBench` of first_soc/containers.py: a simple driver ringing a functional processor. */
module SocContainers {
  import opened Hestia
  import SocComponents
  import SocApplications

  /**
    `FunctionalTestBench(name, domain)`: the driver "driver" and the processor
    "processor", both on memory "mem", joined by "doorbell" with fresh default
    settings. The `domain` argument is not used. Both ends of "doorbell" are read
    ports, so the connection has no writing side.
   */
  method NewFunctionalTestBench(name: string, domain: string) returns (t: Container)
    ensures fresh(t) && t.name == name
    ensures t.components.Keys == {"application", "processor"}
    ensures fresh(t.components["application"]) && fresh(t.components["processor"])
    ensures t.components["application"] != t.components["processor"]
    ensures t.components["application"].name == "driver" && t.components["application"].typeName == "simple_driver"
    ensures t.components["processor"].name == "processor" && t.components["processor"].typeName == "functional_processor"
    ensures t.components["application"].parameters == map["memory_name" := Parameter("memory_name", StringType, Text("mem"))]
    ensures t.components["processor"].parameters == SocComponents.ProcessorParameters("mem")
    ensures t.components["application"].ports == map["doorbell" := Port("doorbell", Read, t.components["application"])]
    ensures t.components["processor"].ports == map["doorbell" := Port("doorbell", Read, t.components["processor"])]
    ensures t.components["application"].internalConnections == map[]
    ensures t.components["processor"].internalConnections == map[]
    ensures Owns(t.components["application"]) && Owns(t.components["processor"])
    ensures t.connections == map["doorbell" := Connection(
      Port("doorbell", Read, t.components["application"]), Port("doorbell", Read, t.components["processor"]),
      DefaultConnectionParameters)]
    ensures !DirectionCompatible(t.connections["doorbell"])
  {
    t := new Container(name);
    var application := SocApplications.NewSimpleApplication("driver", "mem");
    var processor := SocComponents.NewFunctionalProcessor("processor", "mem");
    t.components := map["application" := application, "processor" := processor];
    t.connections := map["doorbell" := Connection(application.ports["doorbell"], processor.ports["doorbell"], DefaultConnectionParameters)];
  }
}
