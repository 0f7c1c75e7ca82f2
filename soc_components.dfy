/**
  The processor and memory components of first_soc/components.py. Each Python subclass
  of `Component` becomes a factory method that fills a fresh `Hestia.Component`.
 */
module SocComponents {
  import opened Wrappers
  import opened Decimal
  import opened Hestia

  /** The parameters every processor starts with: its memory's name and ten registers. */
  function ProcessorParameters(memoryName: string): (ps: map<string, Parameter>)
    ensures NamedByKey(ps) && TextValued(ps)
    ensures ps.Keys == {"memory_name", "num_registers"}
    ensures ps["memory_name"].parameterType == StringType && ps["num_registers"].parameterType == UintType
    ensures ps["memory_name"].value.text == memoryName && ParseDecimal(ps["num_registers"].value.text) == Some(10)
  {
    DecimalRoundTrip(10);
    map[
      "memory_name" := Parameter("memory_name", StringType, Text(memoryName)),
      "num_registers" := Parameter("num_registers", UintType, Text(DecimalText(10)))]
  }

  /**
    The parameters `PipelinedProcessor.__init__` builds as written: the register count
    sits under the key "num_registers" but carries the name "memory_name", so two
    parameters are named "memory_name" and none is named "num_registers".
   */
  function PipelinedParametersAsWritten(memoryName: string): (ps: map<string, Parameter>)
    ensures !NamedByKey(ps)
    ensures ps.Keys == {"memory_name", "num_registers"}
    ensures ps["num_registers"].name == ps["memory_name"].name == "memory_name"
    ensures forall k | k in ps :: ps[k].name != "num_registers"
  {
    var ps := map[
      "memory_name" := Parameter("memory_name", StringType, Text(memoryName)),
      "num_registers" := Parameter("memory_name", UintType, Text(DecimalText(10)))];
    assert ps["num_registers"].name != "num_registers";
    ps
  }

  /** The five ports of the memory-bound, performant and pipelined processors. */
  function ProcessorPorts(c: Component): map<string, Port>
  {
    map[
      "doorbell" := Port("doorbell", Read, c),
      "instruction_request" := Port("instruction_request", Write, c),
      "instruction_response" := Port("instruction_response", Read, c),
      "data_request" := Port("data_request", Write, c),
      "data_response" := Port("data_response", Read, c)]
  }

  /** The four pipeline stages of the performant and pipelined processors, sharing one setting. */
  function PipelineStages(c: Component, params: ConnectionParameters): map<string, InternalConnection>
  {
    map[
      "fetcher" := InternalConnection("fetcher", c, Pipeline, params),
      "decoder" := InternalConnection("decoder", c, Pipeline, params),
      "executor" := InternalConnection("executor", c, Pipeline, params),
      "write_back" := InternalConnection("write_back", c, Pipeline, params)]
  }

  method NewFunctionalProcessor(name: string, memoryName: string) returns (c: Component)
    ensures fresh(c) && c.name == name && c.typeName == "functional_processor"
    ensures c.ports == map["doorbell" := Port("doorbell", Read, c)]
    ensures c.parameters == ProcessorParameters(memoryName) && c.internalConnections == map[]
    ensures Owns(c) && NamedByKey(c.parameters) && TextValued(c.parameters)
  {
    c := new Component(name, "functional_processor");
    c.ports := map["doorbell" := Port("doorbell", Read, c)];
    c.parameters := ProcessorParameters(memoryName);
  }

  method NewMemoryBoundProcessor(name: string, memoryName: string) returns (c: Component)
    ensures fresh(c) && c.name == name && c.typeName == "memory_bound_processor"
    ensures c.ports == ProcessorPorts(c)
    ensures c.internalConnections == map["decoded_instruction" :=
      InternalConnection("decoded_instruction", c, Fifo, DefaultConnectionParameters)]
    ensures c.parameters == ProcessorParameters(memoryName)
    ensures Owns(c) && NamedByKey(c.parameters) && TextValued(c.parameters)
  {
    c := new Component(name, "memory_bound_processor");
    c.ports := ProcessorPorts(c);
    c.internalConnections := map["decoded_instruction" :=
      InternalConnection("decoded_instruction", c, Fifo, DefaultConnectionParameters)];
    c.parameters := ProcessorParameters(memoryName);
  }

  /** Every pipeline stage is timed in clock domain `domain`. */
  method NewPerformantProcessor(name: string, domain: string, memoryName: string) returns (c: Component)
    ensures fresh(c) && c.name == name && c.typeName == "performant_processor"
    ensures c.ports == ProcessorPorts(c) && c.internalConnections == PipelineStages(c, TimedIn(domain))
    ensures c.parameters == ProcessorParameters(memoryName)
    ensures forall k | k in c.internalConnections ::
      c.internalConnections[k].kind == Pipeline && c.internalConnections[k].params.isTimed &&
      c.internalConnections[k].params.domain == domain
    ensures Owns(c) && NamedByKey(c.parameters) && TextValued(c.parameters)
  {
    c := new Component(name, "performant_processor");
    c.ports := ProcessorPorts(c);
    c.internalConnections := PipelineStages(c, TimedIn(domain));
    c.parameters := ProcessorParameters(memoryName);
  }

  /**
    `PipelinedProcessor` as evidently intended: like the performant processor, with the
    register count named "num_registers" (see `PipelinedParametersAsWritten`).
   */
  method NewPipelinedProcessor(name: string, domain: string, memoryName: string) returns (c: Component)
    ensures fresh(c) && c.name == name && c.typeName == "pipelined_processor"
    ensures c.ports == ProcessorPorts(c) && c.internalConnections == PipelineStages(c, TimedIn(domain))
    ensures c.parameters == ProcessorParameters(memoryName)
    ensures forall k | k in c.internalConnections ::
      c.internalConnections[k].kind == Pipeline && c.internalConnections[k].params.isTimed &&
      c.internalConnections[k].params.domain == domain
    ensures Owns(c) && NamedByKey(c.parameters) && TextValued(c.parameters)
  {
    c := new Component(name, "pipelined_processor");
    c.ports := ProcessorPorts(c);
    c.internalConnections := PipelineStages(c, TimedIn(domain));
    c.parameters := ProcessorParameters(memoryName);
  }

  method NewMemory(name: string, memoryName: string) returns (c: Component)
    ensures fresh(c) && c.name == name && c.typeName == "memory"
    ensures c.ports == map["requests" := Port("requests", ReadArray, c), "responses" := Port("responses", WriteArray, c)]
    ensures c.parameters == map["memory_name" := Parameter("memory_name", StringType, Text(memoryName))]
    ensures c.internalConnections == map[]
    ensures Owns(c) && NamedByKey(c.parameters) && TextValued(c.parameters)
  {
    c := new Component(name, "memory");
    c.ports := map["requests" := Port("requests", ReadArray, c), "responses" := Port("responses", WriteArray, c)];
    c.parameters := map["memory_name" := Parameter("memory_name", StringType, Text(memoryName))];
  }

  /** `set_num_registers`, the same in all four processors: stores `str(numRegisters)`. */
  method SetNumRegisters(c: Component, numRegisters: int)
    requires "num_registers" in c.parameters
    modifies c
    ensures c.parameters == old(c.parameters)["num_registers" :=
      old(c.parameters)["num_registers"].(value := Text(DecimalText(numRegisters)))]
    ensures c.ports == old(c.ports) && c.internalConnections == old(c.internalConnections)
    ensures ParseDecimal(c.parameters["num_registers"].value.text) == Some(numRegisters)
    ensures NamedByKey(old(c.parameters)) ==> NamedByKey(c.parameters)
  {
    SetDecimal(c, "num_registers", numRegisters);
  }
}
