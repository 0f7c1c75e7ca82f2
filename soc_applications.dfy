/** The driver applications of first_soc/applications.py. */
module SocApplications {
  import opened Wrappers
  import opened Decimal
  import opened Hestia

  /**
    The parameters a loop driver starts with. All four are declared as strings, the
    iteration counts included.
   */
  function LoopParameters(memoryName: string): (ps: map<string, Parameter>)
    ensures NamedByKey(ps) && TextValued(ps)
    ensures ps.Keys == {"memory_name", "num_iterations", "num_ops_per_iteration", "mode"}
    ensures forall k | k in ps :: ps[k].parameterType == StringType
    ensures ps["memory_name"].value.text == memoryName && ps["mode"].value.text == "alu"
    ensures ParseDecimal(ps["num_iterations"].value.text) == Some(100)
    ensures ParseDecimal(ps["num_ops_per_iteration"].value.text) == Some(100)
  {
    DecimalRoundTrip(100);
    map[
      "memory_name" := Parameter("memory_name", StringType, Text(memoryName)),
      "num_iterations" := Parameter("num_iterations", StringType, Text(DecimalText(100))),
      "num_ops_per_iteration" := Parameter("num_ops_per_iteration", StringType, Text(DecimalText(100))),
      "mode" := Parameter("mode", StringType, Text("alu"))]
  }

  method NewSimpleApplication(name: string, memoryName: string) returns (c: Component)
    ensures fresh(c) && c.name == name && c.typeName == "simple_driver"
    ensures c.ports == map["doorbell" := Port("doorbell", Read, c)]
    ensures c.parameters == map["memory_name" := Parameter("memory_name", StringType, Text(memoryName))]
    ensures c.internalConnections == map[]
    ensures Owns(c) && NamedByKey(c.parameters) && TextValued(c.parameters)
  {
    c := new Component(name, "simple_driver");
    c.ports := map["doorbell" := Port("doorbell", Read, c)];
    c.parameters := map["memory_name" := Parameter("memory_name", StringType, Text(memoryName))];
  }

  method NewLoopApplication(name: string, memoryName: string) returns (c: Component)
    ensures fresh(c) && c.name == name && c.typeName == "loop_driver"
    ensures c.ports == map["doorbell" := Port("doorbell", Read, c)]
    ensures c.parameters == LoopParameters(memoryName) && c.internalConnections == map[]
    ensures Owns(c) && NamedByKey(c.parameters) && TextValued(c.parameters)
  {
    c := new Component(name, "loop_driver");
    c.ports := map["doorbell" := Port("doorbell", Read, c)];
    c.parameters := LoopParameters(memoryName);
  }

  /** Stores `value` in the parameter `key` unchecked, the way `set_memory_name` and `set_mode` do. */
  method SetText(c: Component, key: string, value: string)
    requires key in c.parameters
    modifies c
    ensures c.parameters == old(c.parameters)[key := old(c.parameters)[key].(value := Text(value))]
    ensures c.ports == old(c.ports) && c.internalConnections == old(c.internalConnections)
    ensures NamedByKey(old(c.parameters)) ==> NamedByKey(c.parameters)
    ensures TextValued(old(c.parameters)) ==> TextValued(c.parameters)
  {
    c.SetParameterValue(key, Text(value));
  }

  /** `set_memory_name` of both applications. */
  method SetMemoryName(c: Component, memoryName: string)
    requires "memory_name" in c.parameters
    modifies c
    ensures c.parameters == old(c.parameters)["memory_name" := old(c.parameters)["memory_name"].(value := Text(memoryName))]
    ensures c.ports == old(c.ports) && c.internalConnections == old(c.internalConnections)
  {
    SetText(c, "memory_name", memoryName);
  }

  method SetNumIterations(c: Component, amount: int)
    requires "num_iterations" in c.parameters
    modifies c
    ensures c.parameters == old(c.parameters)["num_iterations" :=
      old(c.parameters)["num_iterations"].(value := Text(DecimalText(amount)))]
    ensures c.ports == old(c.ports) && c.internalConnections == old(c.internalConnections)
    ensures ParseDecimal(c.parameters["num_iterations"].value.text) == Some(amount)
  {
    SetDecimal(c, "num_iterations", amount);
  }

  /**
    `set_num_operations_per_iteration` as written: the integer itself is stored, not its
    text, so afterwards not every parameter of the component holds text.
   */
  method SetNumOperationsPerIterationAsWritten(c: Component, amount: int)
    requires "num_ops_per_iteration" in c.parameters
    modifies c
    ensures c.parameters == old(c.parameters)["num_ops_per_iteration" :=
      old(c.parameters)["num_ops_per_iteration"].(value := Number(amount))]
    ensures c.ports == old(c.ports) && c.internalConnections == old(c.internalConnections)
    ensures !c.parameters["num_ops_per_iteration"].value.Text? && !TextValued(c.parameters)
  {
    c.SetParameterValue("num_ops_per_iteration", Number(amount));
  }

  /**
    `set_num_operations_per_iteration` as evidently intended, like its neighbour
    `set_num_iterations`: stores `str(amount)`, which parses back to `amount`.
   */
  method SetNumOperationsPerIteration(c: Component, amount: int)
    requires "num_ops_per_iteration" in c.parameters
    modifies c
    ensures c.parameters == old(c.parameters)["num_ops_per_iteration" :=
      old(c.parameters)["num_ops_per_iteration"].(value := Text(DecimalText(amount)))]
    ensures c.ports == old(c.ports) && c.internalConnections == old(c.internalConnections)
    ensures ParseDecimal(c.parameters["num_ops_per_iteration"].value.text) == Some(amount)
    ensures TextValued(old(c.parameters)) ==> TextValued(c.parameters)
  {
    SetDecimal(c, "num_ops_per_iteration", amount);
  }

  method SetMode(c: Component, mode: string)
    requires "mode" in c.parameters
    modifies c
    ensures c.parameters == old(c.parameters)["mode" := old(c.parameters)["mode"].(value := Text(mode))]
    ensures c.ports == old(c.ports) && c.internalConnections == old(c.internalConnections)
  {
    SetText(c, "mode", mode);
  }
}
