/** `NumberTestBench` of first_experiment/containers.py: a producer feeding a consumer. */
module NumberContainers {
  import opened Wrappers
  import opened Decimal
  import opened Hestia
  import NumberComponents

  /** The shape `NumberTestBench.__init__` gives a container, which its setters rely on. */
  predicate IsNumberTestBench(t: Container)
    reads t, t.components.Values
  {
    "producer" in t.components && "consumer" in t.components &&
    t.components["producer"] != t.components["consumer"] &&
    "num_transactions" in t.components["producer"].parameters &&
    "producer_consumer" in t.connections
  }

  /**
    `NumberTestBench(name, domain)`: a fresh producer and consumer joined by the timed
    connection "producer_consumer" in clock domain `domain`, from "out" to "in".
   */
  method NewNumberTestBench(name: string, domain: string) returns (t: Container)
    ensures fresh(t) && t.name == name && IsNumberTestBench(t)
    ensures t.components.Keys == {"producer", "consumer"}
    ensures fresh(t.components["producer"]) && fresh(t.components["consumer"])
    ensures t.components["producer"].name == "producer" && t.components["consumer"].name == "consumer"
    ensures t.components["producer"].typeName == "number_producer"
    ensures t.components["consumer"].typeName == "number_consumer"
    ensures t.components["producer"].ports == map["out" := Port("out", Write, t.components["producer"])]
    ensures t.components["consumer"].ports == map["in" := Port("in", Read, t.components["consumer"])]
    ensures t.components["producer"].parameters == NumberComponents.ProducerDefaults
    ensures t.components["consumer"].parameters == map[]
    ensures t.components["producer"].internalConnections == map[]
    ensures t.components["consumer"].internalConnections == map[]
    ensures Owns(t.components["producer"]) && Owns(t.components["consumer"])
    ensures t.connections == map["producer_consumer" := Connection(
      Port("out", Write, t.components["producer"]), Port("in", Read, t.components["consumer"]), TimedIn(domain))]
    ensures DirectionCompatible(t.connections["producer_consumer"])
    ensures t.connections["producer_consumer"].params.isTimed
    ensures t.connections["producer_consumer"].params.domain == domain
  {
    t := new Container(name);
    var producer := NumberComponents.NewProducer("producer");
    var consumer := NumberComponents.NewConsumer("consumer");
    t.components := map["producer" := producer, "consumer" := consumer];
    t.connections := map["producer_consumer" := Connection(producer.ports["out"], consumer.ports["in"], TimedIn(domain))];
  }

  /** `set_num_transactions`: forwarded to the producer; nothing else changes. */
  method SetNumTransactions(t: Container, numTransactions: int)
    requires IsNumberTestBench(t)
    modifies t.components["producer"]
    ensures t.components == old(t.components) && t.connections == old(t.connections)
    ensures t.components["producer"].parameters == old(t.components["producer"].parameters)["num_transactions" :=
      old(t.components["producer"].parameters)["num_transactions"].(value := Text(DecimalText(numTransactions)))]
    ensures t.components["producer"].ports == old(t.components["producer"].ports)
    ensures t.components["producer"].internalConnections == old(t.components["producer"].internalConnections)
    ensures t.components["consumer"].parameters == old(t.components["consumer"].parameters)
    ensures ParseDecimal(t.components["producer"].parameters["num_transactions"].value.text) == Some(numTransactions)
    ensures IsNumberTestBench(t)
  {
    NumberComponents.SetNumTransactions(t.components["producer"], numTransactions);
  }

  /** `set_connection_params`: the connection takes every setting of `params`; nothing else changes. */
  method SetConnectionParams(t: Container, params: ConnectionParameters)
    requires IsNumberTestBench(t)
    modifies t
    ensures t.connections == old(t.connections)["producer_consumer" := old(t.connections)["producer_consumer"].(params := params)]
    ensures t.components == old(t.components)
    ensures IsNumberTestBench(t)
  {
    t.SetConnectionParams("producer_consumer", params);
  }
}
