/**
  The number producer and number consumer components of first_test_bench/components.py.
  Each Python subclass of `Component` becomes a factory method that fills a fresh
  `Hestia.Component`; each setter becomes a method on such a component.
 */
module NumberComponents {
  import opened Wrappers
  import opened Decimal
  import opened Hestia

  /** The parameters a producer starts with, all unsigned and held as decimal text. */
  const ProducerDefaults: map<string, Parameter> := map[
    "num_transactions" := Parameter("num_transactions", UintType, Text("100")),
    "min_number" := Parameter("min_number", UintType, Text("0")),
    "max_number" := Parameter("max_number", UintType, Text("100"))]

  /** `Consumer(name)`: one read port "in" and no parameters. */
  method NewConsumer(name: string) returns (c: Component)
    ensures fresh(c) && c.name == name && c.typeName == "number_consumer"
    ensures c.ports == map["in" := Port("in", Read, c)]
    ensures c.parameters == map[] && c.internalConnections == map[]
    ensures Owns(c)
  {
    c := new Component(name, "number_consumer");
    c.ports := map["in" := Port("in", Read, c)];
  }

  /** `Producer(name)`: one write port "out" and the default parameters. */
  method NewProducer(name: string) returns (p: Component)
    ensures fresh(p) && p.name == name && p.typeName == "number_producer"
    ensures p.ports == map["out" := Port("out", Write, p)]
    ensures p.parameters == ProducerDefaults && p.internalConnections == map[]
    ensures Owns(p) && NamedByKey(p.parameters) && TextValued(p.parameters)
  {
    p := new Component(name, "number_producer");
    p.ports := map["out" := Port("out", Write, p)];
    p.parameters := ProducerDefaults;
  }

  /** `set_num_transactions`: no range check, a negative count is stored as "-n". */
  method SetNumTransactions(p: Component, numTransactions: int)
    requires "num_transactions" in p.parameters
    modifies p
    ensures p.parameters == old(p.parameters)["num_transactions" :=
      old(p.parameters)["num_transactions"].(value := Text(DecimalText(numTransactions)))]
    ensures p.ports == old(p.ports) && p.internalConnections == old(p.internalConnections)
    ensures ParseDecimal(p.parameters["num_transactions"].value.text) == Some(numTransactions)
  {
    SetDecimal(p, "num_transactions", numTransactions);
  }

  method SetMinValue(p: Component, value: int)
    requires "min_number" in p.parameters
    modifies p
    ensures p.parameters == old(p.parameters)["min_number" :=
      old(p.parameters)["min_number"].(value := Text(DecimalText(value)))]
    ensures p.ports == old(p.ports) && p.internalConnections == old(p.internalConnections)
    ensures ParseDecimal(p.parameters["min_number"].value.text) == Some(value)
  {
    SetDecimal(p, "min_number", value);
  }

  method SetMaxValue(p: Component, value: int)
    requires "max_number" in p.parameters
    modifies p
    ensures p.parameters == old(p.parameters)["max_number" :=
      old(p.parameters)["max_number"].(value := Text(DecimalText(value)))]
    ensures p.ports == old(p.ports) && p.internalConnections == old(p.internalConnections)
    ensures ParseDecimal(p.parameters["max_number"].value.text) == Some(value)
  {
    SetDecimal(p, "max_number", value);
  }
}
