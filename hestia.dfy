/**
  The part of the hestia modelling framework that the examples build on: components
  with named ports, parameters and internal connections; containers of components
  joined by connections; and what building a container leaves in a model.
  The framework's own code is not part of this model. Only the behaviour the examples
  rely on is stated here: a component and a container are objects whose maps the
  examples fill and update in place; ports, parameters and connection settings are
  values.
 */
module Hestia {
  import opened Wrappers
  import opened Decimal

  datatype PortType = Read | Write | ReadArray | WriteArray

  predicate Writes(t: PortType)
  {
    t == Write || t == WriteArray
  }

  predicate Reads(t: PortType)
  {
    t == Read || t == ReadArray
  }

  datatype ParameterType = StringType | UintType

  /**
    The value a parameter holds: the examples store text (`str(...)` of a number, a
    name, a mode); one setter stores the integer it is given as is.
   */
  datatype ParameterValue = Text(text: string) | Number(number: int)

  datatype Parameter = Parameter(name: string, parameterType: ParameterType, value: ParameterValue)

  /** The settings of a connection that the examples read or write. */
  datatype ConnectionParameters = ConnectionParameters(
    latency: int, capacity: int, readRate: int, writeRate: int, isTimed: bool, domain: string)

  /**
    The settings a fresh `ConnectionParameters()` starts with. They are fixed by the
    framework, which is not part of this model, so they are left unspecified here;
    nothing proved below depends on them.
   */
  const DefaultConnectionParameters: ConnectionParameters

  /** Fresh settings with `is_timed` switched on and the clock domain set. */
  function TimedIn(domain: string): ConnectionParameters
  {
    DefaultConnectionParameters.(isTimed := true, domain := domain)
  }

  datatype InternalConnectionType = Fifo | Pipeline

  class Component {
    const name: string
    /** The component type the engine instantiates, e.g. "number_producer". */
    const typeName: string
    var ports: map<string, Port>
    var parameters: map<string, Parameter>
    var internalConnections: map<string, InternalConnection>

    constructor (name: string, typeName: string)
      ensures this.name == name && this.typeName == typeName
      ensures ports == map[] && parameters == map[] && internalConnections == map[]
    {
      this.name := name;
      this.typeName := typeName;
      ports := map[];
      parameters := map[];
      internalConnections := map[];
    }

    /** `self.parameters[key].value = value`: only that parameter's value changes. */
    method SetParameterValue(key: string, value: ParameterValue)
      requires key in parameters
      modifies this
      ensures parameters == old(parameters)[key := old(parameters)[key].(value := value)]
      ensures ports == old(ports) && internalConnections == old(internalConnections)
    {
      parameters := parameters[key := parameters[key].(value := value)];
    }
  }

  /**
    How the examples store a number in the parameter `key`: as `str(value)`. The text
    parses back to `value`, and the parameters stay named by their keys and text-valued.
   */
  method SetDecimal(c: Component, key: string, value: int)
    requires key in c.parameters
    modifies c
    ensures c.parameters == old(c.parameters)[key := old(c.parameters)[key].(value := Text(DecimalText(value)))]
    ensures c.ports == old(c.ports) && c.internalConnections == old(c.internalConnections)
    ensures ParseDecimal(c.parameters[key].value.text) == Some(value)
    ensures NamedByKey(old(c.parameters)) ==> NamedByKey(c.parameters)
    ensures TextValued(old(c.parameters)) ==> TextValued(c.parameters)
  {
    c.SetParameterValue(key, Text(DecimalText(value)));
    DecimalRoundTrip(value);
  }

  datatype Port = Port(name: string, direction: PortType, owner: Component)

  datatype InternalConnection = InternalConnection(
    name: string, owner: Component, kind: InternalConnectionType, params: ConnectionParameters)

  /** Every port and internal connection of `c` is filed under its own name and belongs to `c`. */
  predicate Owns(c: Component)
    reads c
  {
    (forall k | k in c.ports :: c.ports[k].name == k && c.ports[k].owner == c) &&
    (forall k | k in c.internalConnections ::
      c.internalConnections[k].name == k && c.internalConnections[k].owner == c)
  }

  /** Every parameter is filed under its own name. */
  predicate NamedByKey(parameters: map<string, Parameter>)
  {
    forall k | k in parameters :: parameters[k].name == k
  }

  /** Every parameter holds text. */
  predicate TextValued(parameters: map<string, Parameter>)
  {
    forall k | k in parameters :: parameters[k].value.Text?
  }

  datatype Connection = Connection(source: Port, destination: Port, params: ConnectionParameters)

  /** Data can flow along the connection: its source writes and its destination reads. */
  predicate DirectionCompatible(c: Connection)
  {
    Writes(c.source.direction) && Reads(c.destination.direction)
  }

  class Container {
    const name: string
    var components: map<string, Component>
    var connections: map<string, Connection>

    constructor (name: string)
      ensures this.name == name && components == map[] && connections == map[]
    {
      this.name := name;
      components := map[];
      connections := map[];
    }

    /** `self.connections[key].set_params(params)`: the connection takes a copy of the settings. */
    method SetConnectionParams(key: string, params: ConnectionParameters)
      requires key in connections
      modifies this
      ensures connections == old(connections)[key := old(connections)[key].(params := params)]
      ensures components == old(components)
    {
      connections := connections[key := connections[key].(params := params)];
    }
  }

  /** A connection as the engine receives it: endpoints by component and port name. */
  datatype Link = Link(
    sourceComponent: string, sourcePort: string,
    destinationComponent: string, destinationPort: string,
    params: ConnectionParameters)

  /** What `build(model)` hands to the engine: parameter values of every component and every link. */
  datatype Snapshot = Snapshot(
    name: string,
    parameters: map<string, map<string, Parameter>>,
    links: map<string, Link>)

  function LinkOf(c: Connection): Link
  {
    Link(c.source.owner.name, c.source.name, c.destination.owner.name, c.destination.name, c.params)
  }

  function Build(t: Container): Snapshot
    reads t, t.components.Values
  {
    Snapshot(
      t.name,
      map k | k in t.components :: t.components[k].parameters,
      map k | k in t.connections :: LinkOf(t.connections[k]))
  }
}
