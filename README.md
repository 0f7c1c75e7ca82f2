# hestia examples: components, test benches and the rate/latency experiment

This project models the example models of the hestia hardware-modelling framework.

The components are:
- a number producer and a number consumer;
- four processors and a memory;
- two driver applications.

The test benches are:
- `NumberTestBench`, a producer joined to a consumer;
- `FunctionalTestBench`, a simple driver ringing a functional processor.

The experiment, `MyExperiment`, sweeps four connection settings: read rate, write rate, latency and capacity. For every point of the design space it builds one producer/consumer bench and files it under the name `r_<read>.w_<write>.l_<latency>.c_<capacity>`. Its `get_data` reads a test's counter samples back as two series, production and consumption, and cuts off the idle end.

The framework's own classes are stated as far as the examples rely on them (module `Hestia`):
- A component and a container are objects whose maps the examples fill and update in place.
- Ports, parameters and connection settings are values.
- Building a container yields a `Snapshot` value.

Each Python subclass of `Component` or `Container` becomes a factory method that fills a fresh `Hestia.Component` or `Hestia.Container`. Each component setter becomes a method that changes only the parameter it names. A container setter either forwards to one component or changes only the one connection it names. `NumberContainers.SetNumTransactions` forwards to the producer, so only the producer object changes. `NumberContainers.SetConnectionParams` changes one connection, so the component objects and the other connections stay as they were.

Numbers are mostly stored the way the examples store them, as `str(n)`. `Decimal.DecimalText` models that text. Every setter that stores `str(n)` proves that the text parses back to the number given. The one exception is `set_num_operations_per_iteration` at first_soc/applications.py:41, which stores the integer itself. `SocApplications.SetNumOperationsPerIterationAsWritten` models it as written, and nothing is proved to parse back there. See the second row under "## Findings". `SocApplications.SetNumOperationsPerIteration` states the evidently intended `str(amount)`. No other member calls either version, and none calls `SocApplications.NewLoopApplication`.

`create_tests` is modelled as one method per loop level:
- `MyExperiment.CreateTests` holds the read-rate loop.
- `MyExperiment.CreateWriteBlock` holds the write-rate loop.
- `MyExperiment.CreateLatencyBlock` holds the latency loop.
- `MyExperiment.CreateCapacityBlock` holds the capacity loop and its body.

Each method updates `tests` in place, in the source's loop order. Each is proved against `Register`, a fold that files one model per case, over its own level of `DesignSpace.Sweep`. `Sweep` lists the cases in the order the loops visit them.

The properties proved about that fold:
- the set of test names;
- the model filed under each name;
- how many tests there are;
- when a repeated axis value makes one test overwrite another.

Test names are given an inverse, `CaseNames.ParseCaseName`, so that a name can be shown to determine its point.

NumberTestBench is not imported in first_soc/my_experiment.py as written. The model takes the name to mean the class in first_experiment/containers.py.

## Model

| member | source | states |
|---|---|---|
| Decimal.DecimalRoundTrip | first_test_bench/components.py:29-30 | the text `str(i)` stores for any integer `i`, a sign and digits, parses back to `i` |
| Decimal.DecimalInjective | first_soc/components.py:19-20 | different numbers are stored as different texts |
| CaseNames.CaseNameRoundTrip | first_soc/my_experiment.py:44 | the test name of a point decodes back to exactly that point's four values |
| CaseNames.CaseNameInjective | first_soc/my_experiment.py:44 | two different points never share a test name |
| DesignSpace.SweepMembers | first_soc/my_experiment.py:38-41 | a point is visited exactly when its read rate, write rate, latency and capacity each lie on their axis |
| DesignSpace.CaseCount | first_soc/my_experiment.py:38-41 | the loops visit the product of the four axis lengths many points |
| DesignSpace.SweepDistinct | first_soc/my_experiment.py:38-41 | axes without repeated values give pairwise different points |
| DesignSpace.SweepDistinctIff | first_soc/my_experiment.py:38-41 | with every axis non-empty, the visited points are pairwise different exactly when no axis repeats a value |
| DesignSpace.SweepBlockAt | first_soc/my_experiment.py:38 | the block for the `a`-th read rate starts at `a` times the size of one write sweep, in read-rate order |
| DesignSpace.WriteBlockAt | first_soc/my_experiment.py:39 | within one read rate, the block for the `b`-th write rate starts at `b` times the size of one latency sweep |
| DesignSpace.LatencyBlockAt | first_soc/my_experiment.py:40-41 | within one read and write rate, the point at `c` times the number of capacities plus `j` has the `c`-th latency and the `j`-th capacity |
| DesignSpace.SweepBlockAtProduct | first_soc/my_experiment.py:38 | the same as SweepBlockAt with ordinary products: the `a`-th read rate's block starts at position `a * (W * (L * C))`, for axis lengths W, L and C, and is one write sweep long |
| DesignSpace.WriteBlockAtProduct | first_soc/my_experiment.py:39 | the same as WriteBlockAt with ordinary products: the `b`-th write rate's block starts at position `b * (L * C)` and is one latency sweep long |
| DesignSpace.LatencyBlockAtProduct | first_soc/my_experiment.py:40-41 | the same as LatencyBlockAt with ordinary products: position `c * C + j` holds the `c`-th latency and the `j`-th capacity |
| DesignSpace.SweepConcat | first_soc/my_experiment.py:38 | sweeping the read rates `rs1 + rs2` visits the points of `rs1`, then those of `rs2` |
| Hestia.Component.SetParameterValue | first_soc/applications.py:17 | assigning a parameter's value changes only that value, and no port or internal connection |
| Hestia.SetDecimal | first_soc/components.py:20 | storing `str(n)` changes only that parameter's value, which parses back to `n`, keeping every parameter named by its key and holding text |
| Hestia.Container.SetConnectionParams | first_experiment/containers.py:26 | the connection takes a copy of the settings, and nothing else in the container changes |
| NumberComponents.NewConsumer | first_test_bench/components.py:8-12 | a fresh "number_consumer" with the single read port "in", owned by it and filed under its name, and no parameters |
| NumberComponents.NewProducer | first_test_bench/components.py:17-25 | a fresh "number_producer" with write port "out" and the parameters num_transactions "100", min_number "0" and max_number "100" |
| NumberComponents.SetNumTransactions | first_test_bench/components.py:29-30 | only num_transactions changes, to text that parses back to the count given |
| NumberComponents.SetMinValue | first_test_bench/components.py:32-33 | only min_number changes, to text that parses back to the value given |
| NumberComponents.SetMaxValue | first_test_bench/components.py:35-36 | only max_number changes, to text that parses back to the value given |
| NumberContainers.NewNumberTestBench | first_experiment/containers.py:8-20 | a fresh bench holding a fresh "number_producer" with only the write port "out" and the default parameters, and a fresh "number_consumer" with only the read port "in", each owning its ports; they are joined from "out" to "in" by "producer_consumer", timed in the given domain, and data can flow along it |
| NumberContainers.SetNumTransactions | first_experiment/containers.py:22-23 | forwarded to the producer: only its num_transactions changes, to text that parses back to the count; its ports and internal connections, the consumer, the components and the connections stay as they were |
| NumberContainers.SetConnectionParams | first_experiment/containers.py:25-26 | "producer_consumer" takes the given settings, and the components stay as they were |
| SocComponents.ProcessorParameters | first_soc/components.py:16-17 | a processor's parameters: memory_name holds the memory's name; num_registers has type UINT and text that parses to 10; each is named by its key |
| SocComponents.PipelinedParametersAsWritten | first_soc/components.py:105-106 | as written, two parameters are named "memory_name" and none "num_registers", so the parameters are not named by their keys |
| SocComponents.NewFunctionalProcessor | first_soc/components.py:10-17 | a fresh "functional_processor" with only the doorbell read port and the processor parameters |
| SocComponents.NewMemoryBoundProcessor | first_soc/components.py:26-43 | a fresh "memory_bound_processor" with the five processor ports, the FIFO "decoded_instruction" with default settings, and the processor parameters |
| SocComponents.NewPerformantProcessor | first_soc/components.py:53-75 | a fresh "performant_processor" whose four pipeline stages (fetcher, decoder, executor, write_back) are timed in the given domain |
| SocComponents.NewPipelinedProcessor | first_soc/components.py:84-106 | a fresh "pipelined_processor" like the performant one, with parameters named by their keys (the corrected line 106) |
| SocComponents.NewMemory | first_soc/components.py:115-122 | a fresh "memory" with the array ports requests (read) and responses (write) and its memory_name |
| SocComponents.SetNumRegisters | first_soc/components.py:19-20 | only num_registers changes, to text that parses back to the count given; the same at lines 46-47, 78-79 and 109-110 |
| SocApplications.LoopParameters | first_soc/applications.py:29-32 | the loop driver's four parameters, all typed STRING: memory_name, num_iterations and num_ops_per_iteration both parsing to 100, and mode "alu" |
| SocApplications.NewSimpleApplication | first_soc/applications.py:8-14 | a fresh "simple_driver" with the doorbell read port and its memory_name |
| SocApplications.NewLoopApplication | first_soc/applications.py:23-32 | a fresh "loop_driver" with the doorbell read port and the loop parameters |
| SocApplications.SetMemoryName | first_soc/applications.py:16-17 | only memory_name changes, to the given text (also lines 34-35) |
| SocApplications.SetNumIterations | first_soc/applications.py:37-38 | only num_iterations changes, to text that parses back to the amount given |
| SocApplications.SetNumOperationsPerIterationAsWritten | first_soc/applications.py:40-41 | as written, the integer itself is stored, so the parameter no longer holds text |
| SocApplications.SetNumOperationsPerIteration | first_soc/applications.py:40-41 | corrected: `str(amount)` is stored, which parses back to the amount, and every parameter still holds text |
| SocApplications.SetMode | first_soc/applications.py:43-44 | only mode changes, to the given text |
| SocContainers.NewFunctionalTestBench | first_soc/containers.py:8-18 | a fresh driver "driver" and processor "processor", both with memory "mem", each owning only its "doorbell" read port, joined by "doorbell" with default settings; that connection joins a read port to a read port, so it is not direction-compatible |
| MyExperiments.MyExperiment.constructor | first_soc/my_experiment.py:26-32 | keeps name, path and parameters, sets the domain to "clk", and holds exactly the tests `create_tests` files on an empty map |
| MyExperiments.MyExperiment.CreateTests | first_soc/my_experiment.py:34-60 | the tests become the earlier tests with every case of the sweep filed in loop order |
| MyExperiments.MyExperiment.CreateWriteBlock | first_soc/my_experiment.py:39-60 | for one read rate, every write/latency/capacity case is filed in loop order; the shared settings stay timed in the domain |
| MyExperiments.MyExperiment.CreateLatencyBlock | first_soc/my_experiment.py:40-60 | for one read and write rate, every latency/capacity case is filed in loop order; the shared settings stay timed in the domain |
| MyExperiments.MyExperiment.CreateCapacityBlock | first_soc/my_experiment.py:41-60 | for one read rate, write rate and latency, each capacity's settings are written into the shared settings and its case is built and filed, in loop order |
| MyExperiments.BuildCase | first_soc/my_experiment.py:42-53 | the bench for one point is named after the point; it builds to producer parameters with num_transactions set, an empty consumer, and the one link carrying the point's settings |
| MyExperiments.RegisterKeys | first_soc/my_experiment.py:60 | after filing, the test names are the earlier names plus the names of the cases |
| MyExperiments.RegisterAt | first_soc/my_experiment.py:60 | the test under a case's name is that case's model |
| MyExperiments.RegisterOthers | first_soc/my_experiment.py:60 | a test under a name that no case has is left as it was |
| MyExperiments.RegisterSize | first_soc/my_experiment.py:60 | pairwise different cases whose names are new add one test each |
| MyExperiments.RegisterOverwrites | first_soc/my_experiment.py:60 | a repeated case adds fewer tests than there are cases, because the later model overwrites the earlier |
| MyExperiments.TestNames | first_soc/my_experiment.py:38-44 | there is a test named after a point exactly when each of its four values lies on its axis |
| MyExperiments.TestOfName | first_soc/my_experiment.py:42-60 | every test name decodes to a swept point; its model names the bench after it, declares the experiment's clock domain with 1, has a producer count that parses to the experiment's, and a timed link whose four settings are the ones in the name |
| MyExperiments.TestCount | first_soc/my_experiment.py:38-60 | with no repeated axis value there are exactly as many tests as the product of the four axis lengths |
| MyExperiments.TestCountIff | first_soc/my_experiment.py:38-60 | with non-empty axes, the test count equals that product exactly when no axis repeats a value |
| MyExperiments.DefaultTests | first_soc/my_experiment.py:16-22 | with the default parameters the experiment holds the single test "r_1.w_1.l_1.c_1" |
| MyExperiments.RunTests | first_soc/my_experiment.py:115-121 | the parameters `run()` uses give 625 tests |
| CounterTraces.Classify | first_soc/my_experiment.py:69-72 | a column feeds production exactly when it ends in "stats.pushed", and consumption exactly when it ends in "stats.popped" |
| CounterTraces.DropIdleTail | first_soc/my_experiment.py:75-76 | `[:-10]` keeps a prefix: all but the last ten, and nothing from ten or fewer |
| CounterTraces.GetData | first_soc/my_experiment.py:62-77 | the result has exactly the keys production and consumption; each holds that series' samples, row by row and column by column, with the idle tail dropped |
| CounterTraces.RowSamplesMembers | first_soc/my_experiment.py:68-72 | a cell is a sample of a series exactly when a column feeding that series holds it |
| CounterTraces.RowSamplesDisjoint | first_soc/my_experiment.py:69-72 | no column feeds both series, so one row gives at most as many samples as it has columns |
| CounterTraces.SamplesConcat | first_soc/my_experiment.py:67-72 | reading more rows only appends samples |
| CounterTraces.OneSamplePerRow | first_soc/my_experiment.py:67-72 | with one counter of a series per row, the series has one sample per row, the `i`-th from row `i` |
| CounterTraces.TrimmedPerRow | first_soc/my_experiment.py:74-76 | with one counter per row, the returned series holds the samples of all but the last ten rows, in order |

## Left out

- The hestia framework itself is not part of this model. Component, Container, Port, Parameter, ConnectionParameters, InternalConnection, Connection and Model are stated only as far as the examples use them.
- `DefaultConnectionParameters`, the settings of a fresh `ConnectionParameters()`, is left unspecified, because the framework fixes them. The `FunctionalTestBench` connection and the memory-bound processor's FIFO carry these settings.
- The domain is a plain string. The `encode("utf-8")` and `ctypes.c_char_p` wrapping of the domain is left out, because it is a foreign-call detail.
- The engine calls in `create_tests` are left out, because they run inside the engine: `attach_basic_stats_to_connections`, `create_csv_sampler` and `attach_counters_to_sampler`. `Model(path)` and `add_clock_domain(domain, 1)` are kept as the `path` and `clockDomains` of `BuiltModel`.
- `Experiment.run`, `generate_report`, `generate_reports`, matplotlib, the process pool, directory handling and argument parsing are left out, because they are I/O. Of `run()`, only its parameter values are kept (`RunParameters`, `RunTests`).
- The `Experiment` base class is not part of this model. It is taken to start with `name` kept and `tests` empty.
- first_soc/functional_test_bench.py is not part of this model.
- `copy(params)` and the lists `run()` copies are modelled as values. Aliasing between the caller's lists and the experiment's is not captured, and neither is the one settings object shared by the four pipeline stages. Nothing mutates these objects afterwards.
- The shared `ConnectionParameters` object in `create_tests` is a value updated field by field. `set_params` is taken to copy it. Each bench is built before the next update, so the built models would be the same if it kept a reference.
- CounterTraces.GetData takes the rows of counters.csv already read. Each row is its column names with their cells, in header order. Opening and parsing the file is left out. So are the reader's handling of duplicate headers and of rows longer or shorter than the header: a longer row would add a column `None`, and `endswith` would fail on it.
- CounterTraces.GetData keeps the cells as text, which is what the CSV reader yields, even though the source annotates the result as lists of integers.
- DesignSpace.SweepBlockAt: like WriteBlockAt and LatencyBlockAt and their `Product` forms, it states the visiting order one loop level at a time. None of them gives the index of a point in the whole sweep as a single mixed-radix formula; the position of a point follows by applying the three in turn.
- Decimal.DecimalText treats `str(int)` as total. Recent Python releases (3.11 onwards, and back-ported patch releases of 3.7 to 3.10) raise `ValueError` when converting an integer of more than 4300 digits. So the `str(...)` setters and the test name of first_soc/my_experiment.py:44 would fail there. No value in the examples comes near that size.
- The setters require their parameter key to be present. The source would raise `KeyError` without it, and every factory here creates the key.

## Findings

| source | as written | input that shows it | evidently intended | confidence | as-written member | corrected member |
|---|---|---|---|---|---|---|
| first_soc/components.py:106 | the register count is filed under "num_registers" but named "memory_name" | `PipelinedProcessor("p", "clk", "mem")`: two parameters are named "memory_name" and none "num_registers" | the name "num_registers", as in the other three processors | high, not executed | SocComponents.PipelinedParametersAsWritten | SocComponents.NewPipelinedProcessor |
| first_soc/applications.py:41 | `set_num_operations_per_iteration` stores the integer itself | `set_num_operations_per_iteration(5)`: the value becomes the int 5 and not the text "5" that every other setter stores | `str(amount)`, as in `set_num_iterations` | high, not executed | SocApplications.SetNumOperationsPerIterationAsWritten | SocApplications.SetNumOperationsPerIteration |
