# SeaTunnel node service and Doris type converter

This project models two parts of Apache SeaTunnel in Dafny and proves properties of them.

**The engine's per-node service (`SeaTunnelServer`, module `NodeService`).** Each node of the
SeaTunnel engine cluster runs one of these services. It owns the node's sub-services:

- the task execution service;
- the slot service, created lazily and at most once;
- the coordinator service, which answers only on the master node;
- a monitor that prints pool statistics every 60 seconds.

The model is a class with those fields. Each sub-service is a handle. Every call the node makes
into a sub-service is recorded, in order, in a `calls` trace. The methods model these
source operations, with their branches and constants:

- `getSlotService` and `init`;
- `shutdown`, with its null guards and fixed stop order;
- `getCoordinatorService`: a master-only check, then at most 20 one-second waits for the
  coordinator to become active;
- `memberRemoved`: a master-only guard that logs every engine exception rather than raising it.

Two behaviours of the code are worth knowing, and the model has both:

- `shutdown` is not idempotent. A second call repeats every stop call, and the task execution
  service is stopped without a null check.
- `getCoordinatorService` re-reads `isRunning` before every wait and stops polling once the node
  stops running. After the loop it asks the coordinator once more, so a coordinator that became
  active after the last wait is still returned.

Two pure queries are modelled as functions:

- `taskIsEnded`: a lookup in the running-state map;
- `isMasterNode`: an address comparison against the observed master.

**The Doris connector's type converter (module `DorisTypeConverter`).**

- `Convert` maps a Doris column definition to an engine column.
- `Reconvert` maps an engine column back to a Doris column definition.

The converter's own source is not part of this model. What is modelled is the behaviour its test
class `DorisTypeConvertorTest` pins down. Each test method is covered by a lemma in module
`DorisTypeConverterTests`, proved for every choice of the converter's constants the tests allow.
Tests that differ only in the type checked share one lemma: the byte, short, int and long
reconversions share `TestReconvertIntegers`, and the float and double ones share
`TestReconvertFloats`.
Beyond the tested points the model proves:

- both round trips, each against a reference definition of what the trip changes (`Canonical`
  for Doris definitions, `Widen` for engine types);
- that a second round trip changes nothing;
- how string lengths are classified into CHAR, VARCHAR and STRING.

Modelling choices:

- Column-type text such as `decimalv3(36,2)` is modelled already split, as a name and its
  arguments.
- The Doris type-name constants are the constructors of `DorisName`.
- Several constants have values that are not part of this model: MAX_STRING_LENGTH,
  DEFAULT_PRECISION, DEFAULT_SCALE and the CHAR/VARCHAR/STRING length cut-offs. They are
  fields of a `Limits` parameter. `ValidLimits` constrains only the length cut-offs, and only by the tested points:
  - 255 is a CHAR;
  - 65535 is a VARCHAR;
  - 16777215 is a STRING;
  - 4294967295 is too long.
- Where the tests leave a corner open, the model makes a choice:
  - Source type before length: a string column that came from LARGEINT goes back to LARGEINT,
    and one that came from JSON or JSONB goes back to JSONB, whatever its length.
  - Empty length: a length that is absent or 0 gives STRING.
  - Decimal precision: a decimal column type without arguments gets DEFAULT_PRECISION. With
    arguments, it takes the definition's precision field, or DEFAULT_PRECISION when that field
    is absent.
  - Decimal scale: a decimal definition without a scale field gets DEFAULT_SCALE.
  - Reconverting a decimal of precision 0 gives DECIMALV3(DEFAULT_PRECISION, DEFAULT_SCALE)
    whatever its scale, so a non-zero scale is dropped. Every reconverted decimal has its
    precision and scale fields set to the numbers in its column type.
  - Time: a time column reconverts to VARCHAR(8) with length 8. The tests check only the
    column type and the data type.
  - String lengths on reconversion: CHAR and VARCHAR keep the column length in the length
    field; STRING gets none.
  - Other fields: every reconverted definition carries the column's name, nullability, default
    and comment. Length, precision and scale fields that neither the tests nor the choices
    above set are left absent.
  - Lengths of other types: `Convert` gives no column length to types other than strings and
    decimals.
  - Arrays: the Doris array names convert to arrays of the element the array table gives.
    BOOLEAN converts to the engine's boolean.

Files:

- `wrappers.dfy`: Option and Result.
- `node_service.dfy`: the per-node service.
- `doris_type_converter.dfy`: the converter and its general lemmas.
- `doris_type_converter_tests.dfy`: the tested cases.

## Model

| member | source | states |
|---|---|---|
| NodeService.SeaTunnelServer.constructor | seatunnel-engine/seatunnel-engine-server/src/main/java/org/apache/seatunnel/engine/server/SeaTunnelServer.java:67-77 | A new service belongs to the given node address and is running. It has no task execution, slot, coordinator or monitor service yet, and it has made no calls into sub-services. `Valid` holds from the start. |
| NodeService.SeaTunnelServer.GetSlotService | seatunnel-engine/seatunnel-engine-server/src/main/java/org/apache/seatunnel/engine/server/SeaTunnelServer.java:83-94 | Returns the slot service with dynamic slots and slot number 2. The trace grows by Bootstrap of the old slot service: one initialisation when there was none, no call otherwise. `Valid` is kept: the trace holds exactly one initialisation when the slot service exists and none before. |
| NodeService.SeaTunnelServer.Init | seatunnel-engine/seatunnel-engine-server/src/main/java/org/apache/seatunnel/engine/server/SeaTunnelServer.java:98-109 | Starts a new task execution service. Bootstraps the slot service through getSlotService (an existing one is kept). Creates the coordinator for this node. Schedules the monitor at delay 0 and period 60 s. The trace grows by exactly these calls, in this order. |
| NodeService.SeaTunnelServer.Shutdown | seatunnel-engine/seatunnel-engine-server/src/main/java/org/apache/seatunnel/engine/server/SeaTunnelServer.java:117-130 | Clears isRunning. Appends exactly the stop calls of StopSequence for the sub-services present. No slot service is initialised again. |
| NodeService.StopSequence | seatunnel-engine/seatunnel-engine-server/src/main/java/org/apache/seatunnel/engine/server/SeaTunnelServer.java:119-129 | The monitor, slot-service and coordinator stops occur exactly when that service is present. The executor and task-execution stops always occur. Shutdown never initialises anything. |
| NodeService.StopSequenceInOrder | seatunnel-engine/seatunnel-engine-server/src/main/java/org/apache/seatunnel/engine/server/SeaTunnelServer.java:118-130 | Every shutdown stops each sub-service at most once, in the dependency order monitor, slot service, coordinator, executor, task execution service. |
| NodeService.PrependStopKeepsOrder | seatunnel-engine/seatunnel-engine-server/src/main/java/org/apache/seatunnel/engine/server/SeaTunnelServer.java:119-127 | A null-guarded stop placed before later-ranked stops keeps the stop order. |
| NodeService.InitCount | seatunnel-engine/seatunnel-engine-server/src/main/java/org/apache/seatunnel/engine/server/SeaTunnelServer.java:86-89 | Counts slot-service initialisations in a trace. The count is zero exactly when the trace has none, and never exceeds the trace's length. |
| NodeService.Bootstrap | seatunnel-engine/seatunnel-engine-server/src/main/java/org/apache/seatunnel/engine/server/SeaTunnelServer.java:84-91 | The calls of the bootstrap hold one initialisation when there is no slot service and none when there is one. |
| NodeService.BootstrapInitialisesOnce | seatunnel-engine/seatunnel-engine-server/src/main/java/org/apache/seatunnel/engine/server/SeaTunnelServer.java:83-94 | From a trace that initialised the slot service exactly when it exists, a bootstrap leaves exactly one initialisation, whether or not the service existed. |
| NodeService.InitCountAppend | seatunnel-engine/seatunnel-engine-server/src/main/java/org/apache/seatunnel/engine/server/SeaTunnelServer.java:83-94 | Initialisations in consecutive stretches of calls add up. Init and Shutdown use it to keep the count of one in `Valid` across their later calls. |
| NodeService.InitCountIsMultiplicity | seatunnel-engine/seatunnel-engine-server/src/main/java/org/apache/seatunnel/engine/server/SeaTunnelServer.java:83-94 | The count equals the multiplicity of the initialisation call in the trace, read as a multiset. |
| NodeService.IsMasterNode | seatunnel-engine/seatunnel-engine-server/src/main/java/org/apache/seatunnel/engine/server/SeaTunnelServer.java:211-221 | Fails with "cluster have no master node" exactly when no master is known. Otherwise the node is master iff the master address is its own. |
| NodeService.CoordinatorWaits | seatunnel-engine/seatunnel-engine-server/src/main/java/org/apache/seatunnel/engine/server/SeaTunnelServer.java:170-178 | The number of waits, given the coordinator's answers and the value of isRunning read before each wait: at most 20. Before every wait the coordinator answered inactive and the node was still running. The polling stops because the coordinator answered active, 20 waits were made, or the node had stopped running at that read. |
| NodeService.CoordinatorWaitsIsFirstStop | seatunnel-engine/seatunnel-engine-server/src/main/java/org/apache/seatunnel/engine/server/SeaTunnelServer.java:170-178 | Any wait count with those stopping properties is the one the loop produces. The loop stops at its first chance. |
| NodeService.ShutdownEndsPolling | seatunnel-engine/seatunnel-engine-server/src/main/java/org/apache/seatunnel/engine/server/SeaTunnelServer.java:170-178 | If the node has stopped running by the n-th read of isRunning (n at most 20), the polling makes at most n waits. |
| NodeService.SeaTunnelServer.GetCoordinatorService | seatunnel-engine/seatunnel-engine-server/src/main/java/org/apache/seatunnel/engine/server/SeaTunnelServer.java:166-187 | No master: fails with NoMasterNode, without waiting. Not master: fails with the inactive-master error, without waiting. On the master: re-reads isRunning before each wait and waits exactly CoordinatorWaits times (none when the node is no longer running), then returns the node's coordinator iff the final check answers active, and otherwise fails with "Can not get coordinator service". |
| NodeService.SeaTunnelServer.MemberRemoved | seatunnel-engine/seatunnel-engine-server/src/main/java/org/apache/seatunnel/engine/server/SeaTunnelServer.java:138-146 | The event reaches the coordinator only when the guard says the node is master and the coordinator becomes active within the polling of getCoordinatorService (CoordinatorWaits waits, cut short when the node stops running). Every engine exception on the way is logged, never raised: no master, inactive master, coordinator not active, or a failure inside the coordinator's handler. A forwarded event is recorded in the trace, and nothing else is; the slot-service count in `Valid` is kept. A non-master node does nothing and logs nothing. |
| NodeService.TaskIsEnded | seatunnel-engine/seatunnel-engine-server/src/main/java/org/apache/seatunnel/engine/server/SeaTunnelServer.java:199-208 | False without a running-state map, and false without an entry for the location. Otherwise true iff the stored state is FINISHED, CANCELED or FAILED. |
| NodeService.TaskIsEndedStable | seatunnel-engine/seatunnel-engine-server/src/main/java/org/apache/seatunnel/engine/server/SeaTunnelServer.java:199-208 | Once a task group reads as ended, it keeps reading as ended under any update that leaves end states in place. |
| NodeService.NodeLifecycle | seatunnel-engine/seatunnel-engine-server/src/main/java/org/apache/seatunnel/engine/server/SeaTunnelServer.java:83-130 | Runs init, getSlotService twice, then shutdown. Both callers get the same slot service. The full call trace is exactly the nine expected calls: one initialisation, then the stops in dependency order. |
| DorisTypeConverter.ArrayElement | seatunnel-connectors-v2/connector-doris/src/test/java/org/apache/seatunnel/connectors/doris/datatype/DorisTypeConvertorTest.java:727-790 | An array name's element is never an array or a decimal. |
| DorisTypeConverter.ArrayName | seatunnel-connectors-v2/connector-doris/src/test/java/org/apache/seatunnel/connectors/doris/datatype/DorisTypeConvertorTest.java:727-790 | Each supported element type has a Doris array name, and that name's element is the type again. |
| DorisTypeConverter.ArrayNamesInverse | seatunnel-connectors-v2/connector-doris/src/test/java/org/apache/seatunnel/connectors/doris/datatype/DorisTypeConvertorTest.java:727-790 | The array-name and array-element tables are inverse to each other, in both directions. |
| DorisTypeConverter.Convert | seatunnel-connectors-v2/connector-doris/src/test/java/org/apache/seatunnel/connectors/doris/datatype/DorisTypeConvertorTest.java:40-374 | Fails with UnsupportedColumnType exactly for an unknown column type. Name, nullability, default and comment are carried over, and the source type is the input column type. The result is a string exactly for largeint/char/varchar/string/json/jsonb. It is a boolean exactly for boolean or `tinyint(1)`. It is never a byte, time or bytes type. A decimal's length is the definition's precision and its scale is the decimal type's scale. |
| DorisTypeConverter.ConvertNumbers | seatunnel-connectors-v2/connector-doris/src/test/java/org/apache/seatunnel/connectors/doris/datatype/DorisTypeConvertorTest.java:54-205 | null, boolean, the integers and the floating-point names convert with the definition's metadata and no length or scale. |
| DorisTypeConverter.ConvertLargeint | seatunnel-connectors-v2/connector-doris/src/test/java/org/apache/seatunnel/connectors/doris/datatype/DorisTypeConvertorTest.java:165-177 | largeint converts to a string of length 39 with no scale. |
| DorisTypeConverter.ConvertSizedStrings | seatunnel-connectors-v2/connector-doris/src/test/java/org/apache/seatunnel/connectors/doris/datatype/DorisTypeConvertorTest.java:257-285 | char and varchar convert to a string whose length is the definition's length. |
| DorisTypeConverter.ConvertTexts | seatunnel-connectors-v2/connector-doris/src/test/java/org/apache/seatunnel/connectors/doris/datatype/DorisTypeConvertorTest.java:288-323 | string, json and jsonb convert to a string of length MAX_STRING_LENGTH. |
| DorisTypeConverter.ConvertDecimals | seatunnel-connectors-v2/connector-doris/src/test/java/org/apache/seatunnel/connectors/doris/datatype/DorisTypeConvertorTest.java:208-254 | decimal and decimalv3 convert to a decimal: precision DEFAULT_PRECISION without column-type arguments, else the definition's; scale the definition's (or DEFAULT_SCALE); length the definition's precision. |
| DorisTypeConverter.ConvertDates | seatunnel-connectors-v2/connector-doris/src/test/java/org/apache/seatunnel/connectors/doris/datatype/DorisTypeConvertorTest.java:326-347 | date and datev2 convert to the date type, with no length or scale. |
| DorisTypeConverter.ConvertDateTimes | seatunnel-connectors-v2/connector-doris/src/test/java/org/apache/seatunnel/connectors/doris/datatype/DorisTypeConvertorTest.java:350-374 | datetime and datetimev2 convert to the datetime type and keep the definition's scale. |
| DorisTypeConverter.ConvertArrays | seatunnel-connectors-v2/connector-doris/src/test/java/org/apache/seatunnel/connectors/doris/datatype/DorisTypeConvertorTest.java:727-790 | Each Doris array name converts to the engine array whose element the array table names, with no length or scale. |
| DorisTypeConverter.Reconvert | seatunnel-connectors-v2/connector-doris/src/test/java/org/apache/seatunnel/connectors/doris/datatype/DorisTypeConvertorTest.java:377-790 | Name, nullability, default and comment are carried over. The data type is the column type's name, which is known. It fails exactly for an array of an element type Doris lacks (UnsupportedDataType), or for a plain string too long for STRING (StringTooLong with that length). |
| DorisTypeConverter.StringColumnType | seatunnel-connectors-v2/connector-doris/src/test/java/org/apache/seatunnel/connectors/doris/datatype/DorisTypeConvertorTest.java:572-651 | A string column becomes CHAR(n) or VARCHAR(n) (both with the length n as argument) or STRING (no argument). Otherwise it is an error naming the too-long length. |
| DorisTypeConverter.StringClasses | seatunnel-connectors-v2/connector-doris/src/test/java/org/apache/seatunnel/connectors/doris/datatype/DorisTypeConvertorTest.java:377-392 | Under the tested cut-offs each length picks exactly one class: CHAR up to charMax, VARCHAR up to varcharMax, STRING up to stringMax, and an error above. |
| DorisTypeConverter.StringClassMonotone | seatunnel-connectors-v2/connector-doris/src/test/java/org/apache/seatunnel/connectors/doris/datatype/DorisTypeConvertorTest.java:612-651 | A longer string never gets a smaller Doris string type. |
| DorisTypeConverter.ReconvertSpecialStrings | seatunnel-connectors-v2/connector-doris/src/test/java/org/apache/seatunnel/connectors/doris/datatype/DorisTypeConvertorTest.java:572-651 | A string that came from LARGEINT goes back to LARGEINT; one from JSON or JSONB goes back to JSONB; neither has a length. |
| DorisTypeConverter.ReconvertSizedStrings | seatunnel-connectors-v2/connector-doris/src/test/java/org/apache/seatunnel/connectors/doris/datatype/DorisTypeConvertorTest.java:572-651 | Any other string gets the class StringColumnType gives, keeping its length for CHAR and VARCHAR and dropping it for STRING. |
| DorisTypeConverter.BytesAlwaysReconvert | seatunnel-connectors-v2/connector-doris/src/test/java/org/apache/seatunnel/connectors/doris/datatype/DorisTypeConvertorTest.java:510-569 | Binary columns reconvert to STRING at every length, with no error. |
| DorisTypeConverter.ReconvertArrays | seatunnel-connectors-v2/connector-doris/src/test/java/org/apache/seatunnel/connectors/doris/datatype/DorisTypeConvertorTest.java:727-790 | An array of an element type Doris has reconverts to the plain Doris array name, with the column's metadata. |
| DorisTypeConverter.WidenFixesConvertRange | seatunnel-connectors-v2/connector-doris/src/test/java/org/apache/seatunnel/connectors/doris/datatype/DorisTypeConvertorTest.java:409-481 | Widening changes no type convert produces, except a decimal of precision 0. |
| DorisTypeConverter.EngineRoundTrip | seatunnel-connectors-v2/connector-doris/src/test/java/org/apache/seatunnel/connectors/doris/datatype/DorisTypeConvertorTest.java:409-790 | Any column reconvert accepts converts back with its metadata. Its type comes back widened: byte to short, time and bytes to string, a 0-precision decimal to the default decimal, everything else unchanged. A datetime keeps its scale. A CHAR/VARCHAR-sized string keeps its length. |
| DorisTypeConverter.DecimalEngineRoundTrip | seatunnel-connectors-v2/connector-doris/src/test/java/org/apache/seatunnel/connectors/doris/datatype/DorisTypeConvertorTest.java:484-507 | A decimal comes back as the same decimal, or as the default decimal when its precision is 0. |
| DorisTypeConverter.StringEngineRoundTrip | seatunnel-connectors-v2/connector-doris/src/test/java/org/apache/seatunnel/connectors/doris/datatype/DorisTypeConvertorTest.java:572-651 | A string comes back as a string, and one sized as CHAR or VARCHAR keeps its length. |
| DorisTypeConverter.ArrayEngineRoundTrip | seatunnel-connectors-v2/connector-doris/src/test/java/org/apache/seatunnel/connectors/doris/datatype/DorisTypeConvertorTest.java:727-790 | An array comes back as the same array. |
| DorisTypeConverter.ScalarEngineRoundTrip | seatunnel-connectors-v2/connector-doris/src/test/java/org/apache/seatunnel/connectors/doris/datatype/DorisTypeConvertorTest.java:395-481 | Every other type comes back widened, and a datetime keeps its scale. |
| DorisTypeConverter.TemporalEngineRoundTrip | seatunnel-connectors-v2/connector-doris/src/test/java/org/apache/seatunnel/connectors/doris/datatype/DorisTypeConvertorTest.java:654-724 | Date and datetime come back unchanged (the datetime with its scale); time comes back as a string. |
| DorisTypeConverter.NumericEngineRoundTrip | seatunnel-connectors-v2/connector-doris/src/test/java/org/apache/seatunnel/connectors/doris/datatype/DorisTypeConvertorTest.java:395-481 | Void, boolean, short, int, long, float and double come back unchanged; byte comes back as short. |
| DorisTypeConverter.Canonical | seatunnel-connectors-v2/connector-doris/src/test/java/org/apache/seatunnel/connectors/doris/datatype/DorisTypeConvertorTest.java:54-374 | The reference definition of what a trip to the engine and back does to a Doris definition. It keeps the name, nullability, default and comment, and its data type is its column type's name, a known one. |
| DorisTypeConverter.CanonicalIsFixed | seatunnel-connectors-v2/connector-doris/src/test/java/org/apache/seatunnel/connectors/doris/datatype/DorisTypeConvertorTest.java:54-374 | The canonical form survives the trip and is its own canonical form. |
| DorisTypeConverter.DecimalIsFixed | seatunnel-connectors-v2/connector-doris/src/test/java/org/apache/seatunnel/connectors/doris/datatype/DorisTypeConvertorTest.java:208-254 | The same, for decimals. |
| DorisTypeConverter.SizedIsFixed | seatunnel-connectors-v2/connector-doris/src/test/java/org/apache/seatunnel/connectors/doris/datatype/DorisTypeConvertorTest.java:257-285 | The same, for char and varchar. |
| DorisTypeConverter.DateTimeIsFixed | seatunnel-connectors-v2/connector-doris/src/test/java/org/apache/seatunnel/connectors/doris/datatype/DorisTypeConvertorTest.java:350-374 | The same, for datetimes. |
| DorisTypeConverter.RenamedIsFixed | seatunnel-connectors-v2/connector-doris/src/test/java/org/apache/seatunnel/connectors/doris/datatype/DorisTypeConvertorTest.java:74-347 | The same, for boolean, tinyint, largeint, json, jsonb and date, which the trip renames. |
| DorisTypeConverter.KeptIsFixed | seatunnel-connectors-v2/connector-doris/src/test/java/org/apache/seatunnel/connectors/doris/datatype/DorisTypeConvertorTest.java:54-347 | The same, for the names the trip keeps. |
| DorisTypeConverter.DorisRoundTrip | seatunnel-connectors-v2/connector-doris/src/test/java/org/apache/seatunnel/connectors/doris/datatype/DorisTypeConvertorTest.java:54-374 | Any known definition whose char/varchar length is within the STRING cut-off converts, and reconverts to exactly its Canonical form. |
| DorisTypeConverter.SizedStringRoundTrip | seatunnel-connectors-v2/connector-doris/src/test/java/org/apache/seatunnel/connectors/doris/datatype/DorisTypeConvertorTest.java:257-285 | The same, for char and varchar: the length picks CHAR, VARCHAR or STRING. |
| DorisTypeConverter.LargeintRoundTrip | seatunnel-connectors-v2/connector-doris/src/test/java/org/apache/seatunnel/connectors/doris/datatype/DorisTypeConvertorTest.java:165-177 | The same, for largeint: kept when written without arguments, else CHAR(39). |
| DorisTypeConverter.TextRoundTrip | seatunnel-connectors-v2/connector-doris/src/test/java/org/apache/seatunnel/connectors/doris/datatype/DorisTypeConvertorTest.java:288-323 | The same, for string, json and jsonb: json comes back as JSONB, anything written with arguments as STRING. |
| DorisTypeConverter.DecimalRoundTrip | seatunnel-connectors-v2/connector-doris/src/test/java/org/apache/seatunnel/connectors/doris/datatype/DorisTypeConvertorTest.java:208-254 | The same, for decimal and decimalv3. |
| DorisTypeConverter.ArrayRoundTrip | seatunnel-connectors-v2/connector-doris/src/test/java/org/apache/seatunnel/connectors/doris/datatype/DorisTypeConvertorTest.java:727-790 | The same, for the array names. |
| DorisTypeConverter.DateRoundTrip | seatunnel-connectors-v2/connector-doris/src/test/java/org/apache/seatunnel/connectors/doris/datatype/DorisTypeConvertorTest.java:326-347 | The same, for date and datev2: both come back as DATEV2. |
| DorisTypeConverter.DateTimeRoundTrip | seatunnel-connectors-v2/connector-doris/src/test/java/org/apache/seatunnel/connectors/doris/datatype/DorisTypeConvertorTest.java:350-374 | The same, for datetime and datetimev2: both come back as DATETIMEV2 with their scale. |
| DorisTypeConverter.NumericRoundTrip | seatunnel-connectors-v2/connector-doris/src/test/java/org/apache/seatunnel/connectors/doris/datatype/DorisTypeConvertorTest.java:54-205 | The same, for null, boolean, the integers and the floating-point names. |
| DorisTypeConverter.RoundTripStable | seatunnel-connectors-v2/connector-doris/src/test/java/org/apache/seatunnel/connectors/doris/datatype/DorisTypeConvertorTest.java:54-790 | After one round trip, a second round trip gives back the identical definition. |
| DorisTypeConverterTests.TestConvertUnsupported | seatunnel-connectors-v2/connector-doris/src/test/java/org/apache/seatunnel/connectors/doris/datatype/DorisTypeConvertorTest.java:40-51 | Column type "aaa" is rejected. |
| DorisTypeConverterTests.TestConvertNull | seatunnel-connectors-v2/connector-doris/src/test/java/org/apache/seatunnel/connectors/doris/datatype/DorisTypeConvertorTest.java:54-71 | null gives exactly the void column with the definition's name, nullability, default, comment and source type. |
| DorisTypeConverterTests.TestConvertTinyint | seatunnel-connectors-v2/connector-doris/src/test/java/org/apache/seatunnel/connectors/doris/datatype/DorisTypeConvertorTest.java:74-110 | tinyint(1) gives exactly a boolean column. tinyint(2) and tinyint give a short column. |
| DorisTypeConverterTests.TestConvertSmallint | seatunnel-connectors-v2/connector-doris/src/test/java/org/apache/seatunnel/connectors/doris/datatype/DorisTypeConvertorTest.java:113-124 | smallint gives exactly a short column. |
| DorisTypeConverterTests.TestConvertInt | seatunnel-connectors-v2/connector-doris/src/test/java/org/apache/seatunnel/connectors/doris/datatype/DorisTypeConvertorTest.java:127-134 | int gives exactly an int column. |
| DorisTypeConverterTests.TestConvertBoolean | seatunnel-connectors-v2/connector-doris/src/test/java/org/apache/seatunnel/connectors/doris/datatype/DorisTypeConvertorTest.java:137-148 | tinyint(1) gives exactly a boolean column, even without a length. |
| DorisTypeConverterTests.TestConvertBigint | seatunnel-connectors-v2/connector-doris/src/test/java/org/apache/seatunnel/connectors/doris/datatype/DorisTypeConvertorTest.java:151-162 | bigint gives exactly a long column. |
| DorisTypeConverterTests.TestConvertLargeint | seatunnel-connectors-v2/connector-doris/src/test/java/org/apache/seatunnel/connectors/doris/datatype/DorisTypeConvertorTest.java:165-177 | largeint gives exactly a string column of length 39, whatever the data type says. |
| DorisTypeConverterTests.TestConvertFloat | seatunnel-connectors-v2/connector-doris/src/test/java/org/apache/seatunnel/connectors/doris/datatype/DorisTypeConvertorTest.java:180-191 | float gives exactly a float column. |
| DorisTypeConverterTests.TestConvertDouble | seatunnel-connectors-v2/connector-doris/src/test/java/org/apache/seatunnel/connectors/doris/datatype/DorisTypeConvertorTest.java:194-205 | double gives exactly a double column. |
| DorisTypeConverterTests.TestConvertDecimal | seatunnel-connectors-v2/connector-doris/src/test/java/org/apache/seatunnel/connectors/doris/datatype/DorisTypeConvertorTest.java:208-254 | decimal(18,9) with precision 27 gives DECIMAL(27,9), length 27, scale 9. Bare decimalv3 with precision 9 gives DECIMAL(DEFAULT_PRECISION,2), length 9. decimalv3(36,2) with precision 38 gives DECIMAL(38,2), length 38. |
| DorisTypeConverterTests.TestConvertChar | seatunnel-connectors-v2/connector-doris/src/test/java/org/apache/seatunnel/connectors/doris/datatype/DorisTypeConvertorTest.java:257-285 | char(2) and varchar(2) give exactly a string column of length 2. |
| DorisTypeConverterTests.TestConvertString | seatunnel-connectors-v2/connector-doris/src/test/java/org/apache/seatunnel/connectors/doris/datatype/DorisTypeConvertorTest.java:288-300 | string gives exactly a string column of length MAX_STRING_LENGTH. |
| DorisTypeConverterTests.TestConvertJson | seatunnel-connectors-v2/connector-doris/src/test/java/org/apache/seatunnel/connectors/doris/datatype/DorisTypeConvertorTest.java:303-323 | json and jsonb give exactly a string column of length MAX_STRING_LENGTH. |
| DorisTypeConverterTests.TestConvertDate | seatunnel-connectors-v2/connector-doris/src/test/java/org/apache/seatunnel/connectors/doris/datatype/DorisTypeConvertorTest.java:326-333 | date gives exactly a date column. |
| DorisTypeConverterTests.TestConvertDateV2 | seatunnel-connectors-v2/connector-doris/src/test/java/org/apache/seatunnel/connectors/doris/datatype/DorisTypeConvertorTest.java:336-347 | datev2 gives exactly a date column. |
| DorisTypeConverterTests.TestConvertDatetime | seatunnel-connectors-v2/connector-doris/src/test/java/org/apache/seatunnel/connectors/doris/datatype/DorisTypeConvertorTest.java:350-374 | datetime gives exactly a datetime column. datetimev2(3) with scale 3 also keeps scale 3. |
| DorisTypeConverterTests.TestStringTooLong | seatunnel-connectors-v2/connector-doris/src/test/java/org/apache/seatunnel/connectors/doris/datatype/DorisTypeConvertorTest.java:377-392 | A string of length 4294967295 is rejected with StringTooLong. |
| DorisTypeConverterTests.TestReconvertNull | seatunnel-connectors-v2/connector-doris/src/test/java/org/apache/seatunnel/connectors/doris/datatype/DorisTypeConvertorTest.java:395-406 | The void type gives exactly NULL, keeping name, nullability, default and comment. |
| DorisTypeConverterTests.TestReconvertBoolean | seatunnel-connectors-v2/connector-doris/src/test/java/org/apache/seatunnel/connectors/doris/datatype/DorisTypeConvertorTest.java:409-418 | boolean gives exactly BOOLEAN with length 1. |
| DorisTypeConverterTests.TestReconvertIntegers | seatunnel-connectors-v2/connector-doris/src/test/java/org/apache/seatunnel/connectors/doris/datatype/DorisTypeConvertorTest.java:421-459 | byte, short, int and long give exactly TINYINT, SMALLINT, INT and BIGINT. |
| DorisTypeConverterTests.TestReconvertFloats | seatunnel-connectors-v2/connector-doris/src/test/java/org/apache/seatunnel/connectors/doris/datatype/DorisTypeConvertorTest.java:462-481 | float and double give exactly FLOAT and DOUBLE. |
| DorisTypeConverterTests.TestReconvertDecimal | seatunnel-connectors-v2/connector-doris/src/test/java/org/apache/seatunnel/connectors/doris/datatype/DorisTypeConvertorTest.java:484-507 | DECIMAL(0,0) gives DECIMALV3(DEFAULT_PRECISION,DEFAULT_SCALE). DECIMAL(10,2) gives DECIMALV3(10,2). The precision and scale fields, which the test does not check, are the model's choice. |
| DorisTypeConverterTests.TestReconvertBytes | seatunnel-connectors-v2/connector-doris/src/test/java/org/apache/seatunnel/connectors/doris/datatype/DorisTypeConvertorTest.java:510-569 | Bytes give exactly STRING at no length, 255, 65535, 16777215 and 4294967295. |
| DorisTypeConverterTests.TestReconvertString | seatunnel-connectors-v2/connector-doris/src/test/java/org/apache/seatunnel/connectors/doris/datatype/DorisTypeConvertorTest.java:572-651 | A string from LARGEINT gives LARGEINT. From JSON or JSONB it gives JSONB. Lengths 255, 65535 and 16777215 give CHAR(255), VARCHAR(65535) (both keeping the length) and STRING. |
| DorisTypeConverterTests.TestReconvertDate | seatunnel-connectors-v2/connector-doris/src/test/java/org/apache/seatunnel/connectors/doris/datatype/DorisTypeConvertorTest.java:654-665 | date gives exactly DATEV2. |
| DorisTypeConverterTests.TestReconvertTime | seatunnel-connectors-v2/connector-doris/src/test/java/org/apache/seatunnel/connectors/doris/datatype/DorisTypeConvertorTest.java:668-695 | time gives VARCHAR(8) with or without a scale, as the test checks. The length 8 is the model's choice; the test does not check it. |
| DorisTypeConverterTests.TestReconvertDatetime | seatunnel-connectors-v2/connector-doris/src/test/java/org/apache/seatunnel/connectors/doris/datatype/DorisTypeConvertorTest.java:698-724 | datetime gives exactly DATETIMEV2. With scale 3 it gives DATETIMEV2(3) and keeps the scale. |
| DorisTypeConverterTests.TestReconvertArray | seatunnel-connectors-v2/connector-doris/src/test/java/org/apache/seatunnel/connectors/doris/datatype/DorisTypeConvertorTest.java:727-790 | Each of the listed (element, array name) pairs: arrays of boolean, byte, string, short, int, long, float and double give exactly the matching Doris array name. |

## Left out

- Concurrency. getSlotService's double-checked locking is modelled sequentially: both checks
  read the same field, and two racing callers are two calls in a row (NodeLifecycle).
- isMasterNode's own retries (20 attempts, 1 s apart, while the master address is unknown and
  the node is running) and the Hazelcast node engine are abstracted. The model takes a
  membership view whose master address is absent when no master became known within those
  retries.
- A shutdown that runs during getCoordinatorService's polling is modelled as the values that
  isRunning has at each read before a wait, a parameter. The model requires that a node that
  has already stopped running stays stopped for the whole call; a restart in between is not
  modelled.
- MemberRemoved: a failure inside the coordinator's handler is taken to be a
  SeaTunnelEngineException, which is logged. Other exceptions, which the source lets
  propagate, are not modelled.
- The one-second sleeps are not modelled, and neither is the InterruptedException that
  getCoordinatorService turns into a RuntimeException. The coordinator's isCoordinatorActive()
  answers are a parameter, indexed by call number.
- NullPointerExceptions are excluded by requires:
  - GetCoordinatorService and MemberRemoved require the coordinator to exist when the node is
    master; the source would throw there before init.
  - Shutdown requires init to have run, since the source stops the task execution service
    without a null check.
- The sub-services' own behaviour is not part of this model: the slot service, the task
  execution service, the coordinator's memberRemoved handling, the thread pools. Only the calls
  made into them are recorded. A failure inside the coordinator's handler is a boolean
  parameter.
- printExecutionInfo, printMessage, the constructor's logger and thread-pool setup, reset,
  memberAdded, populate and the plain getters only log or return fields. They are not modelled.
- The converter's implementation is not part of this model; only the behaviour its tests pin
  down is. The untested corners follow the choices listed above.
- Text handling is not modelled: parsing column-type text, case-insensitive comparison, and
  rendering "%s(%s)" strings.
- The engine's map and row types, and decimal precisions beyond what Doris supports, are not
  modelled. A nested array is modelled only as far as `Reconvert` rejects it with
  UnsupportedDataType, since no Doris array name has an array element.
- DorisRoundTrip, TextRoundTrip, RoundTripStable: these assume
  `StringLengthsAgree`, because the value of MAX_STRING_LENGTH is not part of this model. The
  assumption is that MAX_STRING_LENGTH lies above the VARCHAR cut-off and within the STRING
  cut-off. Without it, a STRING or JSON definition that converts to MAX_STRING_LENGTH could come
  back as another type.
