# The MQTT / SmartWeb gateway, modelled and proved

The program bridges MQTT and a SmartWeb CAN bus in both directions. This project models the parts of it
that carry state, loops or recursion and proves what they promise. `dafny verify dfyconfig.toml` checks it.

| module | file | what it models |
|---|---|---|
| Conventions | conventions.dfy | bit fields, frames and byte overlays of the wire format |
| Classes, OrderedKeys, Wrappers | classes.dfy, ordered_keys.dfy, wrappers.dfy | class descriptions, the visiting order of `std::map`, Option and Result |
| Inheritance, Requests | inheritance.dfy, requests.dfy | the `implements` relation and the recursion of `AddRequests` over it |
| Discovery, Polling, Routing, Gateway | discovery.dfy, polling.dfy, routing.dfy, gateway.dfy | the SmartWeb to MQTT gateway: announcements, the polling cursor, the way of an answer back to its parameter, and the object |
| Failures | failures.dfy | what the class loader lets through: a cycle, and an inherited input whose answer is lost |
| Codecs | codec.dfy | integers and enumerations between payload bytes and text |
| ClassLoader | class_loader.dfy | loading of class descriptions |
| ControllerConfig | controller_config.dfy | loading of virtual controllers and their channel names |
| Controller, ControllerRuns, ControllerGateway | controller.dfy, controller_runs.dfy, controller_gateway.dfy | the virtual controller as a step system, what holds over all its runs, and the object whose loop makes those steps |
| Resend, MissedUpdate | resend.dfy, missed_update.dfy | when an MQTT update is followed by a frame, and a run in which it is not |
| Scheduler | scheduler.dfy | the periodic scheduler |
| WriteHandshake, Dispatch | write_handshake.dfy, dispatch.dfy | the CAN port's write confirmation, its list of handlers, and the bounded queue of the reader |

Threads are interleavings: a step reads the clock at most once, sending an output frame is a step of its own, and what
other threads do may come between any two steps. Clock readings, MQTT values and the outcome of a write are inputs.
Clock readings never decrease. What was sent and received is kept in logs. Each method of a class that changes state
is proved against a function or a step system on values, and the theorems are about those: the object
`ControllerGateway.MqttToSmartWebGateway` carries the list of events it has gone through, and its invariant says that
its fields are exactly what those events made of the state in which the loop was entered. The theorems of
`ControllerRuns` and `Resend` are about every run from a state in which the loop can be entered
(`ControllerRuns.Entered`), so they hold of the object; a controller that was loaded is in such a state, also if its
channels were updated before the loop (`ControllerRuns.LoadedEnters`).

What the properties came out as, where a reader might expect something else:

- The scheduler is a little better than one iteration of slack: a due task among n starts within n
  iterations (plus one for each task added meanwhile), although the list is sorted only when its front is
  not due. See `Scheduler.BoundedOvertaking`.
- `AddRequests` ends exactly when no `implements` cycle can be reached (`Inheritance.TerminatesIffNoCycle`). The
  loader accepts a class that implements itself (`Failures.LoadedCycle`), so the gateway's operations demand that
  there is no cycle.
- A parameter request has two significant data bytes but still carries, behind them, the index of the last
  input or output request, because the frame buffer is shared. See `Requests.ParameterRequest`.
- Answers about inputs and outputs are looked up in the program's own class only. Those polled for an
  ancestor are therefore not delivered to the ancestor's parameter: `Routing.PollRoundTrip` says exactly
  which polls come back to where they started, `Failures.InheritedInput` where the others go, and
  `Failures.LostInput` is a loaded family of classes with which it happens.
- A send can time out although its confirmation has come: once the deadline has passed nothing looks at the flag
  again (`WriteHandshake.TimesOutConfirmed`). What holds of every send is `WriteHandshake.SendExact` with
  `WriteHandshake.ExpiryExact`.
- A send can return on the confirmation of an earlier frame whose send timed out
  (`WriteHandshake.LateConfirmation`). Every normal return means the sender's own frame exactly if nothing is
  outstanding when the send begins (`WriteHandshake.OwnConfirmationIff`).
- An MQTT update that comes while the output is being sent is missed, because the time of the last frame is taken
  after the sending (`MissedUpdate.UpdateMissed`). `Resend.ResendOnUpdate` says exactly which updates are followed.
- The error "duplicate output" of the controller loader cannot happen. See
  `ControllerConfig.NoDuplicateOutput`.
- The gap of 30 s between two sends of an output is measured from the postponement after one send to the second
  clock reading of the next check, because the code reads the clock at each comparison.

## Model

| member | source | states |
|---|---|---|
| Scheduler.StableSortSorts | src/scheduler.cpp:60-62 | the sort leaves a sorted permutation |
| Scheduler.StableSortIsStable | src/scheduler.cpp:60-62 | the sort puts one entry before another only if it is strictly earlier or was before it at the same time |
| Scheduler.Conservation | src/scheduler.cpp:39-67 | at every point of every run, also while a task runs with the lock released, the waiting tasks and the running one are exactly the initial and added ones |
| Scheduler.BoundedOvertaking | src/scheduler.cpp:39-67 | once a task is due, each other task starts at most once before it, and it starts within as many iterations as there are tasks, plus one for each task added meanwhile |
| Scheduler.AddedStarts | src/scheduler.cpp:87-92 | an added task is due at every clock reading, so it starts within as many iterations as there are tasks, itself included, plus one for each task added later |
| Scheduler.StartsAgain | src/scheduler.cpp:49-58 | a started task is due again exactly one period after its start, and starts within that many iterations from the first reading on that is not before |
| Scheduler.StartsAreSpaced | src/scheduler.cpp:49-58 | over every run the i-th and j-th start of a task are at least (j - i) periods apart |
| Scheduler.RateInWindow | src/scheduler.cpp:49-58 | a window of width W holds at most W / P + 1 starts of a task of period P |
| Scheduler.SimpleThreadedScheduler.AddTask | src/scheduler.cpp:87-92 | the new task is in front and due at once |
| Scheduler.SimpleThreadedScheduler.MakeIteration | src/scheduler.cpp:39-67 | an iteration with any tasks added while the mutex is released is the run of the step system with a tick, the additions, and the return of the task if one was started |
| Conventions.HeaderOfRaw | src/smart_web_conventions.h:214-226 | the bit fields of the raw word of a header are the header |
| Conventions.RawOfHeader | src/smart_web_conventions.h:214-226 | the raw word of the bit fields of a word is the word |
| Conventions.HeaderOfExtended | src/smart_web_conventions.h:214-226 | the extended-frame flag changes no field but the unused bits |
| Conventions.HeaderLayout | src/smart_web_conventions.h:214-226 | the bytes of a word, lowest first, are the program type, the program id, the function id, and format, message type and unused bits from the lowest bit up; the extended flag is the highest bit |
| Conventions.RawInfoIsKey | src/smart_web_conventions.h:228-275 | the first four data bytes as a word equal a parameter key exactly if they are its triple and a zero |
| Conventions.KeyInjective | src/smart_web_conventions.h:255-275 | different triples have different keys |
| Conventions.MappingRoundTrip | src/smart_web_conventions.h:59-83 | a mapping point read from two bytes and written gives the same two bytes |
| Conventions.MappingLayout | src/smart_web_conventions.h:59-83 | the host is the first byte of a mapping point, the channel the low five bits of the second, the type its high three |
| Inheritance.TerminatesIffNoCycle | src/SmartWebToMqttGateway.cpp:308-320 | inheritance paths, one for each recursive call, are bounded in length exactly if no cycle can be reached |
| Inheritance.StepUp | src/SmartWebToMqttGateway.cpp:308-320 | without cycles the set of ancestors shrinks from a class to its parent, which ends the recursion |
| Inheritance.PathsComplete | src/SmartWebToMqttGateway.cpp:308-320 | the listed paths are exactly the inheritance paths |
| Inheritance.PathsDistinct | src/SmartWebToMqttGateway.cpp:308-320 | each path is listed once |
| Inheritance.PathsInOrder | src/SmartWebToMqttGateway.cpp:286-320 | paths are listed in dictionary order: a class before its parents, the first parent with all its ancestors before the second |
| Inheritance.FirstNamedIsFirst | src/SmartWebToMqttGateway.cpp:310-316 | the class found for a name is the first visited that has it |
| Requests.AddRequests | src/SmartWebToMqttGateway.cpp:268-321 | earlier requests stay, and for every inheritance path, in the order of the recursion, the own requests of the class at its end are appended |
| Requests.AddOwnRequests | src/SmartWebToMqttGateway.cpp:274-306 | the three loops over the shared frame buffer append one request for each input, output and parameter, ascending by id, with exactly these bytes |
| Requests.AddParent | src/SmartWebToMqttGateway.cpp:308-320 | the search takes the first class of a parent name in the order in which the hash table is visited and adds its requests; without one it adds nothing |
| Requests.ExpandSize | src/SmartWebToMqttGateway.cpp:268-321 | the number of requests is the sum of inputs, outputs and parameters over all inheritance paths |
| Requests.RequestPerPath | src/SmartWebToMqttGateway.cpp:300-320 | a parameter request of a class occurs exactly once per inheritance path to that class, so a diamond repeats it |
| Requests.IndexedPerPath | src/SmartWebToMqttGateway.cpp:282-320 | the request for an input or output id occurs exactly once per path to a class that has it |
| Routing.RequestHasOrigin | src/SmartWebToMqttGateway.cpp:268-321 | every generated request comes from a parameter of the class at the end of some inheritance path |
| Routing.ParameterIsPolled | src/SmartWebToMqttGateway.cpp:268-321 | every input, output and parameter of the class at the end of an inheritance path is polled |
| Routing.OwnInOrder | src/SmartWebToMqttGateway.cpp:286-306 | the own requests of a class are those of its inputs, its outputs and its parameters, in that order, each ascending by id |
| Routing.PollsAreRequests | src/SmartWebToMqttGateway.cpp:274-280 | every polled frame is an extended REQUEST to that program for the function GET_PARAMETER_VALUE of type PT_REMOTE_CONTROL in format 0 |
| Routing.PollData | src/SmartWebToMqttGateway.cpp:282-306 | an input is polled by the three bytes PT_PROGRAM, SENSOR and its id, an output with OUTPUT, a parameter by the two bytes type and id |
| Routing.AcceptsExactly | src/SmartWebToMqttGateway.cpp:196-220 | for all header fields: a frame is accepted exactly if it is an extended RESPONSE in which a program of type PT_PROGRAM announces itself or PT_REMOTE_CONTROL gives a parameter value |
| Routing.AnswersAreAnswerTo | src/SmartWebToMqttGateway.cpp:435-445 | a frame has the header of a request turned into a response, and its leading data, exactly if it is the answer to it with some remaining bytes |
| Routing.PollRoundTrip | src/SmartWebToMqttGateway.cpp:435-471 | the answer to a generated request passes the filter and is handed to the parameter that caused it, read right behind the echoed bytes, exactly if the id fits a byte and the parameter's class is not of type PT_PROGRAM or the input or output is of the program's own class |
| Routing.RoutedAnswersPoll | src/SmartWebToMqttGateway.cpp:435-471 | a frame that is routed to any parameter echoes the request by which that parameter is polled, and an input or output is of the program's own class |
| Routing.OwnPathOnly | src/SmartWebToMqttGateway.cpp:446-460 | only the empty path ends in the program's own class, so polls for inherited inputs and outputs do not come back |
| Failures.LoadedCycle | src/config_parser.cpp:331-335 | a class that implements itself is loaded, and then inheritance paths are unbounded |
| Failures.InheritedInput | src/SmartWebToMqttGateway.cpp:446-460 | the answer to the poll of an inherited input or output goes to the program's own one of the same id, if there is one, and else nowhere |
| Failures.LostInput | src/SmartWebToMqttGateway.cpp:446-460 | with a loaded child and parent the poll of the parent's input is in the list and its answer is routed nowhere |
| Discovery.DiscoveryExact | src/SmartWebToMqttGateway.cpp:323-344 | after any announcements the requests are the expansions of the distinct programs in order of first valid announcement; repeated, malformed and unknown ones change nothing |
| Discovery.KnownPrograms | src/SmartWebToMqttGateway.cpp:335-341 | every known program has a loaded class whose type is its key and that its first valid announcement named |
| Discovery.RequestsAreKnown | src/SmartWebToMqttGateway.cpp:335-344 | every request in the list belongs to the expansion of a known program |
| Polling.CursorInRange | src/SmartWebToMqttGateway.cpp:222-242 | with appends between any two steps the cursor never passes the end of the list and requests keep their places |
| Polling.FairPolling | src/SmartWebToMqttGateway.cpp:222-242 | as many ticks as the list is long at the end send every request that was in it at the start |
| Polling.FullCycle | src/SmartWebToMqttGateway.cpp:222-242 | without appends n ticks send the n requests once each: from the cursor to the end, then from the start to the cursor |
| Gateway.SmartWebToMqttGateway.AddProgram | src/SmartWebToMqttGateway.cpp:323-344 | a new program announced with three bytes, the last of them a loaded type, becomes known with that class and its expansion is appended, which the cursor sees as an append; no other announcement changes anything |
| Gateway.SmartWebToMqttGateway.HandleMapping | src/SmartWebToMqttGateway.cpp:222-242 | a tick is a pick, the appends of the announcements handled meanwhile, and an advance; the frame sent is the one under the wrapped cursor; with no requests nothing happens |
| Gateway.SmartWebToMqttGateway.HandleFrame | src/SmartWebToMqttGateway.cpp:179-194 | a frame of type PT_PROGRAM and function I_AM_PROGRAM discovers its program, if it is new, announced with three bytes and of a loaded type, and changes nothing else; a frame with any other header changes neither known programs nor requests and gives exactly the reading of the parameter it is routed to |
| Gateway.SmartWebToMqttGateway.RequestHasOrigin | src/SmartWebToMqttGateway.cpp:335-344 | in every reachable state of the object, every request of its list polls a parameter for a known program |
| Gateway.SmartWebToMqttGateway.PollsAreRequests | src/SmartWebToMqttGateway.cpp:274-280 | in every reachable state of the object, every frame of its list is an extended REQUEST to a known program for a parameter value |
| Gateway.SmartWebToMqttGateway.AnswerReachesOrigin | src/SmartWebToMqttGateway.cpp:179-220 | for every parameter that a request polls for a known program, any answer to the request is accepted and gives exactly the one reading of that parameter, under the exact condition of the round trip |
| Codecs.EncodeInt | src/SmartWebToMqttGateway.h:100-109 | the shift loop writes the little-endian bytes of the value |
| Codecs.DecodeEncodeInt | src/SmartWebToMqttGateway.h:93-109 | for every width and signedness decoding the written bytes gives the value |
| Codecs.EncodeDecodeInt | src/SmartWebToMqttGateway.h:93-109 | for every width and signedness any bytes decode to a value of the type that encodes to the same bytes |
| Codecs.ParseOfText | src/SmartWebToMqttGateway.h:97-102 | the decimal text of an integer stands for that integer |
| Codecs.SetValueRoundTrip | src/SmartWebToMqttGateway.cpp:244-266 | a whole-number text set from MQTT travels in an extended REQUEST to that program and parameter for SET_PARAMETER_VALUE, and read where answers are read gives the same number, which a double holds exactly; it gives the same text exactly if it has no superfluous zeros and no minus sign before zero |
| Codecs.CanonicalIsToText | src/SmartWebToMqttGateway.h:93-109 | the texts without superfluous zeros and without a minus sign before zero are exactly those that `std::to_string` writes |
| Codecs.NotCanonical | src/SmartWebToMqttGateway.h:93-109 | 007 and -0 are read as 7 and 0 and do not come back |
| Codecs.TextRoundTrip | src/SmartWebToMqttGateway.h:93-109 | a payload decoded to text and set again is the same payload |
| Codecs.BuildKeys | src/SmartWebToMqttGateway.cpp:18-23 | the reverse table has every name once, with the smallest byte of that name |
| Codecs.EnumRoundTrip | src/SmartWebToMqttGateway.cpp:18-41 | a byte survives decoding and encoding exactly if it has a name that no smaller byte has; a byte without a name is decoded to its number; a text can be encoded exactly if it is a name, and comes back |
| ClassLoader.LoadSection | src/config_parser.cpp:63-133 | each loop keeps the descriptions, and continues the display orders, as the specification `LoadedSection` says, throwing on a bad id except among parameters |
| ClassLoader.OrdersDistinct | src/config_parser.cpp:337-339 | the three kinds take consecutive disjoint ranges of display orders, one order for each kept id, each range ending behind the largest id, whatever repeats, is absent or is skipped |
| ClassLoader.FirstKept | src/config_parser.cpp:49-127 | of several descriptions with one id the first that can be read is kept, with its name, kind, read-only flag and the codec that its kind demands |
| ClassLoader.KeysFromDecls | src/config_parser.cpp:63-133 | nothing is kept under an id that no readable description has |
| ClassLoader.BuildExact | src/config_parser.cpp:325-345 | a class fails to load exactly if an input or output cannot be read; else it has the type, name, parents and source given and a table from each section |
| ClassLoader.UserOverBuiltin | src/config_parser.cpp:306-349 | after any loads in any order of sources the class of a type is the first USER one that loads, else the first BUILTIN one |
| ClassLoader.LoadedKeysAreTypes | src/config_parser.cpp:306-349 | every class is stored under its own type |
| ClassLoader.SmartWebToMqttConfig.LoadSmartWebClass | src/config_parser.cpp:306-349 | the map stays what the specification makes of all loads so far, and a load that throws leaves it unchanged |
| ControllerConfig.JoinOfSplit | src/MqttToSmartWebGateway.cpp:48-77 | a channel name split at its first slash and joined is the same name |
| ControllerConfig.SplitOfJoin | src/MqttToSmartWebGateway.cpp:48-77 | a joined name splits into its parts exactly if none is empty and the device has no slash |
| ControllerConfig.LoadSensors | src/config_parser.cpp:225-254 | the loop over the sensors, stopping at the first error, yields what the entry-wise specification says |
| ControllerConfig.LoadParams | src/config_parser.cpp:256-278 | the same for the parameters |
| ControllerConfig.SensorStep | src/config_parser.cpp:226-253 | one more sensor is accepted exactly if its channel is well formed and its triple new, and is then mapped, timed, counted and made the output at its index less one, the other outputs staying as they were; else the error is a duplicate exactly if the triple is not new |
| ControllerConfig.ParamStep | src/config_parser.cpp:257-277 | one more parameter is accepted exactly if its channel is well formed and its triple new, and is then mapped, timed and counted, no output changing; else the error is a duplicate exactly if the triple is not new |
| ControllerConfig.LoadController | src/config_parser.cpp:220-284 | both loops and the final check yield what the specification says |
| ControllerConfig.LoadExact | src/config_parser.cpp:220-284 | a description is accepted exactly if it has a section, well-formed channels and pairwise different triples; then every sensor, and nothing else, is the output at its index less one with its channel, every channel in use, and no other, is timed since its last use with the last timeout given for it, and entries are counted; else the first bad entry decides the error, a duplicate exactly if an earlier entry has its triple |
| ControllerConfig.NoDuplicateOutput | src/config_parser.cpp:248-250 | the error "duplicate output" cannot happen |
| ControllerConfig.AcceptedIsRunnable | src/config_parser.cpp:211-284 | in an accepted controller every initialised output and every mapped parameter has both names and a timing entry, and there are 32 outputs |
| ControllerConfig.WireLookup | src/MqttToSmartWebGateway.cpp:322-358 | a lookup by the data of a request hits exactly if its triple is mapped and its fourth byte is zero, and finds that entry's channel; every mapped index up to 254 is below the reported number of channels |
| ControllerConfig.SensorOnWire | src/config_parser.cpp:229-242 | the bytes PT_CONTROLLER, SENSOR, index and zero find the channel of the sensor of that index |
| ControllerConfig.ParamOnWire | src/config_parser.cpp:260-275 | the bytes program type, parameter id, index and zero find the channel of that parameter |
| ControllerConfig.ChannelNumberExact | src/MqttToSmartWebGateway.cpp:322-330 | the reported number of channels is the larger of the number of entries and the largest index plus one, an index of 255 counting as none |
| ControllerRuns.LoadedEnters | src/MqttToSmartWebGateway.cpp:214-220 | an accepted controller enters the loop, with any updates since it was loaded, in a state from which all that follows holds |
| ControllerRuns.NeverDies | src/MqttToSmartWebGateway.cpp:425-427 | in no run of an accepted controller does the lookup of a timing entry fail |
| ControllerRuns.OutputSchedule | src/MqttToSmartWebGateway.cpp:402-448 | every output frame goes out while RUNNING, is checked at most ten minutes after the latest request for its channel, carries that request's mapping bytes with this controller and this channel and the value read last, and follows the previous one by 30 s unless a request came between or an MQTT update later than the previous one's sending was seen |
| ControllerRuns.RequestsAreAsked | src/MqttToSmartWebGateway.cpp:379-400 | in every run a request for an output is made by the frame handled last, which asks for that output of this controller with that very mapping point |
| ControllerRuns.RepliesAnswer | src/MqttToSmartWebGateway.cpp:222-238 | in every run a reply responds to the frame handled last with the number of channels, the type, or the triple echoed and a value, undefined if the parameter is not mapped or stale |
| ControllerRuns.RequestHandled | src/MqttToSmartWebGateway.cpp:457-484 | what handling a frame does, by its header and data: reply, scheduling of that output, I_AM_HERE, nothing for an unmapped output, and a refusal exactly for anything else, which leaves everything as it was |
| ControllerRuns.TakenExactly | src/MqttToSmartWebGateway.cpp:183-198 | for all header fields: a frame is taken exactly if it has the controller's id or is a request for one of its outputs |
| ControllerRuns.ReadingsAreKept | src/MqttToSmartWebGateway.cpp:79-100 | every time in the log, and every time carried to a later step, is the clock reading of the step that put it there |
| ControllerRuns.DriverValueSent | src/MqttToSmartWebGateway.cpp:434-441 | what the driver answers for a value that is not stale is what the output frame carries, whatever is updated meanwhile |
| ControllerRuns.StaleFrom | src/MqttToSmartWebGateway.cpp:116-124 | a value is stale from one reading behind its timeout on, and never without a timeout |
| ControllerRuns.ConnectionMachine | src/MqttToSmartWebGateway.cpp:504-544 | RUNNING from a handled frame to the next loss; while RUNNING the reset deadline is ten minutes after the last handled frame; a loss comes ten silent minutes later; outside RUNNING nothing but I_AM_HERE is emitted |
| ControllerRuns.HeartbeatSpacing | src/MqttToSmartWebGateway.cpp:297-320 | every I_AM_HERE is a one-byte RESPONSE of this controller with the type of an external controller; a scheduled one comes at least ten seconds after the previous one of either kind, any other one is asked for by the frame handled last |
| ControllerRuns.HeartbeatKept | src/MqttToSmartWebGateway.cpp:297-320 | at every moment of every run at which I_AM_HERE is not just being sent, the next deadline is later than the last heartbeat check and ten seconds after an I_AM_HERE that was sent |
| ControllerRuns.PassAnswers | src/MqttToSmartWebGateway.cpp:402-448 | when a pass is complete every mapped channel whose window was open at its check has answered its latest request and has its next send later than the check |
| ControllerRuns.RequestAnswered | src/MqttToSmartWebGateway.cpp:379-448 | when a mapped output was requested and the loop comes to its heartbeat without another request, a frame of that channel has been sent after the request, unless its check came more than ten minutes later |
| Resend.ResendOnUpdate | src/MqttToSmartWebGateway.cpp:425-446 | an MQTT update at any moment of any run is followed, by the end of any later turn of its output with an open window, by a frame whose value was read after it, if it did not fall between a value reading and the postponement after its sending (or on that reading of the clock); without another reason to send, exactly if it did not |
| MissedUpdate.UpdateMissed | src/MqttToSmartWebGateway.cpp:425-446 | a run of a loaded controller in which an update falls into that gap and the next pass, with the window open, sends nothing |
| ControllerRuns.ScheduledExactly | src/MqttToSmartWebGateway.cpp:379-400 | a frame schedules an output exactly if it asks a controller for an output value with a mapping point of this controller and an initialised channel |
| ControllerRuns.OutputFrameMeans | src/MqttToSmartWebGateway.cpp:403-439 | a receiver reads from an output frame, field by field, the type PT_CONTROLLER, the id of the sending controller, the function GET_OUTPUT_VALUE, format 0 and RESPONSE, and from its four data bytes the mapping point and the value, high byte first |
| ControllerRuns.HereFrameMeans | src/MqttToSmartWebGateway.cpp:300-311 | a receiver reads from an I_AM_HERE frame, field by field, the type PT_CONTROLLER, the id of the sending controller, the function I_AM_HERE, format 0 and RESPONSE, and from its one data byte the type of an external controller |
| ControllerRuns.StaleIsUndefined | src/MqttToSmartWebGateway.cpp:255-295 | the value in an output frame is the one read last before it, and that is undefined if at its reading the latest update of the channel was older than the timeout |
| ControllerRuns.ParameterAnswer | src/MqttToSmartWebGateway.cpp:332-377 | a parameter request to this controller is answered in RESPONSE with the triple echoed and the value behind it, low byte first; undefined if the triple is not mapped or stale |
| ControllerRuns.ChannelNumberAnswer | src/MqttToSmartWebGateway.cpp:322-330 | a request of this controller for its number of channels is answered with it in two bytes, low byte first; otherwise it is refused |
| ControllerRuns.TypeAnswer | src/MqttToSmartWebGateway.cpp:450-455 | a request of this controller for its type is answered with the one byte of an external controller; otherwise it is refused |
| ControllerGateway.MqttToSmartWebGateway.constructor | src/MqttToSmartWebGateway.cpp:486-504 | the object enters the loop in the initial state, with whatever update times its channels have by then |
| ControllerGateway.MqttToSmartWebGateway.OnControlValue | src/MqttToSmartWebGateway.cpp:214-220 | an MQTT event is an update step |
| ControllerGateway.MqttToSmartWebGateway.Handle | src/MqttToSmartWebGateway.cpp:156-168 | a frame is taken exactly if it is for this controller and then queued last |
| ControllerGateway.MqttToSmartWebGateway.SelectTimeout | src/MqttToSmartWebGateway.cpp:170-181 | the oldest queued frame comes first; of an empty queue the first frame for this controller that arrives during the wait, unless the wait has expired by then, which leaves the frame queued |
| ControllerGateway.MqttToSmartWebGateway.HandleRequest | src/MqttToSmartWebGateway.cpp:457-484 | a refused request is one event and ends the handling; any other leads to the pass over the outputs |
| ControllerGateway.MqttToSmartWebGateway.SendScheduledOutputs | src/MqttToSmartWebGateway.cpp:402-448 | with other threads acting between any two of its steps, also during a send, at its end every mapped output whose window was open at its check is answered and next due later than the check |
| ControllerGateway.MqttToSmartWebGateway.Iterate | src/MqttToSmartWebGateway.cpp:504-554 | an iteration extends the run by steps that begin with the oldest frame, or with the timeout if there is none; a refused request skips both scheduled sends, and any other iteration ends with the heartbeat |
| WriteHandshake.SendExact | src/CanPort.cpp:174-194 | over every interleaving a send that was written returns only if a confirmation came after its own reset of the flag, and times out exactly if its deadline passed before it had the mutex back |
| WriteHandshake.ExpiryExact | src/CanPort.cpp:187-193 | over every interleaving a deadline passes before a notification exactly if no confirmation came since the reset, so none between write and wait is lost |
| WriteHandshake.TimesOutConfirmed | src/CanPort.cpp:191-193 | a run in which the frame is confirmed after the deadline and before the sender has the mutex back, and the send times out |
| WriteHandshake.OwnConfirmationIff | src/CanPort.cpp:174-194 | every normal return of the next send means that its own frame is confirmed if and only if every written frame is confirmed when it begins |
| WriteHandshake.LateConfirmation | src/CanPort.cpp:174-194 | a run in which a first send times out and the second returns on the first one's confirmation, its own frame not being confirmed |
| WriteHandshake.CanPort.SetWriteConfirmed | src/CanPort.cpp:55-60 | the flag is set and a waiting sender is notified |
| WriteHandshake.CanPort.Send | src/CanPort.cpp:174-194 | the outcome is a write error exactly if the write fails, else a timeout exactly if the deadline passed before the sender had the mutex back, and a normal return only if a confirmation came since the reset; a sender that has the mutex back at once returns exactly if a confirmation came since the reset |
| Dispatch.Handlers.RunHandlers | src/CanPort.cpp:62-74 | a frame goes to the inbox of the first handler that takes it without throwing and to no other, or to none if there is none |
| Dispatch.Handlers.AddHandler | src/CanPort.cpp:162-166 | the handler is added last |
| Dispatch.Handlers.RemoveHandler | src/CanPort.cpp:168-172 | every copy of the handler is removed |
| Dispatch.WithoutKeepsOrder | src/CanPort.cpp:168-172 | removing a handler keeps the others, and the taker of a frame stays the taker unless it is the one removed |
| Dispatch.ReaderFirst | src/main.cpp:216-220 | with the reader registered first and not throwing, what `RunHandlers` hands over goes to the reader exactly if it is an answer or an announcement, so that none of these reaches a virtual controller; any other frame goes to the first controller it is for that does not throw |
| Dispatch.ThreadedCanReader.Handle | src/ThreadedCanReader.cpp:44-55 | an accepted frame is taken, and queued last if there is room |
| Dispatch.ThreadedCanReader.Get | src/ThreadedCanReader.cpp:57-68 | frames come out once each in the order in which they were queued; a queued frame is returned at once; of an empty queue one is returned exactly if an acceptable one arrives and the wait has not expired |

## Left out

- Sockets, `select`, `recvmsg`, real threads and clocks: they are steps, inputs and non-decreasing readings here.
- Waits without a predicate (src/CanPort.cpp:191, src/ThreadedCanReader.cpp:61, src/MqttToSmartWebGateway.cpp:174) are taken to end only by a notification or at their deadline: a spurious wake-up is not modelled.
- CAN confirmations are taken to come in the order of writing; a lost frame is skipped.
- The scheduler's wake-ups: its notifications are sent without the mutex of the wait, so facts are stated per iteration and not that a sleeping thread wakes. A task whose function throws, and one object added twice, are not modelled.
- Shutdown: destructors and the `Enabled` flags.
- The order in which two classes of one name are found depends on the hash table; the order of visiting is part of a table here, and nothing is said about which order it is.
- The MQTT driver: transactions, devices, controls, `DeviceIds`. Reading a control is any 16-bit value; a driver exception of a type that `read_mqtt_value` does not catch is not modelled. Publishing is a log of readings.
- JSON parsing, the schemas and the walk over directories: descriptions are already decoded, and the bounds of the schemas (sensor index 1 to 32, bytes elsewhere) are types.
- Floating point: divisors other than 1, `TSensorCodec`, `TPwmCodec` and `FromDouble`.
- Codecs.SetValueRoundTrip: does not model `std::stod` on texts other than an optional minus sign and digits (spaces, fractions, exponents, trailing characters), because what a double makes of them is not visible here, nor numbers out of the range of the type, whose conversion is undefined.
- Codecs.ParseOfText: speaks of the number a text stands for; a double holds it only up to 2^53, which the types of the codecs do not reach (see the round trips).
- `TOnOffSensorCodec`, which writes one byte and reads two, so that no round trip holds, and `TOutputCodec`, which only reads, telling zero from the rest.
- The wrap-around of 32-bit display orders, which ids up to 255 do not reach.
- ControllerConfig.WireLookup: bounds the channel number for indexes up to 254 only, because 255 wraps to 0 in the byte of the code; ControllerConfig.ChannelNumberExact says what the number is then.
- Timeouts of single parameters: the loader passes the whole controller description instead of the parameter's (src/config_parser.cpp:259), and the model does the same.
- A frame that the controller fails to send is treated like one that was sent, as the code does (src/MqttToSmartWebGateway.cpp:243-253).
- The order in which frames of the controller and of the poller reach the bus: each has its own log.
- Logging, `print_frame`, `GetName`, the tables of MQTT types and units, the command line and packaging.
