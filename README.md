# dockernet, modelled in Dafny

dockernet is a command-line tool (`dockernet/cmd/dockernet.py`). It starts Open vSwitch
containers ("switches" named `ovs1`, `ovs2`, …) under docker and attaches them to an
OpenDaylight controller. It creates tap/veth port pairs in them, registers those ports
with neutron, dumps switch state, pings between the ports, and tears everything down
again. Almost all of that is shell glue. This project models the decision logic and
the batch structure around the glue:

- **Options and validation** (`options.dfy`, `validation.dfy`). The parsed options are
  one record of `Option` fields, so "given as false" differs from "absent", as the
  `is None` tests in the tool require. The record comes with Python's truthiness rules.
  `range_opt_validation` and the `--start-switches` conflict table
  (`start_switch_arg_handling`) are pure functions.
- **Dispatch** (`dispatch.dfy`). `check_args_and_perform_action` is a function from the
  options to an `Outcome`: the batches to run, the complaint printed and the value
  returned, or the `ValueError` that `int()` raises on a non-numeric range bound.
- **Identifiers** (`identifiers.dfy`). These are the container, tap, vm-port,
  interface-id, device-id and address formulas that the add, bind and delete batches
  share, built from `%02d` padding and decimal rendering (`text.dfy`).
- **Batch runners** (`iteration.dfy`, `trace.dfy`, `runners.dfy`).
  - Each runner is a method whose loops mirror the tool's loops.
  - Instead of running docker, curl or ovs commands, a runner appends one record (`Op`)
    per unit of work to a trace.
  - Each method is proved equal to a specification function over the units it visits.
  - The ordering, coverage, naming and exception properties are lemmas about those
    functions.
  - Command output (the container listing, the address listings, ping responses,
    the date) is an input, and its post-processing is modelled exactly.
- **Performing** (`perform.dfy`).
  - `cleanup` chains the port deletion, the neutron wipe, `docker_down` and the
    removal of the output files.
  - Every action the dispatcher picks is run against a `World`, the command outputs
    the tool reads during one invocation.
  - An exception ends the invocation where it is raised.
  - `start` reads the command line, dispatches and runs the actions. An exception a
    runner raises escapes `start`. Otherwise `start` returns 0 without arguments or after
    a dispatch result other than 0, None without logging after `-h`/`--help`, and None
    with logging set up after a dispatch result of 0.

## Model

| member | source | states |
|---|---|---|
| Validation.RangeOptValidation | dockernet/cmd/dockernet.py:126-137 | the range is accepted exactly when it has two non-empty integer bounds with the first not above the second, and then yields those bounds; fewer than two elements is "not complete"; a non-integer element of a two-element list raises ValueError; every other failure is "not correct" |
| Validation.RangeReturnCode | dockernet/cmd/dockernet.py:126-137 | the validator returns 0 exactly for an accepted range and -1 otherwise |
| Validation.RenderedRange | dockernet/cmd/dockernet.py:126-137 | two rendered integers validate to exactly those bounds when ordered, and are "not correct" otherwise |
| Validation.RangeExamples | dockernet/cmd/dockernet.py:126-137 | `5 3` is not correct, `3` is not complete, `2 9` is accepted, three elements are not correct, `a 2` raises |
| Validation.StartSwitchArgHandling | dockernet/cmd/dockernet.py:75-124 | with `--start-switches` unset nothing is reported; with it set, a conflict is reported exactly when one holds, and the one reported is the first that holds in the table's order |
| Dispatch.OrderRanks | dockernet/cmd/dockernet.py:139-270 | the elif chain tests sixteen options, each exactly once |
| Dispatch.Governing | dockernet/cmd/dockernet.py:139-270 | the branch taken is the first set option in the chain's order; the final else is reached exactly when no option is set |
| Dispatch.DumpListAllDistinct | dockernet/cmd/dockernet.py:72 | DUMP_LIST_ALL names six distinct kinds and not `all` |
| Dispatch.FirstBadDumpValue | dockernet/cmd/dockernet.py:178-185 | the reported element is the first that is neither `all` nor a known kind; none is reported exactly when all are valid |
| Dispatch.CheckArgsAndPerformAction | dockernet/cmd/dockernet.py:139-270 | it returns 0, -1 or None; nothing runs unless it returns 0; every -1 comes with a complaint; a ValueError arises only in a range-based branch whose range has a non-integer bound |
| Dispatch.SetCompanionsAscend | dockernet/cmd/dockernet.py:153-176 | the controller-ip companions that run are listed in companion order |
| Dispatch.SetCompanionsExact | dockernet/cmd/dockernet.py:153-176 | a companion runs exactly when its option is set |
| Dispatch.CompanionRuns | dockernet/cmd/dockernet.py:153-176 | past its None test, the controller-ip branch returns 0 and runs one batch per set companion, in order, each against the given controller, and the bind-ports batch binds `--bind-ports` ports |
| Dispatch.DumpRunsFacts | dockernet/cmd/dockernet.py:190-199 | one dump runs per key, in order, each over the same range |
| Dispatch.BranchActions | dockernet/cmd/dockernet.py:139-270 | a branch runs only batches whose option is set and that belong to it or to a controller-ip companion; a range-based batch runs only over the bounds its validated range gave |
| Dispatch.ControllerBranchActions | dockernet/cmd/dockernet.py:153-176 | every batch the controller-ip branch runs belongs to a companion whose option is set |
| Dispatch.DumpBranchActions | dockernet/cmd/dockernet.py:177-201 | the dump branch runs only dump batches, each over the bounds its validated range gave |
| Dispatch.RangedBranchActions | dockernet/cmd/dockernet.py:227-246 | the create-ping-ips-file and ping-all branches run only their own batch, over the bounds the validated range gave |
| Dispatch.ActionsFollowPriority | dockernet/cmd/dockernet.py:139-270 | no option set means "options not specified"; every batch that runs belongs to the branch taken or to one of its companions |
| Dispatch.RangedActionsNeedValidRange | dockernet/cmd/dockernet.py:177-247 | no range-based batch runs unless `--range` validated to exactly its bounds |
| Dispatch.StartRule | dockernet/cmd/dockernet.py:140-148 | with `--start-switches` set, the switches start (against the given controller) exactly when no conflict holds; otherwise the first conflict is reported and -1 returned |
| Dispatch.StartWithStopRejected | dockernet/cmd/dockernet.py:77-80 | start together with stop is refused for the stop conflict, whatever else is given |
| Dispatch.ControllerIpRule | dockernet/cmd/dockernet.py:153-176 | the controller-ip branch refuses (-1) exactly when none of its six accompanying options is given at all; otherwise it returns 0 and runs each set companion once, in companion order, against the given controller, binding `--bind-ports` ports |
| Dispatch.ControllerIpWithNegatedCompanion | dockernet/cmd/dockernet.py:153-176 | `--controller-ip` with only `--nocreate-network` runs nothing and returns 0 |
| Dispatch.DumpRule | dockernet/cmd/dockernet.py:177-201 | the first unknown element is reported before the range is checked; then a missing, incomplete or reversed range refuses with its message and a non-integer bound raises ValueError; otherwise `all` dumps DUMP_LIST_ALL in declared order and ignores the rest, and without `all` the elements are dumped as given, duplicates included |
| Dispatch.ControllerOnlyRule | dockernet/cmd/dockernet.py:214-259 | the cleanup, bind-ports, create-network, create-subnet and del-neutron-data branches, reachable only without `--controller-ip`, complain, run nothing and return 0 |
| Dispatch.RangedRule | dockernet/cmd/dockernet.py:227-246 | create-ping-ips-file and ping-all: a missing range refuses with the branch's message (-1); an incomplete or reversed range refuses with its message (-1) and a non-numeric bound raises ValueError; a valid range runs create_ping_ips_file, or ping_ips_from_file with the output-file choice, over its bounds and returns 0 |
| Dispatch.OneBatchRule | dockernet/cmd/dockernet.py:148-226 | the stop, show-info, show-count, add-ports and del-ports branches each run exactly their one batch with the option's value (and the output-file choice for show-info) and return 0 |
| Dispatch.RangeRule | dockernet/cmd/dockernet.py:260-265 | `--range` alone refuses only when dump, create-ping-ips-file and ping-all are all absent; otherwise it runs nothing and returns None |
| Dispatch.RunStart | dockernet/cmd/dockernet.py:289-303 | what start decides from the command line: "no arguments" when called without arguments on an empty argv, help when `-h` or `--help` is given, and otherwise the dispatch decision |
| Dispatch.HelpFirst | dockernet/cmd/dockernet.py:289-298 | a help flag wins over every other option, in an explicit argument list and in the process's argv alike |
| Text.DecimalRoundTrip | dockernet/cmd/dockernet.py:333 | `str(n)` of a natural number reads back as n |
| Text.Pad2RoundTrip | dockernet/cmd/dockernet.py:336-337 | `%02d` of n reads back as n |
| Text.Pad2Width | dockernet/cmd/dockernet.py:336-337 | `%02d` is two characters wide exactly below 100 |
| Text.ParseIntOfPyStr | dockernet/cmd/dockernet.py:128-136 | `int(str(n))` is n for every integer |
| Text.ParseInt | dockernet/cmd/dockernet.py:128-136 | `int()` of a string: an optional sign and decimal digits give their value; anything else is None, where Python raises ValueError |
| Text.JoinSplit | dockernet/cmd/dockernet.py:385 | splitting at a separator and joining back gives the original text |
| Text.SplitJoin | dockernet/cmd/dockernet.py:682 | pieces without the separator, joined and split, come back unchanged |
| Text.ReadLinesOfLines | dockernet/cmd/dockernet.py:410 | `readlines` of lines written one per line gives each line with its newline |
| Text.Strip | dockernet/cmd/dockernet.py:620 | the result neither begins nor ends with the stripped character, and a text without it is unchanged |
| Text.StripSlice | dockernet/cmd/dockernet.py:620 | what strip leaves is a middle slice of the text, with only copies of the character cut off at either end |
| Text.RemoveFirst | dockernet/cmd/dockernet.py:386 | `list.remove` raises exactly when the value is absent, and otherwise removes one occurrence |
| Text.RemoveFirstOccurrence | dockernet/cmd/dockernet.py:386 | the occurrence `list.remove` takes out is the first, and everything before and after it stays in order |
| Text.LexLessAsymmetric | dockernet/cmd/dockernet.py:680 | the order `sort` lists names in is strict: no name precedes itself, and no two names each precede the other |
| Identifiers.ContainerNameInjective | dockernet/cmd/dockernet.py:333 | distinct switch numbers give distinct container names |
| Identifiers.ContainerName | dockernet/cmd/dockernet.py:333 | the container of switch j is `ovs` followed by `str(j)` |
| Identifiers.TapName | dockernet/cmd/dockernet.py:336-338 | the tap port of port i on switch j is `tap2d9def` + `%02d` of j + `-` + `%02d` of i |
| Identifiers.VmPortName | dockernet/cmd/dockernet.py:339 | the vm port is `vm-port` + `%02d` of j + `%02d` of i, with no separator |
| Identifiers.IfaceId | dockernet/cmd/dockernet.py:470 | the interface id fills the fixed template with j and i, each padded and written twice |
| Identifiers.DeviceId | dockernet/cmd/dockernet.py:471 | the device id fills its own fixed template the same way |
| Identifiers.PortIp | dockernet/cmd/dockernet.py:479 | the port address is `20.0.` + `str(j)` + `.` + `str(i)` |
| Identifiers.TapNameParts | dockernet/cmd/dockernet.py:336-338 | a tap name splits at its dash into the padded switch part and the padded port number |
| Identifiers.TapNameInjective | dockernet/cmd/dockernet.py:336-338 | two tap names agree exactly when switch and port agree |
| Identifiers.VmPortNameInjective | dockernet/cmd/dockernet.py:339 | below 100 ports, two vm port names agree exactly when switch and port agree |
| Identifiers.VmPortNameCollision | dockernet/cmd/dockernet.py:339 | past 99 the unseparated vm port names collide: switch 101 port 1 equals switch 10 port 101 |
| Identifiers.IfaceIdLayout | dockernet/cmd/dockernet.py:470 | the interface id has the 8-4-4-4-12 hexadecimal layout exactly when switch and port are below 100 |
| Identifiers.DeviceIdLayout | dockernet/cmd/dockernet.py:471 | the device id has the 8-4-4-4-12 hexadecimal layout exactly when switch and port are below 100 |
| Identifiers.PortIpParts | dockernet/cmd/dockernet.py:479 | the port address splits at dots into `20`, `0`, the switch number and the port number |
| Identifiers.PortIpAddress | dockernet/cmd/dockernet.py:479 | the port address is a valid IPv4 address exactly when switch and port are at most 255, and then it is 20.0.j.i inside 20.0/16 |
| Identifiers.PortIpInjective | dockernet/cmd/dockernet.py:479 | two port addresses agree exactly when switch and port agree |
| Iteration.GridShape | dockernet/cmd/dockernet.py:332-334 | the port batches visit count × n units, every switch in 1..count and port in 1..n, each strictly after the one before |
| Iteration.GridAt | dockernet/cmd/dockernet.py:332-334 | port i of switch j is visited at position (j-1)×n+(i-1) |
| Iteration.GridMembers | dockernet/cmd/dockernet.py:332-334 | a unit is visited exactly when its switch is in 1..count and its port in 1..n |
| Iteration.SpanShape | dockernet/cmd/dockernet.py:565 | the switch batches visit lo..hi, ascending, each once |
| Trace.RemoveFirstEmpty | dockernet/cmd/dockernet.py:386 | the loop removes the first empty string, or reports the ValueError when there is none |
| Trace.PortIpList | dockernet/cmd/dockernet.py:379-390 | the VM port addresses of a container: none when the listing command fails, otherwise the output split at newlines less its first empty piece, or ValueError when there is none |
| Trace.GetPortIpsFromOvs | dockernet/cmd/dockernet.py:379-390 | the addresses are the listing split at newlines less its first empty piece; a failing listing command gives none |
| Trace.PortIpListLines | dockernet/cmd/dockernet.py:385-386 | no address read from a listing holds a newline |
| Trace.GetOvsNamesList | dockernet/cmd/dockernet.py:679-685 | the names are the listing split at newlines less its first empty piece |
| Trace.NamesList | dockernet/cmd/dockernet.py:679-685 | the container names: the sorted listing split at newlines less its first empty piece, or ValueError when there is none |
| Trace.ListingRoundTrip | dockernet/cmd/dockernet.py:682-683 | a listing printing one entry per line reads back as exactly those entries |
| Trace.ListingRemovesFirstEmptyOnly | dockernet/cmd/dockernet.py:683 | a blank line inside a listing is removed and the trailing empty piece stays |
| Trace.ListingWithoutNewline | dockernet/cmd/dockernet.py:682-683 | a listing without a final newline raises ValueError; an empty one reads as no names |
| Trace.OutfilePathShape | dockernet/cmd/dockernet.py:616-623 | the output path is `/tmp/` + prefix + stamp + `.txt`, the stamp without `:` and without a newline at either end |
| Trace.OutfilePathOfDateLine | dockernet/cmd/dockernet.py:616-623 | for a one-line date output the stamp is that line with colons turned into dashes |
| Trace.OutfilePath | dockernet/cmd/dockernet.py:616-623 | the output path built from the prefix and the `date` output, colons turned into dashes and newlines stripped |
| Trace.PingRule | dockernet/cmd/dockernet.py:434-453 | a failing ping never passes; any output containing `0% packet loss` passes, including `50% packet loss` |
| Trace.PingNeedsPhrase | dockernet/cmd/dockernet.py:436 | output shorter than the phrase never passes |
| Trace.PingPassed | dockernet/cmd/dockernet.py:436 | a ping passes when the command succeeded and its output contains `0% packet loss` |
| Runners.AddPortsToOvs | dockernet/cmd/dockernet.py:515-555 | the loops add, for every unit in visiting order, the tap port with its container, vm port, address and interface id |
| Runners.BindPortsToNeutron | dockernet/cmd/dockernet.py:458-512 | the loops register, for every unit in visiting order, the neutron port built from the derived names, the stripped MAC, the stripped network and subnet ids, and port security off |
| Runners.DelAndUnbindPorts | dockernet/cmd/dockernet.py:330-349 | the loops delete, for every unit in visiting order, its tap port and vm port |
| Runners.UnitOpsAgree | dockernet/cmd/dockernet.py:333-339 | the port add creates is the one bind registers and delete removes: same container, tap, vm port, interface id and address |
| Runners.PortBatchesLength | dockernet/cmd/dockernet.py:332-334 | each port batch does count × n units of work, none when n < 1 |
| Runners.AddAndDelAt | dockernet/cmd/dockernet.py:517-519 | add and delete handle port i of switch j at position (j-1)×n+(i-1) |
| Runners.BindAt | dockernet/cmd/dockernet.py:462-464 | bind handles port i of switch j at the same position as add |
| Runners.AddedTapsDistinct | dockernet/cmd/dockernet.py:523 | no tap port is added twice in one batch |
| Runners.GetDump | dockernet/cmd/dockernet.py:558-586 | the loop dumps every switch of the range in order to one sink, then announces the file if it wrote one |
| Runners.DumpOvs | dockernet/cmd/dockernet.py:590-596 | the dump goes to `dump-<key>-outfile-<date>` when asked for a file, else to the console |
| Runners.DumpCoversRange | dockernet/cmd/dockernet.py:565-586 | each switch of lo..hi is dumped once in ascending order with the key's command, and the file is announced exactly when one was written |
| Runners.DumpCommandRule | dockernet/cmd/dockernet.py:568-573 | `ovs-show` and `flow-count` have their own commands; every other key names an `ovs-ofctl dump-<key>` table |
| Runners.ShowContainersInfo | dockernet/cmd/dockernet.py:645-660 | the loop inspects the containers in order, then announces the file if it wrote one |
| Runners.ShowInfoCovers | dockernet/cmd/dockernet.py:650-651 | containers ovs1..ovs&lt;count&gt; are inspected in order, one each, none when count < 1 |
| Runners.CreatePingIpsFile | dockernet/cmd/dockernet.py:392-405 | the loop writes the addresses of switches lo..hi in order and stops at the first listing that raises |
| Runners.CollectedLines | dockernet/cmd/dockernet.py:398-402 | no address written to the file holds a newline |
| Runners.PingFileRoundTrip | dockernet/cmd/dockernet.py:398-432 | reading the address file back and stripping each line gives exactly the addresses written, in order |
| Runners.PingSwitch | dockernet/cmd/dockernet.py:430-453 | one switch pings, for each of its addresses, every line of the file |
| Runners.PingIpsFromFile | dockernet/cmd/dockernet.py:407-456 | the loop visits switches lo..hi, writing a header and the pings of each, stops at a listing that raises, and announces the file at the end |
| Runners.PingPairsLength | dockernet/cmd/dockernet.py:430-431 | one switch does |sources| × |file lines| pings |
| Runners.PingPairAt | dockernet/cmd/dockernet.py:430-453 | source p pings file line q at position p×|lines|+q, the line stripped of its newline, marked by the pass rule |
| Runners.DockerOvsRunConnect | dockernet/cmd/dockernet.py:662-676 | the loop starts the next containers after the running ones, or prints one failure and stops when there is no image |
| Runners.RunConnectNames | dockernet/cmd/dockernet.py:663-667 | the containers started are ovs(running+1)..ovs(running+n), in order, against the given controller and image |
| Runners.RunConnectFresh | dockernet/cmd/dockernet.py:663-667 | no container started shares its name with a running one or another started one |
| Runners.RunConnectWithoutImage | dockernet/cmd/dockernet.py:668-671 | without an image nothing starts, and one failure is printed when there was anything to start |
| Runners.DockerDown | dockernet/cmd/dockernet.py:687-704 | the loop stops listed containers in order, raising IndexError past the end of the list |
| Runners.DockerDownOfListing | dockernet/cmd/dockernet.py:687-704 | for a one-name-per-line listing, stop stops the first `end` names, or all of them and then raises IndexError |
| Runners.ListingOrder | dockernet/cmd/dockernet.py:680 | the sorted listing puts ovs10 between ovs1 and ovs2 |
| Runners.DockerDownStops | dockernet/cmd/dockernet.py:687-691 | stop completes exactly when the listing is readable and holds at least `end` names, and then stops exactly its first `end` names, in order |
| Runners.DockerDownStopsSmallest | dockernet/cmd/dockernet.py:679-691 | on a sorted listing printed one name per line, stop completes, stops the first `end` names in order, and none of them sorts after a name left running |
| Runners.ScenarioStart | dockernet/cmd/dockernet.py:662-676 | starting two switches with none running starts ovs1 then ovs2, against the given controller and image |
| Runners.ScenarioAddPorts | dockernet/cmd/dockernet.py:515-555 | three ports on each of two switches get 20.0.1.1/16..20.0.1.3/16, then 20.0.2.1/16..20.0.2.3/16 |
| Runners.ScenarioDump | dockernet/cmd/dockernet.py:558-586 | dumping `flows` over switches 1..2 to the console dumps ovs1 then ovs2 with `ovs-ofctl dump-flows` |
| Perform.Cleanup | dockernet/cmd/dockernet.py:598-613 | cleanup deletes the ports, wipes neutron, stops the containers and removes the output files, raising where a listing cannot be read or holds no container |
| Perform.CleanupRun | dockernet/cmd/dockernet.py:598-613 | what cleanup does with what it reads: the port deletions, the neutron wipe, docker_down and the file removal, or the exception a read raises |
| Perform.CleanupPhases | dockernet/cmd/dockernet.py:598-613 | when its reads succeed, cleanup runs every port deletion, then the wipe, then the stops of the first `count` listed names in order, and last the file removal |
| Perform.CleanupCompletes | dockernet/cmd/dockernet.py:598-643 | cleanup completes exactly when the listing is readable and non-empty, the first container's addresses are readable and the count does not exceed the listing |
| Perform.DumpFileRemoved | dockernet/cmd/dockernet.py:590-611 | every dump output file matches a glob cleanup removes |
| Perform.ShowInfoFileRemoved | dockernet/cmd/dockernet.py:611 | the show-containers-info output file matches a glob cleanup removes |
| Perform.PingOutputRemoved | dockernet/cmd/dockernet.py:611 | the ping-all output file matches a glob cleanup removes |
| Perform.PingAddressFileKept | dockernet/cmd/dockernet.py:611 | the ping address file survives cleanup |
| Perform.PerformAction | dockernet/cmd/dockernet.py:139-270 | each action runs the runner its branch calls, with the arguments the branch passes |
| Perform.PerformCompanion | dockernet/cmd/dockernet.py:153-176 | each controller-ip companion runs its own runner or REST call against the given controller |
| Perform.PerformContainerAction | dockernet/cmd/dockernet.py:140-213 | start, stop, show-containers-info and show-container-count run the container runner their branch calls |
| Perform.PerformBatch | dockernet/cmd/dockernet.py:177-247 | dump, add-ports, del-ports, create-ping-ips-file and ping-all run the batch their branch calls, over the validated bounds |
| Perform.CheckArgsAndPerform | dockernet/cmd/dockernet.py:139-270 | the decision is the dispatch function's, and the actions run in order until the first exception |
| Perform.RunAllCompletes | dockernet/cmd/dockernet.py:153-176 | an invocation completes exactly when each of its actions does, and then does their work in turn |
| Perform.RefusalRunsNothing | dockernet/cmd/dockernet.py:139-270 | a refusal, and any return but 0, runs nothing |
| Perform.Start | dockernet/cmd/dockernet.py:289-310 | how start ends: 0 without arguments, None after help, and otherwise the dispatch and its actions run, with their exception escaping start, else 0 after a non-zero dispatch result and None with logging set up after 0 |
| Perform.StartReturnMapping | dockernet/cmd/dockernet.py:289-310 | start raises exactly when the dispatch or one of its actions raises; when it returns, it returns 0 or None, 0 exactly without arguments or after a dispatch result other than 0, and it sets up logging exactly after a dispatch that returned 0 |
| Perform.OneActionRaising | dockernet/cmd/dockernet.py:302-311 | when the dispatch runs one action and it raises, the exception escapes start after what the action did |
| Perform.StopPastListingEscapesStart | dockernet/cmd/dockernet.py:687-691 | `--stop-switches 3` with ovs1 and ovs2 listed stops both, then IndexError escapes start |

## Left out

- The commands themselves are not modelled: `docker`, `ovs-vsctl`, `ovs-ofctl`, `ip`, `curl`, `sed`, `cp`, `rm` and `date`, and the `subprocess`/`os.system` calls that run them. Each unit of work is one trace record carrying the names and values its commands would use. Their exit codes, which the tool ignores or prints, are left out.
- `time.sleep` pacing and the progress messages are left out.
- File I/O is not modelled.
  - The address file is taken as text.
  - The output files are named, not written.
  - An IOError when `/tmp/docker_ping_ips.txt` is missing is not modelled.
- The option parser's registration, parsing and min/max limits are left out: the options arrive as a record. `printHelp`'s text and the logging configuration are not modelled either; only whether logging is set up is.
- The environment the tool reads (container count, listings, image id, MAC lookups, id files, ping responses, date) is one snapshot per invocation. The tool reads the date again for each output path, and the model uses one date for all of them.
- `get_container_count` is taken as the natural number `int()` would give. `int()` on whitespace or a non-number is not modelled there.
- Text.ParseInt: `int()` also accepts surrounding whitespace (`int(" 5")` is 5), which the model reads as None. This matters only to Validation.RangeOptValidation, and the option parser trims list items before they reach it.
- Text.LexLessAsymmetric: `sort` collates by the locale, while the model compares character codes. The two orders agree on the `ovs<N>` names the listing holds.
- Runners.DockerOvsRunConnect: the image lookup's CalledProcessError is not modelled. `get_docker_image` runs `docker images` through `check_output` without a handler, so a failing `docker` raises out of `docker_ovs_run_connect` and `start`; the model takes the lookup's output as the string `World.image`.
- Runners.BindPortsToNeutron: the MAC lookup's CalledProcessError is not modelled; the lookup is a function from container and vm port to its output.
- `get_network_id` and `get_subnet_id` are modelled only as the stripping of their outputs inside Runners.BindPortsToNeutron, not as separate members.
- `del_neutron_data`, `create_network` and `create_subnet` are single REST calls. Each is one record (`DeleteNeutronData`, `PostNetwork`, `PostSubnet`) produced inside Perform.PerformAction and Perform.Cleanup, not a member of its own.
- `get_docker_image` and `get_ports_count` are inputs (`World.image`) or inlined (into Perform.Cleanup).
- The range check of `create_ping_ips_file`, `ping_ips_from_file` and `get_dump` converts with `int()` again. The model passes the bounds the dispatcher already validated.
- Container state is not modelled: the stop trace records which names are stopped, but a later listing is an input, so "a stopped container no longer appears in the listing" is not stated.
- Integer widths: Python integers are unbounded, and so are the model's.
- `start` reads `sys.argv` and logs. The model takes the argument list as a parameter and only records whether logging is set up. The source's difference from its documentation is kept as written: after a dispatch returning 0, `start` returns None, not 0.
