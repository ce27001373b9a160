/** Carrying out what check_args_and_perform_action decides
    (dockernet/cmd/dockernet.py): each action runs its batch against what the
    tool reads from docker, the controller's id files and the shell, and
    `cleanup` chains three of the batches. */
module Perform {
  import opened Wrappers
  import opened Text
  import opened Iteration
  import opened Trace
  import opened Runners
  import opened Options
  import opened Dispatch

  /** What the tool reads from outside during one invocation, as it reads it. */
  datatype World = World(
    containerCount: nat,                                    // int(get_container_count())
    namesOutput: string,                                    // the sorted container name listing
    image: string,                                          // get_docker_image(), '' when none
    portIps: string -> CommandResult,                       // the VM port address listing, per container
    macOutput: (string, string) -> string,                  // the MAC lookup, per container and vm port
    networkOutput: string,                                  // the id read from /tmp/network.json
    subnetOutput: string,                                   // the id read from /tmp/subnetwork.json
    pingFileText: string,                                   // /tmp/docker_ping_ips.txt
    pingResult: (string, string, string) -> CommandResult,  // ping, per container, source and destination
    date: string)                                           // `date +%F-%T`

  // ---------------------------------------------------------------------------
  // cleanup

  /** What cleanup does: take the container count, count the VM ports of the
      first listed container, delete that many ports on every switch, wipe the
      neutron data, stop the containers, and remove the output files. Reading the
      first container of an empty listing raises IndexError before anything runs. */
  function CleanupRun(controllerIp: string, w: World): Run
  {
    match NamesList(w.namesOutput)
    case None => Run([], Some(ValueError))
    case Some(names) =>
      if names == [] then Run([], Some(IndexError))
      else
        match PortIpList(w.portIps(names[0]))
        case None => Run([], Some(ValueError))
        case Some(ips) =>
          var down := DockerDownRun(w.containerCount, w.namesOutput);
          var ops := DelPortsOps(w.containerCount, |ips|) + [DeleteNeutronData(controllerIp)] + down.ops;
          if down.raised.Some? then Run(ops, down.raised) else Run(ops + [RemoveOutputFiles], None)
  }

  method Cleanup(controllerIp: string, w: World) returns (r: Run)
    ensures r == CleanupRun(controllerIp, w)
  {
    var count := w.containerCount;
    // get_ports_count
    var listed := GetOvsNamesList(w.namesOutput);
    if listed.None? {
      return Run([], Some(ValueError));
    }
    if listed.value == [] {
      return Run([], Some(IndexError));
    }
    var ips := GetPortIpsFromOvs(w.portIps(listed.value[0]));
    if ips.None? {
      return Run([], Some(ValueError));
    }
    var deleted := DelAndUnbindPorts(count, |ips.value|);
    var ops := deleted + [DeleteNeutronData(controllerIp)];
    var down := DockerDown(count, w.namesOutput);
    ops := ops + down.ops;
    if down.raised.Some? {
      return Run(ops, down.raised);
    }
    r := Run(ops + [RemoveOutputFiles], None);
  }

  /** A cleanup whose reads succeed works in phases: first every port deletion
      (count × the number of VM ports on the first listed switch), then the neutron
      wipe, then the first `count` listed containers stopped in listing order, and
      last the removal of the output files. */
  lemma CleanupPhases(controllerIp: string, w: World, names: seq<string>, ips: seq<string>)
    requires NamesList(w.namesOutput) == Some(names) && names != [] && w.containerCount <= |names|
    requires PortIpList(w.portIps(names[0])) == Some(ips)
    ensures CleanupRun(controllerIp, w) ==
            Run(DelPortsOps(w.containerCount, |ips|) + [DeleteNeutronData(controllerIp)] +
                Map(StopOf, names[..w.containerCount]) + [RemoveOutputFiles], None)
  {
  }

  /** cleanup completes exactly when the listing is readable and not empty, the
      first container's addresses are readable, and the count does not exceed the
      listing. */
  lemma CleanupCompletes(controllerIp: string, w: World)
    ensures CleanupRun(controllerIp, w).raised.None? <==>
            var names := NamesList(w.namesOutput);
            names.Some? && names.value != [] && PortIpList(w.portIps(names.value[0])).Some? &&
            w.containerCount <= |names.value|
  {
    DockerDownStops(w.containerCount, w.namesOutput);
  }

  /** `rm -f <prefix>*<suffix>`: the shell's `*` matches any run of characters
      without a '/'. */
  predicate GlobMatch(prefix: string, suffix: string, path: string)
  {
    |prefix| + |suffix| <= |path| &&
    path[..|prefix|] == prefix && path[|path| - |suffix|..] == suffix &&
    '/' !in path[|prefix|..|path| - |suffix|]
  }

  /** The files cleanup removes. */
  predicate RemovedByCleanup(path: string)
  {
    GlobMatch("/tmp/show-container-out", ".txt", path) ||
    GlobMatch("/tmp/dump-", ".txt", path) ||
    GlobMatch("/tmp/ping", ".txt", path)
  }

  lemma GlobOfParts(p: string, m: string, s: string)
    requires '/' !in m
    ensures GlobMatch(p, s, p + m + s)
  {
    var path := p + m + s;
    assert path[..|p|] == p;
    assert path[|path| - |s|..] == s;
    assert path[|p|..|path| - |s|] == m;
  }

  lemma GlobDiffers(prefix: string, suffix: string, path: string, k: nat)
    requires k < |prefix| && k < |path| && prefix[k] != path[k]
    ensures !GlobMatch(prefix, suffix, path)
  {
    if |prefix| <= |path| {
      assert path[..|prefix|][k] == path[k];
    }
  }

  lemma NoSlashJoined(x: string, y: string)
    requires '/' !in x && '/' !in y
    ensures '/' !in x + y
  {
    forall k | 0 <= k < |x + y| ensures (x + y)[k] != '/' {
      if k < |x| { assert (x + y)[k] == x[k]; } else { assert (x + y)[k] == y[k - |x|]; }
    }
  }

  lemma StampHasNoSlash(date: string)
    requires '/' !in date
    ensures '/' !in Strip(Replace(date, ':', '-'), '\n')
  {
    var r := Replace(date, ':', '-');
    assert '/' !in r by {
      forall k | 0 <= k < |r| ensures r[k] != '/' {
        assert r[k] == (if date[k] == ':' then '-' else date[k]);
      }
    }
    StripInside(r, '\n');
  }

  lemma OutfileMatches(glob: string, rest: string, date: string, prefix: string, g: string)
    requires prefix == glob + rest && g == "/tmp/" + glob
    requires '/' !in rest && '/' !in date
    ensures GlobMatch(g, ".txt", OutfilePath(prefix, date))
  {
    var stamp := Strip(Replace(date, ':', '-'), '\n');
    StampHasNoSlash(date);
    NoSlashJoined(rest, stamp);
    assert OutfilePath(prefix, date) == g + (rest + stamp) + ".txt";
    GlobOfParts(g, rest + stamp, ".txt");
  }

  /** Every output file dump_ovs writes is one that cleanup removes, for a date
      and a dump key without '/'. */
  lemma DumpFileRemoved(elem: string, date: string)
    requires '/' !in elem && '/' !in date
    ensures RemovedByCleanup(DumpSink(elem, true, date).path)
  {
    NoSlashJoined(elem, "-outfile-");
    OutfileMatches("dump-", elem + "-outfile-", date, "dump-" + elem + "-outfile-", "/tmp/dump-");
  }

  /** So is the show-containers-info output file ... */
  lemma ShowInfoFileRemoved(date: string)
    requires '/' !in date
    ensures RemovedByCleanup(ShowInfoSink(true, date).path)
  {
    OutfileMatches("show-container-out", "file-", date, "show-container-outfile-", "/tmp/show-container-out");
  }

  /** ... and the ping-all one. */
  lemma PingOutputRemoved(date: string)
    requires '/' !in date
    ensures RemovedByCleanup(PingSink(true, date).path)
  {
    OutfileMatches("ping", "-ips-outfile-", date, "ping-ips-outfile-", "/tmp/ping");
  }

  /** The address file create_ping_ips_file writes survives cleanup. */
  lemma PingAddressFileKept()
    ensures !RemovedByCleanup("/tmp/docker_ping_ips.txt")
  {
    var f := "/tmp/docker_ping_ips.txt";
    GlobDiffers("/tmp/show-container-out", ".txt", f, 5);
    GlobDiffers("/tmp/dump-", ".txt", f, 6);
    GlobDiffers("/tmp/ping", ".txt", f, 5);
  }

  // ---------------------------------------------------------------------------
  // performing the actions

  /** The REST calls and batches the controller-ip branch can run (and cleanup). */
  predicate CompanionAct(a: Action)
  {
    a.NewNetwork? || a.NewSubnet? || a.PortBinding? || a.NeutronWipe? || a.FullCleanup?
  }

  /** Starting, stopping, inspecting and counting containers. */
  predicate ContainerAct(a: Action)
  {
    a.StartContainers? || a.StopContainers? || a.ContainerInfo? || a.ContainerCount?
  }

  /** What a controller-ip companion does. */
  function CompanionActionRun(a: Action, w: World): Run
    requires CompanionAct(a)
  {
    match a
    case NewNetwork(ip) => Run([PostNetwork(ip)], None)
    case NewSubnet(ip) => Run([PostSubnet(ip)], None)
    case PortBinding(n, ip) =>
      Run(BindPortsOps(w.containerCount, n, ip, w.macOutput, w.networkOutput, w.subnetOutput), None)
    case NeutronWipe(ip) => Run([DeleteNeutronData(ip)], None)
    case FullCleanup(ip) => CleanupRun(ip, w)
  }

  /** What a container action does. */
  function ContainerActionRun(a: Action, w: World): Run
    requires ContainerAct(a)
  {
    match a
    case StartContainers(n, ip) => Run(RunConnectOps(n, ip, w.containerCount, w.image), None)
    case StopContainers(n) => DockerDownRun(n, w.namesOutput)
    case ContainerInfo(n, toFile) => Run(ShowInfoOps(n, ShowInfoSink(toFile, w.date)), None)
    case ContainerCount => Run([PrintCount(w.containerCount)], None)
  }

  /** What a batch over the ports or over a range of switches does. */
  function BatchActionRun(a: Action, w: World): Run
    requires !CompanionAct(a) && !ContainerAct(a)
  {
    match a
    case DumpRun(key, lo, hi, toFile) => Run(DumpOps(key, lo, hi, DumpSink(key, toFile, w.date)), None)
    case PortCreation(n) => Run(AddPortsOps(w.containerCount, n), None)
    case PortDeletion(n) => Run(DelPortsOps(w.containerCount, n), None)
    case PingFileCreation(lo, hi) => PingFileRun(lo, hi, w.portIps)
    case PingRun(lo, hi, toFile) =>
      PingRunFrom(Span(lo, hi), PingSink(toFile, w.date), ReadLines(w.pingFileText), w.portIps, w.pingResult)
  }

  /** What one action does. */
  function ActionRun(a: Action, w: World): Run
  {
    if CompanionAct(a) then CompanionActionRun(a, w)
    else if ContainerAct(a) then ContainerActionRun(a, w)
    else BatchActionRun(a, w)
  }

  /** Runs a controller-ip companion. */
  method PerformCompanion(a: Action, w: World) returns (r: Run)
    requires CompanionAct(a)
    ensures r == CompanionActionRun(a, w)
  {
    match a
    case NewNetwork(ip) =>
      r := Run([PostNetwork(ip)], None);
    case NewSubnet(ip) =>
      r := Run([PostSubnet(ip)], None);
    case PortBinding(n, ip) =>
      var ops := BindPortsToNeutron(w.containerCount, n, ip, w.macOutput, w.networkOutput, w.subnetOutput);
      r := Run(ops, None);
    case NeutronWipe(ip) =>
      r := Run([DeleteNeutronData(ip)], None);
    case FullCleanup(ip) =>
      r := Cleanup(ip, w);
  }

  /** Runs a container action. */
  method PerformContainerAction(a: Action, w: World) returns (r: Run)
    requires ContainerAct(a)
    ensures r == ContainerActionRun(a, w)
  {
    match a
    case StartContainers(n, ip) =>
      var ops := DockerOvsRunConnect(n, ip, w.containerCount, w.image);
      r := Run(ops, None);
    case StopContainers(n) =>
      r := DockerDown(n, w.namesOutput);
    case ContainerInfo(n, toFile) =>
      var ops := ShowContainersInfo(n, ShowInfoSink(toFile, w.date));
      r := Run(ops, None);
    case ContainerCount =>
      r := Run([PrintCount(w.containerCount)], None);
  }

  /** Runs a batch action. */
  method PerformBatch(a: Action, w: World) returns (r: Run)
    requires !CompanionAct(a) && !ContainerAct(a)
    ensures r == BatchActionRun(a, w)
  {
    match a
    case DumpRun(key, lo, hi, toFile) =>
      var ops := DumpOvs(key, lo, hi, toFile, w.date);
      r := Run(ops, None);
    case PortCreation(n) =>
      var ops := AddPortsToOvs(w.containerCount, n);
      r := Run(ops, None);
    case PortDeletion(n) =>
      var ops := DelAndUnbindPorts(w.containerCount, n);
      r := Run(ops, None);
    case PingFileCreation(lo, hi) =>
      r := CreatePingIpsFile(lo, hi, w.portIps);
    case PingRun(lo, hi, toFile) =>
      r := PingIpsFromFile(lo, hi, toFile, w.pingFileText, w.portIps, w.pingResult, w.date);
  }

  /** Each action runs the runner its branch calls, with the arguments the branch passes. */
  method PerformAction(a: Action, w: World) returns (r: Run)
    ensures r == ActionRun(a, w)
  {
    if CompanionAct(a) {
      r := PerformCompanion(a, w);
    } else if ContainerAct(a) {
      r := PerformContainerAction(a, w);
    } else {
      r := PerformBatch(a, w);
    }
  }

  /** The actions in order; an exception ends the invocation where it is raised. */
  function RunAll(actions: seq<Action>, w: World): Run
    decreases |actions|
  {
    if actions == [] then Run([], None)
    else
      var first := ActionRun(actions[0], w);
      if first.raised.Some? then first
      else
        var rest := RunAll(actions[1..], w);
        Run(first.ops + rest.ops, rest.raised)
  }

  /** The whole invocation: the decision, then its actions; a ValueError from the
      range check ends it before anything runs. */
  function Invocation(c: Conf, w: World): Run
  {
    match CheckArgsAndPerformAction(c)
    case RaisedValueError => Run([], Some(ValueError))
    case Returned(actions, _, _) => RunAll(actions, w)
  }

  /** check_args_and_perform_action, run: the decision and what it does. */
  method CheckArgsAndPerform(c: Conf, w: World) returns (d: Outcome, r: Run)
    ensures d == CheckArgsAndPerformAction(c)
    ensures r == Invocation(c, w)
  {
    d := CheckArgsAndPerformAction(c);
    if d.RaisedValueError? {
      return d, Run([], Some(ValueError));
    }
    var actions := d.actions;
    var ops: seq<Op> := [];
    var i := 0;
    while i < |actions|
      invariant 0 <= i <= |actions|
      invariant Run(ops + RunAll(actions[i..], w).ops, RunAll(actions[i..], w).raised) == RunAll(actions, w)
    {
      assert actions[i..][1..] == actions[i + 1..];
      RunStep(ops, ActionRun(actions[i], w), RunAll(actions[i + 1..], w), RunAll(actions[i..], w));
      var one := PerformAction(actions[i], w);
      if one.raised.Some? {
        return d, Run(ops + one.ops, one.raised);
      }
      ops := ops + one.ops;
      i := i + 1;
    }
    r := Run(ops, None);
  }

  /** Appending one more action's run to what the earlier actions recorded. */
  lemma RunStep(done: seq<Op>, first: Run, next: Run, here: Run)
    requires here == if first.raised.Some? then first else Run(first.ops + next.ops, next.raised)
    ensures first.raised.Some? ==> Run(done + here.ops, here.raised) == Run(done + first.ops, first.raised)
    ensures first.raised.None? ==> Run(done + here.ops, here.raised) == Run((done + first.ops) + next.ops, next.raised)
  {
    if first.raised.None? {
      assert done + (first.ops + next.ops) == (done + first.ops) + next.ops;
    }
  }

  /** An invocation finishes without an exception exactly when every action it
      runs does, and then it does each action's work in turn. */
  lemma {:induction false} RunAllCompletes(actions: seq<Action>, w: World)
    ensures RunAll(actions, w).raised.None? <==> forall k :: 0 <= k < |actions| ==> ActionRun(actions[k], w).raised.None?
    ensures RunAll(actions, w).raised.None? && actions != [] ==>
              RunAll(actions, w).ops == ActionRun(actions[0], w).ops + RunAll(actions[1..], w).ops
    decreases |actions|
  {
    if actions != [] {
      RunAllCompletes(actions[1..], w);
      assert forall k :: 1 <= k < |actions| ==> actions[1..][k - 1] == actions[k];
    }
  }

  /** A refusal, and anything but a return of 0, does nothing. */
  lemma RefusalRunsNothing(c: Conf, w: World)
    ensures var d := CheckArgsAndPerformAction(c);
            (d.RaisedValueError? || d.ret != Some(0)) ==> Invocation(c, w).ops == []
  {
  }

  // ---------------------------------------------------------------------------
  // start

  /** How a call of start ends: it returns a value, having set up logging or not,
      or an exception escapes it; either way after the records its actions left. */
  datatype StartEnd =
    | StartReturned(value: Option<int>, logging: bool, ops: seq<Op>)
    | StartRaised(error: Failure, ops: seq<Op>)

  /** start(args): read the command line, then dispatch, running the actions the
      dispatch picks. An exception raised while dispatching escapes start, which
      then neither returns nor sets up logging. After a dispatch return of 0 start
      sets up logging and falls off its end (None); after any other it returns 0. */
  function Start(args: Option<seq<string>>, argv: seq<string>, c: Conf, w: World): StartEnd
  {
    match RunStart(args, argv, c)
    case NoArguments => StartReturned(Some(0), false, [])
    case Help => StartReturned(None, false, [])
    case Checked(d) =>
      var r := Invocation(c, w);
      if r.raised.Some? then StartRaised(r.raised.value, r.ops)
      else
        assert d.Returned?;
        if d.ret != Some(0) then StartReturned(Some(0), false, r.ops)
        else StartReturned(None, true, r.ops)
  }

  /** start raises exactly when the dispatch raises or one of the actions it runs
      does. When it returns, it returns 0 or None: 0 without arguments and after
      any dispatch result but 0; and it sets up logging exactly after a dispatch
      that returned 0 and whose actions all completed. */
  lemma StartReturnMapping(args: Option<seq<string>>, argv: seq<string>, c: Conf, w: World)
    ensures var st, s := Start(args, argv, c, w), RunStart(args, argv, c);
            st.StartRaised? <==>
              s.Checked? &&
              (s.d.RaisedValueError? ||
               exists k :: 0 <= k < |s.d.actions| && ActionRun(s.d.actions[k], w).raised.Some?)
    ensures var st, s := Start(args, argv, c, w), RunStart(args, argv, c);
            st.StartReturned? ==>
              (st.value == Some(0) || st.value == None) &&
              (st.value == Some(0) <==> (args.None? && argv == []) || (s.Checked? && s.d.ret != Some(0))) &&
              (st.logging <==> s.Checked? && s.d.ret == Some(0))
  {
    var s := RunStart(args, argv, c);
    if s.Checked? && s.d.Returned? {
      RunAllCompletes(s.d.actions, w);
    }
  }

  /** `--stop-switches 3` while two switches are listed: docker_down stops both,
      then IndexError escapes start, which sets up no logging. */
  lemma StopPastListingEscapesStart(w: World)
    requires w.namesOutput == "ovs1\novs2\n"
    ensures Start(Some(["--stop-switches", "3"]), [], NoOptions.(stopSwitches := Some(3)), w) ==
            StartRaised(IndexError, [StopContainer("ovs1"), StopContainer("ovs2")])
  {
    var c := NoOptions.(stopSwitches := Some(3));
    var args := Some(["--stop-switches", "3"]);
    StopOnlyDecision();
    assert RunStart(args, [], c) == Checked(Done([StopContainers(3)]));
    DockerDownPastTwo();
    StopRun(3, w);
    OneActionRaising(args, [], c, w, StopContainers(3));
  }

  /** When the dispatch runs one action and that action raises, the exception
      escapes start after what the action did. */
  lemma OneActionRaising(args: Option<seq<string>>, argv: seq<string>, c: Conf, w: World, a: Action)
    requires RunStart(args, argv, c) == Checked(Done([a]))
    requires ActionRun(a, w).raised.Some?
    ensures Start(args, argv, c, w) == StartRaised(ActionRun(a, w).raised.value, ActionRun(a, w).ops)
  {
    assert RunAll([a], w) == ActionRun(a, w);
  }

  /** With only `--stop-switches 3` given, the dispatch stops three switches and returns 0. */
  lemma StopOnlyDecision()
    ensures CheckArgsAndPerformAction(NoOptions.(stopSwitches := Some(3))) == Returned([StopContainers(3)], None, Some(0))
  {
    var c := NoOptions.(stopSwitches := Some(3));
    assert IsSet(c, Stop);
    assert Governing(c) == Some(Stop);
  }

  /** A stop batch runs docker_down over the current listing. */
  lemma StopRun(n: int, w: World)
    ensures ActionRun(StopContainers(n), w) == DockerDownRun(n, w.namesOutput)
  {
    assert ContainerAct(StopContainers(n));
  }

  /** docker_down(3) on a listing of ovs1 and ovs2. */
  lemma DockerDownPastTwo()
    ensures DockerDownRun(3, "ovs1\novs2\n") == Run([StopContainer("ovs1"), StopContainer("ovs2")], Some(IndexError))
  {
    assert Lines(["ovs1", "ovs2"]) == "ovs1\novs2\n";
    DockerDownOfListing(3, ["ovs1", "ovs2"]);
    assert Map(StopOf, ["ovs1", "ovs2"]) == [StopContainer("ovs1"), StopContainer("ovs2")];
  }
}
