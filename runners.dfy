/** The batch runners of dockernet/cmd/dockernet.py. Each is a method whose loops
    mirror the source's and append one record per unit of work; each is proved
    equal to a specification function over the units it visits, and the
    properties of the batches are lemmas about those functions. */
module Runners {
  import opened Wrappers
  import opened Text
  import opened Identifiers
  import opened Iteration
  import opened Trace

  // ---------------------------------------------------------------------------
  // add_ports_to_ovs, bind_ports_to_neutron, del_and_unbind_ports

  /** The five commands of add_ports_to_ovs for port i of switch j: the veth pair
      vm port / tap, the /16 address on the vm port, both links up, and the tap
      added to br-int with its interface id. */
  function AddOp(u: Unit): Op
  {
    AddPort(ContainerName(u.sw), VmPortName(u.sw, u.port), TapName(u.sw, u.port),
            PortCidr(u.sw, u.port), IfaceId(u.sw, u.port))
  }

  /** The neutron port bind_ports_to_neutron posts for port i of switch j. */
  function BindOp(u: Unit, controllerIp: string, macOutput: (string, string) -> string,
                  networkId: string, subnetId: string): Op
  {
    var cont, vm := ContainerName(u.sw), VmPortName(u.sw, u.port);
    BindPort(controllerIp,
             NeutronPort(IfaceId(u.sw, u.port), DeviceId(u.sw, u.port), TapName(u.sw, u.port),
                         Strip(macOutput(cont, vm), '\n'), PortIp(u.sw, u.port),
                         networkId, subnetId, false))
  }

  /** The two commands of del_and_unbind_ports for port i of switch j. */
  function DelOp(u: Unit): Op
  {
    DelPort(ContainerName(u.sw), TapName(u.sw, u.port), VmPortName(u.sw, u.port))
  }

  function AddPortsOps(swCount: nat, portsNum: int): seq<Op>
  {
    Map(AddOp, Grid(swCount, portsNum))
  }

  function BindPortsOps(swCount: nat, portsNum: int, controllerIp: string,
                        macOutput: (string, string) -> string,
                        networkOutput: string, subnetOutput: string): seq<Op>
  {
    Map(BindWith(controllerIp, macOutput, Strip(networkOutput, '\n'), Strip(subnetOutput, '\n')),
        Grid(swCount, portsNum))
  }

  /** BindOp with everything but the unit fixed. */
  function BindWith(controllerIp: string, macOutput: (string, string) -> string,
                    networkId: string, subnetId: string): Unit -> Op
  {
    u => BindOp(u, controllerIp, macOutput, networkId, subnetId)
  }

  function DelPortsOps(swCount: nat, portsNum: int): seq<Op>
  {
    Map(DelOp, Grid(swCount, portsNum))
  }

  /** One more port of switch j extends what a batch has done by that port's record. */
  lemma RowStep<B>(f: Unit -> B, done: seq<B>, j: nat, n: int, i: nat)
    requires 1 <= i <= Count(n)
    ensures done + Map(f, Row(j, n)[..i]) == (done + Map(f, Row(j, n)[..i - 1])) + [f(Unit(j, i))]
  {
    assert Row(j, n)[..i] == Row(j, n)[..i - 1] + [Unit(j, i)];
    MapAppend(f, Row(j, n)[..i - 1], [Unit(j, i)]);
  }

  /** A finished row of switch j extends the batch over switches 1..j - 1 to 1..j. */
  lemma GridStep<B>(f: Unit -> B, j: nat, n: int)
    requires 1 <= j
    ensures Map(f, Grid(j, n)) == Map(f, Grid(j - 1, n)) + Map(f, Row(j, n)[..Count(n)])
  {
    assert Row(j, n)[..Count(n)] == Row(j, n);
    MapAppend(f, Grid(j - 1, n), Row(j, n));
  }

  /** The nested loops shared by the three port batches: for each switch j in
      1..count and each port i in 1..n, the work `f` does for that port. */
  method ForEachPort<B>(f: Unit -> B, swCount: nat, portsNum: int) returns (done: seq<B>)
    ensures done == Map(f, Grid(swCount, portsNum))
  {
    done := [];
    var j := 1;
    while j <= swCount
      invariant 1 <= j <= swCount + 1
      invariant done == Map(f, Grid(j - 1, portsNum))
    {
      var i := 1;
      while i <= portsNum
        invariant 1 <= i <= Count(portsNum) + 1
        invariant done == Map(f, Grid(j - 1, portsNum)) + Map(f, Row(j, portsNum)[..i - 1])
      {
        RowStep(f, Map(f, Grid(j - 1, portsNum)), j, portsNum, i);
        done := done + [f(Unit(j, i))];
        i := i + 1;
      }
      GridStep(f, j, portsNum);
      j := j + 1;
    }
  }

  /** add_ports_to_ovs, given the number of running containers. */
  method AddPortsToOvs(swCount: nat, portsNum: int) returns (ops: seq<Op>)
    ensures ops == AddPortsOps(swCount, portsNum)
  {
    ops := ForEachPort(AddOp, swCount, portsNum);
  }

  /** bind_ports_to_neutron, given the number of running containers, the MAC
      lookup output per container and vm port, and the network and subnet id files. */
  method BindPortsToNeutron(swCount: nat, portsNum: int, controllerIp: string,
                            macOutput: (string, string) -> string,
                            networkOutput: string, subnetOutput: string) returns (ops: seq<Op>)
    ensures ops == BindPortsOps(swCount, portsNum, controllerIp, macOutput, networkOutput, subnetOutput)
  {
    var networkId := Strip(networkOutput, '\n');
    var subnetId := Strip(subnetOutput, '\n');
    ops := ForEachPort(BindWith(controllerIp, macOutput, networkId, subnetId), swCount, portsNum);
  }

  /** del_and_unbind_ports, given the number of running containers. */
  method DelAndUnbindPorts(swCount: nat, portsNum: int) returns (ops: seq<Op>)
    ensures ops == DelPortsOps(swCount, portsNum)
  {
    ops := ForEachPort(DelOp, swCount, portsNum);
  }

  /** For one unit, the port add creates is the one bind registers and delete
      removes: same container, tap, vm port, interface id and address. */
  lemma UnitOpsAgree(u: Unit, controllerIp: string, macOutput: (string, string) -> string,
                     networkId: string, subnetId: string)
    ensures var add, bind, del := AddOp(u), BindOp(u, controllerIp, macOutput, networkId, subnetId), DelOp(u);
            bind.port.name == add.tap && bind.port.ifaceId == add.ifaceId &&
            bind.port.ip + "/16" == add.cidr && !bind.port.portSecurity &&
            del == DelPort(add.container, add.tap, add.vmPort)
  {
  }

  /** Each port batch does count × n units of work, none when n < 1. */
  lemma PortBatchesLength(swCount: nat, portsNum: int, controllerIp: string,
                          macOutput: (string, string) -> string,
                          networkOutput: string, subnetOutput: string)
    ensures var n := swCount * Count(portsNum);
            |AddPortsOps(swCount, portsNum)| == n && |DelPortsOps(swCount, portsNum)| == n &&
            |BindPortsOps(swCount, portsNum, controllerIp, macOutput, networkOutput, subnetOutput)| == n
  {
    GridLength(swCount, portsNum);
  }

  /** The add and delete batches visit port i of switch j at position
      (j - 1) × n + (i - 1): switches ascending, ports ascending within each. */
  lemma AddAndDelAt(swCount: nat, portsNum: int, j: nat, i: nat)
    requires 1 <= j <= swCount && 1 <= i <= portsNum
    ensures var add, k := AddPortsOps(swCount, portsNum), (j - 1) * portsNum + (i - 1);
            0 <= k < |add| && add[k] == AddOp(Unit(j, i))
    ensures var del, k := DelPortsOps(swCount, portsNum), (j - 1) * portsNum + (i - 1);
            0 <= k < |del| && del[k] == DelOp(Unit(j, i))
  {
    GridAt(swCount, portsNum, j, i);
    BatchesAt(swCount, portsNum, "", (a, b) => "", "", "", j, i, (j - 1) * portsNum + (i - 1));
  }

  /** The bind batch visits the units in the same order, so the neutron port at
      each position is the one for the tap port the add batch created there. */
  lemma BindAt(swCount: nat, portsNum: int, controllerIp: string,
               macOutput: (string, string) -> string,
               networkOutput: string, subnetOutput: string, j: nat, i: nat)
    requires 1 <= j <= swCount && 1 <= i <= portsNum
    ensures var bind := BindPortsOps(swCount, portsNum, controllerIp, macOutput, networkOutput, subnetOutput);
            var k := (j - 1) * portsNum + (i - 1);
            0 <= k < |bind| &&
            bind[k] == BindOp(Unit(j, i), controllerIp, macOutput, Strip(networkOutput, '\n'), Strip(subnetOutput, '\n'))
  {
    GridAt(swCount, portsNum, j, i);
    BatchesAt(swCount, portsNum, controllerIp, macOutput, networkOutput, subnetOutput, j, i,
              (j - 1) * portsNum + (i - 1));
  }

  lemma BatchesAt(swCount: nat, portsNum: int, controllerIp: string,
                  macOutput: (string, string) -> string,
                  networkOutput: string, subnetOutput: string, j: nat, i: nat, k: nat)
    requires k < |Grid(swCount, portsNum)| && Grid(swCount, portsNum)[k] == Unit(j, i)
    ensures k < |AddPortsOps(swCount, portsNum)| && AddPortsOps(swCount, portsNum)[k] == AddOp(Unit(j, i))
    ensures var bind := BindPortsOps(swCount, portsNum, controllerIp, macOutput, networkOutput, subnetOutput);
            k < |bind| &&
            bind[k] == BindOp(Unit(j, i), controllerIp, macOutput, Strip(networkOutput, '\n'), Strip(subnetOutput, '\n'))
    ensures k < |DelPortsOps(swCount, portsNum)| && DelPortsOps(swCount, portsNum)[k] == DelOp(Unit(j, i))
  {
  }

  /** No tap port is added twice in one batch. */
  lemma AddedTapsDistinct(swCount: nat, portsNum: int)
    ensures var add := AddPortsOps(swCount, portsNum);
            forall p, q :: 0 <= p < q < |add| ==> add[p].tap != add[q].tap
  {
    GridShape(swCount, portsNum);
    var g := Grid(swCount, portsNum);
    forall p, q | 0 <= p < q < |g|
      ensures AddOp(g[p]).tap != AddOp(g[q]).tap
    {
      assert UnitBefore(g[p], g[q]);
      TapNameInjective(g[p].sw, g[p].port, g[q].sw, g[q].port);
    }
  }

  // ---------------------------------------------------------------------------
  // get_dump, dump_ovs, show_containers_info

  /** Switch j is the next after switches lo..j - 1. */
  lemma SpanStep<B>(f: int -> B, lo: int, j: int)
    requires lo <= j
    ensures Map(f, Span(lo, j)) == Map(f, Span(lo, j - 1)) + [f(j)]
  {
    assert Span(lo, j) == Span(lo, j - 1) + [j];
    MapAppend(f, Span(lo, j - 1), [j]);
  }

  /** The loop shared by the switch-range runners: for each switch j in lo..hi,
      the work `f` does for that switch. */
  method ForEachSwitch<B>(f: int -> B, lo: int, hi: int) returns (done: seq<B>)
    ensures done == Map(f, Span(lo, hi))
  {
    done := [];
    var j := lo;
    while j <= hi
      invariant lo <= j <= if hi < lo then lo else hi + 1
      invariant done == Map(f, Span(lo, j - 1))
    {
      SpanStep(f, lo, j);
      done := done + [f(j)];
      j := j + 1;
    }
    assert Span(lo, j - 1) == Span(lo, hi);
  }

  /** The command get_dump runs for a dump key. */
  function DumpCommandOf(key: string): DumpCommand
  {
    if key == "ovs-show" then OvsShow
    else if key == "flow-count" then FlowCount
    else OfctlDump(key)
  }

  /** The closing announcement of a runner that wrote into a file. */
  function Closing(sink: Sink): seq<Op>
  {
    if sink.File? then [Announce(sink.path)] else []
  }

  function DumpWith(key: string, sink: Sink): int -> Op
  {
    j => DumpSwitch(sink, ContainerName(j), key, DumpCommandOf(key))
  }

  /** What get_dump does: one headed dump per switch of lo..hi, then the
      announcement when the output went into a file. */
  function DumpOps(key: string, lo: int, hi: int, sink: Sink): seq<Op>
  {
    Map(DumpWith(key, sink), Span(lo, hi)) + Closing(sink)
  }

  method GetDump(key: string, lo: int, hi: int, sink: Sink) returns (ops: seq<Op>)
    ensures ops == DumpOps(key, lo, hi, sink)
  {
    ops := ForEachSwitch(DumpWith(key, sink), lo, hi);
    if sink.File? {
      ops := ops + [Announce(sink.path)];
    }
  }

  /** dump_ovs: the output file, when asked for, is named after the dump key. */
  function DumpSink(elem: string, toFile: bool, date: string): Sink
  {
    if toFile then File(OutfilePath("dump-" + elem + "-outfile-", date)) else Console
  }

  method DumpOvs(elem: string, lo: int, hi: int, toFile: bool, date: string) returns (ops: seq<Op>)
    ensures ops == DumpOps(elem, lo, hi, DumpSink(elem, toFile, date))
  {
    var sink := Console;
    if toFile {
      sink := File(OutfilePath("dump-" + elem + "-outfile-", date));
    }
    ops := GetDump(elem, lo, hi, sink);
  }

  /** get_dump visits every switch of lo..hi once, in ascending order, sends
      every dump to the same place, and announces a file exactly when it wrote one. */
  lemma DumpCoversRange(key: string, lo: int, hi: int, sink: Sink)
    ensures var ops, n := DumpOps(key, lo, hi, sink), |Span(lo, hi)|;
            |ops| == n + (if sink.File? then 1 else 0) &&
            (forall k :: 0 <= k < n ==>
               ops[k] == DumpSwitch(sink, ContainerName(lo + k), key, DumpCommandOf(key))) &&
            (sink.File? ==> ops[n] == Announce(sink.path))
  {
    SpanShape(lo, hi);
  }

  /** The dump keys select their command: `ovs-show` and `flow-count` are special,
      every other key names an `ovs-ofctl dump-<key>` table. */
  lemma DumpCommandRule(key: string)
    ensures DumpCommandOf(key) == OvsShow <==> key == "ovs-show"
    ensures DumpCommandOf(key) == FlowCount <==> key == "flow-count"
    ensures DumpCommandOf(key).OfctlDump? <==> key != "ovs-show" && key != "flow-count"
    ensures DumpCommandOf(key).OfctlDump? ==> DumpCommandOf(key).kind == key
  {
  }

  function InspectWith(sink: Sink): int -> Op
  {
    j => Inspect(sink, ContainerName(j))
  }

  /** What show_containers_info does: `docker inspect` of ovs1..ovs<count>, then
      the announcement when the output went into a file. */
  function ShowInfoOps(count: int, sink: Sink): seq<Op>
  {
    Map(InspectWith(sink), Span(1, count)) + Closing(sink)
  }

  method ShowContainersInfo(count: int, sink: Sink) returns (ops: seq<Op>)
    ensures ops == ShowInfoOps(count, sink)
  {
    ops := ForEachSwitch(InspectWith(sink), 1, count);
    if sink.File? {
      ops := ops + [Announce(sink.path)];
    }
  }

  /** The show-containers-info output file. */
  function ShowInfoSink(toFile: bool, date: string): Sink
  {
    if toFile then File(OutfilePath("show-container-outfile-", date)) else Console
  }

  /** Containers ovs1..ovs<count> are inspected in order, one each, none when count < 1. */
  lemma ShowInfoCovers(count: int, sink: Sink)
    ensures var ops := ShowInfoOps(count, sink);
            |ops| == Count(count) + |Closing(sink)| &&
            forall k :: 0 <= k < Count(count) ==> ops[k] == Inspect(sink, ContainerName(k + 1))
  {
    SpanShape(1, count);
  }

  // ---------------------------------------------------------------------------
  // create_ping_ips_file, ping_ips_from_file

  /** The VM port addresses collected from a run of switches, and the exception
      that stopped the collection, if any. */
  datatype Collected = Collected(ips: seq<string>, raised: Option<Failure>)

  /** The addresses of each switch of js in turn; a listing that cannot be read
      (no trailing empty line) raises ValueError and ends the run. */
  function CollectIps(js: seq<int>, portIps: string -> CommandResult): Collected
    decreases |js|
  {
    if js == [] then Collected([], None)
    else
      match PortIpList(portIps(ContainerName(js[0])))
      case None => Collected([], Some(ValueError))
      case Some(ips) =>
        var rest := CollectIps(js[1..], portIps);
        Collected(ips + rest.ips, rest.raised)
  }

  /** The loop over a list shared by the runners: `f` applied to each element in turn. */
  method ForEach<A, B>(f: A -> B, s: seq<A>) returns (done: seq<B>)
    ensures done == Map(f, s)
  {
    done := [];
    var q := 0;
    while q < |s|
      invariant 0 <= q <= |s|
      invariant done == Map(f, s[..q])
    {
      SeqStep(f, [], s, q);
      done := done + [f(s[q])];
      q := q + 1;
    }
    assert s[..q] == s;
  }

  /** One more element of `s` extends a prefix's images by its image. */
  lemma SeqStep<A, B>(f: A -> B, done: seq<B>, s: seq<A>, q: nat)
    requires q < |s|
    ensures done + Map(f, s[..q + 1]) == (done + Map(f, s[..q])) + [f(s[q])]
  {
    assert s[..q + 1] == s[..q] + [s[q]];
    MapAppend(f, s[..q], [s[q]]);
  }

  function WriteIp(ip: string): Op { WritePingIp(ip) }

  /** What create_ping_ips_file does for switches lo..hi: `f.write(ip + '\n')`
      for each address collected. */
  function PingFileRun(lo: int, hi: int, portIps: string -> CommandResult): Run
  {
    var c := CollectIps(Span(lo, hi), portIps);
    Run(Map(WriteIp, c.ips), c.raised)
  }

  /** The text of the address file after a run: one address per line. */
  function PingFileText(lo: int, hi: int, portIps: string -> CommandResult): string
  {
    Lines(CollectIps(Span(lo, hi), portIps).ips)
  }

  /** Collecting from switch j on, after `acc`: a listing that cannot be read
      ends the collection there; otherwise its addresses join `acc` and the
      collection goes on from j + 1. */
  lemma CollectStep(acc: seq<string>, j: int, hi: int, portIps: string -> CommandResult)
    requires j <= hi
    ensures var listed, here, next := PortIpList(portIps(ContainerName(j))),
                                      CollectIps(Span(j, hi), portIps), CollectIps(Span(j + 1, hi), portIps);
            (listed.None? ==> here == Collected([], Some(ValueError))) &&
            (listed.Some? ==> Collected(acc + here.ips, here.raised)
                              == Collected((acc + listed.value) + next.ips, next.raised))
  {
    assert Span(j, hi)[0] == j && Span(j, hi)[1..] == Span(j + 1, hi);
    var listed, next := PortIpList(portIps(ContainerName(j))), CollectIps(Span(j + 1, hi), portIps);
    if listed.Some? {
      assert acc + (listed.value + next.ips) == (acc + listed.value) + next.ips;
    }
  }

  method CreatePingIpsFile(lo: int, hi: int, portIps: string -> CommandResult) returns (r: Run)
    ensures r == PingFileRun(lo, hi, portIps)
  {
    ghost var whole := CollectIps(Span(lo, hi), portIps);
    var ops: seq<Op> := [];
    ghost var acc: seq<string> := [];
    var j := lo;
    while j <= hi
      invariant lo <= j <= if hi < lo then lo else hi + 1
      invariant ops == Map(WriteIp, acc)
      invariant Collected(acc + CollectIps(Span(j, hi), portIps).ips, CollectIps(Span(j, hi), portIps).raised) == whole
    {
      CollectStep(acc, j, hi, portIps);
      var listed := GetPortIpsFromOvs(portIps(ContainerName(j)));
      if listed.None? {
        r := Run(ops, Some(ValueError));
        return;
      }
      var written := ForEach(WriteIp, listed.value);
      MapAppend(WriteIp, acc, listed.value);
      ops := ops + written;
      acc := acc + listed.value;
      j := j + 1;
    }
    assert Span(j, hi) == [];
    r := Run(ops, None);
  }

  /** No collected address holds a newline. */
  lemma {:induction false} CollectedLines(js: seq<int>, portIps: string -> CommandResult)
    ensures forall k :: 0 <= k < |CollectIps(js, portIps).ips| ==> '\n' !in CollectIps(js, portIps).ips[k]
    decreases |js|
  {
    if js != [] {
      CollectedLines(js[1..], portIps);
      PortIpListLines(portIps(ContainerName(js[0])));
    }
  }

  /** Reading the address file back, as ping_ips_from_file does (readlines, then
      each line stripped of newlines), gives exactly the addresses collected, in
      the order they were written. */
  lemma PingFileRoundTrip(lo: int, hi: int, portIps: string -> CommandResult)
    ensures var ips := CollectIps(Span(lo, hi), portIps).ips;
            var back := ReadLines(PingFileText(lo, hi, portIps));
            |back| == |ips| && forall k :: 0 <= k < |ips| ==> Strip(back[k], '\n') == ips[k]
  {
    var ips := CollectIps(Span(lo, hi), portIps).ips;
    CollectedLines(Span(lo, hi), portIps);
    ReadLinesOfLines(ips);
    forall k | 0 <= k < |ips| ensures Strip(ips[k] + "\n", '\n') == ips[k] {
      StripTerminated(ips[k]);
    }
  }

  /** The ping of one source to one line of the address file. */
  function PingWith(sink: Sink, cont: string, src: string,
                    pingResult: (string, string, string) -> CommandResult): string -> Op
  {
    line => var dst := Strip(line, '\n');
            Ping(sink, cont, src, dst, PingPassed(pingResult(cont, src, dst)))
  }

  /** Every source address of a switch pinging every line of the file, sources outermost. */
  function PingPairs(sink: Sink, cont: string, srcs: seq<string>, lines: seq<string>,
                     pingResult: (string, string, string) -> CommandResult): seq<Op>
    decreases |srcs|
  {
    if srcs == [] then []
    else PingPairs(sink, cont, srcs[..|srcs| - 1], lines, pingResult)
         + Map(PingWith(sink, cont, srcs[|srcs| - 1], pingResult), lines)
  }

  /** The pings of one switch: for each source address, every line of the file. */
  method PingSwitch(sink: Sink, cont: string, srcs: seq<string>, lines: seq<string>,
                    pingResult: (string, string, string) -> CommandResult) returns (ops: seq<Op>)
    ensures ops == PingPairs(sink, cont, srcs, lines, pingResult)
  {
    ops := [];
    var p := 0;
    while p < |srcs|
      invariant 0 <= p <= |srcs|
      invariant ops == PingPairs(sink, cont, srcs[..p], lines, pingResult)
    {
      var row := ForEach(PingWith(sink, cont, srcs[p], pingResult), lines);
      assert srcs[..p + 1][..p] == srcs[..p];
      ops := ops + row;
      p := p + 1;
    }
    assert srcs[..p] == srcs;
  }

  /** What ping_ips_from_file does for the switches js: per switch, the header and
      then every pair; the announcement after the last switch when writing a file.
      A switch whose address listing cannot be read raises ValueError before its header. */
  function PingRunFrom(js: seq<int>, sink: Sink, lines: seq<string>, portIps: string -> CommandResult,
                       pingResult: (string, string, string) -> CommandResult): Run
    decreases |js|
  {
    if js == [] then Run(Closing(sink), None)
    else
      var cont := ContainerName(js[0]);
      match PortIpList(portIps(cont))
      case None => Run([], Some(ValueError))
      case Some(srcs) =>
        var rest := PingRunFrom(js[1..], sink, lines, portIps, pingResult);
        Run([PingHeader(sink, cont)] + PingPairs(sink, cont, srcs, lines, pingResult) + rest.ops, rest.raised)
  }

  /** Pinging from switch j on: a listing that cannot be read ends the run there;
      otherwise the switch's header and pings come first and the run goes on
      from j + 1. */
  lemma PingRunStep(j: int, hi: int, sink: Sink, lines: seq<string>,
                    portIps: string -> CommandResult,
                    pingResult: (string, string, string) -> CommandResult)
    requires j <= hi
    ensures var cont := ContainerName(j);
            var listed, here, next := PortIpList(portIps(cont)),
                                      PingRunFrom(Span(j, hi), sink, lines, portIps, pingResult),
                                      PingRunFrom(Span(j + 1, hi), sink, lines, portIps, pingResult);
            (listed.None? ==> here == Run([], Some(ValueError))) &&
            (listed.Some? ==>
               here == Run([PingHeader(sink, cont)] + PingPairs(sink, cont, listed.value, lines, pingResult) + next.ops,
                           next.raised))
  {
    var js := Span(j, hi);
    assert js != [] && js[0] == j && js[1..] == Span(j + 1, hi);
  }

  lemma AppendAssoc<T>(a: seq<T>, b: seq<T>, c: seq<T>, d: seq<T>)
    ensures a + (b + c + d) == (a + b + c) + d
  {
  }

  /** The ping-all output file. */
  function PingSink(toFile: bool, date: string): Sink
  {
    if toFile then File(OutfilePath("ping-ips-outfile-", date)) else Console
  }

  /** ping_ips_from_file, given the address file's text, the address listing and
      the ping output per container, and the date. */
  method PingIpsFromFile(lo: int, hi: int, toFile: bool, fileText: string,
                         portIps: string -> CommandResult,
                         pingResult: (string, string, string) -> CommandResult,
                         date: string) returns (r: Run)
    ensures r == PingRunFrom(Span(lo, hi), PingSink(toFile, date), ReadLines(fileText), portIps, pingResult)
  {
    var lines := ReadLines(fileText);
    var sink := PingSink(toFile, date);
    ghost var whole := PingRunFrom(Span(lo, hi), sink, lines, portIps, pingResult);
    var ops: seq<Op> := [];
    var j := lo;
    while j <= hi
      invariant lo <= j <= if hi < lo then lo else hi + 1
      invariant Run(ops + PingRunFrom(Span(j, hi), sink, lines, portIps, pingResult).ops,
                    PingRunFrom(Span(j, hi), sink, lines, portIps, pingResult).raised) == whole
    {
      PingRunStep(j, hi, sink, lines, portIps, pingResult);
      var cont := ContainerName(j);
      var listed := GetPortIpsFromOvs(portIps(cont));
      if listed.None? {
        r := Run(ops, Some(ValueError));
        return;
      }
      var pings := PingSwitch(sink, cont, listed.value, lines, pingResult);
      ghost var here := PingRunFrom(Span(j, hi), sink, lines, portIps, pingResult);
      ghost var next := PingRunFrom(Span(j + 1, hi), sink, lines, portIps, pingResult);
      assert here == Run([PingHeader(sink, cont)] + pings + next.ops, next.raised);
      AppendAssoc(ops, [PingHeader(sink, cont)], pings, next.ops);
      ops := ops + [PingHeader(sink, cont)] + pings;
      j := j + 1;
    }
    assert Span(j, hi) == [];
    r := Run(ops + Closing(sink), None);
  }

  lemma {:induction false} PingPairsLength(sink: Sink, cont: string, srcs: seq<string>, lines: seq<string>,
                                           pingResult: (string, string, string) -> CommandResult)
    ensures |PingPairs(sink, cont, srcs, lines, pingResult)| == |srcs| * |lines|
    decreases |srcs|
  {
    if srcs != [] {
      var init := srcs[..|srcs| - 1];
      PingPairsLength(sink, cont, init, lines, pingResult);
      assert |PingPairs(sink, cont, srcs, lines, pingResult)|
          == |PingPairs(sink, cont, init, lines, pingResult)| + |lines|;
      MulStep(|init|, |lines|);
    }
  }

  lemma MulStep(a: nat, m: nat)
    ensures (a + 1) * m == a * m + m
  {
  }

  /** Source p pings line q of the file at position p × |lines| + q: sources in
      the order listed, and for each the file's lines in order, each stripped of
      its newline. */
  lemma {:induction false} PingPairAt(sink: Sink, cont: string, srcs: seq<string>, lines: seq<string>,
                                      pingResult: (string, string, string) -> CommandResult, p: nat, q: nat)
    requires p < |srcs| && q < |lines|
    ensures var pairs, dst := PingPairs(sink, cont, srcs, lines, pingResult), Strip(lines[q], '\n');
            p * |lines| + q < |pairs| &&
            pairs[p * |lines| + q] == Ping(sink, cont, srcs[p], dst, PingPassed(pingResult(cont, srcs[p], dst)))
    decreases |srcs|
  {
    var init := srcs[..|srcs| - 1];
    PingPairsLength(sink, cont, srcs, lines, pingResult);
    PingPairsLength(sink, cont, init, lines, pingResult);
    var m := |lines|;
    if p == |srcs| - 1 {
      assert p * m == |init| * m;
    } else {
      PingPairAt(sink, cont, init, lines, pingResult, p, q);
      assert init[p] == srcs[p];
    }
  }

  // ---------------------------------------------------------------------------
  // docker_ovs_run_connect, docker_down

  function RunWith(controllerIp: string, image: string): int -> Op
  {
    j => RunContainer(ContainerName(j), controllerIp, image)
  }

  /** What docker_ovs_run_connect does with `running` containers already up:
      containers ovs<running + 1>..ovs<running + n>, each connected to the
      controller; with no image, the failure message once and nothing started. */
  function RunConnectOps(n: int, controllerIp: string, running: nat, image: string): seq<Op>
  {
    var started := Span(running + 1, running + n);
    if started == [] then []
    else if image == "" then [NoImage]
    else Map(RunWith(controllerIp, image), started)
  }

  /** docker_ovs_run_connect, given the running count and the image lookup's output
      (the same on every iteration). */
  method DockerOvsRunConnect(switchCount: int, controllerIp: string, running: nat, image: string)
    returns (ops: seq<Op>)
    ensures ops == RunConnectOps(switchCount, controllerIp, running, image)
  {
    var start := running + 1;
    var end := switchCount + start;
    ops := [];
    var i := start;
    while i < end
      invariant start <= i <= if end < start then start else end
      invariant ops == Map(RunWith(controllerIp, image), Span(start, i - 1))
      invariant i > start ==> image != ""
    {
      if image == "" {
        ops := [NoImage];
        return;
      }
      SpanStep(RunWith(controllerIp, image), start, i);
      ops := ops + [RunContainer(ContainerName(i), controllerIp, image)];
      i := i + 1;
    }
    assert Span(start, i - 1) == Span(running + 1, running + switchCount);
  }

  /** The containers started are the next n after the running ones, in order. */
  lemma RunConnectNames(n: int, controllerIp: string, running: nat, image: string)
    requires image != ""
    ensures var ops := RunConnectOps(n, controllerIp, running, image);
            |ops| == Count(n) &&
            forall k :: 0 <= k < |ops| ==> ops[k] == RunContainer(ContainerName(running + 1 + k), controllerIp, image)
  {
    SpanShape(running + 1, running + n);
  }

  /** No container started shares a name with a running one, ovs1..ovs<running>,
      nor with another started one. */
  lemma RunConnectFresh(n: int, controllerIp: string, running: nat, image: string)
    requires image != ""
    ensures var ops := RunConnectOps(n, controllerIp, running, image);
            (forall k, m :: 0 <= k < |ops| && 1 <= m <= running ==> ops[k].name != ContainerName(m)) &&
            (forall k, k' :: 0 <= k < k' < |ops| ==> ops[k].name != ops[k'].name)
  {
    RunConnectNames(n, controllerIp, running, image);
    var ops := RunConnectOps(n, controllerIp, running, image);
    forall k, m | 0 <= k < |ops| && 1 <= m <= running ensures ops[k].name != ContainerName(m) {
      ContainerNameInjective(running + 1 + k, m);
    }
    forall k, k' | 0 <= k < k' < |ops| ensures ops[k].name != ops[k'].name {
      ContainerNameInjective(running + 1 + k, running + 1 + k');
    }
  }

  /** Without an image nothing is started: one failure message when there was
      anything to start. */
  lemma RunConnectWithoutImage(n: int, controllerIp: string, running: nat)
    ensures RunConnectOps(n, controllerIp, running, "") == if n < 1 then [] else [NoImage]
  {
    SpanShape(running + 1, running + n);
  }

  function StopOf(name: string): Op { StopContainer(name) }

  /** What docker_down does with the container listing: stop the first `end`
      names in listing order; past the end of the list, IndexError after
      stopping them all; an unreadable listing raises ValueError first. */
  function DockerDownRun(end: int, namesOutput: string): Run
  {
    match NamesList(namesOutput)
    case None => Run([], Some(ValueError))
    case Some(names) =>
      if end <= |names| then Run(Map(StopOf, names[..Count(end)]), None)
      else Run(Map(StopOf, names), Some(IndexError))
  }

  method DockerDown(end: int, namesOutput: string) returns (r: Run)
    ensures r == DockerDownRun(end, namesOutput)
  {
    var listed := GetOvsNamesList(namesOutput);
    if listed.None? {
      return Run([], Some(ValueError));
    }
    var names := listed.value;
    var ops: seq<Op> := [];
    var i := 0;
    while i < end
      invariant 0 <= i <= Count(end) && i <= |names|
      invariant ops == Map(StopOf, names[..i])
    {
      if i >= |names| {
        assert names[..i] == names;
        return Run(ops, Some(IndexError));
      }
      SeqStep(StopOf, [], names, i);
      ops := ops + [StopContainer(names[i])];
      i := i + 1;
    }
    r := Run(ops, None);
  }

  /** For a listing that prints one name per line, docker_down stops the first
      `end` names in listing order, and raises IndexError after stopping them all
      when asked for more. */
  lemma DockerDownOfListing(end: int, names: seq<string>)
    requires forall k :: 0 <= k < |names| ==> '\n' !in names[k] && names[k] != ""
    ensures DockerDownRun(end, Lines(names)) ==
            if end <= |names| then Run(Map(StopOf, names[..Count(end)]), None)
            else Run(Map(StopOf, names), Some(IndexError))
  {
    ListingRoundTrip(names);
  }

  /** The listing is sorted as strings, so ovs10 sorts between ovs1 and ovs2:
      with ovs1..ovs10 up, stopping two stops ovs1 and ovs10. */
  lemma ListingOrder()
    ensures LexLess("ovs1", "ovs10") && LexLess("ovs10", "ovs2")
  {
    assert "ovs1"[1..] == "vs1" && "ovs10"[1..] == "vs10" && "ovs2"[1..] == "vs2";
    assert "vs1"[1..] == "s1" && "vs10"[1..] == "s10" && "vs2"[1..] == "s2";
    assert "s1"[1..] == "1" && "s10"[1..] == "10" && "s2"[1..] == "2";
    assert "1"[1..] == "" && "10"[1..] == "0";
  }

  /** A listing in the order `sort` leaves it: no name precedes an earlier one. */
  predicate SortedListing(names: seq<string>)
  {
    forall p, q :: 0 <= p < q < |names| ==> LexLess(names[p], names[q]) || names[p] == names[q]
  }

  /** On a sorted listing, docker_down stops the lexically smallest names: no
      container it leaves running sorts before one it stops. */
  lemma DockerDownStopsSmallest(end: int, names: seq<string>)
    requires forall k :: 0 <= k < |names| ==> '\n' !in names[k] && names[k] != ""
    requires SortedListing(names) && end <= |names|
    ensures var r := DockerDownRun(end, Lines(names));
            r.raised.None? && |r.ops| == Count(end) &&
            (forall p :: 0 <= p < |r.ops| ==> r.ops[p] == StopContainer(names[p])) &&
            forall p, q :: 0 <= p < Count(end) <= q < |names| ==> !LexLess(names[q], names[p])
  {
    DockerDownOfListing(end, names);
    forall p, q | 0 <= p < Count(end) <= q < |names| ensures !LexLess(names[q], names[p]) {
      LexLessAsymmetric(names[p], names[q]);
    }
  }

  /** docker_down stops names[..end] exactly when the listing is readable and
      holds at least `end` names. */
  lemma DockerDownStops(end: int, namesOutput: string)
    ensures var r := DockerDownRun(end, namesOutput);
            r.raised.None? <==> NamesList(namesOutput).Some? && end <= |NamesList(namesOutput).value|
    ensures var r := DockerDownRun(end, namesOutput);
            r.raised.None? ==>
              |r.ops| == Count(end) &&
              forall k :: 0 <= k < |r.ops| ==> r.ops[k] == StopContainer(NamesList(namesOutput).value[k])
  {
  }

  // ---------------------------------------------------------------------------
  // a whole session: start two switches, add three ports to each, dump their flows

  /** Starting two switches with none running asks for ovs1 and ovs2, in that order. */
  lemma ScenarioStart(image: string)
    requires image != ""
    ensures RunConnectOps(2, "10.0.0.1", 0, image) ==
            [RunContainer("ovs1", "10.0.0.1", image), RunContainer("ovs2", "10.0.0.1", image)]
  {
    var ops := RunConnectOps(2, "10.0.0.1", 0, image);
    RunConnectNames(2, "10.0.0.1", 0, image);
    assert ContainerName(1) == "ovs1" by { assert Decimal(1) == "1"; }
    assert ContainerName(2) == "ovs2" by { assert Decimal(2) == "2"; }
    assert ops[0] == RunContainer("ovs1", "10.0.0.1", image);
    assert ops[1] == RunContainer("ovs2", "10.0.0.1", image);
  }

  /** The address an add record assigns, '' for any other record. */
  function CidrOf(op: Op): string { if op.AddPort? then op.cidr else "" }

  /** Adding three ports to each of two switches assigns 20.0.1.1..20.0.1.3, then
      20.0.2.1..20.0.2.3. */
  lemma ScenarioAddPorts()
    ensures Map(CidrOf, AddPortsOps(2, 3)) ==
            ["20.0.1.1/16", "20.0.1.2/16", "20.0.1.3/16", "20.0.2.1/16", "20.0.2.2/16", "20.0.2.3/16"]
  {
    var cidrs := Map(CidrOf, AddPortsOps(2, 3));
    var expected := ["20.0.1.1/16", "20.0.1.2/16", "20.0.1.3/16", "20.0.2.1/16", "20.0.2.2/16", "20.0.2.3/16"];
    GridLength(2, 3);
    forall k | 0 <= k < 6 ensures cidrs[k] == expected[k] {
      var j, i := k / 3 + 1, k % 3 + 1;
      ScenarioCidr(k, j, i, expected[k]);
    }
  }

  /** One address of ScenarioAddPorts: port i of switch j, at position k. */
  lemma ScenarioCidr(k: nat, j: nat, i: nat, cidr: string)
    requires 1 <= j <= 2 && 1 <= i <= 3 && k == (j - 1) * 3 + (i - 1)
    requires cidr == "20.0." + [(j + '0' as int) as char] + "." + [(i + '0' as int) as char] + "/16"
    ensures k < |AddPortsOps(2, 3)| && CidrOf(AddPortsOps(2, 3)[k]) == cidr
  {
    AddAndDelAt(2, 3, j, i);
    assert Decimal(j) == [(j + '0' as int) as char];
    assert Decimal(i) == [(i + '0' as int) as char];
  }

  /** Dumping `flows` over the range 1,2 to the console gives one section per switch. */
  lemma ScenarioDump()
    ensures DumpOps("flows", 1, 2, Console) ==
            [DumpSwitch(Console, "ovs1", "flows", OfctlDump("flows")),
             DumpSwitch(Console, "ovs2", "flows", OfctlDump("flows"))]
  {
    var ops := DumpOps("flows", 1, 2, Console);
    DumpCoversRange("flows", 1, 2, Console);
    assert |Span(1, 2)| == 2;
    assert ContainerName(1) == "ovs1" by { assert Decimal(1) == "1"; }
    assert ContainerName(2) == "ovs2" by { assert Decimal(2) == "2"; }
    assert DumpCommandOf("flows") == OfctlDump("flows");
    assert ops[0] == DumpSwitch(Console, "ovs1", "flows", OfctlDump("flows"));
    assert ops[1] == DumpSwitch(Console, "ovs2", "flows", OfctlDump("flows"));
  }
}
