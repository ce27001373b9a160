/** The decision part of check_args_and_perform_action and the return-code
    mapping of start (dockernet/cmd/dockernet.py). The decision is a value: the
    batches to run, the error message printed (if any) and the value returned.
    Running the batches is the business of the Runners module. */
module Dispatch {
  import opened Wrappers
  import opened Text
  import opened Options
  import opened Validation

  /** The options check_args_and_perform_action tests, one per branch of its elif chain. */
  datatype Flag =
    | Start | Stop | ControllerIp | Dump | ShowInfo | ShowCount | Cleanup | AddPorts
    | BindPorts | DelPorts | CreatePingFile | PingAll | CreateNetwork | CreateSubnet
    | DelNeutronData | Range

  /** The order in which the branches are tested. */
  const DispatchOrder: seq<Flag> :=
    [Start, Stop, ControllerIp, Dump, ShowInfo, ShowCount, Cleanup, AddPorts,
     BindPorts, DelPorts, CreatePingFile, PingAll, CreateNetwork, CreateSubnet,
     DelNeutronData, Range]

  /** The position of a flag in DispatchOrder. */
  function Rank(f: Flag): nat
  {
    match f
    case Start => 0
    case Stop => 1
    case ControllerIp => 2
    case Dump => 3
    case ShowInfo => 4
    case ShowCount => 5
    case Cleanup => 6
    case AddPorts => 7
    case BindPorts => 8
    case DelPorts => 9
    case CreatePingFile => 10
    case PingAll => 11
    case CreateNetwork => 12
    case CreateSubnet => 13
    case DelNeutronData => 14
    case Range => 15
  }

  /** Rank and DispatchOrder are inverse: every flag is tested exactly once. */
  lemma OrderRanks()
    ensures |DispatchOrder| == 16
    ensures forall f :: Rank(f) < 16 && DispatchOrder[Rank(f)] == f
    ensures forall k :: 0 <= k < 16 ==> Rank(DispatchOrder[k]) == k
  {
  }

  /** Python truthiness of the option a branch tests. */
  predicate IsSet(c: Conf, f: Flag)
  {
    match f
    case Start => IntSet(c.startSwitches)
    case Stop => IntSet(c.stopSwitches)
    case ControllerIp => StrSet(c.controllerIp)
    case Dump => ListSet(c.dump)
    case ShowInfo => IntSet(c.showContainersInfo)
    case ShowCount => BoolSet(c.showContainerCount)
    case Cleanup => BoolSet(c.cleanup)
    case AddPorts => IntSet(c.addPorts)
    case BindPorts => IntSet(c.bindPorts)
    case DelPorts => IntSet(c.delPorts)
    case CreatePingFile => BoolSet(c.createPingIpsFile)
    case PingAll => BoolSet(c.pingAll)
    case CreateNetwork => BoolSet(c.createNetwork)
    case CreateSubnet => BoolSet(c.createSubnet)
    case DelNeutronData => BoolSet(c.delNeutronData)
    case Range => ListSet(c.range)
  }

  /** The first flag from position k of DispatchOrder on whose option is set. */
  function FirstSetFrom(c: Conf, k: nat): (r: Option<Flag>)
    requires k <= |DispatchOrder|
    ensures r.Some? ==> IsSet(c, r.value) && k <= Rank(r.value)
    ensures r.Some? ==> forall g :: k <= Rank(g) < Rank(r.value) ==> !IsSet(c, g)
    ensures r.None? ==> forall g :: k <= Rank(g) ==> !IsSet(c, g)
    decreases |DispatchOrder| - k
  {
    OrderRanks();
    if k == |DispatchOrder| then None
    else if IsSet(c, DispatchOrder[k]) then Some(DispatchOrder[k])
    else FirstSetFrom(c, k + 1)
  }

  /** The branch of the elif chain that is taken: the first set option in
      DispatchOrder, or None for the final else. */
  function Governing(c: Conf): (r: Option<Flag>)
    ensures r.Some? ==> IsSet(c, r.value)
    ensures r.Some? ==> forall g :: Rank(g) < Rank(r.value) ==> !IsSet(c, g)
    ensures r.None? <==> forall g :: !IsSet(c, g)
  {
    FirstSetFrom(c, 0)
  }

  /** The kinds get_dump knows, in the order `--dump all` uses (DUMP_LIST_ALL). */
  const DumpListAll: seq<string> := ["flows", "flow-count", "ports", "groups", "tables", "ovs-show"]

  lemma DumpListAllDistinct()
    ensures |DumpListAll| == 6
    ensures forall p, q :: 0 <= p < q < |DumpListAll| ==> DumpListAll[p] != DumpListAll[q]
    ensures "all" !in DumpListAll
  {
  }

  predicate ValidDumpValue(e: string) { e == "all" || e in DumpListAll }

  /** The position of the first `--dump` element that is neither 'all' nor a known kind. */
  function FirstBadDumpValue(l: seq<string>): (r: Option<nat>)
    ensures r.Some? ==> r.value < |l| && !ValidDumpValue(l[r.value])
    ensures r.Some? ==> forall k :: 0 <= k < r.value ==> ValidDumpValue(l[k])
    ensures r.None? <==> forall k :: 0 <= k < |l| ==> ValidDumpValue(l[k])
  {
    if l == [] then None
    else if !ValidDumpValue(l[0]) then Some(0)
    else
      match FirstBadDumpValue(l[1..])
      case None => None
      case Some(p) => Some(p + 1)
  }

  /** One batch that a branch starts; each names the function of the tool that runs it. */
  datatype Action =
    | StartContainers(count: int, controllerIp: string)      // docker_ovs_run_connect
    | StopContainers(count: int)                             // docker_down
    | NewNetwork(controllerIp: string)                       // create_network
    | NewSubnet(controllerIp: string)                        // create_subnet
    | PortBinding(ports: int, controllerIp: string)          // bind_ports_to_neutron
    | NeutronWipe(controllerIp: string)                      // del_neutron_data
    | FullCleanup(controllerIp: string)                      // cleanup
    | DumpRun(key: string, lo: int, hi: int, toFile: bool)   // dump_ovs
    | ContainerInfo(count: int, toFile: bool)                // show_containers_info
    | ContainerCount                                         // get_container_count
    | PortCreation(ports: int)                               // add_ports_to_ovs
    | PortDeletion(ports: int)                               // del_and_unbind_ports
    | PingFileCreation(lo: int, hi: int)                     // create_ping_ips_file
    | PingRun(lo: int, hi: int, toFile: bool)                // ping_ips_from_file

  /** The option that asks for an action. */
  function Owner(a: Action): Flag
  {
    match a
    case StartContainers(_, _) => Start
    case StopContainers(_) => Stop
    case NewNetwork(_) => CreateNetwork
    case NewSubnet(_) => CreateSubnet
    case PortBinding(_, _) => BindPorts
    case NeutronWipe(_) => DelNeutronData
    case FullCleanup(_) => Cleanup
    case DumpRun(_, _, _, _) => Dump
    case ContainerInfo(_, _) => ShowInfo
    case ContainerCount => ShowCount
    case PortCreation(_) => AddPorts
    case PortDeletion(_) => DelPorts
    case PingFileCreation(_, _) => CreatePingFile
    case PingRun(_, _, _) => PingAll
  }

  /** The controller an action talks to, if it talks to one. */
  function ControllerOf(a: Action): Option<string>
  {
    match a
    case StartContainers(_, ip) => Some(ip)
    case NewNetwork(ip) => Some(ip)
    case NewSubnet(ip) => Some(ip)
    case PortBinding(_, ip) => Some(ip)
    case NeutronWipe(ip) => Some(ip)
    case FullCleanup(ip) => Some(ip)
    case _ => None
  }

  /** The actions that work on a `--range` of switches. */
  predicate Ranged(a: Action) { a.DumpRun? || a.PingFileCreation? || a.PingRun? }

  /** The error message printed, identified by what it complains about. */
  datatype Complaint =
    | StartConflict(conflict: StartConflict)
    | ControllerIpAlone
    | WrongDumpValue(elem: string)
    | RangeMissing(with: Flag)
    | RangeNotComplete
    | RangeNotCorrect
    | ControllerIpMissing(with: Flag)
    | RangeAlone
    | OptionsNotSpecified

  /** What check_args_and_perform_action does: the batches run, the complaint
      printed and the value returned (None for Python's implicit None), or the
      ValueError int() raises on a non-numeric range bound. */
  datatype Outcome =
    | Returned(actions: seq<Action>, complaint: Option<Complaint>, ret: Option<int>)
    | RaisedValueError

  function Done(actions: seq<Action>): Outcome { Returned(actions, None, Some(0)) }

  function Refused(why: Complaint): Outcome { Returned([], Some(why), Some(-1)) }

  /** The `--range` check shared by the dump, create-ping-ips-file and ping-all branches. */
  datatype RangeGate = Pass(lo: int, hi: int) | Halt(outcome: Outcome)

  function CheckRange(c: Conf, f: Flag): RangeGate
  {
    if c.range.None? then Halt(Refused(RangeMissing(f)))
    else
      match RangeOptValidation(c.range.value)
      case RangeOk(lo, hi) => Pass(lo, hi)
      case NotComplete => Halt(Refused(RangeNotComplete))
      case NotCorrect => Halt(Refused(RangeNotCorrect))
      case NotInteger => Halt(RaisedValueError)
  }

  /** The controller-ip companions, in the order they run. */
  const Companions: seq<Flag> := [CreateNetwork, CreateSubnet, BindPorts, DelNeutronData, Cleanup]

  function CompanionRank(f: Flag): nat
  {
    match f
    case CreateNetwork => 0
    case CreateSubnet => 1
    case BindPorts => 2
    case DelNeutronData => 3
    case _ => 4
  }

  /** The branches that demand `--controller-ip` and do nothing else. */
  const NeedsController: set<Flag> := {Cleanup, BindPorts, CreateNetwork, CreateSubnet, DelNeutronData}

  /** The batch a set companion runs against controller ip. */
  function CompanionAction(c: Conf, f: Flag, ip: string): (a: Action)
    requires f in Companions && IsSet(c, f)
    ensures Owner(a) == f && !Ranged(a) && ControllerOf(a) == Some(ip)
    ensures a.PortBinding? ==> c.bindPorts == Some(a.ports)
  {
    match f
    case CreateNetwork => NewNetwork(ip)
    case CreateSubnet => NewSubnet(ip)
    case BindPorts => PortBinding(c.bindPorts.value, ip)
    case DelNeutronData => NeutronWipe(ip)
    case Cleanup => FullCleanup(ip)
  }

  /** The flags of `fs` whose option is set, in the order of `fs`. */
  function SetAmong(c: Conf, fs: seq<Flag>): (r: seq<Flag>)
    ensures forall p :: 0 <= p < |r| ==> r[p] in fs && IsSet(c, r[p])
    decreases |fs|
  {
    if fs == [] then []
    else (if IsSet(c, fs[0]) then [fs[0]] else []) + SetAmong(c, fs[1..])
  }

  /** The companions whose option is set, in companion order. */
  function SetCompanions(c: Conf): seq<Flag> { SetAmong(c, Companions) }

  function ControllerIpBranch(c: Conf): Outcome
    requires StrSet(c.controllerIp)
  {
    if c.startSwitches.None? && c.createNetwork.None? && c.createSubnet.None? &&
       c.bindPorts.None? && c.delNeutronData.None? && c.cleanup.None? then
      Refused(ControllerIpAlone)
    else
      var fs := SetCompanions(c);
      Done(seq(|fs|, p requires 0 <= p < |fs| => CompanionAction(c, fs[p], c.controllerIp.value)))
  }

  function DumpRuns(keys: seq<string>, lo: int, hi: int, toFile: bool): seq<Action>
  {
    seq(|keys|, k requires 0 <= k < |keys| => DumpRun(keys[k], lo, hi, toFile))
  }

  function DumpBranch(c: Conf): Outcome
    requires ListSet(c.dump)
  {
    var l := c.dump.value;
    match FirstBadDumpValue(l)
    case Some(p) => Refused(WrongDumpValue(l[p]))
    case None =>
      match CheckRange(c, Dump)
      case Halt(o) => o
      case Pass(lo, hi) =>
        Done(DumpRuns(if "all" in l then DumpListAll else l, lo, hi, BoolSet(c.outputFile)))
  }

  /** A branch that only checks for `--controller-ip`, which the chain has already
      found absent when it gets there. */
  function ControllerOnlyBranch(c: Conf, f: Flag): Outcome
  {
    if !StrSet(c.controllerIp) then Returned([], Some(ControllerIpMissing(f)), Some(0))
    else Done([])
  }

  function RangedBranch(c: Conf, f: Flag): Outcome
    requires f == CreatePingFile || f == PingAll
  {
    match CheckRange(c, f)
    case Halt(o) => o
    case Pass(lo, hi) =>
      if f == CreatePingFile then Done([PingFileCreation(lo, hi)])
      else Done([PingRun(lo, hi, BoolSet(c.outputFile))])
  }

  /** The body of the branch taken for flag f. */
  function Branch(c: Conf, f: Flag): Outcome
    requires IsSet(c, f)
  {
    match f
    case Start =>
      (match StartSwitchArgHandling(c)
       case Some(k) => Refused(StartConflict(k))
       case None =>
         assert !ConflictHolds(c, NoControllerIp);
         Done([StartContainers(c.startSwitches.value, c.controllerIp.value)]))
    case Stop => Done([StopContainers(c.stopSwitches.value)])
    case ControllerIp => ControllerIpBranch(c)
    case Dump => DumpBranch(c)
    case ShowInfo => Done([ContainerInfo(c.showContainersInfo.value, BoolSet(c.outputFile))])
    case ShowCount => Done([ContainerCount])
    case AddPorts => Done([PortCreation(c.addPorts.value)])
    case DelPorts => Done([PortDeletion(c.delPorts.value)])
    case CreatePingFile => RangedBranch(c, f)
    case PingAll => RangedBranch(c, f)
    case Range =>
      if c.dump.None? && c.createPingIpsFile.None? && c.pingAll.None? then Refused(RangeAlone)
      else Returned([], None, None)
    case _ => ControllerOnlyBranch(c, f)
  }

  /** check_args_and_perform_action, as a decision. Whatever it decides, no batch
      runs unless it returns 0, and a refusal always says why. */
  function CheckArgsAndPerformAction(c: Conf): (d: Outcome)
    ensures d.Returned? ==> d.ret == Some(0) || d.ret == Some(-1) || d.ret == None
    ensures d.Returned? && d.ret != Some(0) ==> d.actions == []
    ensures d.Returned? && d.ret == Some(-1) ==> d.complaint.Some?
    ensures d.Returned? && d.complaint.Some? ==> d.actions == []
    ensures d.RaisedValueError? ==>
              Governing(c) in {Some(Dump), Some(CreatePingFile), Some(PingAll)} &&
              c.range.Some? && RangeOptValidation(c.range.value) == NotInteger
  {
    match Governing(c)
    case None => Refused(OptionsNotSpecified)
    case Some(f) => Branch(c, f)
  }

  /** Companions listed in strictly ascending companion order. */
  predicate RanksAscend(fs: seq<Flag>)
  {
    forall p, q :: 0 <= p < q < |fs| ==> CompanionRank(fs[p]) < CompanionRank(fs[q])
  }

  lemma CompanionsAscend()
    ensures RanksAscend(Companions)
  {
  }

  /** Picking flags out of a list in ascending companion order keeps the order. */
  lemma {:induction false} SetAmongAscend(c: Conf, fs: seq<Flag>)
    requires RanksAscend(fs)
    ensures RanksAscend(SetAmong(c, fs))
    decreases |fs|
  {
    if fs != [] {
      var rest := fs[1..];
      assert RanksAscend(rest) by {
        forall p, q | 0 <= p < q < |rest| ensures CompanionRank(rest[p]) < CompanionRank(rest[q]) {
          assert rest[p] == fs[p + 1] && rest[q] == fs[q + 1];
        }
      }
      SetAmongAscend(c, rest);
      var picked := SetAmong(c, rest);
      if IsSet(c, fs[0]) {
        forall q | 0 <= q < |picked| ensures CompanionRank(fs[0]) < CompanionRank(picked[q]) {
          var m :| 0 <= m < |rest| && rest[m] == picked[q];
          assert fs[m + 1] == picked[q];
        }
        RanksAscendCons(fs[0], picked);
        assert SetAmong(c, fs) == [fs[0]] + picked;
      } else {
        assert SetAmong(c, fs) == picked;
      }
    }
  }

  lemma RanksAscendCons(f: Flag, rest: seq<Flag>)
    requires forall q :: 0 <= q < |rest| ==> CompanionRank(f) < CompanionRank(rest[q])
    requires RanksAscend(rest)
    ensures RanksAscend([f] + rest)
  {
    var fs := [f] + rest;
    forall p, q | 0 <= p < q < |fs| ensures CompanionRank(fs[p]) < CompanionRank(fs[q]) {
      assert fs[q] == rest[q - 1];
      if p > 0 {
        assert fs[p] == rest[p - 1];
      }
    }
  }

  /** A flag of the list is picked exactly when its option is set. */
  lemma {:induction false} SetAmongExact(c: Conf, fs: seq<Flag>)
    ensures forall f :: f in fs ==> (IsSet(c, f) <==> f in SetAmong(c, fs))
    decreases |fs|
  {
    if fs != [] {
      SetAmongExact(c, fs[1..]);
      var picked := SetAmong(c, fs[1..]);
      if IsSet(c, fs[0]) {
        assert SetAmong(c, fs) == [fs[0]] + picked;
      } else {
        assert SetAmong(c, fs) == picked;
      }
      forall f | f in fs ensures IsSet(c, f) <==> f in SetAmong(c, fs) {
        if f != fs[0] {
          var m :| 0 <= m < |fs| && fs[m] == f;
          assert fs[1..][m - 1] == f;
        }
      }
    }
  }

  /** The companions that run are listed in companion order. */
  lemma SetCompanionsAscend(c: Conf)
    ensures RanksAscend(SetCompanions(c))
  {
    CompanionsAscend();
    SetAmongAscend(c, Companions);
  }

  /** The companions listed are exactly the companions whose option is set. */
  lemma SetCompanionsExact(c: Conf)
    ensures forall f :: f in Companions ==> (IsSet(c, f) <==> f in SetCompanions(c))
    ensures forall f :: f in SetCompanions(c) ==> f in Companions
  {
    SetAmongExact(c, Companions);
  }

  function Owners(r: seq<Action>): seq<Flag>
  {
    seq(|r|, p requires 0 <= p < |r| => Owner(r[p]))
  }

  /** Past its None test, the controller-ip branch runs one batch per set companion,
      in companion order, each against the given controller. */
  lemma CompanionRuns(c: Conf)
    requires StrSet(c.controllerIp)
    ensures var d := ControllerIpBranch(c);
            d.ret != Some(-1) ==>
              d.ret == Some(0) && d.complaint.None? &&
              Owners(d.actions) == SetCompanions(c) &&
              (forall a :: a in d.actions ==> !Ranged(a) && ControllerOf(a) == c.controllerIp) &&
              forall a :: a in d.actions && a.PortBinding? ==> c.bindPorts == Some(a.ports)
  {
  }

  /** The actions of a dump run cover the given keys, in order, over one range. */
  lemma DumpRunsFacts(keys: seq<string>, lo: int, hi: int, toFile: bool)
    ensures var r := DumpRuns(keys, lo, hi, toFile);
            |r| == |keys| &&
            (forall p :: 0 <= p < |r| ==> r[p] == DumpRun(keys[p], lo, hi, toFile)) &&
            (forall a :: a in r ==> a.DumpRun? && a.lo == lo && a.hi == hi)
  {
  }

  /** An action the branch for f may run: its option is set, it belongs to f or
      to a companion of controller-ip, and it is range-based only after the range
      validated to its bounds. */
  predicate ActionAllowed(c: Conf, f: Flag, a: Action)
  {
    IsSet(c, Owner(a)) &&
    (Owner(a) == f || (f == ControllerIp && Owner(a) in Companions)) &&
    (Ranged(a) ==> c.range.Some? && RangeOptValidation(c.range.value) == RangeOk(a.lo, a.hi))
  }

  /** What each branch runs, belongs to it or to a companion of controller-ip,
      and is range-based only after the range validated. */
  lemma BranchActions(c: Conf, f: Flag)
    requires IsSet(c, f)
    ensures var d := Branch(c, f);
            d.Returned? ==> forall a :: a in d.actions ==> ActionAllowed(c, f, a)
  {
    match f
    case ControllerIp => ControllerBranchActions(c);
    case Dump => DumpBranchActions(c);
    case CreatePingFile => RangedBranchActions(c, f);
    case PingAll => RangedBranchActions(c, f);
    case _ =>
  }

  /** The controller-ip branch runs its companions' batches, each owned by a set option. */
  lemma ControllerBranchActions(c: Conf)
    requires IsSet(c, ControllerIp)
    ensures var d := ControllerIpBranch(c);
            d.Returned? ==> forall a :: a in d.actions ==> ActionAllowed(c, ControllerIp, a)
  {
    CompanionRuns(c);
    var d := ControllerIpBranch(c);
    if d.Returned? {
      forall a | a in d.actions ensures ActionAllowed(c, ControllerIp, a) {
        var p :| 0 <= p < |d.actions| && d.actions[p] == a;
        assert Owner(a) == Owners(d.actions)[p];
      }
    }
  }

  /** The dump branch runs dump batches only, over the validated bounds. */
  lemma DumpBranchActions(c: Conf)
    requires IsSet(c, Dump)
    ensures var d := DumpBranch(c);
            d.Returned? ==> forall a :: a in d.actions ==> ActionAllowed(c, Dump, a)
  {
    var l := c.dump.value;
    if FirstBadDumpValue(l).None? && CheckRange(c, Dump).Pass? {
      var g := CheckRange(c, Dump);
      DumpRunsFacts(if "all" in l then DumpListAll else l, g.lo, g.hi, BoolSet(c.outputFile));
    }
  }

  /** The create-ping-ips-file and ping-all branches run their own batch, and only
      over the bounds the range validated to. */
  lemma RangedBranchActions(c: Conf, f: Flag)
    requires (f == CreatePingFile || f == PingAll) && IsSet(c, f)
    ensures var d := RangedBranch(c, f);
            d.Returned? ==> forall a :: a in d.actions ==> ActionAllowed(c, f, a)
  {
    var g := CheckRange(c, f);
    if g.Pass? {
      assert c.range.Some? && RangeOptValidation(c.range.value) == RangeOk(g.lo, g.hi);
    }
  }

  /** Every batch that runs belongs to the branch taken, or, in the controller-ip
      branch, to one of its companions whose option is set. */
  lemma ActionsFollowPriority(c: Conf)
    ensures Governing(c).None? ==> CheckArgsAndPerformAction(c) == Refused(OptionsNotSpecified)
    ensures var d := CheckArgsAndPerformAction(c);
            d.Returned? ==>
              forall a :: a in d.actions ==>
                IsSet(c, Owner(a)) &&
                (Owner(a) == Governing(c).value ||
                 (Governing(c) == Some(ControllerIp) && Owner(a) in Companions))
  {
    if Governing(c).Some? {
      BranchActions(c, Governing(c).value);
    }
  }

  /** No range-based batch runs unless the `--range` list validated to exactly its bounds. */
  lemma RangedActionsNeedValidRange(c: Conf)
    ensures var d := CheckArgsAndPerformAction(c);
            d.Returned? ==>
              forall a :: a in d.actions && Ranged(a) ==>
                c.range.Some? && RangeOptValidation(c.range.value) == RangeOk(a.lo, a.hi)
  {
    if Governing(c).Some? {
      BranchActions(c, Governing(c).value);
    }
  }

  /** With `--start-switches` set, the switches start exactly when no conflict holds,
      and otherwise the first conflict is reported and -1 returned. */
  lemma StartRule(c: Conf)
    requires IsSet(c, Start)
    ensures var d := CheckArgsAndPerformAction(c);
            d.Returned? && (d.ret == Some(0) <==> forall k :: !ConflictHolds(c, k))
    ensures var d := CheckArgsAndPerformAction(c);
            d.ret == Some(0) ==>
              StrSet(c.controllerIp) &&
              d.actions == [StartContainers(c.startSwitches.value, c.controllerIp.value)]
    ensures var d := CheckArgsAndPerformAction(c);
            d.ret != Some(0) ==>
              StartSwitchArgHandling(c).Some? && d == Refused(StartConflict(StartSwitchArgHandling(c).value))
  {
    assert Governing(c) == Some(Start);
  }

  /** `--start-switches` with `--stop-switches` is refused, whatever else is given. */
  lemma StartWithStopRejected(c: Conf)
    requires IsSet(c, Start) && IsSet(c, Stop)
    ensures CheckArgsAndPerformAction(c) == Refused(StartConflict(WithStopSwitches))
  {
    assert Governing(c) == Some(Start);
    assert ConflictRank(WithStopSwitches) == 0;
  }

  /** The controller-ip branch: refused when none of the six options it accepts is
      given at all; otherwise every companion that is set runs, once, in companion
      order, against the given controller, and 0 is returned. */
  lemma ControllerIpRule(c: Conf)
    requires Governing(c) == Some(ControllerIp)
    ensures var d := CheckArgsAndPerformAction(c);
            d.Returned? &&
            (d.ret == Some(-1) <==>
               c.startSwitches.None? && c.createNetwork.None? && c.createSubnet.None? &&
               c.bindPorts.None? && c.delNeutronData.None? && c.cleanup.None?)
    ensures var d := CheckArgsAndPerformAction(c);
            d.ret == Some(-1) ==> d.complaint == Some(ControllerIpAlone)
    ensures var d := CheckArgsAndPerformAction(c);
            d.ret != Some(-1) ==>
              d.ret == Some(0) && d.complaint.None? &&
              (forall a :: a in d.actions ==> ControllerOf(a) == c.controllerIp) &&
              (forall a :: a in d.actions && a.PortBinding? ==> c.bindPorts == Some(a.ports)) &&
              (forall f :: f in Owners(d.actions) ==> f in Companions) &&
              (forall f :: f in Companions ==> (IsSet(c, f) <==> f in Owners(d.actions))) &&
              (forall p, q :: 0 <= p < q < |d.actions| ==>
                 CompanionRank(Owners(d.actions)[p]) < CompanionRank(Owners(d.actions)[q]))
  {
    assert CheckArgsAndPerformAction(c) == ControllerIpBranch(c);
    CompanionRuns(c);
    SetCompanionsExact(c);
    SetCompanionsAscend(c);
  }

  /** `--controller-ip` with only a negated companion (`--nocreate-network`) passes
      the None test, runs nothing and returns 0. */
  lemma ControllerIpWithNegatedCompanion()
    ensures CheckArgsAndPerformAction(NoOptions.(controllerIp := Some("10.0.0.1"), createNetwork := Some(false)))
            == Done([])
  {
    var c := NoOptions.(controllerIp := Some("10.0.0.1"), createNetwork := Some(false));
    assert Governing(c) == Some(ControllerIp) by {
      assert IsSet(c, ControllerIp) && !IsSet(c, Start) && !IsSet(c, Stop);
    }
    assert SetCompanions(c) == [];
  }

  /** The dump branch: the first unknown element is reported before the range is
      looked at; then a missing or invalid range refuses; otherwise 'all' dumps the
      six kinds of DUMP_LIST_ALL once each in declared order, and without 'all' the
      elements are dumped as given, duplicates included, each over the whole range. */
  lemma DumpRule(c: Conf)
    requires Governing(c) == Some(Dump)
    ensures var d, l := CheckArgsAndPerformAction(c), c.dump.value;
            FirstBadDumpValue(l).Some? ==>
              d == Refused(WrongDumpValue(l[FirstBadDumpValue(l).value]))
    ensures var d, l := CheckArgsAndPerformAction(c), c.dump.value;
            FirstBadDumpValue(l).None? && c.range.None? ==> d == Refused(RangeMissing(Dump))
    ensures var d, l := CheckArgsAndPerformAction(c), c.dump.value;
            FirstBadDumpValue(l).None? && c.range.Some? && RangeOptValidation(c.range.value).RangeOk? ==>
              var v := RangeOptValidation(c.range.value);
              d.Returned? && d.ret == Some(0) && d.complaint.None? &&
              |d.actions| == (if "all" in l then 6 else |l|) &&
              forall p :: 0 <= p < |d.actions| ==>
                d.actions[p] == DumpRun((if "all" in l then DumpListAll else l)[p], v.lo, v.hi, BoolSet(c.outputFile)) &&
                d.actions[p].key in DumpListAll
    ensures var d, l := CheckArgsAndPerformAction(c), c.dump.value;
            FirstBadDumpValue(l).None? && c.range.Some? && RangeOptValidation(c.range.value) == NotComplete ==>
              d == Refused(RangeNotComplete)
    ensures var d, l := CheckArgsAndPerformAction(c), c.dump.value;
            FirstBadDumpValue(l).None? && c.range.Some? && RangeOptValidation(c.range.value) == NotCorrect ==>
              d == Refused(RangeNotCorrect)
    ensures var d, l := CheckArgsAndPerformAction(c), c.dump.value;
            FirstBadDumpValue(l).None? && c.range.Some? && RangeOptValidation(c.range.value) == NotInteger ==>
              d == RaisedValueError
  {
    var l := c.dump.value;
    if FirstBadDumpValue(l).None? && "all" !in l {
      assert forall p :: 0 <= p < |l| ==> l[p] in DumpListAll by {
        forall p | 0 <= p < |l| ensures l[p] in DumpListAll {
          assert ValidDumpValue(l[p]);
        }
      }
    }
  }

  /** The cleanup, bind-ports, create-network, create-subnet and del-neutron-data
      branches are reached only without `--controller-ip`: they print the complaint,
      run nothing and still return 0. */
  lemma ControllerOnlyRule(c: Conf)
    requires Governing(c).Some? && Governing(c).value in NeedsController
    ensures CheckArgsAndPerformAction(c) ==
            Returned([], Some(ControllerIpMissing(Governing(c).value)), Some(0))
  {
    var g := Governing(c).value;
    assert !IsSet(c, ControllerIp) by {
      assert Rank(ControllerIp) < Rank(g);
    }
    assert Branch(c, g) == ControllerOnlyBranch(c, g);
  }

  /** The range branch refuses only when none of dump, create-ping-ips-file and
      ping-all was given at all; otherwise it runs nothing and returns None. */
  lemma RangeRule(c: Conf)
    requires Governing(c) == Some(Range)
    ensures var d := CheckArgsAndPerformAction(c);
            d.Returned? && d.actions == [] &&
            (d.ret == Some(-1) <==> c.dump.None? && c.createPingIpsFile.None? && c.pingAll.None?) &&
            (d.ret != Some(-1) ==> d.ret == None && d.complaint.None?)
  {
  }

  /** The create-ping-ips-file and ping-all branches: a missing range refuses with
      the branch's own message, an invalid one refuses or raises as the range check
      does, and a valid one runs the branch's batch over its bounds and returns 0. */
  lemma RangedRule(c: Conf, f: Flag)
    requires (f == CreatePingFile || f == PingAll) && Governing(c) == Some(f)
    ensures var d := CheckArgsAndPerformAction(c);
            c.range.None? ==> d == Refused(RangeMissing(f))
    ensures var d := CheckArgsAndPerformAction(c);
            c.range.Some? && RangeOptValidation(c.range.value).RangeOk? ==>
              var v := RangeOptValidation(c.range.value);
              d == Done([if f == CreatePingFile then PingFileCreation(v.lo, v.hi)
                         else PingRun(v.lo, v.hi, BoolSet(c.outputFile))])
    ensures var d := CheckArgsAndPerformAction(c);
            c.range.Some? && RangeOptValidation(c.range.value) == NotComplete ==> d == Refused(RangeNotComplete)
    ensures var d := CheckArgsAndPerformAction(c);
            c.range.Some? && RangeOptValidation(c.range.value) == NotCorrect ==> d == Refused(RangeNotCorrect)
    ensures var d := CheckArgsAndPerformAction(c);
            c.range.Some? && RangeOptValidation(c.range.value) == NotInteger ==> d == RaisedValueError
  {
  }

  /** The stop, show-info, show-count, add-ports and del-ports branches run their
      one batch with the option's value and return 0. */
  lemma OneBatchRule(c: Conf)
    ensures Governing(c) == Some(Stop) ==>
              CheckArgsAndPerformAction(c) == Done([StopContainers(c.stopSwitches.value)])
    ensures Governing(c) == Some(ShowInfo) ==>
              CheckArgsAndPerformAction(c) ==
              Done([ContainerInfo(c.showContainersInfo.value, BoolSet(c.outputFile))])
    ensures Governing(c) == Some(ShowCount) ==> CheckArgsAndPerformAction(c) == Done([ContainerCount])
    ensures Governing(c) == Some(AddPorts) ==>
              CheckArgsAndPerformAction(c) == Done([PortCreation(c.addPorts.value)])
    ensures Governing(c) == Some(DelPorts) ==>
              CheckArgsAndPerformAction(c) == Done([PortDeletion(c.delPorts.value)])
  {
  }

  /** What start does after reading the command line. */
  datatype StartResult =
    | NoArguments            // prints "No arguments specified." and returns 0
    | Help                   // prints the usage text and returns None
    | Checked(d: Outcome)    // parses the options and runs check_args_and_perform_action

  /** start(args): `args` is None when start is called without arguments, and
      `argv` is the process's own argument list, used in that case. */
  function RunStart(args: Option<seq<string>>, argv: seq<string>, c: Conf): StartResult
  {
    var a := if args.None? then argv else args.value;
    if args.None? && argv == [] then NoArguments
    else if "-h" in a || "--help" in a then Help
    else Checked(CheckArgsAndPerformAction(c))
  }

  /** A help flag wins over every other option. */
  lemma HelpFirst(args: Option<seq<string>>, argv: seq<string>, c: Conf)
    requires var a := if args.None? then argv else args.value;
             "-h" in a || "--help" in a
    ensures RunStart(args, argv, c) == Help
  {
  }
}
