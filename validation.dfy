/** The two validators of dockernet/cmd/dockernet.py: the `--range` check
    (range_opt_validation) and the table of options that may not accompany
    `--start-switches` (start_switch_arg_handling). */
module Validation {
  import opened Wrappers
  import opened Text
  import opened Options

  /** What range_opt_validation makes of a `--range` list. */
  datatype RangeCheck =
    | RangeOk(lo: int, hi: int)  // returns 0
    | NotComplete                // "not given completely", returns -1
    | NotCorrect                 // "not given correctly", returns -1
    | NotInteger                 // int() raises ValueError

  /** range_opt_validation: exactly two non-empty integers, the first not above the second. */
  function RangeOptValidation(r: seq<string>): (v: RangeCheck)
    ensures v == NotComplete <==> |r| < 2
    ensures v.RangeOk? <==>
              |r| == 2 && r[0] != "" && r[1] != "" &&
              ParseInt(r[0]).Some? && ParseInt(r[1]).Some? &&
              ParseInt(r[0]).value <= ParseInt(r[1]).value
    ensures v.RangeOk? ==> ParseInt(r[0]) == Some(v.lo) && ParseInt(r[1]) == Some(v.hi)
    ensures v == NotInteger <==>
              |r| == 2 && r[0] != "" && r[1] != "" && (ParseInt(r[0]).None? || ParseInt(r[1]).None?)
  {
    if |r| < 2 then NotComplete
    else if r[0] == "" || r[1] == "" || |r| > 2 then NotCorrect
    else
      match (ParseInt(r[0]), ParseInt(r[1]))
      case (Some(lo), Some(hi)) => if lo > hi then NotCorrect else RangeOk(lo, hi)
      case _ => NotInteger
  }

  /** The value range_opt_validation returns when it returns at all. */
  function RangeReturnCode(v: RangeCheck): (code: int)
    requires !v.NotInteger?
    ensures code == 0 <==> v.RangeOk?
    ensures code == 0 || code == -1
  {
    if v.RangeOk? then 0 else -1
  }

  /** A range written out as `str(lo),str(hi)` validates exactly when lo <= hi,
      and then gives back the same bounds. */
  lemma RenderedRange(lo: int, hi: int)
    ensures RangeOptValidation([PyStr(lo), PyStr(hi)]) == if lo <= hi then RangeOk(lo, hi) else NotCorrect
  {
    ParseIntOfPyStr(lo);
    ParseIntOfPyStr(hi);
  }

  lemma RangeExamples()
    ensures RangeOptValidation(["5", "3"]) == NotCorrect
    ensures RangeOptValidation(["3"]) == NotComplete
    ensures RangeOptValidation(["2", "9"]) == RangeOk(2, 9)
    ensures RangeOptValidation(["1", "2", "3"]) == NotCorrect
    ensures RangeOptValidation(["a", "2"]) == NotInteger
  {
    assert Decimal(5) == "5" && Decimal(3) == "3" && Decimal(2) == "2" && Decimal(9) == "9";
    RenderedRange(5, 3);
    RenderedRange(2, 9);
  }

  /** The options start_switch_arg_handling rejects beside `--start-switches`,
      in the order it tests them. */
  datatype StartConflict =
    | WithStopSwitches
    | NoControllerIp
    | WithDump
    | WithRange
    | WithShowContainersInfo
    | WithShowContainerCount
    | WithCleanup
    | WithCreateNetwork
    | WithCreateSubnet
    | WithAddPorts
    | WithBindPorts
    | WithDelPorts
    | WithDelNeutronData
    | WithCreatePingIpsFile
    | WithPingAll

  /** The position of a conflict in the order of the tests. */
  function ConflictRank(k: StartConflict): nat
  {
    match k
    case WithStopSwitches => 0
    case NoControllerIp => 1
    case WithDump => 2
    case WithRange => 3
    case WithShowContainersInfo => 4
    case WithShowContainerCount => 5
    case WithCleanup => 6
    case WithCreateNetwork => 7
    case WithCreateSubnet => 8
    case WithAddPorts => 9
    case WithBindPorts => 10
    case WithDelPorts => 11
    case WithDelNeutronData => 12
    case WithCreatePingIpsFile => 13
    case WithPingAll => 14
  }

  /** The condition under which each conflict is reported. */
  predicate ConflictHolds(c: Conf, k: StartConflict)
  {
    match k
    case WithStopSwitches => IntSet(c.stopSwitches)
    case NoControllerIp => !StrSet(c.controllerIp)
    case WithDump => ListSet(c.dump)
    case WithRange => ListSet(c.range)
    case WithShowContainersInfo => IntSet(c.showContainersInfo)
    case WithShowContainerCount => BoolSet(c.showContainerCount)
    case WithCleanup => BoolSet(c.cleanup)
    case WithCreateNetwork => BoolSet(c.createNetwork)
    case WithCreateSubnet => BoolSet(c.createSubnet)
    case WithAddPorts => IntSet(c.addPorts)
    case WithBindPorts => IntSet(c.bindPorts)
    case WithDelPorts => IntSet(c.delPorts)
    case WithDelNeutronData => BoolSet(c.delNeutronData)
    case WithCreatePingIpsFile => BoolSet(c.createPingIpsFile)
    case WithPingAll => BoolSet(c.pingAll)
  }

  /** A conflict that holds, reported as such. */
  function Reported(c: Conf, k: StartConflict): (r: Option<StartConflict>)
    requires ConflictHolds(c, k)
    ensures r == Some(k) && !forall k' :: !ConflictHolds(c, k')
  {
    Some(k)
  }

  /** start_switch_arg_handling: the conflict whose message is printed, if any;
      its error flag is `r.Some?`. Only the first conflict in test order is reported. */
  function StartSwitchArgHandling(c: Conf): (r: Option<StartConflict>)
    ensures !IntSet(c.startSwitches) ==> r.None?
    ensures r.Some? ==> ConflictHolds(c, r.value)
    ensures IntSet(c.startSwitches) ==> (r.None? <==> forall k :: !ConflictHolds(c, k))
    ensures r.Some? ==> forall k :: ConflictRank(k) < ConflictRank(r.value) ==> !ConflictHolds(c, k)
  {
    if !IntSet(c.startSwitches) then None
    else if IntSet(c.stopSwitches) then Reported(c, WithStopSwitches)
    else if !StrSet(c.controllerIp) then Reported(c, NoControllerIp)
    else if ListSet(c.dump) then Reported(c, WithDump)
    else if ListSet(c.range) then Reported(c, WithRange)
    else if IntSet(c.showContainersInfo) then Reported(c, WithShowContainersInfo)
    else if BoolSet(c.showContainerCount) then Reported(c, WithShowContainerCount)
    else if BoolSet(c.cleanup) then Reported(c, WithCleanup)
    else if BoolSet(c.createNetwork) then Reported(c, WithCreateNetwork)
    else if BoolSet(c.createSubnet) then Reported(c, WithCreateSubnet)
    else if IntSet(c.addPorts) then Reported(c, WithAddPorts)
    else if IntSet(c.bindPorts) then Reported(c, WithBindPorts)
    else if IntSet(c.delPorts) then Reported(c, WithDelPorts)
    else if BoolSet(c.delNeutronData) then Reported(c, WithDelNeutronData)
    else if BoolSet(c.createPingIpsFile) then Reported(c, WithCreatePingIpsFile)
    else if BoolSet(c.pingAll) then Reported(c, WithPingAll)
    else None
  }
}
