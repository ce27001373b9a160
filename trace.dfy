/** What the batch runners of dockernet/cmd/dockernet.py do, as records: each
    record stands for the shell commands the tool issues for one unit of work,
    with the names and values those commands carry. Also the small string
    transforms applied to command output. */
module Trace {
  import opened Wrappers
  import opened Text

  /** Where a runner's report goes: printed, or written to an output file. */
  datatype Sink = Console | File(path: string)

  /** The command get_dump runs in one container. */
  datatype DumpCommand =
    | OvsShow               // ovs-vsctl show
    | FlowCount             // ovs-ofctl dump-flows ... | grep cookie | wc -l
    | OfctlDump(kind: string)  // ovs-ofctl dump-<kind>

  /** The body of the neutron port created for one tap port. */
  datatype NeutronPort = NeutronPort(
    ifaceId: string, deviceId: string, name: string, mac: string,
    ip: string, networkId: string, subnetId: string, portSecurity: bool)

  datatype Op =
    | RunContainer(name: string, controllerIp: string, image: string)
    | NoImage                 // "Failure: No docker image to run the container."
    | StopContainer(name: string)  // remove local_ip, del-controller, del-manager, stop, rm
    | AddPort(container: string, vmPort: string, tap: string, cidr: string, ifaceId: string)
    | BindPort(controllerIp: string, port: NeutronPort)
    | DelPort(container: string, tap: string, vmPort: string)
    | PostNetwork(controllerIp: string)
    | PostSubnet(controllerIp: string)
    | DeleteNeutronData(controllerIp: string)
    | RemoveOutputFiles
    | DumpSwitch(sink: Sink, container: string, key: string, command: DumpCommand)
    | Inspect(sink: Sink, container: string)
    | WritePingIp(ip: string)
    | PingHeader(sink: Sink, container: string)
    | Ping(sink: Sink, container: string, src: string, dst: string, passed: bool)
    | PrintCount(count: nat)
    | Announce(path: string)  // "... output is written into <path>"

  /** The Python exceptions the runners let escape. */
  datatype Failure = ValueError | IndexError

  /** The records of a run, and the exception that ended it early, if any. */
  datatype Run = Run(ops: seq<Op>, raised: Option<Failure>)

  /** `subprocess.check_output`: a non-zero exit raises CalledProcessError. */
  datatype CommandResult = NonZeroExit | Output(text: string)

  /** `lines.remove('')` as a loop: the list without its first empty string, or
      None where Python raises ValueError. */
  method RemoveFirstEmpty(parts: seq<string>) returns (r: Option<seq<string>>)
    ensures r == RemoveFirst(parts, "")
  {
    var k := 0;
    while k < |parts| && parts[k] != ""
      invariant 0 <= k <= |parts|
      invariant "" !in parts[..k]
    {
      k := k + 1;
    }
    if k == |parts| {
      assert parts[..k] == parts;
      r := None;
    } else {
      assert FirstIndex(parts, "") == k by {
        FirstIndexUnique(parts, "", k);
      }
      r := Some(parts[..k] + parts[k + 1..]);
    }
  }

  lemma FirstIndexUnique<T>(s: seq<T>, x: T, k: nat)
    requires k < |s| && s[k] == x && x !in s[..k]
    ensures x in s && FirstIndex(s, x) == k
  {
    if k > 0 {
      assert s[0] in s[..k];
      assert s[1..][..k - 1] == s[..k][1..];
      FirstIndexUnique(s[1..], x, k - 1);
    }
  }

  /** get_port_ips_from_ovs on the output of the address listing of one container:
      no addresses when the listing command fails. */
  function PortIpList(out: CommandResult): Option<seq<string>>
  {
    match out
    case NonZeroExit => Some([])
    case Output(text) => RemoveFirst(Split(text, '\n'), "")
  }

  method GetPortIpsFromOvs(out: CommandResult) returns (ips: Option<seq<string>>)
    ensures ips == PortIpList(out)
  {
    match out
    case NonZeroExit =>
      ips := Some([]);
    case Output(text) =>
      ips := RemoveFirstEmpty(Split(text, '\n'));
  }

  /** An address read from a listing never holds a newline: it is a piece of a
      split at newlines. */
  lemma PortIpListLines(out: CommandResult)
    ensures PortIpList(out).Some? ==> forall k :: 0 <= k < |PortIpList(out).value| ==> '\n' !in PortIpList(out).value[k]
  {
    if out.Output? && PortIpList(out).Some? {
      var parts, ips := Split(out.text, '\n'), PortIpList(out).value;
      forall k | 0 <= k < |ips| ensures '\n' !in ips[k] {
        assert ips[k] in multiset(ips);
        assert ips[k] in multiset(parts);
      }
    }
  }

  /** get_ovs_names_list on the output of the sorted container listing. */
  function NamesList(out: string): Option<seq<string>>
  {
    RemoveFirst(Split(out, '\n'), "")
  }

  method GetOvsNamesList(out: string) returns (names: Option<seq<string>>)
    ensures names == NamesList(out)
  {
    names := RemoveFirstEmpty(Split(out, '\n'));
  }

  /** A listing that prints each entry on its own line reads back as exactly
      those entries; an empty listing reads back as none. */
  lemma ListingRoundTrip(ls: seq<string>)
    requires forall k :: 0 <= k < |ls| ==> '\n' !in ls[k] && ls[k] != ""
    ensures PortIpList(Output(Lines(ls))) == Some(ls)
    ensures NamesList(Lines(ls)) == Some(ls)
  {
    SplitLines(ls);
    var parts := ls + [""];
    assert "" !in parts[..|ls|] by {
      assert parts[..|ls|] == ls;
    }
    FirstIndexUnique(parts, "", |ls|);
    assert parts[..|ls|] + parts[|ls| + 1..] == ls;
  }

  /** Only the first empty string goes: a blank line inside the listing leaves
      the trailing one in place. */
  lemma ListingRemovesFirstEmptyOnly()
    ensures NamesList(Lines(["ovs1", "", "ovs2"])) == Some(["ovs1", "ovs2", ""])
  {
    var ls := ["ovs1", "", "ovs2"];
    assert forall k :: 0 <= k < |ls| ==> '\n' !in ls[k];
    SplitLines(ls);
    var parts := ls + [""];
    assert parts[1] == "" && parts[..1] == ["ovs1"];
    FirstIndexUnique(parts, "", 1);
    assert parts[..1] + parts[2..] == ["ovs1", "ovs2", ""];
  }

  /** A listing without a final newline raises; an empty one reads back as none. */
  lemma ListingWithoutNewline()
    ensures NamesList("ovs1") == None
    ensures NamesList("") == Some([])
  {
    SplitNoSeparator("ovs1", '\n');
    SplitNoSeparator("", '\n');
    FirstIndexUnique([""], "", 0);
  }

  /** get_outfile_path: `/tmp/<prefix><date>.txt`, the date output with every ':'
      turned into '-' and the newlines around it stripped. */
  function OutfilePath(prefix: string, date: string): (path: string)
  {
    "/tmp/" + prefix + Strip(Replace(date, ':', '-'), '\n') + ".txt"
  }

  /** The stamp in an output path has no ':' and no newline at either end, and the
      path begins with `/tmp/` and the prefix and ends in `.txt`. */
  lemma OutfilePathShape(prefix: string, date: string)
    ensures var path, stamp := OutfilePath(prefix, date), Strip(Replace(date, ':', '-'), '\n');
            path == "/tmp/" + prefix + stamp + ".txt" &&
            ':' !in stamp && (stamp == [] || (stamp[0] != '\n' && stamp[|stamp| - 1] != '\n')) &&
            StartsWith(path, "/tmp/" + prefix) && path[|path| - 4..] == ".txt"
  {
    var r := Replace(date, ':', '-');
    var stamp := Strip(r, '\n');
    StripInside(r, '\n');
    var path := OutfilePath(prefix, date);
    assert path[..|"/tmp/" + prefix|] == "/tmp/" + prefix;
  }

  /** Characters of a stripped string come from the original. */
  lemma StripInside(s: string, c: char)
    ensures forall k :: 0 <= k < |Strip(s, c)| ==> Strip(s, c)[k] in s
  {
    var l := StripLeft(s, c);
    var r := StripRight(l, c);
    assert Strip(s, c) == r;
    forall k | 0 <= k < |r| ensures r[k] in s {
      assert r[k] == l[k] == s[|s| - |l| + k];
    }
  }

  /** For a one-line date output, the stamp is that line with its colons turned
      into dashes. */
  lemma OutfilePathOfDateLine(prefix: string, d: string)
    requires '\n' !in d
    ensures OutfilePath(prefix, d + "\n") == "/tmp/" + prefix + Replace(d, ':', '-') + ".txt"
  {
    var r := Replace(d, ':', '-');
    assert Replace(d + "\n", ':', '-') == r + "\n";
    assert '\n' !in r by {
      forall k | 0 <= k < |r| ensures r[k] != '\n' {
        assert d[k] != '\n';
      }
    }
    StripTerminated(r);
  }

  /** The pass rule of ping_ips_from_file: the command exits 0 and its output
      contains `0% packet loss`. */
  predicate PingPassed(r: CommandResult)
  {
    r.Output? && Contains(r.text, "0% packet loss")
  }

  lemma {:induction false} ContainsInside(x: string, sub: string, y: string)
    ensures Contains(x + sub + y, sub)
    decreases |x|
  {
    var s := x + sub + y;
    if x == [] {
      assert s[..|sub|] == sub;
    } else {
      assert s[1..] == x[1..] + sub + y;
      ContainsInside(x[1..], sub, y);
    }
  }

  lemma {:induction false} ContainsWithin(s: string, sub: string)
    requires Contains(s, sub)
    ensures |sub| <= |s|
    decreases |s|
  {
    if !StartsWith(s, sub) {
      ContainsWithin(s[1..], sub);
    }
  }

  /** A failing command never passes; any output whose loss figure ends in the
      digit 0 passes, so `10%`, `50%` and `100% packet loss` all count as PASSED
      when ping exits 0. */
  lemma PingRule(x: string, y: string)
    ensures !PingPassed(NonZeroExit)
    ensures PingPassed(Output(x + "0% packet loss" + y))
    ensures PingPassed(Output("2 packets transmitted, 1 received, 50% packet loss"))
  {
    ContainsInside(x, "0% packet loss", y);
    ContainsInside("2 packets transmitted, 1 received, 5", "0% packet loss", "");
    assert "2 packets transmitted, 1 received, 5" + "0% packet loss" + ""
        == "2 packets transmitted, 1 received, 50% packet loss";
  }

  /** Output too short to hold the phrase never passes. */
  lemma PingNeedsPhrase(t: string)
    requires |t| < |"0% packet loss"|
    ensures !PingPassed(Output(t))
  {
    if Contains(t, "0% packet loss") {
      ContainsWithin(t, "0% packet loss");
    }
  }
}
