/** The names and addresses derived from a switch index and a port index
    (dockernet/cmd/dockernet.py, add_ports_to_ovs, bind_ports_to_neutron,
    del_and_unbind_ports). One definition serves all three operations. */
module Identifiers {
  import opened Wrappers
  import opened Text

  /** The container of switch j: `'ovs' + str(j)`. */
  function ContainerName(j: int): string
  {
    "ovs" + PyStr(j)
  }

  /** The switch-side tap port: `"tap2d9def%s-%s" % (%02d j, %02d i)`. */
  function TapName(j: nat, i: nat): string
  {
    "tap2d9def" + Pad2(j) + "-" + Pad2(i)
  }

  /** The guest-side veth peer: `"vm-port%s%s" % (%02d j, %02d i)`. */
  function VmPortName(j: nat, i: nat): string
  {
    "vm-port" + Pad2(j) + Pad2(i)
  }

  /** The interface id set on the tap port and sent to the controller. */
  function IfaceId(j: nat, i: nat): string
  {
    "d6c144c2" + "-" + Pad2(j) + Pad2(j) + "-" + Pad2(i) + Pad2(i) + "-" + "ba74" + "-" + "ceaf8df1ac17"
  }

  /** The device id sent to the controller. */
  function DeviceId(j: nat, i: nat): string
  {
    "e957c01d" + "-" + Pad2(j) + Pad2(j) + "-" + Pad2(i) + Pad2(i) + "-" + "b79e" + "-" + "17aae1a6733d"
  }

  /** The address of the guest port: `'20.0.' + str(j) + '.' + str(i)`. */
  function PortIp(j: nat, i: nat): string
  {
    "20.0." + Decimal(j) + "." + Decimal(i)
  }

  /** The address as assigned to the veth peer, with its /16 prefix length. */
  function PortCidr(j: nat, i: nat): string
  {
    PortIp(j, i) + "/16"
  }

  lemma DigitsExclude(s: string, c: char)
    requires AllDigits(s) && !IsDigit(c)
    ensures c !in s
  {
  }

  /** Distinct switches get distinct container names. */
  lemma ContainerNameInjective(a: int, b: int)
    ensures ContainerName(a) == ContainerName(b) <==> a == b
  {
    if ContainerName(a) == ContainerName(b) {
      assert PyStr(a) == ContainerName(a)[3..] == ContainerName(b)[3..] == PyStr(b);
      PyStrInjective(a, b);
    }
  }

  /** The two dash-separated parts of a tap port name. */
  lemma TapNameParts(j: nat, i: nat)
    ensures Split(TapName(j, i), '-') == ["tap2d9def" + Pad2(j), Pad2(i)]
  {
    var head := "tap2d9def" + Pad2(j);
    DigitsExclude(Pad2(j), '-');
    DigitsExclude(Pad2(i), '-');
    assert '-' !in head;
    assert TapName(j, i) == head + ['-'] + Pad2(i);
    SplitAtFirst(head, Pad2(i), '-');
    SplitNoSeparator(Pad2(i), '-');
  }

  /** Distinct (switch, port) pairs get distinct tap port names. */
  lemma TapNameInjective(j: nat, i: nat, j': nat, i': nat)
    ensures TapName(j, i) == TapName(j', i') <==> j == j' && i == i'
  {
    if TapName(j, i) == TapName(j', i') {
      TapNameParts(j, i);
      TapNameParts(j', i');
      var head, head' := "tap2d9def" + Pad2(j), "tap2d9def" + Pad2(j');
      assert head == head' && Pad2(i) == Pad2(i');
      assert Pad2(j) == head[9..] == head'[9..] == Pad2(j');
      Pad2Injective(j, j');
      Pad2Injective(i, i');
    }
  }

  /** Within the port range of the option parser (below 100), distinct pairs get
      distinct vm port names. */
  lemma VmPortNameInjective(j: nat, i: nat, j': nat, i': nat)
    requires i < 100 && i' < 100
    ensures VmPortName(j, i) == VmPortName(j', i') <==> j == j' && i == i'
  {
    if VmPortName(j, i) == VmPortName(j', i') {
      Pad2Width(i);
      Pad2Width(i');
      var s := VmPortName(j, i);
      assert |Pad2(j)| == |Pad2(j')|;
      assert Pad2(j) == s[7..7 + |Pad2(j)|] == Pad2(j');
      assert Pad2(i) == s[|s| - 2..] == Pad2(i');
      Pad2Injective(j, j');
      Pad2Injective(i, i');
    }
  }

  /** Without a separator, a three-digit port index makes two vm port names collide. */
  lemma VmPortNameCollision()
    ensures VmPortName(101, 1) == VmPortName(10, 101)
  {
    assert Decimal(101) == Decimal(10) + "1";
    assert Decimal(10) == "10";
    assert Pad2(1) == "01";
  }

  predicate IsHex(c: char) { IsDigit(c) || 'a' <= c <= 'f' }

  predicate AllHex(s: string) { forall k :: 0 <= k < |s| ==> IsHex(s[k]) }

  /** The 8-4-4-4-12 layout of a textual UUID in lower-case hexadecimal. */
  predicate UuidShaped(s: string)
  {
    var g := Split(s, '-');
    |g| == 5 && |g[0]| == 8 && |g[1]| == 4 && |g[2]| == 4 && |g[3]| == 4 && |g[4]| == 12 &&
    forall k :: 0 <= k < 5 ==> AllHex(g[k])
  }

  /** The five dash-separated groups of a derived id. */
  lemma IdGroups(s: string, g0: string, g1: string, g2: string, g3: string, g4: string)
    requires s == g0 + "-" + g1 + "-" + g2 + "-" + g3 + "-" + g4
    requires '-' !in g0 && '-' !in g1 && '-' !in g2 && '-' !in g3 && '-' !in g4
    ensures Split(s, '-') == [g0, g1, g2, g3, g4]
  {
    var a1 := g0 + ['-'] + g1;
    var a2 := a1 + ['-'] + g2;
    var a3 := a2 + ['-'] + g3;
    assert s == a3 + ['-'] + g4;
    SplitAtFirst(g0, g1, '-');
    SplitNoSeparator(g1, '-');
    SplitAtLast(a1, g2, '-');
    SplitAtLast(a2, g3, '-');
    SplitAtLast(a3, g4, '-');
  }

  lemma NoDash(x: string, y: string)
    requires AllDigits(x) && AllDigits(y)
    ensures '-' !in x + y
  {
    assert AllDigits(x + y);
  }

  /** The groups of a derived id built from the two indices. */
  lemma DerivedIdGroups(s: string, first: string, j: nat, i: nat, fourth: string, fifth: string)
    requires s == first + "-" + Pad2(j) + Pad2(j) + "-" + Pad2(i) + Pad2(i) + "-" + fourth + "-" + fifth
    requires '-' !in first && '-' !in fourth && '-' !in fifth
    ensures Split(s, '-') == [first, Pad2(j) + Pad2(j), Pad2(i) + Pad2(i), fourth, fifth]
  {
    var b, c := Pad2(j) + Pad2(j), Pad2(i) + Pad2(i);
    NoDash(Pad2(j), Pad2(j));
    NoDash(Pad2(i), Pad2(i));
    IdGroups(s, first, b, c, fourth, fifth);
  }

  lemma DigitsAreHex(s: string)
    requires AllDigits(s)
    ensures AllHex(s)
  {
  }

  /** The interface id keeps the UUID layout exactly while both indices stay below 100. */
  lemma IfaceIdLayout(j: nat, i: nat)
    ensures UuidShaped(IfaceId(j, i)) <==> j < 100 && i < 100
  {
    assert AllHex("d6c144c2") && AllHex("ba74") && AllHex("ceaf8df1ac17");
    assert '-' !in "d6c144c2" && '-' !in "ba74" && '-' !in "ceaf8df1ac17";
    DerivedIdGroups(IfaceId(j, i), "d6c144c2", j, i, "ba74", "ceaf8df1ac17");
    Pad2Width(j);
    Pad2Width(i);
    DigitsAreHex(Pad2(j) + Pad2(j));
    DigitsAreHex(Pad2(i) + Pad2(i));
  }

  /** The device id keeps the UUID layout exactly while both indices stay below 100. */
  lemma DeviceIdLayout(j: nat, i: nat)
    ensures UuidShaped(DeviceId(j, i)) <==> j < 100 && i < 100
  {
    assert AllHex("e957c01d") && AllHex("b79e") && AllHex("17aae1a6733d");
    assert '-' !in "e957c01d" && '-' !in "b79e" && '-' !in "17aae1a6733d";
    DerivedIdGroups(DeviceId(j, i), "e957c01d", j, i, "b79e", "17aae1a6733d");
    Pad2Width(j);
    Pad2Width(i);
    DigitsAreHex(Pad2(j) + Pad2(j));
    DigitsAreHex(Pad2(i) + Pad2(i));
  }

  datatype Ipv4 = Ipv4(a: nat, b: nat, c: nat, d: nat)

  predicate IsOctet(p: string) { p != [] && AllDigits(p) && ParseDigits(p) <= 255 }

  /** Dotted-quad IPv4 notation: four decimal octets separated by dots. */
  function ParseIpv4(s: string): Option<Ipv4>
  {
    var p := Split(s, '.');
    if |p| == 4 && IsOctet(p[0]) && IsOctet(p[1]) && IsOctet(p[2]) && IsOctet(p[3]) then
      Some(Ipv4(ParseDigits(p[0]), ParseDigits(p[1]), ParseDigits(p[2]), ParseDigits(p[3])))
    else
      None
  }

  /** The address lies in the block a.b.0.0/16. */
  predicate InBlock16(ip: Ipv4, a: nat, b: nat) { ip.a == a && ip.b == b }

  /** The four dot-separated parts of a port address. */
  lemma PortIpParts(j: nat, i: nat)
    ensures Split(PortIp(j, i), '.') == ["20", "0", Decimal(j), Decimal(i)]
  {
    var a, b := Decimal(j), Decimal(i);
    DigitsExclude(a, '.');
    DigitsExclude(b, '.');
    var t2 := a + ['.'] + b;
    var t1 := "0" + ['.'] + t2;
    assert PortIp(j, i) == "20" + ['.'] + t1;
    SplitNoSeparator(b, '.');
    SplitAtFirst(a, b, '.');
    SplitAtFirst("0", t2, '.');
    SplitAtFirst("20", t1, '.');
  }

  /** A port address is the dotted quad 20.0.j.i, inside 20.0.0.0/16, exactly
      while both indices are valid octets. */
  lemma PortIpAddress(j: nat, i: nat)
    ensures ParseIpv4(PortIp(j, i)).Some? <==> j <= 255 && i <= 255
    ensures j <= 255 && i <= 255 ==>
              ParseIpv4(PortIp(j, i)) == Some(Ipv4(20, 0, j, i)) &&
              InBlock16(ParseIpv4(PortIp(j, i)).value, 20, 0)
  {
    PortIpParts(j, i);
    assert Decimal(20) == "20";
    assert Decimal(0) == "0";
    DecimalRoundTrip(20);
    DecimalRoundTrip(0);
    DecimalRoundTrip(j);
    DecimalRoundTrip(i);
  }

  /** Distinct pairs get distinct addresses. */
  lemma PortIpInjective(j: nat, i: nat, j': nat, i': nat)
    ensures PortIp(j, i) == PortIp(j', i') <==> j == j' && i == i'
  {
    if PortIp(j, i) == PortIp(j', i') {
      PortIpParts(j, i);
      PortIpParts(j', i');
      assert Decimal(j) == Decimal(j') && Decimal(i) == Decimal(i');
      DecimalInjective(j, j');
      DecimalInjective(i, i');
    }
  }
}
