/** The command-line options of one invocation, as the option parser hands them
    to the tool: every option is absent (`None`) unless it was given. */
module Options {
  import opened Wrappers

  datatype Conf = Conf(
    startSwitches: Option<int>,
    stopSwitches: Option<int>,
    controllerIp: Option<string>,
    dump: Option<seq<string>>,
    range: Option<seq<string>>,
    outputFile: Option<bool>,
    showContainersInfo: Option<int>,
    showContainerCount: Option<bool>,
    createNetwork: Option<bool>,
    createSubnet: Option<bool>,
    delNeutronData: Option<bool>,
    addPorts: Option<int>,
    bindPorts: Option<int>,
    delPorts: Option<int>,
    createPingIpsFile: Option<bool>,
    pingAll: Option<bool>,
    cleanup: Option<bool>)

  /** Python truthiness of an integer option: given and non-zero. */
  predicate IntSet(o: Option<int>) { o.Some? && o.value != 0 }

  /** Python truthiness of a boolean option: given as true (`--noX` gives false). */
  predicate BoolSet(o: Option<bool>) { o == Some(true) }

  /** Python truthiness of a string option: given and non-empty. */
  predicate StrSet(o: Option<string>) { o.Some? && o.value != "" }

  /** Python truthiness of a list option: given and non-empty. */
  predicate ListSet(o: Option<seq<string>>) { o.Some? && o.value != [] }

  /** The invocation with no option given. */
  const NoOptions: Conf := Conf(None, None, None, None, None, None, None, None, None,
                                None, None, None, None, None, None, None, None)
}
