/** What the boot-script router promises, stated over its decision Route:
    which branch a request takes, what text it gets back, and which asset an
    error is logged against. */
module RouterProperties {
  import opened Collins
  import opened Banksman

  /** A failed first lookup is answered with its raw error and nothing is logged. */
  lemma LookupFailureIsNotLogged(cfg: Config, name: string, inv: Inventory, reply: LogReply)
    requires GetAsset(inv, name).Failed?
    ensures Route(cfg, name, inv, reply) == InternalError(GetAsset(inv, name).err, None)
  {
  }

  /** Exactly the requests whose first lookup failed end in a 500 without a log append. */
  lemma UnloggedErrorIffLookupFailed(cfg: Config, name: string, inv: Inventory, reply: LogReply)
    ensures (Route(cfg, name, inv, reply).InternalError? && Route(cfg, name, inv, reply).logged.None?)
            <==> GetAsset(inv, name).Failed?
  {
  }

  /** A tag Collins does not know, or an asset in Maintenance or Decommissioned,
      gets the registration script for the requested tag, with no second lookup. */
  lemma RegisterBranch(cfg: Config, name: string, inv: Inventory, reply: LogReply)
    requires GetAsset(inv, name).NotFound? ||
      (GetAsset(inv, name).Found? &&
       GetAsset(inv, name).asset.status in {"Maintenance", "Decommissioned"})
    ensures Route(cfg, name, inv, reply) == Ok(RegistrationScript(cfg, name))
    ensures Route(cfg, name, inv, reply).body ==
      "#!ipxe\ndhcp\nkernel " + cfg.kernel + " collins_url=" + cfg.uri + " collins_user=" + cfg.user +
      " collins_password=" + cfg.password + " collins_serial=" + name + "\ninitrd " + cfg.initrd +
      "\nboot || shell"
  {
  }

  /** An asset in Provisioning gets its configuration asset's IPXE_CONFIG, or the
      resolution's error reported through handleError. */
  lemma InstallBranch(cfg: Config, name: string, inv: Inventory, reply: LogReply)
    requires GetAsset(inv, name).Found? && GetAsset(inv, name).asset.status == "Provisioning"
    ensures var a := GetAsset(inv, name).asset;
      match ResolveIpxeConfig(inv, a)
      case Resolved(script) => Route(cfg, name, inv, reply) == Ok(script)
      case Unresolved(f) => Route(cfg, name, inv, reply) == ErrorReport(f.errStr, f.tag, reply)
  {
  }

  /** Any other status is an error naming that status, logged against the asset's own tag. */
  lemma UnsupportedBranch(cfg: Config, name: string, inv: Inventory, reply: LogReply)
    requires GetAsset(inv, name).Found?
    requires GetAsset(inv, name).asset.status !in {"Maintenance", "Decommissioned", "Provisioning"}
    ensures var a := GetAsset(inv, name).asset;
      Route(cfg, name, inv, reply) == ErrorReport("Status '" + a.status + "' not supported", a.tag, reply) &&
      Route(cfg, name, inv, reply).logged ==
        Some(LogEntry(a.tag, "[" + a.tag + "]: Status '" + a.status + "' not supported", "CRITICAL"))
  {
    var a := GetAsset(inv, name).asset;
    assert Classify(Some(a)) == Unsupported(a);
    var errStr := "Status '" + a.status + "' not supported";
    assert UnsupportedStatus(a.status) == errStr;
    assert "[" + a.tag + "]: " + errStr == "[" + a.tag + "]: Status '" + a.status + "' not supported";
  }

  /** The install branch's errors and the asset each is logged against: the installing
      asset, except for a configuration asset without IPXE_CONFIG, which is logged
      against the configuration asset's name. */
  lemma InstallFailures(inv: Inventory, a: Asset)
    ensures Attribute(a, "IPXE_CONFIG_NAME") == "" ==>
      ResolveIpxeConfig(inv, a) == Unresolved(Failure("Attribute IPXE_CONFIG_NAME missing", a.tag))
    ensures var c := Attribute(a, "IPXE_CONFIG_NAME");
      c != "" && GetAsset(inv, c).Failed? ==>
      ResolveIpxeConfig(inv, a) == Unresolved(Failure("Couldn't get configuration asset '" + c + "'", a.tag))
    ensures var c := Attribute(a, "IPXE_CONFIG_NAME");
      c != "" && GetAsset(inv, c).NotFound? ==>
      ResolveIpxeConfig(inv, a) == Unresolved(Failure("Couldn't find configuration asset '" + c + "'", a.tag))
    ensures var c := Attribute(a, "IPXE_CONFIG_NAME");
      c != "" && GetAsset(inv, c).Found? && Attribute(GetAsset(inv, c).asset, "IPXE_CONFIG") == "" ==>
      ResolveIpxeConfig(inv, a) == Unresolved(Failure("Attribute IPXE_CONFIG missing", c))
  {
  }

  /** Whenever the router logs against some tag other than that of the asset it
      looked up, that asset was installing, the tag is its IPXE_CONFIG_NAME, and
      the configuration asset was found without an IPXE_CONFIG. */
  lemma LoggedElsewhereOnlyForMissingConfig(cfg: Config, name: string, inv: Inventory, reply: LogReply)
    requires Route(cfg, name, inv, reply).InternalError? && Route(cfg, name, inv, reply).logged.Some?
    requires !GetAsset(inv, name).Found? ||
      Route(cfg, name, inv, reply).logged.value.tag != GetAsset(inv, name).asset.tag
    ensures GetAsset(inv, name).Found?
    ensures var a := GetAsset(inv, name).asset;
      var c := Route(cfg, name, inv, reply).logged.value.tag;
      a.status == "Provisioning" &&
      c == Attribute(a, "IPXE_CONFIG_NAME") &&
      GetAsset(inv, c).Found? &&
      Attribute(GetAsset(inv, c).asset, "IPXE_CONFIG") == ""
  {
  }

  /** Every entry the router attempts to log is CRITICAL, starts by naming the
      asset it is logged against, and is where the 500's message begins. */
  lemma LoggedEntriesAreTagged(cfg: Config, name: string, inv: Inventory, reply: LogReply)
    requires Route(cfg, name, inv, reply).InternalError? && Route(cfg, name, inv, reply).logged.Some?
    ensures var r := Route(cfg, name, inv, reply);
      r.logged.value.severity == "CRITICAL" &&
      "[" + r.logged.value.tag + "]: " <= r.logged.value.message &&
      r.logged.value.message <= r.message
  {
  }

  /** handleError: a 500 whose message is `[name]: errStr`, unchanged exactly when
      the log append got a 201, and otherwise followed by the append's error. */
  lemma ErrorReportMessage(errStr: string, name: string, reply: LogReply)
    ensures var r := ErrorReport(errStr, name, reply);
      r.InternalError? &&
      (reply == Replied(201) ==> r.message == "[" + name + "]: " + errStr) &&
      (reply.TransportError? ==> r.message == "[" + name + "]: " + errStr + ". Couldn't log error: " + reply.err) &&
      (reply.Replied? && reply.code != 201 ==>
        r.message == "[" + name + "]: " + errStr + ". Couldn't log error: Status code " + Decimal(reply.code) + " unexpected")
  {
  }

  /** An unknown tag boots into registration with that tag as its serial. */
  lemma UnknownMachineRegisters(cfg: Config)
    ensures Route(cfg, "node-1", map[], Replied(201)) ==
      Ok("#!ipxe\ndhcp\nkernel " + cfg.kernel + " collins_url=" + cfg.uri + " collins_user=" + cfg.user +
         " collins_password=" + cfg.password + " collins_serial=node-1\ninitrd " + cfg.initrd + "\nboot || shell")
  {
    RegisterBranch(cfg, "node-1", map[], Replied(201));
    var head := "#!ipxe\ndhcp\nkernel " + cfg.kernel + " collins_url=" + cfg.uri + " collins_user=" + cfg.user +
      " collins_password=" + cfg.password;
    assert head + " collins_serial=" + "node-1" + "\ninitrd " == head + " collins_serial=node-1\ninitrd ";
  }

  /** An installing machine gets its configuration asset's script verbatim. */
  lemma InstallingMachineGetsItsScript(cfg: Config, reply: LogReply)
    ensures
      var node := Asset("node-2", "Provisioning", map["0" := map["IPXE_CONFIG_NAME" := "role-x"]]);
      var role := Asset("role-x", "Allocated", map["0" := map["IPXE_CONFIG" := "set x 1\nboot"]]);
      Route(cfg, "node-2", map["node-2" := Found(node), "role-x" := Found(role)], reply) == Ok("set x 1\nboot")
  {
  }
}
