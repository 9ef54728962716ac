/** The iPXE boot-script router of banksman: a machine asks for
    `/ipxe/<tag>`, banksman looks the tag up in Collins and answers with the
    registration script, with the iPXE configuration of the asset's
    configuration asset, or with an HTTP 500 whose message it also tries to
    append to the Collins log of an asset. */
module Banksman {
  import opened Collins
  import opened Format

  /** The path prefix the handler is mounted on; the rest of the path is the requested tag. */
  const IpxeRoot := "/ipxe/"

  /** The script a machine unknown to (or being reset in) Collins boots into
      to register itself, as the literal text between its six `%s` verbs:
      kernel, Collins URL, user, password, the requested tag and initrd. */
  const RegistrationPieces: seq<string> := [
    "#!ipxe\ndhcp\nkernel ", " collins_url=", " collins_user=", " collins_password=",
    " collins_serial=", "\ninitrd ", "\nboot || shell"]

  /** The registration script's format string. */
  const RegistrationTemplate := JoinVerbs(RegistrationPieces)

  /** Statuses that send a machine back to registration. */
  const RegisterStates: seq<string> := ["Maintenance", "Decommissioned"]

  /** The status of a machine that is to be installed. */
  const InstallStatus := "Provisioning"

  /** Attribute of an installing asset naming its configuration asset. */
  const IpxeConfigNameKey := "IPXE_CONFIG_NAME"

  /** Attribute of a configuration asset holding the iPXE script. */
  const IpxeConfigKey := "IPXE_CONFIG"

  /** The command-line settings the router reads. */
  datatype Config = Config(kernel: string, uri: string, user: string, password: string, initrd: string)

  /** What the handler writes: a script with status 200, or an HTTP 500 with
      its message and the entry of the one log append attempted, if any; that
      entry reaches the Collins log only when the append got a 201. */
  datatype Response = Ok(body: string) | InternalError(message: string, logged: Option<LogEntry>)

  /** What the handler's switch picks for an asset (or for its absence). */
  datatype BootAction = Register | Install(asset: Asset) | Unsupported(asset: Asset)

  /** An error handed to handleError: its text and the asset it is logged against. */
  datatype Failure = Failure(errStr: string, tag: string)

  /** Outcome of following an installing asset to its iPXE configuration. */
  datatype Resolution = Resolved(script: string) | Unresolved(failure: Failure)

  /** The tag a request asks for: the request path without the `/ipxe/` prefix. */
  function RequestedName(path: string): (name: string)
    requires IpxeRoot <= path
    ensures IpxeRoot + name == path
  {
    path[|IpxeRoot|..]
  }

  /** The search of isRegisterState: true as soon as some entry of `states` equals `status`. */
  function InStates(states: seq<string>, status: string): bool
  {
    if states == [] then false
    else if states[0] == status then true
    else InStates(states[1..], status)
  }

  /** The search finds exactly the statuses listed. */
  lemma {:induction false} InStatesMembership(states: seq<string>, status: string)
    ensures InStates(states, status) <==> status in states
  {
    if states != [] {
      InStatesMembership(states[1..], status);
      assert states == [states[0]] + states[1..];
    }
  }

  /** isRegisterState: an absent asset, or one whose status is a register status. */
  function IsRegisterState(asset: Option<Asset>): (r: bool)
    ensures r <==> asset.None? || asset.value.status in RegisterStates
  {
    if asset.None? then true
    else
      InStatesMembership(RegisterStates, asset.value.status);
      InStates(RegisterStates, asset.value.status)
  }

  /** isInstallState. */
  function IsInstallState(a: Asset): (r: bool)
    ensures r <==> a.status == "Provisioning"
  {
    a.status == InstallStatus
  }

  /** The handler's switch: the register test first, then the install test, otherwise unsupported. */
  function Classify(asset: Option<Asset>): (action: BootAction)
    ensures action == Register <==>
      asset.None? || asset.value.status == "Maintenance" || asset.value.status == "Decommissioned"
    ensures action.Install? <==> asset.Some? && asset.value.status == "Provisioning"
    ensures !action.Register? ==> asset == Some(action.asset)
  {
    if IsRegisterState(asset) then Register
    else if IsInstallState(asset.value) then Install(asset.value)
    else Unsupported(asset.value)
  }

  /** The registration script for the requested tag `name`: the six values
      substituted for the template's verbs, in the order the handler passes them. */
  function RegistrationScript(cfg: Config, name: string): (script: string)
    ensures script == Interleave(RegistrationPieces, [cfg.kernel, cfg.uri, cfg.user, cfg.password, name, cfg.initrd])
    ensures script ==
      "#!ipxe\ndhcp\nkernel " + cfg.kernel + " collins_url=" + cfg.uri + " collins_user=" + cfg.user +
      " collins_password=" + cfg.password + " collins_serial=" + name + "\ninitrd " + cfg.initrd +
      "\nboot || shell"
  {
    var args := [cfg.kernel, cfg.uri, cfg.user, cfg.password, name, cfg.initrd];
    RegistrationPiecesLiteral();
    FormatJoined(RegistrationPieces, args);
    RegistrationText(cfg.kernel, cfg.uri, cfg.user, cfg.password, name, cfg.initrd);
    FormatStrings(RegistrationTemplate, args)
  }

  /** No piece of the registration template holds a `%` other than its verbs. */
  lemma RegistrationPiecesLiteral()
    ensures forall i :: 0 <= i < |RegistrationPieces| ==> Literal(RegistrationPieces[i])
  {
  }

  /** The registration pieces interleaved with six values, spelled out. */
  lemma RegistrationText(a0: string, a1: string, a2: string, a3: string, a4: string, a5: string)
    ensures Interleave(RegistrationPieces, [a0, a1, a2, a3, a4, a5]) ==
      "#!ipxe\ndhcp\nkernel " + a0 + " collins_url=" + a1 + " collins_user=" + a2 +
      " collins_password=" + a3 + " collins_serial=" + a4 + "\ninitrd " + a5 + "\nboot || shell"
  {
    var p := RegistrationPieces;
    var x := [a0, a1, a2, a3, a4, a5];
    var i6 := Interleave(p[6..], x[6..]);
    assert i6 == p[6];
    var i5 := Interleave(p[5..], x[5..]);
    assert i5 == p[5] + (a5 + i6);
    var i4 := Interleave(p[4..], x[4..]);
    assert i4 == p[4] + (a4 + i5);
    var i3 := Interleave(p[3..], x[3..]);
    assert i3 == p[3] + (a3 + i4);
    var i2 := Interleave(p[2..], x[2..]);
    assert i2 == p[2] + (a2 + i3);
    var i1 := Interleave(p[1..], x[1..]);
    assert i1 == p[1] + (a1 + i2);
    assert Interleave(p, x) == p[0] + (a0 + i1);
  }

  /** The install branch: follow IPXE_CONFIG_NAME to the configuration asset and take its IPXE_CONFIG. */
  function ResolveIpxeConfig(inv: Inventory, a: Asset): (r: Resolution)
    ensures r.Resolved? <==>
      Attribute(a, IpxeConfigNameKey) != "" &&
      GetAsset(inv, Attribute(a, IpxeConfigNameKey)).Found? &&
      Attribute(GetAsset(inv, Attribute(a, IpxeConfigNameKey)).asset, IpxeConfigKey) != ""
    ensures r.Resolved? ==> r.script == Attribute(GetAsset(inv, Attribute(a, IpxeConfigNameKey)).asset, IpxeConfigKey)
  {
    var configName := Attribute(a, IpxeConfigNameKey);
    if configName == "" then Unresolved(Failure("Attribute IPXE_CONFIG_NAME missing", a.tag))
    else
      match GetAsset(inv, configName)
      case Failed(_) => Unresolved(Failure("Couldn't get configuration asset '" + configName + "'", a.tag))
      case NotFound => Unresolved(Failure("Couldn't find configuration asset '" + configName + "'", a.tag))
      case Found(configAsset) =>
        var script := Attribute(configAsset, IpxeConfigKey);
        if script == "" then Unresolved(Failure("Attribute IPXE_CONFIG missing", configName))
        else Resolved(script)
  }

  /** The error text for an asset whose status is neither register nor install. */
  function UnsupportedStatus(status: string): (text: string)
    ensures |text| == |status| + 23
    ensures text[..8] == "Status '" && text[|text| - 15..] == "' not supported"
    ensures text[8..|text| - 15] == status
  {
    "Status '" + status + "' not supported"
  }

  /** handleError: the message names the asset, one CRITICAL log append of it
      against that asset is attempted, the message is extended when that append
      fails, and the answer is a 500. */
  function ErrorReport(errStr: string, name: string, reply: LogReply): (r: Response)
    ensures r.InternalError? && r.logged == Some(LogEntry(name, "[" + name + "]: " + errStr, Critical))
    ensures r.logged.value.message <= r.message
    ensures r.message == r.logged.value.message <==> reply == Replied(StatusCreated)
  {
    var msg := "[" + name + "]: " + errStr;
    var entry := LogEntry(name, msg, Critical);
    match AppendError(reply)
    case None => InternalError(msg, Some(entry))
    case Some(err) => InternalError(msg + ". Couldn't log error: " + err, Some(entry))
  }

  /** The response to a request for `name`: the decision the handler makes. */
  function Route(cfg: Config, name: string, inv: Inventory, reply: LogReply): (r: Response)
    ensures (r.InternalError? && r.logged.None?) <==> GetAsset(inv, name).Failed?
    ensures r.InternalError? && r.logged.Some? ==>
      r.logged.value.severity == Critical && r.logged.value.message <= r.message
    ensures r.Ok? && r.body != RegistrationScript(cfg, name) ==>
      GetAsset(inv, name).Found? &&
      var c := Attribute(GetAsset(inv, name).asset, IpxeConfigNameKey);
      GetAsset(inv, c).Found? && r.body == Attribute(GetAsset(inv, c).asset, IpxeConfigKey) && r.body != ""
  {
    var lookup := GetAsset(inv, name);
    if lookup.Failed? then InternalError(lookup.err, None)
    else
      match Classify(if lookup.Found? then Some(lookup.asset) else None)
      case Register => Ok(RegistrationScript(cfg, name))
      case Install(a) =>
        (match ResolveIpxeConfig(inv, a)
         case Resolved(script) => Ok(script)
         case Unresolved(f) => ErrorReport(f.errStr, f.tag, reply))
      case Unsupported(a) => ErrorReport(UnsupportedStatus(a.status), a.tag, reply)
  }

  /** handleError, step by step: build the message, try the log append once, note its failure. */
  method HandleError(errStr: string, name: string, reply: LogReply) returns (resp: Response)
    ensures resp == ErrorReport(errStr, name, reply)
  {
    var msg := "[" + name + "]: " + errStr;
    var entry := LogEntry(name, msg, Critical);
    var err := AppendError(reply);
    if err.Some? {
      msg := msg + ". Couldn't log error: " + err.value;
    }
    resp := InternalError(msg, Some(entry));
  }

  /** handler, step by step: one lookup, the switch, and the install branch's early returns. */
  method Handler(cfg: Config, path: string, inv: Inventory, reply: LogReply) returns (resp: Response)
    requires IpxeRoot <= path
    ensures resp == Route(cfg, RequestedName(path), inv, reply)
  {
    var name := RequestedName(path);
    var lookup := GetAsset(inv, name);
    if lookup.Failed? {
      return InternalError(lookup.err, None);
    }
    var asset := if lookup.Found? then Some(lookup.asset) else None;
    if IsRegisterState(asset) {
      return Ok(RegistrationScript(cfg, name));
    }
    var a := asset.value;
    if IsInstallState(a) {
      var configName := Attribute(a, IpxeConfigNameKey);
      if configName == "" {
        resp := HandleError("Attribute IPXE_CONFIG_NAME missing", a.tag, reply);
        return;
      }
      var configLookup := GetAsset(inv, configName);
      if configLookup.Failed? {
        resp := HandleError("Couldn't get configuration asset '" + configName + "'", a.tag, reply);
        return;
      }
      if configLookup.NotFound? {
        resp := HandleError("Couldn't find configuration asset '" + configName + "'", a.tag, reply);
        return;
      }
      var script := Attribute(configLookup.asset, IpxeConfigKey);
      if script == "" {
        resp := HandleError("Attribute IPXE_CONFIG missing", configName, reply);
        return;
      }
      return Ok(script);
    }
    resp := HandleError(UnsupportedStatus(a.status), a.tag, reply);
  }
}
