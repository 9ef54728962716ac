# banksman boot-script router, in Dafny

banksman serves iPXE boot scripts to machines being provisioned. A machine
requests `/ipxe/<tag>`; banksman looks the tag up in the Collins inventory and
decides, from the asset's lifecycle status, what to answer:

- an asset Collins does not know (a 404), or one in `Maintenance` or
  `Decommissioned`, gets the registration script: a fixed iPXE script with the
  configured kernel, Collins URL, user, password, the requested tag and the
  initrd filled in, in that order;
- an asset in `Provisioning` is followed through its `IPXE_CONFIG_NAME`
  attribute (slot `"0"`) to a configuration asset, whose `IPXE_CONFIG`
  attribute is returned as the script;
- any other status, and every failure of the install branch, goes through
  `handleError`: one append of the message `[<tag>]: <error>` to the Collins
  log of an asset, as a `CRITICAL` entry, is attempted; the message is
  extended with `. Couldn't log error: <err>` when that append fails, and
  answered with HTTP 500;
- a failure of the first lookup itself is answered with HTTP 500 and the raw
  error text, and nothing is logged.

The project has four modules:

- `Collins` (`collins.dfy`): the decoded asset, the outcome of a lookup
  (`Found | NotFound | Failed`), the inventory as a map from tag to lookup
  outcome (an unknown tag is `NotFound`), the attribute read with Go's
  missing-key-reads-as-`""` behaviour, and addLog's result for a given
  reply from the inventory, including the decimal rendering of an unexpected
  status code.
- `Format` (`format.dfy`): `fmt.Sprintf` for formats whose only verbs are
  `%s`, each matched by exactly one string operand, and the proof that literal pieces joined by `%s` take their operands
  in order, none dropped and none left over.
- `Banksman` (`banksman.dfy`): the classification (`IsRegisterState`,
  `IsInstallState`, the switch as `Classify`), the registration script, the
  install-branch resolution, `handleError` as the function `ErrorReport`, and
  the whole decision as the function `Route`. The methods `HandleError` and
  `Handler` follow the Go code step by step (the message reassigned, the early
  returns) and are proved to produce exactly what `ErrorReport` and `Route`
  specify.
- `RouterProperties` (`router_properties.dfy`): which branch a request takes,
  what text comes back, and which asset an error is logged against.

The inventory and the log append are parameters: `Inventory` answers every
lookup, and `LogReply` is the inventory's answer to the single log append a
request can make. A `Response` is `Ok(body)` or `InternalError(message,
logged)`, where `logged` is the entry of the one log append attempted, if
any; that entry reaches Collins only when the reply is `Replied(201)`.

## Model

| member | source | states |
|---|---|---|
| `Collins.GetAsset` | banksman.go:75-77 | a tag the inventory has an entry for gets that entry; the lookup is NotFound exactly for a tag the inventory does not know (Go's 404, `nil, nil`) or one whose entry is NotFound |
| `Collins.Attribute` | banksman.go:149 | a key present under slot "0" reads as its stored value; a missing slot or key reads as "" |
| `Collins.AppendError` | banksman.go:87-107 | addLog reports no error exactly when the inventory replies 201 Created; a transport error or any other status code is an error |
| `Collins.Decimal` | banksman.go:104 | the status code in addLog's error is written as decimal digits, at least one, without a leading zero |
| `Collins.DecimalRoundTrip` | banksman.go:104 | the digits written for a status code denote that code |
| `Format.FormatStrings` | banksman.go:146 | a format without `%` formats to itself, as Sprintf does when it is given no operands |
| `Format.FormatLiteral` | banksman.go:146 | text without `%` passes through Sprintf unchanged and uses no operand |
| `Format.FormatVerb` | banksman.go:146 | a `%s` verb is replaced by the next string operand |
| `Format.FormatJoined` | banksman.go:146 | literal pieces joined by one `%s` fewer than there are operands format to the pieces with every operand in place of its verb, in order |
| `Banksman.RequestedName` | banksman.go:136 | the requested tag is the request path with the `/ipxe/` prefix removed |
| `Banksman.InStatesMembership` | banksman.go:123-128 | the early-return search over the register statuses finds exactly the statuses listed |
| `Banksman.IsRegisterState` | banksman.go:119-129 | an absent asset, or one whose status is in the register statuses, is register |
| `Banksman.IsInstallState` | banksman.go:131-133 | install exactly when the status is `Provisioning` |
| `Banksman.Classify` | banksman.go:144-148 | register exactly for an absent asset or status Maintenance or Decommissioned; install exactly for status Provisioning of a present asset; an absent asset never reaches the install test; the other actions carry the looked-up asset |
| `Banksman.RegistrationPiecesLiteral` | banksman.go:18-22 | the registration template has no `%` besides its six verbs |
| `Banksman.RegistrationText` | banksman.go:18-22 | the registration template with six values filled in, spelled out |
| `Banksman.RegistrationScript` | banksman.go:146 | the registration script is the template with kernel, uri, user, password, requested tag and initrd substituted in that order |
| `Banksman.ResolveIpxeConfig` | banksman.go:149-171 | resolution succeeds exactly when IPXE_CONFIG_NAME is non-empty, the named asset is found and its IPXE_CONFIG is non-empty, and then yields that IPXE_CONFIG |
| `Banksman.UnsupportedStatus` | banksman.go:173 | the error text is `Status '`, the status verbatim, then `' not supported` |
| `Banksman.ErrorReport` | banksman.go:109-117 | always a 500; one CRITICAL log append of `[name]: errStr` against `name` is attempted; the message starts with it and equals it exactly when the append got 201 |
| `Banksman.Route` | banksman.go:135-175 | a 500 without a log append happens exactly when the first lookup failed; every attempted log entry is CRITICAL and begins the 500's message; a 200 is the registration script or else the non-empty IPXE_CONFIG of the asset named by the looked-up asset's IPXE_CONFIG_NAME |
| `Banksman.HandleError` | banksman.go:109-117 | the step-by-step handleError produces exactly ErrorReport's response |
| `Banksman.Handler` | banksman.go:135-175 | the step-by-step handler produces exactly Route's response for the requested tag |
| `RouterProperties.LookupFailureIsNotLogged` | banksman.go:138-142 | a failed first lookup answers 500 with the raw error and logs nothing |
| `RouterProperties.UnloggedErrorIffLookupFailed` | banksman.go:138-142 | a 500 without a log entry happens exactly when the first lookup failed |
| `RouterProperties.RegisterBranch` | banksman.go:119-146 | a tag Collins answers 404 for, or an asset in Maintenance or Decommissioned, gets the registration script for the requested tag, spelled out |
| `RouterProperties.InstallBranch` | banksman.go:148-171 | an asset in Provisioning gets the resolved IPXE_CONFIG, or the resolution's error through handleError |
| `RouterProperties.UnsupportedBranch` | banksman.go:172-173 | any other status yields `Status '<status>' not supported`, logged as CRITICAL against the asset's own tag |
| `RouterProperties.InstallFailures` | banksman.go:149-169 | the four install-branch errors: IPXE_CONFIG_NAME missing, config asset lookup failed, config asset not found (all against the installing asset, the last two naming the config asset), IPXE_CONFIG missing (against the config asset's name) |
| `RouterProperties.LoggedElsewhereOnlyForMissingConfig` | banksman.go:165-169 | an error is logged against a tag other than the looked-up asset's only when that asset is installing, the tag is its IPXE_CONFIG_NAME and that config asset lacks IPXE_CONFIG |
| `RouterProperties.LoggedEntriesAreTagged` | banksman.go:110-111 | every attempted log entry is CRITICAL, starts with `[<tag>]: ` and begins the 500's message |
| `RouterProperties.ErrorReportMessage` | banksman.go:110-113 | the 500's message is `[name]: errStr` after a 201, and otherwise followed by `. Couldn't log error: ` and addLog's error (the transport error, or `Status code <d> unexpected`) |
| `RouterProperties.UnknownMachineRegisters` | banksman.go:145-146 | an unknown tag `node-1` gets the registration script with `collins_serial=node-1` |
| `RouterProperties.InstallingMachineGetsItsScript` | banksman.go:148-171 | an installing `node-2` whose IPXE_CONFIG_NAME is `role-x` gets role-x's IPXE_CONFIG verbatim |

## Left out

- HTTP transport: building and sending the requests, basic authentication, `http.Error`'s headers and trailing newline, and the response writer. A lookup is an entry of the `Inventory` map and a log append is a `LogReply`.
- JSON decoding in getAsset: a decoding error is one more `Failed(err)`; a reply other than 404 is decoded whatever its status code, so an error reply that decodes is a `Found` asset whose fields may be empty, which the model covers since asset fields are arbitrary; the asset fields banksman does not read (ID, state, type) are not modelled.
- URL encoding of the log message and the unescaped tag in addLog's URL: a request that cannot be built is a `TransportError`.
- Status codes are non-negative (`nat`), as HTTP status codes are; Go's `int` is not modelled.
- The rendered script and the configuration text are passed to `Fprintf` as a format a second time, so a `%` in a flag value, the requested tag or IPXE_CONFIG would be reinterpreted by Go's formatter. The model returns the text verbatim, which is what the handler writes when those values contain no `%`.
- Flag parsing and defaults, `main`, the static file server and `log.Printf` are process wiring; the flag values are the `Config` parameter.
- The path always starts with `/ipxe/` because the handler is mounted there; `RequestedName` and `Handler` require it.
- Format.FormatStrings: agrees with `fmt.Sprintf` only when the `%s` verbs and the operands match one to one; Go's `%!s(MISSING)` for a verb without an operand and `%!(EXTRA string=…)` for operands left over are not modelled (a literal format with operands formats to itself here), because banksman.go:146 passes exactly six operands to a template with six verbs.
- The inventory is one snapshot per request: both lookups of a request read the same `Inventory` map, whereas in Go the configuration asset's getAsset (banksman.go:155) is a separate request that may fail on its own or see records changed since the first lookup. A configuration asset whose name is the requested tag is therefore seen as the same record twice, and a change between the two lookups is not modelled.
- Finalize, template rendering, role-descriptor (`PRIMARY_ROLE`) lookup, `CONFIG_<VARIANT>` selection and a configurable installing status are not in this version of banksman.go and are not modelled.
