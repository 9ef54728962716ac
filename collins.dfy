/** The Collins inventory as banksman sees it: the decoded asset record, the
    outcome of an asset lookup (getAsset) and of a log append (addLog).
    The HTTP exchange, the JSON decoding and the URL encoding are abstracted
    away: a lookup is an inventory map from tag to outcome, and a log append
    is the reply the inventory gives to it. */
module Collins {

  datatype Option<T> = None | Some(value: T)

  /** The part of a decoded Collins asset that banksman reads: its tag, its
      lifecycle status and its attributes, keyed first by slot ("0") and then
      by attribute name. */
  datatype Asset = Asset(tag: string, status: string, attributes: map<string, map<string, string>>)

  /** Outcome of getAsset: a decoded asset, a 404 from the inventory (Go's
      `nil, nil`), or any other error (request, transport or decoding). */
  datatype Lookup = Found(asset: Asset) | NotFound | Failed(err: string)

  /** The inventory's answer to a log append: no HTTP reply at all (the request
      could not be built or sent), or a reply with a status code. */
  datatype LogReply = TransportError(err: string) | Replied(code: nat)

  /** A log entry banksman asks the inventory to append to an asset. */
  datatype LogEntry = LogEntry(tag: string, message: string, severity: string)

  /** The inventory, as far as lookups go: a tag it has no entry for is unknown to it.
      One map answers every lookup of a request, so the two lookups of the install
      branch see the same snapshot. */
  type Inventory = map<string, Lookup>

  /** The only attribute slot banksman reads. */
  const Slot := "0"

  /** The log type banksman records its errors with. */
  const Critical := "CRITICAL"

  /** HTTP 201, the only reply to a log append that counts as success. */
  const StatusCreated: nat := 201

  /** getAsset: the inventory's entry for `tag`, and NotFound (Go's 404 answered
      as `nil, nil`) for a tag it does not know. */
  function GetAsset(inv: Inventory, tag: string): (r: Lookup)
    ensures tag in inv ==> r == inv[tag]
    ensures r.NotFound? <==> tag !in inv || inv[tag].NotFound?
  {
    if tag in inv then inv[tag] else NotFound
  }

  /** `Attributes["0"][key]` in Go: a missing slot or a missing key reads as "". */
  function Attribute(a: Asset, key: string): (v: string)
    ensures Slot in a.attributes && key in a.attributes[Slot] ==> v == a.attributes[Slot][key]
    ensures (Slot !in a.attributes || key !in a.attributes[Slot]) ==> v == ""
  {
    if Slot in a.attributes && key in a.attributes[Slot] then a.attributes[Slot][key] else ""
  }

  /** Go's `%d` for a non-negative integer: its decimal digits, most significant first. */
  function Decimal(n: nat): (s: string)
    ensures |s| >= 1
    ensures IsDigits(s)
    ensures |s| > 1 ==> s[0] != '0'
  {
    if n < 10 then [DigitChar(n)] else Decimal(n / 10) + [DigitChar(n % 10)]
  }

  function DigitChar(d: nat): (c: char)
    requires d < 10
    ensures '0' <= c <= '9' && c as int - '0' as int == d
  {
    (d + '0' as int) as char
  }

  /** Every character is a decimal digit. */
  predicate IsDigits(s: string)
  {
    forall i :: 0 <= i < |s| ==> '0' <= s[i] <= '9'
  }

  /** The number a string of decimal digits denotes. */
  function DecimalValue(s: string): nat
    requires IsDigits(s)
  {
    if s == [] then 0 else DecimalValue(s[..|s| - 1]) * 10 + (s[|s| - 1] as int - '0' as int)
  }

  /** The status code written into addLog's error can be read back as the code itself. */
  lemma {:induction false} DecimalRoundTrip(n: nat)
    ensures IsDigits(Decimal(n)) && DecimalValue(Decimal(n)) == n
  {
    var s := Decimal(n);
    if n >= 10 {
      DecimalRoundTrip(n / 10);
      assert s[..|s| - 1] == Decimal(n / 10);
    }
  }

  /** addLog's result: the error it returns for a reply, or None when the append succeeded. */
  function AppendError(reply: LogReply): (e: Option<string>)
    ensures e.None? <==> reply == Replied(StatusCreated)
  {
    match reply
    case TransportError(err) => Some(err)
    case Replied(code) =>
      if code != StatusCreated then Some("Status code " + Decimal(code) + " unexpected") else None
  }
}
