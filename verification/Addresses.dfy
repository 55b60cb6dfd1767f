/** Network addresses: their text form and the two different identities the code gives them. */
module Addresses {
  import opened Text

  const LOCALHOST: string := "127.0.0.1"

  type Port = n: int | 0 <= n < 0x1_0000

  /** The fields of an `Address`: the text as given, the text after name resolution, the port. */
  datatype Address = Address(ip: string, resolved: string, port: Port)

  /** Name resolution: numeric and empty texts are kept, anything else is looked up. */
  function Resolve(dns: string -> string, ip: string): string {
    if ip == "" || IsDigit(ip[0]) then ip else dns(ip)
  }

  function Make(dns: string -> string, ip: string, port: Port): Address {
    Address(ip, Resolve(dns, ip), port)
  }

  // ---------- the two identities ----------

  /** `operator<`, which orders the keys of the sequence-number maps. */
  predicate Before(a: Address, b: Address) {
    if a.resolved == b.resolved then a.port < b.port else Less(a.resolved, b.resolved)
  }

  /** `operator==`, which matches an acknowledgement with a queued message. */
  predicate LooselyEqual(a: Address, b: Address) {
    a.port == b.port || a.ip == b.ip || a.resolved == b.resolved
  }

  /** What `operator<` can tell apart. */
  datatype Endpoint = Endpoint(host: string, port: Port)

  function Key(a: Address): Endpoint {
    Endpoint(a.resolved, a.port)
  }

  /** The address `ReadFrom` makes of a datagram's source. */
  function Bound(e: Endpoint): Address {
    Address(e.host, e.host, e.port)
  }

  /** `operator<` is a strict weak order and its equivalence is equality of endpoints, so a map
      keyed by `Address` is a map keyed by `Endpoint`. */
  lemma BeforeOrdersEndpoints(a: Address, b: Address, c: Address)
    ensures !Before(a, a)
    ensures Before(a, b) && Before(b, c) ==> Before(a, c)
    ensures !Before(a, b) && !Before(b, a) <==> Key(a) == Key(b)
  {
    LessTotal(a.resolved, b.resolved);
    LessIrreflexive(a.resolved);
    if Less(a.resolved, b.resolved) && Less(b.resolved, a.resolved) {
      LessTransitive(a.resolved, b.resolved, a.resolved);
    }
    if Before(a, b) && Before(b, c) {
      if a.resolved != b.resolved && b.resolved != c.resolved {
        LessTransitive(a.resolved, b.resolved, c.resolved);
      }
    }
  }

  /** `operator==` is coarser than the maps' identity and is not an equivalence. */
  lemma LooseEqualityIsCoarser(a: Address, b: Address)
    ensures Key(a) == Key(b) ==> LooselyEqual(a, b)
    ensures !LooselyEqual(a, b) <==> a.port != b.port && a.ip != b.ip && a.resolved != b.resolved
    ensures exists x, y, z :: LooselyEqual(x, y) && LooselyEqual(y, z) && !LooselyEqual(x, z)
  {
    var x, y, z := Address("1", "1", 1), Address("1", "1", 2), Address("2", "2", 2);
    assert x.ip != z.ip;
    assert LooselyEqual(x, y) && LooselyEqual(y, z) && !LooselyEqual(x, z);
  }

  /** An address made of a numeric host is known under that host; of any other, under what the name resolves to. */
  lemma KeyOfMade(dns: string -> string, ip: string, port: Port)
    ensures Make(dns, ip, port).ip == ip
    ensures ip == "" || ip[0] in "0123456789" ==> Key(Make(dns, ip, port)) == Endpoint(ip, port)
    ensures ip != "" && ip[0] !in "0123456789" ==> Key(Make(dns, ip, port)) == Endpoint(dns(ip), port)
  {
    if ip != "" && IsDigit(ip[0]) {
      var i := ip[0] as int - '0' as int;
      assert "0123456789"[i] == ip[0];
    }
  }

  // ---------- text ----------

  /** `operator<<` and `ToString`. */
  function Print(ip: string, port: Port): string {
    ip + ":" + Decimal(port)
  }

  /** The address text after the split at the first ':', before the port is converted. */
  function HostPart(s: string): string {
    var i := Find(s, ':');
    if i == |s| then s else if i == 0 then LOCALHOST else s[..i]
  }

  function PortPart(s: string): Parsed<Port> {
    var i := Find(s, ':');
    if i == |s| then Ok(0) else
      Truncate(Stoul(s[i + 1..]))
  }

  /** The conversion of `std::stoul`'s result to the `uint16_t` parameter of `set_port`. */
  function Truncate(n: Parsed<nat>): Parsed<Port> {
    match n
    case Ok(v) => Ok(v % 0x1_0000)
    case InvalidArgument => InvalidArgument
    case OutOfRange => OutOfRange
  }

  /** `FromString` on a fresh address. */
  function Parse(dns: string -> string, s: string): Parsed<Address> {
    match PortPart(s)
    case Ok(p) => Ok(Make(dns, HostPart(s), p))
    case InvalidArgument => InvalidArgument
    case OutOfRange => OutOfRange
  }

  /** `operator>>`: one word of the stream is parsed. */
  function Extract(dns: string -> string, stream: string): Parsed<Address> {
    Parse(dns, Word(stream))
  }

  /** The hosts whose text form survives printing and extraction. */
  predicate PlainHost(ip: string) {
    ip != "" && ':' !in ip && NoSpaces(ip)
  }

  lemma NoSpacesInPrint(ip: string, port: Port)
    requires NoSpaces(ip)
    ensures NoSpaces(Print(ip, port)) && Word(Print(ip, port)) == Print(ip, port)
  {
    var s := Print(ip, port);
    forall i | 0 <= i < |s| ensures !IsSpace(s[i]) {
      if i > |ip| {
        assert s[i] == Decimal(port)[i - |ip| - 1];
      }
    }
    WordOfWord(s, "");
    assert s + "" == s;
  }

  lemma PartsAround(ip: string, rest: string)
    requires ip != "" && ':' !in ip
    ensures HostPart(ip + ":" + rest) == ip && PortPart(ip + ":" + rest) == Truncate(Stoul(rest))
  {
    var s := ip + ":" + rest;
    assert s[..|ip|] == ip && s[|ip|] == ':';
    FindIs(s, ':', |ip|);
    assert s[|ip| + 1..] == rest;
  }

  /** The forms of an address text: a host alone has port 0; before a colon stands the host, or nothing for the local
      one, behind it the port, whose number is cut to 16 bits. */
  lemma ParseIs(dns: string -> string, host: string, rest: string, v: nat)
    requires ':' !in host
    ensures Parse(dns, host) == Ok(Make(dns, host, 0))
    ensures Parse(dns, host + ":" + Decimal(v)) ==
            if v >= 0x1_0000_0000_0000_0000 then OutOfRange
            else Ok(Make(dns, if host == "" then "127.0.0.1" else host, v % 65536))
    ensures rest == "" || !(IsSpace(rest[0]) || IsDigit(rest[0]) || rest[0] == '+' || rest[0] == '-') ==>
              Parse(dns, host + ":" + rest) == InvalidArgument
  {
    assert host[..|host|] == host;
    FindIs(host, ':', |host|);
    ParseSplit(dns, host, Decimal(v));
    ParseSplit(dns, host, rest);
    StoulOfDecimalText(v);
  }

  lemma ParseSplit(dns: string -> string, host: string, rest: string)
    requires ':' !in host
    ensures Parse(dns, host + ":" + rest) ==
            match Truncate(Stoul(rest))
            case Ok(p) => Ok(Make(dns, if host == "" then "127.0.0.1" else host, p))
            case InvalidArgument => InvalidArgument
            case OutOfRange => OutOfRange
  {
    var s := host + ":" + rest;
    assert s[..|host|] == host && s[|host|] == ':' && s[|host| + 1..] == rest;
    FindIs(s, ':', |host|);
  }

  lemma TruncateKeeps(n: Parsed<nat>, port: Port)
    requires n == Ok(port)
    ensures Truncate(n) == Ok(port)
  {
  }

  lemma PortText(port: Port)
    ensures Truncate(Stoul(Decimal(port))) == Ok(port)
  {
    StoulOfDecimal(port);
    TruncateKeeps(Stoul(Decimal(port)), port);
  }

  lemma PlainRoundTrip(dns: string -> string, ip: string, port: Port)
    requires PlainHost(ip)
    ensures Extract(dns, Print(ip, port)) == Ok(Make(dns, ip, port))
  {
    NoSpacesInPrint(ip, port);
    PortText(port);
    PartsAround(ip, Decimal(port));
  }

  /** What extraction reads as a host is plain, or the whole word. */
  lemma HostPartIsPlain(w: string)
    requires NoSpaces(w)
    ensures ':' !in HostPart(w) && NoSpaces(HostPart(w))
    ensures HostPart(w) == "" ==> w == ""
  {
    assert ':' !in LOCALHOST && NoSpaces(LOCALHOST);
    assert w[..|w|] == w;
  }

  /** Printing and extracting an address gives it back exactly for the plain hosts. */
  lemma RoundTripIffPlain(dns: string -> string, ip: string, port: Port)
    ensures Extract(dns, Print(ip, port)) == Ok(Make(dns, ip, port)) <==> PlainHost(ip)
  {
    var s := Print(ip, port);
    if PlainHost(ip) {
      PlainRoundTrip(dns, ip, port);
    } else if Extract(dns, s) == Ok(Make(dns, ip, port)) {
      HostPartIsPlain(Word(s));
      if ip == "" {
        NoSpacesInPrint(ip, port);
      }
      assert false;
    }
  }

  /** The other direction: a text that is the print of a plain address is printed again unchanged. */
  lemma PrintOfExtract(dns: string -> string, s: string)
    requires exists ip, port :: PlainHost(ip) && s == Print(ip, port)
    ensures Extract(dns, s).Ok?
    ensures var a := Extract(dns, s).value; Print(a.ip, a.port) == s && PlainHost(a.ip)
  {
    var ip, port :| PlainHost(ip) && s == Print(ip, port);
    PlainRoundTrip(dns, ip, port);
  }

  lemma DigitsAfterHost(ip: string, port: Port)
    ensures Print(ip, port)[|ip|] == ':'
    ensures forall i :: |ip| < i < |Print(ip, port)| ==> IsDigit(Print(ip, port)[i])
  {
    forall i | |ip| < i < |Print(ip, port)| ensures IsDigit(Print(ip, port)[i]) {
      assert Print(ip, port)[i] == Decimal(port)[i - |ip| - 1];
    }
  }

  /** The host can be read off a print, whatever the host is. */
  lemma PrintDeterminesHost(ip1: string, port1: Port, ip2: string, port2: Port)
    requires Print(ip1, port1) == Print(ip2, port2)
    ensures ip1 == ip2
  {
    DigitsAfterHost(ip1, port1);
    DigitsAfterHost(ip2, port2);
    assert |ip1| == |ip2|;
    assert ip1 == Print(ip1, port1)[..|ip1|] && ip2 == Print(ip2, port2)[..|ip2|];
  }

  /** What extraction makes of the print of a host that is not plain never prints as that text. */
  lemma OthersDoNotRoundTrip(dns: string -> string, ip: string, port: Port)
    requires !PlainHost(ip) && Extract(dns, Print(ip, port)).Ok?
    ensures var a := Extract(dns, Print(ip, port)).value; Print(a.ip, a.port) != Print(ip, port)
  {
    var s := Print(ip, port);
    var a := Extract(dns, s).value;
    HostPartIsPlain(Word(s));
    ColonInWord(ip, port);
    if Print(a.ip, a.port) == s {
      PrintDeterminesHost(a.ip, a.port, ip, port);
      assert false;
    }
  }

  lemma ColonInWord(ip: string, port: Port)
    ensures Word(Print(ip, port)) != ""
  {
    var s := Print(ip, port);
    SomethingLeft(s, |ip|);
  }

  lemma {:induction false} SomethingLeft(s: string, i: nat)
    requires i < |s| && !IsSpace(s[i])
    ensures SkipSpaces(s) != ""
  {
    if i > 0 && IsSpace(s[0]) {
      assert s[1..][i - 1] == s[i];
      SomethingLeft(s[1..], i - 1);
    }
  }

  /** Distinct plain addresses have distinct prints. */
  lemma PrintInjective(ip1: string, port1: Port, ip2: string, port2: Port)
    requires PlainHost(ip1) && PlainHost(ip2) && Print(ip1, port1) == Print(ip2, port2)
    ensures ip1 == ip2 && port1 == port2
  {
    var dns := (h: string) => h;
    PlainRoundTrip(dns, ip1, port1);
    PlainRoundTrip(dns, ip2, port2);
  }

  /** The address object, whose setters keep the resolved text in step with the given one. */
  class AddressObject {
    const dns: string -> string
    var ip: string
    var resolved: string
    var port: Port

    ghost predicate Valid()
      reads this
    {
      resolved == Resolve(dns, ip)
    }

    function Value(): Address
      reads this
    {
      Address(ip, resolved, port)
    }

    constructor (dns: string -> string)
      ensures Valid() && this.dns == dns && Value() == Make(dns, LOCALHOST, 0)
    {
      this.dns, port := dns, 0;
      ip, resolved := LOCALHOST, Resolve(dns, LOCALHOST);
    }

    method SetIp(ip: string)
      modifies this`ip, this`resolved
      ensures Valid() && Value() == Make(dns, ip, port)
    {
      this.ip := ip;
      resolved := Resolve(dns, ip);
    }

    /** The parameter is a `uint16_t`, so the caller's number is truncated. */
    method SetPort(n: nat)
      requires Valid()
      modifies this`port
      ensures Valid() && Value() == old(Value()).(port := n % 0x1_0000)
    {
      port := n % 0x1_0000;
    }

    /** When the port does not convert, the exception leaves the new host and the old port. */
    method FromString(s: string) returns (r: Parsed<()>)
      modifies this
      ensures Valid() && ip == HostPart(s)
      ensures match Parse(dns, s)
              case Ok(a) => r == Ok(()) && Value() == a
              case InvalidArgument => r == InvalidArgument && port == old(port)
              case OutOfRange => r == OutOfRange && port == old(port)
    {
      var i := Find(s, ':');
      if i == |s| {
        SetIp(s);
        SetPort(0);
        return Ok(());
      }
      if i == 0 {
        SetIp(LOCALHOST);
      } else {
        SetIp(s[..i]);
      }
      match Stoul(s[i + 1..]) {
        case Ok(v) =>
          SetPort(v);
          return Ok(());
        case InvalidArgument => return InvalidArgument;
        case OutOfRange => return OutOfRange;
      }
    }
  }
}
