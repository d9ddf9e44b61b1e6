/** The worker-side view of one game server: the name, private key, address
    and family it registers with, its player caps and weight, and the
    message cache that can be installed once. */
module Paper {
  import opened Common

  /** The largest message cache a worker accepts. */
  const MaxCacheCapacity := 500

  /** The message cache, reduced to its capacity. */
  datatype MessageCache = MessageCache(capacity: int)

  /** The capacity a requested cache size turns into: non-positive requests
      become zero, requests above the maximum become the maximum. */
  function ClampCacheCapacity(max: int): (r: int)
    ensures 0 <= r <= MaxCacheCapacity
    ensures 0 <= max <= MaxCacheCapacity ==> r == max
  {
    if max <= 0 then 0 else if max > MaxCacheCapacity then MaxCacheCapacity else max
  }

  /** Clamping is idempotent and order-preserving, and picks the nearest
      capacity in range. */
  lemma ClampCacheCapacityNearest(a: int, b: int, c: int)
    ensures ClampCacheCapacity(ClampCacheCapacity(a)) == ClampCacheCapacity(a)
    ensures a <= b ==> ClampCacheCapacity(a) <= ClampCacheCapacity(b)
    ensures 0 <= c <= MaxCacheCapacity ==> Abs(ClampCacheCapacity(a) - a) <= Abs(c - a)
  {
  }

  // ---- `String.split(":")` ----

  /** Every `:`-separated field of `s`, empty ones included; a string without
      a separator is a single field. */
  function Fields(s: string): (r: seq<string>)
    ensures |r| >= 1
  {
    if s == [] then [""]
    else if s[0] == ':' then [""] + Fields(s[1..])
    else var f := Fields(s[1..]); [[s[0]] + f[0]] + f[1..]
  }

  /** Drops the empty fields at the end. */
  function DropTrailingEmpty(fs: seq<string>): seq<string>
  {
    if fs != [] && fs[|fs| - 1] == "" then DropTrailingEmpty(fs[..|fs| - 1]) else fs
  }

  /** Java's `String.split(":")`: a string with no separator comes back
      whole (the empty string included); otherwise its fields, without the
      trailing empty ones. */
  function JavaSplit(s: string): (r: seq<string>)
    ensures ':' !in s ==> r == [s]
    ensures forall f :: f in r ==> ':' !in f
  {
    if ':' !in s then [s]
    else
      FieldsHaveNoSeparator(s);
      DropTrailingEmptyPrefix(Fields(s));
      var r := DropTrailingEmpty(Fields(s));
      assert forall f :: f in r ==> f in Fields(s);
      r
  }

  lemma {:induction false} FieldsWithoutSeparator(s: string)
    requires ':' !in s
    ensures Fields(s) == [s]
  {
    if s != [] {
      FieldsWithoutSeparator(s[1..]);
      assert [s[0]] + s[1..] == s;
    }
  }

  lemma {:induction false} FieldsAfterSeparator(x: string, y: string)
    requires ':' !in x
    ensures Fields(x + ":" + y) == [x] + Fields(y)
  {
    if x == [] {
      assert x + ":" + y == [':'] + y;
      assert ([':'] + y)[1..] == y;
    } else {
      assert (x + ":" + y)[1..] == x[1..] + ":" + y;
      FieldsAfterSeparator(x[1..], y);
      assert [x[0]] + x[1..] == x;
    }
  }

  /** Splitting `host:port` gives back the host and the port text. */
  lemma JavaSplitHostPort(host: string, port: string)
    requires ':' !in host && ':' !in port && port != ""
    ensures JavaSplit(host + ":" + port) == [host, port]
  {
    var s := host + ":" + port;
    assert s[|host|] == ':';
    FieldsAfterSeparator(host, port);
    FieldsWithoutSeparator(port);
  }

  /** Splitting text without a separator yields one field, so there is no
      port. */
  lemma JavaSplitWithoutSeparator(s: string)
    requires ':' !in s
    ensures |JavaSplit(s)| == 1
  {
  }

  // ---- `Integer.parseInt` ----

  const IntMin := -0x8000_0000
  const IntMax := 0x7fff_ffff

  predicate IsDigit(c: char)
  {
    '0' <= c <= '9'
  }

  function DigitValue(c: char): nat
    requires IsDigit(c)
  {
    (c as int) - ('0' as int)
  }

  function DigitChar(d: nat): char
    requires d < 10
  {
    (('0' as int) + d) as char
  }

  predicate AllDigits(s: string)
  {
    forall i :: 0 <= i < |s| ==> IsDigit(s[i])
  }

  /** The value of a string of decimal digits, most significant first. */
  function DigitsValue(s: string): nat
    requires AllDigits(s)
  {
    if s == [] then 0 else DigitsValue(s[..|s| - 1]) * 10 + DigitValue(s[|s| - 1])
  }

  /** Java's `Integer.parseInt(s)` in base 10: an optional sign, then at
      least one digit, and a value within the 32-bit range; anything else is
      a number-format error. Only ASCII digits are modelled. */
  function ParseInt(s: string): (r: Result<int>)
    ensures r.Ok? ==> IntMin <= r.value <= IntMax
    ensures s == "" ==> r == Err(NumberFormat)
  {
    if s == [] then Err(NumberFormat)
    else
      var negative := s[0] == '-';
      var digits := if s[0] == '-' || s[0] == '+' then s[1..] else s;
      if digits == [] || !AllDigits(digits) then Err(NumberFormat)
      else
        var magnitude: int := DigitsValue(digits);
        var value := if negative then -magnitude else magnitude;
        if value < IntMin || IntMax < value then Err(NumberFormat) else Ok(value)
  }

  /** The decimal text of `n`, without leading zeros. */
  function Decimal(n: nat): (r: string)
    ensures r != [] && AllDigits(r)
  {
    if n < 10 then [DigitChar(n)] else Decimal(n / 10) + [DigitChar(n % 10)]
  }

  lemma {:induction false} DecimalValue(n: nat)
    ensures DigitsValue(Decimal(n)) == n
  {
    if n >= 10 {
      DecimalValue(n / 10);
      var s := Decimal(n);
      assert s[..|s| - 1] == Decimal(n / 10);
    }
  }

  /** `parseInt` reads back the decimal text of every 32-bit non-negative
      value. */
  lemma ParseIntDecimal(n: nat)
    requires n <= IntMax
    ensures ParseInt(Decimal(n)) == Ok(n)
  {
    DecimalValue(n);
    var s := Decimal(n);
    assert IsDigit(s[0]);
  }

  /** The address string, parsed as the constructor does: the host is the
      first `:`-field, the port the integer value of the second; a missing
      field is an index error, a non-numeric port a number-format error, and
      a port outside 0..65535 is refused by the socket address. Fields after
      the second are ignored. */
  function ParseAddress(address: string): (r: Result<Address>)
    ensures ':' !in address ==> r == Err(IndexOutOfBounds)
    ensures r.Ok? ==> 0 <= r.value.port <= 65535 && ':' !in r.value.host
  {
    var parts := JavaSplit(address);
    if |parts| < 2 then Err(IndexOutOfBounds)
    else match ParseInt(parts[1])
      case Err(e) => Err(e)
      case Ok(port) =>
        if port < 0 || 65535 < port then Err(IllegalArgument)
        else
          FieldsHaveNoSeparator(address);
          DropTrailingEmptyPrefix(Fields(address));
          Ok(Address(parts[0], port))
  }

  lemma {:induction false} FieldsHaveNoSeparator(s: string)
    ensures forall f :: f in Fields(s) ==> ':' !in f
  {
    if s != [] {
      FieldsHaveNoSeparator(s[1..]);
    }
  }

  lemma {:induction false} DropTrailingEmptyPrefix(fs: seq<string>)
    ensures |DropTrailingEmpty(fs)| <= |fs|
    ensures DropTrailingEmpty(fs) == fs[..|DropTrailingEmpty(fs)|]
  {
    if fs != [] && fs[|fs| - 1] == "" {
      DropTrailingEmptyPrefix(fs[..|fs| - 1]);
    }
  }

  /** Round trip: writing a host without `:` and a port in range as
      `host:port` and parsing it gives back the same address. */
  lemma ParseAddressRoundTrip(host: string, port: nat)
    requires ':' !in host && port <= 65535
    ensures ParseAddress(host + ":" + Decimal(port)) == Ok(Address(host, port))
  {
    var d := Decimal(port);
    assert forall i :: 0 <= i < |d| ==> d[i] != ':';
    JavaSplitHostPort(host, d);
    ParseIntDecimal(port);
  }

  /** A port that is not a number is refused. */
  lemma ParseAddressRejectsNonNumericPort(host: string, port: string)
    requires ':' !in host && ':' !in port && port != ""
    requires exists i :: 0 <= i < |port| && !IsDigit(port[i]) && port[i] != '-' && port[i] != '+'
    ensures ParseAddress(host + ":" + port) == Err(NumberFormat)
  {
    JavaSplitHostPort(host, port);
    assert JavaSplit(host + ":" + port)[1] == port;
    var i :| 0 <= i < |port| && !IsDigit(port[i]) && port[i] != '-' && port[i] != '+';
    var digits := if port[0] == '-' || port[0] == '+' then port[1..] else port;
    if port[0] == '-' || port[0] == '+' {
      assert i > 0 && digits[i - 1] == port[i];
    } else {
      assert digits[i] == port[i];
    }
    assert !AllDigits(digits);
  }

  class PaperServer {
    const name: string
    const privateKey: string
    const address: Address
    const family: string
    var messageCache: Option<MessageCache>
    var weight: int
    var softPlayerCap: int
    var hardPlayerCap: int

    /** The soft cap never exceeds the hard cap. */
    ghost predicate Valid()
      reads this
    {
      softPlayerCap <= hardPlayerCap
    }

    /** A worker with an already parsed address, the default weight and caps
        and no message cache. */
    constructor (name: string, privateKey: string, address: Address, family: string)
      ensures this.name == name && this.privateKey == privateKey
      ensures this.address == address && this.family == family
      ensures messageCache == None
      ensures weight == 0 && softPlayerCap == 20 && hardPlayerCap == 30
      ensures Valid()
    {
      this.name := name;
      this.privateKey := privateKey;
      this.address := address;
      this.family := family;
      this.messageCache := None;
      this.weight := 0;
      this.softPlayerCap := 20;
      this.hardPlayerCap := 30;
    }

    /** The worker as its constructor builds it from configuration: an empty
        name is replaced by a generated one, and an address the parser
        refuses makes construction fail. */
    static method Create(name: string, privateKey: string, address: string, family: string,
                         generatedName: string) returns (r: Result<PaperServer>)
      ensures ParseAddress(address).Err? ==> r == Err(ParseAddress(address).error)
      ensures ParseAddress(address).Ok? ==>
        && r.Ok? && fresh(r.value)
        && r.value.name == (if name == "" then generatedName else name)
        && r.value.privateKey == privateKey && r.value.family == family
        && r.value.address == ParseAddress(address).value
        && r.value.messageCache == None && r.value.Valid()
    {
      var serverName := name;
      if serverName == "" {
        serverName := generatedName;
      }
      var parsed := ParseAddress(address);
      if parsed.Err? {
        return Err(parsed.error);
      }
      var server := new PaperServer(serverName, privateKey, parsed.value, family);
      r := Ok(server);
    }

    /** True exactly when the given key is the stored one; a null key never
        matches. */
    function ValidatePrivateKey(keyToValidate: Option<string>): (r: bool)
      ensures r <==> keyToValidate == Some(privateKey)
    {
      match keyToValidate
      case None => false
      case Some(key) => key == privateKey
    }

    /** Installs a cache of the clamped capacity; a second call is refused
        and leaves the installed cache as it was. */
    method SetMessageCache(max: int) returns (outcome: Outcome)
      modifies this`messageCache
      ensures old(messageCache).Some? ==> outcome == Fail(IllegalState) && messageCache == old(messageCache)
      ensures old(messageCache).None? ==>
        outcome == Pass && messageCache == Some(MessageCache(ClampCacheCapacity(max)))
      ensures messageCache != old(messageCache) ==> 0 <= messageCache.value.capacity <= MaxCacheCapacity
    {
      if messageCache.Some? {
        return Fail(IllegalState);
      }
      var capacity := max;
      if capacity <= 0 {
        capacity := 0;
      }
      if capacity > MaxCacheCapacity {
        capacity := MaxCacheCapacity;
      }
      messageCache := Some(MessageCache(capacity));
      outcome := Pass;
    }

    /** Sets both caps; a soft cap at or above the hard cap is lowered to it
        ("player-limit" mode). The caps are consistent afterwards whatever
        they were before. */
    method SetPlayerCap(soft: int, hard: int)
      modifies this`softPlayerCap, this`hardPlayerCap
      ensures hardPlayerCap == hard
      ensures soft >= hard ==> softPlayerCap == hard
      ensures soft < hard ==> softPlayerCap == soft
      ensures Valid()
    {
      if soft >= hard {
        hardPlayerCap := hard;
        softPlayerCap := hard;
        return;
      }
      hardPlayerCap := hard;
      softPlayerCap := soft;
    }

    /** Worker start-up: build the worker, install a cache of 50 messages
        and apply the configured caps. */
    static method Init(name: string, privateKey: string, address: string, family: string,
                       soft: int, hard: int, generatedName: string) returns (r: Result<PaperServer>)
      ensures ParseAddress(address).Err? ==> r == Err(ParseAddress(address).error)
      ensures ParseAddress(address).Ok? ==>
        && r.Ok? && fresh(r.value)
        && r.value.address == ParseAddress(address).value
        && r.value.messageCache == Some(MessageCache(50))
        && r.value.hardPlayerCap == hard && r.value.softPlayerCap == Min(soft, hard)
        && r.value.Valid()
    {
      r := Create(name, privateKey, address, family, generatedName);
      if r.Err? {
        return;
      }
      var server := r.value;
      var _ := server.SetMessageCache(50);
      server.SetPlayerCap(soft, hard);
    }
  }
}
