/** The packet a worker sends to ask the front-end to lock it: it carries one
    parameter, the server name. A packet read off the wire takes its server
    name from its parameter list; writing the packet out produces a
    parameters object holding that name alone. */
module PacketVariants {
  import opened Common

  /** One `key -> value` parameter entry; the value is the JSON primitive's
      string form. */
  datatype Parameter = Parameter(key: string, value: string)

  /** The server name after reading `ps` in order, starting from `current`:
      every entry under `key` overwrites it, others leave it alone. */
  function Scan(ps: seq<Parameter>, key: string, current: Option<string>): Option<string>
  {
    if ps == [] then current
    else Scan(ps[1..], key, if ps[0].key == key then Some(ps[0].value) else current)
  }

  /** Reading two lists one after the other is reading their
      concatenation. */
  lemma {:induction false} ScanAppend(a: seq<Parameter>, b: seq<Parameter>, key: string, current: Option<string>)
    ensures Scan(a + b, key, current) == Scan(b, key, Scan(a, key, current))
  {
    if a != [] {
      assert (a + b)[1..] == a[1..] + b;
      ScanAppend(a[1..], b, key, if a[0].key == key then Some(a[0].value) else current);
    } else {
      assert a + b == b;
    }
  }

  /** The last entry under `key` wins: with none, the name stays what it
      was; otherwise it is the value of an entry under `key` after which no
      entry has that key. */
  lemma {:induction false} ScanLastMatch(ps: seq<Parameter>, key: string, current: Option<string>)
    ensures (forall i :: 0 <= i < |ps| ==> ps[i].key != key) ==> Scan(ps, key, current) == current
    ensures (exists i :: 0 <= i < |ps| && ps[i].key == key) ==>
      exists k :: 0 <= k < |ps| && ps[k].key == key && Scan(ps, key, current) == Some(ps[k].value)
                  && forall j :: k < j < |ps| ==> ps[j].key != key
  {
    if ps != [] {
      var next := if ps[0].key == key then Some(ps[0].value) else current;
      ScanLastMatch(ps[1..], key, next);
      if exists i :: 0 <= i < |ps[1..]| && ps[1..][i].key == key {
        var k :| 0 <= k < |ps[1..]| && ps[1..][k].key == key && Scan(ps[1..], key, next) == Some(ps[1..][k].value)
                 && forall j :: k < j < |ps[1..]| ==> ps[1..][j].key != key;
        assert ps[k + 1] == ps[1..][k];
        assert forall j :: k + 1 < j < |ps| ==> ps[j] == ps[1..][j - 1];
      } else if ps[0].key == key {
        assert forall j :: 0 < j < |ps| ==> ps[j] == ps[1..][j - 1];
      } else {
        assert forall i :: 0 <= i < |ps| && ps[i].key == key ==> i > 0 && ps[1..][i - 1] == ps[i];
      }
    }
  }

  /** An entry under another key changes nothing, wherever it stands. */
  lemma OtherKeysIgnored(a: seq<Parameter>, other: Parameter, b: seq<Parameter>, key: string, current: Option<string>)
    requires other.key != key
    ensures Scan(a + [other] + b, key, current) == Scan(a + b, key, current)
  {
    ScanAppend(a + [other], b, key, current);
    ScanAppend(a, [other], key, current);
    ScanAppend(a, b, key, current);
  }

  /** The loop both constructors run over their parameter list. */
  method ExtractServerName(parameters: seq<Parameter>, key: string, current: Option<string>)
    returns (serverName: Option<string>)
    ensures serverName == Scan(parameters, key, current)
  {
    serverName := current;
    var i := 0;
    while i < |parameters|
      invariant 0 <= i <= |parameters|
      invariant Scan(parameters[i..], key, serverName) == Scan(parameters, key, current)
    {
      var entry := parameters[i];
      assert parameters[i..][1..] == parameters[i + 1..];
      if entry.key == key {
        serverName := Some(entry.value);
      }
      i := i + 1;
    }
  }

  /** The parameters object written for a server name: the single entry
      `key -> name`; a null name cannot be wrapped in a JSON primitive and is
      a null pointer error. */
  function ParametersObject(key: string, serverName: Option<string>): (r: Result<seq<Parameter>>)
    ensures r.Ok? <==> serverName.Some?
    ensures r.Err? ==> r.error == NullPointer
    ensures r.Ok? ==> |r.value| == 1 && r.value[0].key == key && Some(r.value[0].value) == serverName
  {
    match serverName
    case None => Err(NullPointer)
    case Some(name) => Ok([Parameter(key, name)])
  }

  /** Round trip: reading back the parameters written for a packet gives the
      packet's server name. */
  lemma ParametersRoundTrip(key: string, serverName: Option<string>, current: Option<string>)
    ensures ParametersObject(key, serverName).Ok? ==>
      Scan(ParametersObject(key, serverName).value, key, current) == serverName
  {
  }

  /** Parsing a list, writing the result out and parsing again gives the
      same server name. */
  lemma ParseWriteParse(ps: seq<Parameter>, key: string)
    requires Scan(ps, key, None).Some?
    ensures Scan(ParametersObject(key, Scan(ps, key, None)).value, key, None) == Scan(ps, key, None)
  {
    ParametersRoundTrip(key, Scan(ps, key, None), None);
  }

  class LockServerPacket {
    /** The key the server name travels under (the unlock packet's
        `SERVER_NAME` parameter name). */
    const serverNameKey: string
    var serverName: Option<string>

    /** A packet built locally from its parameters. */
    constructor (parameters: seq<Parameter>, serverNameKey: string)
      ensures this.serverNameKey == serverNameKey
      ensures serverName == Scan(parameters, serverNameKey, None)
    {
      this.serverNameKey := serverNameKey;
      this.serverName := None;
      new;
      serverName := ExtractServerName(parameters, serverNameKey, None);
    }

    /** A packet read off the wire: the same extraction. The protocol
        version and raw text it was read from belong to the generic packet
        header, which is not part of this model. */
    constructor Received(messageVersion: int, rawMessage: string, parameters: seq<Parameter>, serverNameKey: string)
      ensures this.serverNameKey == serverNameKey
      ensures serverName == Scan(parameters, serverNameKey, None)
    {
      this.serverNameKey := serverNameKey;
      this.serverName := None;
      new;
      serverName := ExtractServerName(parameters, serverNameKey, None);
    }

    /** The parameters object `toJSON` writes. */
    function ToJSONParameters(): (r: Result<seq<Parameter>>)
      reads this
      ensures r.Ok? <==> serverName.Some?
      ensures r.Ok? ==> Scan(r.value, serverNameKey, None) == serverName
    {
      ParametersRoundTrip(serverNameKey, serverName, None);
      ParametersObject(serverNameKey, serverName)
    }
  }
}
