/** The table of built-in packet identifications: ten `(namespace, code)`
    pairs, listed in a fixed order, and the lookup from an identification's
    string form back to the identification. */
module Packets {
  import opened Common

  datatype PacketIdentification = PacketIdentification(namespace: string, code: string)

  const MagicLinkHandshakePing := PacketIdentification("RC", "MLH")
  const MagicLinkHandshakeFail := PacketIdentification("RC", "MLHF")
  const MagicLinkHandshakeSuccess := PacketIdentification("RC", "MLHS")
  const MagicLinkHandshakeDisconnect := PacketIdentification("RC", "MLHK")
  const SendPlayer := PacketIdentification("RC", "SP")
  const QueueTpa := PacketIdentification("RC", "TPAQP")
  const UnlockServer := PacketIdentification("RC", "US")
  const LockServer := PacketIdentification("RC", "LS")
  const RankedGameEnd := PacketIdentification("RC", "ERG")
  const RankedGameReady := PacketIdentification("RC", "SRG")

  /** The ten identifications, in the order the table lists them (the
      disconnect handshake before the success handshake). All share the
      "RC" namespace and no two share a code. */
  function ToList(): (r: seq<PacketIdentification>)
    ensures |r| == 10
    ensures r[2] == MagicLinkHandshakeDisconnect && r[3] == MagicLinkHandshakeSuccess
    ensures forall i :: 0 <= i < |r| ==> r[i].namespace == "RC"
    ensures forall i, j :: 0 <= i < j < |r| ==> r[i].code != r[j].code
  {
    [ MagicLinkHandshakePing, MagicLinkHandshakeFail, MagicLinkHandshakeDisconnect,
      MagicLinkHandshakeSuccess, SendPlayer, QueueTpa, UnlockServer, LockServer,
      RankedGameEnd, RankedGameReady ]
  }

  /** The first entry of `s` whose string form is `id`; none is a null
      pointer error. */
  function FindFirst(s: seq<PacketIdentification>, id: string, form: PacketIdentification -> string)
    : (r: Result<PacketIdentification>)
    ensures r.Err? <==> forall x :: x in s ==> form(x) != id
    ensures r.Err? ==> r.error == NullPointer
    ensures r.Ok? ==> exists k :: 0 <= k < |s| && s[k] == r.value && form(s[k]) == id
                                  && forall j :: 0 <= j < k ==> form(s[j]) != id
  {
    if s == [] then Err(NullPointer)
    else if form(s[0]) == id then Ok(s[0])
    else
      var r := FindFirst(s[1..], id, form);
      assert forall x :: x in s ==> x == s[0] || x in s[1..];
      if r.Ok? then
        ghost var k :| 0 <= k < |s[1..]| && s[1..][k] == r.value && form(s[1..][k]) == id
                       && forall j :: 0 <= j < k ==> form(s[1..][j]) != id;
        assert s[k + 1] == r.value && forall j :: 1 <= j < k + 1 ==> s[j] == s[1..][j - 1];
        r
      else r
  }

  /** `mapping(id)`: the first table entry whose string form (`get()`,
      given as `form`) equals `id`, or a null pointer error when none
      does. */
  function Mapping(id: string, form: PacketIdentification -> string): (r: Result<PacketIdentification>)
    ensures r.Ok? ==> r.value in ToList() && form(r.value) == id
    ensures r.Err? <==> forall x :: x in ToList() ==> form(x) != id
    ensures r.Err? ==> r.error == NullPointer
  {
    FindFirst(ToList(), id, form)
  }

  /** Round trip: when distinct entries have distinct string forms, looking
      up an entry's string form gives back that entry. */
  lemma MappingRoundTrip(x: PacketIdentification, form: PacketIdentification -> string)
    requires x in ToList()
    requires forall a, b :: a in ToList() && b in ToList() && form(a) == form(b) ==> a == b
    ensures Mapping(form(x), form) == Ok(x)
  {
    var r := Mapping(form(x), form);
    assert r.Ok?;
    assert r.value == x;
  }
}
