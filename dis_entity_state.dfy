/**
 * dis::NetIO, entity-state intake: how the DIS network handler takes in an
 * Entity State PDU (IEEE 1278.1, section 5.3.3.1 of IEEE 1278.1-1995).
 *
 * The handler keeps two tables of network interface blocks (NIBs): the
 * OUTPUT NIBs of the players it publishes and the INPUT NIBs of the remote
 * players it has heard of. A PDU is dropped when it carries the handler's
 * own site and application IDs (an echo) or the identity of an OUTPUT NIB.
 * Otherwise it goes to the INPUT NIB of its identity, which is created and
 * added to the input table the first time that identity is heard, unless
 * the NIB cannot be allocated.
 *
 * A NIB here is a value; the tables are sequences of NIBs. What happens to
 * a NIB when a PDU is transferred to it is recorded as the list of PDUs
 * transferred, `updates`.
 */
module DisNetIO {
  import opened Common

  /** The seven entity type codes: kind, domain, country, category, subcategory, specific, extra. */
  datatype EntityType = EntityType(
    kind: uint8, domain: uint8, country: uint16, category: uint8,
    subcategory: uint8, specific: uint8, extra: uint8)

  /** The fields of an Entity State PDU this intake reads. */
  datatype EntityStatePdu = EntityStatePdu(
    playerId: uint16, site: uint16, app: uint16,
    forceId: uint8,
    entityType: EntityType,
    characterSet: uint8, marking: seq<uint8>,
    deadReckoningAlgorithm: uint8)

  /** Force ID values of IEEE 1278.1: the three that have a side of their own. */
  const FriendlyForce: uint8 := 1
  const OpposingForce: uint8 := 2
  const NeutralForce: uint8 := 3

  /** The ASCII character set of the entity marking. */
  const AsciiCharacterSet: uint8 := 1

  /** The player name buffer holds 12 bytes, so at most 11 characters and a NUL. */
  const NameBufferSize: nat := 12

  /** models::Player::Side, the sides this intake assigns. */
  datatype Side = Blue | Red | White | Gray

  /** A player's identity in DIS: entity ID and the simulation's site and application. */
  datatype NibId = NibId(playerId: uint16, site: uint16, app: uint16)

  /** The federate name is built from the site and application IDs. */
  datatype FederateName = FederateName(site: uint16, app: uint16)

  datatype Nib = Nib(
    playerId: uint16, site: uint16, app: uint16,
    name: string,
    federateName: FederateName,
    deadReckoning: uint8,
    entityType: EntityType,
    side: Side,
    updates: seq<EntityStatePdu>)

  function IdOf(n: Nib): NibId {
    NibId(n.playerId, n.site, n.app)
  }

  function PduId(pdu: EntityStatePdu): NibId {
    NibId(pdu.playerId, pdu.site, pdu.app)
  }

  /** The Force ID to side mapping: friendly blue, opposing red, neutral white, everyone else gray. */
  function ForceToSide(forceId: uint8): (s: Side)
    ensures s == Blue <==> forceId == FriendlyForce
    ensures s == Red <==> forceId == OpposingForce
    ensures s == White <==> forceId == NeutralForce
  {
    if forceId == FriendlyForce then Blue
    else if forceId == OpposingForce then Red
    else if forceId == NeutralForce then White
    else Gray
  }

  /** Every Force ID outside the three named ones maps to gray, and only those. */
  lemma GrayIsEverythingElse(forceId: uint8)
    ensures ForceToSide(forceId) == Gray <==> forceId !in {FriendlyForce, OpposingForce, NeutralForce}
  {
  }

  /**
   * A C string copied into a buffer of `max` + 1 bytes: the bytes of `s` up
   * to its first NUL, at most `max` of them.
   */
  function CString(s: seq<uint8>, max: nat): (r: seq<uint8>)
    ensures |r| <= max && |r| <= |s| && r == s[..|r|]
    ensures forall i :: 0 <= i < |r| ==> r[i] != 0
    ensures |r| < max && |r| < |s| ==> s[|r|] == 0
    decreases max
  {
    if max == 0 || s == [] || s[0] == 0 then []
    else [s[0]] + CString(s[1..], max - 1)
  }

  /** Bytes as characters, one for one. */
  function Chars(bs: seq<uint8>): (r: string)
    ensures |r| == |bs| && forall i :: 0 <= i < |bs| ==> r[i] == bs[i] as char
  {
    seq(|bs|, i requires 0 <= i < |bs| => bs[i] as char)
  }

  const DisPlayerName: string := "DIS PLAYER"

  /**
   * The player name of a new NIB: for the ASCII character set, the marking
   * up to its first NUL and at most 11 characters; otherwise "DIS PLAYER".
   */
  function MarkingName(pdu: EntityStatePdu): (name: string)
    ensures |name| < NameBufferSize
    ensures pdu.characterSet == AsciiCharacterSet ==>
      |name| <= |pdu.marking| &&
      (forall i :: 0 <= i < |name| ==> name[i] == pdu.marking[i] as char && pdu.marking[i] != 0) &&
      (|name| < |pdu.marking| && |name| < NameBufferSize - 1 ==> pdu.marking[|name|] == 0)
    ensures pdu.characterSet != AsciiCharacterSet ==> name == DisPlayerName
  {
    if pdu.characterSet == AsciiCharacterSet then Chars(CString(pdu.marking, NameBufferSize - 1))
    else DisPlayerName
  }

  /** entityStatePdu2Nib(): the PDU's data is handed to the NIB. */
  function Transfer(n: Nib, pdu: EntityStatePdu): (r: Nib)
    ensures IdOf(r) == IdOf(n) && r.updates == n.updates + [pdu]
    ensures r.(updates := n.updates) == n
  {
    n.(updates := n.updates + [pdu])
  }

  /** The fields a new INPUT NIB is given from the PDU that announces it. */
  function NewInputNib(pdu: EntityStatePdu): (n: Nib)
    ensures IdOf(n) == PduId(pdu) && n.updates == []
  {
    Nib(pdu.playerId, pdu.site, pdu.app,
        MarkingName(pdu),
        FederateName(pdu.site, pdu.app),
        pdu.deadReckoningAlgorithm,
        pdu.entityType,
        ForceToSide(pdu.forceId),
        [])
  }

  /** findDisNib(): the position of the first NIB with identity `id`. */
  function Find(table: seq<Nib>, id: NibId): (r: Option<nat>)
    ensures r.Some? ==> r.value < |table| && IdOf(table[r.value]) == id
    ensures r.Some? ==> forall i :: 0 <= i < r.value ==> IdOf(table[i]) != id
    ensures r.None? <==> forall i :: 0 <= i < |table| ==> IdOf(table[i]) != id
    decreases |table|
  {
    if table == [] then None
    else if IdOf(table[0]) == id then Some(0)
    else match Find(table[1..], id)
      case None => None
      case Some(k) => Some(k + 1)
  }

  /** No two NIBs of a table have the same identity. */
  ghost predicate UniqueIds(table: seq<Nib>) {
    forall i, j :: 0 <= i < j < |table| ==> IdOf(table[i]) != IdOf(table[j])
  }

  predicate IsEcho(siteId: uint16, appId: uint16, pdu: EntityStatePdu) {
    pdu.site == siteId && pdu.app == appId
  }

  /** The input table after processEntityStatePDU(pdu); `allocOk` is whether createNewInputNib() succeeds. */
  function Intake(siteId: uint16, appId: uint16, inputs: seq<Nib>, outputs: seq<Nib>,
                  pdu: EntityStatePdu, allocOk: bool): seq<Nib>
  {
    if IsEcho(siteId, appId, pdu) || Find(outputs, PduId(pdu)).Some? then inputs
    else match Find(inputs, PduId(pdu))
      case Some(k) => inputs[k := Transfer(inputs[k], pdu)]
      case None => if allocOk then inputs + [Transfer(NewInputNib(pdu), pdu)] else inputs
  }

  /** An echo of the handler's own site and application leaves the input table as it is. */
  lemma EchoIsIgnored(siteId: uint16, appId: uint16, inputs: seq<Nib>, outputs: seq<Nib>,
                      pdu: EntityStatePdu, allocOk: bool)
    requires pdu.site == siteId && pdu.app == appId
    ensures Intake(siteId, appId, inputs, outputs, pdu, allocOk) == inputs
  {
  }

  /** A PDU about one of the handler's own published players leaves the input table as it is. */
  lemma OutputPlayerIsIgnored(siteId: uint16, appId: uint16, inputs: seq<Nib>, outputs: seq<Nib>,
                              pdu: EntityStatePdu, allocOk: bool, k: nat)
    requires k < |outputs| && IdOf(outputs[k]) == PduId(pdu)
    ensures Intake(siteId, appId, inputs, outputs, pdu, allocOk) == inputs
  {
  }

  /**
   * A PDU of a new identity, once accepted and allocated, appends exactly
   * one INPUT NIB, built from the PDU's fields, to which the PDU is then
   * transferred.
   */
  lemma NewIdentityIsAppended(siteId: uint16, appId: uint16, inputs: seq<Nib>, outputs: seq<Nib>,
                              pdu: EntityStatePdu)
    requires !IsEcho(siteId, appId, pdu)
    requires forall i :: 0 <= i < |outputs| ==> IdOf(outputs[i]) != PduId(pdu)
    requires forall i :: 0 <= i < |inputs| ==> IdOf(inputs[i]) != PduId(pdu)
    ensures var r := Intake(siteId, appId, inputs, outputs, pdu, true);
      |r| == |inputs| + 1 && r[..|inputs|] == inputs &&
      r[|inputs|].playerId == pdu.playerId && r[|inputs|].site == pdu.site && r[|inputs|].app == pdu.app &&
      r[|inputs|].name == MarkingName(pdu) &&
      r[|inputs|].federateName == FederateName(pdu.site, pdu.app) &&
      r[|inputs|].deadReckoning == pdu.deadReckoningAlgorithm &&
      r[|inputs|].entityType == pdu.entityType &&
      r[|inputs|].side == ForceToSide(pdu.forceId) &&
      r[|inputs|].updates == [pdu]
  {
    var r := Intake(siteId, appId, inputs, outputs, pdu, true);
    assert r == inputs + [Transfer(NewInputNib(pdu), pdu)];
    assert r[..|inputs|] == inputs;
  }

  /**
   * A PDU of an identity already in the input table rewrites none of that
   * NIB's fields: only the transfer of the PDU to it happens, and the
   * other NIBs are untouched.
   */
  lemma KnownIdentityOnlyTransfers(siteId: uint16, appId: uint16, inputs: seq<Nib>, outputs: seq<Nib>,
                                   pdu: EntityStatePdu, allocOk: bool, k: nat)
    requires !IsEcho(siteId, appId, pdu)
    requires forall i :: 0 <= i < |outputs| ==> IdOf(outputs[i]) != PduId(pdu)
    requires UniqueIds(inputs)
    requires k < |inputs| && IdOf(inputs[k]) == PduId(pdu)
    ensures var r := Intake(siteId, appId, inputs, outputs, pdu, allocOk);
      |r| == |inputs| &&
      r[k] == inputs[k].(updates := inputs[k].updates + [pdu]) &&
      forall i :: 0 <= i < |inputs| && i != k ==> r[i] == inputs[i]
  {
    FindUnique(inputs, k);
  }

  /** In a table with unique identities, the search for a NIB's identity finds that NIB. */
  lemma FindUnique(table: seq<Nib>, k: nat)
    requires UniqueIds(table) && k < |table|
    ensures Find(table, IdOf(table[k])) == Some(k)
  {
    var f := Find(table, IdOf(table[k]));
    assert IdOf(table[f.value]) == IdOf(table[k]);
  }

  /** When no NIB can be allocated for a new identity, the input table stays as it is. */
  lemma AllocationFailureChangesNothing(siteId: uint16, appId: uint16, inputs: seq<Nib>, outputs: seq<Nib>,
                                        pdu: EntityStatePdu)
    requires forall i :: 0 <= i < |inputs| ==> IdOf(inputs[i]) != PduId(pdu)
    ensures Intake(siteId, appId, inputs, outputs, pdu, false) == inputs
  {
  }

  /** Each identity has at most one INPUT NIB, however many PDUs come in. */
  lemma IntakeKeepsIdsUnique(siteId: uint16, appId: uint16, inputs: seq<Nib>, outputs: seq<Nib>,
                             pdu: EntityStatePdu, allocOk: bool)
    requires UniqueIds(inputs)
    ensures UniqueIds(Intake(siteId, appId, inputs, outputs, pdu, allocOk))
  {
    var r := Intake(siteId, appId, inputs, outputs, pdu, allocOk);
    if !IsEcho(siteId, appId, pdu) && Find(outputs, PduId(pdu)).None? {
      match Find(inputs, PduId(pdu))
      case Some(k) =>
        assert forall i :: 0 <= i < |r| ==> IdOf(r[i]) == IdOf(inputs[i]);
      case None =>
        if allocOk {
          assert forall i :: 0 <= i < |inputs| ==> r[i] == inputs[i];
          assert IdOf(r[|inputs|]) == PduId(pdu);
        }
    }
  }

  /**
   * After an accepted PDU whose NIB exists or can be allocated, its
   * identity has an INPUT NIB, which holds the PDU as its latest transfer.
   */
  lemma AcceptedPduReachesItsNib(siteId: uint16, appId: uint16, inputs: seq<Nib>, outputs: seq<Nib>,
                                 pdu: EntityStatePdu, allocOk: bool)
    requires !IsEcho(siteId, appId, pdu) && Find(outputs, PduId(pdu)).None?
    requires Find(inputs, PduId(pdu)).Some? || allocOk
    ensures var r := Intake(siteId, appId, inputs, outputs, pdu, allocOk);
      Find(r, PduId(pdu)).Some? &&
      var n := r[Find(r, PduId(pdu)).value];
      |n.updates| > 0 && n.updates[|n.updates| - 1] == pdu
  {
    var r := Intake(siteId, appId, inputs, outputs, pdu, allocOk);
    var id := PduId(pdu);
    match Find(inputs, id)
    case Some(k) =>
      assert forall i :: 0 <= i < k ==> IdOf(r[i]) != id;
      assert IdOf(r[k]) == id;
      assert Find(r, id) == Some(k);
    case None =>
      assert forall i :: 0 <= i < |inputs| ==> IdOf(r[i]) != id;
      assert IdOf(r[|inputs|]) == id;
      assert Find(r, id) == Some(|inputs|);
  }

  /**
   * The input table after a stream of PDUs, each with the outcome of its
   * NIB allocation (`allocs[i]` for `pdus[i]`).
   */
  function IntakeAll(siteId: uint16, appId: uint16, inputs: seq<Nib>, outputs: seq<Nib>,
                     pdus: seq<EntityStatePdu>, allocs: seq<bool>): seq<Nib>
    requires |allocs| == |pdus|
    decreases |pdus|
  {
    if pdus == [] then inputs
    else IntakeAll(siteId, appId, Intake(siteId, appId, inputs, outputs, pdus[0], allocs[0]),
                   outputs, pdus[1..], allocs[1..])
  }

  /**
   * However many PDUs come in, and whichever allocations fail, no identity
   * ever has two INPUT NIBs, and the NIBs already in the table stay in
   * place with their identities.
   */
  lemma {:induction false} IntakeAllKeepsIdsUnique(siteId: uint16, appId: uint16, inputs: seq<Nib>,
                                                   outputs: seq<Nib>, pdus: seq<EntityStatePdu>, allocs: seq<bool>)
    requires |allocs| == |pdus|
    requires UniqueIds(inputs)
    ensures var r := IntakeAll(siteId, appId, inputs, outputs, pdus, allocs);
      UniqueIds(r) && |r| >= |inputs| &&
      forall i :: 0 <= i < |inputs| ==> IdOf(r[i]) == IdOf(inputs[i])
    decreases |pdus|
  {
    if pdus != [] {
      var next := Intake(siteId, appId, inputs, outputs, pdus[0], allocs[0]);
      IntakeKeepsIdsUnique(siteId, appId, inputs, outputs, pdus[0], allocs[0]);
      IntakeKeepsPlaces(siteId, appId, inputs, outputs, pdus[0], allocs[0]);
      IntakeAllKeepsIdsUnique(siteId, appId, next, outputs, pdus[1..], allocs[1..]);
    }
  }

  /** One PDU never removes or reorders a NIB: each keeps its place and identity. */
  lemma IntakeKeepsPlaces(siteId: uint16, appId: uint16, inputs: seq<Nib>, outputs: seq<Nib>,
                          pdu: EntityStatePdu, allocOk: bool)
    ensures var r := Intake(siteId, appId, inputs, outputs, pdu, allocOk);
      |r| >= |inputs| && forall i :: 0 <= i < |inputs| ==> IdOf(r[i]) == IdOf(inputs[i])
  {
  }

  /** The network handler's two NIB tables and its own DIS identity. */
  class NetIO {
    const siteId: uint16
    const appId: uint16
    var inputNibs: seq<Nib>
    var outputNibs: seq<Nib>

    /** At most one INPUT NIB per identity. */
    ghost predicate Valid()
      reads this
    {
      UniqueIds(inputNibs)
    }

    constructor (site: uint16, app: uint16)
      ensures siteId == site && appId == app
      ensures inputNibs == [] && outputNibs == [] && Valid()
    {
      siteId := site;
      appId := app;
      inputNibs := [];
      outputNibs := [];
    }

    /**
     * processEntityStatePDU(): filter, find or create the INPUT NIB, then
     * transfer the PDU to it. `allocOk` is whether createNewInputNib()
     * returns a NIB.
     */
    method ProcessEntityStatePdu(pdu: EntityStatePdu, allocOk: bool)
      requires Valid()
      modifies this`inputNibs
      ensures Valid()
      ensures inputNibs == Intake(siteId, appId, old(inputNibs), old(outputNibs), pdu, allocOk)
      ensures outputNibs == old(outputNibs)
    {
      IntakeKeepsIdsUnique(siteId, appId, inputNibs, outputNibs, pdu, allocOk);
      ghost var target := Intake(siteId, appId, inputNibs, outputNibs, pdu, allocOk);
      var playerId, site, app := pdu.playerId, pdu.site, pdu.app;

      // Not one of ours
      if site == siteId && app == appId {
        return;
      }
      var testNib := Find(outputNibs, NibId(playerId, site, app));
      if testNib.Some? {
        return;
      }

      var nib := Find(inputNibs, NibId(playerId, site, app));
      if nib.None? && allocOk {
        // A new NIB, filled in one setter at a time
        var n := Nib(0, 0, 0, "", FederateName(0, 0), 0, EntityType(0, 0, 0, 0, 0, 0, 0), Gray, []);
        n := n.(playerId := playerId);
        if pdu.characterSet == AsciiCharacterSet {
          n := n.(name := Chars(CString(pdu.marking, NameBufferSize - 1)));
        } else {
          n := n.(name := DisPlayerName);
        }
        n := n.(site := site);
        n := n.(app := app);
        n := n.(federateName := FederateName(site, app));
        n := n.(deadReckoning := pdu.deadReckoningAlgorithm);
        n := n.(entityType := pdu.entityType);
        if pdu.forceId == FriendlyForce {
          n := n.(side := Blue);
        } else if pdu.forceId == OpposingForce {
          n := n.(side := Red);
        } else if pdu.forceId == NeutralForce {
          n := n.(side := White);
        } else {
          n := n.(side := Gray);
        }
        assert n == NewInputNib(pdu);
        inputNibs := inputNibs + [n];
        nib := Some(|inputNibs| - 1);
      }

      // Transfer the PDU's data to the NIB
      if nib.Some? {
        var k := nib.value;
        inputNibs := inputNibs[k := Transfer(inputNibs[k], pdu)];
      }
      assert inputNibs == target;
    }
  }
}
