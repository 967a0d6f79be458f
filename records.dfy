/**
 * The rows of the two tables behind the API, in insertion order, and the
 * invariants every reachable pair of tables keeps.
 */
module Records {
  import opened Common
  import opened Schemas

  /** The status every bogie checksheet created through the API is stored with. */
  const CompletedStatus: string := "COMPLETED"

  /** One row of the bogie-checksheet table: the request as accepted, plus what the server adds. */
  datatype BogieRecord = BogieRecord(
    id: nat,
    createdAt: Timestamp,
    updatedAt: Timestamp,
    bogieNumber: string,
    coachNumber: string,
    inspectionDate: Timestamp,
    inspectorName: string,
    bogieFrameCondition: Option<Condition>,
    bolster: Option<Condition>,
    bolsterSuspensionBracket: Option<Condition>,
    axleGuide: Option<Condition>,
    lowerSpringSeat: Option<Condition>,
    adjustingTube: Option<Condition>,
    cylinderBody: Option<Condition>,
    pistonTrunnion: Option<Condition>,
    plungerSpring: Option<Condition>,
    remarks: Option<string>,
    overallStatus: string)

  /** One row of the wheel-specification table: every field of the accepted request, plus id and timestamps. */
  datatype WheelRecord = WheelRecord(
    id: nat,
    createdAt: Timestamp,
    updatedAt: Timestamp,
    spec: WheelSpecificationCreate)

  /** The row stored for an accepted bogie request: each field copied from its sub-group, the status fixed. */
  function NewBogieRecord(id: nat, now: Timestamp, b: BogieChecksheetCreate): (r: BogieRecord)
    ensures r.id == id && r.createdAt == now && r.updatedAt == now
    ensures r.overallStatus == CompletedStatus
    ensures RequestOf(r) == b
  {
    var d := b.bogieDetails;
    var c := b.bogieChecksheet;
    var m := b.bmbcChecksheet;
    BogieRecord(
      id, now, now,
      d.bogieNumber, d.coachNumber, d.inspectionDate, d.inspectorName,
      c.bogieFrameCondition, c.bolster, c.bolsterSuspensionBracket, c.axleGuide, c.lowerSpringSeat,
      m.adjustingTube, m.cylinderBody, m.pistonTrunnion, m.plungerSpring,
      b.remarks, CompletedStatus)
  }

  /** The request a bogie row was stored from, regrouped into its three sub-groups. */
  function RequestOf(r: BogieRecord): BogieChecksheetCreate {
    BogieChecksheetCreate(
      BogieDetails(r.bogieNumber, r.coachNumber, r.inspectionDate, r.inspectorName),
      BogieChecksheet(r.bogieFrameCondition, r.bolster, r.bolsterSuspensionBracket, r.axleGuide, r.lowerSpringSeat),
      BmbcChecksheet(r.adjustingTube, r.cylinderBody, r.pistonTrunnion, r.plungerSpring),
      r.remarks)
  }

  /** The row stored for an accepted wheel request: the request's fields unchanged. */
  function NewWheelRecord(id: nat, now: Timestamp, c: WheelSpecificationCreate): (r: WheelRecord)
    ensures r.id == id && r.createdAt == now && r.updatedAt == now
    ensures r.spec == c
  {
    WheelRecord(id, now, now, c)
  }

  // ------------------------------------------------------------ invariants

  /** No two wheel rows share a wheel number. */
  predicate DistinctWheelNumbers(ws: seq<WheelRecord>) {
    forall i, j :: 0 <= i < j < |ws| ==> ws[i].spec.wheelNumber != ws[j].spec.wheelNumber
  }

  /** Ids increase along the bogie table and all lie below `nextId`; every row is a valid request stored as completed. */
  predicate ValidBogieTable(bs: seq<BogieRecord>, nextId: nat) {
    && (forall i, j :: 0 <= i < j < |bs| ==> bs[i].id < bs[j].id)
    && (forall i :: 0 <= i < |bs| ==> bs[i].id < nextId)
    && forall i :: 0 <= i < |bs| ==> bs[i].overallStatus == CompletedStatus && ValidBogieCreate(RequestOf(bs[i]))
  }

  /** Ids increase along the wheel table and all lie below `nextId`; wheel numbers are distinct; every row is a valid request. */
  predicate ValidWheelTable(ws: seq<WheelRecord>, nextId: nat) {
    && (forall i, j :: 0 <= i < j < |ws| ==> ws[i].id < ws[j].id)
    && (forall i :: 0 <= i < |ws| ==> ws[i].id < nextId)
    && DistinctWheelNumbers(ws)
    && forall i :: 0 <= i < |ws| ==> ValidWheelCreate(ws[i].spec)
  }

  // ---------------------------------------------------------------- lookup

  /**
   * The first row whose wheel number equals `n` exactly (case and spacing
   * included), or None when there is none.
   */
  function FindWheelNumber(ws: seq<WheelRecord>, n: string): (r: Option<nat>)
    ensures r.None? <==> forall i :: 0 <= i < |ws| ==> ws[i].spec.wheelNumber != n
    ensures r.Some? ==> r.value < |ws| && ws[r.value].spec.wheelNumber == n
    ensures r.Some? ==> forall i :: 0 <= i < r.value ==> ws[i].spec.wheelNumber != n
  {
    if ws == [] then None
    else if ws[0].spec.wheelNumber == n then Some(0)
    else
      var rest := FindWheelNumber(ws[1..], n);
      if rest.Some? then Some(rest.value + 1) else None
  }

  /** Appending a wheel whose number is not yet taken keeps every table invariant. */
  lemma AppendKeepsWheelTable(ws: seq<WheelRecord>, nextId: nat, c: WheelSpecificationCreate, now: Timestamp)
    requires ValidWheelTable(ws, nextId)
    requires ValidWheelCreate(c)
    requires FindWheelNumber(ws, c.wheelNumber).None?
    ensures ValidWheelTable(ws + [NewWheelRecord(nextId, now, c)], nextId + 1)
  {
    var r := NewWheelRecord(nextId, now, c);
    var ws' := ws + [r];
    assert forall i :: 0 <= i < |ws| ==> ws'[i] == ws[i];
    assert ws'[|ws|] == r;
    assert forall i :: 0 <= i < |ws| ==> ws[i].spec.wheelNumber != r.spec.wheelNumber;
  }

  /** Appending an accepted bogie request keeps every table invariant. */
  lemma AppendKeepsBogieTable(bs: seq<BogieRecord>, nextId: nat, b: BogieChecksheetCreate, now: Timestamp)
    requires ValidBogieTable(bs, nextId)
    requires ValidBogieCreate(b)
    ensures ValidBogieTable(bs + [NewBogieRecord(nextId, now, b)], nextId + 1)
  {
    var bs' := bs + [NewBogieRecord(nextId, now, b)];
    assert forall i :: 0 <= i < |bs| ==> bs'[i] == bs[i];
  }

  /** Once a wheel number is stored, looking it up finds it; a fresh number is found at the end. */
  lemma AppendedWheelIsFound(ws: seq<WheelRecord>, r: WheelRecord)
    requires FindWheelNumber(ws, r.spec.wheelNumber).None?
    ensures FindWheelNumber(ws + [r], r.spec.wheelNumber) == Some(|ws|)
  {
    var ws' := ws + [r];
    assert ws'[|ws|] == r;
    assert forall i :: 0 <= i < |ws| ==> ws'[i] == ws[i];
  }
}
