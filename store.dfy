/**
 * The two tables behind the API and its three endpoints: create a bogie
 * checksheet, create a wheel specification, and list wheel specifications.
 *
 * A request body that fails validation is refused before the handler runs
 * (status 422) and changes nothing. The storage engine is not modelled: how
 * the commit of a create runs is a parameter of that create, and a failed
 * query a parameter of the listing.
 */
module Store {
  import opened Common
  import opened Schemas
  import opened Records
  import opened Listing

  const BogieCreatedMessage: string := "Bogie checksheet created successfully"
  const WheelCreatedMessage: string := "Wheel specification created successfully"

  /**
   * How the storage engine runs one accepted create: the commit fails and is
   * rolled back; the commit succeeds but reading the new row back for the
   * response fails, which a rollback can no longer undo; or both succeed.
   */
  datatype CommitResult = RolledBack | CommittedThenFailed | Committed

  /** The `data` of a successful create: the new row's id, its number, its coach number, its creation time. */
  datatype Created = Created(id: nat, number: string, coachNumber: string, createdAt: Timestamp)

  /** How a create request ends. */
  datatype CreateOutcome<L> =
    | Success(message: string, data: Created)        // 200
    | ValidationFailed(errors: seq<FieldError<L>>)   // 422, from request validation
    | Conflict(wheelNumber: string)                  // 400, the wheel number is taken
    | InternalError                                  // 500, after a rollback

  /** How a listing request ends. */
  datatype ListOutcome =
    | Listed(page: WheelPage)                               // 200
    | QueryRejected(errors: seq<FieldError<QueryParam>>)   // 422, from parameter validation
    | ListFailed                                           // 500

  function CreateStatusCode<L>(o: CreateOutcome<L>): int {
    match o
    case Success(_, _) => 200
    case ValidationFailed(_) => 422
    case Conflict(_) => 400
    case InternalError => 500
  }

  function ListStatusCode(o: ListOutcome): int {
    match o
    case Listed(_) => 200
    case QueryRejected(_) => 422
    case ListFailed => 500
  }

  class RecordStore {
    /** The bogie-checksheet table, in insertion order. */
    var bogies: seq<BogieRecord>
    /** The wheel-specification table, in insertion order. */
    var wheels: seq<WheelRecord>
    /** The id the next stored bogie checksheet receives. */
    var nextBogieId: nat
    /** The id the next stored wheel specification receives. */
    var nextWheelId: nat

    ghost predicate Valid()
      reads this
    {
      ValidBogieTable(bogies, nextBogieId) && ValidWheelTable(wheels, nextWheelId)
    }

    constructor()
      ensures Valid()
      ensures bogies == [] && wheels == []
      ensures nextBogieId == 1 && nextWheelId == 1
    {
      bogies := [];
      wheels := [];
      nextBogieId := 1;
      nextWheelId := 1;
    }

    /** `db.add` and `db.commit` of one accepted bogie request: the next id, the status "COMPLETED". */
    method AddBogie(request: BogieChecksheetCreate, now: Timestamp)
      requires Valid() && ValidBogieCreate(request)
      modifies this
      ensures Valid()
      ensures bogies == old(bogies) + [NewBogieRecord(old(nextBogieId), now, request)]
      ensures nextBogieId == old(nextBogieId) + 1
      ensures wheels == old(wheels) && nextWheelId == old(nextWheelId)
    {
      AppendKeepsBogieTable(bogies, nextBogieId, request, now);
      bogies := bogies + [NewBogieRecord(nextBogieId, now, request)];
      nextBogieId := nextBogieId + 1;
    }

    /** `db.add` and `db.commit` of one accepted wheel request whose wheel number is not yet stored. */
    method AddWheel(request: WheelSpecificationCreate, now: Timestamp)
      requires Valid() && ValidWheelCreate(request)
      requires FindWheelNumber(wheels, request.wheelNumber).None?
      modifies this
      ensures Valid()
      ensures wheels == old(wheels) + [NewWheelRecord(old(nextWheelId), now, request)]
      ensures nextWheelId == old(nextWheelId) + 1
      ensures bogies == old(bogies) && nextBogieId == old(nextBogieId)
    {
      AppendKeepsWheelTable(wheels, nextWheelId, request, now);
      wheels := wheels + [NewWheelRecord(nextWheelId, now, request)];
      nextWheelId := nextWheelId + 1;
    }

    /**
     * POST a bogie checksheet. A valid body is stored as one new row whose
     * overall status is "COMPLETED" whatever was sent. A failed commit is
     * rolled back and reported as 500; a failure after the commit is also
     * reported as 500, but the row stays. The wheel table is never touched.
     */
    method CreateBogieChecksheet(body: BogieChecksheetCreateInput, now: Timestamp, commit: CommitResult)
      returns (outcome: CreateOutcome<BogieField>)
      requires Valid()
      modifies this
      ensures Valid()
      ensures wheels == old(wheels) && nextWheelId == old(nextWheelId)
      ensures ValidateBogie(body).Err? ==> outcome == ValidationFailed(ValidateBogie(body).error)
      ensures ValidateBogie(body).Ok? && !commit.Committed? ==> outcome == InternalError
      ensures ValidateBogie(body).Ok? && commit.Committed? ==>
        var request := ValidateBogie(body).value;
        outcome == Success(BogieCreatedMessage,
          Created(old(nextBogieId), request.bogieDetails.bogieNumber, request.bogieDetails.coachNumber, now))
      ensures ValidateBogie(body).Ok? && !commit.RolledBack? ==>
        var id := old(nextBogieId);
        && bogies == old(bogies) + [NewBogieRecord(id, now, ValidateBogie(body).value)]
        && nextBogieId == id + 1
      ensures !(ValidateBogie(body).Ok? && !commit.RolledBack?) ==>
        bogies == old(bogies) && nextBogieId == old(nextBogieId)
    {
      var validated := ValidateBogie(body);
      if validated.Err? {
        return ValidationFailed(validated.error);
      }
      var request := validated.value;
      var row := NewBogieRecord(nextBogieId, now, request);
      if commit.RolledBack? {
        return InternalError;
      }
      AddBogie(request, now);
      if commit.CommittedThenFailed? {
        return InternalError;
      }
      outcome := Success(BogieCreatedMessage, Created(row.id, row.bogieNumber, row.coachNumber, row.createdAt));
    }

    /**
     * POST a wheel specification. A body whose wheel number equals a stored
     * one exactly is refused with 400 and changes nothing; otherwise the
     * validated request (defaults filled in) is stored as one new row. A
     * failed commit is rolled back and reported as 500; a failure after the
     * commit is also reported as 500, but the row stays, so a retry of the same
     * body is then refused with 400. Wheel numbers stay pairwise distinct. The
     * bogie table is never touched.
     */
    method CreateWheelSpecification(body: WheelSpecificationCreateInput, now: Timestamp, commit: CommitResult)
      returns (outcome: CreateOutcome<WheelField>)
      requires Valid()
      modifies this
      ensures Valid()
      ensures bogies == old(bogies) && nextBogieId == old(nextBogieId)
      ensures ValidateWheel(body).Err? ==> outcome == ValidationFailed(ValidateWheel(body).error)
      ensures ValidateWheel(body).Ok? ==>
        var request := ValidateWheel(body).value;
        var taken := FindWheelNumber(old(wheels), request.wheelNumber).Some?;
        var id := old(nextWheelId);
        && (taken ==> outcome == Conflict(request.wheelNumber))
        && (!taken && !commit.Committed? ==> outcome == InternalError)
        && (!taken && commit.Committed? ==>
              outcome == Success(WheelCreatedMessage, Created(id, request.wheelNumber, request.coachNumber, now)))
        && (!taken && !commit.RolledBack? ==>
              && wheels == old(wheels) + [NewWheelRecord(id, now, request)]
              && nextWheelId == id + 1)
      ensures ValidateWheel(body).Err? || outcome.Conflict? || commit.RolledBack? ==>
        wheels == old(wheels) && nextWheelId == old(nextWheelId)
    {
      var validated := ValidateWheel(body);
      if validated.Err? {
        return ValidationFailed(validated.error);
      }
      var request := validated.value;
      var existing := FindWheelNumber(wheels, request.wheelNumber);
      if existing.Some? {
        return Conflict(request.wheelNumber);
      }
      var row := NewWheelRecord(nextWheelId, now, request);
      if commit.RolledBack? {
        return InternalError;
      }
      AddWheel(request, now);
      if commit.CommittedThenFailed? {
        return InternalError;
      }
      outcome := Success(WheelCreatedMessage, Created(row.id, row.spec.wheelNumber, row.spec.coachNumber, row.createdAt));
    }

    /**
     * GET wheel specifications: the query is narrowed by each filter that is
     * given, counted, cut to the requested page, and each row of the page is
     * converted to a response entry. Nothing is changed.
     */
    method GetWheelSpecifications(params: QueryInput, storageSucceeds: bool) returns (outcome: ListOutcome)
      ensures ValidateQuery(params).Err? ==> outcome == QueryRejected(ValidateQuery(params).error)
      ensures ValidateQuery(params).Ok? && !storageSucceeds ==> outcome == ListFailed
      ensures ValidateQuery(params).Ok? && storageSucceeds ==>
        outcome == Listed(ListWheels(wheels, ValidateQuery(params).value))
    {
      var validated := ValidateQuery(params);
      if validated.Err? {
        return QueryRejected(validated.error);
      }
      var f := validated.value;
      if !storageSucceeds {
        return ListFailed;
      }
      var query := wheels;
      if Supplied(f.wheelNumber) {
        query := Where(query, WheelNumberLike(f.wheelNumber.value));
      }
      assert query == Step(wheels, f, 1);
      ghost var q1 := query;
      if Supplied(f.coachNumber) {
        query := Where(query, CoachNumberLike(f.coachNumber.value));
      }
      assert query == Step(q1, f, 2);
      ghost var q2 := query;
      if f.condition.Some? {
        query := Where(query, ConditionIs(f.condition.value));
      }
      assert query == Step(q2, f, 3);
      ghost var q3 := query;
      if Supplied(f.manufacturer) {
        query := Where(query, ManufacturerLike(f.manufacturer.value));
      }
      assert query == Step(q3, f, 4);
      ghost var q4 := query;
      if f.status.Some? {
        query := Where(query, StatusIs(f.status.value));
      }
      assert query == Step(q4, f, 5) == Query(wheels, f);
      var total := |query|;
      var specs := Page(query, f.offset, f.limit);
      var data := ResponseRows(specs);
      outcome := Listed(WheelPage(|data|, data, total, f.limit, f.offset));
    }
  }
}
