/** Small shared vocabulary: optional values, outcomes with the application's
    error codes, column patches, and the two text helpers the services use. */
module Common {

  datatype Option<+T> = None | Some(value: T) {
    function GetOr(default: T): T {
      match this case Some(v) => v case None => default
    }
  }

  /** The codes carried by AppError; IntegrityError stands for a violated table
      constraint and InternalError for an unhandled Python exception. */
  datatype ErrorCode =
    | ValidationError | PermissionDenied | BuildingNotAllowed | InvalidStatus
    | ConcurrentModification | DuplicateOperation | InvalidHandler
    | MissingRequiredFields | MultiItemNotSupported | AssetNotFound
    | EquipmentModelNotFound | ModelCategoryMismatch | RequestItemNotFound
    | SupplierNotFound | SupplierBlacklisted | InvalidRequestItem
    | ItemAlreadyPurchased | WarehouseNotRequired | OverReceipt
    | ExecutionNotFound | FulfillmentInvariantViolation | RequirementNotFound
    | SelectedProductRequired | SelectedProductCategoryMismatch
    | NotificationNotFound | InvalidNotificationStatus
    | SessionExpired | InvalidSessionStatus
    | IntegrityError | InternalError

  datatype Result<+T> = Ok(value: T) | Err(error: ErrorCode) {
    predicate IsFailure() { Err? }
    function PropagateFailure<U>(): Result<U> requires Err? { Err(error) }
    function Extract(): T requires Ok? { value }
  }

  datatype Outcome = Pass | Fail(error: ErrorCode) {
    predicate IsFailure() { Fail? }
    function PropagateFailure<U>(): Result<U> requires Fail? { Err(error) }
  }

  function Check(condition: bool, error: ErrorCode): Outcome {
    if condition then Pass else Fail(error)
  }

  /** A field of a partial update: left out, or present (possibly null). */
  datatype Patch<+T> = Keep | Put(value: Option<T>) {
    function Over(old_: Option<T>): Option<T> {
      match this case Keep => old_ case Put(v) => v
    }
  }

  predicate IsSpace(c: char) { c in " \t\n\r" }

  function Strip(s: string): string {
    if s == "" then ""
    else if IsSpace(s[0]) then Strip(s[1..])
    else if IsSpace(s[|s| - 1]) then Strip(s[..|s| - 1])
    else s
  }

  predicate NoDuplicates<T(==)>(s: seq<T>) {
    forall i, j :: 0 <= i < j < |s| ==> s[i] != s[j]
  }

  /** Duplicate-free sequences with the same elements have the same length. */
  lemma SameElementsSameLength<T>(a: seq<T>, b: seq<T>)
    requires NoDuplicates(a) && NoDuplicates(b)
    requires forall x :: x in a <==> x in b
    ensures |a| == |b|
  {
    CardinalityOfDistinct(a);
    CardinalityOfDistinct(b);
    assert (set x | x in a) == (set x | x in b);
  }

  lemma {:induction false} CardinalityOfDistinct<T>(a: seq<T>)
    requires NoDuplicates(a)
    ensures |set x | x in a| == |a|
  {
    if a != [] {
      var front, last := a[..|a| - 1], a[|a| - 1];
      CardinalityOfDistinct(front);
      assert (set x | x in a) == (set x | x in front) + {last};
    }
  }

  lemma {:induction false} SubsetCardinality<T>(a: set<T>, b: set<T>)
    requires a <= b
    ensures |a| <= |b|
  {
    if a != {} {
      var x :| x in a;
      SubsetCardinality(a - {x}, b - {x});
    }
  }
}
