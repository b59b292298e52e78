/** The seven request statuses, the roles and the transition table
    (backend/app/domain/workflow.py). */
module Workflow {
  import opened Common

  datatype Role = Applicant | BuildingManager | Purchaser | WarehouseManager | Admin

  datatype Status =
    | Draft | PendingReview | Rejected | PendingPurchase | Purchasing
    | PendingWarehouse | Completed

  datatype Operation =
    | SubmitReview | Reject | ResubmitReview | SubmitPurchaser | StartPurchase
    | SubmitWarehouse | Complete

  datatype Rule = Rule(
    from: Status, to: Status, required: Role,
    target: Option<Role>, assignToApplicant: bool, clearHandler: bool)

  function RuleOf(op: Operation): Rule {
    match op
    case SubmitReview => Rule(Draft, PendingReview, Applicant, Some(BuildingManager), false, false)
    case Reject => Rule(PendingReview, Rejected, BuildingManager, None, true, false)
    case ResubmitReview => Rule(Rejected, PendingReview, Applicant, Some(BuildingManager), false, false)
    case SubmitPurchaser => Rule(PendingReview, PendingPurchase, BuildingManager, Some(Purchaser), false, false)
    case StartPurchase => Rule(PendingPurchase, Purchasing, Purchaser, None, false, false)
    case SubmitWarehouse => Rule(Purchasing, PendingWarehouse, Purchaser, Some(WarehouseManager), false, false)
    case Complete => Rule(PendingWarehouse, Completed, WarehouseManager, None, false, true)
  }

  /** The transition graph: the table's edges, and the one override by which
      submit_warehouse completes a request that needs no warehouse. */
  predicate Edge(from: Status, to: Status) {
    || (exists op: Operation :: RuleOf(op).from == from && RuleOf(op).to == to)
    || (from == Purchasing && to == Completed)
  }

  /** An employee as the identity tables show them. `reachable` means an active
      employee with an active external identity; `feishu` an active Feishu one. */
  datatype Employee = Employee(roles: set<Role>, buildings: set<nat>, reachable: bool, feishu: bool)

  datatype Supplier = Supplier(name: string, active: bool, blacklisted: bool)

  /** Everything a command reads outside the request's own tables. */
  datatype World = World(
    staff: map<nat, Employee>,
    suppliers: map<nat, Supplier>,
    supplierNamed: map<string, nat>,  // active supplier with that name, lowest id
    newSupplier: nat,                 // id an inserted supplier receives
    assets: map<nat, nat>,            // asset -> building
    models: map<nat, nat>,            // equipment model -> category
    now: int)                         // what datetime.now() returns
  {
    /** Everything but the clock is the same. */
    predicate AgreesWith(other: World) { this.(now := other.now) == other }

    function RolesOf(e: nat): set<Role> { if e in staff then staff[e].roles else {} }

    predicate HasRole(e: nat, role: Role) { role in RolesOf(e) }

    predicate InBuilding(e: nat, building: nat) {
      e in staff && building in staff[e].buildings
    }

    /** belongs_to_building: administrators belong everywhere. */
    predicate BelongsTo(e: nat, building: nat) {
      HasRole(e, Admin) || InBuilding(e, building)
    }

    predicate ValidHandler(e: nat, role: Role, building: Option<nat>) {
      && e in staff && staff[e].reachable && role in staff[e].roles
      && (building.Some? ==> InBuilding(e, building.value))
    }

    predicate HasFeishu(e: nat) { e in staff && staff[e].feishu }

    predicate UsableSupplier(id: nat) {
      id in suppliers && suppliers[id].active
    }

    predicate Blacklisted(id: nat) { id in suppliers && suppliers[id].blacklisted }

    /** The supplier table as the lookups see it: a new row gets an id of its own, and
        a name leads to the active supplier of that name with the lowest id. */
    ghost predicate SuppliersOk() {
      && newSupplier !in suppliers
      && (forall id :: id in suppliers && suppliers[id].active ==> suppliers[id].name in supplierNamed)
      && (forall name :: name in supplierNamed ==>
            && UsableSupplier(supplierNamed[name]) && suppliers[supplierNamed[name]].name == name
            && forall id :: UsableSupplier(id) && suppliers[id].name == name ==> supplierNamed[name] <= id)
    }
  }
}
