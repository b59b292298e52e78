/** The list of missing fields with which save_applicant_fields replies, and the check
    that a submission makes. */
module MissingFields {
  import opened Common
  import opened Workflow
  import opened Procurement
  import opened Commands
  import opened Effects
  import opened Lifecycle

  /** The check of submit_review. */
  predicate Submittable(items: seq<Item>) {
    Actives(items) != [] && forall i :: i in Actives(items) ==> IsComplete(items[i])
  }

  lemma SubmissionNeedsThat(w: World, actor: nat, expected: nat, s: Aggregate, again: bool, token: string,
                            assignee: Option<nat>, used: set<string>)
    ensures DoSendToReview(w, actor, expected, s, again, token, assignee, used) == Err(MissingRequiredFields)
       <==> !Submittable(s.items)
  {
    hide Actives, IsComplete;
  }

  /** After a save that reports nothing missing, the submission check passes if and only
      if name and unit are more than blanks: the reply compares the raw text with "",
      the submission the stripped one. */
  lemma NothingMissingExactly(c: Call, s: Aggregate, used: set<string>, t: Aggregate)
    requires c.command.SaveApplicantFields? && Exec(c, s, used) == Ok(t)
    requires s.request.quantity != Some(0) && MissingHeader(t.request) == []
    ensures |Actives(t.items)| == 1
    ensures Submittable(t.items) <==>
      Strip(t.request.deviceName.value) != "" && Strip(t.request.unit.value) != ""
  {
    hide Actives, DistinctNumbers, Strip, MirroredColumns, Column, MissingColumns, ApplicantMayEdit, ManagerMayEdit;
    NoneMissing(t.request);
    MirrorShows(t.request, s.items);
    var ids := Actives(t.items);
    assert ids[0] in ids;
  }

  lemma NoneMissing(q: Request)
    requires MissingHeader(q) == []
    ensures q.deviceName.GetOr("") != "" && q.quantity.Some? && q.unit.GetOr("") != ""
  {}

  /** A complete header is what the one active item shows. */
  lemma MirrorShows(q: Request, items: seq<Item>)
    requires q.deviceName.GetOr("") != "" && q.quantity.GetOr(0) != 0 && q.unit.GetOr("") != ""
    requires |Actives(items)| <= 1
    ensures var items' := MirrorItem(q, items);
      && |Actives(items')| == 1
      && var item := items'[Actives(items')[0]];
        item.name == q.deviceName.value && item.quantity == q.quantity.value && item.unit == q.unit.value
  {
    hide MirroredColumns;
    var items' := MirrorItem(q, items);
    var i := if Actives(items) == [] then |items| else Actives(items)[0];
    SameElementsSameLength(Actives(items'), [i]);
    assert Actives(items')[0] in Actives(items');
  }

  /** No run stores the quantity 0 in the header. */
  lemma StepKeepsQuantity(c: Call, s: Aggregate, used: set<string>, t: Aggregate)
    requires Exec(c, s, used) == Ok(t) && s.request.quantity != Some(0)
    ensures t.request.quantity != Some(0)
  {
    hide Exec, Logged;
    ExecEffects(c, s, t, used);
    if EditsItems(c.command) { EditKeepsQuantity(c, s, used, t); }
  }

  lemma EditKeepsQuantity(c: Call, s: Aggregate, used: set<string>, t: Aggregate)
    requires Exec(c, s, used) == Ok(t) && s.request.quantity != Some(0) && EditsItems(c.command)
    ensures t.request.quantity != Some(0)
  {
    hide Actives, ReplaceLines, MirrorItem, DistinctNumbers, MaxNo;
  }

  lemma {:induction false} RunKeepsQuantity(w: World, actor: nat, id: nat, building: nat, s: Aggregate,
                                            turns: seq<Turn>)
    requires NewRequest(w, actor, id, building) == Ok(s)
    ensures Run(s, turns).request.quantity != Some(0)
  {
    hide Exec;
    if turns != [] {
      var front, last := turns[..|turns| - 1], turns[|turns| - 1];
      RunKeepsQuantity(w, actor, id, building, s, front);
      var u := Run(s, front);
      var r := Exec(last.call, u, last.used);
      if r.Ok? { StepKeepsQuantity(last.call, u, last.used, r.value); }
    }
  }

  // ----- what the lists say

  predicate Empty(columns: Columns, name: string) { Column(columns, name).GetOr("") == "" }

  lemma {:induction false} ColumnsListed(columns: Columns, names: seq<string>)
    ensures forall name :: name in MissingColumns(columns, names) <==> name in names && Empty(columns, name)
  {
    if names != [] {
      ColumnsListed(columns, names[1..]);
      assert names == [names[0]] + names[1..];
    }
  }

  /** The header list names exactly the required fields that are empty. */
  lemma HeaderListed(q: Request)
    ensures var m := MissingHeader(q);
      && ("device_profession" in m <==> Empty(q.columns, "device_profession"))
      && ("device_name" in m <==> q.deviceName.GetOr("") == "") && ("quantity" in m <==> q.quantity.None?)
      && ("unit" in m <==> q.unit.GetOr("") == "")
      && ("application_reason" in m <==> Empty(q.columns, "application_reason"))
  {
    hide MissingColumns, Column;
    ColumnsListed(q.columns, ["device_profession"]);
    ColumnsListed(q.columns, ["application_reason"]);
  }

  /** The review list names exactly what the round still needs: a price, three texts, a
      supplier by id or name, and the type of a contract that is needed. */
  lemma AdviceListed(r: Review)
    ensures var m := MissingAdvice(r);
      && ("estimated_unit_price" in m <==> r.unitPrice.None?)
      && (forall name :: name in REVIEW_TEXTS ==> (name in m <==> Empty(r.columns, name)))
      && ("proposed_supplier" in m <==> r.supplierId.None? && r.supplierName.GetOr("") == "")
      && ("contract_type" in m <==>
            Column(r.columns, "need_contract") == Some("true") && Empty(r.columns, "contract_type"))
  {
    hide MissingColumns, Column;
    ColumnsListed(r.columns, ["payment_method", "expected_arrival_date", "warranty_info"]);
  }

  const REVIEW_TEXTS := {"payment_method", "expected_arrival_date", "warranty_info"}

  /** The next field to ask for is the first required one that is empty. */
  lemma NextMissing(q: Request)
    requires MissingHeader(q) != []
    ensures MissingHeader(q)[0] ==
      if Empty(q.columns, "device_profession") then "device_profession"
      else if q.deviceName.GetOr("") == "" then "device_name"
      else if q.quantity.None? then "quantity"
      else if q.unit.GetOr("") == "" then "unit"
      else "application_reason"
  {
    hide MissingColumns, Empty;
    FirstListed(q.columns, ["device_profession"]);
    FirstListed(q.columns, ["application_reason"]);
    FirstListed(q.columns, []);
    assert ["device_profession"][1..] == [] && ["application_reason"][1..] == [];
  }

  /** An empty column heads the list of those from it on. */
  lemma FirstListed(columns: Columns, names: seq<string>)
    ensures MissingColumns(columns, names) ==
      if names == [] then []
      else (if Empty(columns, names[0]) then [names[0]] else []) + MissingColumns(columns, names[1..])
  {
    hide Column;
  }

  lemma NextAdvice(r: Review)
    requires MissingAdvice(r) != []
    ensures MissingAdvice(r)[0] ==
      if r.unitPrice.None? then "estimated_unit_price"
      else if Empty(r.columns, "payment_method") then "payment_method"
      else if Empty(r.columns, "expected_arrival_date") then "expected_arrival_date"
      else if Empty(r.columns, "warranty_info") then "warranty_info"
      else if r.supplierId.None? && r.supplierName.GetOr("") == "" then "proposed_supplier"
      else "contract_type"
  {
    hide MissingColumns, Empty, Column;
    var columns, names := r.columns, ["payment_method", "expected_arrival_date", "warranty_info"];
    assert names[1..] == ["expected_arrival_date", "warranty_info"] && names[1..][1..] == ["warranty_info"];
    FirstListed(columns, names);
    FirstListed(columns, names[1..]);
    FirstListed(columns, ["warranty_info"]);
    FirstListed(columns, []);
    assert ["warranty_info"][1..] == [];
  }
}
