/** ItemsOk is kept: by the two commands that edit items, and by the others
    because they leave items alone and cannot advance an empty draft. */
module ItemInvariant {
  import opened Common
  import opened Workflow
  import opened Procurement
  import opened Commands
  import opened Effects
  import opened Invariants
  import opened ItemReplacement

  lemma {:induction false} LoopRowsOk(w: World, request: nat, before: nat, d: LineState, lines: seq<ItemInput>,
                                      d': LineState)
    requires before <= |d.items| && d.nextNo > 0
    requires forall i :: 0 <= i < |d.items| ==> RowOk(d.items[i], request)
    requires forall k :: 0 <= k < |lines| ==> lines[k].quantity > 0 && lines[k].no != Some(0)
    requires ReplaceLines(w, request, before, d, lines) == Ok(d')
    ensures forall i :: 0 <= i < |d'.items| ==> RowOk(d'.items[i], request)
    decreases |lines|
  {
    if lines != [] {
      var d1 := ReplaceLine(w, request, before, d, lines[0]).value;
      assert forall k :: 0 <= k < |lines[1..]| ==> lines[1..][k] == lines[k + 1];
      LoopRowsOk(w, request, before, d1, lines[1..], d');
    }
  }

  lemma ReplaceKeepsItems(w: World, actor: nat, expected: nat, s: Aggregate, requestType: Option<RequestType>,
                          asset: Patch<nat>, lines: seq<ItemInput>, t: Aggregate)
    requires ItemsOk(s) && SchemaOk(ReplaceItems(requestType, asset, lines))
    requires DoReplaceItems(w, actor, expected, s, requestType, asset, lines) == Ok(t)
    requires t.request.id == s.request.id
    ensures ItemsOk(t)
  {
    hide DoReplaceItems, DistinctNumbers, ReplaceLines, ExactlyThePayload, AutomaticFrom, Actives;
    ReplacementLoop(w, actor, expected, s, requestType, asset, lines, t);
    ReplacementMeaning(w, actor, expected, s, requestType, asset, lines, t);
    var d' := ReplaceLines(w, s.request.id, |s.items|, StartLines(s.items), lines).value;
    LoopRowsOk(w, s.request.id, |s.items|, StartLines(s.items), lines, d');
    SomeRowActive(s.items, lines, t.items);
  }

  lemma SomeRowActive(before: seq<Item>, lines: seq<ItemInput>, items: seq<Item>)
    requires ExactlyThePayload(before, lines, items) && lines != []
    ensures Actives(items) != []
  {
    assert RowOf(|before|, lines, 0) in Actives(items);
  }

  /** The legacy path inserts number 1 only when there is no row at all, so the
      number is free; otherwise it edits the one active row in place. */
  lemma MirrorKeepsItems(q: Request, items: seq<Item>)
    requires forall i :: 0 <= i < |items| ==> RowOk(items[i], q.id)
    requires DistinctNumbers(items) && (Actives(items) == [] ==> items == [])
    ensures DistinctNumbers(MirrorItem(q, items))
    ensures forall i :: 0 <= i < |MirrorItem(q, items)| ==> RowOk(MirrorItem(q, items)[i], q.id)
    ensures items != [] ==> Actives(MirrorItem(q, items)) == Actives(items)
    ensures Actives(MirrorItem(q, items)) == [] ==> MirrorItem(q, items) == []
  {
    hide MirroredColumns, Actives, DistinctNumbers;
    var items' := MirrorItem(q, items);
    if items' != items {
      if items == [] { OneRow(items'); }
      else {
        var i := Actives(items)[0];
        EditKeepsRows(items, i, items'[i]);
      }
    }
  }

  lemma OneRow(items: seq<Item>)
    requires |items| == 1 && items[0].active
    ensures DistinctNumbers(items) && Actives(items) != []
  {
    assert 0 in Actives(items);
  }

  /** Editing a row in place, but not its number or its flag. */
  lemma EditKeepsRows(items: seq<Item>, i: nat, item: Item)
    requires i < |items| && item.no == items[i].no && item.active == items[i].active && DistinctNumbers(items)
    ensures DistinctNumbers(items[i := item]) && Actives(items[i := item]) == Actives(items)
  {
    hide Actives;
    SameActives(items, items[i := item]);
  }

  lemma {:induction false} SameActives(a: seq<Item>, b: seq<Item>)
    requires |a| == |b| && forall i :: 0 <= i < |a| ==> a[i].active == b[i].active
    ensures Actives(a) == Actives(b)
  {
    if a != [] { SameActives(a[..|a| - 1], b[..|b| - 1]); }
  }

  lemma ApplicantFieldsKeepItems(w: World, actor: nat, expected: nat, s: Aggregate,
                                 name: Patch<string>, quantity: Patch<nat>, unit: Patch<string>,
                                 columns: Columns, t: Aggregate)
    requires ItemsOk(s) && CustodyOk(s.request)
    requires DoSaveApplicantFields(w, actor, expected, s, name, quantity, unit, columns) == Ok(t)
    ensures ItemsOk(t)
  {
    hide DistinctNumbers, MirrorItem, Actives;
    var q := s.request;
    var header := EditedHeader(q.(version := q.version + 1), name, quantity, unit, columns);
    assert t.items == MirrorItem(header, s.items);
    MirrorKeepsItems(header, s.items);
  }

  /** save_applicant_fields never meets the unique index. */
  lemma LegacyInsertNeverClashes(w: World, actor: nat, expected: nat, s: Aggregate,
                                 name: Patch<string>, quantity: Patch<nat>, unit: Patch<string>, columns: Columns)
    requires ItemsOk(s)
    ensures DoSaveApplicantFields(w, actor, expected, s, name, quantity, unit, columns) != Err(IntegrityError)
  {
    hide DistinctNumbers, MirrorItem, Actives;
    var q := s.request;
    var header := EditedHeader(q.(version := q.version + 1), name, quantity, unit, columns);
    MirrorKeepsItems(header, s.items);
  }

  lemma StepKeepsItems(c: Call, s: Aggregate, used: set<string>, t: Aggregate)
    requires ItemsOk(s) && CustodyOk(s.request) && Exec(c, s, used) == Ok(t)
    ensures ItemsOk(t)
  {
    hide Actives, DistinctNumbers, DoReplaceItems, DoSaveApplicantFields;
    ExecEffects(c, s, t, used);
    if c.command.ReplaceItems? {
      ReplaceKeepsItems(c.world, c.actor, c.expected, s, c.command.requestType, c.command.asset, c.command.lines, t);
    } else if c.command.SaveApplicantFields? {
      var edit := c.command;
      ApplicantFieldsKeepItems(c.world, c.actor, c.expected, s, edit.name, edit.quantity, edit.unit, edit.columns, t);
    } else {
      assert t.items == s.items;
      if Actives(s.items) == [] { OnlySubmitLeavesDraft(c, s, used, t); }
    }
  }

  /** An empty draft stays a draft. */
  lemma OnlySubmitLeavesDraft(c: Call, s: Aggregate, used: set<string>, t: Aggregate)
    requires Exec(c, s, used) == Ok(t) && s.request.status == Status.Draft && Actives(s.items) == []
    ensures t.request.status == Status.Draft
  {
    hide DoReplaceItems, DoSaveApplicantFields, DoSaveReviewItems, DoSaveReviewFields, DoReject, DoSendToPurchaser,
      DoBeginPurchase, DoSavePurchaseItem, DoSendToWarehouse, DoAppendReceipt, DoFinish, LegacyToken, Transition;
    ExecEffects(c, s, t, used);
  }
}
