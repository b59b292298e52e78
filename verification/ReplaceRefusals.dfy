/** What speaks against a payload of replace_request_items, line by line, including the
    numbers that its lines would get. */
module ReplaceRefusals {
  import opened Common
  import opened Workflow
  import opened Procurement
  import opened Commands
  import opened Invariants
  import opened ItemReplacement

  /** The number of line k: the stored one, the one it asks for, or the next free one. */
  function NumberOf(stored: seq<Item>, lines: seq<ItemInput>, k: nat): nat
    requires k < |lines|
    decreases k, 1
  {
    var line := lines[k];
    if line.itemId.None? then (if line.no.Some? then line.no.value else NextFree(stored, lines, k))
    else if line.itemId.value < |stored| then stored[line.itemId.value].no
    else 0
  }

  /** Above every stored number and every number of a new line before line k. */
  function NextFree(stored: seq<Item>, lines: seq<ItemInput>, k: nat): (no: nat)
    requires k <= |lines|
    ensures forall i :: 0 <= i < |stored| ==> stored[i].no < no
    decreases k, 0
  {
    if k == 0 then MaxNo(stored) + 1
    else
      var before := NextFree(stored, lines, k - 1);
      var no := NumberOf(stored, lines, k - 1);
      if lines[k - 1].itemId.None? && no >= before then no + 1 else before
  }

  predicate IsNumber(stored: seq<Item>, lines: seq<ItemInput>, j: nat, no: nat) {
    j < |lines| && NumberOf(stored, lines, j) == no
  }

  /** A line before line k has this number. */
  predicate Taken(stored: seq<Item>, lines: seq<ItemInput>, k: nat, no: nat) {
    exists j: nat :: j < k && IsNumber(stored, lines, j, no)
  }

  predicate AgainstEntry(e: ErrorCode, w: World, stored: seq<Item>, lines: seq<ItemInput>, k: nat)
    requires k < |lines|
  {
    var line := lines[k];
    match e
    case EquipmentModelNotFound => line.model.Some? && line.model.value !in w.models
    case ModelCategoryMismatch =>
      && line.model.Some? && line.model.value in w.models && line.category.Some?
      && w.models[line.model.value] != line.category.value
    case RequestItemNotFound => line.itemId.Some? && line.itemId.value >= |stored|
    case ValidationError =>
      || (line.kind == Service && line.warehouse == Some(true))
      || (line.itemId.Some? && line.itemId.value < |stored| && line.no.Some?
          && line.no.value != stored[line.itemId.value].no)
      || ((line.itemId.Some? ==> line.itemId.value < |stored|)
          && Taken(stored, lines, k, NumberOf(stored, lines, k)))
    case _ => false
  }

  /** The loop state before line k. */
  predicate Reached(stored: seq<Item>, lines: seq<ItemInput>, k: nat, d: LineState) {
    && k <= |lines| && |stored| <= |d.items| && (forall i :: 0 <= i < |stored| ==> d.items[i].no == stored[i].no)
    && d.nextNo == NextFree(stored, lines, k) && d.seen == Numbers(stored, lines, k)
  }

  lemma EntryExactly(w: World, request: nat, stored: seq<Item>, lines: seq<ItemInput>, k: nat, d: LineState)
    requires k < |lines| && Reached(stored, lines, k, d)
    ensures var r := ReplaceLine(w, request, |stored|, d, lines[k]);
      && (r.Ok? ==> Reached(stored, lines, k + 1, r.value) && forall e :: !AgainstEntry(e, w, stored, lines, k))
      && (r.Err? ==> AgainstEntry(r.error, w, stored, lines, k))
  {
    hide NextFree, Numbers;
    NumberIs(stored, lines, k);
    var r := ReplaceLine(w, request, |stored|, d, lines[k]);
    NextAfter(stored, lines, k);
    NumbersAre(stored, lines, k, NumberOf(stored, lines, k));
  }

  lemma NumberIs(stored: seq<Item>, lines: seq<ItemInput>, k: nat)
    requires k < |lines|
    ensures var line, no := lines[k], NumberOf(stored, lines, k);
      && (line.itemId.None? ==> no == line.no.GetOr(NextFree(stored, lines, k)))
      && (line.itemId.Some? && line.itemId.value < |stored| ==> no == stored[line.itemId.value].no)
    ensures Numbers(stored, lines, k + 1) == Numbers(stored, lines, k) + {NumberOf(stored, lines, k)}
  {}

  lemma NextAfter(stored: seq<Item>, lines: seq<ItemInput>, k: nat)
    requires k < |lines|
    ensures var before, no := NextFree(stored, lines, k), NumberOf(stored, lines, k);
      NextFree(stored, lines, k + 1) == if lines[k].itemId.None? && no >= before then no + 1 else before
  {}

  /** The numbers of the first k lines. */
  function Numbers(stored: seq<Item>, lines: seq<ItemInput>, k: nat): set<nat>
    requires k <= |lines|
  {
    if k == 0 then {} else Numbers(stored, lines, k - 1) + {NumberOf(stored, lines, k - 1)}
  }

  lemma {:induction false} NumbersAre(stored: seq<Item>, lines: seq<ItemInput>, k: nat, no: nat)
    requires k <= |lines|
    ensures no in Numbers(stored, lines, k) <==> Taken(stored, lines, k, no)
  {
    hide NextFree;
    if k > 0 {
      NumbersAre(stored, lines, k - 1, no);
      if NumberOf(stored, lines, k - 1) == no { assert IsNumber(stored, lines, k - 1, no); }
    }
  }

  /** The loop passes if and only if nothing speaks against any line. */
  lemma {:induction false} PayloadExactly(w: World, request: nat, stored: seq<Item>, lines: seq<ItemInput>, k: nat,
                                          d: LineState)
    requires Reached(stored, lines, k, d)
    ensures var r := ReplaceLines(w, request, |stored|, d, lines[k..]);
      && (r.Ok? ==> forall e, j :: k <= j < |lines| ==> !AgainstEntry(e, w, stored, lines, j))
      && (r.Err? ==> exists j :: k <= j < |lines| && AgainstEntry(r.error, w, stored, lines, j))
    decreases |lines| - k
  {
    hide AgainstEntry, ReplaceLine, NextFree, NumberOf;
    if k < |lines| {
      EntryExactly(w, request, stored, lines, k, d);
      assert lines[k..][0] == lines[k] && lines[k..][1..] == lines[k + 1..];
      var first := ReplaceLine(w, request, |stored|, d, lines[k]);
      if first.Ok? { PayloadExactly(w, request, stored, lines, k + 1, first.value); }
    }
  }

  predicate AgainstReplace(e: ErrorCode, c: Call, s: Aggregate)
    requires c.command.ReplaceItems?
  {
    var q, lines := s.request, c.command.lines;
    || (exists k :: 0 <= k < |lines| && AgainstEntry(e, c.world, s.items, lines, k))
    || match e
       case ValidationError =>
         lines == [] || exists k :: 0 <= k < |lines| && (lines[k].quantity == 0 || lines[k].no == Some(0))
       case InvalidStatus => q.status !in {Status.Draft, Rejected}
       case PermissionDenied => q.applicant != c.actor || !c.world.HasRole(c.actor, Applicant)
       case ConcurrentModification => c.expected != q.version
       case AssetNotFound => c.command.asset.Put? && AssetGiven(c.command) !in c.world.assets && NamesAsset(c.command)
       case BuildingNotAllowed =>
         && NamesAsset(c.command) && AssetGiven(c.command) in c.world.assets
         && c.world.assets[AssetGiven(c.command)] != q.building && !c.world.HasRole(c.actor, Admin)
       case IntegrityError => AsksForStoredNumber(s.items, lines)
       case _ => false
  }

  predicate NamesAsset(x: Command) { x.ReplaceItems? && x.asset.Put? && x.asset.value.Some? }

  function AssetGiven(x: Command): nat { if NamesAsset(x) then x.asset.value.value else 0 }

  lemma ReplaceExactly(c: Call, s: Aggregate, used: set<string>)
    requires ItemsOk(s) && c.command.ReplaceItems?
    ensures Exec(c, s, used).Ok? ==> forall e :: !AgainstReplace(e, c, s)
    ensures Exec(c, s, used).Err? ==> AgainstReplace(Exec(c, s, used).error, c, s)
  {
    hide Actives, AgainstEntry, ReplaceLines, MaxNo, Deactivate, AsksForStoredNumber, DistinctNumbers, Reached;
    var lines, d := c.command.lines, StartLines(s.items);
    assert Reached(s.items, lines, 0, d) by { StartReached(s.items, lines); }
    assert lines[0..] == lines;
    PayloadExactly(c.world, s.request.id, s.items, lines, 0, d);
    var r := ReplaceLines(c.world, s.request.id, |s.items|, d, lines);
    if r.Ok? { UniqueIndexFiresExactly(c.world, s.request.id, s.items, lines, r.value); }
  }

  lemma StartReached(stored: seq<Item>, lines: seq<ItemInput>)
    ensures Reached(stored, lines, 0, StartLines(stored))
  {}
}
