/** Normalising one triggered run's output into result rows
    (`ui/backend/automation_results.py`), whatever the model wrote. */
module Normalize {
  import opened Basics
  import F = RetryFamily

  type Uid = int

  type SourceKey = F.SourceKey

  datatype ItemStatus = Processed | NeedsAttention | Skipped | ItemError
  datatype Priority = Routine | Raised | PossibleEmergency | UnknownPriority

  /** One item of a valid envelope. `messageId` is still unstripped. */
  datatype Item = Item(messageId: int, status: ItemStatus, priority: Priority, needsHuman: bool, claimsDraft: bool, body: int)

  /** What the output turns out to be: no object carrying the batch marker, an envelope that
      fails validation, or a valid one. */
  datatype Output = NoMarker | Invalid | Valid(items: seq<Item>)

  /** `trigger_context` and the run's org. `declared` is the contract stamped at dispatch. */
  datatype Context = Context(isEmail: bool, hasOrg: bool, declared: bool, credential: int, validity: int, uids: seq<Uid>)

  /** The evidence of the run's own trace. */
  datatype Evidence = Evidence(confirmed: set<Uid>, failed: set<Uid>, strip: int -> Uid)

  datatype Row = Row(status: ItemStatus, attention: bool, drafted: bool, body: Option<int>)

  /** One run's result rows, under the table's unique (run, source key). */
  type Results = map<SourceKey, Row>

  function KeyOf(c: Context, u: Uid): SourceKey { F.SourceKey(c.credential, c.validity, u) }

  /** Whether normalisation writes anything for this run at all. */
  predicate Engages(c: Context, o: Output) {
    c.isEmail && c.hasOrg && c.uids != [] && (o.NoMarker? ==> c.declared)
  }

  // ------------------------------------------------------------------ what a row should say

  /** The first item of the envelope that names the message. */
  function FirstItem(strip: int -> Uid, items: seq<Item>, u: Uid): Option<Item> {
    if items == [] then None else if strip(items[0].messageId) == u then Some(items[0]) else FirstItem(strip, items[1..], u)
  }

  predicate AlwaysNeedsAttention(p: Priority) { p == PossibleEmergency || p == UnknownPriority }

  function ErrorRow(e: Evidence, u: Uid): Row { Row(ItemError, true, u in e.confirmed, None) }

  function ItemRow(e: Evidence, i: Item): Row {
    var u := e.strip(i.messageId);
    Row(i.status,
        i.needsHuman || i.status == NeedsAttention || i.status == ItemError || AlwaysNeedsAttention(i.priority) || (i.claimsDraft && u !in e.confirmed) || u in e.failed,
        if i.claimsDraft && u !in e.confirmed then false else if !i.claimsDraft && u in e.confirmed then true else i.claimsDraft,
        Some(i.body))
  }

  function RowFor(e: Evidence, o: Output, u: Uid): Row {
    if o.Valid? && FirstItem(e.strip, o.items, u).Some? then ItemRow(e, FirstItem(e.strip, o.items, u).value) else ErrorRow(e, u)
  }

  /** The messages of the batch with no row yet, in batch order. */
  function Missing(c: Context, existing: Results): seq<Uid> { MissingFrom(c, existing, c.uids) }

  function MissingFrom(c: Context, existing: Results, uids: seq<Uid>): seq<Uid> {
    if uids == [] then []
    else
      var n := |uids| - 1;
      MissingFrom(c, existing, uids[..n]) + (if KeyOf(c, uids[n]) in existing then [] else [uids[n]])
  }

  /** The table after one call. A batch naming a message twice breaks the unique constraint, and
      the swallowed failure writes nothing. */
  function Normalized(existing: Results, c: Context, o: Output, e: Evidence): Results {
    if !Engages(c, o) || !Distinct(Missing(c, existing)) then existing
    else WithRows(existing, c, o, e, Missing(c, existing))
  }

  function KeysOf(c: Context, uids: seq<Uid>): set<SourceKey> { set u | u in uids :: KeyOf(c, u) }

  function WithRows(existing: Results, c: Context, o: Output, e: Evidence, uids: seq<Uid>): Results {
    map k | k in existing.Keys + KeysOf(c, uids) :: if k in existing then existing[k] else RowFor(e, o, k.uid)
  }

  // ------------------------------------------------------------------ the code

  /** `item_by_uid`: items outside the batch ignored, a second item for a message too. */
  method ItemsByUid(c: Context, strip: int -> Uid, items: seq<Item>) returns (byUid: map<Uid, Item>)
    ensures forall u :: u in byUid <==> u in c.uids && FirstItem(strip, items, u).Some?
    ensures forall u :: u in byUid ==> byUid[u] == FirstItem(strip, items, u).value
  {
    byUid := map[];
    for i := 0 to |items|
      invariant forall u :: u in byUid <==> u in c.uids && FirstItem(strip, items[..i], u).Some?
      invariant forall u :: u in byUid ==> byUid[u] == FirstItem(strip, items[..i], u).value
    {
      var id := strip(items[i].messageId);
      forall u ensures FirstItem(strip, items[..i + 1], u) ==
        if FirstItem(strip, items[..i], u).Some? then FirstItem(strip, items[..i], u) else if id == u then Some(items[i]) else None {
        assert items[..i + 1] == items[..i] + [items[i]];
        FirstAppend(strip, items[..i], items[i], u);
      }
      if id !in c.uids {
        continue;
      }
      if id in byUid {
        continue;
      }
      byUid := byUid[id := items[i]];
    }
    assert items[..|items|] == items;
  }

  lemma {:induction false} FirstAppend(strip: int -> Uid, items: seq<Item>, x: Item, u: Uid)
    ensures FirstItem(strip, items + [x], u) ==
      if FirstItem(strip, items, u).Some? then FirstItem(strip, items, u) else if strip(x.messageId) == u then Some(x) else None
  {
    if items == [] {
      assert items + [x] == [x] && [x][1..] == [];
    } else {
      assert (items + [x])[1..] == items[1..] + [x];
      FirstAppend(strip, items[1..], x, u);
    }
  }

  /** `rows_to_add` against the constraint: all of them, or none. */
  method Commit(existing: Results, rows: seq<(SourceKey, Row)>) returns (after: Results)
    ensures after == if UniqueKeys(existing, rows) then Added(existing, rows) else existing
  {
    after := existing;
    for i := 0 to |rows|
      invariant UniqueKeys(existing, rows[..i]) && after == Added(existing, rows[..i])
    {
      assert rows[..i + 1] == rows[..i] + [rows[i]];
      AddedAppend(existing, rows[..i], rows[i]);
      if rows[i].0 in after {
        return existing;
      }
      after := after[rows[i].0 := rows[i].1];
    }
    assert rows[..|rows|] == rows;
  }

  predicate UniqueKeys(existing: Results, rows: seq<(SourceKey, Row)>) {
    (forall i :: 0 <= i < |rows| ==> rows[i].0 !in existing) && forall i, j :: 0 <= i < j < |rows| ==> rows[i].0 != rows[j].0
  }

  function Added(existing: Results, rows: seq<(SourceKey, Row)>): Results {
    if rows == [] then existing else Added(existing, rows[..|rows| - 1])[rows[|rows| - 1].0 := rows[|rows| - 1].1]
  }

  lemma {:induction false} AddedAppend(existing: Results, rows: seq<(SourceKey, Row)>, r: (SourceKey, Row))
    ensures Added(existing, rows + [r]) == Added(existing, rows)[r.0 := r.1]
    ensures forall k :: k in Added(existing, rows) <==> k in existing || exists i :: 0 <= i < |rows| && rows[i].0 == k
  {
    assert (rows + [r])[..|rows|] == rows;
    AddedKeys(existing, rows);
  }

  lemma {:induction false} AddedKeys(existing: Results, rows: seq<(SourceKey, Row)>)
    ensures forall k :: k in Added(existing, rows) <==> k in existing || exists i :: 0 <= i < |rows| && rows[i].0 == k
  {
    if rows != [] { AddedKeys(existing, rows[..|rows| - 1]); }
  }

  /** The rows for a list of messages, in order. */
  function RowsFor(c: Context, o: Output, e: Evidence, uids: seq<Uid>): seq<(SourceKey, Row)> {
    seq(|uids|, i requires 0 <= i < |uids| => (KeyOf(c, uids[i]), RowFor(e, o, uids[i])))
  }

  method RowsToAdd(existing: Results, c: Context, o: Output, e: Evidence) returns (rows: seq<(SourceKey, Row)>)
    ensures rows == RowsFor(c, o, e, Missing(c, existing))
  {
    var byUid := map[];
    if o.Valid? {
      byUid := ItemsByUid(c, e.strip, o.items);
    }
    rows := [];
    for i := 0 to |c.uids|
      invariant rows == RowsFor(c, o, e, MissingFrom(c, existing, c.uids[..i]))
    {
      var u := c.uids[i];
      assert c.uids[..i + 1][..i] == c.uids[..i];
      if KeyOf(c, u) in existing {
        continue;
      }
      RowsAppend(c, o, e, MissingFrom(c, existing, c.uids[..i]), u);
      rows := rows + [(KeyOf(c, u), if u in byUid then ItemRow(e, byUid[u]) else ErrorRow(e, u))];
    }
    assert c.uids[..|c.uids|] == c.uids;
  }

  lemma RowsAppend(c: Context, o: Output, e: Evidence, uids: seq<Uid>, u: Uid)
    ensures RowsFor(c, o, e, uids + [u]) == RowsFor(c, o, e, uids) + [(KeyOf(c, u), RowFor(e, o, u))]
  {}

  method NormalizeRun(existing: Results, c: Context, o: Output, e: Evidence) returns (after: Results)
    ensures after == Normalized(existing, c, o, e)
  {
    if !c.isEmail || !c.hasOrg || c.uids == [] {
      return existing;
    }
    if o.NoMarker? && !c.declared {
      return existing;
    }
    var rows := RowsToAdd(existing, c, o, e);
    var missing := Missing(c, existing);
    MissingIsMissing(c, existing, c.uids);
    after := Commit(existing, rows);
    RowsAdded(existing, c, o, e, missing);
  }

  lemma {:induction false} MissingIsMissing(c: Context, existing: Results, uids: seq<Uid>)
    ensures forall u :: u in MissingFrom(c, existing, uids) <==> u in uids && KeyOf(c, u) !in existing
  {
    if uids != [] {
      var n := |uids| - 1;
      MissingIsMissing(c, existing, uids[..n]);
      assert forall u :: u in uids <==> u in uids[..n] || u == uids[n];
    }
  }

  lemma RowsAdded(existing: Results, c: Context, o: Output, e: Evidence, uids: seq<Uid>)
    requires forall u :: u in uids ==> KeyOf(c, u) !in existing
    ensures UniqueKeys(existing, RowsFor(c, o, e, uids)) <==> Distinct(uids)
    ensures Added(existing, RowsFor(c, o, e, uids)) == WithRows(existing, c, o, e, uids)
  {
    UniqueIffDistinct(existing, c, o, e, uids);
    AddedIs(existing, c, o, e, uids);
  }

  lemma UniqueIffDistinct(existing: Results, c: Context, o: Output, e: Evidence, uids: seq<Uid>)
    requires forall u :: u in uids ==> KeyOf(c, u) !in existing
    ensures UniqueKeys(existing, RowsFor(c, o, e, uids)) <==> Distinct(uids)
  {
    var rows := RowsFor(c, o, e, uids);
    forall i | 0 <= i < |uids| ensures rows[i].0 == KeyOf(c, uids[i]) && rows[i].0 !in existing { assert uids[i] in uids; }
    if UniqueKeys(existing, rows) {
      forall i, j | 0 <= i < j < |uids| ensures uids[i] != uids[j] { assert rows[i].0 != rows[j].0; }
    }
  }

  lemma {:induction false} AddedIs(existing: Results, c: Context, o: Output, e: Evidence, uids: seq<Uid>)
    requires forall u :: u in uids ==> KeyOf(c, u) !in existing
    ensures Added(existing, RowsFor(c, o, e, uids)) == WithRows(existing, c, o, e, uids)
    decreases |uids|
  {
    if uids != [] {
      var n := |uids| - 1;
      AddedIs(existing, c, o, e, uids[..n]);
      RowsAppend(c, o, e, uids[..n], uids[n]);
      assert uids == uids[..n] + [uids[n]];
      AddedAppend(existing, RowsFor(c, o, e, uids[..n]), (KeyOf(c, uids[n]), RowFor(e, o, uids[n])));
      WithOneMore(existing, c, o, e, uids[..n], uids[n]);
    }
  }

  lemma WithOneMore(existing: Results, c: Context, o: Output, e: Evidence, uids: seq<Uid>, u: Uid)
    requires KeyOf(c, u) !in existing
    ensures WithRows(existing, c, o, e, uids + [u]) == WithRows(existing, c, o, e, uids)[KeyOf(c, u) := RowFor(e, o, u)]
  {}

  // ------------------------------------------------------------------ the promises

  /** Once it engages, every message of the batch has exactly one row and no other row appears
      -- exactly when the batch does not name a message still missing twice. */
  lemma OneRowEachIff(existing: Results, c: Context, o: Output, e: Evidence)
    requires Engages(c, o)
    ensures Normalized(existing, c, o, e).Keys == existing.Keys + KeysOf(c, c.uids) <==> Distinct(Missing(c, existing))
    ensures existing.Keys <= Normalized(existing, c, o, e).Keys <= existing.Keys + KeysOf(c, c.uids)
    ensures forall k :: k in existing ==> Normalized(existing, c, o, e)[k] == existing[k]
  {
    MissingIsMissing(c, existing, c.uids);
    var missing := Missing(c, existing);
    MissingKeys(c, existing);
    if !Distinct(missing) {
      assert missing[0] in missing;
      assert KeyOf(c, missing[0]) in KeysOf(c, c.uids);
    }
  }

  lemma MissingKeys(c: Context, existing: Results)
    ensures existing.Keys + KeysOf(c, Missing(c, existing)) == existing.Keys + KeysOf(c, c.uids)
  {
    MissingIsMissing(c, existing, c.uids);
    forall u | u in c.uids ensures KeyOf(c, u) in existing.Keys + KeysOf(c, Missing(c, existing)) {
      if KeyOf(c, u) !in existing { assert u in Missing(c, existing); }
    }
  }

  /** A new row's draft flag is the trace's word, whatever the envelope claimed. */
  lemma DraftFlagIsConfirmed(existing: Results, c: Context, o: Output, e: Evidence, k: SourceKey)
    requires k !in existing && k in Normalized(existing, c, o, e)
    ensures k == KeyOf(c, k.uid) && k.uid in c.uids && Normalized(existing, c, o, e)[k] == RowFor(e, o, k.uid)
    ensures Normalized(existing, c, o, e)[k].drafted <==> k.uid in e.confirmed
  {
    MissingIsMissing(c, existing, c.uids);
    if o.Valid? { FirstIsNamed(e.strip, o.items, k.uid); }
  }

  /** A message the envelope leaves out, an unsafe priority, a failed tool call or a draft
      claimed without evidence always needs a person. */
  lemma AttentionIsForced(e: Evidence, o: Output, u: Uid)
    ensures RowFor(e, o, u).attention <==>
      (!o.Valid? || FirstItem(e.strip, o.items, u).None?
       || var i := FirstItem(e.strip, o.items, u).value;
          i.needsHuman || i.status in {NeedsAttention, ItemError} || AlwaysNeedsAttention(i.priority)
          || (i.claimsDraft && u !in e.confirmed) || u in e.failed)
  {
    if o.Valid? { FirstIsNamed(e.strip, o.items, u); }
  }

  lemma {:induction false} FirstIsNamed(strip: int -> Uid, items: seq<Item>, u: Uid)
    ensures FirstItem(strip, items, u).Some? ==> FirstItem(strip, items, u).value in items && strip(FirstItem(strip, items, u).value.messageId) == u
  {
    if items != [] { FirstIsNamed(strip, items[1..], u); }
  }

  /** A repeated call changes nothing, even with another output and other evidence. */
  lemma RepeatChangesNothing(existing: Results, c: Context, o: Output, e: Evidence, o': Output, e': Evidence)
    requires Engages(c, o)
    ensures Normalized(Normalized(existing, c, o, e), c, o', e') == Normalized(existing, c, o, e)
  {
    var after := Normalized(existing, c, o, e);
    OneRowEachIff(existing, c, o, e);
    if !Distinct(Missing(c, existing)) {
      return;
    }
    forall u | u in c.uids ensures KeyOf(c, u) in after { assert KeyOf(c, u) in KeysOf(c, c.uids); }
    NothingMissing(c, after, c.uids);
    if Engages(c, o') {
      assert KeysOf(c, []) == {};
      assert WithRows(after, c, o', e', []) == after;
    }
  }

  lemma {:induction false} NothingMissing(c: Context, existing: Results, uids: seq<Uid>)
    requires forall u :: u in uids ==> KeyOf(c, u) in existing
    ensures MissingFrom(c, existing, uids) == []
  {
    if uids != [] { NothingMissing(c, existing, uids[..|uids| - 1]); }
  }

  /** A batch of distinct messages never runs into the constraint. */
  lemma {:induction false} DistinctBatch(c: Context, existing: Results, uids: seq<Uid>)
    requires Distinct(uids)
    ensures Distinct(MissingFrom(c, existing, uids))
  {
    if uids != [] {
      var n := |uids| - 1;
      DistinctBatch(c, existing, uids[..n]);
      MissingIsMissing(c, existing, uids[..n]);
      assert uids[n] !in uids[..n];
    }
  }
}
