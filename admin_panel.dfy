/**
 * The admin panel: the flattened ticket list behind its table, the
 * status / priority / submitter filters, the archived-view switch, row
 * selection, per-ticket field edits and the submitter drop-down.
 */
module AdminPanel {
  import opened Tickets

  /** `allTickets`: the open, in-progress and resolved buckets one after the
      other, a missing bucket read as `[]`. On an array-shaped cell every
      bucket lookup is `undefined`, so the result is empty. */
  function AllTickets(c: Collection): (r: seq<Ticket>)
    ensures c.Flat? ==> r == []
    ensures c.Buckets? ==>
      var open, progress, resolved :=
        BucketOrEmpty(c.byStatus, "open"), BucketOrEmpty(c.byStatus, "in progress"), BucketOrEmpty(c.byStatus, "resolved");
      && |r| == |open| + |progress| + |resolved|
      && r[..|open|] == open
      && r[|open|..|open| + |progress|] == progress
      && r[|open| + |progress|..] == resolved
  {
    match c
    case Flat(_) => []
    case Buckets(b) =>
      BucketOrEmpty(b, "open") + BucketOrEmpty(b, "in progress") + BucketOrEmpty(b, "resolved")
  }

  /** A ticket is in `allTickets` iff it is in one of the three buckets. */
  lemma AllTicketsMembers(b: map<string, seq<Ticket>>, t: Ticket)
    ensures t in AllTickets(Buckets(b)) <==>
      t in BucketOrEmpty(b, "open") || t in BucketOrEmpty(b, "in progress") || t in BucketOrEmpty(b, "resolved")
  {
    var r := AllTickets(Buckets(b));
    var n1, n2 := |BucketOrEmpty(b, "open")|, |BucketOrEmpty(b, "in progress")|;
    assert r == r[..n1] + r[n1..n1 + n2] + r[n1 + n2..];
  }

  // ---------------------------------------------------------------------
  // Filters.

  /** The three drop-downs; `""` selects "All". */
  datatype Filters = Filters(status: string, priority: string, user: string)

  const NoFilters: Filters := Filters("", "", "")

  /** `(!filterStatus || t.status === filterStatus) && …`: an empty filter
      (a falsy string) constrains nothing. */
  predicate Matches(f: Filters, t: Ticket)
    ensures f.status == "" && f.priority == "" && f.user == "" ==> Matches(f, t)
    ensures f.status != "" && f.priority != "" && f.user != "" ==>
      (Matches(f, t) <==> t.status == f.status && t.priority == f.priority && t.submittedBy == f.user)
  {
    && (f.status == "" || t.status == f.status)
    && (f.priority == "" || t.priority == f.priority)
    && (f.user == "" || t.submittedBy == f.user)
  }

  function ApplyFilters(f: Filters, s: seq<Ticket>): (r: seq<Ticket>)
    ensures |r| <= |s|
    ensures forall t :: t in r <==> t in s && Matches(f, t)
  {
    Filter(s, (t: Ticket) => Matches(f, t))
  }

  /** The filtered list is the input with exactly the non-matching tickets
      dropped: same order, and every matching ticket as often as it occurs. */
  lemma ApplyFiltersKeepsOrder(f: Filters, s: seq<Ticket>, t: Ticket)
    ensures IsSubsequence(ApplyFilters(f, s), s)
    ensures multiset(ApplyFilters(f, s))[t] == if Matches(f, t) then multiset(s)[t] else 0
  {
    FilterIsSubsequence(s, (t: Ticket) => Matches(f, t));
    FilterCounts(s, (t: Ticket) => Matches(f, t), t);
  }

  lemma ApplyFiltersIdempotent(f: Filters, s: seq<Ticket>)
    ensures ApplyFilters(f, ApplyFilters(f, s)) == ApplyFilters(f, s)
  {
    FilterIdempotent(s, (t: Ticket) => Matches(f, t));
  }

  /** With every drop-down on "All" the list is shown unchanged. */
  lemma NoFiltersKeepAll(s: seq<Ticket>)
    ensures ApplyFilters(NoFilters, s) == s
  {
    FilterKeepsAll(s, (t: Ticket) => Matches(NoFilters, t));
  }

  /** `activeFiltered`: calls `.filter` on the cell itself. */
  function ActiveFiltered(c: Collection, f: Filters): (r: Result<seq<Ticket>>)
    ensures r.Ok? <==> c.Flat?
    ensures r.Ok? ==> forall t :: t in r.value <==> t in c.items && Matches(f, t)
  {
    match c
    case Flat(items) => Ok(ApplyFilters(f, items))
    case Buckets(_) => TypeError
  }

  /** `filteredTickets`. Both `activeFiltered` and `archivedFiltered` are
      computed on every render, so a bucketed cell throws even when the
      archived view is selected. */
  function FilteredTickets(c: Collection, archived: seq<Ticket>, f: Filters, showArchived: bool): (r: Result<seq<Ticket>>)
    ensures r.Ok? <==> c.Flat?
    ensures r.Ok? && showArchived ==> forall t :: t in r.value <==> t in archived && Matches(f, t)
    ensures r.Ok? && !showArchived ==> forall t :: t in r.value <==> t in c.items && Matches(f, t)
  {
    var activeFiltered := ActiveFiltered(c, f);
    var archivedFiltered := ApplyFilters(f, archived);
    if activeFiltered.TypeError? then TypeError
    else if showArchived then Ok(archivedFiltered)
    else activeFiltered
  }

  /** The two halves of the panel want different shapes of the cell: whenever
      the filters evaluate, the table (which lists `allTickets`) has no rows,
      and whenever the table could have rows, the filters throw. */
  lemma ShapesConflict(c: Collection, archived: seq<Ticket>, f: Filters, showArchived: bool)
    ensures FilteredTickets(c, archived, f, showArchived).Ok? ==> AllTickets(c) == []
    ensures AllTickets(c) != [] ==> FilteredTickets(c, archived, f, showArchived) == TypeError
  {
  }

  // ---------------------------------------------------------------------
  // Row selection.

  /** `toggleSelect`: drop every copy of `id` if it is selected, otherwise
      append it. */
  function ToggleSelect(selected: seq<int>, id: int): (r: seq<int>)
    ensures (id in r) == (id !in selected)
    ensures forall j :: j != id ==> (j in r <==> j in selected)
    ensures id !in selected ==> r == selected + [id]
  {
    if id in selected then Filter(selected, (i: int) => i != id) else selected + [id]
  }

  /** Deselecting keeps the other ids in order and with their multiplicities. */
  lemma ToggleSelectRemoveFrame(selected: seq<int>, id: int, j: int)
    requires id in selected
    ensures IsSubsequence(ToggleSelect(selected, id), selected)
    ensures multiset(ToggleSelect(selected, id))[j] == if j == id then 0 else multiset(selected)[j]
  {
    FilterIsSubsequence(selected, (i: int) => i != id);
    FilterCounts(selected, (i: int) => i != id, j);
  }

  /** Selecting an unselected id and toggling it again restores the selection. */
  lemma ToggleSelectTwice(selected: seq<int>, id: int)
    requires id !in selected
    ensures ToggleSelect(ToggleSelect(selected, id), id) == selected
  {
    var p := (i: int) => i != id;
    FilterConcat(selected, [id], p);
    FilterKeepsAll(selected, p);
    assert Filter([id], p) == [];
  }

  // ---------------------------------------------------------------------
  // Per-ticket edits.

  /** The fields the table's drop-downs edit. */
  datatype Field = Status | Priority | AssignedTo

  function FieldValue(t: Ticket, field: Field): string
  {
    match field
    case Status => t.status
    case Priority => t.priority
    case AssignedTo => t.assignedTo
  }

  /** `{ ...ticket, [field]: value }` */
  function SetField(t: Ticket, field: Field, value: string): (u: Ticket)
    ensures FieldValue(u, field) == value
    ensures forall g :: g != field ==> FieldValue(u, g) == FieldValue(t, g)
  {
    match field
    case Status => t.(status := value)
    case Priority => t.(priority := value)
    case AssignedTo => t.(assignedTo := value)
  }

  /** Writing the old value back gives the old ticket: `SetField` touches
      nothing but `field`. */
  lemma SetFieldRestores(t: Ticket, field: Field, value: string)
    ensures SetField(SetField(t, field, value), field, FieldValue(t, field)) == t
  {
  }

  /** `handleChange(id, field, value)`: maps over the cell as an array. */
  function HandleChange(c: Collection, id: int, field: Field, value: string): (r: Result<Collection>)
    ensures r.Ok? <==> c.Flat?
    ensures r.Ok? ==> r.value.Flat? && |r.value.items| == |c.items|
    ensures r.Ok? ==> forall i :: 0 <= i < |c.items| && c.items[i].id != id ==> r.value.items[i] == c.items[i]
    ensures r.Ok? ==> forall i :: 0 <= i < |c.items| && c.items[i].id == id ==>
      && FieldValue(r.value.items[i], field) == value
      && SetField(r.value.items[i], field, FieldValue(c.items[i], field)) == c.items[i]
  {
    match c
    case Flat(items) => Ok(Flat(UpdateWhere(items, id, (t: Ticket) => SetField(t, field, value))))
    case Buckets(_) => TypeError
  }

  /** After setting a ticket's status, filtering on that status lists it. */
  lemma ChangedTicketMatchesFilter(c: Collection, id: int, value: string, i: int)
    requires c.Flat? && 0 <= i < |c.items| && c.items[i].id == id
    requires value != ""
    ensures HandleChange(c, id, Status, value).Ok?
    ensures var after := HandleChange(c, id, Status, value).value;
      ActiveFiltered(after, Filters(value, "", "")).Ok? &&
      after.items[i] in ActiveFiltered(after, Filters(value, "", "")).value
  {
    var after := HandleChange(c, id, Status, value).value;
    assert FieldValue(after.items[i], Status) == value;
    assert after.items[i] in after.items;
  }

  // ---------------------------------------------------------------------
  // The submitter drop-down.

  function Submitters(s: seq<Ticket>): (r: seq<string>)
    ensures |r| == |s| && forall i :: 0 <= i < |s| ==> r[i] == s[i].submittedBy
  {
    seq(|s|, i requires 0 <= i < |s| => s[i].submittedBy)
  }

  /** `[...new Set(tickets.map(t => t.submittedBy))]`: each submitter once, in
      order of first appearance. */
  function UniqueUsers(c: Collection): (r: Result<seq<string>>)
    ensures r.Ok? <==> c.Flat?
    ensures r.Ok? ==> forall i, j :: 0 <= i < j < |r.value| ==> r.value[i] != r.value[j]
    ensures r.Ok? ==> forall u :: u in r.value <==> exists i :: 0 <= i < |c.items| && c.items[i].submittedBy == u
    ensures r.Ok? ==> IsSubsequence(r.value, Submitters(c.items))
    ensures r.Ok? ==> forall u :: u in r.value ==> u in Submitters(c.items)
    ensures r.Ok? ==> forall i, j :: 0 <= i < j < |r.value| ==>
      FirstIndex(Submitters(c.items), r.value[i]) < FirstIndex(Submitters(c.items), r.value[j])
  {
    match c
    case Flat(items) =>
      var users := Submitters(items);
      var r := DistinctFrom(users, {});
      DistinctFromInOrder(users, {});
      assert forall u :: u in users <==> exists i :: 0 <= i < |items| && items[i].submittedBy == u;
      Ok(r)
    case Buckets(_) => TypeError
  }

  /** Two tickets by "a" around one by "b" list "a" first. */
  lemma UniqueUsersFirstAppearance(t: Ticket)
    ensures var a := t.(submittedBy := "a");
            var b := t.(submittedBy := "b");
            UniqueUsers(Flat([a, b, a])) == Ok(["a", "b"])
  {
    var a := t.(submittedBy := "a");
    var b := t.(submittedBy := "b");
    var users := Submitters([a, b, a]);
    assert users == ["a", "b", "a"];
    assert users[1..] == ["b", "a"] && users[1..][1..] == ["a"];
    assert ["a"][1..] == [];
    assert DistinctFrom(["a"], {"a", "b"}) == [];
    assert ["b", "a"][1..] == ["a"] && {"a"} + {"b"} == {"a", "b"};
    assert DistinctFrom(["b", "a"], {"a"}) == ["b"];
    assert {} + {"a"} == {"a"};
    assert DistinctFrom(users, {}) == ["a", "b"];
  }
}
