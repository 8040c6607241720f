/**
 * The user's ticket board: cancelling and archiving tickets, the three
 * status columns, the submit form's state updaters, the payload sent on
 * submit, and the logout button's storage clean-up.
 */
module TicketBoard {
  import opened Tickets

  /** `{ ...ticket, archived: true }` */
  function MarkArchived(t: Ticket): (r: Ticket)
    ensures r.archived && r.(archived := t.archived) == t
  {
    t.(archived := true)
  }

  // ---------------------------------------------------------------------
  // cancelTicket: treats the cell as an array and maps over it.

  function CancelTicket(c: Collection, id: int): (r: Result<Collection>)
    ensures r.Ok? <==> c.Flat?
    ensures r.Ok? ==> r.value.Flat? && |r.value.items| == |c.items|
    ensures r.Ok? ==> forall i :: 0 <= i < |c.items| ==>
      r.value.items[i] == c.items[i].(archived := c.items[i].archived || c.items[i].id == id)
  {
    match c
    case Flat(items) => Ok(Flat(UpdateWhere(items, id, MarkArchived)))
    case Buckets(_) => TypeError
  }

  /** Cancelling the same id twice is the same as cancelling it once. */
  lemma CancelTicketIdempotent(c: Collection, id: int)
    requires c.Flat?
    ensures CancelTicket(c, id).Ok?
    ensures CancelTicket(CancelTicket(c, id).value, id) == CancelTicket(c, id)
  {
    var once := CancelTicket(c, id).value;
    var twice := CancelTicket(once, id).value;
    assert twice.items == once.items;
  }

  // ---------------------------------------------------------------------
  // archiveTicket: treats the cell as status buckets.

  /** The new value of the bucketed cell: in every bucket, each entry with the
      archived ticket's id is replaced by the archived copy. */
  function ArchiveBuckets(b: map<string, seq<Ticket>>, t: Ticket): (r: map<string, seq<Ticket>>)
    ensures r.Keys == b.Keys
    ensures forall k :: k in b ==> |r[k]| == |b[k]|
    ensures forall k, i :: k in b && 0 <= i < |b[k]| ==>
      r[k][i] == if b[k][i].id == t.id then MarkArchived(t) else b[k][i]
  {
    map k | k in b :: UpdateWhere(b[k], t.id, _ => MarkArchived(t))
  }

  /** What the `setTickets` updater of `archiveTicket` yields. `Object.keys`
      of an empty array is empty, so it yields `{}`; on a non-empty array every
      key names a ticket object, which has no `.map`. */
  function ArchiveUpdate(c: Collection, t: Ticket): (r: Result<Collection>)
    ensures r.Ok? <==> c.Buckets? || c.items == []
    ensures r.Ok? ==> r.value.Buckets?
    ensures c.Buckets? ==> r == Ok(Buckets(ArchiveBuckets(c.byStatus, t)))
    ensures c.Flat? && c.items == [] ==> r == Ok(Buckets(map[]))
  {
    match c
    case Buckets(b) => Ok(Buckets(ArchiveBuckets(b, t)))
    case Flat(items) => if items == [] then Ok(Buckets(map[])) else TypeError
  }

  /** The ticket context's two state cells as the board updates them. */
  class TicketStore {
    var tickets: Collection
    var archivedTickets: seq<Ticket>

    constructor ()
      ensures tickets == InitialTickets && archivedTickets == InitialArchived
    {
      tickets := InitialTickets;
      archivedTickets := InitialArchived;
    }

    /** `archiveTicket`: rebuild every bucket key by key, then append the
        archived copy. A TypeError in the first updater aborts the render,
        so then neither cell changes. */
    method ArchiveTicket(t: Ticket) returns (ok: bool)
      modifies this
      ensures ok == ArchiveUpdate(old(tickets), t).Ok?
      ensures ok ==> tickets == ArchiveUpdate(old(tickets), t).value
      ensures ok ==> archivedTickets == old(archivedTickets) + [MarkArchived(t)]
      ensures !ok ==> tickets == old(tickets) && archivedTickets == old(archivedTickets)
    {
      var updatedTicket := MarkArchived(t);
      match tickets {
        case Flat(items) =>
          if items != [] {
            return false;
          }
          tickets := Buckets(map[]);
        case Buckets(prev) =>
          var updated: map<string, seq<Ticket>> := map[];
          var keys := prev.Keys;
          while keys != {}
            invariant keys <= prev.Keys
            invariant updated.Keys == prev.Keys - keys
            invariant forall k :: k in updated ==> updated[k] == UpdateWhere(prev[k], t.id, _ => updatedTicket)
            decreases keys
          {
            var key :| key in keys;
            updated := updated[key := UpdateWhere(prev[key], t.id, _ => updatedTicket)];
            keys := keys - {key};
          }
          assert updated == ArchiveBuckets(prev, t);
          tickets := Buckets(updated);
      }
      archivedTickets := archivedTickets + [updatedTicket];
      ok := true;
    }
  }

  /** The archived copy also stays in its active bucket, flagged: a ticket can
      sit in a status bucket and in the archive list at once. */
  lemma ArchiveKeepsActiveCopy(b: map<string, seq<Ticket>>, t: Ticket, k: string, i: int)
    requires k in b && 0 <= i < |b[k]| && b[k][i].id == t.id
    ensures k in ArchiveBuckets(b, t) && i < |ArchiveBuckets(b, t)[k]|
    ensures ArchiveBuckets(b, t)[k][i] == MarkArchived(t)
  {
  }

  // ---------------------------------------------------------------------
  // The three board columns.

  /** The column titles, in display order. */
  const BoardStatuses: seq<string> := ["Open", "In Progress", "Resolved"]

  /** `.filter(t => !t.archived)` */
  function ActiveOnly(s: seq<Ticket>): (r: seq<Ticket>)
    ensures |r| <= |s|
    ensures forall x :: x in r <==> x in s && !x.archived
  {
    Filter(s, (t: Ticket) => !t.archived)
  }

  /** What a column shows: the "No tickets found" message, or cards. */
  datatype ColumnView = NoTicketsFound | Cards(shown: seq<Ticket>)

  function CardsOf(v: ColumnView): seq<Ticket>
  {
    match v
    case NoTicketsFound => []
    case Cards(s) => s
  }

  /** The column for `status`: the bucket `status.toLowerCase()` without its
      archived tickets. The emptiness test uses `?.` but the rendering branch
      does not, so a missing bucket (or an array-shaped cell) throws. */
  function BoardColumn(c: Collection, status: string): (r: Result<ColumnView>)
    ensures r.Ok? <==> c.Buckets? && Lower(status) in c.byStatus
    ensures r.Ok? ==> forall x :: x in CardsOf(r.value) <==> x in c.byStatus[Lower(status)] && !x.archived
    ensures r.Ok? ==> (r.value.NoTicketsFound? <==> forall x :: x in c.byStatus[Lower(status)] ==> x.archived)
  {
    match c
    case Flat(_) => TypeError
    case Buckets(b) =>
      var key := Lower(status);
      if key !in b then TypeError
      else
        var visible := ActiveOnly(b[key]);
        if |visible| == 0 then Ok(NoTicketsFound)
        else
          assert visible[0] in visible;
          Ok(Cards(visible))
  }

  /** The cards keep the bucket's order: they are a subsequence of it. */
  lemma ColumnKeepsBucketOrder(b: map<string, seq<Ticket>>, status: string)
    requires Lower(status) in b
    ensures BoardColumn(Buckets(b), status).Ok?
    ensures IsSubsequence(CardsOf(BoardColumn(Buckets(b), status).value), b[Lower(status)])
  {
    FilterIsSubsequence(b[Lower(status)], (t: Ticket) => !t.archived);
  }

  /** The three titles select the buckets "open", "in progress", "resolved". */
  lemma BoardStatusKeys()
    ensures Lower(BoardStatuses[0]) == "open"
    ensures Lower(BoardStatuses[1]) == "in progress"
    ensures Lower(BoardStatuses[2]) == "resolved"
  {
    assert Lower("Open") == "open";
    assert Lower("In Progress") == "in progress";
    assert Lower("Resolved") == "resolved";
  }

  /** After `archiveTicket(t)`, no column shows a card with `t`'s id. */
  lemma ArchivedTicketNotShown(b: map<string, seq<Ticket>>, t: Ticket, status: string)
    requires Lower(status) in b
    ensures ArchiveUpdate(Buckets(b), t).Ok?
    ensures BoardColumn(ArchiveUpdate(Buckets(b), t).value, status).Ok?
    ensures forall x :: x in CardsOf(BoardColumn(ArchiveUpdate(Buckets(b), t).value, status).value) ==> x.id != t.id
  {
    var key := Lower(status);
    var after := ArchiveBuckets(b, t);
    forall x: Ticket | x in after[key] && !x.archived
      ensures x.id != t.id
    {
      var i :| 0 <= i < |after[key]| && after[key][i] == x;
      assert b[key][i].id != t.id;
    }
  }

  // ---------------------------------------------------------------------
  // The submit form.

  /** A value held under one key of the form object. */
  datatype FormValue =
    | Text(text: string)
    | Attached(file: FileRef)
    | Null
    | Undefined
    | Section(fields: map<string, string>)

  type Form = map<string, FormValue>

  /** `form[key]`, `undefined` when the key is absent. */
  function FormField(form: Form, key: string): (v: FormValue)
    ensures key in form ==> v == form[key]
    ensures key !in form ==> v == Undefined
  {
    if key in form then form[key] else Undefined
  }

  /** The form's initial state. */
  const InitialForm: Form := map[
    "requestedBy" := Text(""), "subject" := Text(""), "additionalPeople" := Text(""),
    "msiLocation" := Text(""), "onSiteLocation" := Text(""), "helpType" := Text(""),
    "category" := Text(""), "details" := Text(""), "customerImpacted" := Text(""),
    "screenshot" := Null,
    "onboarding" := Section(map[
      "firstName" := "", "lastName" := "", "startDate" := "", "officeLocation" := "",
      "needsCell" := "", "webtrax" := "", "needsComputer" := "", "sharedInbox" := "",
      "sharedInboxName" := ""]),
    "offboarding" := Section(map["firstName" := "", "lastName" := "", "convertInbox" := ""])]

  /** `handleFormChange`: the input named `name` stores its value, or for the
      screenshot input its first file (`files[0]`, undefined when none). */
  function HandleFormChange(form: Form, name: string, value: string, files: seq<FileRef>): (r: Form)
    ensures r.Keys == form.Keys + {name}
    ensures forall k :: k in form && k != name ==> r[k] == form[k]
    ensures name == "screenshot" && |files| > 0 ==> r[name] == Attached(files[0])
    ensures name == "screenshot" && |files| == 0 ==> r[name] == Undefined
    ensures name != "screenshot" ==> r[name] == Text(value)
  {
    if name == "screenshot" then
      form[name := if |files| > 0 then Attached(files[0]) else Undefined]
    else
      form[name := Text(value)]
  }

  /** `{ ...prev[section] }`: the fields of a section object; anything else
      spreads to `{}`. */
  function SectionFields(form: Form, section: string): (m: map<string, string>)
    ensures section in form && form[section].Section? ==> m == form[section].fields
    ensures !(section in form && form[section].Section?) ==> m == map[]
  {
    if section in form && form[section].Section? then form[section].fields else map[]
  }

  /** `handleNestedChange`: set `form[section][field]` and nothing else. */
  function HandleNestedChange(form: Form, section: string, field: string, value: string): (r: Form)
    ensures r.Keys == form.Keys + {section}
    ensures forall k :: k in form && k != section ==> r[k] == form[k]
    ensures r[section].Section?
    ensures r[section].fields.Keys == SectionFields(form, section).Keys + {field}
    ensures r[section].fields[field] == value
    ensures forall f :: f in SectionFields(form, section) && f != field ==>
      r[section].fields[f] == SectionFields(form, section)[f]
  {
    form[section := Section(SectionFields(form, section)[field := value])]
  }

  /** The body posted on submit. Its keys are `title`, `description`,
      `submitted_by`, `status`, `priority` and `screenshot`. */
  datatype TicketPayload = TicketPayload(
    title: FormValue,
    description: FormValue,
    submittedBy: FormValue,
    status: string,
    priority: string,
    screenshot: FormValue)

  function SubmitPayload(form: Form): (p: TicketPayload)
    ensures p.status == "Open" && p.priority == "Medium" && p.screenshot == Null
    ensures p.title == FormField(form, "subject")
    ensures p.description == FormField(form, "details")
    ensures p.submittedBy == FormField(form, "requestedBy")
  {
    TicketPayload(FormField(form, "subject"), FormField(form, "details"),
                  FormField(form, "requestedBy"), "Open", "Medium", Null)
  }

  /** Typing into the subject, details or requested-by input is what the
      payload then carries; every other input leaves the payload as it was. */
  lemma PayloadFollowsFormChange(form: Form, name: string, value: string, files: seq<FileRef>)
    ensures var p := SubmitPayload(HandleFormChange(form, name, value, files));
      && p.title == (if name == "subject" then Text(value) else SubmitPayload(form).title)
      && p.description == (if name == "details" then Text(value) else SubmitPayload(form).description)
      && p.submittedBy == (if name == "requestedBy" then Text(value) else SubmitPayload(form).submittedBy)
      && p.status == "Open" && p.priority == "Medium" && p.screenshot == Null
  {
  }

  /** Editing an onboarding or offboarding field never reaches the payload. */
  lemma PayloadIgnoresSections(form: Form, section: string, field: string, value: string)
    requires section != "subject" && section != "details" && section != "requestedBy"
    ensures SubmitPayload(HandleNestedChange(form, section, field, value)) == SubmitPayload(form)
  {
  }

  // ---------------------------------------------------------------------
  // Logout.

  /** What a full-page navigation leaves behind: the stored keys and the
      address `window.location.href` was set to. */
  datatype PageLoad = PageLoad(storage: Storage, href: string)

  /** The board's logout removes both session keys, then loads `/login`. */
  function BoardLogout(storage: Storage): (r: PageLoad)
    ensures r.href == "/login"
    ensures "isAuthenticated" !in r.storage && "role" !in r.storage
    ensures r.storage.Keys == storage.Keys - {"isAuthenticated", "role"}
    ensures forall k :: k in r.storage ==> r.storage[k] == storage[k]
  {
    PageLoad(storage - {"isAuthenticated", "role"}, "/login")
  }
}
