/**
 * The admin dashboard: live counts of unarchived tickets per bucket (shown
 * as stats cards and a pie chart), the corporate-register form, the dark
 * mode switch and logout.
 */
module AdminDashboard {
  import opened Tickets
  import TicketBoard
  import App

  /** `bucket.filter(t => !t.archived).length` */
  function CountActive(bucket: seq<Ticket>): (n: nat)
    ensures n <= |bucket|
  {
    |TicketBoard.ActiveOnly(bucket)|
  }

  /** A reference count of the unarchived tickets, one by one. */
  function NumUnarchived(s: seq<Ticket>): nat
  {
    if s == [] then 0 else (if s[0].archived then 0 else 1) + NumUnarchived(s[1..])
  }

  lemma {:induction false} CountActiveIsNumUnarchived(s: seq<Ticket>)
    ensures CountActive(s) == NumUnarchived(s)
  {
    if s != [] {
      CountActiveIsNumUnarchived(s[1..]);
    }
  }

  datatype Counts = Counts(open: nat, inProgress: nat, resolved: nat)

  /** `openCount`, `inProgressCount`, `resolvedCount`. The buckets are read
      without `?.`, so a missing bucket or an array-shaped cell throws. */
  function DashboardCounts(c: Collection): (r: Result<Counts>)
    ensures r.Ok? <==> c.Buckets? && "open" in c.byStatus && "in progress" in c.byStatus && "resolved" in c.byStatus
    ensures r.Ok? ==> && r.value.open == CountActive(c.byStatus["open"])
                      && r.value.inProgress == CountActive(c.byStatus["in progress"])
                      && r.value.resolved == CountActive(c.byStatus["resolved"])
    ensures r.Ok? ==> && r.value.open <= |c.byStatus["open"]|
                      && r.value.inProgress <= |c.byStatus["in progress"]|
                      && r.value.resolved <= |c.byStatus["resolved"]|
  {
    match c
    case Flat(_) => TypeError
    case Buckets(b) =>
      if "open" !in b || "in progress" !in b || "resolved" !in b then TypeError
      else Ok(Counts(CountActive(b["open"]), CountActive(b["in progress"]), CountActive(b["resolved"])))
  }

  const PieLabels: seq<string> := ["Open", "In Progress", "Resolved"]

  /** `pieData.datasets[0].data` */
  function PieData(n: Counts): (d: seq<nat>)
    ensures |d| == |PieLabels|
  {
    [n.open, n.inProgress, n.resolved]
  }

  /** The props handed to the stats cards. */
  datatype StatsCardsProps = StatsCardsProps(openCount: nat, inProgressCount: nat, resolvedCount: nat)

  /** The cards show the same three numbers as the pie, in label order. */
  function StatsProps(n: Counts): (s: StatsCardsProps)
    ensures [s.openCount, s.inProgressCount, s.resolvedCount] == PieData(n)
  {
    StatsCardsProps(n.open, n.inProgress, n.resolved)
  }

  /** Slice `i` of the pie, and the matching stats card, show the number of
      cards the ticket board shows in the column titled `PieLabels[i]`. */
  lemma PieSliceIsBoardColumn(c: Collection, i: int)
    requires DashboardCounts(c).Ok? && 0 <= i < 3
    ensures TicketBoard.BoardColumn(c, PieLabels[i]).Ok?
    ensures PieData(DashboardCounts(c).value)[i] == |TicketBoard.CardsOf(TicketBoard.BoardColumn(c, PieLabels[i]).value)|
    ensures var s := StatsProps(DashboardCounts(c).value);
      PieData(DashboardCounts(c).value) == [s.openCount, s.inProgressCount, s.resolvedCount]
  {
    TicketBoard.BoardStatusKeys();
    assert PieLabels == TicketBoard.BoardStatuses;
  }

  /** Replacing the archived ticket's entries by its archived copy never adds
      an unarchived ticket, and removes at least one if the ticket was
      showing. */
  lemma {:induction false} ArchivingLowersCount(s: seq<Ticket>, r: seq<Ticket>, t: Ticket)
    requires |r| == |s|
    requires forall i :: 0 <= i < |s| ==> r[i] == if s[i].id == t.id then TicketBoard.MarkArchived(t) else s[i]
    ensures NumUnarchived(r) <= NumUnarchived(s)
    ensures (exists i :: 0 <= i < |s| && s[i].id == t.id && !s[i].archived) ==> NumUnarchived(r) < NumUnarchived(s)
  {
    if s != [] {
      ArchivingLowersCount(s[1..], r[1..], t);
      if exists i :: 0 <= i < |s| && s[i].id == t.id && !s[i].archived {
        var i :| 0 <= i < |s| && s[i].id == t.id && !s[i].archived;
        if i > 0 {
          assert s[1..][i - 1].id == t.id && !s[1..][i - 1].archived;
        }
      }
    }
  }

  /** `archiveTicket` never raises a dashboard count. */
  lemma ArchiveNeverRaisesCounts(c: Collection, t: Ticket)
    requires DashboardCounts(c).Ok?
    ensures TicketBoard.ArchiveUpdate(c, t).Ok?
    ensures DashboardCounts(TicketBoard.ArchiveUpdate(c, t).value).Ok?
    ensures var before, after := DashboardCounts(c).value, DashboardCounts(TicketBoard.ArchiveUpdate(c, t).value).value;
      after.open <= before.open && after.inProgress <= before.inProgress && after.resolved <= before.resolved
  {
    var b := c.byStatus;
    var a := TicketBoard.ArchiveBuckets(b, t);
    forall k | k in {"open", "in progress", "resolved"}
      ensures CountActive(a[k]) <= CountActive(b[k])
    {
      ArchivingLowersCount(b[k], a[k], t);
      CountActiveIsNumUnarchived(a[k]);
      CountActiveIsNumUnarchived(b[k]);
    }
  }

  // ---------------------------------------------------------------------
  // Corporate register, dark mode, logout.

  /** The body of the corporate register request. */
  function CorpPayload(firstName: string, lastName: string, email: string, company: string, role: string, password: string): (r: map<string, string>)
    ensures r.Keys == {"first_name", "last_name", "email", "company", "role", "password"}
    ensures r["first_name"] == firstName && r["last_name"] == lastName && r["email"] == email
    ensures r["company"] == company && r["role"] == role && r["password"] == password
  {
    map["first_name" := firstName, "last_name" := lastName, "email" := email,
        "company" := company, "role" := role, "password" := password]
  }

  /** The dashboard's own state. `bodyDark` is whether `document.body`
      carries the `dark-mode` class. */
  class Dashboard {
    var showCorpModal: bool
    var corpFirstName: string
    var corpLastName: string
    var corpEmail: string
    var corpRole: string
    var corpPassword: string
    var corpCompany: string
    var darkMode: bool
    var bodyDark: bool

    /** `initialDarkMode` is what the stored flag (or the body class) gave. */
    constructor (initialDarkMode: bool, bodyDark: bool)
      ensures !showCorpModal && corpFirstName == "" && corpLastName == "" && corpEmail == ""
      ensures corpRole == "User" && corpPassword == "" && corpCompany == "MSI Staff"
      ensures darkMode == initialDarkMode && this.bodyDark == bodyDark
    {
      showCorpModal := false;
      corpFirstName, corpLastName, corpEmail := "", "", "";
      corpRole, corpPassword, corpCompany := "User", "", "MSI Staff";
      darkMode := initialDarkMode;
      this.bodyDark := bodyDark;
    }

    /** `handleCorpRegister`; `accepted` is the server's answer. Success
        clears the form except the company and closes the modal. */
    method HandleCorpRegister(accepted: bool) returns (payload: map<string, string>)
      modifies this
      ensures payload == CorpPayload(old(corpFirstName), old(corpLastName), old(corpEmail),
                                     old(corpCompany), old(corpRole), old(corpPassword))
      ensures accepted ==> && corpFirstName == "" && corpLastName == "" && corpEmail == ""
                           && corpRole == "User" && corpPassword == "" && !showCorpModal
      ensures !accepted ==> && corpFirstName == old(corpFirstName) && corpLastName == old(corpLastName)
                            && corpEmail == old(corpEmail) && corpRole == old(corpRole)
                            && corpPassword == old(corpPassword) && showCorpModal == old(showCorpModal)
      ensures corpCompany == old(corpCompany) && darkMode == old(darkMode) && bodyDark == old(bodyDark)
    {
      payload := CorpPayload(corpFirstName, corpLastName, corpEmail, corpCompany, corpRole, corpPassword);
      if accepted {
        corpFirstName := "";
        corpLastName := "";
        corpEmail := "";
        corpRole := "User";
        corpPassword := "";
        showCorpModal := false;
      }
    }

    /** `toggleDarkMode`: flip the body class, persist and adopt the negation
        of what the body class was. */
    method ToggleDarkMode(storage: Storage) returns (newStorage: Storage)
      modifies this`darkMode, this`bodyDark
      ensures bodyDark == !old(bodyDark) && darkMode == !old(bodyDark)
      ensures newStorage == storage["darkMode" := if darkMode then "true" else "false"]
      ensures old(darkMode) == old(bodyDark) ==> darkMode == !old(darkMode) && darkMode == bodyDark
    {
      var isDark := bodyDark;
      bodyDark := !bodyDark;
      newStorage := storage["darkMode" := if !isDark then "true" else "false"];
      darkMode := !isDark;
    }
  }

  /** The dashboard's logout: removes only `isAuthenticated` from storage,
      signs the session out and goes to the login screen. */
  method Logout(session: App.Session, storage: Storage) returns (newStorage: Storage, navigateTo: string)
    modifies session
    ensures !session.isAuthenticated && session.role == old(session.role)
    ensures newStorage == storage - {"isAuthenticated"} && navigateTo == "/login"
  {
    newStorage := storage - {"isAuthenticated"};
    session.isAuthenticated := false;
    navigateTo := "/login";
  }

  /** After the dashboard's logout a reload is signed out, but the stored
      role is kept. */
  lemma LogoutSurvivesReload(storage: Storage)
    ensures !App.StoredAuth(storage - {"isAuthenticated"})
    ensures App.StoredRole(storage - {"isAuthenticated"}) == App.StoredRole(storage)
  {
  }
}
