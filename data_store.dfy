/**
 * The client-side entity store (src/context/data-context.tsx): four in-memory collections
 * (tickets, comments, users, groups) changed by prepend, append and merge-by-id, mirrored into
 * the browser's storage under one fixed key per collection.
 *
 * The record builders, merges, queries and the load step are functions; `Store` is the provider's
 * state, and its methods are the provider's operations. Fresh ids and clock readings are
 * parameters of the operations that need them.
 */
module DataStore {
  import opened Wrappers
  import opened Types
  import opened Storage
  import opened Lists

  // ---------------------------------------------------------------------------------------------
  // Records the store creates
  // ---------------------------------------------------------------------------------------------

  /** What a caller hands to `createTicket`: a ticket without its id and its two timestamps. */
  datatype TicketDraft = TicketDraft(
    title: string,
    description: string,
    status: TicketStatus,
    priority: TicketPriority,
    createdBy: string,
    assignedTo: Option<string>,
    assignedGroupId: Option<string>,
    isGuest: Option<bool>,
    guestName: Option<string>,
    guestEmail: Option<string>,
    guestRoom: Option<string>,
    problemType: Option<ProblemType>)

  /** The draft part of a ticket: everything except its id and its timestamps. */
  function DraftOf(t: Ticket): TicketDraft {
    TicketDraft(t.title, t.description, t.status, t.priority, t.createdBy, t.assignedTo,
                t.assignedGroupId, t.isGuest, t.guestName, t.guestEmail, t.guestRoom, t.problemType)
  }

  /**
   * The ticket `createTicket` builds: every supplied field kept, the fresh id, and the two clock
   * readings taken for `createdAt` and `updatedAt`.
   */
  function NewTicket(d: TicketDraft, id: string, created: Timestamp, updated: Timestamp): (t: Ticket)
    ensures DraftOf(t) == d
    ensures t.id == id && t.createdAt == created && t.updatedAt == updated
  {
    Ticket(id, d.title, d.description, d.status, d.priority, d.createdBy, d.assignedTo,
           d.assignedGroupId, created, updated, d.isGuest, d.guestName, d.guestEmail, d.guestRoom, d.problemType)
  }

  /** Every ticket is rebuilt from its draft, its id and its two stamps. */
  lemma NewTicketFromDraft(t: Ticket)
    ensures NewTicket(DraftOf(t), t.id, t.createdAt, t.updatedAt) == t
  {
  }

  /** What a caller hands to `addComment`: a comment without its id and its timestamp. */
  datatype CommentDraft = CommentDraft(ticketId: string, content: string, createdBy: string)

  function CommentDraftOf(c: Comment): CommentDraft {
    CommentDraft(c.ticketId, c.content, c.createdBy)
  }

  /** The comment `addComment` builds: the supplied fields, the fresh id and the time `now`. */
  function NewComment(d: CommentDraft, id: string, now: Timestamp): (c: Comment)
    ensures CommentDraftOf(c) == d
    ensures c.id == id && c.createdAt == now
  {
    Comment(id, d.ticketId, d.content, d.createdBy, now)
  }

  const AvatarSeedPrefix: string := "https://api.dicebear.com/7.x/avataaars/svg?seed="

  /** The generated avatar address: the fixed prefix followed by the seed, not encoded. */
  function AvatarUrl(seed: string): (url: string)
    ensures AvatarSeedPrefix <= url
    ensures url[|AvatarSeedPrefix|..] == seed
  {
    AvatarSeedPrefix + seed
  }

  /** Distinct seeds give distinct avatar addresses. */
  lemma AvatarUrlInjective(a: string, b: string)
    requires AvatarUrl(a) == AvatarUrl(b)
    ensures a == b
  {
    assert a == AvatarUrl(a)[|AvatarSeedPrefix|..];
  }

  /** The user `inviteUser` builds; its avatar is seeded with the user's own name. */
  function NewUser(email: string, role: Role, name: string, id: string): (u: User)
    ensures u.avatar == AvatarUrl(u.name)
    ensures u == User(id, name, email, role, u.avatar)
  {
    User(id, name, email, role, AvatarUrl(name))
  }

  /** The group `createGroup` builds: name and member ids stored as given. */
  function NewGroup(name: string, memberIds: seq<string>, id: string, now: Timestamp): (g: Group)
    ensures g.id == id && g.name == name && g.memberIds == memberIds && g.createdAt == now
  {
    Group(id, name, memberIds, now)
  }

  // ---------------------------------------------------------------------------------------------
  // Partial updates
  // ---------------------------------------------------------------------------------------------

  /**
   * `Partial<Ticket>`: `None` leaves a field as it is. An optional field of a ticket has type
   * `Option<…>` already, so in a patch `Some(None)` clears it and `Some(Some(v))` sets it.
   */
  datatype TicketPatch = TicketPatch(
    id: Option<string>,
    title: Option<string>,
    description: Option<string>,
    status: Option<TicketStatus>,
    priority: Option<TicketPriority>,
    createdBy: Option<string>,
    assignedTo: Option<Option<string>>,
    assignedGroupId: Option<Option<string>>,
    createdAt: Option<Timestamp>,
    updatedAt: Option<Timestamp>,
    isGuest: Option<Option<bool>>,
    guestName: Option<Option<string>>,
    guestEmail: Option<Option<string>>,
    guestRoom: Option<Option<string>>,
    problemType: Option<Option<ProblemType>>)

  const NoTicketChange: TicketPatch :=
    TicketPatch(None, None, None, None, None, None, None, None, None, None, None, None, None, None, None)

  /** The patch `assignTicket` hands to `updateTicket`: `{ assignedTo: userId }`. */
  function AssignPatch(userId: string): (p: TicketPatch)
    ensures p.assignedTo == Some(Some(userId))
    ensures p.(assignedTo := None) == NoTicketChange
  {
    NoTicketChange.(assignedTo := Some(Some(userId)))
  }

  /** `{ ...t, ...u, updatedAt: now }`: every field the patch names, then the update stamp. */
  function MergeTicket(t: Ticket, u: TicketPatch, now: Timestamp): (r: Ticket)
    ensures r.updatedAt == now
  {
    Ticket(u.id.GetOr(t.id), u.title.GetOr(t.title), u.description.GetOr(t.description),
           u.status.GetOr(t.status), u.priority.GetOr(t.priority), u.createdBy.GetOr(t.createdBy),
           u.assignedTo.GetOr(t.assignedTo), u.assignedGroupId.GetOr(t.assignedGroupId),
           u.createdAt.GetOr(t.createdAt), now,
           u.isGuest.GetOr(t.isGuest), u.guestName.GetOr(t.guestName), u.guestEmail.GetOr(t.guestEmail),
           u.guestRoom.GetOr(t.guestRoom), u.problemType.GetOr(t.problemType))
  }

  /**
   * Field by field: each field the patch names takes the patch's value, every other field keeps
   * the ticket's, and `updatedAt` is the stamp whatever the patch says.
   */
  lemma MergeTicketFields(t: Ticket, u: TicketPatch, now: Timestamp)
    ensures var r := MergeTicket(t, u, now);
      && r.id == (if u.id.Some? then u.id.value else t.id)
      && r.title == (if u.title.Some? then u.title.value else t.title)
      && r.description == (if u.description.Some? then u.description.value else t.description)
      && r.status == (if u.status.Some? then u.status.value else t.status)
      && r.priority == (if u.priority.Some? then u.priority.value else t.priority)
      && r.createdBy == (if u.createdBy.Some? then u.createdBy.value else t.createdBy)
      && r.assignedTo == (if u.assignedTo.Some? then u.assignedTo.value else t.assignedTo)
      && r.assignedGroupId == (if u.assignedGroupId.Some? then u.assignedGroupId.value else t.assignedGroupId)
      && r.createdAt == (if u.createdAt.Some? then u.createdAt.value else t.createdAt)
      && r.updatedAt == now
      && r.isGuest == (if u.isGuest.Some? then u.isGuest.value else t.isGuest)
      && r.guestName == (if u.guestName.Some? then u.guestName.value else t.guestName)
      && r.guestEmail == (if u.guestEmail.Some? then u.guestEmail.value else t.guestEmail)
      && r.guestRoom == (if u.guestRoom.Some? then u.guestRoom.value else t.guestRoom)
      && r.problemType == (if u.problemType.Some? then u.problemType.value else t.problemType)
  {
  }

  /** A patch that names no field changes only the update stamp. */
  lemma MergeNoChange(t: Ticket, now: Timestamp)
    ensures MergeTicket(t, NoTicketChange, now) == t.(updatedAt := now)
  {
  }

  /** The stamp always wins over an `updatedAt` carried in the patch. */
  lemma MergeIgnoresPatchedStamp(t: Ticket, u: TicketPatch, now: Timestamp)
    ensures MergeTicket(t, u, now) == MergeTicket(t, u.(updatedAt := None), now)
  {
  }

  /** The assignment patch sets the assignee and the stamp and leaves every other field. */
  lemma MergeAssign(t: Ticket, userId: string, now: Timestamp)
    ensures MergeTicket(t, AssignPatch(userId), now) == t.(assignedTo := Some(userId), updatedAt := now)
  {
  }

  /** Merging the same patch again changes nothing but the stamp. */
  lemma MergeTicketIdempotent(t: Ticket, u: TicketPatch, n1: Timestamp, n2: Timestamp)
    ensures MergeTicket(MergeTicket(t, u, n1), u, n2) == MergeTicket(t, u, n2)
  {
  }

  /** `Partial<Group>`: `None` leaves a field as it is. */
  datatype GroupPatch = GroupPatch(
    id: Option<string>,
    name: Option<string>,
    memberIds: Option<seq<string>>,
    createdAt: Option<Timestamp>)

  /** `{ ...g, ...u }`: no stamp is touched. */
  function MergeGroup(g: Group, u: GroupPatch): (r: Group)
    ensures u == GroupPatch(None, None, None, None) ==> r == g
  {
    Group(u.id.GetOr(g.id), u.name.GetOr(g.name), u.memberIds.GetOr(g.memberIds), u.createdAt.GetOr(g.createdAt))
  }

  /** Field by field: each field the patch names takes the patch's value, every other keeps the group's. */
  lemma MergeGroupFields(g: Group, u: GroupPatch)
    ensures var r := MergeGroup(g, u);
      && r.id == (if u.id.Some? then u.id.value else g.id)
      && r.name == (if u.name.Some? then u.name.value else g.name)
      && r.memberIds == (if u.memberIds.Some? then u.memberIds.value else g.memberIds)
      && r.createdAt == (if u.createdAt.Some? then u.createdAt.value else g.createdAt)
  {
  }

  /** Merging the same group patch again changes nothing. */
  lemma MergeGroupIdempotent(g: Group, u: GroupPatch)
    ensures MergeGroup(MergeGroup(g, u), u) == MergeGroup(g, u)
  {
  }

  /** `updateTicket`'s new list: same length, tickets with id `id` merged, all others untouched. */
  function UpdatedTickets(ts: seq<Ticket>, id: string, u: TicketPatch, now: Timestamp): (r: seq<Ticket>)
    ensures |r| == |ts|
    ensures forall i :: 0 <= i < |ts| && ts[i].id != id ==> r[i] == ts[i]
    ensures forall i :: 0 <= i < |ts| && ts[i].id == id ==> r[i] == MergeTicket(ts[i], u, now)
  {
    MapWhere(ts, (t: Ticket) => t.id == id, (t: Ticket) => MergeTicket(t, u, now))
  }

  /** `updateTicket` with an id no ticket carries leaves the list as it was. */
  lemma UpdateUnknownTicket(ts: seq<Ticket>, id: string, u: TicketPatch, now: Timestamp)
    requires forall i :: 0 <= i < |ts| ==> ts[i].id != id
    ensures UpdatedTickets(ts, id, u, now) == ts
  {
  }

  /**
   * Repeating an update that keeps the id changes only the stamps. (A patch that renames the
   * ticket is excluded: the second call would no longer find it.)
   */
  lemma UpdateTicketsIdempotent(ts: seq<Ticket>, id: string, u: TicketPatch, n1: Timestamp, n2: Timestamp)
    requires u.id.None? || u.id == Some(id)
    ensures UpdatedTickets(UpdatedTickets(ts, id, u, n1), id, u, n2) == UpdatedTickets(ts, id, u, n2)
  {
    var once := UpdatedTickets(ts, id, u, n1);
    forall i | 0 <= i < |ts|
      ensures UpdatedTickets(once, id, u, n2)[i] == UpdatedTickets(ts, id, u, n2)[i]
    {
      if ts[i].id == id {
        MergeTicketIdempotent(ts[i], u, n1, n2);
      }
    }
  }

  /** `assignTicket(t, x)`: every ticket with id `t` gets assignee `x` and the stamp; nothing else changes. */
  lemma AssignTicketEffect(ts: seq<Ticket>, ticketId: string, userId: string, now: Timestamp)
    ensures |UpdatedTickets(ts, ticketId, AssignPatch(userId), now)| == |ts|
    ensures forall i :: 0 <= i < |ts| ==>
      UpdatedTickets(ts, ticketId, AssignPatch(userId), now)[i] ==
        if ts[i].id == ticketId then ts[i].(assignedTo := Some(userId), updatedAt := now) else ts[i]
  {
    forall i | 0 <= i < |ts| && ts[i].id == ticketId {
      MergeAssign(ts[i], userId, now);
    }
  }

  /** `updateGroup`'s new list: same length, groups with id `id` merged, all others untouched. */
  function UpdatedGroups(gs: seq<Group>, id: string, u: GroupPatch): (r: seq<Group>)
    ensures |r| == |gs|
    ensures forall i :: 0 <= i < |gs| && gs[i].id != id ==> r[i] == gs[i]
    ensures forall i :: 0 <= i < |gs| && gs[i].id == id ==> r[i] == MergeGroup(gs[i], u)
  {
    MapWhere(gs, (g: Group) => g.id == id, (g: Group) => MergeGroup(g, u))
  }

  lemma UpdateUnknownGroup(gs: seq<Group>, id: string, u: GroupPatch)
    requires forall i :: 0 <= i < |gs| ==> gs[i].id != id
    ensures UpdatedGroups(gs, id, u) == gs
  {
  }

  // ---------------------------------------------------------------------------------------------
  // Queries
  // ---------------------------------------------------------------------------------------------

  /** `getTicket`: the first ticket with the id, or none when no ticket has it. */
  function FindTicket(ts: seq<Ticket>, id: string): (r: Option<Ticket>)
    ensures r.None? <==> forall i :: 0 <= i < |ts| ==> ts[i].id != id
    ensures r.Some? ==> r.value.id == id
    ensures r.Some? ==> exists i :: 0 <= i < |ts| && ts[i] == r.value && forall j :: 0 <= j < i ==> ts[j].id != id
  {
    Find(ts, (t: Ticket) => t.id == id)
  }

  /** The first group with the id (`groups.find(g => g.id === id)`). */
  function FindGroup(gs: seq<Group>, id: string): (r: Option<Group>)
    ensures r.None? <==> forall i :: 0 <= i < |gs| ==> gs[i].id != id
    ensures r.Some? ==> r.value.id == id
    ensures r.Some? ==> exists i :: 0 <= i < |gs| && gs[i] == r.value && forall j :: 0 <= j < i ==> gs[j].id != id
  {
    Find(gs, (g: Group) => g.id == id)
  }

  predicate SortedByCreation(cs: seq<Comment>) {
    forall i, j :: 0 <= i < j < |cs| ==> cs[i].createdAt <= cs[j].createdAt
  }

  /** A comment no later than the first comment of a sorted list can go in front of it. */
  lemma SortedCons(c: Comment, cs: seq<Comment>)
    requires SortedByCreation(cs)
    requires cs == [] || c.createdAt <= cs[0].createdAt
    ensures SortedByCreation([c] + cs)
  {
    var r := [c] + cs;
    forall i, j | 0 <= i < j < |r| ensures r[i].createdAt <= r[j].createdAt {
      assert r[j] == cs[j - 1];
      if i > 0 { assert r[i] == cs[i - 1]; } else { assert cs[0].createdAt <= cs[j - 1].createdAt; }
    }
  }

  /** Insert `c` before the first comment not older than it: a stable insertion step. */
  function InsertByCreation(c: Comment, cs: seq<Comment>): (r: seq<Comment>)
    requires SortedByCreation(cs)
    ensures SortedByCreation(r)
    ensures multiset(r) == multiset(cs) + multiset{c}
    ensures r[0] == c || (cs != [] && r[0] == cs[0])
  {
    if cs == [] || c.createdAt <= cs[0].createdAt then
      SortedCons(c, cs);
      [c] + cs
    else
      var head, tail := cs[0], cs[1..];
      assert cs == [head] + tail;
      var rest := InsertByCreation(c, tail);
      assert rest[0] != c ==> head.createdAt <= cs[1].createdAt;
      SortedCons(head, rest);
      [head] + rest
  }

  /** The comparator sort of `getTicketComments`: ascending creation time, stable. */
  function SortByCreation(cs: seq<Comment>): (r: seq<Comment>)
    ensures SortedByCreation(r)
    ensures multiset(r) == multiset(cs)
  {
    if cs == [] then []
    else
      assert cs == [cs[0]] + cs[1..];
      InsertByCreation(cs[0], SortByCreation(cs[1..]))
  }

  function AtInstant(k: Timestamp): Comment -> bool {
    (c: Comment) => c.createdAt == k
  }

  function OfTicket(tid: string): Comment -> bool {
    (c: Comment) => c.ticketId == tid
  }

  /** The comments created at instant `k`, in their order. */
  function CreatedAt(cs: seq<Comment>, k: Timestamp): seq<Comment> {
    Filter(cs, AtInstant(k))
  }

  lemma {:induction false} InsertStable(c: Comment, cs: seq<Comment>, k: Timestamp)
    requires SortedByCreation(cs)
    ensures CreatedAt(InsertByCreation(c, cs), k) == (if c.createdAt == k then [c] else []) + CreatedAt(cs, k)
  {
    var p := AtInstant(k);
    if cs == [] || c.createdAt <= cs[0].createdAt {
      FilterCons(c, cs, p);
    } else {
      var head, tail := cs[0], cs[1..];
      assert cs == [head] + tail;
      var rest := InsertByCreation(c, tail);
      assert InsertByCreation(c, cs) == [head] + rest;
      InsertStable(c, tail, k);
      FilterCons(head, rest, p);
      FilterCons(head, tail, p);
      if c.createdAt == k {
        // the head is strictly older than `c`, so it is not created at `k`
        assert !p(head);
        assert CreatedAt([head] + rest, k) == CreatedAt(rest, k) == [c] + CreatedAt(tail, k);
        assert CreatedAt(cs, k) == CreatedAt(tail, k);
      } else {
        assert CreatedAt(rest, k) == CreatedAt(tail, k);
      }
    }
  }

  /** Sorting keeps comments of equal creation time in their original order. */
  lemma {:induction false} SortStable(cs: seq<Comment>, k: Timestamp)
    ensures CreatedAt(SortByCreation(cs), k) == CreatedAt(cs, k)
  {
    if cs != [] {
      var p := AtInstant(k);
      assert cs == [cs[0]] + cs[1..];
      InsertStable(cs[0], SortByCreation(cs[1..]), k);
      SortStable(cs[1..], k);
      FilterCons(cs[0], cs[1..], p);
    }
  }

  /**
   * `getTicketComments`: exactly the comments of ticket `tid` (each as often as stored), in
   * non-decreasing creation time.
   */
  function TicketComments(cs: seq<Comment>, tid: string): (r: seq<Comment>)
    ensures SortedByCreation(r)
    ensures forall i :: 0 <= i < |r| ==> r[i].ticketId == tid
    ensures forall c :: multiset(r)[c] == if c.ticketId == tid then multiset(cs)[c] else 0
  {
    var own := Filter(cs, OfTicket(tid));
    FilterCount(cs, OfTicket(tid));
    var r := SortByCreation(own);
    assert forall i :: 0 <= i < |r| ==> r[i].ticketId == tid by {
      forall i | 0 <= i < |r| ensures r[i].ticketId == tid {
        assert r[i] in multiset(own);
      }
    }
    r
  }

  /** Comments of one ticket created at the same instant are listed in the order they were added. */
  lemma TicketCommentsArrivalOrder(cs: seq<Comment>, tid: string, k: Timestamp)
    ensures CreatedAt(TicketComments(cs, tid), k) == CreatedAt(Filter(cs, OfTicket(tid)), k)
  {
    SortStable(Filter(cs, OfTicket(tid)), k);
  }

  // ---------------------------------------------------------------------------------------------
  // The group notification of createTicket
  // ---------------------------------------------------------------------------------------------

  /** `xs.join(sep)`: empty for no element; it starts with the first element and ends with the last. */
  function JoinWith(xs: seq<string>, sep: string): (r: string)
    ensures xs == [] ==> r == ""
    ensures |xs| == 1 ==> r == xs[0]
    ensures |xs| > 0 ==> xs[0] <= r
    ensures |xs| > 0 ==> |xs[|xs| - 1]| <= |r| && r[|r| - |xs[|xs| - 1]|..] == xs[|xs| - 1]
  {
    if |xs| == 0 then ""
    else if |xs| == 1 then xs[0]
    else
      var rest := JoinWith(xs[1..], sep);
      assert xs[1..][|xs[1..]| - 1] == xs[|xs| - 1];
      var r := xs[0] + sep + rest;
      assert r[|r| - |rest|..] == rest;
      r
  }

  /**
   * Appending an element to a non-empty list appends the separator and that element to the join;
   * with the empty and singleton cases of `JoinWith`, this fixes the joined string completely.
   */
  lemma {:induction false} JoinAppend(xs: seq<string>, x: string, sep: string)
    requires xs != []
    ensures JoinWith(xs + [x], sep) == JoinWith(xs, sep) + sep + x
  {
    if |xs| > 1 {
      assert (xs + [x])[1..] == xs[1..] + [x];
      JoinAppend(xs[1..], x, sep);
    } else {
      assert (xs + [x])[1..] == [x];
    }
  }

  const NotificationPrefix: string := "Notification: Ticket assigned to group "

  /** The line logged for a ticket routed to group `g`: the group's name, then its member ids. */
  function NotificationText(g: Group): (line: string)
    ensures NotificationPrefix + g.name + ". Members: " <= line
    ensures line[|NotificationPrefix + g.name + ". Members: "|..] == JoinWith(g.memberIds, ", ")
  {
    NotificationPrefix + g.name + ". Members: " + JoinWith(g.memberIds, ", ")
  }

  /**
   * What `createTicket` logs for draft `d`: the first group whose id is the draft's (non-empty)
   * group id, listed with its members; nothing when the draft names no group or no group matches.
   */
  function Notification(groups: seq<Group>, d: TicketDraft): (r: Option<string>)
    ensures r.Some? <==> d.assignedGroupId.Some? && d.assignedGroupId.value != "" &&
                         exists i :: 0 <= i < |groups| && groups[i].id == d.assignedGroupId.value
    ensures r.Some? ==> FindGroup(groups, d.assignedGroupId.value).Some? &&
                        r.value == NotificationText(FindGroup(groups, d.assignedGroupId.value).value)
  {
    // `if (data.assignedGroupId)`: the empty string is falsy
    if d.assignedGroupId.Some? && d.assignedGroupId.value != "" then
      match FindGroup(groups, d.assignedGroupId.value)
      case Some(g) => Some(NotificationText(g))
      case None => None
    else None
  }

  // ---------------------------------------------------------------------------------------------
  // Seeds, persistence and loading
  // ---------------------------------------------------------------------------------------------

  /**
   * The demo tickets t1 and t2, both by u3; `epoch` is the clock when the module was loaded. Each
   * was created before it was last updated, and both before the module was loaded.
   */
  function InitialTickets(epoch: Timestamp): (ts: seq<Ticket>)
    ensures |ts| == 2 && ts[0].id == "t1" && ts[1].id == "t2"
    ensures forall i :: 0 <= i < |ts| ==> ts[i].createdBy == "u3" && ts[i].createdAt <= ts[i].updatedAt < epoch
  {
    [ Ticket("t1", "Login page is crashing", "When I try to login with Google, the page goes white.",
             Open, High, "u3", None, None, epoch - 86400000, epoch - 86400000,
             None, None, None, None, None),
      Ticket("t2", "Feature Request: Dark Mode", "Please add dark mode support.",
             InProgress, Low, "u3", Some("u2"), None, epoch - 172800000, epoch - 100000,
             None, None, None, None, None) ]
  }

  /**
   * The demo users u1, u2 and u3, with distinct ids and dicebear avatars; the first is the only
   * master admin.
   */
  function InitialUsers(): (us: seq<User>)
    ensures |us| == 3 && us[0].id == "u1" && us[1].id == "u2" && us[2].id == "u3"
    ensures forall i, j :: 0 <= i < j < |us| ==> us[i].id != us[j].id
    ensures forall i :: 0 <= i < |us| ==> AvatarSeedPrefix <= us[i].avatar
    ensures forall i :: 0 <= i < |us| ==> (us[i].role == MasterAdmin <==> i == 0)
  {
    var us := [
      User("u1", "Master Admin", "master@example.com", MasterAdmin, AvatarUrl("Master")),
      User("u2", "Support Admin", "admin@example.com", Admin, AvatarUrl("Admin")),
      User("u3", "John Doe", "john@example.com", EndUser, AvatarUrl("John"))
    ];
    assert us[0].id[1] == '1' && us[1].id[1] == '2' && us[2].id[1] == '3';
    us
  }

  /** The demo group g1, stamped with the load time. */
  function InitialGroups(epoch: Timestamp): (gs: seq<Group>)
    ensures |gs| == 1 && gs[0].id == "g1" && gs[0].createdAt == epoch
  {
    [ Group("g1", "Support Team", ["u1", "u2"], epoch) ]
  }

  /** Every member of the demo group is a demo user who is staff, not an end user. */
  lemma SeedGroupMembersAreStaff(epoch: Timestamp)
    ensures forall m :: m in InitialGroups(epoch)[0].memberIds ==>
      exists i :: 0 <= i < |InitialUsers()| && InitialUsers()[i].id == m && InitialUsers()[i].role != EndUser
  {
    var us := InitialUsers();
    forall m | m in InitialGroups(epoch)[0].memberIds
      ensures exists i :: 0 <= i < |us| && us[i].id == m && us[i].role != EndUser
    {
      if m == "u1" { assert us[0].id == m; } else { assert us[1].id == m; }
    }
  }

  /** The collections the mount effect writes where nothing is stored yet. */
  datatype Seeds = Seeds(tickets: seq<Ticket>, users: seq<User>, groups: seq<Group>)

  /** The demo records of the module, with the clock `epoch` of its loading. */
  function DemoSeeds(epoch: Timestamp): Seeds {
    Seeds(InitialTickets(epoch), InitialUsers(), InitialGroups(epoch))
  }

  /** A seeding write of the mount effect: `v` is written only where nothing is stored yet. */
  function SeedIfAbsent(s: LocalStorage, key: string, v: Value): (r: LocalStorage)
    ensures key in r && r[key] == if key in s then s[key] else v
    ensures forall k :: k in s ==> k in r && r[k] == s[k]
    ensures r.Keys == s.Keys + {key}
  {
    if key in s then s else s[key := v]
  }

  /** One persist effect: the collection is written under its key only when it is non-empty. */
  function Persist(s: LocalStorage, key: string, v: Value, nonEmpty: bool): (r: LocalStorage)
    ensures nonEmpty ==> key in r && r[key] == v
    ensures forall k :: k in s && (k != key || !nonEmpty) ==> k in r && r[k] == s[k]
    ensures r.Keys == if nonEmpty then s.Keys + {key} else s.Keys
  {
    if nonEmpty then s[key := v] else s
  }

  /** The provider's four collections together with the storage they are mirrored into. */
  datatype Snapshot = Snapshot(
    tickets: seq<Ticket>,
    comments: seq<Comment>,
    users: seq<User>,
    groups: seq<Group>,
    storage: LocalStorage)

  /**
   * The storage holds exactly the current collections: tickets, users and groups are always
   * stored; comments are stored unless none has ever been stored or added.
   */
  predicate Mirrored(s: Snapshot) {
    && TicketsKey in s.storage && s.storage[TicketsKey] == TicketList(s.tickets)
    && UsersKey in s.storage && s.storage[UsersKey] == UserList(s.users)
    && GroupsKey in s.storage && s.storage[GroupsKey] == GroupList(s.groups)
    && (if CommentsKey in s.storage then s.storage[CommentsKey] == CommentList(s.comments) else s.comments == [])
  }

  /**
   * The mount effect: each stored collection replaces the empty initial state; absent tickets,
   * users and groups are seeded with the demo records and written back; absent comments stay
   * empty and unwritten. Nothing already stored is overwritten.
   */
  function Mount(stored: LocalStorage, seeds: Seeds): (s: Snapshot)
    requires WellTyped(stored)
    ensures s.tickets == if TicketsKey in stored then stored[TicketsKey].tickets else seeds.tickets
    ensures s.comments == if CommentsKey in stored then stored[CommentsKey].comments else []
    ensures s.users == if UsersKey in stored then stored[UsersKey].users else seeds.users
    ensures s.groups == if GroupsKey in stored then stored[GroupsKey].groups else seeds.groups
  {
    var ts := if TicketsKey in stored then stored[TicketsKey].tickets else seeds.tickets;
    var s1 := SeedIfAbsent(stored, TicketsKey, TicketList(ts));
    var cs := if CommentsKey in stored then stored[CommentsKey].comments else [];
    var us := if UsersKey in stored then stored[UsersKey].users else seeds.users;
    var s2 := SeedIfAbsent(s1, UsersKey, UserList(us));
    var gs := if GroupsKey in stored then stored[GroupsKey].groups else seeds.groups;
    var s3 := SeedIfAbsent(s2, GroupsKey, GroupList(gs));
    Snapshot(ts, cs, us, gs, s3)
  }

  /** After mounting, the storage is well typed and holds exactly the loaded collections. */
  lemma MountMirrors(stored: LocalStorage, seeds: Seeds)
    requires WellTyped(stored)
    ensures WellTyped(Mount(stored, seeds).storage) && Mirrored(Mount(stored, seeds))
  {
    KeysDistinct();
  }

  /** Mounting adds exactly the three seeded keys to the storage and overwrites nothing stored. */
  lemma MountKeepsStored(stored: LocalStorage, seeds: Seeds)
    requires WellTyped(stored)
    ensures Mount(stored, seeds).storage.Keys == stored.Keys + {TicketsKey, UsersKey, GroupsKey}
    ensures forall k :: k in stored ==> Mount(stored, seeds).storage[k] == stored[k]
  {
  }

  /** The four persist effects, run once on the collections of `s`. */
  function PersistAll(s: Snapshot): (r: LocalStorage)
    ensures Mirrored(s) ==> r == s.storage
  {
    var s4 := Persist(s.storage, TicketsKey, TicketList(s.tickets), |s.tickets| > 0);
    var s5 := Persist(s4, CommentsKey, CommentList(s.comments), |s.comments| > 0);
    var s6 := Persist(s5, UsersKey, UserList(s.users), |s.users| > 0);
    var s7 := Persist(s6, GroupsKey, GroupList(s.groups), |s.groups| > 0);
    if Mirrored(s) then
      KeysDistinct();
      PersistUnchanged(s.storage, TicketsKey, TicketList(s.tickets), |s.tickets| > 0);
      PersistUnchanged(s4, CommentsKey, CommentList(s.comments), |s.comments| > 0);
      PersistUnchanged(s5, UsersKey, UserList(s.users), |s.users| > 0);
      PersistUnchanged(s6, GroupsKey, GroupList(s.groups), |s.groups| > 0);
      s7
    else s7
  }

  /**
   * Mounting the provider: the mount effect, then the persist effects on the loaded collections,
   * which rewrite only what the storage already holds.
   */
  function Load(stored: LocalStorage, epoch: Timestamp): (s: Snapshot)
    requires WellTyped(stored)
    ensures s == Mount(stored, DemoSeeds(epoch))
    ensures WellTyped(s.storage) && Mirrored(s)
  {
    MountMirrors(stored, DemoSeeds(epoch));
    var m := Mount(stored, DemoSeeds(epoch));
    m.(storage := PersistAll(m))
  }

  /** Writing the value a key already holds, or not writing, leaves the storage as it is. */
  lemma PersistUnchanged(s: LocalStorage, key: string, v: Value, nonEmpty: bool)
    requires nonEmpty ==> key in s && s[key] == v
    ensures Persist(s, key, v, nonEmpty) == s
  {
  }

  /** Reloading from the storage of a mirrored state restores that state, storage included. */
  lemma ReloadRestores(s: Snapshot, epoch: Timestamp)
    requires WellTyped(s.storage) && Mirrored(s)
    ensures Load(s.storage, epoch) == s
  {
    var r := Load(s.storage, epoch);
    assert r.storage == s.storage;
  }

  // ---------------------------------------------------------------------------------------------
  // The provider
  // ---------------------------------------------------------------------------------------------

  class Store {
    var tickets: seq<Ticket>
    var comments: seq<Comment>
    var users: seq<User>
    var groups: seq<Group>
    var storage: LocalStorage
    /** The console lines logged so far. */
    ghost var notifications: seq<string>

    function State(): Snapshot
      reads this
    {
      Snapshot(tickets, comments, users, groups, storage)
    }

    ghost predicate Valid()
      reads this
    {
      WellTyped(storage) && Mirrored(State())
    }

    /** Mounting the provider over storage `stored`. */
    constructor (stored: LocalStorage, epoch: Timestamp)
      requires WellTyped(stored)
      ensures Valid()
      ensures State() == Load(stored, epoch)
      ensures notifications == []
    {
      var s := Load(stored, epoch);
      tickets, comments, users, groups, storage := s.tickets, s.comments, s.users, s.groups, s.storage;
      notifications := [];
      new;
      assert State() == s;
    }

    method PersistTickets()
      modifies this`storage
      ensures storage == Persist(old(storage), TicketsKey, TicketList(tickets), |tickets| > 0)
    {
      if |tickets| > 0 {
        storage := storage[TicketsKey := TicketList(tickets)];
      }
    }

    method PersistComments()
      modifies this`storage
      ensures storage == Persist(old(storage), CommentsKey, CommentList(comments), |comments| > 0)
    {
      if |comments| > 0 {
        storage := storage[CommentsKey := CommentList(comments)];
      }
    }

    method PersistUsers()
      modifies this`storage
      ensures storage == Persist(old(storage), UsersKey, UserList(users), |users| > 0)
    {
      if |users| > 0 {
        storage := storage[UsersKey := UserList(users)];
      }
    }

    method PersistGroups()
      modifies this`storage
      ensures storage == Persist(old(storage), GroupsKey, GroupList(groups), |groups| > 0)
    {
      if |groups| > 0 {
        storage := storage[GroupsKey := GroupList(groups)];
      }
    }

    /** `createTicket`: prepend the new ticket, persist, and log the group notification if any. */
    method CreateTicket(d: TicketDraft, id: string, created: Timestamp, updated: Timestamp)
      requires Valid()
      modifies this
      ensures Valid()
      ensures tickets == [NewTicket(d, id, created, updated)] + old(tickets)
      ensures comments == old(comments) && users == old(users) && groups == old(groups)
      ensures storage == old(storage)[TicketsKey := TicketList(tickets)]
      ensures notifications == old(notifications) + Notification(old(groups), d).ToSeq()
    {
      // the console line, when the draft names an existing group
      notifications := notifications + Notification(groups, d).ToSeq();
      tickets := [NewTicket(d, id, created, updated)] + tickets;
      PersistTickets();
    }

    /** `updateTicket`: merge the patch into every ticket with the id and stamp it. */
    method UpdateTicket(id: string, u: TicketPatch, now: Timestamp)
      requires Valid()
      modifies this
      ensures Valid()
      ensures tickets == UpdatedTickets(old(tickets), id, u, now)
      ensures comments == old(comments) && users == old(users) && groups == old(groups)
      ensures storage == Persist(old(storage), TicketsKey, TicketList(tickets), |tickets| > 0)
      ensures notifications == old(notifications)
    {
      KeysDistinct();
      tickets := UpdatedTickets(tickets, id, u, now);
      PersistTickets();
    }

    /** `addComment`: append the new comment. */
    method AddComment(d: CommentDraft, id: string, now: Timestamp)
      requires Valid()
      modifies this
      ensures Valid()
      ensures comments == old(comments) + [NewComment(d, id, now)]
      ensures tickets == old(tickets) && users == old(users) && groups == old(groups)
      ensures storage == old(storage)[CommentsKey := CommentList(comments)]
      ensures notifications == old(notifications)
    {
      KeysDistinct();
      comments := comments + [NewComment(d, id, now)];
      PersistComments();
    }

    /** `inviteUser`: append a new user with the generated avatar. */
    method InviteUser(email: string, role: Role, name: string, id: string)
      requires Valid()
      modifies this
      ensures Valid()
      ensures users == old(users) + [NewUser(email, role, name, id)]
      ensures tickets == old(tickets) && comments == old(comments) && groups == old(groups)
      ensures storage == old(storage)[UsersKey := UserList(users)]
      ensures notifications == old(notifications)
    {
      KeysDistinct();
      users := users + [NewUser(email, role, name, id)];
      PersistUsers();
    }

    /** `assignTicket`: `updateTicket(ticketId, { assignedTo: userId })`. */
    method AssignTicket(ticketId: string, userId: string, now: Timestamp)
      requires Valid()
      modifies this
      ensures Valid()
      ensures tickets == UpdatedTickets(old(tickets), ticketId, AssignPatch(userId), now)
      ensures comments == old(comments) && users == old(users) && groups == old(groups)
      ensures storage == Persist(old(storage), TicketsKey, TicketList(tickets), |tickets| > 0)
      ensures notifications == old(notifications)
    {
      UpdateTicket(ticketId, AssignPatch(userId), now);
    }

    /** `createGroup`: append a new group with the given members. */
    method CreateGroup(name: string, memberIds: seq<string>, id: string, now: Timestamp)
      requires Valid()
      modifies this
      ensures Valid()
      ensures groups == old(groups) + [NewGroup(name, memberIds, id, now)]
      ensures tickets == old(tickets) && comments == old(comments) && users == old(users)
      ensures storage == old(storage)[GroupsKey := GroupList(groups)]
      ensures notifications == old(notifications)
    {
      KeysDistinct();
      groups := groups + [NewGroup(name, memberIds, id, now)];
      PersistGroups();
    }

    /** `updateGroup`: merge the patch into every group with the id. */
    method UpdateGroup(id: string, u: GroupPatch)
      requires Valid()
      modifies this
      ensures Valid()
      ensures groups == UpdatedGroups(old(groups), id, u)
      ensures tickets == old(tickets) && comments == old(comments) && users == old(users)
      ensures storage == Persist(old(storage), GroupsKey, GroupList(groups), |groups| > 0)
      ensures notifications == old(notifications)
    {
      KeysDistinct();
      groups := UpdatedGroups(groups, id, u);
      PersistGroups();
    }

    /** `getTicket` */
    function GetTicket(id: string): (r: Option<Ticket>)
      reads this
      ensures r.None? <==> forall i :: 0 <= i < |tickets| ==> tickets[i].id != id
      ensures r.Some? ==> r.value.id == id
      ensures r.Some? ==> exists i :: 0 <= i < |tickets| && tickets[i] == r.value &&
                                      forall j :: 0 <= j < i ==> tickets[j].id != id
    {
      FindTicket(tickets, id)
    }

    /** `getTicketComments` */
    function GetTicketComments(ticketId: string): (r: seq<Comment>)
      reads this
      ensures SortedByCreation(r)
      ensures forall i :: 0 <= i < |r| ==> r[i].ticketId == ticketId
      ensures forall c :: multiset(r)[c] == if c.ticketId == ticketId then multiset(comments)[c] else 0
      ensures forall k :: CreatedAt(r, k) == CreatedAt(Filter(comments, OfTicket(ticketId)), k)
    {
      assert forall k :: CreatedAt(TicketComments(comments, ticketId), k) ==
                         CreatedAt(Filter(comments, OfTicket(ticketId)), k) by {
        forall k {
          TicketCommentsArrivalOrder(comments, ticketId, k);
        }
      }
      TicketComments(comments, ticketId)
    }
  }
}
