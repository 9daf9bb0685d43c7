/**
 * The public guest ticket form (src/app/public/new-ticket/page.tsx): the ticket built from the
 * form fields and handed to the entity store, the submitted flag, and the form reset.
 */
module GuestTicketPage {
  import opened Wrappers
  import opened Types
  import DataStore
  import Storage

  /** The form's fields. */
  datatype GuestForm = GuestForm(
    name: string,
    room: string,
    problemType: ProblemType,
    description: string,
    email: string)

  /** The fields of a fresh form: everything empty, problem type WIFI. */
  const EmptyForm: GuestForm := GuestForm("", "", Wifi, "", "")

  /** `${problemType} Issue - Room ${room}` */
  function GuestTitle(problemType: ProblemType, room: string): (title: string)
    ensures ProblemTypeName(problemType) + " Issue - Room " <= title
    ensures title[|ProblemTypeName(problemType) + " Issue - Room "|..] == room
  {
    ProblemTypeName(problemType) + " Issue - Room " + room
  }

  /** The draft `handleSubmit` hands to `createTicket`. */
  function GuestDraft(f: GuestForm): (d: DataStore.TicketDraft)
    ensures d.title == GuestTitle(f.problemType, f.room)
    ensures d.status == Open && d.priority == Medium && d.createdBy == "guest" && d.isGuest == Some(true)
    ensures d.assignedTo == None && d.assignedGroupId == None
    ensures d.guestEmail == None <==> f.email == ""
    ensures d.guestEmail.Some? ==> d.guestEmail.value == f.email
    ensures d.guestName == Some(f.name) && d.guestRoom == Some(f.room) && d.problemType == Some(f.problemType)
    ensures d.description == f.description
  {
    DataStore.TicketDraft(
      GuestTitle(f.problemType, f.room), f.description, Open, Medium, "guest",
      None, None, Some(true), Some(f.name),
      if f.email == "" then None else Some(f.email),   // `email || undefined`
      Some(f.room), Some(f.problemType))
  }

  /** The form a guest ticket's draft was built from, read back from the draft's guest fields. */
  function FormOf(d: DataStore.TicketDraft): GuestForm {
    GuestForm(d.guestName.GetOr(""), d.guestRoom.GetOr(""), d.problemType.GetOr(Wifi), d.description,
              d.guestEmail.GetOr(""))
  }

  /** Name, room, problem type, description and email are all carried unchanged into the draft. */
  lemma GuestDraftKeepsForm(f: GuestForm)
    ensures FormOf(GuestDraft(f)) == f
  {
  }

  /** Different forms give different drafts. */
  lemma GuestDraftInjective(f: GuestForm, g: GuestForm)
    requires GuestDraft(f) == GuestDraft(g)
    ensures f == g
  {
    GuestDraftKeepsForm(f);
    GuestDraftKeepsForm(g);
  }

  /** A guest draft names no group, so creating its ticket logs nothing. */
  lemma GuestDraftNotifiesNobody(groups: seq<Group>, f: GuestForm)
    ensures DataStore.Notification(groups, GuestDraft(f)) == None
  {
  }

  class Page {
    var name: string
    var room: string
    var problemType: ProblemType
    var description: string
    var email: string
    var isSubmitted: bool
    var isLoading: bool
    /** The entity store the page creates tickets in. */
    const store: DataStore.Store

    function Form(): GuestForm
      reads this
    {
      GuestForm(name, room, problemType, description, email)
    }

    constructor (store: DataStore.Store)
      ensures this.store == store
      ensures Form() == EmptyForm && !isSubmitted && !isLoading
    {
      this.store := store;
      name, room, problemType, description, email := "", "", Wifi, "", "";
      isSubmitted, isLoading := false, false;
    }

    /** The fields' `onChange` handlers, taken together. */
    method Edit(f: GuestForm)
      modifies this
      ensures Form() == f
      ensures isSubmitted == old(isSubmitted) && isLoading == old(isLoading)
    {
      name, room, problemType, description, email := f.name, f.room, f.problemType, f.description, f.email;
    }

    /**
     * `handleSubmit`: exactly one guest ticket, built from the current fields, is put in front of
     * the store's tickets; the form keeps its fields and shows the confirmation.
     */
    method HandleSubmit(id: string, created: Timestamp, updated: Timestamp)
      requires store.Valid()
      modifies this, store
      ensures store.Valid()
      ensures store.tickets == [DataStore.NewTicket(GuestDraft(old(Form())), id, created, updated)] + old(store.tickets)
      ensures store.comments == old(store.comments) && store.users == old(store.users)
      ensures store.groups == old(store.groups)
      ensures store.storage == old(store.storage)[Storage.TicketsKey := Storage.TicketList(store.tickets)]
      ensures store.notifications == old(store.notifications)
      ensures Form() == old(Form()) && !isLoading && isSubmitted
    {
      isLoading := true;
      // the simulated network delay is not modelled
      GuestDraftNotifiesNobody(store.groups, Form());
      store.CreateTicket(GuestDraft(Form()), id, created, updated);
      isLoading := false;
      isSubmitted := true;
    }

    /** "Submit Another Ticket": back to an empty form. */
    method SubmitAnother()
      modifies this
      ensures Form() == EmptyForm && !isSubmitted && isLoading == old(isLoading)
    {
      isSubmitted := false;
      name, room, description, problemType, email := "", "", "", Wifi, "";
    }
  }
}
