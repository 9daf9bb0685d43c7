/**
 * The shared record types of the ticketing application (src/types/index.ts).
 * The string-literal unions become enumerations; `ProblemTypeName` gives back the literal
 * string where the source prints one.
 */
module Types {
  import opened Wrappers

  /** 'MASTER_ADMIN' | 'ADMIN' | 'USER'; `EndUser` is the literal 'USER'. */
  datatype Role = MasterAdmin | Admin | EndUser

  datatype TicketStatus = Open | InProgress | Resolved | Closed

  datatype TicketPriority = Low | Medium | High | Urgent

  datatype ProblemType = Wifi | Plumbing | Electrical | Furniture | Cleaning | Other

  /** An instant as milliseconds since the epoch, the value `Date.getTime()` compares. */
  type Timestamp = int

  datatype User = User(id: string, name: string, email: string, role: Role, avatar: string)

  datatype Ticket = Ticket(
    id: string,
    title: string,
    description: string,
    status: TicketStatus,
    priority: TicketPriority,
    createdBy: string,
    assignedTo: Option<string>,
    assignedGroupId: Option<string>,
    createdAt: Timestamp,
    updatedAt: Timestamp,
    // guest fields
    isGuest: Option<bool>,
    guestName: Option<string>,
    guestEmail: Option<string>,
    guestRoom: Option<string>,
    problemType: Option<ProblemType>)

  datatype Comment = Comment(id: string, ticketId: string, content: string, createdBy: string, createdAt: Timestamp)

  datatype Group = Group(id: string, name: string, memberIds: seq<string>, createdAt: Timestamp)

  function ProblemTypeName(p: ProblemType): string {
    match p
    case Wifi => "WIFI"
    case Plumbing => "PLUMBING"
    case Electrical => "ELECTRICAL"
    case Furniture => "FURNITURE"
    case Cleaning => "CLEANING"
    case Other => "OTHER"
  }
}
