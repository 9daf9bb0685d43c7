/**
 * The browser's key-value storage (`localStorage`) as the two providers use it: each key holds
 * one serialized value. JSON text is not modelled; a key holds the typed value that was written.
 */
module Storage {
  import opened Types

  datatype Value =
    | TicketList(tickets: seq<Ticket>)
    | CommentList(comments: seq<Comment>)
    | UserList(users: seq<User>)
    | GroupList(groups: seq<Group>)
    | SessionUser(user: User)

  type LocalStorage = map<string, Value>

  // The fixed keys of the entity store (STORAGE_KEYS) and of the mock session.
  const TicketsKey: string := "ticketing_data_tickets"
  const CommentsKey: string := "ticketing_data_comments"
  const UsersKey: string := "ticketing_data_users"
  const GroupsKey: string := "ticketing_data_groups"
  const AuthUserKey: string := "ticketing_auth_user"

  /** The five keys are pairwise distinct (they differ in length). */
  lemma KeysDistinct()
    ensures TicketsKey != CommentsKey && TicketsKey != UsersKey && TicketsKey != GroupsKey
    ensures CommentsKey != UsersKey && CommentsKey != GroupsKey && UsersKey != GroupsKey
    ensures AuthUserKey != TicketsKey && AuthUserKey != CommentsKey
    ensures AuthUserKey != UsersKey && AuthUserKey != GroupsKey
  {
    assert |TicketsKey| == 22 && |CommentsKey| == 23 && |UsersKey| == 20;
    assert |GroupsKey| == 21 && |AuthUserKey| == 19;
  }

  /** Every known key holds a value of the kind its owner writes there. */
  predicate WellTyped(s: LocalStorage) {
    && (TicketsKey in s ==> s[TicketsKey].TicketList?)
    && (CommentsKey in s ==> s[CommentsKey].CommentList?)
    && (UsersKey in s ==> s[UsersKey].UserList?)
    && (GroupsKey in s ==> s[GroupsKey].GroupList?)
    && (AuthUserKey in s ==> s[AuthUserKey].SessionUser?)
  }
}
