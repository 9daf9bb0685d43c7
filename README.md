# Ticketing store model

A Dafny model of the client side of a small help-desk application. It covers five parts:

- **The entity store.** The data provider (`src/context/data-context.tsx`) keeps four collections in memory: tickets, comments, users and groups. It changes them by prepending (new tickets), appending (comments, invited users, groups) and merging a partial record into every entry with a given id (ticket and group updates, ticket assignment). It answers two queries: a ticket by id, and a ticket's comments in creation order. It mirrors each collection into the browser's key-value storage under a fixed key. When it mounts, it loads what is stored and seeds the missing tickets, users and groups with demo records.
- **The route gate** (`src/middleware.ts`): pass-through or redirect to the sign-in page.
- **The mock sign-in session** (`src/context/auth-context.tsx`): login as a demo account, logout, and restoring the stored session on mount.
- **The group management page** (`src/app/groups/page.tsx`): who may see it, which users it offers as members, the member-selection toggle, and the create-group handler with its blank-name guard.
- **The public guest form** (`src/app/public/new-ticket/page.tsx`): the ticket it builds from the form fields, the submit handler, and the form reset.

Files:

- `types.dfy`: the records and enumerations of `src/types/index.ts`.
- `storage.dfy`: the storage as a map from key to a typed value, and its five keys.
- `lists.dfy`: generic find, filter and map-where helpers, with their lemmas.
- `data_store.dfy`: the entity store. Record builders, merges, queries and the load step are functions. `DataStore.Store` is the provider as a class: the four collections and the storage are fields, and a ghost field holds the console log.
- `middleware.dfy`, `auth_session.dfy`, `groups_page.dfy`, `guest_ticket_page.dfy`: the other four parts.

Modelling choices:

- Fresh ids and clock readings are parameters of the operations that need them. So is the clock value at module load (`epoch`) that the demo records are stamped with.
- Timestamps are integers (milliseconds).
- The storage holds typed values, not JSON text.
- Each React effect runs once after the state change that triggers it. So every store method ends by writing its collection back when that collection is non-empty.
- The class invariant `DataStore.Store.Valid` says:
  - tickets, users and groups are always stored, equal to the in-memory collections;
  - comments are stored the same way, unless none was ever stored or added.
- The source's `createTicket` reads `groups` from the render in which it was created. In this sequential model that is the current list.

## Model

| member | source | states |
|---|---|---|
| Storage.KeysDistinct | src/context/data-context.tsx:24-29 | the four collection keys and the session key are pairwise different, so writing one never disturbs another |
| DataStore.NewTicket | src/context/data-context.tsx:145-150 | the created ticket keeps every supplied field (its draft part equals the draft), carries the fresh id, and takes `createdAt` and `updatedAt` from the two clock readings |
| DataStore.NewTicketFromDraft | src/context/data-context.tsx:145-150 | every ticket is exactly the ticket built from its own draft, id and two stamps (the inverse direction) |
| DataStore.NewComment | src/context/data-context.tsx:168-172 | the created comment keeps ticket id, content and author, carries the fresh id and the time `now` |
| DataStore.AvatarUrl | src/context/data-context.tsx:182 | the avatar address is the dicebear prefix followed by exactly the seed |
| DataStore.AvatarUrlInjective | src/context/data-context.tsx:182 | different names give different avatar addresses |
| DataStore.NewUser | src/context/data-context.tsx:177-183 | the invited user has the given id, name, email and role, and an avatar seeded with that name |
| DataStore.NewGroup | src/context/data-context.tsx:192-197 | the created group has the fresh id, the name and member ids as given, and `createdAt == now` |
| DataStore.AssignPatch | src/context/data-context.tsx:188 | the assignment patch sets `assignedTo` to the user and names no other field |
| DataStore.MergeTicket | src/context/data-context.tsx:164 | a merged ticket's `updatedAt` is always `now` |
| DataStore.MergeTicketFields | src/context/data-context.tsx:164 | each field the patch names takes the patch's value, every other field keeps the ticket's, and `updatedAt` is `now` whatever the patch says |
| DataStore.MergeNoChange | src/context/data-context.tsx:164 | an empty patch changes nothing but the update stamp |
| DataStore.MergeIgnoresPatchedStamp | src/context/data-context.tsx:164 | an `updatedAt` carried in the patch has no effect: the stamp overrides it |
| DataStore.MergeAssign | src/context/data-context.tsx:188 | the `{ assignedTo: userId }` patch sets the assignee and the stamp and nothing else |
| DataStore.MergeTicketIdempotent | src/context/data-context.tsx:164 | merging the same patch twice equals merging it once at the later time |
| DataStore.MergeGroup | src/context/data-context.tsx:202 | an empty group patch leaves the group unchanged (no stamp is touched) |
| DataStore.MergeGroupFields | src/context/data-context.tsx:202 | each field the group patch names takes the patch's value, every other field keeps the group's |
| DataStore.MergeGroupIdempotent | src/context/data-context.tsx:202 | merging the same group patch twice equals merging it once |
| DataStore.UpdatedTickets | src/context/data-context.tsx:164 | the updated list has the same length; tickets with another id are unchanged; each ticket with the id is merged with the patch and stamped |
| DataStore.UpdateUnknownTicket | src/context/data-context.tsx:164 | updating an id no ticket carries leaves the list as it was |
| DataStore.UpdateTicketsIdempotent | src/context/data-context.tsx:164 | repeating an update whose patch keeps the id equals doing it once at the later time |
| DataStore.AssignTicketEffect | src/context/data-context.tsx:187-189 | assigning sets assignee and stamp on exactly the tickets with the id and leaves every other ticket and field unchanged |
| DataStore.UpdatedGroups | src/context/data-context.tsx:202 | same length; groups with another id unchanged; groups with the id merged |
| DataStore.UpdateUnknownGroup | src/context/data-context.tsx:202 | updating an unknown group id leaves the list as it was |
| DataStore.FindTicket | src/context/data-context.tsx:205 | none exactly when no ticket has the id; otherwise a ticket with that id that occurs in the list with no earlier ticket of that id (the first match) |
| DataStore.FindGroup | src/context/data-context.tsx:155 | none exactly when no group has the id; otherwise a group with that id that occurs in the list with no earlier group of that id (the first match) |
| DataStore.InsertByCreation | src/context/data-context.tsx:208 | inserting into a list sorted by creation time gives a sorted list with the same elements plus the new one |
| DataStore.SortByCreation | src/context/data-context.tsx:208 | the sorted list is in non-decreasing creation time and is a permutation of the input |
| DataStore.InsertStable | src/context/data-context.tsx:208 | the insertion step keeps comments of equal creation time in their original order, the inserted one first |
| DataStore.SortStable | src/context/data-context.tsx:208 | sorting keeps comments with the same creation time in their original order (a stable sort) |
| DataStore.TicketComments | src/context/data-context.tsx:207-208 | the result is sorted by creation time, holds only comments of the ticket, and holds each such comment exactly as often as the store does |
| DataStore.TicketCommentsArrivalOrder | src/context/data-context.tsx:207-208 | comments of the ticket created at the same instant appear in the order they were added |
| DataStore.JoinWith | src/context/data-context.tsx:157 | `join`: empty for no ids, the id itself for one; it starts with the first id and ends with the last |
| DataStore.JoinAppend | src/context/data-context.tsx:157 | joining one more id onto a non-empty list appends the separator and that id; with the empty and one-id cases this fixes the whole joined string |
| DataStore.NotificationText | src/context/data-context.tsx:157 | the logged line is the fixed text with the group's name, then ". Members: ", then the member ids joined with ", " |
| DataStore.Notification | src/context/data-context.tsx:154-160 | a console line is produced exactly when the draft's group id is set, non-empty, and names an existing group; the line names that group and lists its member ids |
| DataStore.InitialTickets | src/context/data-context.tsx:31-53 | the demo tickets are t1 and t2, both by u3, each created no later than its last update and both before the load time |
| DataStore.InitialUsers | src/context/data-context.tsx:55-77 | the demo users are u1, u2 and u3 with distinct ids and dicebear avatars; the first is the only master admin |
| DataStore.InitialGroups | src/context/data-context.tsx:79-86 | the one demo group g1 is stamped with the load time |
| DataStore.SeedGroupMembersAreStaff | src/context/data-context.tsx:79-86 | every member of the demo group is a demo user who is not an end user |
| DataStore.SeedIfAbsent | src/context/data-context.tsx:101-106 | a seeding write adds the key with the seed value only if the key is absent; every stored entry is kept |
| DataStore.Persist | src/context/data-context.tsx:128-142 | a persist effect writes the collection under its key exactly when it is non-empty, and changes no other key |
| DataStore.Mount | src/context/data-context.tsx:95-125 | each stored collection is loaded as stored; absent tickets, users and groups are the demo records; absent comments are empty |
| DataStore.MountMirrors | src/context/data-context.tsx:95-125 | after mounting, the storage is well typed and mirrors the loaded collections; absent comments stay unwritten |
| DataStore.MountKeepsStored | src/context/data-context.tsx:95-125 | mounting adds exactly the ticket, user and group keys and overwrites nothing already stored |
| DataStore.PersistAll | src/context/data-context.tsx:127-142 | running the four persist effects on a mirrored state leaves the storage unchanged |
| DataStore.PersistUnchanged | src/context/data-context.tsx:128-142 | writing the value a key already holds, or not writing at all, leaves the storage as it is |
| DataStore.Load | src/context/data-context.tsx:88-142 | the provider's first state is the mount step with the demo records (the persist effects that follow change nothing), and it is well typed and mirrored |
| DataStore.ReloadRestores | src/context/data-context.tsx:95-142 | loading from the storage of any mirrored state gives back that same state, storage included |
| DataStore.Store.constructor | src/context/data-context.tsx:88-142 | the mounted provider satisfies the invariant, holds the loaded state, and has logged nothing |
| DataStore.Store.PersistTickets | src/context/data-context.tsx:128-130 | the ticket persist effect |
| DataStore.Store.PersistComments | src/context/data-context.tsx:132-134 | the comment persist effect |
| DataStore.Store.PersistUsers | src/context/data-context.tsx:136-138 | the user persist effect |
| DataStore.Store.PersistGroups | src/context/data-context.tsx:140-142 | the group persist effect |
| DataStore.Store.CreateTicket | src/context/data-context.tsx:144-161 | the new ticket, built with the fresh id and the two clock readings, is put at index 0 in front of all previous tickets, in order; other collections are unchanged; the ticket key is rewritten; the log grows by the notification, if any; the invariant is kept |
| DataStore.Store.UpdateTicket | src/context/data-context.tsx:163-165 | tickets become the merged list; the other collections and the log are unchanged; the ticket key is rewritten when non-empty; the invariant is kept |
| DataStore.Store.AddComment | src/context/data-context.tsx:167-174 | exactly one comment is appended after the unchanged previous comments; the comment key is written; nothing else changes; the invariant is kept |
| DataStore.Store.InviteUser | src/context/data-context.tsx:176-185 | exactly one user is appended after the unchanged previous users; the user key is written; nothing else changes; the invariant is kept |
| DataStore.Store.AssignTicket | src/context/data-context.tsx:187-189 | the same new state as an update with the `{ assignedTo: userId }` patch |
| DataStore.Store.CreateGroup | src/context/data-context.tsx:191-199 | exactly one group with the given members is appended after the unchanged previous groups; the group key is written; nothing else changes; the invariant is kept |
| DataStore.Store.UpdateGroup | src/context/data-context.tsx:201-203 | groups become the merged list, with no stamp; the group key is rewritten when the list is non-empty; the other collections and the log are unchanged; the invariant is kept |
| DataStore.Store.GetTicket | src/context/data-context.tsx:205 | the first ticket with the id, or none exactly when no ticket has it |
| DataStore.Store.GetTicketComments | src/context/data-context.tsx:207-208 | exactly the ticket's comments, with their multiplicities, in non-decreasing creation time; comments created at the same instant keep the order they were added in |
| Middleware.IsAuthRoute | src/middleware.ts:5 | an auth route is a path whose first characters are `/api/auth` |
| Middleware.IsPublicRoute | src/middleware.ts:6 | a public route is a path whose first characters are `/public`, or exactly `/login` |
| Middleware.RoutesDisjoint | src/middleware.ts:5-6 | no path is both an auth route and a public route |
| Lists.MapWhere | src/context/data-context.tsx:164 | the `map` with a conditional: same length, each element rewritten exactly when the predicate picks it |
| Lists.Find | src/context/data-context.tsx:205 | `find`: none exactly when no element is accepted; otherwise an accepted element with no accepted element before it |
| Lists.Filter | src/context/data-context.tsx:207 | `filter`: no longer than the input, and only accepted elements |
| Lists.FilterCount | src/context/data-context.tsx:207 | `filter` keeps each accepted element exactly as often as it occurs, and no other element |
| Lists.FilterIsSubsequence | src/context/data-context.tsx:207 | `filter` keeps the input's order |
| Middleware.Gate | src/middleware.ts:3-15 | the only redirect the gate issues goes to `/api/auth/signin` |
| Middleware.RedirectedIff | src/middleware.ts:5-14 | a request is redirected exactly when it is not logged in and its path is neither an auth route nor a public route |
| Middleware.AuthRoutesPass | src/middleware.ts:5-10 | every path starting with `/api/auth` passes, logged in or not |
| Middleware.PublicRoutesPass | src/middleware.ts:6-10 | every path starting with `/public`, and `/login`, passes, logged in or not |
| Middleware.LoggedInNeverRedirected | src/middleware.ts:8-14 | a logged-in request is never redirected |
| Middleware.RedirectTargetPasses | src/middleware.ts:5-13 | the redirect target is itself an auth route, so following it never redirects again |
| Middleware.LoginIsExact | src/middleware.ts:6 | only `/login` itself is public: no longer path that starts with `/login` is a public route |
| AuthSession.MockUser | src/context/auth-context.tsx:16-38 | the demo account of a role has that role |
| AuthSession.MockUserIds | src/context/auth-context.tsx:17-37 | the demo accounts have ids u1, u2 and u3, distinct for distinct roles |
| AuthSession.MockUsersAreSeededUsers | src/context/auth-context.tsx:16-38 | the demo accounts are exactly the users the entity store seeds, in role order |
| AuthSession.Session.constructor | src/context/auth-context.tsx:41-42 | the first render has no user and is loading |
| AuthSession.Session.Mount | src/context/auth-context.tsx:44-51 | a stored session becomes the current user; loading ends either way; storage and current user agree afterwards |
| AuthSession.Session.Login | src/context/auth-context.tsx:53-57 | the current user is the role's demo account, and the same account is written under the session key |
| AuthSession.Session.Logout | src/context/auth-context.tsx:59-62 | no current user, and the session key is removed and no other |
| AuthSession.LoginIsIdempotent | src/context/auth-context.tsx:53-57 | logging in twice as a role gives the same user, storage and loading flag as logging in once |
| AuthSession.RestoreAfterLogin | src/context/auth-context.tsx:44-57 | a session mounted over the storage a login left behind restores the logged-in account |
| GroupsPage.TrimStart | src/app/groups/page.tsx:32 | the result is a suffix; everything dropped is whitespace; the result starts with a non-whitespace character or is empty |
| GroupsPage.TrimEnd | src/app/groups/page.tsx:32 | the result is a prefix; everything dropped is whitespace; the result ends with a non-whitespace character or is empty |
| GroupsPage.Trim | src/app/groups/page.tsx:32 | the trimmed name is a slice of the name with only whitespace outside it, and it neither starts nor ends with whitespace |
| GroupsPage.TrimEmptyIffBlank | src/app/groups/page.tsx:32 | a name trims to nothing exactly when it is empty or all whitespace |
| GroupsPage.MemberCandidates | src/app/groups/page.tsx:181 | the candidates are exactly the users whose role is not USER, each as often as in the list, in list order |
| GroupsPage.MayManageGroups | src/app/groups/page.tsx:19 | access is denied exactly when there is no user or the user is not MASTER_ADMIN |
| GroupsPage.DemoUsersWhoManageGroups | src/app/groups/page.tsx:19 | of the demo users only u1, the master admin, may manage groups |
| GroupsPage.PageView | src/app/groups/page.tsx:19-28 | the access-denied view is shown exactly when there is no user or the user is not MASTER_ADMIN; otherwise the candidates are offered |
| GroupsPage.ToggleAbsentAppends | src/app/groups/page.tsx:44 | toggling an unselected id appends it at the end |
| GroupsPage.TogglePresentRemoves | src/app/groups/page.tsx:42-43 | toggling a selected id removes every occurrence of it, keeps every other id as often as before and in order, and shortens the selection |
| GroupsPage.Toggle | src/app/groups/page.tsx:40-46 | after a toggle the id is selected exactly when it was not before, and every other id is selected exactly as before |
| GroupsPage.WithoutAbsent | src/app/groups/page.tsx:43 | filtering out an id that is absent changes nothing |
| GroupsPage.ToggleTwiceRestores | src/app/groups/page.tsx:40-46 | toggling the same absent id twice gives back the original selection |
| GroupsPage.ToggleKeepsNoDuplicates | src/app/groups/page.tsx:40-46 | toggling keeps a duplicate-free selection duplicate-free |
| GroupsPage.Page.constructor | src/app/groups/page.tsx:15-17 | the modal is closed, the name empty, nothing selected |
| GroupsPage.Page.OpenModal | src/app/groups/page.tsx:60 | the modal opens; name and selection are kept |
| GroupsPage.Page.CloseModal | src/app/groups/page.tsx:135 | the modal closes (backdrop, close button and cancel alike); name and selection are kept |
| GroupsPage.Page.EditGroupName | src/app/groups/page.tsx:171 | the name becomes the typed value; nothing else changes |
| GroupsPage.Page.ToggleMemberSelection | src/app/groups/page.tsx:40-46 | the selection becomes its toggle; nothing else changes |
| GroupsPage.Page.HandleCreateGroup | src/app/groups/page.tsx:30-38 | a blank name changes neither the form nor the store; otherwise one group with the untrimmed name and the current selection is appended, and the modal closes with name and selection cleared |
| GuestTicketPage.GuestTitle | src/app/public/new-ticket/page.tsx:29 | the title is the problem type's name, then " Issue - Room ", then the room |
| GuestTicketPage.GuestDraft | src/app/public/new-ticket/page.tsx:28-39 | a guest ticket is OPEN, MEDIUM, created by "guest", marked as guest, with no assignee and no group; its email is absent exactly when the field is empty and is the field otherwise; name, room, problem type and description are copied into it |
| GuestTicketPage.GuestDraftKeepsForm | src/app/public/new-ticket/page.tsx:30-38 | name, room, problem type, description and email are read back unchanged from the draft |
| GuestTicketPage.GuestDraftInjective | src/app/public/new-ticket/page.tsx:28-39 | different forms give different tickets |
| GuestTicketPage.GuestDraftNotifiesNobody | src/app/public/new-ticket/page.tsx:28-39 | a guest ticket names no group, so creating it logs nothing |
| GuestTicketPage.Page.constructor | src/app/public/new-ticket/page.tsx:11-19 | an empty form with problem type WIFI, not submitted, not loading |
| GuestTicketPage.Page.Edit | src/app/public/new-ticket/page.tsx:93-147 | the form fields become the typed values; the flags are kept |
| GuestTicketPage.Page.HandleSubmit | src/app/public/new-ticket/page.tsx:21-43 | exactly one ticket, built from the current form, is put in front of the store's tickets; the ticket key is rewritten with the new list; the other collections and the log are unchanged; the form is kept; loading ends and the confirmation shows |
| GuestTicketPage.Page.SubmitAnother | src/app/public/new-ticket/page.tsx:57-64 | the form is empty again with problem type WIFI, and the confirmation is gone |

## Left out

- JSON encoding: `JSON.stringify` and `JSON.parse` are not modelled. The storage holds typed values.
- Foreign storage data: the constructors require that each known key holds a value of the kind its owner writes there, and a key holds the typed value rather than JSON text. What the source does with other stored text is not modelled: text that is not valid JSON makes `JSON.parse` throw; the empty string is falsy, so it is treated like an absent key (the store reseeds and writes the demo records back, src/context/data-context.tsx:101-124, and the session stays logged out, src/context/auth-context.tsx:47); and valid JSON of another shape is loaded as it is: for `{}` the persist test `length > 0` (src/context/data-context.tsx:129-141) is false, `null` makes that test throw, and a string or an array of other records passes it and is written back.
- Ids: `Math.random` ids are parameters. Uniqueness is not claimed, because the source does not enforce it.
- Time: clock readings are integer parameters, and ISO date strings are not modelled. `createTicket`'s two readings are two parameters. The demo tickets and group are stamped from one module-load time `epoch`, while the source reads the clock once per field. DataStore.UpdatedTickets and DataStore.Store.UpdateTicket use one reading `now` for every matching ticket, while the source's `map` reads the clock once per match; when ids are unique there is at most one match, and the two agree.
- Sort comparator: the comparator subtracts parsed dates. It is modelled as a comparison of integer timestamps, so unparsable dates (NaN) are not modelled.
- Console: `console.log` is a ghost log of strings on the store (`notifications`).
- React scheduling: batching, effect ordering and StrictMode double effects are not modelled. Each persist effect runs after its state change. The `prev =>` updater form is the same as reading the current field in this sequential model.
- DataStore.Store.CreateTicket: the notification is computed from the current groups. In the source it may come from a stale render, and that is not modelled.
- Guest form delay: the 800 ms `setTimeout` and the intermediate render while `isLoading` is true are dropped. GuestTicketPage.Page.HandleSubmit states only the final state.
- HTML form validation: the `required` attributes of the guest form are not modelled, so any field values may be submitted.
- The `matcher` regex of the middleware (src/middleware.ts:18) is framework path matching. Only the callback is modelled.
- The NextAuth configuration (src/auth.ts), the server actions (src/actions/ticket-actions.ts), the load-test script and all JSX rendering and navigation are not part of this model.
- Separate storage views: `DataStore.Store` and `AuthSession.Session` each own a storage map. The browser's single `localStorage` is not shared between them in the model. Their keys are disjoint (`Storage.KeysDistinct`), so neither writes a key the other reads.
- Strings: JavaScript strings are sequences of UTF-16 code units, and the model's strings are sequences of Unicode scalar values. So lone surrogates cannot be represented. `startsWith`, `trim` and the template concatenations behave the same on every string the model can represent.
