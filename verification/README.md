# Potty API: a Dafny model of the record store and its status-change notifications

The potty API is a small HTTP service with two tables. The `potty` table holds a
status (OCCUPIED or VACANT) and a location (NORTH, SOUTH, EAST or WEST) under an
integer id. The `subscriber` table holds webhook URLs. Clients can list potties,
optionally filtered by status, fetch one, create one, and patch its status.
Subscribers can be registered and deleted. When a patch really changes a potty's
status, every registered subscriber gets one POST with the change, and a subscriber
whose POST raises is deleted on the spot.

This project models that behaviour and proves its rules:

- `wrappers.dfy`: `Option`, which stands for a nullable column or an absent request argument.
- `records.dfy` (module `Records`):
  - the two enumerations and the two row types;
  - the argument parsers: an enumeration value is accepted exactly when it is a member's value;
  - the dispatch guard `Notifies`;
  - the event body `ChangeEvent`.
- `queries.dfy` (module `Queries`): the read-only handlers.
  - `Find` is lookup by id, or NotFound.
  - `ListPotties` lists potties under an optional status filter.
  - `NextRowId` gives the key a new row receives: one more than the largest key, or 1 for an empty table.
- `store.dfy` (module `Store`): class `Database` holds the two tables as `map` fields, and its methods change them in place.
  - `CreatePotty`, `CreateSubscriber` and `DeleteSubscriber` are the other write handlers.
  - `Patch` looks up the potty, overwrites its status, persists it, and calls `Dispatch` if the guard allows.
  - `Dispatch` is the notification loop. It works over a snapshot of the subscriber table: it makes one delivery attempt per subscriber and deletes each one whose attempt raised.

The network is a parameter of `Patch`. `raises` is the set of subscriber ids whose
`requests.post` raises during this dispatch. Every attempt made is returned as
`attempts`, in the order it was made. Each entry records the subscriber, its URL and
the event body.

Both parsers store a missing argument as null: the create parser (app.py:66-71) and
the patch parser (app.py:118-122). So `status` and `location` are `Option` values in
the model. A PATCH without `status` writes null and persists it. If that changes the
status and a subscriber exists, building the event fails on the null's `.name`. That
happens outside the `try`, after the commit, so the request ends in `ServerError` and
no attempt is made. The same holds when the old status or the location is null.

Three further facts about the code shape the model:
- A missing status or location is stored as null, not refused (app.py:66-71, 118-122).
- A subscriber `url` is checked only for presence, so an empty string is stored (app.py:144).
- The patch parser declares only `status`, so a patch never changes `location` (app.py:120).

## Model

| member | source | states |
|---|---|---|
| `Records.ParseStatus` | app.py:20-22 | A string parses to a status exactly when it is that status's value, so parsing inverts `StatusName`. |
| `Records.ParseLocation` | app.py:24-28 | A string parses to a location exactly when it is that location's value, so parsing inverts `LocationName`. |
| `Records.ParseOptionalStatus` | app.py:118-122 | An absent status argument gives null. A member's value gives that member. Any other value is BadRequest. |
| `Records.ParseOptionalLocation` | app.py:66-71 | An absent location argument gives null. A member's value gives that member. Any other value is BadRequest. |
| `Records.Notifies` | app.py:98-99 | No notification when the status is unchanged or the subscriber table is empty. Notification otherwise. |
| `Records.ChangeEvent` | app.py:101-106 | The event exists exactly when the old status, the new status and the location are all non-null. It carries the potty id, and its three name fields decode back to the old status, the new status and the location. |
| `Queries.NextRowId` | app.py:30 | A new row's key is 1 in an empty table. Otherwise it is one more than the largest stored key, so it is never a key in use. |
| `Queries.Find` | app.py:85 | Lookup by id succeeds exactly when the id is stored, and returns that row under that id. Otherwise it is NotFound. |
| `Queries.ListPotties` | app.py:54-56 | With no status filter, every potty is listed. With a valid filter, exactly the stored potties holding that status are listed, with their stored values; a null status matches no filter. An invalid filter is BadRequest. |
| `Store.Database.constructor` | app.py:12-13 | The store starts with both tables empty. |
| `Store.Database.CreatePotty` | app.py:59-64 | An invalid status or location is BadRequest and changes nothing. Otherwise the row is stored under a fresh key with the parsed values, a lookup of that key returns it, and the subscriber table is untouched. |
| `Store.Database.Patch` | app.py:88-116 | An unknown id is NotFound and an invalid status is BadRequest; in both cases nothing changes and no attempt is made. Otherwise only `status` is overwritten and persisted, keeping id and location, and success returns the stored row. With an unchanged status or no subscribers, no attempt is made. A real change whose event has a null name is ServerError after the write, with no attempt. Otherwise each snapshot subscriber gets exactly one attempt, and the table becomes the snapshot minus exactly those whose attempt raised. |
| `Store.Database.Dispatch` | app.py:100-115 | An event that cannot be built fails before any attempt and changes nothing. Otherwise the attempts go to pairwise distinct subscribers, one per snapshot subscriber, each to its URL with the same event. The table ends as the snapshot minus those whose attempt raised: a failure never stops later attempts, and nothing is added. |
| `Store.DispatchStep` | app.py:107-115 | One loop pass keeps the dispatch invariant: the attempted subscriber gets one attempt with its URL and the event, and it is deleted exactly when its attempt raised. |
| `Store.DispatchComplete` | app.py:100-115 | When every snapshot subscriber has been attempted, there was exactly one attempt per subscriber, and the table is the snapshot minus those whose attempt raised. |
| `Store.Database.CreateSubscriber` | app.py:135-146 | A missing `url` is BadRequest and nothing is created. A present one is stored under a fresh key, a lookup returns it, and the potty table is untouched. |
| `Store.Database.DeleteSubscriber` | app.py:152-155 | An unknown id is NotFound and changes nothing. A known id removes exactly that entry, after which a lookup of it is NotFound. |

## Left out

- HTTP routing and status codes, and `marshal_with` serialisation (app.py:10-11, 43-47, 125-128), are not modelled. Results are the `Outcome` values `Ok`, `Err(NotFound)`, `Err(BadRequest)` and `Err(ServerError)`.
- How the request parser reads arguments from the query string, form or JSON body is not modelled. An argument is `Some(text)` or absent.
- The loop of patch that copies every parsed argument onto the row (app.py:93-94) is modelled as a single assignment. The patch parser declares only `status`, and it always stores it, so that loop makes exactly one pass.
- The SQLAlchemy session and its commits (app.py:62-63, 95-96, 114-115) are modelled as direct updates of in-memory maps. The model does not cover commit atomicity or a crash between the status commit and the dispatch.
- `Queries.NextRowId`: SQLite picks a random unused key once the largest key reaches the 64-bit maximum. The model uses unbounded integers and never reaches that case.
- `Queries.Find`, `Store.Database.Patch`, `Store.Database.DeleteSubscriber`: ids are unbounded integers. The routes accept any digit string (app.py:80, 149), and an id outside SQLite's signed 64-bit range makes the query at app.py:85, 89 or 153 raise, which is a server error. The model answers NotFound for every absent id instead.
- `Store.Database.CreateSubscriber`, `Records.Subscriber`: a JSON body `{"url": null}` passes the presence check (app.py:144) and stores a subscriber with a null `url`, which the column allows (app.py:40). The model has no null url: a url argument is text or absent, and a stored url is always text.
- `Queries.ListPotties`: the order of the listed rows is not modelled. The result is keyed by id, and no order among potties or subscribers is promised.
- `requests.post` (app.py:108-111) is an outbound network call and is not modelled. Only its outcome is: it raises or it does not, given by the `raises` parameter. A non-2xx response counts as not raising, because the bare `except:` catches only exceptions.
- The response to a webhook, timeouts and retries are not modelled. The source ignores the response and never retries.
- Process startup (`app.run`, app.py:158-159) and the sqlite file configuration (app.py:13) are not modelled.
