# opsdesk core, modelled in Dafny

This project models the core of opsdesk, a help-desk system, and proves properties of the model.

**The event-processing worker** (`apps/worker/src/consumer.ts`)
- Each domain event (ticket created, ticket status changed, ticket updated, message sent) arrives from a queue bound to its routing key.
- The worker checks a processed-events ledger, so each event is applied at most once.
- It runs the event's handler; three handlers invalidate the cached ticket lists.
- It records the event and acks it.
- On any failure it either republishes the message with an incremented `x-retry-count` after a capped exponential backoff, or nacks it without requeue so that it goes to the dead-letter queue `tickets.dlq`.

**How the worker is modelled**
- `WorkerModel` describes one delivery as functions of the worker's state:
  - the ledger, a map from event id to event type;
  - the cache, a set of keys;
  - the four metrics counters;
  - a trace of effects: handler calls, ledger writes, backoff waits, publishes, acks and nacks.
- `WorkerConsumer.Worker` is the imperative worker. It is a class holding the same state as fields. Each method is proved against `WorkerModel`.
- Store failures and `JSON.parse` are inputs:
  - `StoreFaults` says which ledger or cache call fails on a delivery;
  - `parse` gives the parsed body, or None where parsing throws.

**The decision logic around the worker**
- Role-to-permission expansion in the API and in the realtime service.
- The permissions guard and ticket ownership.
- The two JWT guards: public bypass, Bearer parsing, and error-message selection.
- Socket authentication and room joining in the realtime gateway.
- The realtime consumer that fans events out to ticket rooms.
- The find-or-create user resolver.
- The in-memory broker used by the API's end-to-end tests.
- The cache-key builder whose list keys the worker invalidates.
- The request validators for listing tickets, creating tickets and messages, and changing a ticket's status.

Signature checks, key lookups and database-generated ids are oracle parameters.

**Two behaviours of the worker stated as the code has them:**
- The worker stops trying to connect to the broker after ten failed attempts, three seconds apart, and then throws.
- A failing ledger lookup, or a body that does not parse, takes the normal retry path. Below the limit the message is republished and the original acked; at the limit it is dead-lettered.

## Model

| member | source | states |
|---|---|---|
| WorkerModel.QueueName | apps/worker/src/consumer.ts:11-14 | each event type's queue is its routing key followed by `.queue` |
| WorkerModel.QueueNameInjective | apps/worker/src/consumer.ts:79-108 | distinct event types are consumed from distinct queues |
| WorkerModel.MessageId | apps/worker/src/consumer.ts:161 | the message id when present and non-empty, otherwise the delivery tag in decimal |
| WorkerModel.RetryDecisionOfNumber | apps/worker/src/consumer.ts:196-201 | a missing header counts as 0. A numeric count below 3 is retried with count + 1 on the copy. A count of 3 or more is dead-lettered |
| WorkerModel.BackoffValues | apps/worker/src/consumer.ts:222 | the backoff before republications 1, 2 and 3 is 1000, 2000 and 4000 ms; from count 5 on it is the 30000 ms cap |
| WorkerModel.BackoffBounds | apps/worker/src/consumer.ts:19-20 | every backoff lies between 1000 and 30000 ms |
| WorkerModel.BackoffMonotone | apps/worker/src/consumer.ts:222 | the backoff never shrinks as the retry count grows |
| WorkerModel.Record | apps/worker/src/consumer.ts:267-277 | the insert keeps every existing entry. A new id is added with its type. An id already present, under any type, leaves the table unchanged (ON CONFLICT on event_id) |
| WorkerModel.InvalidationPatternIsListPattern | apps/api/src/cache/cache-keys.ts:38-40 | the worker's invalidation pattern is the API's tickets-list pattern, `tickets:list` + `*` |
| WorkerModel.InvalidateExact | apps/worker/src/consumer.ts:344-356 | a key survives invalidation exactly when it does not start with `tickets:list` |
| WorkerModel.InvalidationScope | apps/worker/src/consumer.ts:346-350 | every list key the API builds is removed; user-permission keys and single-ticket keys survive |
| WorkerModel.HandlerCacheOutcome | apps/worker/src/consumer.ts:279-339 | a handler that returns has invalidated the list cache exactly for the three ticket events. One that throws has invalidated only for `ticket.created`, which clears the cache before the log template that throws |
| WorkerModel.EncodedEventsReadable | apps/worker/src/consumer.ts:279-339 | every well-formed event (an object payload whose fields are strings) is handled without throwing: its payload reads and every interpolated field converts to text |
| WorkerModel.FailEffects | apps/worker/src/consumer.ts:193-209 | the catch block's effects end with exactly one settlement: an ack after a retry, a nack otherwise. Nothing before it settles |
| WorkerModel.TryEffects | apps/worker/src/consumer.ts:163-189 | the try block appends exactly these effects to the trace. When it throws, it has done at most the handler call |
| WorkerModel.Trace | apps/worker/src/consumer.ts:154-210 | handling a delivery only appends to the trace |
| WorkerModel.ExactlyOneSettlement | apps/worker/src/consumer.ts:154-210 | every delivery is settled exactly once, with its own tag, and settling is the last thing done for it |
| WorkerModel.DuplicateDelivery | apps/worker/src/consumer.ts:165-172 | an id recorded with this type is acked and counted as a duplicate. The handler is not run, and the ledger and cache are unchanged |
| WorkerModel.TagFallbackDuplicate | apps/worker/src/consumer.ts:161-172 | an event without a message id is recorded under its delivery tag's text, so any later event without one that gets the same tag is acked as a duplicate and its handler never runs |
| WorkerModel.SuccessPath | apps/worker/src/consumer.ts:181-189 | success happens exactly when nothing fails: the lookup, the parse, the handler (its payload reads and its templates convert) and the ledger write. The trace is then handler, ledger write, ack; `processed` grows by one; the ledger is written and the list cache invalidated for ticket events |
| WorkerModel.FailurePath | apps/worker/src/consumer.ts:193-209 | on any failure the ledger is unchanged. Below the limit: wait, republish, ack, `retried`+1. At the limit: a nack without requeue, no publish, `failed`+1 |
| WorkerModel.RepublishKeepsHeaders | apps/worker/src/consumer.ts:236-239 | the republished copy keeps every other header unchanged |
| WorkerModel.MetricsMonotone | apps/worker/src/consumer.ts:23-28 | no counter decreases, and each delivery raises exactly one counter by one |
| WorkerModel.LedgerOnlyGrows | apps/worker/src/consumer.ts:267-277 | handling never removes a ledger entry or changes its type |
| WorkerModel.DedupIdempotent | apps/worker/src/consumer.ts:165-172 | once an event has been processed, a redelivery with the same id is only acked, and the ledger stays as it is |
| WorkerModel.SecondTypeNeverRecorded | apps/worker/src/consumer.ts:271 | an id already recorded under another event type is never recorded under this one |
| WorkerModel.MessageSentLeavesCache | apps/worker/src/consumer.ts:326-339 | a `message.sent` delivery never changes the cache |
| WorkerModel.CacheFailureSwallowed | apps/worker/src/consumer.ts:353-355 | whether the cache fails changes neither the trace, nor the counters, nor the ledger |
| WorkerModel.Redelivery | apps/worker/src/consumer.ts:230-242 | the redelivered copy has the original routing key, content and message id |
| WorkerModel.RetriesBounded | apps/worker/src/consumer.ts:196-208 | however often deliveries fail, a message with a missing or numeric count is republished at most 3 − count times |
| WorkerModel.OneFailureCounts | apps/worker/src/consumer.ts:238 | a failed delivery below the limit publishes exactly one copy, which carries the next count |
| WorkerModel.RetriedStep | apps/worker/src/consumer.ts:199-202 | a message that always fails, below the limit, is republished. The ledger is unchanged, and the copy, redelivered under a tag whose lookup id is not recorded, fails in the same way |
| WorkerModel.ExhaustedStep | apps/worker/src/consumer.ts:203-208 | a message that always fails, at the limit, is nacked: no publish, `failed`+1, ledger unchanged |
| WorkerModel.AlwaysFailingDeliveries | apps/worker/src/consumer.ts:196-208 | a message that always fails, starting at count c, and whose redelivery tags give unrecorded lookup ids, is republished once per count up to 3, carrying c+1…3, and then nacked on its last delivery |
| WorkerModel.DeadLetteredOnFourthDelivery | apps/worker/src/consumer.ts:18 | a message that always fails, starts without a count and is redelivered under tags whose lookup ids are unrecorded is republished three times (counts 1, 2, 3) and dead-lettered on its fourth delivery |
| WorkerConsumer.ConnectWithRetry | apps/worker/src/consumer.ts:58-149 | connects exactly when one of the attempts succeeds, at the first such attempt, with a 3000 ms wait after each failed one; otherwise it gives up after all attempts |
| WorkerConsumer.Worker.constructor | apps/worker/src/consumer.ts:23-28 | counters start at zero, with an empty trace |
| WorkerConsumer.Worker.CheckIfProcessed | apps/worker/src/consumer.ts:251-262 | None exactly when the query fails; otherwise whether the id is recorded with this type |
| WorkerConsumer.Worker.MarkAsProcessed | apps/worker/src/consumer.ts:267-277 | the table becomes `Record` of the old table unless the insert fails, and nothing else changes |
| WorkerConsumer.Worker.InvalidateTicketsCache | apps/worker/src/consumer.ts:344-356 | the cache becomes `Invalidate` of the old cache, and nothing else changes |
| WorkerConsumer.Worker.RunHandler | apps/worker/src/consumer.ts:279-339 | returns normally exactly when the payload reads and every interpolated field converts; the cache gets the handler's effect up to the point where it throws |
| WorkerConsumer.Worker.RetryMessage | apps/worker/src/consumer.ts:215-246 | appends wait (the backoff), republish with the new count, then ack of the original |
| WorkerConsumer.Worker.TryHandle | apps/worker/src/consumer.ts:163-192 | reaches the state the try block specifies, and reports whether it threw |
| WorkerConsumer.Worker.CatchFailure | apps/worker/src/consumer.ts:193-209 | reaches the state the catch block specifies |
| WorkerConsumer.Worker.HandleMessage | apps/worker/src/consumer.ts:154-210 | the new state is `Handle` of the old one, so every property above holds of each call |
| WorkerConsumer.Worker.Consume | apps/worker/src/consumer.ts:117-138 | a null delivery changes nothing; any other is handled |
| CacheKeys.UserPermissions | apps/api/src/cache/cache-keys.ts:10-12 | the key is `user:`, then the id, then `:permissions` |
| CacheKeys.UserPermissionsInjective | apps/api/src/cache/cache-keys.ts:10-12 | distinct users have distinct permission keys |
| CacheKeys.Ticket | apps/api/src/cache/cache-keys.ts:45-47 | the key is `ticket:` followed by the id |
| CacheKeys.TicketsListPattern | apps/api/src/cache/cache-keys.ts:38-40 | the pattern is the list prefix followed by `*` |
| CacheKeys.TicketsList | apps/api/src/cache/cache-keys.ts:17-33 | the key built by pushing a part for each set parameter and joining with `:` is the list key of those parameters (`ListKey`), whose properties the lemmas below state |
| CacheKeys.ListKeyParts | apps/api/src/cache/cache-keys.ts:24-30 | the list key's parts are `tickets:list` followed by the part of each set field, in the order status, user, offset, limit, order |
| CacheKeys.NoParamsKey | apps/api/src/cache/cache-keys.ts:24-32 | with no parameter set the key is `tickets:list` |
| CacheKeys.ListKeyMatchesPattern | apps/api/src/cache/cache-keys.ts:24-40 | every list key starts with `tickets:list` and matches `tickets:list*` |
| CacheKeys.SegmentsOrdered | apps/api/src/cache/cache-keys.ts:26-30 | segments come in the order status, user, offset, limit, order |
| CacheKeys.SegmentPresentIffSet | apps/api/src/cache/cache-keys.ts:26-30 | a segment appears exactly when its parameter is set (truthy, or defined for offset and limit), with its value |
| CacheKeys.OffsetZeroKept | apps/api/src/cache/cache-keys.ts:28 | offset 0 still produces `offset:0` |
| Events.RoutingKeyInjective | libs/events/ticket-created.event.ts:2 | distinct event types have distinct routing keys |
| Events.Encode | packages/events/message-sent.event.ts:1-10 | an event is an object whose `event` is its routing key and whose `payload` holds its fields |
| Http.AllAndOverride | apps/api/src/auth/guards/permissions.guard.ts:16-19 | handler metadata wins when present; the class's is used otherwise |
| JsonValue.Property | apps/realtime/src/messaging/rabbitmq-consumer.service.ts:48 | a property is present exactly on an object that has it |
| JsonValue.ReadProperty | apps/realtime/src/messaging/rabbitmq-consumer.service.ts:53 | reading a property throws exactly on null or undefined |
| JsonValue.ValueText | apps/worker/src/consumer.ts:293 | a string converts to itself. An object throws exactly when it has its own `toString` key, and an array throws exactly when one of its non-null elements does |
| JsonValue.TemplateTextOfString | apps/realtime/src/realtime/realtime.gateway.ts:66 | a string id is interpolated as itself |
| RolePermissions.PermissionsOf | apps/api/src/auth/role-permissions.map.ts:1-13 | a role outside admin, agent and customer has no permissions |
| RolePermissions.ExpandAppend | apps/api/src/auth/keycloak-jwt.strategy.ts:56 | expanding two role lists one after the other is expanding their concatenation |
| RolePermissions.ExpandLength | apps/api/src/auth/keycloak-jwt.strategy.ts:56 | the expansion keeps duplicates: its length is the sum of the roles' list lengths |
| RolePermissions.ExpandMembership | apps/api/src/auth/keycloak-jwt.strategy.ts:56 | a permission is granted exactly when one of the roles lists it |
| RolePermissions.UnknownRolesGrantNothing | apps/api/src/auth/keycloak-jwt.strategy.ts:56 | roles outside the table grant nothing |
| RolePermissions.AdminHoldsEveryPermission | apps/api/src/auth/role-permissions.map.ts:2-12 | every agent or customer permission is also an admin permission |
| RolePermissions.ExpandWithinAdmin | apps/api/src/auth/role-permissions.map.ts:2-12 | every granted permission is an admin permission |
| KeycloakJwtStrategy.Construct | apps/api/src/auth/keycloak-jwt.strategy.ts:27-52 | fails exactly when the issuer is unset or empty; otherwise the key set lives under the issuer's certs path |
| KeycloakJwtStrategy.Validate | apps/api/src/auth/keycloak-jwt.strategy.ts:54-66 | the id is `sub` and the email passes through. Missing realm roles give empty roles and permissions. The roles pass through, and the permissions are the roles' lists concatenated in role order with duplicates kept (`Expand` of the roles), so a permission is present exactly when one of the roles lists it |
| KeycloakJwtStrategy.AgentAndCustomerPermissions | apps/api/src/auth/role-permissions.map.ts:11-12 | agent yields ticket:read, ticket:update; customer yields ticket:create, ticket:read, message:send |
| KeycloakJwtStrategy.DuplicatesKept | apps/api/src/auth/keycloak-jwt.strategy.ts:56 | agent plus customer yields `ticket:read` twice, in role order |
| PermissionsGuard.EveryIff | apps/api/src/auth/guards/permissions.guard.ts:32 | `every`/`includes` holds exactly when every required permission is held |
| PermissionsGuard.CanActivate | apps/api/src/auth/guards/permissions.guard.ts:15-33 | no or empty requirement gives true, even without a user. A requirement without a user is Forbidden `User not authenticated`. Otherwise true exactly when every requirement is held |
| PermissionsGuard.MorePermissionsStillAllowed | apps/api/src/auth/guards/permissions.guard.ts:32 | granting more permissions never turns an allow into a refusal |
| PermissionsGuard.MoreRequirementsStillRefused | apps/api/src/auth/guards/permissions.guard.ts:32 | requiring more never turns a refusal into an allow |
| PermissionsGuard.HandlerRequirementOverridesClass | apps/api/src/auth/guards/permissions.guard.ts:16-23 | an empty handler requirement lets the request through whatever the class requires |
| Ownership.CanAccessTicket | apps/api/src/auth/ownership.ts:3-11 | admins, agents and the owner have access, and nobody else |
| Ownership.NonOwnerAccessImpliesRead | apps/api/src/auth/ownership.ts:7-8 | a non-owner with access holds `ticket:read` |
| JwtAuthGuard.BearerToken | apps/api/src/auth/jwt-auth.guard.ts:30-36 | a token exists exactly when the header starts with `Bearer `, and the header is `Bearer ` followed by the token |
| JwtAuthGuard.BearerTokenRoundTrip | apps/api/src/auth/jwt-auth.guard.ts:36 | `Bearer ` + t yields t |
| JwtAuthGuard.CanActivate | apps/api/src/auth/jwt-auth.guard.ts:19-53 | a public handler (handler metadata only) passes untouched. No Bearer header gives Unauthorized `Missing token`; a failed verification gives `Invalid token`. Both leave the user unset. Success sets the user to sub, email and roles |
| KeycloakJwtAuthGuard.FailureMessage | apps/api/src/auth/keycloak-jwt-auth.guard.ts:53-57 | the message is the error's message if non-empty, else a string info, else info's non-empty message, else `Authentication failed` |
| KeycloakJwtAuthGuard.EmptyMessageOnlyFromEmptyInfo | apps/api/src/auth/keycloak-jwt-auth.guard.ts:53-57 | the message is empty only when info is the empty string |
| KeycloakJwtAuthGuard.HandleRequest | apps/api/src/auth/keycloak-jwt-auth.guard.ts:32-62 | an error or a missing user gives Unauthorized with that message, even when a user is present; otherwise the user is returned unchanged |
| KeycloakJwtAuthGuard.CanActivate | apps/api/src/auth/keycloak-jwt-auth.guard.ts:16-30 | public metadata (handler first, then class) gives true. Otherwise the result is the strategy outcome passed through `handleRequest`: true exactly when there is no error and a user, and every failed authentication throws 401 with the selected message. The guard never returns false |
| KeycloakJwtAuthGuard.ClassMarkerAndHandlerOverride | apps/api/src/auth/keycloak-jwt-auth.guard.ts:18-25 | a public class makes its handlers public unless the handler says otherwise |
| RealtimeAuth.ExtractBearerToken | apps/realtime/src/realtime/realtime-auth.service.ts:110-114 | a token exists exactly for a string starting with `Bearer `, and the string is `Bearer ` followed by the token |
| RealtimeAuth.SelectToken | apps/realtime/src/realtime/realtime-auth.service.ts:56-58 | the handshake's auth token wins; the header is read only when it is absent |
| RealtimeAuth.RealtimePermissionsAgree | apps/realtime/src/realtime/realtime-auth.service.ts:25-37 | the realtime service's role table expands exactly like the API's |
| RealtimeAuth.LocalAuth | apps/realtime/src/realtime/realtime-auth.service.ts:65-79 | succeeds exactly with a non-empty secret and a verified token, with id = sub and absent roles or permissions as empty lists. Any failure is `Invalid token` |
| RealtimeAuth.VerifyKeycloak | apps/realtime/src/realtime/realtime-auth.service.ts:116-143 | a payload exactly with an issuer, a non-empty kid, a signing key for it and a verified signature; with the first three present the result is the signature check's |
| RealtimeAuth.Authenticate | apps/realtime/src/realtime/realtime-auth.service.ts:55-107 | no token gives `Missing token`; with a token every failure is `Invalid token`, including a new user that clashes on a unique column, and leaves the user rows unchanged. Local mode is `LocalAuth`. In Keycloak mode a verified token succeeds exactly when its user exists or can be created without a clash; the rows are unchanged for an existing user and gain exactly the new row otherwise; the result carries the resolved user's id and the expanded realm roles |
| RealtimeAuth.ReconnectSameUser | apps/realtime/src/realtime/user-resolver.service.ts:17-27 | authenticating the same Keycloak handshake again gives the same user and adds no row |
| RealtimeAuth.AuthenticateSocket | apps/realtime/src/realtime/realtime-auth.service.ts:55-107 | returns the result `Authenticate` specifies and leaves the user table as it says |
| RealtimeGateway.TicketRoom | apps/realtime/src/realtime/realtime.gateway.ts:62 | the room is `ticket:` followed by the ticket id |
| RealtimeGateway.TicketRoomInjective | apps/realtime/src/realtime/realtime.gateway.ts:62-66 | distinct tickets have distinct rooms |
| RealtimeGateway.CanJoin | apps/realtime/src/realtime/realtime.gateway.ts:53-56 | the gateway's check is exactly `canAccessTicket` |
| RealtimeGateway.Connect | apps/realtime/src/realtime/realtime.gateway.ts:26-35 | the outcome and the user table are those `Authenticate` gives for the handshake; the socket's user is set on success and untouched on failure |
| RealtimeGateway.HandleJoin | apps/realtime/src/realtime/realtime.gateway.ts:37-63 | no user id is Forbidden `Unauthenticated socket`. An unknown ticket returns silently. A caller without access to an existing ticket is Forbidden `Not allowed to join this ticket`. Otherwise the ticket's room is joined, and every joined room stays one the user may access |
| RealtimeGateway.Gateway.EmitToTicketRoom | apps/realtime/src/realtime/realtime.gateway.ts:65-67 | one emission to the ticket's room is appended |
| RealtimeGateway.OnlyAuthorizedReceive | apps/realtime/src/realtime/realtime.gateway.ts:53-66 | a socket receives a ticket's emissions only if its user may access that ticket |
| RealtimeConsumer.EmitFor | apps/realtime/src/messaging/rabbitmq-consumer.service.ts:47-59 | it throws exactly when the payload is missing or the id does not convert to text in the room name; otherwise it emits the payload to the room named by the id's text |
| RealtimeConsumer.Route | apps/realtime/src/messaging/rabbitmq-consumer.service.ts:42-61 | throws exactly on a null body, or on `message.sent` or `ticket.status_changed` whose payload is missing or whose id does not convert; an emission is produced only for those two events. A readable `message.sent` emits `message:new` and a readable `ticket.status_changed` emits `ticket:statusChanged`, each to the room of its id; every other event is acked with no emission |
| RealtimeConsumer.UnconvertibleTicketIdNacked | apps/realtime/src/realtime/realtime.gateway.ts:66 | a `message.sent` whose ticket id is an object with its own `toString` key throws, so it is nacked and nothing is emitted |
| RealtimeConsumer.Handle | apps/realtime/src/messaging/rabbitmq-consumer.service.ts:42-66 | acked exactly when the body parses and its handling does not throw; an acked message makes the emission its route gives, if any, and a nacked one makes none |
| RealtimeConsumer.MessageSentReachesTicketRoom | apps/realtime/src/messaging/rabbitmq-consumer.service.ts:47-50 | `message.sent` emits `message:new` with its payload to its ticket's room |
| RealtimeConsumer.StatusChangedReachesTicketRoom | apps/realtime/src/messaging/rabbitmq-consumer.service.ts:52-59 | `ticket.status_changed` emits `ticket:statusChanged` to room `payload.id` |
| RealtimeConsumer.OtherEventsAckedSilently | apps/realtime/src/messaging/rabbitmq-consumer.service.ts:47-61 | other events emit nothing and are still acked |
| RealtimeConsumer.Consumer.OnMessage | apps/realtime/src/messaging/rabbitmq-consumer.service.ts:39-67 | a null message is ignored. Any other gets its emissions and then exactly one ack, or one nack without requeue |
| RabbitMqMock.PayloadsForMembership | apps/api/test/helpers/rabbitmq-mock.service.ts:38-42 | a payload is listed for a key exactly when a message with that key and payload was published |
| RabbitMqMock.PayloadsForAppend | apps/api/test/helpers/rabbitmq-mock.service.ts:38-42 | the filter distributes over concatenation, so publication order is kept |
| RabbitMqMock.RabbitMqMockService.Publish | apps/api/test/helpers/rabbitmq-mock.service.ts:12-19 | appends exactly one entry and keeps the earlier ones |
| RabbitMqMock.RabbitMqMockService.GetPublishedMessages | apps/api/test/helpers/rabbitmq-mock.service.ts:24-26 | returns every entry in publication order |
| RabbitMqMock.RabbitMqMockService.ClearPublishedMessages | apps/api/test/helpers/rabbitmq-mock.service.ts:31-33 | the list is empty afterwards |
| RabbitMqMock.RabbitMqMockService.GetMessagesByRoutingKey | apps/api/test/helpers/rabbitmq-mock.service.ts:38-42 | exactly the payloads published with the key, in order, without changing the list |
| RabbitMqMock.PublishOnlyAffectsItsKey | apps/api/test/helpers/rabbitmq-mock.service.ts:12-14 | a publish adds its payload to its own key's list and leaves every other key's list unchanged |
| UserResolver.FindSound | apps/realtime/src/realtime/users.repository.ts:10-18 | a found user is stored and has the external id |
| UserResolver.FindComplete | apps/realtime/src/realtime/users.repository.ts:10-18 | nothing is found exactly when no stored user has the external id |
| UserResolver.FindAppend | apps/realtime/src/realtime/users.repository.ts:10-18 | adding a row keeps earlier matches, and makes the new row found when it is the first match |
| UserResolver.DisplayName | apps/realtime/src/realtime/user-resolver.service.ts:25 | `name ?? preferred_username ?? email` |
| UserResolver.UsersRepository.FindByExternalId | apps/realtime/src/realtime/users.repository.ts:10-18 | the first stored user with the external id, or none when there is none |
| UserResolver.UsersRepository.Create | apps/realtime/src/realtime/users.repository.ts:20-37 | appends the new row unless it clashes with a unique id, email or external id; a clash leaves the table unchanged |
| UserResolver.Resolve | apps/realtime/src/realtime/user-resolver.service.ts:16-28 | an existing user is returned and nothing is created. Otherwise exactly one user is created, with this external id, this email and the display name. A returned user is afterwards the one found |
| UserResolver.ResolveTwice | apps/realtime/src/realtime/user-resolver.service.ts:17-27 | resolving the same identity twice returns the same user and creates at most one |
| Validation.ValidatorLength | apps/api/src/tickets/dto/create-ticket.dto.ts:7 | the validator's length never exceeds the string's length |
| Validation.ValidatorLengthPlain | apps/api/src/tickets/dto/create-ticket.dto.ts:7 | without variation selectors it is the string's length |
| Validation.NotWhitelisted | apps/api/test/tickets.e2e-spec.ts:73-79 | exactly the body keys outside the whitelist are reported |
| CreateTicketDto.Validate | apps/api/src/tickets/dto/create-ticket.dto.ts:4-14 | accepted exactly with only whitelisted keys, a title of length at least 3 and a description of length at least 5. Each failing field and each extra key is reported |
| CreateTicketDto.TwoStrings | apps/api/src/tickets/dto/create-ticket.dto.ts:5-13 | a body of two plain strings is accepted exactly when both are long enough, and otherwise reports exactly the short fields |
| CreateTicketDto.OneString | apps/api/src/tickets/dto/create-ticket.dto.ts:5-13 | a body with only one of the two fields is rejected, and the missing field is reported |
| CreateTicketDto.ShortTitleRejected | apps/api/test/tickets.e2e-spec.ts:256-265 | title `ab` is rejected, on title alone |
| CreateTicketDto.ShortDescriptionRejected | apps/api/test/tickets.e2e-spec.ts:267-276 | description `abcd` is rejected, on description alone |
| CreateTicketDto.MissingFieldsRejected | apps/api/test/tickets.e2e-spec.ts:236-284 | a missing title, a missing description or an empty body is rejected |
| CreateTicketDto.SampleTicketAccepted | apps/api/test/tickets.e2e-spec.ts:184-193 | the sample ticket is accepted as sent |
| CreateTicketDto.UnknownPropertyRejected | apps/api/test/tickets.e2e-spec.ts:73-79 | any extra property is rejected |
| UpdateTicketStatusDto.StatusOf | apps/api/src/tickets/dto/update-ticket-status.dto.ts:4-5 | exactly `open` and `closed` are statuses |
| UpdateTicketStatusDto.Validate | apps/api/src/tickets/dto/update-ticket-status.dto.ts:3-6 | accepted exactly when the body is a single required `status` with a valid value |
| UpdateTicketStatusDto.EndToEndCases | apps/api/test/tickets.e2e-spec.ts:515-571 | `closed` and `open` are accepted; `invalid` and an empty body are rejected on status |
| CreateMessageDto.Validate | apps/api/src/messages/dto/create-message.dto.ts:4-26 | accepted exactly with UUID ticket and author ids, a content string of length at least 1 and no extra key. Each failing field is reported |
| CreateMessageDto.EmptyContentRejected | apps/api/src/messages/dto/create-message.dto.ts:24 | empty content, or content of variation selectors only, is rejected |
| CreateMessageDto.SelectorsOnlyHaveNoLength | apps/api/src/messages/dto/create-message.dto.ts:24 | such content has validator length 0 |
| CreateMessageDto.NonStringContentRejected | apps/api/src/messages/dto/create-message.dto.ts:23 | content that is not a string is rejected |
| CreateMessageDto.UuidCaseInsensitive | apps/api/src/messages/dto/create-message.dto.ts:9-10 | whether an id is a UUID does not depend on the case of its letters, in either direction |
| ListTicketsDto.ToNumber | apps/api/src/tickets/dto/list-tickets.dto.ts:6 | the empty string converts to 0 and digit strings below the double overflow to their value. A minus sign negates. A magnitude from 2^1024 - 2^970 on is an infinity, not an integer. Only signed digit strings are integers |
| ListTicketsDto.Validate | apps/api/src/tickets/dto/list-tickets.dto.ts:4-21 | accepted exactly with an integer offset ≥ 0, an integer limit in 1..100, an order of `asc` or `desc` and no extra key. Absent fields take 0, 20 and `desc`; present ones are converted; each failing field is reported |
| ListTicketsDto.Defaults | apps/api/src/tickets/dto/list-tickets.dto.ts:9-20 | an empty query gives offset 0, limit 20, order `desc` |
| ListTicketsDto.QueryTextRoundTrip | apps/api/src/tickets/dto/list-tickets.dto.ts:5-20 | decimal text for in-range values, with an offset a double holds exactly, validates back to those values |
| ListTicketsDto.OverflowRejected | apps/api/src/tickets/dto/list-tickets.dto.ts:5-8 | an offset too large for a double is rejected |
| ListTicketsDto.OutOfRangeRejected | apps/api/src/tickets/dto/list-tickets.dto.ts:8-19 | a limit above 100 or of 0, a negative offset and an empty order are rejected |
| Text.ParseNatToString | apps/worker/src/consumer.ts:161 | decimal rendering of a delivery tag parses back to the tag |
| Text.GlobLiteralStar | apps/worker/src/consumer.ts:346-347 | a literal followed by `*` matches exactly the strings starting with the literal |

## Left out

- Broker, database and cache connections are not modelled, nor exchange and queue declarations, the metrics print interval or the shutdown handlers. Ack, nack, publish and the backoff sleep are trace effects. The ledger is a map and the cache a set of keys.
- Concurrency is not modelled. The worker's four consumers and the realtime consumer handle one delivery at a time, and interleavings between them are not verified.
- JWT signing and verification, JWKS key lookup, bcrypt hashing and the clock are oracle parameters, and their internals are not modelled.
- Database-generated user ids are parameters.
- `apps/api/src/auth/user-resolver.service.ts` is not part of this model. It relies on a repository method that the API's users repository does not define.
- Ticket update and status-change business rules (conflicts on closed tickets, unchanged status) are not modelled. Their service code is not part of this model.
- RealtimeGateway.HandleJoin: the ticket lookup is an exact match of the id text against the keys of a map. The database's uuid column also matches other spellings of the same id (upper-case hex digits, no dashes, braces), and `findById` on text that is not a UUID raises a database error. Neither is modelled. A socket joining with another spelling would join a room that emissions, named by the stored id, never reach.
- WorkerModel.RetryDecisionOfNumber: stated only for a missing or numeric `x-retry-count`. For a text count, only the empty text and plain decimal digits are modelled as JavaScript treats them: compared by value, then incremented by string concatenation. Any other text is dead-lettered in the model. JavaScript's comparison reads `1e0`, `0x1`, ` 1 ` or `1.5` as numbers below 3 and retries them; those forms are not modelled. No lemma states the text case. Negative or fractional numbers and other header types (booleans) are not modelled.
- Validation: the DTO models describe the validation pipe as the end-to-end tests install it (apps/api/test/tickets.e2e-spec.ts:73-79). The production bootstrap in apps/api/src/main.ts and the application module install no `ValidationPipe`, so the deployed API does not apply these checks.
- JsonValue: JSON numbers are integers in the model; fractions and exponents are not represented. `ValueText` writes an integer as its exact decimal, where JavaScript first rounds integers beyond 2^53 to the nearest double and writes those from 10^21 up in exponent form (`1e+21`); this can change a room name or a log text only for a numeric id, which the API never sends. Parsed objects are maps, so the order of keys and duplicate keys are not modelled.
- ListTicketsDto.Validate: the query is a map from name to one text. A name repeated in the query string, which Express parses into an array, is not modelled.
- RolePermissions.PermissionsOf: a role name that is a member of `Object.prototype` (`constructor`, `__proto__`, `toString`, `hasOwnProperty`, …) grants nothing in the model. In the source `ROLE_PERMISSIONS[role]` returns that inherited member, and `flatMap` adds it to the permission list as one element that is not a string. No permission check can match that element, so `ExpandMembership` and `ExpandWithinAdmin` hold for the source as stated. The members below state exact lists, which are the source's only for role lists without such names.
- RolePermissions.ExpandLength: the length is the source's only for role lists without `Object.prototype` member names (see `RolePermissions.PermissionsOf` above); each such name adds one element in the source.
- RolePermissions.UnknownRolesGrantNothing: the empty list is the source's only for role lists without `Object.prototype` member names (see `RolePermissions.PermissionsOf` above).
- KeycloakJwtStrategy.Validate: the permission list is the source's only for role lists without `Object.prototype` member names (see `RolePermissions.PermissionsOf` above).
- RealtimeAuth.Authenticate: the permission list is the source's only for role lists without `Object.prototype` member names (see `RolePermissions.PermissionsOf` above).
- WorkerModel.AlwaysFailingDeliveries: covers messages that fail because their body cannot be read or their handler throws. A message that fails only through repeated store faults is covered by `RetriesBounded` (at most three republications) but not by the exact four-delivery trace.
- ListTicketsDto.ToNumber: models `Number()` only for empty, decimal-digit and signed decimal-digit strings. Whitespace, decimals, exponents, hexadecimal and `Infinity` are treated as not an integer. Below the overflow to an infinity, a magnitude of 2^53 or more is kept exact, where `Number()` rounds it to the nearest double.
- ListTicketsDto.QueryTextRoundTrip: stated for offsets up to 2^53 - 1 only, because `Number()` reads larger ones back rounded.
- CreateMessageDto.Validate: `IsUUID` is modelled as the 8-4-4-4-12 hexadecimal form in either case. Version and variant digits are not constrained.
- Text.GlobLiteralStar: the cache's glob is modelled for literal characters, `?` and `*`. Bracket classes and escapes are not.
- RabbitMqMock.RabbitMqMockService.GetPublishedMessages returns a copy of the list, so the aliasing of the returned array with the stored one is not modelled.
- Floating-point timing in the cache performance script is not modelled.
- Metrics, health and module wiring are not modelled.
