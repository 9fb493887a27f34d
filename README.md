# Meet API view sets — a Dafny model

This project models the decision logic of the REST view sets of the Meet
video-conference backend (`src/backend/core/api/viewsets.py`):

- the **storage hook** of the recording view set. The storage provider reports
  that a recording's file has landed. The view parses the event, looks the
  recording up, checks that it is still savable, notifies external services and
  writes the recording's final status (`SAVED` or `NOTIFICATION_SUCCEEDED`);
- the **nested view set** lookups. `lookup_field` and `lookup_url_kwarg` read
  the last element of the plural lists. In `get_queryset`, every element but the last
  of the URL kwargs, or of the lookup fields when there are no URL kwargs,
  becomes an ancestor filter;
- the **serializer per action** mixin;
- the **room view set**: finding a room by UUID or slug, starting and stopping a
  recording, the two lobby actions (entry decision, waiting list) and the
  LiveKit webhook.

Modules:

- `Http`: the view's outcome, which is either a response (status code and JSON
  body) or a raised exception. `Call<T>` is the result of a collaborator that
  either returns or raises.
- `Recordings`: the recording entity (room, mode, status), the store and the
  predicates on statuses.
- `StorageHook`: the handler in two forms. `OnStorageEvent` is a function of the
  store. `RecordingRegistry.OnStorageEventReceived` is a method on a class that
  holds the recordings map and updates it in place; a ghost log records each
  call to the notification service. `Replay` runs deliveries one after another,
  and the lemmas about it show that duplicate deliveries are harmless.
- `ViewMixins`: `NestedGenericViewSet` and `SerializerPerActionMixin`.
  `NestedFilter` is a method with a `while` loop, as the source's `for` loop.
- `RoomViews`: the room view set's actions.

Collaborators the views call but whose code is not part of this model are
parameters:

- the event parser's outcome (`ParseOutcome`);
- `Recording.is_savable` (`isSavable: Recording -> bool`);
- the notification service's boolean answer;
- UUID parsing and `slugify`;
- the worker mediator's start and stop outcomes (`workerStarted`, `workerStopped`) and the status it leaves on a recording it was asked to start (`afterWorker`);
- the lobby service's answer and waiting list;
- the LiveKit events service's outcome (`WebhookReceipt`);
- request validation by the serializers (`requestValid`).

Exceptions that the REST framework turns into responses are kept as raised
exceptions: `PermissionDenied`, `NotFound` and `ValidationError`. `Http.StatusCode`
gives the status the client then sees: 403, 404 and 400. Any other exception is
`Uncaught` and reaches the server's own error handling.

Behaviour of the code worth noting:

- An unknown recording id in a storage event raises `NotFound`, so the provider
  gets a 404. It does not get a success acknowledgement.
- A failed start only answers 500. The view itself writes no `ERROR` status;
  whatever the worker mediator writes is the parameter `afterWorker`. Whether a
  second start is refused depends on it: `SecondStartRefused` and
  `FinishedStartFreesSlot` state both cases.
- `lookup_url_kwarg` on a nested view whose `lookup_url_kwargs` is still the
  empty default raises an `IndexError` (`[][-1]`). The `[None]` default of
  `getattr` applies only when the attribute does not exist. `LookupAttribute`
  models both cases.
- `get_queryset` checks each ancestor kwarg first and only then indexes
  `lookup_fields`. The ancestors are all URL kwargs but the last, so the index
  can fall off `lookup_fields` only when there are at least two more URL kwargs
  than lookup fields. The `IndexError` (`LookupFieldIndexError`) is then raised
  at the first ancestor whose index has no lookup field and whose kwarg is in
  the URL. A kwarg that is not in the URL fails first, as a `KeyError`
  (`MissingUrlKwarg`).
- The models file is not part of this model. The status names (INITIATED, ACTIVE, ERROR, SAVED,
  NOTIFICATION_SUCCEEDED) and the INITIATED status of a new recording are assumptions. The database constraint that refuses a second initiated or active recording for a
  room is stated only by the comment at `start_room_recording`'s call to `create`.
- `is_savable` is not shown. The handler needs nothing of it. The idempotence
  lemmas assume only what the denial message states: it is false in the error
  state and once the recording is saved (`GuardsFinalized`). `SavableByStatus`,
  the status-only reading, satisfies that assumption.

## Model

| member | source | states |
|---|---|---|
| `StorageHook.OnStorageEvent` | src/backend/core/api/viewsets.py:574-619 | parsing and bucket errors are permission denied, an ignored file type is a 200, an unknown id is not found, a non-savable recording is permission denied; in all of these the notifier is not called and the store is unchanged; the notifier is called exactly when the recording exists and is savable, and then only that recording's status changes, to NOTIFICATION_SUCCEEDED or SAVED by the notifier's answer, with a 200 "Event processed."; the provider gets 200 exactly for an ignored file type or a processed event |
| `StorageHook.RecordingRegistry.OnStorageEventReceived` | src/backend/core/api/viewsets.py:574-619 | the in-place handler: checks in the source's order (parse, look up, savable, notify, write); its outcome, new recordings map and notification log are those of `OnStorageEvent` on the old map |
| `StorageHook.FinalStatus` | src/backend/core/api/viewsets.py:610-614 | the status written is a saved status, and it is NOTIFICATION_SUCCEEDED exactly when the notification succeeded |
| `StorageHook.Replay` | src/backend/core/api/viewsets.py:574-619 | over any run of deliveries: one outcome per delivery, no recording appears or disappears, room and mode never change, every recording that changed ends in a saved status, no more notifications than deliveries |
| `StorageHook.FinalizedRecordingStaysSettled` | src/backend/core/api/viewsets.py:598-615 | once a recording is saved or in the error state, no later delivery notifies about it or changes it |
| `StorageHook.StorageEventKeepsOneOngoingPerRoom` | src/backend/core/api/viewsets.py:598-615 | a storage event keeps every room at no more than one initiated or active recording |
| `StorageHook.ReplayKeepsOneOngoingPerRoom` | src/backend/core/api/viewsets.py:574-619 | any run of deliveries keeps every room at no more than one initiated or active recording |
| `StorageHook.NotifiedAtMostOnce` | src/backend/core/api/viewsets.py:598-615 | over any run of deliveries the notification service is called at most once per recording, and never for a recording already saved or in error |
| `StorageHook.DuplicateDeliveryRefused` | src/backend/core/api/viewsets.py:598-602 | the same event delivered twice to a savable recording: the first notifies, the second is refused as not savable and changes nothing |
| `Recordings.SavableByStatusGuardsFinalized` | src/backend/core/api/viewsets.py:598-602 | the status-only savable predicate is false in the error and saved states |
| `ViewMixins.LookupAttribute` | src/backend/core/api/viewsets.py:70-79 | a missing list attribute gives Python's None, an empty list raises IndexError, otherwise the result is the list's last element |
| `ViewMixins.AncestorKwargs` | src/backend/core/api/viewsets.py:89-95 | the ancestor kwargs followed by the last element are the lookup URL kwargs, or the lookup fields when there are no URL kwargs; empty when both lists are empty |
| `ViewMixins.AncestorsThenObjectKwarg` | src/backend/core/api/viewsets.py:70-95 | the ancestor kwargs plus the object kwarg read through `lookup_url_kwarg` are the whole kwargs list |
| `ViewMixins.NestedFilter` | src/backend/core/api/viewsets.py:81-110 | the filter exists exactly when every ancestor kwarg is in the URL and has a lookup field at its index; it then maps exactly the first lookup fields, each to the URL value of its ancestor kwarg (the last write wins for a repeated field); otherwise the first unusable ancestor gives the error: its missing kwarg, or the index error, which needs at least two more URL kwargs than lookup fields |
| `ViewMixins.FieldsOnlyNeverIndexError` | src/backend/core/api/viewsets.py:91-108 | without URL kwargs the ancestors are a prefix of the lookup fields, so the loop never indexes past them |
| `ViewMixins.SerializerClass` | src/backend/core/api/viewsets.py:124-128 | the serializer registered for the action, otherwise the default serializer |
| `RoomViews.RoomFilterFor` | src/backend/core/api/viewsets.py:212-216 | a `pk` that parses as a UUID is looked up as a primary key, anything else by its slugified form |
| `RoomViews.GetObject` | src/backend/core/api/viewsets.py:210-221 | no `pk` kwarg raises KeyError; otherwise the result is a room present in the store that matches the UUID-or-slug filter, and it is found whenever such a room exists; a miss raises not found |
| `RoomViews.CreateRecording` | src/backend/core/api/viewsets.py:303-304 | creation succeeds exactly when the room has no initiated or active recording and the new id is free; the new recording is INITIATED and nothing else changes |
| `RoomViews.CreationKeepsOneOngoingPerRoom` | src/backend/core/api/viewsets.py:303-304 | a successful creation keeps at most one initiated or active recording per room |
| `RoomViews.SecondCreationRefused` | src/backend/core/api/viewsets.py:303-304 | once a creation for a room succeeded, a second creation for that room on the resulting store is refused |
| `RoomViews.StartRoomRecording` | src/backend/core/api/viewsets.py:290-324 | an invalid request is a 400 "Invalid request."; a room lookup failure or a refused creation propagates; the answer is 201 exactly when the room was found, the recording created and the worker started; a worker failure is a 500 naming the room's slug; the view's own write is the created INITIATED recording, which then holds the status the worker mediator left (`afterWorker`, a parameter because the mediator is not part of this model); without a creation the store is unchanged |
| `RoomViews.StartKeepsOneOngoingPerRoom` | src/backend/core/api/viewsets.py:290-324 | starting a recording keeps every room at no more than one initiated or active recording, whatever status the mediator leaves |
| `RoomViews.SecondStartRefused` | src/backend/core/api/viewsets.py:300-324 | after a start that answered 201 or 500 and left its recording initiated or active, a second start for the same room raises the creation error |
| `RoomViews.FinishedStartFreesSlot` | src/backend/core/api/viewsets.py:300-324 | after a start whose recording the mediator left in any other status (ERROR, say), a second start with a fresh id creates its recording and answers 201 or 500 by the worker |
| `RoomViews.ActiveRecordings` | src/backend/core/api/viewsets.py:341-343 | while every room holds at most one initiated or active recording, the room has at most one ACTIVE recording |
| `RoomViews.StopRoomRecording` | src/backend/core/api/viewsets.py:335-362 | a room lookup failure propagates; no active recording raises not found, several raise MultipleObjectsReturned; a response comes back exactly when there is one active recording: 200 when the worker stopped it, 500 naming the slug otherwise |
| `RoomViews.StopNeverAmbiguous` | src/backend/core/api/viewsets.py:335-362 | while each room holds at most one initiated or active recording, stopping never meets several active recordings, and it answers with a response exactly when the room has an ACTIVE recording |
| `RoomViews.AllowParticipantToEnter` | src/backend/core/api/viewsets.py:398-425 | invalid request raises a validation error; a public room answers 404 "Room has no lobby system."; for a restricted room the answer is 200 exactly when the lobby updated the participant and 404 exactly when it did not find them |
| `RoomViews.LobbyDecidesOnlyForRestrictedRooms` | src/backend/core/api/viewsets.py:404-425 | the lobby service's answer cannot change the outcome unless the request is valid and the room is found and restricted, and then different answers give different outcomes |
| `RoomViews.ListWaitingParticipants` | src/backend/core/api/viewsets.py:435-445 | a public room lists no participants; a restricted room lists exactly the lobby service's waiting participants |
| `RoomViews.WebhooksLivekit` | src/backend/core/api/viewsets.py:453-471 | 200 with status "success" exactly when the webhook was received; a webhook error answers with its own status code, or 400 when it has none, and an error message; a 500 is raised again and never returned as a response |

## Left out

- Django ORM querying and persistence: stores are maps. `get_object_or_404` is a map lookup; the `Http404` it raises is modelled as `NotFound`, which the client sees as the same 404, and its detail text (`NO_ROOM`) stands for the framework's message. The room's slug index stands for the database's unique slug. `filter_queryset` and the queryset `filter` call are not modelled.
- `check_object_permissions`, the permission classes, throttling, pagination and serializers: this is framework configuration. Request validity is a boolean parameter.
- `RecordingAccess.objects.create` in `start_room_recording`, and how the worker mediator decides the status changes it makes on start and stop: the mediator is not part of this model. On start its result is the parameter `afterWorker`; on stop its writes are not modelled.
- `request_entry`, `retrieve`, `list`, `perform_create`, `creation_callback`, `UserViewSet`, `ResourceAccessViewSet` and `RecordingViewSet.get_queryset`: outside the modelled core. Besides ORM queries and collaborator calls they hold settings- and request-driven branches that are not modelled: `retrieve`'s unregistered-room fallback, `list`'s empty list for anonymous users, `UserViewSet.get_queryset`'s listing switch and `perform_create`'s callback.
- `src/backend/core/utils.py` (`generate_token`): a wrapper over the LiveKit token library using random identities.
- The lobby service's own state (pending, accepted and denied participants): `LobbyService` is not part of this model. Its answers are parameters.
- The text of exception values interpolated into messages (`f"... {e}"`): it is carried as an opaque `reason` string.
- The name of the exception a refused creation raises (`IntegrityError`) is an assumption: the source only says the creation may raise. It is not an API exception, so the client sees a server error either way.
- Recording ids are taken as well-formed: the event parser's id is used as is. An id that is not a valid primary key, which the ORM would reject with its own uncaught error instead of `NotFound`, is not modelled.
- Concurrency: compare-and-set on the recording status, and racing lobby decisions. Deliveries are modelled one after the other.
- `StorageHook.RecordingRegistry.OnStorageEventReceived`: the notifier's answer is a parameter fixed before the call. The ghost log records the call; it does not model the notification's delivery.
