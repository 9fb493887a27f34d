/** The room view set's decisions: finding a room by UUID or slug, the
    start- and stop-recording actions, the two lobby actions and the LiveKit
    webhook. The worker service, the lobby service and the LiveKit events
    service are collaborators whose answers are parameters. */
module RoomViews {
  import opened Http
  import opened Recordings

  datatype Room = Room(id: Uuid, slug: string, isPublic: bool)

  /** Rooms keyed by id, with the unique slug index the database keeps. */
  datatype RoomStore = RoomStore(rooms: map<Uuid, Room>, slugs: map<string, Uuid>)

  ghost predicate ValidRoomStore(store: RoomStore) {
    && (forall id :: id in store.rooms ==>
          store.rooms[id].id == id && store.rooms[id].slug in store.slugs && store.slugs[store.rooms[id].slug] == id)
    && (forall slug :: slug in store.slugs ==>
          store.slugs[slug] in store.rooms && store.rooms[store.slugs[slug]].slug == slug)
  }

  datatype RoomFilter = ByPk(pk: Uuid) | BySlug(slug: string)

  predicate Matches(room: Room, filter: RoomFilter) {
    match filter
    case ByPk(id) => room.id == id
    case BySlug(slug) => room.slug == slug
  }

  /** A `pk` URL argument that parses as a UUID is a primary key; anything
      else is read as a room name and looked up by its slug. */
  function RoomFilterFor(pk: string, parseUuid: string -> Option<Uuid>, slugify: string -> string): (f: RoomFilter)
    ensures f.ByPk? <==> parseUuid(pk).Some?
    ensures f.ByPk? ==> f.pk == parseUuid(pk).value
    ensures f.BySlug? ==> f.slug == slugify(pk)
  {
    match parseUuid(pk)
    case Some(id) => ByPk(id)
    case None => BySlug(slugify(pk))
  }

  const NO_ROOM := "No Room matches the given query."

  /** `get_object`: the room the URL names, or the 404 that
      `get_object_or_404` raises. A view called without a `pk` argument fails
      with a KeyError. */
  function GetObject(store: RoomStore, kwargs: map<string, string>, parseUuid: string -> Option<Uuid>,
                     slugify: string -> string): (c: Call<Room>)
    ensures "pk" !in kwargs ==> c == Raised(Uncaught("KeyError"))
    ensures "pk" in kwargs && c.Raised? ==> c.exception == NotFound(NO_ROOM)
    ensures ValidRoomStore(store) && c.Returned? ==>
              "pk" in kwargs && c.value in store.rooms.Values
              && Matches(c.value, RoomFilterFor(kwargs["pk"], parseUuid, slugify))
    ensures (&& ValidRoomStore(store) && "pk" in kwargs
             && exists room :: room in store.rooms.Values && Matches(room, RoomFilterFor(kwargs["pk"], parseUuid, slugify)))
            ==> c.Returned?
  {
    if "pk" !in kwargs then Raised(Uncaught("KeyError"))
    else
      var filter := RoomFilterFor(kwargs["pk"], parseUuid, slugify);
      match filter
      case ByPk(id) =>
        if id in store.rooms then Returned(store.rooms[id]) else Raised(NotFound(NO_ROOM))
      case BySlug(slug) =>
        if slug in store.slugs && store.slugs[slug] in store.rooms then Returned(store.rooms[store.slugs[slug]])
        else Raised(NotFound(NO_ROOM))
  }

  // ---------------------------------------------------------------- recording control

  /** The database's uniqueness constraint: creating a recording fails while
      the room already has one initiated or active (or the new id is taken). */
  function CreateRecording(recordings: Store, newId: RecordingId, room: Uuid, mode: string): (c: Call<Store>)
    ensures c.Returned? <==> newId !in recordings && !HasOngoingRecording(recordings, room)
    ensures c.Raised? ==> c.exception == Uncaught("IntegrityError")
    ensures c.Returned? ==> c.value == recordings[newId := Recording(room, mode, Initiated)]
  {
    if newId in recordings || HasOngoingRecording(recordings, room) then Raised(Uncaught("IntegrityError"))
    else Returned(recordings[newId := Recording(room, mode, Initiated)])
  }

  /** A successful creation keeps every room at no more than one initiated
      or active recording. */
  lemma CreationKeepsOneOngoingPerRoom(recordings: Store, newId: RecordingId, room: Uuid, mode: string)
    requires OneOngoingPerRoom(recordings)
    ensures var c := CreateRecording(recordings, newId, room, mode);
            c.Returned? ==> OneOngoingPerRoom(c.value)
  {
    var c := CreateRecording(recordings, newId, room, mode);
    if c.Returned? {
      forall a, b | a in c.value && b in c.value && c.value[a].room == c.value[b].room
                    && IsOngoing(c.value[a].status) && IsOngoing(c.value[b].status)
        ensures a == b
      {
        if a != newId && b != newId {
          assert c.value[a] == recordings[a] && c.value[b] == recordings[b];
        }
      }
    }
  }

  const INVALID_REQUEST := "Invalid request."

  function StartFailed(slug: string): string { "Recording failed to start for room " + slug }
  function StartSucceeded(slug: string): string { "Recording successfully started for room " + slug }

  /** One creation holds the room's recording slot: a second creation for
      the same room, on the store the first left, is refused. */
  lemma SecondCreationRefused(recordings: Store, id1: RecordingId, id2: RecordingId, room: Uuid,
                              mode1: string, mode2: string)
    requires CreateRecording(recordings, id1, room, mode1).Returned?
    ensures CreateRecording(CreateRecording(recordings, id1, room, mode1).value, id2, room, mode2).Raised?
  {
    var c := CreateRecording(recordings, id1, room, mode1);
    assert c.value[id1].room == room && IsOngoing(c.value[id1].status);
  }

  /** An action's outcome together with the recordings table it leaves. */
  datatype Effect = Effect(outcome: Outcome, recordings: Store)

  /** `start_room_recording`: validate the request, find the room, create
      the recording, ask the worker mediator to start it. The mediator's code
      is not part of this model: `workerStarted` is whether it raised, and
      `afterWorker` is the status it leaves on the created recording
      (INITIATED when it writes nothing). */
  function StartRoomRecording(requestValid: bool, room: Call<Room>, recordings: Store, newId: RecordingId,
                              mode: string, workerStarted: bool, afterWorker: Status): (e: Effect)
    ensures !requestValid ==> e.outcome == Respond(Response(HTTP_400_BAD_REQUEST, Detail(INVALID_REQUEST)))
    ensures requestValid && room.Raised? ==> e.outcome == Raise(room.exception)
    ensures requestValid && room.Returned? && CreateRecording(recordings, newId, room.value.id, mode).Raised? ==>
              e.outcome == Raise(Uncaught("IntegrityError"))
    // 201 exactly when the room was found, the recording created and the worker started.
    ensures (e.outcome.Respond? && e.outcome.response.code == HTTP_201_CREATED) <==>
              requestValid && room.Returned? && CreateRecording(recordings, newId, room.value.id, mode).Returned?
              && workerStarted
    ensures e.outcome.Respond? && e.outcome.response.code == HTTP_201_CREATED ==>
              room.Returned? && e.outcome.response.body == Message(StartSucceeded(room.value.slug))
    ensures requestValid && room.Returned? && CreateRecording(recordings, newId, room.value.id, mode).Returned?
            && !workerStarted ==>
              e.outcome == Respond(Response(HTTP_500_INTERNAL_SERVER_ERROR, ErrorReport(StartFailed(room.value.slug))))
    // After a creation the store holds the new recording, in the status the mediator left;
    // without a creation nothing is written.
    ensures requestValid && room.Returned? && CreateRecording(recordings, newId, room.value.id, mode).Returned? ==>
              && newId !in recordings
              && e.recordings == recordings[newId := Recording(room.value.id, mode, afterWorker)]
    ensures !(requestValid && room.Returned? && CreateRecording(recordings, newId, room.value.id, mode).Returned?) ==>
              e.recordings == recordings
  {
    if !requestValid then Effect(Respond(Response(HTTP_400_BAD_REQUEST, Detail(INVALID_REQUEST))), recordings)
    else match room
      case Raised(e) => Effect(Raise(e), recordings)
      case Returned(r) =>
        match CreateRecording(recordings, newId, r.id, mode)
        case Raised(e) => Effect(Raise(e), recordings)
        case Returned(created) =>
          var started := created[newId := created[newId].(status := afterWorker)];
          if !workerStarted then
            Effect(Respond(Response(HTTP_500_INTERNAL_SERVER_ERROR, ErrorReport(StartFailed(r.slug)))), started)
          else Effect(Respond(Response(HTTP_201_CREATED, Message(StartSucceeded(r.slug)))), started)
  }

  /** Starting a recording keeps every room at no more than one initiated or
      active recording, whatever status the mediator leaves. */
  lemma StartKeepsOneOngoingPerRoom(requestValid: bool, room: Call<Room>, recordings: Store, newId: RecordingId,
                                    mode: string, workerStarted: bool, afterWorker: Status)
    requires OneOngoingPerRoom(recordings)
    ensures OneOngoingPerRoom(StartRoomRecording(requestValid, room, recordings, newId, mode, workerStarted,
                                                 afterWorker).recordings)
  {
    var e := StartRoomRecording(requestValid, room, recordings, newId, mode, workerStarted, afterWorker);
    if requestValid && room.Returned? && CreateRecording(recordings, newId, room.value.id, mode).Returned? {
      forall a, b | (&& a in e.recordings && b in e.recordings && e.recordings[a].room == e.recordings[b].room
                     && IsOngoing(e.recordings[a].status) && IsOngoing(e.recordings[b].status))
        ensures a == b
      {
        if a != newId && b != newId {
          assert e.recordings[a] == recordings[a] && e.recordings[b] == recordings[b];
        }
      }
    }
  }

  /** After a start that answered (201, or 500 from the worker) and left the
      recording initiated or active, a second start for the same room is
      refused by the database. */
  lemma SecondStartRefused(room: Room, recordings: Store, id1: RecordingId, id2: RecordingId,
                           mode1: string, mode2: string, started1: bool, started2: bool,
                           afterWorker1: Status, afterWorker2: Status)
    requires StartRoomRecording(true, Returned(room), recordings, id1, mode1, started1, afterWorker1).outcome.Respond?
    requires IsOngoing(afterWorker1)
    ensures var first := StartRoomRecording(true, Returned(room), recordings, id1, mode1, started1, afterWorker1);
            StartRoomRecording(true, Returned(room), first.recordings, id2, mode2, started2, afterWorker2).outcome
              == Raise(Uncaught("IntegrityError"))
  {
    var first := StartRoomRecording(true, Returned(room), recordings, id1, mode1, started1, afterWorker1);
    assert first.recordings[id1].room == room.id && IsOngoing(first.recordings[id1].status);
  }

  /** A start whose recording the mediator left in a status other than
      initiated or active frees the room's slot: with a fresh id, the next
      start creates its recording and answers by the worker as usual. */
  lemma FinishedStartFreesSlot(room: Room, recordings: Store, id1: RecordingId, id2: RecordingId,
                               mode1: string, mode2: string, started1: bool, started2: bool,
                               afterWorker1: Status, afterWorker2: Status)
    requires StartRoomRecording(true, Returned(room), recordings, id1, mode1, started1, afterWorker1).outcome.Respond?
    requires !IsOngoing(afterWorker1)
    requires id2 != id1 && id2 !in recordings
    ensures var first := StartRoomRecording(true, Returned(room), recordings, id1, mode1, started1, afterWorker1);
            var second := StartRoomRecording(true, Returned(room), first.recordings, id2, mode2, started2, afterWorker2);
            second.outcome.Respond? && (second.outcome.response.code == HTTP_201_CREATED <==> started2)
  {
    var first := StartRoomRecording(true, Returned(room), recordings, id1, mode1, started1, afterWorker1);
    assert !HasOngoingRecording(first.recordings, room.id) by {
      forall id | id in first.recordings && first.recordings[id].room == room.id
        ensures !IsOngoing(first.recordings[id].status)
      {
        if id != id1 {
          assert first.recordings[id] == recordings[id];
        }
      }
    }
  }

  /** The recordings `Recording.objects.get(room=room, status=ACTIVE)` can
      see: never more than one while each room holds at most one initiated or
      active recording. */
  function ActiveRecordings(recordings: Store, room: Uuid): (ids: set<RecordingId>)
    ensures OneOngoingPerRoom(recordings) ==> |ids| <= 1
  {
    var ids := set id | id in recordings && recordings[id].room == room && recordings[id].status == Active;
    AtMostOneElement(ids);
    ids
  }

  const NO_ACTIVE_RECORDING := "No active recording found for this room."

  function StopFailed(slug: string): string { "Recording failed to stop for room " + slug }
  function StopSucceeded(slug: string): string { "Recording stopped for room " + slug + "." }

  /** `stop_room_recording`: find the room, its single active recording, ask
      the worker mediator to stop it. */
  function StopRoomRecording(room: Call<Room>, recordings: Store, workerStopped: bool): (o: Outcome)
    ensures room.Raised? ==> o == Raise(room.exception)
    ensures room.Returned? && ActiveRecordings(recordings, room.value.id) == {} ==>
              o == Raise(NotFound(NO_ACTIVE_RECORDING))
    ensures room.Returned? && |ActiveRecordings(recordings, room.value.id)| > 1 ==>
              o == Raise(Uncaught("MultipleObjectsReturned"))
    ensures o.Respond? <==> room.Returned? && |ActiveRecordings(recordings, room.value.id)| == 1
    ensures o.Respond? ==>
              && (workerStopped ==> o.response == Response(HTTP_200_OK, Message(StopSucceeded(room.value.slug))))
              && (!workerStopped ==>
                    o.response == Response(HTTP_500_INTERNAL_SERVER_ERROR, ErrorReport(StopFailed(room.value.slug))))
  {
    match room
    case Raised(e) => Raise(e)
    case Returned(r) =>
      var active := ActiveRecordings(recordings, r.id);
      if |active| == 0 then Raise(NotFound(NO_ACTIVE_RECORDING))
      else if |active| > 1 then Raise(Uncaught("MultipleObjectsReturned"))
      else if !workerStopped then Respond(Response(HTTP_500_INTERNAL_SERVER_ERROR, ErrorReport(StopFailed(r.slug))))
      else Respond(Response(HTTP_200_OK, Message(StopSucceeded(r.slug))))
  }

  /** While every room holds at most one initiated or active recording, the
      lookup of the active recording is never ambiguous. */
  lemma StopNeverAmbiguous(room: Room, recordings: Store, workerStopped: bool)
    requires OneOngoingPerRoom(recordings)
    ensures var o := StopRoomRecording(Returned(room), recordings, workerStopped);
            && o != Raise(Uncaught("MultipleObjectsReturned"))
            && (o.Respond? <==>
                  exists id :: id in recordings && recordings[id].room == room.id && recordings[id].status == Active)
  {
    var active := ActiveRecordings(recordings, room.id);
    if id :| id in recordings && recordings[id].room == room.id && recordings[id].status == Active {
      assert id in active;
    }
    if |active| == 1 {
      var id :| id in active;
    }
  }

  lemma AtMostOneElement(s: set<RecordingId>)
    ensures (forall x, y :: x in s && y in s ==> x == y) ==> |s| <= 1
  {
    if s != {} && forall x, y :: x in s && y in s ==> x == y {
      var x :| x in s;
      assert s == {x};
    }
  }

  // ---------------------------------------------------------------- lobby

  /** What `LobbyService.handle_participant_entry` does: returns, or raises
      `LobbyParticipantNotFound`. */
  datatype EntryHandling = ParticipantUpdated | LobbyParticipantNotFound

  const NO_LOBBY := "Room has no lobby system."
  const PARTICIPANT_UPDATED := "Participant was updated."
  const PARTICIPANT_NOT_FOUND := "Participant not found."

  /** `allow_participant_to_enter`: a public room has no lobby; otherwise the
      lobby service's answer decides. */
  function AllowParticipantToEnter(requestValid: bool, room: Call<Room>, lobby: EntryHandling): (o: Outcome)
    ensures !requestValid ==> o == Raise(ValidationError)
    ensures requestValid && room.Raised? ==> o == Raise(room.exception)
    ensures requestValid && room.Returned? && room.value.isPublic ==>
              o == Respond(Response(HTTP_404_NOT_FOUND, Message(NO_LOBBY)))
    ensures requestValid && room.Returned? && !room.value.isPublic ==>
              && (lobby.ParticipantUpdated? <==> o == Respond(Response(HTTP_200_OK, Message(PARTICIPANT_UPDATED))))
              && (lobby.LobbyParticipantNotFound? <==>
                    o == Respond(Response(HTTP_404_NOT_FOUND, Message(PARTICIPANT_NOT_FOUND))))
  {
    if !requestValid then Raise(ValidationError)
    else match room
      case Raised(e) => Raise(e)
      case Returned(r) =>
        if r.isPublic then Respond(Response(HTTP_404_NOT_FOUND, Message(NO_LOBBY)))
        else match lobby
          case ParticipantUpdated => Respond(Response(HTTP_200_OK, Message(PARTICIPANT_UPDATED)))
          case LobbyParticipantNotFound => Respond(Response(HTTP_404_NOT_FOUND, Message(PARTICIPANT_NOT_FOUND)))
  }

  /** The lobby service's answer matters only for a valid request on a found
      restricted room: for a public room it is never consulted. */
  lemma LobbyDecidesOnlyForRestrictedRooms(requestValid: bool, room: Call<Room>, a: EntryHandling, b: EntryHandling)
    ensures !(requestValid && room.Returned? && !room.value.isPublic) ==>
              AllowParticipantToEnter(requestValid, room, a) == AllowParticipantToEnter(requestValid, room, b)
    ensures requestValid && room.Returned? && !room.value.isPublic && a != b ==>
              AllowParticipantToEnter(requestValid, room, a) != AllowParticipantToEnter(requestValid, room, b)
  {
  }

  /** `list_waiting_participants`: the "participants" list of the response;
      `waiting` is what the lobby service would list. */
  function ListWaitingParticipants<P>(room: Call<Room>, waiting: seq<P>): (c: Call<seq<P>>)
    ensures room.Raised? ==> c == Raised(room.exception)
    ensures room.Returned? && room.value.isPublic ==> c == Returned([])
    ensures room.Returned? && !room.value.isPublic ==> c == Returned(waiting)
  {
    match room
    case Raised(e) => Raised(e)
    case Returned(r) => if r.isPublic then Returned([]) else Returned(waiting)
  }

  // ---------------------------------------------------------------- LiveKit webhook

  /** What `LiveKitEventsService.receive` does: returns, or raises a
      `LiveKitWebhookError` that may carry a status code. */
  datatype WebhookReceipt = Received | LiveKitWebhookError(statusCode: Option<int>, message: string)

  /** `webhooks_livekit`: 200 on success; a webhook error answers with its own
      status code (400 when it has none), except that a 500 is raised again. */
  function WebhooksLivekit(receipt: WebhookReceipt): (o: Outcome)
    ensures receipt.Received? <==> o == Respond(Response(HTTP_200_OK, StatusReport("success", None)))
    ensures receipt.LiveKitWebhookError? ==>
              (receipt.statusCode.GetOr(HTTP_400_BAD_REQUEST) == HTTP_500_INTERNAL_SERVER_ERROR <==> o.Raise?)
    ensures o.Raise? ==> o.exception == Uncaught("LiveKitWebhookError")
    ensures receipt.LiveKitWebhookError? && o.Respond? ==>
              o.response == Response(receipt.statusCode.GetOr(HTTP_400_BAD_REQUEST), StatusReport("error", Some(receipt.message)))
    ensures o.Respond? ==> o.response.code != HTTP_500_INTERNAL_SERVER_ERROR
  {
    match receipt
    case Received => Respond(Response(HTTP_200_OK, StatusReport("success", None)))
    case LiveKitWebhookError(code, message) =>
      var status := code.GetOr(HTTP_400_BAD_REQUEST);
      if status == HTTP_500_INTERNAL_SERVER_ERROR then Raise(Uncaught("LiveKitWebhookError"))
      else Respond(Response(status, StatusReport("error", Some(message))))
  }
}
