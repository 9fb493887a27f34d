/** The storage-hook endpoint of the recording view set: the storage provider
    reports that a recording's file has landed; the view finds the recording,
    checks it may still be saved, notifies external services and writes the
    recording's final status. */
module StorageHook {
  import opened Http
  import opened Recordings

  /** What the configured event parser makes of the hook's payload. */
  datatype ParseOutcome =
    | Parsed(id: RecordingId)
    | ParsingEventDataError(reason: string)
    | InvalidBucketError
    | InvalidFileTypeError(reason: string)

  /** One handled event: the view's outcome, the store afterwards and the
      recordings the notification service was asked about (in call order). */
  datatype Step = Step(outcome: Outcome, recordings: Store, notified: seq<RecordingId>)

  const INVALID_BUCKET := "Invalid bucket specified"
  const NO_RECORDING := "No recording found for this event."
  const EVENT_PROCESSED := "Event processed."

  function InvalidDataDetail(reason: string): string {
    "Invalid request data: " + reason
  }

  function IgnoredMessage(reason: string): string {
    "Ignore this file type, " + reason
  }

  function NotSavableDetail(id: RecordingId): string {
    "Recording with ID " + id + " cannot be saved because it is either,"
    + " in an error state or has already been saved."
  }

  /** The status written once the notification service has answered. */
  function FinalStatus(notificationSucceeded: bool): (s: Status)
    ensures IsSaved(s)
    ensures s == NotificationSucceeded <==> notificationSucceeded
  {
    if notificationSucceeded then NotificationSucceeded else Saved
  }

  /** The handler as a function of the store, the parser's outcome, the
      `is_savable` predicate and the answer the notification service gives
      when it is called. */
  function OnStorageEvent(recordings: Store, event: ParseOutcome, isSavable: Recording -> bool,
                          notificationSucceeded: bool): (s: Step)
    // Malformed payloads and foreign buckets are refused; nothing is looked up or written.
    ensures event.ParsingEventDataError? ==>
              s.outcome == Raise(PermissionDenied(InvalidDataDetail(event.reason)))
    ensures event.InvalidBucketError? ==> s.outcome == Raise(PermissionDenied(INVALID_BUCKET))
    // A file type the pipeline does not act on is acknowledged with a success response.
    ensures event.InvalidFileTypeError? ==>
              s.outcome == Respond(Response(HTTP_200_OK, Message(IgnoredMessage(event.reason))))
    ensures event.Parsed? && event.id !in recordings ==> s.outcome == Raise(NotFound(NO_RECORDING))
    ensures event.Parsed? && event.id in recordings && !isSavable(recordings[event.id]) ==>
              s.outcome == Raise(PermissionDenied(NotSavableDetail(event.id)))
    // The notifier is called exactly when the recording exists and is savable, and only about it.
    ensures s.notified == [] || (event.Parsed? && s.notified == [event.id])
    ensures s.notified != [] <==>
              event.Parsed? && event.id in recordings && isSavable(recordings[event.id])
    // Without a notification nothing changes; with one, exactly one status is written.
    ensures s.notified == [] ==> s.recordings == recordings
    ensures s.notified != [] ==>
              && s.outcome == Respond(Response(HTTP_200_OK, Message(EVENT_PROCESSED)))
              && s.recordings == recordings[event.id := recordings[event.id].(status := FinalStatus(notificationSucceeded))]
    // The provider sees 200 exactly for the ignored file type and for a processed event.
    ensures StatusCode(s.outcome) == Some(HTTP_200_OK) <==> event.InvalidFileTypeError? || s.notified != []
  {
    match event
    case ParsingEventDataError(reason) =>
      Step(Raise(PermissionDenied(InvalidDataDetail(reason))), recordings, [])
    case InvalidBucketError =>
      Step(Raise(PermissionDenied(INVALID_BUCKET)), recordings, [])
    case InvalidFileTypeError(reason) =>
      Step(Respond(Response(HTTP_200_OK, Message(IgnoredMessage(reason)))), recordings, [])
    case Parsed(id) =>
      if id !in recordings then
        Step(Raise(NotFound(NO_RECORDING)), recordings, [])
      else if !isSavable(recordings[id]) then
        Step(Raise(PermissionDenied(NotSavableDetail(id))), recordings, [])
      else
        var recording := recordings[id].(status := FinalStatus(notificationSucceeded));
        Step(Respond(Response(HTTP_200_OK, Message(EVENT_PROCESSED))), recordings[id := recording], [id])
  }

  /** The recordings table as the view set mutates it, with a log of the
      calls made to the notification service. */
  class RecordingRegistry {
    var recordings: Store
    ghost var notifications: seq<RecordingId>

    constructor (initial: Store)
      ensures recordings == initial && notifications == []
    {
      recordings := initial;
      notifications := [];
    }

    /** Checks run in the source's order: parse, look up, savable, notify,
        write. */
    method OnStorageEventReceived(event: ParseOutcome, isSavable: Recording -> bool,
                                  notificationSucceeded: bool) returns (outcome: Outcome)
      modifies this
      ensures var s := OnStorageEvent(old(recordings), event, isSavable, notificationSucceeded);
              && outcome == s.outcome
              && recordings == s.recordings
              && notifications == old(notifications) + s.notified
    {
      match event {
        case ParsingEventDataError(reason) =>
          return Raise(PermissionDenied(InvalidDataDetail(reason)));
        case InvalidBucketError =>
          return Raise(PermissionDenied(INVALID_BUCKET));
        case InvalidFileTypeError(reason) =>
          return Respond(Response(HTTP_200_OK, Message(IgnoredMessage(reason))));
        case Parsed(id) =>
          if id !in recordings {
            return Raise(NotFound(NO_RECORDING));
          }
          var recording := recordings[id];
          if !isSavable(recording) {
            return Raise(PermissionDenied(NotSavableDetail(id)));
          }
          notifications := notifications + [id];
          var status := FinalStatus(notificationSucceeded);
          recordings := recordings[id := recording.(status := status)];
          return Respond(Response(HTTP_200_OK, Message(EVENT_PROCESSED)));
      }
    }
  }

  /** One delivery of the hook: the parsed payload and the answer the
      notification service would give if it were called. */
  datatype Delivery = Delivery(event: ParseOutcome, notificationSucceeded: bool)

  datatype Run = Run(outcomes: seq<Outcome>, recordings: Store, notified: seq<RecordingId>)

  /** Deliveries handled one after the other, each seeing the store the
      previous one left. */
  function Replay(recordings: Store, deliveries: seq<Delivery>, isSavable: Recording -> bool): (r: Run)
    ensures |r.outcomes| == |deliveries|
    ensures r.recordings.Keys == recordings.Keys
    ensures forall id :: id in recordings ==>
              r.recordings[id].room == recordings[id].room && r.recordings[id].mode == recordings[id].mode
    ensures forall id :: id in r.recordings && r.recordings[id] != recordings[id] ==> IsSaved(r.recordings[id].status)
    ensures |r.notified| <= |deliveries|
    decreases |deliveries|
  {
    if deliveries == [] then Run([], recordings, [])
    else
      var d := deliveries[0];
      var s := OnStorageEvent(recordings, d.event, isSavable, d.notificationSucceeded);
      var rest := Replay(s.recordings, deliveries[1..], isSavable);
      Run([s.outcome] + rest.outcomes, rest.recordings, s.notified + rest.notified)
  }

  /** Once a recording is saved, or in the error state, no later delivery
      notifies about it or touches it again. */
  lemma {:induction false} FinalizedRecordingStaysSettled(recordings: Store, deliveries: seq<Delivery>,
                                                          isSavable: Recording -> bool, id: RecordingId)
    requires GuardsFinalized(isSavable)
    requires id in recordings && (recordings[id].status == Error || IsSaved(recordings[id].status))
    ensures id !in Replay(recordings, deliveries, isSavable).notified
    ensures Replay(recordings, deliveries, isSavable).recordings[id] == recordings[id]
    decreases |deliveries|
  {
    if deliveries != [] {
      var d := deliveries[0];
      var s := OnStorageEvent(recordings, d.event, isSavable, d.notificationSucceeded);
      FinalizedRecordingStaysSettled(s.recordings, deliveries[1..], isSavable, id);
    }
  }

  /** The hook writes only saved statuses, so it never gives a room a second
      initiated or active recording. */
  lemma StorageEventKeepsOneOngoingPerRoom(recordings: Store, event: ParseOutcome, isSavable: Recording -> bool,
                                           notificationSucceeded: bool)
    requires OneOngoingPerRoom(recordings)
    ensures OneOngoingPerRoom(OnStorageEvent(recordings, event, isSavable, notificationSucceeded).recordings)
  {
    var s := OnStorageEvent(recordings, event, isSavable, notificationSucceeded);
    forall a, b | (&& a in s.recordings && b in s.recordings && s.recordings[a].room == s.recordings[b].room
                   && IsOngoing(s.recordings[a].status) && IsOngoing(s.recordings[b].status))
      ensures a == b
    {
      if s.notified == [] || (a != event.id && b != event.id) {
        assert s.recordings[a] == recordings[a] && s.recordings[b] == recordings[b];
      }
    }
  }

  /** Over any run of deliveries, each room keeps at most one initiated or
      active recording. */
  lemma {:induction false} ReplayKeepsOneOngoingPerRoom(recordings: Store, deliveries: seq<Delivery>,
                                                        isSavable: Recording -> bool)
    requires OneOngoingPerRoom(recordings)
    ensures OneOngoingPerRoom(Replay(recordings, deliveries, isSavable).recordings)
    decreases |deliveries|
  {
    if deliveries != [] {
      var d := deliveries[0];
      StorageEventKeepsOneOngoingPerRoom(recordings, d.event, isSavable, d.notificationSucceeded);
      var s := OnStorageEvent(recordings, d.event, isSavable, d.notificationSucceeded);
      ReplayKeepsOneOngoingPerRoom(s.recordings, deliveries[1..], isSavable);
    }
  }

  /** Duplicate or late deliveries never reach the notification service twice
      for the same recording, and never for one that was saved beforehand. */
  lemma {:induction false} NotifiedAtMostOnce(recordings: Store, deliveries: seq<Delivery>,
                                              isSavable: Recording -> bool, id: RecordingId)
    requires GuardsFinalized(isSavable)
    ensures multiset(Replay(recordings, deliveries, isSavable).notified)[id] <= 1
    ensures id in recordings && (recordings[id].status == Error || IsSaved(recordings[id].status)) ==>
              id !in Replay(recordings, deliveries, isSavable).notified
    decreases |deliveries|
  {
    if deliveries != [] {
      var d := deliveries[0];
      var s := OnStorageEvent(recordings, d.event, isSavable, d.notificationSucceeded);
      var rest := Replay(s.recordings, deliveries[1..], isSavable);
      if id in s.notified {
        FinalizedRecordingStaysSettled(s.recordings, deliveries[1..], isSavable, id);
        assert multiset(s.notified + rest.notified)[id] == 1;
      } else {
        NotifiedAtMostOnce(s.recordings, deliveries[1..], isSavable, id);
        if id in recordings && recordings[id].status == Error {
          assert s.recordings[id] == recordings[id];
        }
        assert multiset(s.notified + rest.notified)[id] == multiset(rest.notified)[id];
      }
    }
  }

  /** The same event delivered twice: the second delivery is refused as not
      savable and changes nothing. */
  lemma DuplicateDeliveryRefused(recordings: Store, id: RecordingId, isSavable: Recording -> bool,
                                 first: bool, second: bool)
    requires GuardsFinalized(isSavable)
    requires id in recordings && isSavable(recordings[id])
    ensures var s1 := OnStorageEvent(recordings, Parsed(id), isSavable, first);
            var s2 := OnStorageEvent(s1.recordings, Parsed(id), isSavable, second);
            && s1.notified == [id]
            && s2.outcome == Raise(PermissionDenied(NotSavableDetail(id)))
            && s2.recordings == s1.recordings
            && s2.notified == []
  {
    var s1 := OnStorageEvent(recordings, Parsed(id), isSavable, first);
    assert IsSaved(s1.recordings[id].status);
  }
}
