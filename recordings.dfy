/** The recording entity as the views see it: which room it belongs to, its
    mode and its lifecycle status, kept in a store keyed by recording id. */
module Recordings {

  type RecordingId = string

  /** Room identifiers are UUIDs; only their canonical text matters here. */
  datatype Uuid = Uuid(canonical: string)

  datatype Status =
    | Initiated
    | Active
    | Error
    | Saved
    | NotificationSucceeded

  datatype Recording = Recording(room: Uuid, mode: string, status: Status)

  type Store = map<RecordingId, Recording>

  /** The two statuses a storage event writes. */
  predicate IsSaved(s: Status) {
    s == Saved || s == NotificationSucceeded
  }

  /** A recording still holding the room's single recording slot. */
  predicate IsOngoing(s: Status) {
    s == Initiated || s == Active
  }

  predicate HasOngoingRecording(recordings: Store, room: Uuid) {
    exists id :: id in recordings && recordings[id].room == room && IsOngoing(recordings[id].status)
  }

  /** At most one initiated or active recording per room. */
  ghost predicate OneOngoingPerRoom(recordings: Store) {
    forall a, b ::
      (&& a in recordings && b in recordings && recordings[a].room == recordings[b].room
       && IsOngoing(recordings[a].status) && IsOngoing(recordings[b].status)) ==> a == b
  }

  /** What the storage hook's denial message promises of `is_savable`: it is
      false for a recording in the error state and for one already saved. */
  ghost predicate GuardsFinalized(isSavable: Recording -> bool) {
    forall r: Recording :: (r.status == Error || IsSaved(r.status)) ==> !isSavable(r)
  }

  /** The status-only reading of `is_savable`: everything except the error
      state and the two saved states. */
  predicate SavableByStatus(r: Recording) {
    r.status != Error && !IsSaved(r.status)
  }

  lemma SavableByStatusGuardsFinalized()
    ensures GuardsFinalized(SavableByStatus)
  {
  }
}
