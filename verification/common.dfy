/** Shared vocabulary of the video-room view: participants and tracks are known by their ids. */
module Common {

  datatype Option<+T> = None | Some(value: T)

  /** A participant's session id (`participant.sid`), unique within a room. */
  type Sid = string

  /** The identity of a live media track (what an element's `srcObject` plays). */
  type TrackId = string

  /**
   * `track.kind`: it selects the `<audio>` or the `<video>` elements of a
   * container. A data track's kind selects no element at all.
   */
  datatype Kind = Audio | Video | Data

  datatype Track = Track(id: TrackId, kind: Kind)
}
