/**
 * The participant view of a room: which participant is shown in the main view
 * (the active participant), whether the user pinned it by clicking its
 * thumbnail, the video priority requested for each participant, and the
 * per-participant containers with their CSS classes and media slots.
 */
module ParticipantView {
  import opened Common
  import opened Media

  /** `setPriority`'s argument: `null | 'low' | 'standard' | 'high'` (`Unset` is null). */
  datatype Priority = Unset | Low | Standard | High

  /**
   * What the handlers read from the room when they run: the dominant speaker
   * if any, and, per participant whose first video publication has a
   * subscribed track, that track. (The local participant never changes and is
   * part of the view.)
   */
  datatype Room = Room(dominantSpeaker: Option<Sid>, firstVideoTrack: map<Sid, TrackId>)

  /** `dominantSpeaker || localParticipant`. */
  function DominantOrLocal(room: Room, local: Sid): (r: Sid)
    ensures room.dominantSpeaker.Some? ==> r == room.dominantSpeaker.value
    ensures room.dominantSpeaker.None? ==> r == local
    ensures Some(r) == room.dominantSpeaker || r == local
  {
    if room.dominantSpeaker.Some? then room.dominantSpeaker.value else local
  }

  /** The track of the first video publication of a participant, if subscribed. */
  function FirstVideo(room: Room, s: Option<Sid>): (r: Option<TrackId>)
    ensures r.Some? <==> s.Some? && s.value in room.firstVideoTrack
    ensures r.Some? ==> r.value == room.firstVideoTrack[s.value]
    ensures s.None? ==> r.None?
  {
    if s.Some? && s.value in room.firstVideoTrack then Some(room.firstVideoTrack[s.value]) else None
  }

  const ActiveClass := "active"
  const PinnedClass := "pinned"

  /** The main view after switching from `prev` to `next`: the previous first video track is detached, the next one attached. */
  function MainAfterSwitch(main: Option<TrackId>, prev: Option<Sid>, next: Sid, room: Room): (r: Option<TrackId>)
    ensures FirstVideo(room, Some(next)).Some? ==> r == FirstVideo(room, Some(next))
    ensures FirstVideo(room, Some(next)).None? && FirstVideo(room, prev).Some? ==> r != FirstVideo(room, prev)
    ensures FirstVideo(room, Some(next)).None? && FirstVideo(room, prev).Some? && main == FirstVideo(room, prev) ==> r == None
    ensures FirstVideo(room, Some(next)).None? && FirstVideo(room, prev).Some? && main != FirstVideo(room, prev) ==> r == main
    ensures FirstVideo(room, Some(next)).None? && FirstVideo(room, prev).None? ==> r == main
    ensures r == main || r == None || r == FirstVideo(room, Some(next))
  {
    var left := if FirstVideo(room, prev).Some? then Release(main, FirstVideo(room, prev).value) else main;
    if FirstVideo(room, Some(next)).Some? then FirstVideo(room, Some(next)) else left
  }

  /** Whether the main view is shown after switching: shown when the next participant has video, hidden when the previous one had. */
  function MainVisibleAfterSwitch(visible: bool, prev: Option<Sid>, next: Sid, room: Room): (r: bool)
    ensures FirstVideo(room, Some(next)).Some? ==> r
    ensures FirstVideo(room, Some(next)).None? && FirstVideo(room, prev).Some? ==> !r
    ensures FirstVideo(room, Some(next)).None? && FirstVideo(room, prev).None? ==> r == visible
  {
    FirstVideo(room, Some(next)).Some? || (visible && FirstVideo(room, prev).None?)
  }

  /** Remove `active` and `pinned` from the container of `s`, if there is one. */
  function Unmark(m: map<Sid, Container>, s: Option<Sid>): (r: map<Sid, Container>)
    ensures r.Keys == m.Keys
    ensures forall x :: x in m && Some(x) != s ==> r[x] == m[x]
    ensures s.Some? && s.value in m ==> r[s.value] == m[s.value].(classes := m[s.value].classes - {ActiveClass, PinnedClass})
  {
    if s.Some? && s.value in m then m[s.value := m[s.value].(classes := m[s.value].classes - {ActiveClass, PinnedClass})] else m
  }

  /** Add `active`, and `pinned` when `pinned` holds, to the container of `s`, if there is one. */
  function Mark(m: map<Sid, Container>, s: Sid, pinned: bool): (r: map<Sid, Container>)
    ensures r.Keys == m.Keys
    ensures forall x :: x in m && x != s ==> r[x] == m[x]
    ensures s in m ==> r[s] == m[s].(classes := m[s].classes + {ActiveClass} + (if pinned then {PinnedClass} else {}))
  {
    if s in m then m[s := m[s].(classes := m[s].classes + {ActiveClass} + (if pinned then {PinnedClass} else {}))] else m
  }

  /** `setVideoPriority`: the local participant's tracks have no `setPriority`, so only a remote participant's entry changes. */
  function WithPriority(m: map<Sid, Priority>, p: Sid, pr: Priority, local: Sid): (r: map<Sid, Priority>)
    ensures p != local ==> p in r && r[p] == pr
    ensures p == local ==> r == m
    ensures forall s :: s != p ==> (s in r <==> s in m) && (s in m ==> r[s] == m[s])
  {
    if p != local then m[p := pr] else m
  }

  /** Every container other than the active participant's carries neither `active` nor `pinned`. */
  ghost predicate OnlyActiveMarked(m: map<Sid, Container>, active: Option<Sid>) {
    forall s :: s in m && active != Some(s) ==> ActiveClass !in m[s].classes && PinnedClass !in m[s].classes
  }

  /** The display classes agree with the selection: `pinned` marks exactly the pinned active participant, who is also marked `active`. */
  ghost predicate Marked(m: map<Sid, Container>, active: Option<Sid>, pinned: bool) {
    && OnlyActiveMarked(m, active)
    && (forall s :: s in m && active == Some(s) ==>
          (PinnedClass in m[s].classes <==> pinned) && (pinned ==> ActiveClass in m[s].classes))
  }

  /** Only the pinned active participant holds a `high` video priority among the participants still in the room. */
  ghost predicate PinPriority(m: map<Sid, Container>, priority: map<Sid, Priority>, active: Option<Sid>, pinned: bool) {
    forall s :: s in m && s in priority && priority[s] == High ==> pinned && active == Some(s)
  }

  /** Moving the display classes leaves every container's media elements as they were. */
  lemma MovingMarksKeepsMedia(m: map<Sid, Container>, prev: Option<Sid>, next: Sid, pinned: bool)
    ensures var r := Mark(Unmark(m, prev), next, pinned);
      r.Keys == m.Keys && forall s :: s in r ==> r[s].audio == m[s].audio && r[s].video == m[s].video
  {
  }

  /** Pinning `p` (after resetting a previously pinned participant) leaves `p` the only participant with `high` priority. */
  lemma PinningKeepsOneHigh(m: map<Sid, Container>, priority: map<Sid, Priority>, active: Option<Sid>, pinned: bool, p: Sid, local: Sid)
    requires PinPriority(m, priority, active, pinned)
    requires pinned ==> active.Some?
    requires local !in priority
    ensures var reset := if pinned then WithPriority(priority, active.value, Unset, local) else priority;
      var r := WithPriority(reset, p, High, local);
      PinPriority(m, r, Some(p), true) && local !in r
  {
  }

  /** Unpinning `p` and resetting its priority leaves no participant in the room with `high` priority. */
  lemma UnpinningClearsHigh(m: map<Sid, Container>, priority: map<Sid, Priority>, p: Sid, local: Sid, next: Option<Sid>)
    requires PinPriority(m, priority, Some(p), true)
    requires local !in priority
    ensures PinPriority(m, WithPriority(priority, p, Unset, local), next, false)
  {
  }

  /** Moving the marks from the previous active participant to `next` leaves the display classes agreeing with the new selection. */
  lemma SwitchKeepsMarksConsistent(m: map<Sid, Container>, prev: Option<Sid>, next: Sid, pinned: bool)
    requires OnlyActiveMarked(m, prev)
    ensures Marked(Mark(Unmark(m, prev), next, pinned), Some(next), pinned)
  {
    var u := Unmark(m, prev);
    assert OnlyActiveMarked(u, None) by {
      forall s | s in u
        ensures ActiveClass !in u[s].classes && PinnedClass !in u[s].classes
      {
        if prev != Some(s) {
          assert u[s] == m[s];
        }
      }
    }
  }

  /** At most one container carries `active`, and at most one participant in the room holds `high` priority. */
  lemma MarksAreUnique(m: map<Sid, Container>, priority: map<Sid, Priority>, active: Option<Sid>, pinned: bool, s: Sid, t: Sid)
    requires Marked(m, active, pinned) && PinPriority(m, priority, active, pinned)
    requires s in m && t in m
    ensures ActiveClass in m[s].classes && ActiveClass in m[t].classes ==> s == t
    ensures s in priority && t in priority && priority[s] == High && priority[t] == High ==> s == t
  {
  }

  class RoomView {
    /** `room.localParticipant`. */
    const local: Sid
    /** `activeParticipant`. */
    var active: Option<Sid>
    /** `isActiveParticipantPinned`. */
    var pinned: bool
    /** The video priority last requested for each remote participant. */
    var priority: map<Sid, Priority>
    /** The participant containers in `div#participants`, by id. */
    var containers: map<Sid, Container>
    /** The track the main `<video>` plays, and whether it is shown. */
    var mainTrack: Option<TrackId>
    var mainVisible: bool
    /** Every participant id a container was ever built for: ids are never reused. */
    ghost var seen: set<Sid>

    ghost predicate Valid()
      reads this
    {
      && containers.Keys <= seen
      && priority.Keys <= seen
      && local !in priority
      && (forall s :: s in containers ==> containers[s].WellFormed())
      && (pinned ==> active.Some? && active.value in containers)
      && Marked(containers, active, pinned)
      && PinPriority(containers, priority, active, pinned)
    }

    constructor (local: Sid)
      ensures Valid() && this.local == local
      ensures active == None && !pinned && priority == map[] && containers == map[]
      ensures mainTrack == None && !mainVisible && seen == {}
    {
      this.local := local;
      active := None;
      pinned := false;
      priority := map[];
      containers := map[];
      mainTrack := None;
      mainVisible := false;
      seen := {};
    }

    /** `setupParticipantContainer`: add the container of a participant that just joined. */
    method SetupParticipantContainer(p: Sid)
      requires Valid() && p !in seen
      modifies this`containers, this`seen
      ensures Valid()
      ensures containers == old(containers)[p := NewContainer()]
      ensures seen == old(seen) + {p}
    {
      containers := containers[p := NewContainer()];
      seen := seen + {p};
    }

    /** `setVideoPriority`. */
    method SetVideoPriority(p: Sid, pr: Priority)
      modifies this`priority
      ensures priority == WithPriority(old(priority), p, pr, local)
    {
      if p != local {
        priority := priority[p := pr];
      }
    }

    /**
     * `setActiveParticipant`: move the `active`/`pinned` classes from the
     * previous active participant's container to `p`'s, and switch the main
     * view to `p`'s first video track.
     */
    method SetActiveParticipant(p: Sid, room: Room)
      modifies this`active, this`containers, this`mainTrack, this`mainVisible
      ensures active == Some(p)
      ensures containers == Mark(Unmark(old(containers), old(active)), p, pinned)
      ensures mainTrack == MainAfterSwitch(old(mainTrack), old(active), p, room)
      ensures mainVisible == MainVisibleAfterSwitch(old(mainVisible), old(active), p, room)
      ensures p in containers ==> ActiveClass in containers[p].classes && (pinned ==> PinnedClass in containers[p].classes)
      ensures old(active).Some? && old(active).value != p && old(active).value in containers ==>
        ActiveClass !in containers[old(active).value].classes && PinnedClass !in containers[old(active).value].classes
      ensures OnlyActiveMarked(old(containers), old(active)) ==> Marked(containers, active, pinned)
    {
      if OnlyActiveMarked(containers, active) {
        SwitchKeepsMarksConsistent(containers, active, p, pinned);
      }
      if active.Some? {
        containers := Unmark(containers, active);
        var previous := FirstVideo(room, active);
        if previous.Some? {
          mainTrack := Release(mainTrack, previous.value);
          mainVisible := false;
        }
      }
      active := Some(p);
      containers := Mark(containers, p, pinned);
      if p in room.firstVideoTrack {
        mainTrack := Some(room.firstVideoTrack[p]);
        mainVisible := true;
      }
    }

    /** `setCurrentActiveParticipant`: show the dominant speaker, or the local participant when there is none. */
    method SetCurrentActiveParticipant(room: Room)
      modifies this`active, this`containers, this`mainTrack, this`mainVisible
      ensures active == Some(DominantOrLocal(room, local))
      ensures containers == Mark(Unmark(old(containers), old(active)), DominantOrLocal(room, local), pinned)
      ensures mainTrack == MainAfterSwitch(old(mainTrack), old(active), DominantOrLocal(room, local), room)
      ensures mainVisible == MainVisibleAfterSwitch(old(mainVisible), old(active), DominantOrLocal(room, local), room)
      ensures OnlyActiveMarked(old(containers), old(active)) ==> Marked(containers, active, pinned)
    {
      SetActiveParticipant(DominantOrLocal(room, local), room);
    }

    /**
     * The click handler of a participant's container: clicking the pinned
     * active participant unpins it and returns the main view to the dominant
     * speaker; clicking anyone else pins that participant.
     */
    method ClickContainer(p: Sid, room: Room)
      requires Valid() && p in containers
      modifies this
      ensures Valid()
      ensures seen == old(seen)
      ensures containers.Keys == old(containers).Keys
      ensures forall s :: s in containers ==> containers[s].audio == old(containers)[s].audio && containers[s].video == old(containers)[s].video
      ensures active.Some? && containers == Mark(Unmark(old(containers), old(active)), active.value, pinned)
      ensures old(active) == Some(p) && old(pinned) ==>
        && !pinned
        && active == Some(DominantOrLocal(room, local))
        && priority == WithPriority(old(priority), p, Unset, local)
      ensures !(old(active) == Some(p) && old(pinned)) ==>
        && pinned
        && active == Some(p)
        && priority == WithPriority(if old(pinned) then WithPriority(old(priority), old(active).value, Unset, local) else old(priority), p, High, local)
        && ActiveClass in containers[p].classes && PinnedClass in containers[p].classes
      ensures active.Some? && mainTrack == MainAfterSwitch(old(mainTrack), old(active), active.value, room)
      ensures mainVisible == MainVisibleAfterSwitch(old(mainVisible), old(active), active.value, room)
    {
      MovingMarksKeepsMedia(containers, active, if active == Some(p) && pinned then DominantOrLocal(room, local) else p, !(active == Some(p) && pinned));
      if active == Some(p) && pinned {
        Unpin(p, room);
      } else {
        Pin(p, room);
      }
    }

    /** The unpinning branch of the click handler. */
    method Unpin(p: Sid, room: Room)
      requires Valid() && active == Some(p) && pinned
      modifies this`priority, this`pinned, this`active, this`containers, this`mainTrack, this`mainVisible
      ensures Valid()
      ensures !pinned && active == Some(DominantOrLocal(room, local))
      ensures priority == WithPriority(old(priority), p, Unset, local)
      ensures containers == Mark(Unmark(old(containers), old(active)), DominantOrLocal(room, local), false)
      ensures mainTrack == MainAfterSwitch(old(mainTrack), old(active), DominantOrLocal(room, local), room)
      ensures mainVisible == MainVisibleAfterSwitch(old(mainVisible), old(active), DominantOrLocal(room, local), room)
    {
      UnpinningClearsHigh(containers, priority, p, local, Some(DominantOrLocal(room, local)));
      MovingMarksKeepsMedia(containers, active, DominantOrLocal(room, local), false);
      SetVideoPriority(p, Unset);
      pinned := false;
      SetCurrentActiveParticipant(room);
    }

    /** The pinning branch of the click handler. */
    method Pin(p: Sid, room: Room)
      requires Valid() && p in containers && !(active == Some(p) && pinned)
      modifies this`priority, this`pinned, this`active, this`containers, this`mainTrack, this`mainVisible
      ensures Valid()
      ensures pinned && active == Some(p)
      ensures priority == WithPriority(if old(pinned) then WithPriority(old(priority), old(active).value, Unset, local) else old(priority), p, High, local)
      ensures containers == Mark(Unmark(old(containers), old(active)), p, true)
      ensures ActiveClass in containers[p].classes && PinnedClass in containers[p].classes
      ensures mainTrack == MainAfterSwitch(old(mainTrack), old(active), p, room)
      ensures mainVisible == MainVisibleAfterSwitch(old(mainVisible), old(active), p, room)
    {
      PinningKeepsOneHigh(containers, priority, active, pinned, p, local);
      MovingMarksKeepsMedia(containers, active, p, true);
      if pinned {
        SetVideoPriority(active.value, Unset);
      }
      SetVideoPriority(p, High);
      pinned := true;
      SetActiveParticipant(p, room);
    }

    /** The `dominantSpeakerChanged` handler: follow the dominant speaker unless a participant is pinned. */
    method DominantSpeakerChanged(room: Room)
      requires Valid()
      modifies this`active, this`containers, this`mainTrack, this`mainVisible
      ensures Valid()
      ensures old(pinned) ==> active == old(active) && containers == old(containers)
                              && mainTrack == old(mainTrack) && mainVisible == old(mainVisible)
      ensures !old(pinned) ==>
        && active == Some(DominantOrLocal(room, local))
        && containers == Mark(Unmark(old(containers), old(active)), DominantOrLocal(room, local), false)
        && mainTrack == MainAfterSwitch(old(mainTrack), old(active), DominantOrLocal(room, local), room)
        && mainVisible == MainVisibleAfterSwitch(old(mainVisible), old(active), DominantOrLocal(room, local), room)
    {
      if !pinned {
        SetCurrentActiveParticipant(room);
      }
    }

    /**
     * `participantDisconnected`: a disconnecting pinned active participant is
     * unpinned and the dominant speaker (or local participant) is shown; in
     * every case the participant's container is removed.
     */
    method ParticipantDisconnected(p: Sid, room: Room)
      requires Valid()
      modifies this`active, this`pinned, this`containers, this`mainTrack, this`mainVisible
      ensures Valid()
      ensures p !in containers
      ensures containers.Keys == old(containers).Keys - {p}
      ensures old(active) == Some(p) && old(pinned) ==>
        && !pinned
        && active == Some(DominantOrLocal(room, local))
        && containers == Mark(Unmark(old(containers), old(active)), DominantOrLocal(room, local), false) - {p}
        && mainTrack == MainAfterSwitch(old(mainTrack), old(active), DominantOrLocal(room, local), room)
        && mainVisible == MainVisibleAfterSwitch(old(mainVisible), old(active), DominantOrLocal(room, local), room)
      ensures !(old(active) == Some(p) && old(pinned)) ==>
        && active == old(active) && pinned == old(pinned)
        && containers == old(containers) - {p}
        && mainTrack == old(mainTrack) && mainVisible == old(mainVisible)
    {
      if active == Some(p) && pinned {
        pinned := false;
        SetCurrentActiveParticipant(room);
      }
      containers := containers - {p};
    }

    /**
     * `attachTrack`: put the track into the first free element of its kind in
     * the publisher's container, and into the main view too when it is a video
     * track of the active participant. A data track selects no element, so
     * reading the first one fails and nothing changes.
     */
    method AttachTrack(t: Track, p: Sid) returns (outcome: AttachOutcome)
      requires Valid()
      modifies this`containers, this`mainTrack, this`mainVisible
      ensures Valid()
      ensures p !in old(containers) || t.kind == Data ==> outcome == MissingElement(0) && containers == old(containers)
      ensures p in old(containers) && t.kind != Data ==>
        var a := AttachToGroup(old(containers)[p].Group(t.kind), t.id);
        outcome == a.outcome && containers == old(containers)[p := old(containers)[p].WithGroup(t.kind, a.group)]
      ensures !outcome.MissingElement? && t.kind == Video && active == Some(p) ==> mainTrack == Some(t.id) && mainVisible
      ensures !(!outcome.MissingElement? && t.kind == Video && active == Some(p)) ==>
        mainTrack == old(mainTrack) && mainVisible == old(mainVisible)
    {
      if p !in containers || t.kind == Data {
        return MissingElement(0);
      }
      var c := containers[p];
      var a := AttachToGroup(c.Group(t.kind), t.id);
      containers := containers[p := c.WithGroup(t.kind, a.group)];
      outcome := a.outcome;
      if outcome.MissingElement? {
        return;
      }
      if t.kind == Video && active == Some(p) {
        mainTrack := Some(t.id);
        mainVisible := true;
      }
    }

    /**
     * `detachTrack`: release the first element of the track's kind in the
     * publisher's container, and the main view too when it is a video track of
     * the active participant.
     */
    method DetachTrack(t: Track, p: Sid)
      requires Valid()
      modifies this`containers, this`mainTrack, this`mainVisible
      ensures Valid()
      ensures p in old(containers) && t.kind != Data ==>
        containers == old(containers)[p := old(containers)[p].WithGroup(t.kind, DetachFromGroup(old(containers)[p].Group(t.kind), t.id))]
      ensures p !in old(containers) || t.kind == Data ==> containers == old(containers)
      ensures t.kind == Video && active == Some(p) ==> mainTrack == Release(old(mainTrack), t.id) && !mainVisible
      ensures !(t.kind == Video && active == Some(p)) ==> mainTrack == old(mainTrack) && mainVisible == old(mainVisible)
    {
      if p in containers && t.kind != Data {
        var c := containers[p];
        containers := containers[p := c.WithGroup(t.kind, DetachFromGroup(c.Group(t.kind), t.id))];
      }
      if t.kind == Video && active == Some(p) {
        mainTrack := Release(mainTrack, t.id);
        mainVisible := false;
      }
    }
  }

  /** Pinning a participant and clicking it again hands the main view back to the dominant speaker. */
  method PinThenUnpin(view: RoomView, p: Sid, room: Room)
    requires view.Valid() && p in view.containers && !(view.active == Some(p) && view.pinned)
    modifies view
    ensures view.Valid()
    ensures !view.pinned && view.active == Some(DominantOrLocal(room, view.local))
    ensures p != view.local ==> p in view.priority && view.priority[p] == Unset
  {
    view.ClickContainer(p, room);
    view.ClickContainer(p, room);
  }

  /** While a participant is pinned, dominant-speaker changes leave the main view on it. */
  method PinnedIgnoresDominantSpeaker(view: RoomView, p: Sid, room: Room, later: Room)
    requires view.Valid() && p in view.containers && !(view.active == Some(p) && view.pinned)
    modifies view
    ensures view.Valid()
    ensures view.pinned && view.active == Some(p)
    ensures ActiveClass in view.containers[p].classes && PinnedClass in view.containers[p].classes
  {
    view.ClickContainer(p, room);
    view.DominantSpeakerChanged(later);
  }
}
