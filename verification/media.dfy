/**
 * A participant's media container: a `div.participant` holding one `<audio>`
 * and two `<video>` elements. Each element is a slot whose `srcObject` plays
 * at most one track; all elements of one kind share one opacity.
 */
module Media {
  import opened Common

  /** What one media element plays: `None` when its `srcObject` is null. */
  type Slot = Option<TrackId>

  /** The elements of one kind in a container, in document order, and whether they are shown (opacity not 0). */
  datatype MediaGroup = MediaGroup(slots: seq<Slot>, visible: bool)

  datatype Container = Container(classes: set<string>, audio: MediaGroup, video: MediaGroup)
  {
    /** The layout every container is created with. */
    predicate WellFormed() {
      |audio.slots| == 1 && |video.slots| == 2
    }

    /** The elements selected by `div#sid > kind`; a container has no `data` element. */
    function Group(k: Kind): MediaGroup {
      match k
      case Audio => audio
      case Video => video
      case Data => MediaGroup([], false)
    }

    function WithGroup(k: Kind, g: MediaGroup): (c: Container)
      requires k != Data
      ensures c.classes == classes
      ensures c.Group(k) == g
      ensures k == Audio ==> c.video == video
      ensures k == Video ==> c.audio == audio
    {
      if k == Audio then this.(audio := g) else this.(video := g)
    }
  }

  const ParticipantClass := "participant"

  /** The container built for a new participant: one audio and two video elements, all empty and transparent. */
  function NewContainer(): (c: Container)
    ensures c.WellFormed()
    ensures c.classes == {ParticipantClass}
    ensures forall k: Kind :: !c.Group(k).visible
    ensures forall k: Kind, i :: 0 <= i < |c.Group(k).slots| ==> c.Group(k).slots[i] == None
  {
    Container({ParticipantClass}, MediaGroup([None], false), MediaGroup([None, None], false))
  }

  /**
   * How `attachTrack` ends: the track went into the slot at the given index,
   * both slots were taken and nothing was attached, or the code read
   * `srcObject` of an element that does not exist and threw.
   */
  datatype AttachOutcome = Attached(slot: nat) | AllTaken | MissingElement(index: nat)

  datatype Attachment = Attachment(group: MediaGroup, outcome: AttachOutcome)

  /**
   * Attach a track to the elements of its kind: the group is shown, and the
   * track goes into the first empty slot among the first two. A group with one
   * element whose slot is taken has no second element to look at.
   */
  function AttachToGroup(g: MediaGroup, t: TrackId): (r: Attachment)
    requires |g.slots| >= 1
    ensures r.group.visible
    ensures r.outcome.Attached? <==> g.slots[0] == None || (|g.slots| >= 2 && g.slots[1] == None)
    ensures r.outcome.Attached? ==>
      && r.outcome.slot < |g.slots| && r.outcome.slot <= 1
      && g.slots[r.outcome.slot] == None
      && (forall j :: 0 <= j < r.outcome.slot ==> g.slots[j] != None)
      && r.group.slots == g.slots[r.outcome.slot := Some(t)]
    ensures !r.outcome.Attached? ==> r.group.slots == g.slots
    ensures r.outcome.MissingElement? <==> g.slots[0] != None && |g.slots| == 1
    ensures r.outcome.MissingElement? ==> r.outcome.index == 1
  {
    var shown := g.(visible := true);
    if g.slots[0] == None then Attachment(shown.(slots := g.slots[0 := Some(t)]), Attached(0))
    else if |g.slots| < 2 then Attachment(shown, MissingElement(1))
    else if g.slots[1] == None then Attachment(shown.(slots := g.slots[1 := Some(t)]), Attached(1))
    else Attachment(shown, AllTaken)
  }

  /** `track.detach(el)`: the element stops playing that track; an element playing another track keeps it. */
  function Release(slot: Slot, t: TrackId): (r: Slot)
    ensures r != Some(t)
    ensures slot != Some(t) ==> r == slot
    ensures r == None || r == slot
  {
    if slot == Some(t) then None else slot
  }

  /** Detach a track from the elements of its kind: the group is hidden and only the first element is released. */
  function DetachFromGroup(g: MediaGroup, t: TrackId): (r: MediaGroup)
    requires |g.slots| >= 1
    ensures !r.visible
    ensures |r.slots| == |g.slots|
    ensures r.slots[0] != Some(t)
    ensures g.slots[0] == Some(t) ==> r.slots[0] == None
    ensures g.slots[0] != Some(t) ==> r.slots == g.slots
    ensures forall j :: 1 <= j < |g.slots| ==> r.slots[j] == g.slots[j]
  {
    MediaGroup(g.slots[0 := Release(g.slots[0], t)], false)
  }

  /** For a video group as laid out, attach never hits a missing element: slot 0, else slot 1, else nothing changes. */
  lemma VideoAttachFillsFirstFree(c: Container, t: TrackId)
    requires c.WellFormed()
    ensures var r := AttachToGroup(c.video, t);
      && (c.video.slots[0] == None ==> r.outcome == Attached(0) && r.group.slots == [Some(t), c.video.slots[1]])
      && (c.video.slots[0] != None && c.video.slots[1] == None ==> r.outcome == Attached(1) && r.group.slots == [c.video.slots[0], Some(t)])
      && (c.video.slots[0] != None && c.video.slots[1] != None ==> r.outcome == AllTaken && r.group.slots == c.video.slots)
  {
  }

  /** The audio group has one element: a second audio track makes the code read a second element that does not exist. */
  lemma SecondAudioTrackMissesElement(c: Container, t: TrackId)
    requires c.WellFormed() && c.audio.slots[0] != None
    ensures AttachToGroup(c.audio, t).outcome == MissingElement(1)
    ensures AttachToGroup(c.audio, t).group.slots == c.audio.slots
  {
  }

  /** Detaching a track that went into the first slot empties that slot again. */
  lemma DetachUndoesAttachInFirstSlot(g: MediaGroup, t: TrackId)
    requires |g.slots| >= 1 && g.slots[0] == None
    ensures DetachFromGroup(AttachToGroup(g, t).group, t).slots == g.slots
  {
    var a := AttachToGroup(g, t);
    assert a.group.slots == g.slots[0 := Some(t)];
    assert DetachFromGroup(a.group, t).slots == g.slots[0 := Some(t)][0 := None];
  }

  /** A track that went into the second slot is still played there after it is detached. */
  lemma DetachKeepsSecondSlot(g: MediaGroup, t: TrackId)
    requires |g.slots| == 2 && g.slots[0] != None && g.slots[0] != Some(t) && g.slots[1] == None
    ensures AttachToGroup(g, t).outcome == Attached(1)
    ensures DetachFromGroup(AttachToGroup(g, t).group, t).slots == [g.slots[0], Some(t)]
  {
  }
}
