/** `UIRadioboxGroup` and `UIRadiobox`: boxes of which a group keeps one selected. */
module Radioboxes {
  import opened Options
  import opened Lists
  import opened Callbacks

  /** The texture `UIRadiobox._update_sprite` chooses. */
  function RadioSprite(active: bool): (name: string)
    ensures name == "Radiobox_Active" <==> active
    ensures !active <==> name == "Radiobox_Default"
  {
    if active then "Radiobox_Active" else "Radiobox_Default"
  }

  /** The observer list of each box of `bs`, in order. */
  ghost function ObserverLists(bs: seq<Radiobox>): (lists: seq<seq<ObserverId>>)
    reads set b | b in bs :: b.registry
    ensures |lists| == |bs| && forall k :: 0 <= k < |bs| ==> lists[k] == bs[k].registry.callbacks
  {
    if bs == [] then [] else [bs[0].registry.callbacks] + ObserverLists(bs[1..])
  }

  /**
   * The calls `set_active(chosen)` makes when the boxes of `bs` have the
   * observer lists `lists`: each box in turn notifies its own observers with
   * its new state.
   */
  function GroupNotifications(bs: seq<Radiobox>, lists: seq<seq<ObserverId>>, chosen: Radiobox): seq<Notification>
    requires |lists| == |bs|
  {
    if bs == [] then []
    else Broadcast(lists[0], bs[0], Flag(bs[0] == chosen)) + GroupNotifications(bs[1..], lists[1..], chosen)
  }

  /** Walking one more box appends that box's notifications. */
  lemma {:induction false} GroupNotificationsSnoc(bs: seq<Radiobox>, lists: seq<seq<ObserverId>>, i: nat, chosen: Radiobox)
    requires |lists| == |bs| && i < |bs|
    ensures GroupNotifications(bs[..i + 1], lists[..i + 1], chosen)
         == GroupNotifications(bs[..i], lists[..i], chosen) + Broadcast(lists[i], bs[i], Flag(bs[i] == chosen))
  {
    if i == 0 {
      assert bs[..1][1..] == [] && lists[..1][1..] == [];
    } else {
      assert bs[..i + 1][1..] == bs[1..][..i] && lists[..i + 1][1..] == lists[1..][..i];
      assert bs[..i][1..] == bs[1..][..i - 1] && lists[..i][1..] == lists[1..][..i - 1];
      GroupNotificationsSnoc(bs[1..], lists[1..], i - 1, chosen);
    }
  }

  /** The chosen box's observers hear `True`; every other box's observers hear `False`. */
  lemma {:induction false} GroupNotificationsPayloads(bs: seq<Radiobox>, lists: seq<seq<ObserverId>>, chosen: Radiobox)
    requires |lists| == |bs|
    ensures forall n :: n in GroupNotifications(bs, lists, chosen) ==> n.payload == Flag(n.sender == chosen)
  {
    if bs != [] {
      GroupNotificationsPayloads(bs[1..], lists[1..], chosen);
      var head := Broadcast(lists[0], bs[0], Flag(bs[0] == chosen));
      BroadcastElements(lists[0], bs[0], Flag(bs[0] == chosen));
      forall n | n in head ensures n.payload == Flag(n.sender == chosen) {
        var k :| 0 <= k < |head| && head[k] == n;
      }
    }
  }

  /** The number of observers over all the lists. */
  function ObserverCount(lists: seq<seq<ObserverId>>): nat {
    if lists == [] then 0 else |lists[0]| + ObserverCount(lists[1..])
  }

  /** Every box is heard once per observer it has, so the count is the sum. */
  lemma {:induction false} GroupNotificationsCount(bs: seq<Radiobox>, lists: seq<seq<ObserverId>>, chosen: Radiobox)
    requires |lists| == |bs|
    ensures |GroupNotifications(bs, lists, chosen)| == ObserverCount(lists)
  {
    if bs != [] {
      GroupNotificationsCount(bs[1..], lists[1..], chosen);
    }
  }

  /** Every box of `bs` shows its sprite and is active exactly when it is `chosen`. */
  ghost predicate Switched(bs: seq<Radiobox>, chosen: Radiobox)
    reads set b | b in bs
  {
    forall b :: b in bs ==> b.Valid() && b.active == (b == chosen)
  }

  /** The log after one more turn of `set_active`'s loop holds one more box's notifications. */
  lemma LogStep(bs: seq<Radiobox>, lists: seq<seq<ObserverId>>, i: nat, chosen: Radiobox,
                start: seq<Notification>, before: seq<Notification>, after: seq<Notification>)
    requires i < |bs| == |lists|
    requires before == start + GroupNotifications(bs[..i], lists[..i], chosen)
    requires after == before + Broadcast(lists[i], bs[i], Flag(bs[i] == chosen))
    ensures after == start + GroupNotifications(bs[..i + 1], lists[..i + 1], chosen)
  {
    GroupNotificationsSnoc(bs, lists, i, chosen);
  }

  /** One turn of `set_active`'s loop: box `i` takes its new state and is heard. */
  method SwitchNext(bs: seq<Radiobox>, i: nat, chosen: Radiobox, log: NotificationLog)
    requires i < |bs| && Switched(bs[..i], chosen)
    modifies bs[i], log
    ensures Switched(bs[..i + 1], chosen)
    ensures log.entries == old(log.entries) + Broadcast(bs[i].registry.callbacks, bs[i], Flag(bs[i] == chosen))
  {
    var box := bs[i];
    box.UpdateState(box == chosen, log);
    assert bs[..i + 1] == bs[..i] + [box];
  }

  class RadioGroup {
    var boxes: seq<Radiobox>
    var selected: Option<Radiobox>

    /** `register_box` never adds a box twice. */
    ghost predicate Valid()
      reads this
    {
      Distinct(boxes)
    }

    constructor ()
      ensures Valid() && boxes == [] && selected == None
    {
      boxes := [];
      selected := None;
    }

    /** `register_box`: appends `box` unless it is already a member. */
    method RegisterBox(box: Radiobox)
      requires Valid()
      modifies this
      ensures Valid() && boxes == AppendNew(old(boxes), box) && selected == old(selected)
    {
      if box !in boxes {
        boxes := boxes + [box];
      }
    }

    /**
     * `set_active`: walks the members in registration order, switching each
     * off (or `chosen` on) and letting it notify its observers at once, then
     * records `chosen` as the selection.
     */
    method SetActive(chosen: Radiobox, log: NotificationLog)
      requires Valid()
      modifies this, log, set b | b in boxes
      ensures Valid() && boxes == old(boxes) && selected == Some(chosen)
      ensures forall b :: b in boxes ==> b.Valid() && b.active == (b == chosen)
      ensures chosen !in boxes ==> chosen.active == old(chosen.active)
      ensures log.entries == old(log.entries) + GroupNotifications(boxes, old(ObserverLists(boxes)), chosen)
    {
      var bs := boxes;
      ghost var lists := ObserverLists(bs);
      var i := 0;
      while i < |bs|
        invariant 0 <= i <= |bs| && boxes == bs && selected == old(selected)
        invariant Switched(bs[..i], chosen)
        invariant log.entries == old(log.entries) + GroupNotifications(bs[..i], lists[..i], chosen)
      {
        ghost var before := log.entries;
        SwitchNext(bs, i, chosen, log);
        LogStep(bs, lists, i, chosen, old(log.entries), before, log.entries);
        i := i + 1;
      }
      assert bs[..i] == bs && lists[..i] == lists;
      selected := Some(chosen);
    }

    /** `get_active_value`: `None` when nothing is selected, else the selected box's own value (itself possibly `None`). */
    function ActiveValue(): (v: Option<int>)
      reads this
      ensures v.None? <==> selected.None? || selected.value.value.None?
      ensures v.Some? ==> v == selected.value.value
    {
      if selected.None? then None else selected.value.value
    }
  }

  class Radiobox {
    const group: RadioGroup
    const value: Option<int>
    const registry: CallbackRegistry
    var active: bool
    var sprite: string

    /** The sprite always shows the current state. */
    ghost predicate Valid()
      reads this
    {
      sprite == RadioSprite(active)
    }

    /** The constructor registers the new box with its group. */
    constructor (group: RadioGroup, value: Option<int>)
      requires group.Valid()
      modifies group
      ensures Valid() && !active && this.group == group && this.value == value
      ensures fresh(registry) && registry.Valid() && registry.callbacks == []
      ensures group.Valid() && group.boxes == old(group.boxes) + [this] && group.selected == old(group.selected)
    {
      this.group := group;
      this.value := value;
      registry := new CallbackRegistry();
      active := false;
      sprite := RadioSprite(false);
      new;
      group.RegisterBox(this);
    }

    /** `on_click` and `set_active`: hands the selection to the group. */
    method SetActive(log: NotificationLog)
      requires group.Valid()
      modifies group, log, set b | b in group.boxes
      ensures group.Valid() && group.boxes == old(group.boxes) && group.selected == Some(this)
      ensures forall b :: b in group.boxes ==> b.Valid() && b.active == (b == this)
      ensures log.entries == old(log.entries) + GroupNotifications(group.boxes, old(ObserverLists(group.boxes)), this)
      ensures group.ActiveValue() == value
    {
      group.SetActive(this, log);
    }

    /** `_update_state`: sets the state, notifies this box's observers once, updates the sprite. */
    method UpdateState(active: bool, log: NotificationLog)
      modifies this, log
      ensures Valid() && this.active == active
      ensures log.entries == old(log.entries) + Broadcast(registry.callbacks, this, Flag(active))
    {
      this.active := active;
      registry.Trigger(log, this, Flag(active));
      sprite := RadioSprite(active);
    }
  }
}
