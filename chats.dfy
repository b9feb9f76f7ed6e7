/** The recent-chats listing: dialogs dated within the last seven days, in
    the order the client yields them, each turned into a chat record, and
    the id of the last kept dialog whose name carries the map-group marker. */
module Chats {
  import opened Python
  import opened Entities
  import opened TelegramSync

  const Marker: string := "TheReconquestMap"
  const NameFallback: string := "(Nome Indisponível)"
  /** `timedelta(days=7)` in seconds. */
  const Week: int := 7 * 24 * 60 * 60

  /** A dialog: its last-activity time in seconds, its display name and its
      entity. */
  datatype Dialog = Dialog(date: int, name: string, entity: Entity)

  /** The chat record; an optional field is `None` when its key is left out. */
  datatype ChatInfo = ChatInfo(id: int, name: string, typeName: string,
                               username: Option<string>, firstName: Option<string>, lastName: Option<string>)

  /** `if dialog.date < seven_days_ago: continue` keeps everything else. */
  predicate IsRecent(d: Dialog, cutoff: int) {
    !(d.date < cutoff)
  }

  function KeyIfTruthy(a: Attr): (r: Option<string>)
    ensures r.Some? <==> AttrTruthy(a)
  {
    if AttrTruthy(a) then Some(a.value.value) else None
  }

  /** The record for one kept dialog. A truthy last name on a `User`
      replaces the display name with the stripped "first last". */
  function ChatInfoOf(d: Dialog): ChatInfo {
    var e := d.entity;
    var name := if AttrTruthy(e.lastName) && e.typeName == "User"
                then FormatUserName(Some(AttrText(e.firstName)), Some(AttrText(e.lastName)))
                else if d.name != "" then d.name else NameFallback;
    ChatInfo(e.id, name, e.typeName, KeyIfTruthy(e.username), KeyIfTruthy(e.firstName), KeyIfTruthy(e.lastName))
  }

  /** The records of the kept dialogs, in iteration order. */
  function RecentChats(ds: seq<Dialog>, cutoff: int): seq<ChatInfo>
    decreases |ds|
  {
    if ds == [] then []
    else
      var last := ds[|ds| - 1];
      RecentChats(ds[..|ds| - 1], cutoff) + (if IsRecent(last, cutoff) then [ChatInfoOf(last)] else [])
  }

  /** A kept dialog whose non-empty name contains the marker. */
  predicate MarksMap(d: Dialog, cutoff: int) {
    IsRecent(d, cutoff) && d.name != "" && Contains(d.name, Marker)
  }

  /** `reconquest_map_id`: the entity id of the last marked dialog. */
  function MarkerId(ds: seq<Dialog>, cutoff: int): Option<int>
    decreases |ds|
  {
    if ds == [] then None
    else if MarksMap(ds[|ds| - 1], cutoff) then Some(ds[|ds| - 1].entity.id)
    else MarkerId(ds[..|ds| - 1], cutoff)
  }

  /** `get_chats_logic` (and app.py's inner coroutine of the same shape):
      one pass over the dialogs, appending kept records and overwriting the
      marker id. `now` is the current time in seconds. */
  method GetChats(ds: seq<Dialog>, now: int) returns (chats: seq<ChatInfo>, reconquestMapId: Option<int>)
    ensures chats == RecentChats(ds, now - Week)
    ensures reconquestMapId == MarkerId(ds, now - Week)
  {
    var cutoff := now - Week;
    chats := [];
    reconquestMapId := None;
    var i := 0;
    while i < |ds|
      invariant 0 <= i <= |ds|
      invariant chats == RecentChats(ds[..i], cutoff)
      invariant reconquestMapId == MarkerId(ds[..i], cutoff)
    {
      var d := ds[i];
      assert ds[..i + 1][..i] == ds[..i];
      if d.date < cutoff {
        i := i + 1;
        continue;
      }
      var info := ChatInfoOf(d);
      if d.name != "" && Contains(d.name, Marker) {
        reconquestMapId := Some(d.entity.id);
      }
      chats := chats + [info];
      i := i + 1;
    }
    assert ds[..|ds|] == ds;
  }

  /** The filter is applied dialog by dialog: kept records of two runs of
      dialogs appear in the same order, one run after the other. */
  lemma {:induction false} RecentChatsAppend(a: seq<Dialog>, b: seq<Dialog>, cutoff: int)
    ensures RecentChats(a + b, cutoff) == RecentChats(a, cutoff) + RecentChats(b, cutoff)
    decreases |b|
  {
    if b == [] {
      assert a + b == a;
    } else {
      var b' := b[..|b| - 1];
      assert (a + b)[..|a + b| - 1] == a + b';
      RecentChatsAppend(a, b', cutoff);
    }
  }

  /** Exactly one record per kept dialog, none for a stale one. */
  lemma RecentChatsSingle(d: Dialog, cutoff: int)
    ensures RecentChats([d], cutoff) == if IsRecent(d, cutoff) then [ChatInfoOf(d)] else []
  {
    assert [d][..0] == [];
  }

  /** A dialog exactly seven days old is still listed; an older one is not. */
  lemma CutoffIsInclusive(d: Dialog, now: int)
    ensures d.date == now - Week ==> RecentChats([d], now - Week) == [ChatInfoOf(d)]
    ensures d.date < now - Week ==> RecentChats([d], now - Week) == []
  {
    RecentChatsSingle(d, now - Week);
  }

  /** Name defaults: the User full name when a last name is set, else the
      display name, else the fallback text. */
  lemma ChatNameDefaults(d: Dialog)
    ensures var n := ChatInfoOf(d).name;
      && (AttrTruthy(d.entity.lastName) && d.entity.typeName == "User" ==>
            n == FormatUserName(Some(AttrText(d.entity.firstName)), Some(AttrText(d.entity.lastName))))
      && (!(AttrTruthy(d.entity.lastName) && d.entity.typeName == "User") && d.name == "" ==> n == NameFallback)
      && (!(AttrTruthy(d.entity.lastName) && d.entity.typeName == "User") && d.name != "" ==> n == d.name)
  {
  }

  /** The marker id is `None` exactly when no kept dialog is marked, and
      otherwise the id of a marked dialog with no marked dialog after it:
      the last match wins. */
  lemma {:induction false} MarkerIdLastWins(ds: seq<Dialog>, cutoff: int)
    ensures MarkerId(ds, cutoff).None? <==> forall j :: 0 <= j < |ds| ==> !MarksMap(ds[j], cutoff)
    ensures MarkerId(ds, cutoff).Some? ==>
      exists j :: 0 <= j < |ds| && MarksMap(ds[j], cutoff) && ds[j].entity.id == MarkerId(ds, cutoff).value
        && forall k :: j < k < |ds| ==> !MarksMap(ds[k], cutoff)
    decreases |ds|
  {
    if ds != [] {
      var p := ds[..|ds| - 1];
      MarkerIdLastWins(p, cutoff);
      assert forall j :: 0 <= j < |p| ==> p[j] == ds[j];
      if MarksMap(ds[|ds| - 1], cutoff) {
        assert MarksMap(ds[|ds| - 1], cutoff) && ds[|ds| - 1].entity.id == MarkerId(ds, cutoff).value;
      } else if MarkerId(p, cutoff).Some? {
        var j :| 0 <= j < |p| && MarksMap(p[j], cutoff) && p[j].entity.id == MarkerId(p, cutoff).value
          && forall k :: j < k < |p| ==> !MarksMap(p[k], cutoff);
        assert MarksMap(ds[j], cutoff) && forall k :: j < k < |ds| ==> !MarksMap(ds[k], cutoff);
      }
    }
  }
}
