/** The broadcast and fan-out pieces of the broker, as functions over the
    registry tables, with what each one delivers to every connection. */
module Fanout {
  import opened Wire
  import opened Seqs

  /** The frames the socket of x receives from out, in order. */
  function SentTo(out: seq<Out>, x: ConnId): seq<Outbound> {
    if out == [] then []
    else
      SentTo(out[..|out| - 1], x) +
      match out[|out| - 1]
      case Send(to, m) => if to == x then [m] else []
      case CloseSocket(_) => []
  }

  /** The sends of one message to each recipient, in the given order. */
  function Broadcast(recipients: seq<ConnId>, m: Outbound): seq<Out> {
    if recipients == [] then []
    else Broadcast(recipients[..|recipients| - 1], m) + [Send(recipients[|recipients| - 1], m)]
  }

  /** The sends of one message to each listed id that is still a registered viewer, in list order. */
  function ToRegistered(ids: seq<ConnId>, viewers: map<ConnId, ViewerRecord>, m: Outbound): seq<Out> {
    if ids == [] then []
    else
      var last := ids[|ids| - 1];
      ToRegistered(ids[..|ids| - 1], viewers, m) + (if last in viewers then [Send(last, m)] else [])
  }

  /** The camera-list payload: for each camera in insertion order, its id, its name and
      how many watchers it has. */
  function ListCameras(order: seq<ConnId>, cameras: map<ConnId, CameraRecord>): seq<CameraEntry> {
    if order == [] then []
    else
      var id := order[|order| - 1];
      ListCameras(order[..|order| - 1], cameras) +
      (if id in cameras then [CameraEntry(id, cameras[id].name, |cameras[id].watchers|)] else [])
  }

  /** The two motion-alert loops: every viewer, then every watcher still registered. */
  function MotionAlerts(viewerOrder: seq<ConnId>, viewers: map<ConnId, ViewerRecord>,
                        watchers: seq<ConnId>, alert: Outbound): seq<Out> {
    Broadcast(viewerOrder, alert) + ToRegistered(watchers, viewers, alert)
  }

  lemma {:induction false} SentToAppend(a: seq<Out>, b: seq<Out>, x: ConnId)
    ensures SentTo(a + b, x) == SentTo(a, x) + SentTo(b, x)
  {
    if b == [] {
      assert a + b == a;
    } else {
      var init := b[..|b| - 1];
      assert (a + b)[..|a + b| - 1] == a + init;
      assert (a + b)[|a + b| - 1] == b[|b| - 1];
      SentToAppend(a, init, x);
    }
  }

  /** A broadcast reaches every recipient exactly once with m, and nobody else. */
  lemma {:induction false} BroadcastSentTo(recipients: seq<ConnId>, m: Outbound, x: ConnId)
    requires Distinct(recipients)
    ensures SentTo(Broadcast(recipients, m), x) == if x in recipients then [m] else []
  {
    if recipients != [] {
      var init := recipients[..|recipients| - 1];
      var last := recipients[|recipients| - 1];
      BroadcastSentTo(init, m, x);
      SentToAppend(Broadcast(init, m), [Send(last, m)], x);
      assert SentTo([Send(last, m)], x) == if last == x then [m] else [] by {
        assert [Send(last, m)][..0] == [];
      }
      assert recipients == init + [last];
      assert last !in init;
    }
  }

  /** A broadcast sends only m, and only to the recipients. */
  lemma {:induction false} BroadcastOnly(recipients: seq<ConnId>, m: Outbound)
    ensures |Broadcast(recipients, m)| == |recipients|
    ensures forall i :: 0 <= i < |recipients| ==> Broadcast(recipients, m)[i] == Send(recipients[i], m)
  {
    if recipients != [] {
      BroadcastOnly(recipients[..|recipients| - 1], m);
    }
  }

  /** A filtered fan-out reaches each listed id that is a registered viewer once, and nobody else. */
  lemma {:induction false} ToRegisteredSentTo(ids: seq<ConnId>, viewers: map<ConnId, ViewerRecord>, m: Outbound, x: ConnId)
    requires Distinct(ids)
    ensures SentTo(ToRegistered(ids, viewers, m), x) == if x in ids && x in viewers then [m] else []
  {
    if ids != [] {
      var init := ids[..|ids| - 1];
      var last := ids[|ids| - 1];
      var tail := if last in viewers then [Send(last, m)] else [];
      ToRegisteredSentTo(init, viewers, m, x);
      SentToAppend(ToRegistered(init, viewers, m), tail, x);
      assert SentTo(tail, x) == if last == x && last in viewers then [m] else [] by {
        if tail != [] { assert tail[..0] == []; }
      }
      assert ids == init + [last];
      assert last !in init;
    }
  }

  /** Motion alerts: a registered viewer gets one alert, and a second one when it
      is also in the camera's watcher list; no other connection gets any. */
  lemma {:induction false} MotionAlertsSentTo(viewerOrder: seq<ConnId>, viewers: map<ConnId, ViewerRecord>,
                           watchers: seq<ConnId>, alert: Outbound, x: ConnId)
    requires Distinct(viewerOrder) && Distinct(watchers)
    requires forall id :: id in viewerOrder <==> id in viewers
    ensures SentTo(MotionAlerts(viewerOrder, viewers, watchers, alert), x)
         == (if x in viewers then [alert] else []) + (if x in viewers && x in watchers then [alert] else [])
  {
    SentToAppend(Broadcast(viewerOrder, alert), ToRegistered(watchers, viewers, alert), x);
    BroadcastSentTo(viewerOrder, alert, x);
    ToRegisteredSentTo(watchers, viewers, alert, x);
  }

  /** The camera list has one entry per id of the order, in that order, each with
      the record's name and the size of its watcher set. */
  lemma {:induction false} ListCamerasEntries(order: seq<ConnId>, cameras: map<ConnId, CameraRecord>)
    requires forall id :: id in order ==> id in cameras
    ensures |ListCameras(order, cameras)| == |order|
    ensures forall i :: 0 <= i < |order| ==>
      ListCameras(order, cameras)[i] == CameraEntry(order[i], cameras[order[i]].name, |cameras[order[i]].watchers|)
  {
    if order != [] {
      var init := order[..|order| - 1];
      assert forall id :: id in init ==> id in order;
      ListCamerasEntries(init, cameras);
    }
  }

  /** Every camera of the order appears in the list with its name and watcher count. */
  lemma {:induction false} ListCamerasHas(order: seq<ConnId>, cameras: map<ConnId, CameraRecord>, id: ConnId)
    requires forall k :: k in order ==> k in cameras
    requires id in order
    ensures CameraEntry(id, cameras[id].name, |cameras[id].watchers|) in ListCameras(order, cameras)
  {
    ListCamerasEntries(order, cameras);
    var i :| 0 <= i < |order| && order[i] == id;
    assert ListCameras(order, cameras)[i] == CameraEntry(id, cameras[id].name, |cameras[id].watchers|);
  }

  /** Every entry of the list is a camera of the order that is in the table;
      in particular a deleted camera is never listed. */
  lemma {:induction false} ListCamerasOnly(order: seq<ConnId>, cameras: map<ConnId, CameraRecord>, e: CameraEntry)
    requires e in ListCameras(order, cameras)
    ensures e.id in order && e.id in cameras
  {
    var init := order[..|order| - 1];
    var id := order[|order| - 1];
    if e in ListCameras(init, cameras) {
      ListCamerasOnly(init, cameras, e);
    } else {
      assert e.id == id;
    }
  }

  /** After a camera is deleted, the list is the old list with exactly that camera's
      entry cut out; the other cameras keep their order, names and counts. */
  lemma {:induction false} ListCamerasAfterDelete(order: seq<ConnId>, cameras: map<ConnId, CameraRecord>, i: nat)
    requires Distinct(order) && (forall k :: k in order <==> k in cameras)
    requires i < |order|
    ensures |ListCameras(order, cameras)| == |order|
    ensures ListCameras(Without(order, order[i]), cameras - {order[i]})
         == ListCameras(order, cameras)[..i] + ListCameras(order, cameras)[i + 1..]
  {
    var id := order[i];
    var rest := order[..i] + order[i + 1..];
    WithoutSplice(order, id, i);
    SpliceKept(order, cameras, i);
    ListCamerasEntries(order, cameras);
    var before := ListCameras(order, cameras);
    var after := ListCameras(rest, cameras - {id});
    SpliceEntries(order, cameras, i, before, after);
  }

  /** The keys left after cutting out index i are all still in the table without it. */
  lemma {:induction false} SpliceKept(order: seq<ConnId>, cameras: map<ConnId, CameraRecord>, i: nat)
    requires Distinct(order) && (forall k :: k in order <==> k in cameras)
    requires i < |order|
    ensures forall k :: k in order[..i] + order[i + 1..] ==> k in cameras - {order[i]}
  {
    var rest := order[..i] + order[i + 1..];
    forall k | k in rest ensures k in cameras - {order[i]} {
      var j :| 0 <= j < |rest| && rest[j] == k;
      if j < i { assert k == order[j]; } else { assert k == order[j + 1]; }
    }
  }

  /** Compares the two lists entry by entry: after index i, each entry is taken from
      one place further along. */
  lemma {:induction false} SpliceEntries(order: seq<ConnId>, cameras: map<ConnId, CameraRecord>, i: nat,
                      before: seq<CameraEntry>, after: seq<CameraEntry>)
    requires i < |order| && (forall k :: k in order ==> k in cameras)
    requires forall k :: k in order[..i] + order[i + 1..] ==> k in cameras - {order[i]}
    requires before == ListCameras(order, cameras)
    requires after == ListCameras(order[..i] + order[i + 1..], cameras - {order[i]})
    requires |before| == |order|
    requires forall j :: 0 <= j < |order| ==>
      before[j] == CameraEntry(order[j], cameras[order[j]].name, |cameras[order[j]].watchers|)
    ensures after == before[..i] + before[i + 1..]
  {
    var rest := order[..i] + order[i + 1..];
    var cams := cameras - {order[i]};
    ListCamerasEntries(rest, cams);
    forall j | 0 <= j < |after| ensures after[j] == (before[..i] + before[i + 1..])[j] {
      if j < i {
        assert rest[j] == order[j];
      } else {
        assert rest[j] == order[j + 1];
      }
    }
  }

  /** Closing a camera: each watcher still registered as a viewer is told once that
      the camera went, then every viewer gets the new list once; nobody else gets anything. */
  lemma {:induction false} CameraGoneSentTo(watchers: seq<ConnId>, viewerOrder: seq<ConnId>,
                                            viewers: map<ConnId, ViewerRecord>, id: ConnId,
                                            list: seq<CameraEntry>, x: ConnId)
    requires Distinct(watchers) && Distinct(viewerOrder)
    requires forall v :: v in viewerOrder <==> v in viewers
    ensures SentTo(ToRegistered(watchers, viewers, CameraDisconnected(id))
                   + Broadcast(viewerOrder, CameraList(list)), x)
         == (if x in watchers && x in viewers then [CameraDisconnected(id)] else [])
            + (if x in viewers then [CameraList(list)] else [])
  {
    SentToAppend(ToRegistered(watchers, viewers, CameraDisconnected(id)), Broadcast(viewerOrder, CameraList(list)), x);
    ToRegisteredSentTo(watchers, viewers, CameraDisconnected(id), x);
    BroadcastSentTo(viewerOrder, CameraList(list), x);
  }
}
