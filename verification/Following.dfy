/** Snapshot, store, lossy broadcast, server connection and reconnecting client together: what the client's
    timeline shows over any run, against having followed the whole log. */
module Following {
  import opened Common
  import opened EventLog
  import opened Timeline
  import Delivery
  import EndToEnd

  /** A client opens the session at watermark `w` and then follows it through any interleaving of publishers,
      broadcast, lags, dropped connections and reconnects. At every moment it shows each item exactly as a replay
      of the log up to its cursor does, if and only if no text was streamed to the item between its last start or
      completion and `w`, or it was started or completed again since. */
  lemma TimelineConverges(streams: Streams, inFlight: set<Event>, session: SessionId, w: nat, moves: seq<EndToEnd.Move>, decode: Decoder, id: nat)
    requires AllHoleFree(streams) && Delivery.AllStored(streams, inFlight) && w <= High(streams, Some(session))
    requires EndToEnd.Plays(EndToEnd.Initial(streams, inFlight, session, w), moves)
    ensures var y := EndToEnd.Final(EndToEnd.Initial(streams, inFlight, session, w), moves);
      var scope, now := Some(session), y.server.streams;
      && w <= y.after && (forall k | 0 < k <= y.after :: k in StreamOf(now, scope).rows)
      && var before, tail := Decoded(Run(now, scope, 0, w), decode), Decoded(y.accepted, decode);
      && ((Lookup(Replayed(Values(SnapshotItems(before)), tail), id)
            == Lookup(Replayed([], Decoded(Run(now, scope, 0, y.after), decode)), id))
          <==> (Streamed(before, id) == "" || exists i :: 0 <= i < |tail| && Restates(tail[i], id)))
  {
    hide *;
    var y := EndToEnd.Final(EndToEnd.Initial(streams, inFlight, session, w), moves);
    EndToEnd.ExactlyOnceInOrder(streams, inFlight, session, w, moves);
    CursorStored(streams, inFlight, session, w, moves);
    RunInside(y.server.streams, Some(session), 0, y.after);
    SnapshotAndTailConverge(y.server.streams, Some(session), w, y.after, decode, id);
  }

  /** The client is never past the end of a stream that it started inside. */
  lemma CursorStored(streams: Streams, inFlight: set<Event>, session: SessionId, w: nat, moves: seq<EndToEnd.Move>)
    requires AllHoleFree(streams) && Delivery.AllStored(streams, inFlight) && w <= High(streams, Some(session))
    requires EndToEnd.Plays(EndToEnd.Initial(streams, inFlight, session, w), moves)
    ensures var y := EndToEnd.Final(EndToEnd.Initial(streams, inFlight, session, w), moves);
      AllHoleFree(y.server.streams) && w <= y.after <= High(y.server.streams, Some(session))
  {
    var first := EndToEnd.Initial(streams, inFlight, session, w);
    assert first.server.streams == streams && first.session == session && first.start == w;
    hide *;
    EndToEnd.InitialSound(streams, inFlight, session, w);
    PlayGrows(first, moves);
    EndToEnd.PlayKeeps(first, moves);
    var y := EndToEnd.Final(first, moves);
    SoundParts(y);
    EndToEnd.DeliveredBound(y);
    EndToEnd.DeliveredForward(y);
    HighGrows(streams, y.server.streams, Some(session));
  }

  lemma SoundParts(y: EndToEnd.System)
    requires EndToEnd.Sound(y)
    ensures AllHoleFree(y.server.streams) && EndToEnd.Delivered(y) && Delivery.Inv(y.server)
  {
    hide EndToEnd.Delivered, AllHoleFree, EndToEnd.Linked;
  }

  lemma MoveGrows(y: EndToEnd.System, move: EndToEnd.Move)
    requires Delivery.Inv(y.server) && EndToEnd.Possible(y, move)
    ensures Grows(y.server.streams, EndToEnd.Do(y, move).server.streams)
  {
    hide Delivery.Inv, Grows;
    GrowsReflexive(y.server.streams);
    match move {
      case Serve(step) => EndToEnd.StoreGrows(y.server, step);
      case HandleRequest(id) => EndToEnd.StoreGrows(y.server, Delivery.HandleSubscribe(y.requestId, id, y.session, y.after));
      case _ =>
    }
  }

  lemma {:induction false} PlayGrows(y: EndToEnd.System, moves: seq<EndToEnd.Move>)
    requires EndToEnd.Sound(y) && EndToEnd.Plays(y, moves)
    ensures Grows(y.server.streams, EndToEnd.Final(y, moves).server.streams)
    decreases |moves|
  {
    hide EndToEnd.Sound, Grows, EndToEnd.Possible, EndToEnd.Do;
    if moves == [] {
      GrowsReflexive(y.server.streams);
    } else {
      var next := EndToEnd.Do(y, moves[0]);
      SoundParts(y);
      MoveGrows(y, moves[0]);
      EndToEnd.MoveKeeps(y, moves[0]);
      PlayGrows(next, moves[1..]);
      GrowsTransitive(y.server.streams, next.server.streams, EndToEnd.Final(y, moves).server.streams);
    }
  }
}
