/** The data plane as the orchestrator sees it (src/orchestrator/plane.rs, tracks.rs, ids.rs). */
module ControlPlane {
  import opened Words
  import opened Wrappers
  import opened Ssrc
  import opened Shard
  import opened Tables
  import opened Commands
  import opened Offers
  import opened Steps

  const NEW_PLANE :=
    PlaneView(map[], map[], map[], 1, 1, 1, [], [], map[], map[], EMPTY, [], 0, {}, {}, {}, map[])

  /**
   The session, participant and track tables, the id counters, and the lists of participants
   and sessions to close are fields of one record; the record also carries the history that
   no branch of the code consults (see `PlaneView`).
   */
  class Plane {
    var view: PlaneView

    constructor ()
      ensures view == NEW_PLANE
    {
      view := NEW_PLANE;
    }

    /** The shard's queue takes the command, or is full: which of the two is not ours to say. */
    method Send(c: Command, p: Pid) returns (ok: bool)
      modifies this
      ensures Sent(old(view), c, p, ok, view)
    {
      ok := *;
      view := if ok then Accepted(view, c, p) else view.(refused := view.refused + 1);
    }

    /** On a full queue the participant is closed after the step. */
    method Push(c: Command, p: Pid) returns (ok: bool)
      modifies this
      ensures Pushed(old(view), c, p, ok, view)
    {
      ok := Send(c, p);
      if !ok {
        CloseParticipant(p, Overloaded);
        view := view.(lost := view.lost + {p}, dropped := Blamed(view.dropped, p, !InClosing(view.closing, p)));
      }
    }

    method CloseParticipant(p: Pid, reason: Reason)
      modifies this
      ensures view == CloseRequested(old(view), p, reason)
    {
      if InClosing(view.closing, p) {
        return;
      }
      if |view.closing| >= MAX_CLOSING {
        return;
      }
      view := view.(closing := view.closing + [Closing(p, reason)]);
    }

    method TakeClosing() returns (r: seq<Closing>)
      modifies this
      ensures r == old(view).closing && view == old(view).(closing := [])
    {
      r := view.closing;
      view := view.(closing := []);
    }

    /** A message to a participant that is connected. */
    method Tell(sessions: map<Pid, Handle>, p: Pid, signal: Signal)
      modifies this
      ensures view == if p in sessions then Told(old(view), p, signal) else old(view)
    {
      if p in sessions && p in view.outbox {
        view := view.(outbox := view.outbox[p := view.outbox[p] + [signal]]);
      }
    }

    // ── Sessions ───────────────────────────────────────────────────

    /**
     A new session of `p` under a random base. `None` when the table is full, has the
     participant already, or the queue refused; then the tables are as before.
     */
    method CreateSession(p: Pid) returns (r: Option<Sid>, base: u32)
      modifies this
      ensures r.Some? ==> r.value == old(view).nextSession && base != 0
      ensures r.Some? ==> Taken(WithSession(old(view), p, base), Command.CreateSession(r.value, base), p, view)
      ensures r.None? ==>
        || view == old(view)
        || view == old(view).(nextSession := old(view).nextSession + 1)
        || Turned(old(view).(nextSession := old(view).nextSession + 1), p, view)
      ensures
        var v := old(view);
        r.None? && |v.entries| < MAX_TRANSPORTS && p !in v.byParticipant && v.nextSession !in v.entries ==>
          Turned(v.(nextSession := v.nextSession + 1), p, view)
    {
      base := 1;
      if |view.entries| >= MAX_TRANSPORTS {
        return None, base;
      }
      var id := view.nextSession;
      view := view.(nextSession := id + 1);
      base :| base != 0;
      if id in view.entries || p in view.byParticipant {
        return None, base;
      }
      ghost var v := view;
      view := view.(entries := view.entries[id := Entry(p, Allocator(base, 1, 0, []), Running, false)],
                    byParticipant := view.byParticipant[p := id]);
      ghost var u := view;
      var ok := Push(Command.CreateSession(id, base), p);
      if !ok {
        CreateRefused(v, u, view, p, id);
        view := view.(entries := view.entries - {id}, byParticipant := view.byParticipant - {p});
        return None, base;
      }
      return Some(id), base;
    }

    /** The session leaves the tables, and the shard now or later. */
    method CloseSession(id: Sid)
      requires id in view.entries ==> id in view.shard.sessions
      modifies this
      ensures id !in old(view).entries ==> view == old(view)
      ensures id in old(view).entries ==> SessionClosed(old(view), id, view)
    {
      if id !in view.entries {
        return;
      }
      var p := view.entries[id].participant;
      view := view.(entries := view.entries - {id}, byParticipant := view.byParticipant - {p});
      ghost var v := view;
      var ok := Send(Command.CloseSession(id), p);
      if ok {
        CloseStep(v, view, id, p);
      } else {
        if |view.pendingClose| >= MAX_TRANSPORTS {
          view := view.(leaked := view.leaked + {id});
          return;
        }
        view := view.(pendingClose := view.pendingClose + [id]);
      }
    }

    method RetryClose(pending: seq<Sid>, i: nat, ghost w: World, ghost k: Slack)
      requires i < |pending| && Sound(w.(plane := Waiting(view, pending, i)), k)
      modifies this
      ensures Sound(w.(plane := Waiting(view, pending, i + 1)), k)
      ensures view.tracks == old(view).tracks && view.closing == old(view).closing
      ensures view.refused - old(view).refused == |view.pendingClose| - |old(view).pendingClose|
    {
      ghost var v := view;
      var ok := Send(Command.CloseSession(pending[i]), 0);
      LateStep(w, v, view, pending, i, ok, k);
      if !ok {
        view := view.(pendingClose := view.pendingClose + [pending[i]]);
      }
    }

    /** Closes that did not fit are sent again; the ones refused again keep waiting, in order. */
    method RetryPendingCloses(ghost w: World, ghost k: Slack)
      requires w.plane == view && Sound(w, k)
      modifies this
      ensures Sound(w.(plane := view), k)
      ensures view.tracks == old(view).tracks && view.closing == old(view).closing
      ensures view.refused == old(view).refused ==> view.pendingClose == []
    {
      var pending := view.pendingClose;
      view := view.(pendingClose := []);
      RetryStart(w, view, k);
      var i := 0;
      while i < |pending|
        invariant 0 <= i <= |pending|
        invariant Sound(w.(plane := Waiting(view, pending, i)), k)
        invariant view.tracks == old(view).tracks && view.closing == old(view).closing
        invariant view.refused - old(view).refused == |view.pendingClose|
      {
        RetryClose(pending, i, w, k);
        i := i + 1;
      }
      RetryEnd(w, view, pending, k);
    }

    // ── Handshake and keys ─────────────────────────────────────────

    /** One call into the session's handshake, which is a machine of its own (module `Dtls`). */
    method StepDtls(id: Sid) returns (failed: bool, completed: bool, datagrams: nat, to: DtlsState)
      requires id in view.entries
      modifies this
      ensures DtlsStepped(old(view).entries[id].dtls, to, failed, completed)
      ensures view == old(view).(entries := old(view).entries[id := old(view).entries[id].(dtls := to)])
    {
      failed, completed, datagrams := *, *, *;
      var from := view.entries[id].dtls;
      if from != Running || failed {
        completed := false;
      }
      to := if failed then Failed else if completed then Complete else from;
      view := view.(entries := view.entries[id := view.entries[id].(dtls := to)]);
    }

    /** One `SendDatagram` each, until the queue refuses one. */
    method SendDatagrams(id: Sid, datagrams: nat)
      requires id in view.entries ==> id in view.shard.sessions
      modifies this
      ensures view == old(view)
        || (id in old(view).entries && Turned(old(view), old(view).entries[id].participant, view))
    {
      if id !in view.entries {
        return;
      }
      var p := view.entries[id].participant;
      var i := 0;
      while i < datagrams
        invariant view == old(view)
      {
        var ok := Push(SendDatagram(id), p);
        if !ok {
          return;
        }
        DatagramStep(old(view), view, id, p);
        i := i + 1;
      }
    }

    /** The source's assert that keys are installed once is the precondition. */
    method InstallSrtp(id: Sid)
      requires id in view.entries ==> view.entries[id].dtls == Complete && !view.entries[id].srtpInstalled
      modifies this
      ensures id !in old(view).entries ==> view == old(view)
      ensures id in old(view).entries ==>
        var (v, p) := (old(view), old(view).entries[id].participant);
        || view == CloseRequested(v, p, DtlsFailed)
        || Taken(WithKeys(v, id), Command.InstallSrtp(id), p, view)
        || Turned(WithKeys(v, id), p, view)
    {
      if id !in view.entries {
        return;
      }
      var p := view.entries[id].participant;
      var keys: bool := *;
      if keys {
        view := view.(entries := view.entries[id := view.entries[id].(srtpInstalled := true)]);
        var _ := Push(Command.InstallSrtp(id), p);
      } else {
        CloseParticipant(p, DtlsFailed);
      }
    }
  }
}
