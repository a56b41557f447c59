/** The session manager, in place. */
module SessionManager {
  import opened Sessions

  class Manager {
    var active: bool
    var id: nat
    var player: string
    var sequence: nat
    var startedMs: int

    constructor ()
      ensures State() == NO_SESSION
    {
      active, id, player, sequence, startedMs := false, 0, "", 0, 0;
    }

    function State(): Session
      reads this
    {
      Session(active, id, player, sequence, startedMs)
    }

    method Start(freshId: nat, newPlayer: string, nowMs: int)
      modifies this
      ensures State() == Begin(freshId, newPlayer, nowMs)
    {
      id, player, sequence, startedMs, active := freshId, newPlayer, 0, nowMs, true;
    }

    method Next() returns (ok: bool, session: nat, number: nat)
      modifies this`sequence
      ensures ok <==> old(active)
      ensures ok ==> session == id && number == old(sequence) && State() == Numbered(old(State()))
      ensures !ok ==> State() == old(State())
    {
      if !active { return false, 0, 0; }
      session, number := id, sequence;
      sequence := sequence + 1;
      ok := true;
    }

    method Undo(session: nat, number: nat)
      modifies this`sequence
      ensures State() == Rollback(old(State()), session, number)
    {
      if active && id == session && sequence == number + 1 { sequence := number; }
    }

    method Save() returns (snapshot: Session)
      ensures snapshot == State()
    {
      snapshot := Session(active, id, player, sequence, startedMs);
    }

    method Restore(snapshot: Session)
      modifies this
      ensures State() == snapshot
    {
      active, id, player := snapshot.active, snapshot.id, snapshot.player;
      sequence, startedMs := snapshot.sequence, snapshot.startedMs;
    }

    method End(nowMs: int) returns (ok: bool, durationMs: int)
      modifies this`active
      ensures ok <==> old(active)
      ensures ok ==> durationMs == nowMs - startedMs
      ensures State() == Deactivate(old(State()))
    {
      if !active { return false, 0; }
      durationMs := nowMs - startedMs;
      active, ok := false, true;
    }

    method Stop()
      modifies this`active
      ensures State() == Deactivate(old(State()))
    {
      active := false;
    }
  }
}
