/** The session manager: identity, per-session numbering, and undoing a transition. */
module Sessions {

  datatype Session = Session(active: bool, id: nat, player: string, sequence: nat, startedMs: int)

  const NO_SESSION := Session(false, 0, "", 0, 0)

  function Begin(id: nat, player: string, nowMs: int): Session {
    Session(true, id, player, 0, nowMs)
  }

  function Numbered(s: Session): Session
    requires s.active
  {
    s.(sequence := s.sequence + 1)
  }

  /** Gives back number `sequence` of session `id`, if it was the last one handed out. */
  function Rollback(s: Session, id: nat, sequence: nat): Session {
    if s.active && s.id == id && s.sequence == sequence + 1 then s.(sequence := sequence) else s
  }

  function Deactivate(s: Session): Session {
    s.(active := false)
  }
}
