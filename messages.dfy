/** The message schema shared by the extension and its webview. */
module Messages {

  /** An optional field of a message (the `?` fields of the PetMessage interface). */
  datatype Option<+T> = None | Some(value: T)

  /** The presentation states the webview understands. */
  datatype PetState = Idle | Coding | LevelUp

  /** `{ type: 'updateState', state?, xp?, level? }`; the `type` tag has one value only. */
  datatype PetMessage = UpdateState(state: Option<PetState>, xp: Option<int>, level: Option<int>)

  /** A message that carries all three optional fields, as every message the extension builds does. */
  function Update(state: PetState, xp: int, level: int): PetMessage {
    UpdateState(Some(state), Some(xp), Some(level))
  }
}
