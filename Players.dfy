/** A participant of a game (Player.java): a persistence id and a username, never changed after joining. */
module Players {

  /** `id` stands for the UUID the persistence layer assigns. */
  datatype Player = Player(id: nat, username: string)
}
