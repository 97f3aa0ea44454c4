/** The ranking tables of one event, as the API reads them.

    A row of `event_<id>` is identified by (time_id, user_id_key) and a row of
    `wl_<id>` by (time_id, user_id_key, character_id); the map keys below are
    those primary keys. */
module RankingTables {
  datatype Option<+T> = None | Some(value: T)

  datatype RowKey = RowKey(timeId: nat, userKey: nat)
  datatype ChapterRowKey = ChapterRowKey(timeId: nat, userKey: nat, characterId: int)
  datatype Standing = Standing(rank: int, score: int)

  datatype RankingRows = RankingRows(
    event: map<RowKey, Standing>,
    worldBloom: map<ChapterRowKey, Standing>)
}

/** The commands with which the tracker brackets a database update, and the
    order in which they may be issued. */
module UpdateBracket {
  import opened RankingTables

  datatype Command =
    | SetDirty                       // SETEX dirty
    | Commit(rows: RankingRows)      // a ranking transaction landed
    | Bump                           // INCR epoch
    | ClearDirty                     // DEL dirty

  datatype Writer = Idle | Open(committed: bool) | Bumped

  /** The writer after one command, or None when the command is out of place. */
  function After(writer: Writer, c: Command): Option<Writer> {
    match (writer, c)
    case (Idle, SetDirty) => Some(Open(false))
    case (Open(_), Commit(_)) => Some(Open(true))
    case (Open(_), Bump) => Some(Bumped)
    case (Open(committed), ClearDirty) => if committed then None else Some(Idle)
    case (Bumped, ClearDirty) => Some(Idle)
    case _ => None
  }
}
