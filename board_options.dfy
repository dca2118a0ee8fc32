/** Board placement options (board_plugin/src/resources/board_options.rs). */
module BoardOptions {
  import opened Vectors

  /** Where the board is placed in the world. */
  datatype BoardPosition =
    | Centered(offset: Vec3)   // the board's centre sits at `offset`
    | Custom(p: Vec3)          // the board's lower-left corner sits at `p`

  /** Board generation options, read by the board builder. */
  datatype BoardOptions = BoardOptions(position: BoardPosition)

  /** `BoardPosition::default()`: centred, with the zero vector as offset. */
  function DefaultPosition(): (p: BoardPosition)
    ensures p.Centered? && p.offset.x == 0.0 && p.offset.y == 0.0 && p.offset.z == 0.0
  {
    Centered(Vec3(0.0, 0.0, 0.0))
  }

  /** `BoardOptions::default()`: the default position. */
  function DefaultOptions(): (o: BoardOptions)
    ensures o.position == DefaultPosition()
  {
    BoardOptions(DefaultPosition())
  }
}
