/** The optional value used wherever the game keeps a nullable field:
    the turn before the toss, the selected point, the first non-center pawn. */
module Optional {

  datatype Option<+T> = None | Some(value: T)
}
