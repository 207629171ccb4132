/** The optional value used wherever the source keeps `null` in a slot (the UFO and
    boss slots of the game screen, the current screen of the game). */
module Options {

  datatype Option<+T> = None | Some(value: T)
}
