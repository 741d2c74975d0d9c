/** The optional value used wherever the source has `x | null`, an optional prop,
    or a React node that may be absent (a falsy node is modelled as `None`). */
module Options {

  datatype Option<+T> = None | Some(value: T)
}
