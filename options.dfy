/** An optional value, used for "no platform found" and "projectile killed". */
module Options {
  datatype Option<T> = None | Some(value: T)
}
