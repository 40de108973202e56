/** Vocabulary shared by the modules of the model. */
module Types {

  datatype Option<+T> = None | Some(value: T)

  /** Rust's u16, for port numbers. */
  type Port = p: int | 0 <= p < 0x1_0000

  type Byte = b: int | 0 <= b < 0x100
  type Bytes = seq<Byte>

  /** Uuid values are opaque and never repeat; a counter in each model hands out fresh ones. */
  type Id = nat
}
