/** Small shared vocabulary: optional values and the two replay sources. */
module Prelude {

  datatype Option<+T> = None | Some(value: T)

  /** The two logs an event can be replayed from. */
  datatype Source = Redis | Kafka
}
