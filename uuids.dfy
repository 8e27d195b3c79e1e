// `uuid::Uuid`, the 128-bit identifier used for steaders, tiles, items and
// skills. Only equality of identifiers matters to the model.
module Uuids {
  type Uuid = nat
}
