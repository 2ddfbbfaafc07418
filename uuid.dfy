/** The part of github.com/google/uuid the core uses: a UUID is 16 bytes and `uuid.Nil` is all zeros. */
module Uuid {

  type UUID = b: seq<bv8> | |b| == 16 witness [0, 0, 0, 0, 0, 0, 0, 0, 0, 0, 0, 0, 0, 0, 0, 0]

  const Nil: UUID := [0, 0, 0, 0, 0, 0, 0, 0, 0, 0, 0, 0, 0, 0, 0, 0]
}
