/** Resource handles as the digital core sees them: a type tag and a slot index.

    The bit layout of a handle and the table that issues them are not part of this
    model; a handle is already decoded into its kind and its index.
 */
module Handles {
  import opened Unsigned

  /** The resource kinds the resolver distinguishes; every other type tag is `Other`. */
  datatype HandleKind = DIO | AnalogTrigger | Other

  /** A handle of the given kind addressing slot `index`; the index is the
      `uint32_t` value the handle's index becomes in the resolver. */
  datatype Handle = Handle(kind: HandleKind, index: u32)

  /** Whether `h` carries the type tag `k`. */
  predicate IsHandleType(h: Handle, k: HandleKind)
  {
    h.kind == k
  }
}
