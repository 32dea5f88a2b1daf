/**
 * Types shared by the array manager, the timestamp wrapper and the
 * notification callbacks.
 */
module OciTypes {

  datatype Option<T> = None | Some(value: T)

  /**
   * The ownership tag (`hstate`) every wrapper struct carries. It says who
   * owns the struct and its native descriptor, and therefore what a later
   * free call may release. `Unset` is the value a zero-filled struct holds
   * before any initialiser has run.
   */
  datatype HState =
    | Unset
    | Allocated        // struct and descriptor allocated by the library itself
    | FetchedClean     // descriptor supplied by the client library (fetched)
    | FetchedDirty     // fetched, then handed over for release
    | AllocatedArray   // struct lives inside an array block

  /** Number of values of a C `unsigned int` (ub4). */
  const UINT32_MODULUS: int := 0x1_0000_0000

  /** C `ub4` multiplication: the product wraps modulo 2^32. */
  function MulU32(a: nat, b: nat): (r: nat)
    ensures r < UINT32_MODULUS
    ensures a * b < UINT32_MODULUS ==> r == a * b
  {
    (a * b) % UINT32_MODULUS
  }
}
