/** Shared value types: bytes of the software framebuffer, opaque native
    handles (0 stands for a null pointer or a failed creation), and Option. */
module Common {

  /** An unsigned 8-bit value (the BYTE of the pixel buffer). */
  newtype byte = b: int | 0 <= b < 256

  /** An opaque native object handle; NULL means "no object". */
  type Handle = nat

  const NULL: Handle := 0

  datatype Option<T> = None | Some(value: T)

  /** 2^32, the modulus of unsigned 32-bit arithmetic. */
  const TWO_TO_32: int := 0x1_0000_0000

  /** UINT32_MAX. */
  const UINT32_MAX: int := 0xFFFF_FFFF

  function Max(a: int, b: int): int { if a >= b then a else b }

  function Min(a: int, b: int): int { if a <= b then a else b }

  /** The release (or destroy) a guarded `if (p) p->Release()` issues:
      the handle itself when it is live, nothing when it is null. */
  function IfLive(h: Handle): (r: seq<Handle>)
    ensures h != NULL <==> r == [h]
    ensures h == NULL <==> r == []
  {
    if h != NULL then [h] else []
  }
}
