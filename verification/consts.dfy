/**
 * The renderer's fixed sizes (src/DefaultConsts.h), together with the
 * uint32_t range the model uses for counts and sizes.
 */
module DefaultConsts {

  /** Size of the presentation surface: the default framebuffer's viewport. */
  const kScreenWidth: nat := 1440
  const kScreenHeight: nat := 810

  /** Resolution of the shadow (depth) map, independent of the screen. */
  const kDepthMapWidth: nat := 1024
  const kDepthMapHeight: nat := 1024

  /** 2^32: the number of values a uint32_t can take (a modelling constant, not in the header). */
  const U32Modulus: nat := 0x1_0000_0000

  type u32 = x: int | 0 <= x < 0x1_0000_0000
}
