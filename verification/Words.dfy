/** Machine words. */
module Words {
  const UINT64 := 0x1_0000_0000_0000_0000

  type uint64 = n: int | 0 <= n < UINT64
}
