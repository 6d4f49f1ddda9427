/** Hashes and ids that must never change: they are on disk. `model.rs`. */
module Identity {
  const FNV_OFFSET := 0xcbf2_9ce4_8422_2325
  const FNV_PRIME := 0x0000_0100_0000_01b3
  const HASH_COUNT := 0x1_0000_0000_0000_0000

  function XorByte(a: nat, b: nat): nat
    requires a < 256 && b < 256
  {
    ((a as bv8) ^ (b as bv8)) as int
  }

  /** One byte of FNV-1a, which wraps at 64 bits. */
  function Feed(hash: nat, c: char): (next: nat)
    ensures next < HASH_COUNT
  {
    (hash - hash % 256 + XorByte(hash % 256, (c as int) % 256)) * FNV_PRIME % HASH_COUNT
  }

  /** FNV-1a over the bytes of a seed. */
  function StableHash(seed: string): (hash: nat)
    ensures hash < HASH_COUNT
  {
    if seed == [] then FNV_OFFSET else Feed(StableHash(seed[..|seed| - 1]), seed[|seed| - 1])
  }

  function HexDigits(n: nat, width: nat): (digits: string)
    ensures |digits| == width
  {
    if width == 0 then []
    else HexDigits(n / 16, width - 1) + ["0123456789abcdef"[n % 16]]
  }

  function StableId(seed: string): (id: string)
    ensures |id| == 16
  {
    HexDigits(StableHash(seed), 16)
  }
}
