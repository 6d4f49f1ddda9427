/** Stable loopback addresses, device addresses and routing marks: `bind.rs`. */
module Bind {
  import opened Arithmetic
  import opened Identity
  import opened Wrappers

  datatype Address = Address(a: nat, b: nat, c: nat, d: nat)

  /** The 64-bit hash of a profile name; every result below holds for any hash. */
  type Hash = string -> nat

  const FIRST_OCTET_COUNT := 254
  const SECOND_OCTET_COUNT := 256
  const PROFILE_ADDRESS_COUNT := FIRST_OCTET_COUNT * SECOND_OCTET_COUNT
  const DEVICE_LAST_OCTET_COUNT := 254
  const DEVICE_ADDRESS_COUNT := 256 * DEVICE_LAST_OCTET_COUNT
  const ROUTING_MARK_DEFAULT := 0x6f00
  const ROUTING_MARK_FIRST := 0x6f01
  const ROUTING_MARK_LAST := 0x6fff
  const MARK_COUNT := ROUTING_MARK_LAST - ROUTING_MARK_FIRST + 1

  const DEFAULT := "default"
  const LOCALHOST := Address(127, 0, 0, 1)
  const DEFAULT_DEVICE_ADDRESS := Address(198, 18, 0, 1)

  function Around<T>(start: nat, count: nat, slot: nat -> T, k: nat): T
    requires 0 < count
  {
    slot((start + k) % count)
  }

  /** The cyclic `find_map`: slots `start + offset`, `start + offset + 1`, ... around the ring. */
  function Probe<T(==)>(start: nat, count: nat, slot: nat -> T, taken: set<T>, offset: nat): (found: Option<T>)
    requires 0 < count && offset <= count
    decreases count - offset
  {
    if offset == count then None
    else
      var value := Around(start, count, slot, offset);
      if value !in taken then Some(value) else Probe(start, count, slot, taken, offset + 1)
  }

  /** A probe is free, belongs to the ring, and no slot between it and `start` is free. */
  lemma {:induction false} ProbeIsFirstFree<T>(start: nat, count: nat, slot: nat -> T, taken: set<T>, offset: nat)
    returns (steps: nat)
    requires 0 < count && offset <= count
    requires forall k :: 0 <= k < offset ==> Around(start, count, slot, k) in taken
    ensures steps <= count
    ensures Probe(start, count, slot, taken, offset).None? <==> steps == count
    ensures steps < count ==> Probe(start, count, slot, taken, offset) == Some(Around(start, count, slot, steps))
    ensures steps < count ==> Around(start, count, slot, steps) !in taken
    ensures forall k :: 0 <= k < steps ==> Around(start, count, slot, k) in taken
    decreases count - offset
  {
    if offset == count || Around(start, count, slot, offset) !in taken {
      steps := offset;
    } else {
      steps := ProbeIsFirstFree(start, count, slot, taken, offset + 1);
    }
  }

  /** `None` exactly when the ring is exhausted, and otherwise a free slot. */
  lemma ProbeIsComplete<T>(start: nat, count: nat, slot: nat -> T, taken: set<T>)
    requires 0 < count
    ensures Probe(start, count, slot, taken, 0).None? <==> forall i: nat :: i < count ==> slot(i) in taken
    ensures Probe(start, count, slot, taken, 0).Some? ==>
              exists i: nat :: i < count && Probe(start, count, slot, taken, 0).value == slot(i) && slot(i) !in taken
  {
    var steps := ProbeIsFirstFree(start, count, slot, taken, 0);
    if steps == count {
      forall i: nat | i < count
        ensures slot(i) in taken
      {
        var k := RingCovers(start, count, i);
        assert Around(start, count, slot, k) == slot(i);
      }
    } else {
      var i := (start + steps) % count;
      assert i < count && slot(i) !in taken;
    }
  }

  function LoopbackSlot(index: nat): Address {
    Address(127, 1 + index / SECOND_OCTET_COUNT, index % SECOND_OCTET_COUNT, 1)
  }

  function DeviceSlot(index: nat): Address {
    Address(198, 18, index / DEVICE_LAST_OCTET_COUNT, 1 + index % DEVICE_LAST_OCTET_COUNT)
  }

  function MarkSlot(index: nat): int { ROUTING_MARK_FIRST + index }

  function AddressFor(profile: string, hash: Hash, taken: set<Address>): Option<Address> {
    if profile == DEFAULT then Some(LOCALHOST)
    else
      var first := 1 + hash(profile) % FIRST_OCTET_COUNT;
      var second := (hash(profile) / 256) % SECOND_OCTET_COUNT;
      Probe((first - 1) * SECOND_OCTET_COUNT + second, PROFILE_ADDRESS_COUNT, LoopbackSlot, taken, 0)
  }

  function DeviceAddressFor(profile: string, hash: Hash, taken: set<Address>): Option<Address> {
    if profile == DEFAULT then Some(DEFAULT_DEVICE_ADDRESS)
    else Probe(hash(profile) % DEVICE_ADDRESS_COUNT, DEVICE_ADDRESS_COUNT, DeviceSlot, taken, 0)
  }

  function RoutingMark(profile: string, hash: Hash, taken: set<int>): Option<int> {
    if profile == DEFAULT then Some(ROUTING_MARK_DEFAULT)
    else Probe(hash(profile) % MARK_COUNT, MARK_COUNT, MarkSlot, taken, 0)
  }

  /** 127.1.0.1 to 127.254.255.1. */
  predicate ProfileRange(address: Address) {
    address.a == 127 && 1 <= address.b <= 254 && address.c <= 255 && address.d == 1
  }

  /** 198.18.0.1 to 198.18.255.254, host octets 0 and 255 skipped. */
  predicate DeviceRange(address: Address) {
    address.a == 198 && address.b == 18 && address.c <= 255 && 1 <= address.d <= 254
  }

  predicate MarkRange(mark: int) { ROUTING_MARK_FIRST <= mark <= ROUTING_MARK_LAST }

  /** A profile other than `default` gets an unused address of its range for as
      long as there is one. */
  lemma AddressForIsComplete(profile: string, hash: Hash, taken: set<Address>)
    requires profile != DEFAULT
    ensures var r := AddressFor(profile, hash, taken);
            && (r.None? <==> forall address :: ProfileRange(address) ==> address in taken)
            && (r.Some? ==> ProfileRange(r.value) && r.value !in taken)
  {
    var first := 1 + hash(profile) % FIRST_OCTET_COUNT;
    var second := (hash(profile) / 256) % SECOND_OCTET_COUNT;
    ProbeIsComplete((first - 1) * SECOND_OCTET_COUNT + second, PROFILE_ADDRESS_COUNT, LoopbackSlot, taken);
    forall address | ProfileRange(address)
      ensures exists i: nat :: i < PROFILE_ADDRESS_COUNT && LoopbackSlot(i) == address
    {
      var i := (address.b - 1) * SECOND_OCTET_COUNT + address.c;
      assert LoopbackSlot(i) == address;
    }
    assert forall i: nat :: i < PROFILE_ADDRESS_COUNT ==> ProfileRange(LoopbackSlot(i));
  }

  lemma DeviceAddressForIsComplete(profile: string, hash: Hash, taken: set<Address>)
    requires profile != DEFAULT
    ensures var r := DeviceAddressFor(profile, hash, taken);
            && (r.None? <==> forall address :: DeviceRange(address) ==> address in taken)
            && (r.Some? ==> DeviceRange(r.value) && r.value !in taken)
  {
    ProbeIsComplete(hash(profile) % DEVICE_ADDRESS_COUNT, DEVICE_ADDRESS_COUNT, DeviceSlot, taken);
    forall address | DeviceRange(address)
      ensures exists i: nat :: i < DEVICE_ADDRESS_COUNT && DeviceSlot(i) == address
    {
      var i := address.c * DEVICE_LAST_OCTET_COUNT + (address.d - 1);
      assert DeviceSlot(i) == address;
    }
    assert forall i: nat :: i < DEVICE_ADDRESS_COUNT ==> DeviceRange(DeviceSlot(i));
  }

  lemma RoutingMarkIsComplete(profile: string, hash: Hash, taken: set<int>)
    requires profile != DEFAULT
    ensures var r := RoutingMark(profile, hash, taken);
            && (r.None? <==> forall mark :: MarkRange(mark) ==> mark in taken)
            && (r.Some? ==> MarkRange(r.value) && r.value !in taken)
  {
    ProbeIsComplete(hash(profile) % MARK_COUNT, MARK_COUNT, MarkSlot, taken);
    forall mark: int | MarkRange(mark)
      ensures exists i: nat :: i < MARK_COUNT && MarkSlot(i) == mark
    {
      assert MarkSlot(mark - ROUTING_MARK_FIRST) == mark;
    }
    assert forall i: nat :: i < MARK_COUNT ==> MarkRange(MarkSlot(i));
  }

  /** The allocators as the daemon uses them: `taken` is what is live. */
  type Allocator<!T> = (string, set<T>) -> Option<T>

  function AddressAllocator(hash: Hash): Allocator<Address> { (p, taken) => AddressFor(p, hash, taken) }

  function DeviceAllocator(hash: Hash): Allocator<Address> { (p, taken) => DeviceAddressFor(p, hash, taken) }

  function MarkAllocator(hash: Hash): Allocator<int> { (p, taken) => RoutingMark(p, hash, taken) }

  datatype Event = Up(profile: string) | Down(profile: string)

  /** What one profile coming up or going down does to the live allocations. */
  function Allocate<T>(allocator: Allocator<T>, live: map<string, T>, e: Event): map<string, T> {
    match e
    case Down(profile) => live - {profile}
    case Up(profile) =>
      if profile in live then live
      else
        var found := allocator(profile, live.Values);
        if found.Some? then live[profile := found.value] else live
  }

  function AllocateAll<T>(allocator: Allocator<T>, live: map<string, T>, events: seq<Event>): map<string, T>
    decreases |events|
  {
    if events == [] then live
    else AllocateAll(allocator, Allocate(allocator, live, events[0]), events[1..])
  }

  ghost predicate PairwiseDistinct<T(!new)>(live: map<string, T>) {
    forall p, q :: p in live && q in live && p != q ==> live[p] != live[q]
  }

  /** The fixed value is `default`'s alone. */
  ghost predicate Reserved<T(!new)>(live: map<string, T>, fixed: T) {
    forall p :: p in live ==> (live[p] == fixed <==> p == DEFAULT)
  }

  ghost predicate Exclusive<T(!new)>(allocator: Allocator<T>, fixed: T) {
    && (forall taken :: allocator(DEFAULT, taken) == Some(fixed))
    && (forall p, taken :: p != DEFAULT && allocator(p, taken).Some? ==>
          allocator(p, taken).value != fixed && allocator(p, taken).value !in taken)
  }

  lemma {:induction false} AllocationsStayDistinct<T(!new)>(allocator: Allocator<T>, fixed: T,
                                                      live: map<string, T>, events: seq<Event>)
    requires Exclusive(allocator, fixed)
    requires PairwiseDistinct(live) && Reserved(live, fixed)
    ensures PairwiseDistinct(AllocateAll(allocator, live, events))
    ensures Reserved(AllocateAll(allocator, live, events), fixed)
    decreases |events|
  {
    if events != [] {
      var next := Allocate(allocator, live, events[0]);
      forall p | p in live
        ensures live[p] in live.Values
      {
      }
      AllocationsStayDistinct(allocator, fixed, next, events[1..]);
    }
  }

  /** Over any sequence of profiles coming up and going down, live loopback
      addresses are pairwise distinct, the fixed one of `default` included. */
  lemma LiveAddressesDistinct(hash: Hash, events: seq<Event>)
    ensures PairwiseDistinct(AllocateAll(AddressAllocator(hash), map[], events))
  {
    var allocator := AddressAllocator(hash);
    forall p, taken | p != DEFAULT
      ensures allocator(p, taken).Some? ==>
                allocator(p, taken).value != LOCALHOST && allocator(p, taken).value !in taken
    {
      AddressForIsComplete(p, hash, taken);
    }
    AllocationsStayDistinct(allocator, LOCALHOST, map[], events);
  }

  lemma LiveMarksDistinct(hash: Hash, events: seq<Event>)
    ensures PairwiseDistinct(AllocateAll(MarkAllocator(hash), map[], events))
  {
    var allocator := MarkAllocator(hash);
    forall p, taken | p != DEFAULT
      ensures allocator(p, taken).Some? ==>
                allocator(p, taken).value != ROUTING_MARK_DEFAULT && allocator(p, taken).value !in taken
    {
      RoutingMarkIsComplete(p, hash, taken);
    }
    AllocationsStayDistinct(allocator, ROUTING_MARK_DEFAULT, map[], events);
  }

  /** Device addresses have no reserved value: 198.18.0.1 is also a slot of the
      ring. Bringing a profile up keeps them distinct unless it is `default` while
      another live device holds that address, and then it never does. */
  lemma DeviceAddressCollision(hash: Hash, live: map<string, Address>, profile: string)
    requires PairwiseDistinct(live) && profile !in live
    ensures PairwiseDistinct(Allocate(DeviceAllocator(hash), live, Up(profile)))
       <==> !(profile == DEFAULT && DEFAULT_DEVICE_ADDRESS in live.Values)
  {
    var allocator := DeviceAllocator(hash);
    var next := Allocate(allocator, live, Up(profile));
    assert forall p :: p in live ==> live[p] in live.Values;
    if profile != DEFAULT {
      DeviceAddressForIsComplete(profile, hash, live.Values);
    } else if DEFAULT_DEVICE_ADDRESS in live.Values {
      var other :| other in live && live[other] == DEFAULT_DEVICE_ADDRESS;
      assert next[other] == next[profile] && other != profile;
    }
  }

  /** ... and that state is reachable: a profile whose hash is a multiple of the
      ring's size takes 198.18.0.1 first. */
  lemma DeviceAddressCollisionIsReachable(hash: Hash, profile: string)
    requires profile != DEFAULT && hash(profile) % DEVICE_ADDRESS_COUNT == 0
    ensures !PairwiseDistinct(AllocateAll(DeviceAllocator(hash), map[], [Up(profile), Up(DEFAULT)]))
  {
    var allocator := DeviceAllocator(hash);
    var one := Allocate(allocator, map[], Up(profile));
    assert one[profile] == DeviceSlot(0) == DEFAULT_DEVICE_ADDRESS;
    assert one[profile] in one.Values;
    DeviceAddressCollision(hash, one, DEFAULT);
    var events := [Up(profile), Up(DEFAULT)];
    assert AllocateAll(allocator, map[], events) == AllocateAll(allocator, one, [Up(DEFAULT)]);
    assert AllocateAll(allocator, one, [Up(DEFAULT)]) ==
        AllocateAll(allocator, Allocate(allocator, one, Up(DEFAULT)), []);
  }

  /** A profile that does so under the program's own hash. */
  lemma DeviceAddressCollisionExample()
    ensures !PairwiseDistinct(AllocateAll(DeviceAllocator(StableHash), map[], [Up("zm"), Up(DEFAULT)]))
  {
    StableHashOfZm();
    DeviceAddressCollisionIsReachable(StableHash, "zm");
  }

  lemma HashNext(seed: string, c: char)
    ensures StableHash(seed + [c]) == Feed(StableHash(seed), c)
    ensures StableHash([]) == FNV_OFFSET
  {
    hide Feed;
    assert (seed + [c])[..|seed|] == seed;
  }

  lemma XorZm()
    ensures XorByte(0x25, 0x7a) == 0x5f && XorByte(0x6d, 0x6d) == 0
  {
    var a: bv8, z: bv8, m: bv8 := 0x25, 0x7a, 0x6d;
    assert a ^ z == 0x5f && m ^ m == 0;
  }

  lemma ProductZ()
    ensures 0xcbf2_9ce4_8422_235f * 0x0000_0100_0000_01b3 % 0x1_0000_0000_0000_0000 == 0xaf63_f74c_8602_1a6d
  {
  }

  lemma ProductM()
    ensures 0xaf63_f74c_8602_1a00 * 0x0000_0100_0000_01b3 % 0x1_0000_0000_0000_0000 == 0x08f7_3707_b592_2e00
  {
  }

  lemma FeedZ()
    ensures Feed(FNV_OFFSET, 'z') == 0xaf63_f74c_8602_1a6d
  {
    ProductZ();
    XorZm();
    hide XorByte;
    var hash: nat := FNV_OFFSET;
    assert hash % 256 == 0x25 && 'z' as int % 256 == 0x7a;
    assert hash - 0x25 + 0x5f == 0xcbf2_9ce4_8422_235f;
  }

  lemma FeedM()
    ensures Feed(0xaf63_f74c_8602_1a6d, 'm') == 0x08f7_3707_b592_2e00
  {
    ProductM();
    XorZm();
    hide XorByte;
    var hash: nat := 0xaf63_f74c_8602_1a6d;
    assert hash % 256 == 0x6d && 'm' as int % 256 == 0x6d;
    assert hash - 0x6d + 0 == 0xaf63_f74c_8602_1a00;
  }

  lemma StableHashOfZm()
    ensures StableHash("zm") % DEVICE_ADDRESS_COUNT == 0
  {
    hide Feed, StableHash;
    FeedZ();
    FeedM();
    HashNext([], 'z');
    HashNext("z", 'm');
    assert [] + ['z'] == "z" && "z" + ['m'] == "zm";
  }
}
