/** Vocabulary shared by the cartridge mappers: the byte and CPU-address types, the
    nametable mirroring modes a mapper selects on the PPU, and the bank switchers'
    view of memory as a map from each window's start address to the page loaded there. */
module Cartridge {

  /** A byte as the CPU writes it to a mapper register. */
  newtype u8 = x: int | 0 <= x < 0x100

  /** A 16-bit CPU address. */
  newtype u16 = x: int | 0 <= x < 0x1_0000

  datatype Option<T> = None | Some(value: T)

  /** The nametable arrangements the PPU supports. */
  datatype Mirroring = Horizontal | Vertical | SingleScreenLower | SingleScreenUpper | FourScreen

  /** Bit `mask` of `v`, for a power of two `mask`: the value of `(v & mask) != 0` on the
      two's-complement pattern of `v` (Dafny's `/` and `%` are Euclidean, so this also
      holds for negative `v`). */
  predicate HasBit(v: int, mask: nat)
    requires mask > 0
  {
    (v / mask) % 2 == 1
  }

  /** `a ^ inv` where `inv` is either 0 or the single bit `bit`, as the mappers use it to
      invert a window address. */
  function FlipIf(inverted: bool, a: int, bit: nat): int
    requires bit > 0
  {
    if !inverted then a else if HasBit(a, bit) then a - bit else a + bit
  }

  /** One bank-switch: page `page`, counted in units of `size` bytes, is visible in a
      window of `size` bytes. A negative page counts from the end of the ROM. */
  datatype Load = Load(page: int, size: nat)

  /** A bank switcher's state: window start address -> what is loaded there. */
  type Layout = map<int, Load>

  predicate Overlaps(a: int, asize: nat, b: int, bsize: nat) {
    a < b + bsize && b < a + asize
  }

  /** No window of `l` overlaps the window [w, w + size). */
  predicate Clear(l: Layout, w: int, size: nat) {
    forall v :: v in l ==> !Overlaps(w, size, v, l[v].size)
  }

  /** Loading every window of `l` into the switcher `m`: each new window replaces
      whatever it overlaps, windows it does not touch stay as they were. */
  function Overlay(m: Layout, l: Layout): (r: Layout)
    ensures forall w :: w in l ==> w in r && r[w] == l[w]
    ensures forall w :: w in r && w !in l ==> w in m && r[w] == m[w] && Clear(l, w, m[w].size)
    ensures forall w :: w in m && Clear(l, w, m[w].size) ==> w in r
  {
    (map w | w in m && Clear(l, w, m[w].size) :: m[w]) + l
  }

  /** `swap(addr, page, size)` of a bank switcher: one window. The new window is
      loaded, every window it overlaps is dropped, and every other window stays. */
  function Swap(m: Layout, addr: int, page: int, size: nat): (r: Layout)
    ensures addr in r && r[addr] == Load(page, size)
    ensures forall w :: w in r && w != addr ==> w in m && r[w] == m[w] && !Overlaps(w, m[w].size, addr, size)
    ensures forall w :: w in m && w != addr && !Overlaps(w, m[w].size, addr, size) ==> w in r && r[w] == m[w]
  {
    Overlay(m, map[addr := Load(page, size)])
  }

  /** Every window of `m` is non-empty and lies inside [lo, hi). */
  ghost predicate Within(m: Layout, lo: int, hi: int) {
    forall w :: w in m ==> lo <= w && w + m[w].size <= hi && m[w].size > 0
  }

  /** A swap of a window inside [lo, hi) keeps every window of the switcher inside it. */
  lemma SwapWithin(m: Layout, addr: int, page: int, size: nat, lo: int, hi: int)
    requires Within(m, lo, hi) && lo <= addr && addr + size <= hi && size > 0
    ensures Within(Swap(m, addr, page, size), lo, hi)
  {
  }

  ghost predicate Covered(l: Layout, a: int) {
    exists w :: w in l && w <= a < w + l[w].size
  }

  /** The windows of `l` are pairwise disjoint and together cover exactly [lo, hi). */
  ghost predicate Tiles(l: Layout, lo: int, hi: int) {
    && Within(l, lo, hi)
    && (forall w1, w2 :: w1 in l && w2 in l && w1 != w2 ==> !Overlaps(w1, l[w1].size, w2, l[w2].size))
    && (forall a :: lo <= a < hi ==> Covered(l, a))
  }

  /** Loading a full tiling of [lo, hi) leaves nothing of the previous layout of that
      range: the switcher then maps exactly the new windows. */
  lemma OverlayTiling(m: Layout, l: Layout, lo: int, hi: int)
    requires Within(m, lo, hi) && Tiles(l, lo, hi)
    ensures Overlay(m, l) == l
  {
    forall w | w in m
      ensures !Clear(l, w, m[w].size)
    {
      assert Covered(l, w);
      var v :| v in l && v <= w < v + l[v].size;
      assert Overlaps(w, m[w].size, v, l[v].size);
    }
    var r := Overlay(m, l);
    assert r.Keys == l.Keys;
  }

  /** The page number a load resolves to in a ROM of `romSize` bytes: a negative page
      counts back from the last page of that size. */
  function ResolvePage(page: int, size: nat, romSize: nat): int
    requires size > 0
  {
    if page < 0 then romSize / size + page else page
  }

  /** Pages -1 and -2 are the last and second-to-last `size`-byte pages of the ROM. */
  lemma NegativePagesFromEnd(size: nat, romSize: nat)
    requires size > 0 && romSize % size == 0 && romSize >= 2 * size
    ensures ResolvePage(-1, size, romSize) * size == romSize - size
    ensures ResolvePage(-2, size, romSize) * size == romSize - 2 * size
    ensures 0 <= ResolvePage(-2, size, romSize) < ResolvePage(-1, size, romSize)
  {
    var k := romSize / size;
    assert romSize == k * size;
    assert k >= 2;
  }
}
