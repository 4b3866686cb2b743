/**
 Sizes: alignedCapacity of pkg/driver/controller.go, the image files of
 pkg/image/image.go, the block size recorded in an ext4 superblock
 (pkg/image/resize.go) and the loop sector size of pkg/loop/losetup.go. Sizes are
 64-bit signed integers that wrap around.
 */
module Capacity {
  import opened Text
  import opened Luks

  const BLOCK: int := 4096
  const MAX_INT64: int := 0x7FFF_FFFF_FFFF_FFFF
  const DEFAULT_CAPACITY: int := 0x4000_0000
  const MIN_ENCRYPTED_CAPACITY: int := 0x200_0000

  // --- int64 ----------------------------------------------------------------------

  /** Two's complement wrap-around. */
  function Wrap(n: int): (w: int)
    ensures -MAX_INT64 - 1 <= w <= MAX_INT64
    ensures -MAX_INT64 - 1 <= n <= MAX_INT64 ==> w == n
  {
    (n + MAX_INT64 + 1) % (2 * MAX_INT64 + 2) - MAX_INT64 - 1
  }

  /** Go's division truncates toward zero. */
  function TruncDiv(a: int, b: int): int
    requires b > 0
  {
    if a >= 0 then a / b else -(-a / b)
  }

  /** AlignUp. */
  function AlignUp(n: int): int {
    Wrap(TruncDiv(Wrap(n + BLOCK - 1), BLOCK) * BLOCK)
  }

  /** Below the overflow bound AlignUp gives the least multiple of the block size that is enough. */
  lemma AlignUpRounds(n: int)
    requires 0 < n <= MAX_INT64 - (BLOCK - 1)
    ensures AlignUp(n) % BLOCK == 0 && n <= AlignUp(n) < n + BLOCK
    ensures forall m :: m % BLOCK == 0 && m >= n ==> m >= AlignUp(n)
  {
    var q := (n + BLOCK - 1) / BLOCK;
    assert AlignUp(n) == q * BLOCK;
    forall m | m % BLOCK == 0 && m >= n ensures m >= q * BLOCK {
      assert m == m / BLOCK * BLOCK;
    }
  }

  /** Above it the sum wraps and the result is negative. */
  lemma AlignUpOverflows(n: int)
    requires MAX_INT64 - (BLOCK - 1) < n <= MAX_INT64
    ensures AlignUp(n) < 0 && AlignUp(n) % BLOCK == 0
  {
    var w := n + BLOCK - 1 - (2 * MAX_INT64 + 2);
    assert Wrap(n + BLOCK - 1) == w;
    assert TruncDiv(w, BLOCK) == -(-w / BLOCK);
  }

  // --- alignedCapacity ---------------------------------------------------------------

  /** A CapacityRange of the CSI specification: a bound of zero (or less) is not set. */
  datatype Range = Range(required: int, limit: int)

  /** `m` bytes satisfy the range. */
  predicate Meets(m: int, r: Range) {
    (r.required > 0 ==> m >= r.required) && (r.limit > 0 ==> m <= r.limit)
  }

  predicate Fits64(r: Range) {
    -MAX_INT64 - 1 <= r.required <= MAX_INT64 && -MAX_INT64 - 1 <= r.limit <= MAX_INT64
  }

  /** The size asked for: the requirement, else the limit, else the default. */
  function Wanted(r: Range): int {
    if r.required > 0 then r.required else if r.limit > 0 then r.limit else DEFAULT_CAPACITY
  }

  predicate Proper(m: int) {
    m > 0 && m % BLOCK == 0
  }

  /**
   alignedCapacity. Below the overflow bound it succeeds exactly when some
   positive multiple of the block size meets the range, and then returns one.
   */
  method AlignedCapacity(r: Range) returns (size: Option<int>)
    requires Fits64(r)
    ensures Wanted(r) <= MAX_INT64 - (BLOCK - 1) ==>
              && (size.Some? <==> exists m :: Proper(m) && Meets(m, r))
              && (size.Some? ==> Proper(size.value) && Meets(size.value, r))
    ensures Wanted(r) > MAX_INT64 - (BLOCK - 1) ==> size.Some? && size.value < 0
    ensures size.Some? ==> -MAX_INT64 - 1 <= size.value <= MAX_INT64
  {
    var want := DEFAULT_CAPACITY;
    if r.required > 0 {
      want := r.required;
    } else if r.limit > 0 {
      want := r.limit;
    }
    UpIsEnough(r);
    var up := AlignUp(want);
    if r.limit > 0 && up > r.limit {
      var down := TruncDiv(r.limit, BLOCK) * BLOCK;
      DownIsMost(r.limit);
      if down == 0 || down < r.required {
        forall m | Proper(m) ensures !Meets(m, r) {
          assert m <= r.limit ==> m <= down;
        }
        return None;
      }
      assert Proper(down) && Meets(down, r);
      return Some(down);
    }
    return Some(up);
  }

  /** Rounding up what is wanted meets the range unless it passes the limit; it wraps above the bound. */
  lemma UpIsEnough(r: Range)
    requires Fits64(r)
    ensures var up := AlignUp(Wanted(r));
            if Wanted(r) > MAX_INT64 - (BLOCK - 1) then up < 0
            else Proper(up) && up >= Wanted(r) && (r.limit <= 0 || up <= r.limit ==> Meets(up, r))
  {
    if Wanted(r) <= MAX_INT64 - (BLOCK - 1) {
      AlignUpRounds(Wanted(r));
    } else {
      AlignUpOverflows(Wanted(r));
    }
  }

  /** Rounding the limit down gives the most whole blocks that stay within it. */
  lemma DownIsMost(limit: int)
    requires limit > 0
    ensures var down := TruncDiv(limit, BLOCK) * BLOCK;
            0 <= down <= limit && down % BLOCK == 0 && forall m :: Proper(m) && m <= limit ==> m <= down
  {
    forall m | Proper(m) && m <= limit ensures m <= limit / BLOCK * BLOCK {
      assert m == m / BLOCK * BLOCK;
    }
  }

  // --- image files ------------------------------------------------------------------------

  datatype Reply = OK(size: int) | Mismatch | OutOfRange | NotFound | Refused | Failed

  /** Every file of the store made here has a size in whole blocks. */
  ghost predicate Blocks(files: map<string, nat>, made: set<string>) {
    forall v :: v in made && v in files ==> files[v] % BLOCK == 0
  }

  /** A store's image files by volume; `made` are the volumes whose files were created here. */
  class Images {
    var files: map<string, nat>
    ghost var made: set<string>

    ghost predicate Valid()
      reads this
    {
      Blocks(files, made)
    }

    method Attempt() returns (ok: bool)
    {
      ok := *;
    }

    /** truncateSparse: creates the file if need be, then sets its size; the second step may fail. */
    method Truncate(volume: string, size: int) returns (ok: bool)
      modifies `files
      ensures ok ==> size >= 0 && files == old(files)[volume := size]
      ensures !ok ==> files == old(files) || (volume !in old(files) && files == old(files)[volume := 0])
    {
      ok := Attempt();
      if !ok {
        return;
      }
      if volume !in files {
        files := files[volume := 0];
      }
      ok := Attempt();
      ok := ok && size >= 0;
      if ok {
        files := files[volume := size];
      }
    }

    /** Create: an existing file of the requested size, rounded or not, is taken as it is. */
    method Create(volume: string, capacity: int, unformatted: bool) returns (r: Reply)
      requires Valid() && -MAX_INT64 - 1 <= capacity <= MAX_INT64
      modifies this
      ensures Valid() && old(made) <= made
      ensures capacity <= 0 ==> r == Refused
      ensures forall v :: v != volume ==>
                (v in files <==> v in old(files)) && (v in files ==> files[v] == old(files)[v])
      ensures volume in old(files) ==> files == old(files) && made == old(made)
      ensures r.OK? ==>
                volume in files && r.size == files[volume] && (r.size == AlignUp(capacity) || r.size == capacity)
      ensures r.OK? && volume !in old(files) ==> volume in made && r.size == AlignUp(capacity)
    {
      if capacity <= 0 {
        return Refused;
      }
      var size := AlignUp(capacity);
      if volume in files {
        if files[volume] != size && files[volume] != capacity {
          return Mismatch;
        }
        return OK(files[volume]);
      }
      if size >= 0 {
        AligningIsProper(capacity);
      }
      made := made + {volume};
      var ok := Truncate(volume, size);
      if !ok {
        return Failed;
      }
      if unformatted {
        return OK(size);
      }
      ok := Attempt();
      if !ok {
        var removed := Attempt();
        if removed {
          files := files - {volume};
        }
        return Failed;
      }
      return OK(size);
    }

    /** Resize: grows the file or leaves it; never shrinks it. */
    method Resize(volume: string, capacity: int) returns (r: Reply)
      requires Valid() && 0 < capacity <= MAX_INT64
      modifies `files
      ensures Valid()
      ensures files == old(files) || (volume in old(files) && AlignUp(capacity) > old(files)[volume] &&
                                      files == old(files)[volume := AlignUp(capacity)])
      ensures r.OK? ==> volume in files && files[volume] == r.size == AlignUp(capacity) && r.size >= old(files)[volume]
    {
      if volume !in files {
        return NotFound;
      }
      var size := AlignUp(capacity);
      if size < files[volume] {
        return Refused;
      }
      if size == files[volume] {
        return OK(size);
      }
      AligningIsProper(capacity);
      var ok := Truncate(volume, size);
      r := if ok then OK(size) else Failed;
    }

    /** CreateVolume, as far as sizes go: what it returns is a whole number of blocks within the range. */
    method CreateVolume(volume: string, range: Range, encrypted: bool) returns (r: Reply)
      requires Valid() && Fits64(range)
      modifies this
      ensures Valid() && old(made) <= made
      ensures forall v :: v in old(files) ==> v in files && files[v] == old(files)[v]
      ensures r.OK? ==> volume in files && files[volume] == r.size && Proper(r.size) && Meets(r.size, range)
      ensures r.OK? && volume !in old(files) ==> volume in made
      ensures r.OK? && encrypted ==> r.size >= MIN_ENCRYPTED_CAPACITY
    {
      var capacity := AlignedCapacity(range);
      if capacity == None {
        return OutOfRange;
      }
      if encrypted && capacity.value < MIN_ENCRYPTED_CAPACITY {
        return OutOfRange;
      }
      if capacity.value > 0 {
        AlignedStays(capacity.value);
      }
      r := Create(volume, capacity.value, encrypted);
    }

    /** ControllerExpandVolume, as far as sizes go. */
    method Expand(volume: string, range: Range) returns (r: Reply)
      requires Valid() && Fits64(range)
      modifies `files
      ensures Valid()
      ensures forall v :: v in old(files) ==> v in files && files[v] >= old(files)[v]
      ensures r.OK? ==> volume in old(files) && files[volume] == r.size && Proper(r.size) && Meets(r.size, range)
    {
      if range.required <= 0 {
        return Refused;
      }
      var size := AlignedCapacity(range);
      if size == None {
        return OutOfRange;
      }
      if size.value < 0 {
        return Failed;
      }
      AlignedStays(size.value);
      r := Resize(volume, size.value);
    }

    /**
     Any run of CreateVolume and Expand calls, failing or not, over a volume made
     here: its size is a positive whole number of blocks all along and never shrinks.
     */
    method Lifecycle(volume: string, ops: seq<Op>) returns (ghost sizes: seq<int>)
      requires Valid() && volume in files && volume in made && files[volume] > 0
      requires forall i :: 0 <= i < |ops| ==> Fits64(ops[i].range)
      modifies this
      ensures Valid() && volume in files && |sizes| == |ops| + 1 && sizes[0] == old(files)[volume]
      ensures sizes[|ops|] == files[volume]
      ensures forall i :: 0 <= i < |sizes| ==> Proper(sizes[i])
      ensures forall i, j :: 0 <= i < j < |sizes| ==> sizes[i] <= sizes[j]
    {
      sizes := [files[volume]];
      for i := 0 to |ops|
        invariant Valid() && volume in files && volume in made && |sizes| == i + 1 &&
                  sizes[0] == old(files)[volume] && sizes[i] == files[volume]
        invariant forall j :: 0 <= j < |sizes| ==> Proper(sizes[j])
        invariant forall j, k :: 0 <= j < k < |sizes| ==> sizes[j] <= sizes[k]
      {
        match ops[i] {
          case CreateIt(v, range, encrypted) =>
            var r := CreateVolume(v, range, encrypted);
          case ExpandIt(v, range) =>
            var r := Expand(v, range);
        }
        sizes := sizes + [files[volume]];
      }
    }
  }

  /** A request to the controller, by volume. */
  datatype Op = CreateIt(volume: string, range: Range, encrypted: bool) | ExpandIt(volume: string, range: Range)

  lemma AligningIsProper(n: int)
    requires 0 < n <= MAX_INT64 && AlignUp(n) >= 0
    ensures Proper(AlignUp(n))
  {
    if n <= MAX_INT64 - (BLOCK - 1) {
      AlignUpRounds(n);
    } else {
      AlignUpOverflows(n);
    }
  }

  /** A size in whole blocks is not changed by rounding. */
  lemma AlignedStays(n: int)
    requires Proper(n) && n <= MAX_INT64
    ensures AlignUp(n) == n
  {
    assert MAX_INT64 % BLOCK == BLOCK - 1;
    assert n <= MAX_INT64 - (BLOCK - 1);
    AlignUpRounds(n);
  }

  // --- the loop sector size -------------------------------------------------------------

  const MIN_SECTOR: int := 512

  predicate Pow2(n: int) {
    n == 1 || (n > 1 && n % 2 == 0 && Pow2(n / 2))
  }

  /** Between a power of two and its half there is none. */
  lemma {:induction false} Pow2Gap(a: int, b: int)
    requires Pow2(a) && Pow2(b) && a < b
    ensures a <= b / 2
  {
    if a > 1 {
      Pow2Gap(a / 2, b / 2);
    }
  }

  /** The largest sector size there may be for an image: what its format records, and a page. */
  function Most(recorded: int, page: int): int {
    var s := if recorded <= 0 then BLOCK else recorded;
    if s < page then s else page
  }

  /**
   SectorSizeFor: the largest power of two, within both bounds, that divides the
   image's size; or 512 when not even that does.
   */
  method SectorSizeFor(recorded: int, size: nat, page: int) returns (s: int)
    requires recorded > 0 ==> Pow2(recorded) && recorded >= MIN_SECTOR
    requires Pow2(page) && page >= MIN_SECTOR
    ensures Pow2(s) && MIN_SECTOR <= s <= Most(recorded, page)
    ensures size % s == 0 || (s == MIN_SECTOR && size % MIN_SECTOR != 0)
    ensures forall t :: Pow2(t) && s < t <= Most(recorded, page) ==> size % t != 0
  {
    s := recorded;
    if s <= 0 {
      s := BLOCK;
    }
    assert Pow2(BLOCK) && Pow2(MIN_SECTOR) by {
      Pow2s();
    }
    s := if s < page then s else page;
    while s > MIN_SECTOR && size % s != 0
      invariant Pow2(s) && MIN_SECTOR <= s <= Most(recorded, page)
      invariant forall t :: Pow2(t) && s < t <= Most(recorded, page) ==> size % t != 0
    {
      forall t | Pow2(t) && s / 2 < t <= Most(recorded, page) ensures size % t != 0 {
        if t < s {
          Pow2Gap(t, s);
        }
      }
      Pow2Gap(MIN_SECTOR, s);
      s := s / 2;
    }
  }

  lemma Pow2s()
    ensures Pow2(512) && Pow2(1024) && Pow2(2048) && Pow2(4096) && Pow2(8192) && Pow2(16384)
    ensures Pow2(32768) && Pow2(65536)
  {
    assert Pow2(2) && Pow2(4) && Pow2(8);
    assert Pow2(16) && Pow2(32) && Pow2(64);
    assert Pow2(128) && Pow2(256) && Pow2(512);
    assert Pow2(1024) && Pow2(2048) && Pow2(4096);
    assert Pow2(8192) && Pow2(16384) && Pow2(32768);
  }

  // --- the recorded block size -------------------------------------------------------------

  const SUPERBLOCK: nat := 1024
  const EXT4_MAGIC: int := 0xEF53

  function Le16(b: seq<byte>, i: nat): int
    requires i + 2 <= |b|
  {
    b[i] as int + b[i + 1] as int * 0x100
  }

  function Le32(b: seq<byte>, i: nat): int
    requires i + 4 <= |b|
  {
    b[i] as int + b[i + 1] as int * 0x100 + b[i + 2] as int * 0x1_0000 + b[i + 3] as int * 0x100_0000
  }

  function Shift(n: nat): int {
    if n == 0 then 1024 else 2 * Shift(n - 1)
  }

  /** FSBlockSize: 0 when there is no plausible ext4 superblock. */
  function FSBlockSize(image: seq<byte>): int {
    if |image| < SUPERBLOCK + 64 then 0
    else if Le16(image, SUPERBLOCK + 56) != EXT4_MAGIC then 0
    else
      var n := Le32(image, SUPERBLOCK + 24);
      if n > 6 then 0 else Shift(n)
  }

  lemma ShiftIsPow2(n: nat)
    ensures Pow2(Shift(n)) && Shift(n) >= 1024
    ensures Shift(2) == BLOCK
  {
    if n == 0 {
      Pow2s();
    } else {
      ShiftIsPow2(n - 1);
    }
    assert Shift(1) == 2048;
  }

  /** What an image records is nothing, or a block size SectorSizeFor can start from. */
  lemma RecordedIsUsable(image: seq<byte>)
    ensures var b := FSBlockSize(image); b == 0 || (Pow2(b) && 1024 <= b)
  {
    if FSBlockSize(image) != 0 {
      ShiftIsPow2(Le32(image, SUPERBLOCK + 24));
    }
  }

  /**
   A volume made here attaches at 4096-byte sectors, on pages of at least that:
   its size is in whole blocks, and its format records that block size or nothing.
   */
  method AttachSectorSize(size: nat, recorded: int, page: int) returns (s: int)
    requires Proper(size) && (recorded <= 0 || recorded == BLOCK) && Pow2(page) && page >= BLOCK
    ensures s == BLOCK
  {
    Pow2s();
    s := SectorSizeFor(recorded, size, page);
    assert Pow2(BLOCK) && size % BLOCK == 0;
  }
}
