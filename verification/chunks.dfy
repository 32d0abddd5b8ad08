/**
 * Cubic chunks of the game world: signed 16-bit chunk coordinates, unsigned
 * 16-bit extents between them, and the chunk itself, a cube of tiles.
 */
module ChunkTypes {
  newtype I16 = x: int | -0x8000 <= x < 0x8000
  newtype U16 = x: int | 0 <= x < 0x1_0000

  /** A chunk edge length: a non-zero byte. */
  newtype EdgeLen = x: int | 1 <= x < 0x100 witness 1

  /** `ChunkCoord::new(x, y, z)`; `x()`, `y()` and `z()` are the fields. */
  datatype ChunkCoord = ChunkCoord(x: I16, y: I16, z: I16)

  /** Extents along the three axes: `width()`, `length()`, `height()`. */
  datatype ChunkCoordArea = ChunkCoordArea(width: U16, length: U16, height: U16)

  /** The tile storage holds no tile data yet: one unit value per tile. */
  datatype Chunk = Chunk(edgeLen: EdgeLen, location: ChunkCoord, data: seq<()>)

  /** `v as u16`: keeps the low 16 bits of the two's-complement value. */
  function AsU16(v: I16): (r: U16)
    ensures (r as int - v as int) % 0x1_0000 == 0
  {
    if v < 0 then (v as int + 0x1_0000) as U16 else v as int as U16
  }

  /** A truncating cast to 16 bits, as `as u16` does on a wider value. */
  function TruncateU16(v: nat): (r: U16)
    ensures v < 0x1_0000 ==> r as int == v
  {
    (v % 0x1_0000) as U16
  }

  function Abs(v: int): nat {
    if v < 0 then -v else v
  }

  /** `ChunkCoord::area`: each component reinterpreted as unsigned. */
  function Area(c: ChunkCoord): (r: ChunkCoordArea)
    ensures r.width as int == if c.x < 0 then c.x as int + 0x1_0000 else c.x as int
    ensures r.length as int == if c.y < 0 then c.y as int + 0x1_0000 else c.y as int
    ensures r.height as int == if c.z < 0 then c.z as int + 0x1_0000 else c.z as int
  {
    ChunkCoordArea(AsU16(c.x), AsU16(c.y), AsU16(c.z))
  }

  /** `a - b`: the distance along each axis, computed wide and cast to 16 bits. */
  function Sub(a: ChunkCoord, b: ChunkCoord): (r: ChunkCoordArea)
    ensures r.width as int == Abs(a.x as int - b.x as int)
    ensures r.length as int == Abs(a.y as int - b.y as int)
    ensures r.height as int == Abs(a.z as int - b.z as int)
  {
    ChunkCoordArea(TruncateU16(Abs(a.x as int - b.x as int)),
                   TruncateU16(Abs(a.y as int - b.y as int)),
                   TruncateU16(Abs(a.z as int - b.z as int)))
  }

  /** `ChunkCoordArea::area`: the number of chunks in the box, as a `usize`. */
  function Volume(a: ChunkCoordArea): (r: nat)
    ensures r < 0x1_0000_0000_0000_0000
    ensures r == 0 <==> a.width == 0 || a.length == 0 || a.height == 0
  {
    VolumeFits(a.width as nat, a.length as nat, a.height as nat);
    a.width as nat * a.length as nat * a.height as nat
  }

  lemma VolumeFits(w: nat, l: nat, h: nat)
    requires w < 0x1_0000 && l < 0x1_0000 && h < 0x1_0000
    ensures w * l * h < 0x1_0000_0000_0000
  {
    MulMonotonic(w, 0xFFFF, l);
    MulMonotonic(l, 0xFFFF, 0xFFFF);
    var p := w * l;
    assert p <= 0xFFFE_0001;
    MulMonotonic(p, 0xFFFE_0001, h);
    MulMonotonic(h, 0xFFFF, 0xFFFE_0001);
  }

  lemma MulMonotonic(a: int, b: int, c: nat)
    requires a <= b
    ensures a * c <= b * c
  {
  }

  /** `Chunk::new`: a cube of `edgeLen` tiles on each side at `location`. */
  function NewChunk(location: ChunkCoord, edgeLen: EdgeLen): (c: Chunk)
    ensures c.location == location && c.edgeLen == edgeLen
    ensures |c.data| == edgeLen as int * edgeLen as int * edgeLen as int > 0
  {
    var len := edgeLen as int;
    Chunk(edgeLen, location, seq(len * len * len, _ => ()))
  }

  /** The distance between two chunk coordinates does not depend on their order. */
  lemma SubSymmetric(a: ChunkCoord, b: ChunkCoord)
    ensures Sub(a, b) == Sub(b, a)
  {
  }

  lemma SubSelf(a: ChunkCoord)
    ensures Sub(a, a) == ChunkCoordArea(0, 0, 0) && Volume(Sub(a, a)) == 0
  {
  }

  /** The distance's truncation never loses anything: two 16-bit coordinates are at most 65535 apart. */
  lemma SubFitsU16(a: I16, b: I16)
    ensures Abs(a as int - b as int) <= 0xFFFF
  {
  }
}

/** The chunks loaded for one world, keyed by their coordinates. */
module ChunkStore {
  import opened Common
  import opened ChunkTypes

  class Chunks {
    const edgeLen: EdgeLen
    var chunks: map<ChunkCoord, Chunk>

    /** Every chunk sits at its own key and has the store's edge length. */
    ghost predicate Valid()
      reads this
    {
      forall c | c in chunks :: chunks[c] == NewChunk(c, edgeLen)
    }

    constructor (edgeLen: EdgeLen)
      ensures this.edgeLen == edgeLen && chunks == map[] && Valid()
    {
      this.edgeLen := edgeLen;
      chunks := map[];
    }

    /** `get_chunk` (and `get_chunk_mut`): the chunk at `coord`, if any. */
    function GetChunk(coord: ChunkCoord): (r: Option<Chunk>)
      reads this
      ensures r.None? <==> coord !in chunks
      ensures r.Some? ==> r.value == chunks[coord]
    {
      if coord in chunks then Some(chunks[coord]) else None
    }

    /** `get_or_create_chunk`: the chunk at `coord`, created first if absent; `inserted` says which. */
    method GetOrCreateChunk(coord: ChunkCoord) returns (chunk: Chunk, inserted: bool)
      requires Valid()
      modifies this
      ensures Valid()
      ensures inserted <==> coord !in old(chunks)
      ensures !inserted ==> chunk == old(chunks[coord]) && chunks == old(chunks)
      ensures inserted ==> chunk == NewChunk(coord, edgeLen) && chunks == old(chunks)[coord := chunk]
      ensures chunks.Keys == old(chunks.Keys) + {coord} && chunks[coord] == chunk
      ensures forall c | c in old(chunks) :: chunks[c] == old(chunks[c])
    {
      inserted := coord !in chunks;
      if inserted {
        chunks := chunks[coord := NewChunk(coord, edgeLen)];
      }
      chunk := chunks[coord];
    }
  }
}
