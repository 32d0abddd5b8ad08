/** One game world: its id, its name, its generator and its loaded chunks. */
module WorldData {
  import opened Common
  import opened ChunkTypes
  import opened ChunkStore

  datatype WorldId = WorldId(index: nat)

  /** A world generator; the only thing asked of it so far is the chunk edge length. */
  datatype WorldGenerator = LayeredWorldGenerator(layers: seq<I16>)

  /** `get_chunk_edge_len`: the layered generator always uses 32-tile chunks. */
  function ChunkEdgeLen(g: WorldGenerator): EdgeLen {
    32
  }

  class World {
    const idx: WorldId
    const name: string
    const generator: WorldGenerator
    const chunks: Chunks

    ghost predicate Valid()
      reads this, chunks
    {
      chunks.Valid() && chunks.edgeLen == ChunkEdgeLen(generator)
    }

    /** `World::new`: an empty chunk store sized by the generator. */
    constructor (idx: WorldId, name: string, generator: WorldGenerator)
      ensures this.idx == idx && this.name == name && this.generator == generator
      ensures fresh(chunks) && chunks.chunks == map[] && Valid()
    {
      this.idx, this.name, this.generator := idx, name, generator;
      chunks := new Chunks(ChunkEdgeLen(generator));
    }

    /** `get_chunk` (and `get_chunk_mut`): the store's chunk at `coord`. */
    function GetChunk(coord: ChunkCoord): (r: Option<Chunk>)
      reads this, chunks
      ensures r == chunks.GetChunk(coord)
    {
      chunks.GetChunk(coord)
    }

    /**
     * `get_or_generate_chunk_now`: the chunk at `coord`, created if absent.
     * Tile generation is not written yet, so a new chunk is exactly the
     * empty chunk the store creates.
     */
    method GetOrGenerateChunkNow(coord: ChunkCoord) returns (chunk: Chunk)
      requires Valid()
      modifies chunks
      ensures Valid()
      ensures coord in old(chunks.chunks) ==> chunk == old(chunks.chunks[coord]) && chunks.chunks == old(chunks.chunks)
      ensures coord !in old(chunks.chunks) ==> chunk == NewChunk(coord, ChunkEdgeLen(generator))
      ensures chunks.chunks == old(chunks.chunks)[coord := chunk]
    {
      var inserted;
      chunk, inserted := chunks.GetOrCreateChunk(coord);
      if inserted {
        // generation of the tiles is still to be written in the source
      }
    }
  }

  /** Asking twice for the same chunk creates it at most once and returns the same chunk. */
  method GenerateTwice(w: World, coord: ChunkCoord) returns (first: Chunk, second: Chunk)
    requires w.Valid()
    modifies w.chunks
    ensures w.Valid() && first == second
    ensures w.chunks.chunks == old(w.chunks.chunks)[coord := first]
  {
    first := w.GetOrGenerateChunkNow(coord);
    second := w.GetOrGenerateChunkNow(coord);
  }
}

/** All worlds of a game, in creation order, looked up by id or by name. */
module WorldStore {
  import opened Common
  import opened WorldData

  /** The position of `name` in `names`, if present. */
  function IndexOf(names: seq<string>, name: string): (r: Option<nat>)
    ensures r.Some? ==> r.value < |names| && names[r.value] == name
    ensures r.None? <==> name !in names
    decreases |names|
  {
    if names == [] then None
    else if names[|names| - 1] == name then Some(|names| - 1)
    else
      var r := IndexOf(names[..|names| - 1], name);
      assert names == names[..|names| - 1] + [names[|names| - 1]];
      r
  }

  predicate Distinct(names: seq<string>) {
    forall i, j | 0 <= i < j < |names| :: names[i] != names[j]
  }

  /** With distinct names, a name's position is the one place it occurs. */
  lemma IndexOfDistinct(names: seq<string>, i: nat)
    requires Distinct(names) && i < |names|
    ensures IndexOf(names, names[i]) == Some(i)
  {
  }

  /** Appending a fresh name finds it last and leaves every other lookup unchanged. */
  lemma {:induction false} IndexOfAppend(names: seq<string>, added: string, name: string)
    requires added !in names
    ensures IndexOf(names + [added], name) == if name == added then Some(|names|) else IndexOf(names, name)
  {
    assert (names + [added])[..|names|] == names;
  }

  class Worlds {
    var names: seq<string>
    var worlds: seq<World>

    /** Ids are dense positions, names are distinct, and each world knows its own id and name. */
    ghost predicate Valid()
      reads this, worlds
    {
      && |names| == |worlds| && Distinct(names)
      && forall i | 0 <= i < |worlds| :: worlds[i].idx == WorldId(i) && worlds[i].name == names[i]
    }

    constructor ()
      ensures names == [] && worlds == [] && Valid()
    {
      names, worlds := [], [];
    }

    /** `create_world`: a new world under a name not used yet, with the next id. */
    method CreateWorld(name: string, generator: WorldGenerator) returns (id: WorldId)
      requires Valid() && name !in names
      modifies this
      ensures Valid()
      ensures id == WorldId(|old(worlds)|)
      ensures names == old(names) + [name] && worlds[..|old(worlds)|] == old(worlds) && |worlds| == |old(worlds)| + 1
      ensures fresh(worlds[id.index]) && worlds[id.index].generator == generator && worlds[id.index].chunks.chunks == map[]
      ensures GetWorldName(id) == name && GetWorldIdByName(name) == Some(id)
    {
      var world := new World(WorldId(|worlds|), name, generator);
      names, worlds := names + [name], worlds + [world];
      id := WorldId(|worlds| - 1);
      IndexOfAppend(old(names), name, name);
    }

    /** `get_world` (and `get_world_mut`); an id not handed out by this store is a caller error. */
    function GetWorld(id: WorldId): (w: World)
      requires Valid() && id.index < |worlds|
      reads this, worlds
      ensures w.idx == id && w.name == names[id.index]
    {
      worlds[id.index]
    }

    function GetWorldName(id: WorldId): (name: string)
      requires id.index < |names|
      reads this
      ensures name in names
    {
      names[id.index]
    }

    /** `get_world_id_by_name`: the id of the world of that name, if there is one. */
    function GetWorldIdByName(name: string): (r: Option<WorldId>)
      reads this
      ensures r.None? <==> name !in names
      ensures r.Some? ==> r.value.index < |names| && names[r.value.index] == name
    {
      match IndexOf(names, name)
      case Some(i) => Some(WorldId(i))
      case None => None
    }
  }

  /** The name of an id and the id of a name are inverse lookups. */
  lemma NameAndIdInverse(ws: Worlds, id: WorldId)
    requires ws.Valid() && id.index < |ws.names|
    ensures ws.GetWorldIdByName(ws.GetWorldName(id)) == Some(id)
  {
    IndexOfDistinct(ws.names, id.index);
  }
}
