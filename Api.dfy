/** What the command layer knows of the remote catalogue: the records it decodes,
    the URLs it requests, and the outcomes of a request. The network and the JSON
    decoder are not modelled; they are handed in as functions (see Env). */
module Api {
  import opened Pokecache

  const MinInt64: int := -0x8000_0000_0000_0000
  const MaxInt64: int := 0x7FFF_FFFF_FFFF_FFFF

  /** Go's int on a 64-bit platform. */
  newtype int64 = x: int | -0x8000_0000_0000_0000 <= x < 0x8000_0000_0000_0000

  /** Two's-complement wrap-around of an integer into int64. */
  function Wrap64(x: int): (r: int64)
    ensures (r as int - x) % 0x1_0000_0000_0000_0000 == 0
    ensures MinInt64 <= x <= MaxInt64 ==> r as int == x
    ensures MaxInt64 < x <= MaxInt64 + 0x1_0000_0000_0000_0000 ==> r as int == x - 0x1_0000_0000_0000_0000
  {
    var m := (x - MinInt64) % 0x1_0000_0000_0000_0000;
    assert MaxInt64 < x <= MaxInt64 + 0x1_0000_0000_0000_0000 ==>
      m == x - MinInt64 - 0x1_0000_0000_0000_0000;
    (m + MinInt64) as int64
  }

  /** One page of location areas. An absent or null link decodes to "". */
  datatype LocationPage = LocationPage(results: seq<string>, next: string, previous: string)

  /** The Pokémon that can be met in one location area. */
  datatype AreaDetails = AreaDetails(encounters: seq<string>)

  datatype Stat = Stat(name: string, baseStat: int64)

  datatype Pokemon = Pokemon(
    name: string,
    baseExperience: int64,
    height: int64,
    weight: int64,
    stats: seq<Stat>,
    types: seq<string>)

  /** What one GET of a URL yields: a failed request, a body that could not be read,
      or the whole body. */
  datatype Response = RequestFailed(reason: string) | ReadFailed(reason: string) | Body(bytes: Bytes)

  /** What the JSON decoder makes of a body. */
  datatype Decoded<T> = Value(value: T) | Malformed(reason: string)

  /** The errors a command can return. */
  datatype Error = HttpError(reason: string) | BodyError(reason: string) | JsonError(reason: string)

  datatype Result<T> = Ok(value: T) | Err(error: Error)

  /** The outside world one command runs against: the remote server and the three
      decoders, one per response layout. */
  datatype Env = Env(
    net: string -> Response,
    pages: Bytes -> Decoded<LocationPage>,
    areas: Bytes -> Decoded<AreaDetails>,
    pokemon: Bytes -> Decoded<Pokemon>)

  /** json.Unmarshal into a fresh target. */
  function Decode<T>(decode: Bytes -> Decoded<T>, body: Bytes): Result<T> {
    match decode(body)
    case Value(v) => Ok(v)
    case Malformed(why) => Err(JsonError(why))
  }

  const ApiRoot: string := "https://pokeapi.co/api/v2/"
  const LocationAreaBase: string := "https://pokeapi.co/api/v2/location-area/"
  const PokemonBase: string := "https://pokeapi.co/api/v2/pokemon/"

  /** The URL of one location area. The area name can be read back from it, so
      distinct areas never share a cache entry. */
  function LocationAreaUrl(area: string): (url: string)
    ensures |url| == |LocationAreaBase| + |area| + 1
    ensures url[..|LocationAreaBase|] == LocationAreaBase && url[|url| - 1] == '/'
    ensures url[|LocationAreaBase|..|url| - 1] == area
  {
    LocationAreaBase + area + "/"
  }

  /** The URL of one Pokémon. The name can be read back from it. */
  function PokemonUrl(name: string): (url: string)
    ensures |url| == |PokemonBase| + |name| + 1
    ensures url[..|PokemonBase|] == PokemonBase && url[|url| - 1] == '/'
    ensures url[|PokemonBase|..|url| - 1] == name
  {
    PokemonBase + name + "/"
  }

  /** Distinct names give distinct cache keys, and a Pokémon URL is never a
      location-area URL. */
  lemma UrlsDistinct(a: string, b: string, area: string)
    ensures PokemonUrl(a) == PokemonUrl(b) ==> a == b
    ensures LocationAreaUrl(a) == LocationAreaUrl(b) ==> a == b
    ensures PokemonUrl(a) != LocationAreaUrl(area)
    ensures PokemonUrl(a) != LocationAreaBase
  {
    assert PokemonUrl(a)[|ApiRoot|] == 'p';
    assert LocationAreaUrl(area)[|ApiRoot|] == 'l';
    assert LocationAreaBase[|ApiRoot|] == 'l';
  }
}
