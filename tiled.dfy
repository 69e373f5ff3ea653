/**
 * The part of a decoded Tiled map that the treasure hunter reads: the map's
 * custom properties and its layers, each with an optional class; tile layers
 * have a width, a height (absent for infinite maps) and the tiles placed on
 * them, each tile with its global id and the tileset data of that tile.
 *
 * TMX parsing itself is not modelled; a map is whatever the decoder returns.
 */
module Tiled {
  import opened Wrappers

  newtype u32 = x: int | 0 <= x < 0x1_0000_0000

  datatype PropertyValue = StringValue(s: string) | OtherValue

  /** The tileset's data for one tile: its class (`user_type`). */
  datatype TileData = TileData(userType: Option<string>)

  /** A tile placed on a layer: its id (a `u32`) and, when the tileset has it, the tile's data. */
  datatype LayerTile = LayerTile(id: u32, data: Option<TileData>)

  datatype LayerData =
    | TileLayer(width: Option<u32>, height: Option<u32>, tiles: map<(int, int), LayerTile>)
    | OtherLayer

  datatype Layer = Layer(userType: Option<string>, data: LayerData)

  datatype TileMap = TileMap(properties: map<string, PropertyValue>, layers: seq<Layer>)

  /** A map property read as a string: a string value, or `""` when it is absent or not a string. */
  function StringProperty(m: TileMap, key: string): string {
    if key in m.properties && m.properties[key].StringValue? then m.properties[key].s else ""
  }

  /** `Option::unwrap_or_default` on a class name. */
  function ClassOf(userType: Option<string>): string {
    userType.GetOr("")
  }

  /** `n as i32` for a `u32` value: the two's-complement reinterpretation. */
  function AsI32(n: u32): (r: int)
    ensures n < 0x8000_0000 ==> r == n as int
    ensures n >= 0x8000_0000 ==> r < 0
  {
    if n < 0x8000_0000 then n as int else n as int - 0x1_0000_0000
  }

  /** `n as u16` for a `u32` tile id: the low 16 bits. */
  function AsU16(n: u32): (r: nat)
    ensures r < 0x1_0000
    ensures n < 0x1_0000 ==> r == n as int
  {
    n as int % 0x1_0000
  }
}
