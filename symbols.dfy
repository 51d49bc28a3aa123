/** The glyph the baseline trial shows for each direction, and the direction each glyph names. */
module Symbols {
  import opened Wrappers

  const DirectionSymbols: map<string, string> := map[
    "Forward" := "↑",
    "Backward" := "↓",
    "Left" := "←",
    "Right" := "→",
    "Stop" := "■"
  ]

  /** The glyph of a direction; `None` for a direction the map lacks (the lookup raises). */
  function SymbolFor(direction: string): (symbol: Option<string>)
    ensures symbol.Some? <==> direction in DirectionSymbols
    ensures symbol.Some? ==> DirectionFor(symbol.value) == Some(direction)
  {
    if direction in DirectionSymbols then Some(DirectionSymbols[direction]) else None
  }

  /** Reading a glyph back as the direction it names. */
  const SymbolDirections: map<string, string> := map[
    "↑" := "Forward",
    "↓" := "Backward",
    "←" := "Left",
    "→" := "Right",
    "■" := "Stop"
  ]

  function DirectionFor(symbol: string): Option<string>
  {
    if symbol in SymbolDirections then Some(SymbolDirections[symbol]) else None
  }

  /** Exactly the five directions have a glyph. */
  lemma FiveDirections()
    ensures DirectionSymbols.Keys == {"Forward", "Backward", "Left", "Right", "Stop"}
  {
  }

  /** Different directions show different glyphs. */
  lemma SymbolsDistinct(a: string, b: string)
    requires a in DirectionSymbols && b in DirectionSymbols && a != b
    ensures DirectionSymbols[a] != DirectionSymbols[b]
  {
  }

  /** A glyph names the direction it is shown for, and only that one. */
  lemma SymbolRoundTrip(direction: string, symbol: string)
    ensures SymbolFor(direction) == Some(symbol) <==> DirectionFor(symbol) == Some(direction)
  {
  }
}
