/**
 * The condenser's module-level settings, gathered into one immutable value that
 * every operation receives instead of reading globals.
 */
module Config {
  import opened Wrappers

  const MaxPadding: int := 60000

  datatype Config = Config(
    padding: int,                          // milliseconds added on both sides of a cue
    filteredChars: string,                 // characters deleted from cue text
    filterParentheses: bool,               // drop cues wrapped in brackets
    outputFormat: string,                  // extension of the produced audio
    subSuffix: string,                     // inserted before the extension of a same-name subtitle
    fixedOutputDir: Option<string>,        // write outputs here instead of next to the input
    fixedOutputDirWithSubfolders: bool,    // folder mode: nest "<folder>_con" in the fixed directory
    outputCondensedSubtitles: bool,        // also write the retimed subtitles
    askWhenMultipleSrt: bool)              // ask which internal subtitle to use

  /** The values the module starts with, before a configuration file is read. */
  function Defaults(): Config
  {
    Config(500, "", false, "", "", None, true, false, false)
  }

  /** The configured padding is clamped into [0, 60000]. */
  function ClampPadding(requested: int): (p: int)
    ensures 0 <= p <= MaxPadding
    ensures 0 <= requested <= MaxPadding ==> p == requested
    ensures forall q :: 0 <= q <= MaxPadding ==> Distance(p, requested) <= Distance(q, requested)
  {
    var p := if requested < 0 then 0 else requested;
    if p > MaxPadding then MaxPadding else p
  }

  function Distance(a: int, b: int): nat
  {
    if a <= b then b - a else a - b
  }

  /**
   * Setting the padding as the configuration loader does: a value in range is
   * kept, a negative one becomes 0 and one above 60000 becomes 60000; nothing
   * else changes.
   */
  function WithPadding(c: Config, requested: int): (c': Config)
    ensures 0 <= c'.padding <= MaxPadding
    ensures 0 <= requested <= MaxPadding ==> c'.padding == requested
    ensures requested < 0 ==> c'.padding == 0
    ensures requested > MaxPadding ==> c'.padding == MaxPadding
    ensures c' == c.(padding := c'.padding)
  {
    c.(padding := ClampPadding(requested))
  }
}
