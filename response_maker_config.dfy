/** The configuration record of the response maker and its default values. */
module ResponseMakerConfig {
  import opened Common

  datatype Config = Config(
    verbosity: int,
    inDebugMode: bool,
    inBatchMode: bool,
    inComplexMode: bool,
    inStandaloneMode: bool,
    moduleName: string,
    inTrueFileName: string,
    inRecoFileName: string,
    inTrueNodeName: string,
    inRecoNodeName: string,
    inTrueTreeName: string,
    inRecoTreeName: string,
    outFileName: string,
    fracCstMatchRange: Pair<real>,
    jetMatchQtRange: Pair<real>,
    jetMatchDrRange: Pair<real>)

  /** A default-constructed configuration. */
  function DefaultConfig(): Config {
    Config(0, false, false, false, true, "", "", "", "", "", "", "", "",
           Pair(0.0, 1.0), Pair(0.0, 10.0), Pair(0.0, 10.0))
  }

  /** By default: standalone (not complex) mode, debug and batch off, verbosity 0. */
  lemma DefaultModes()
    ensures DefaultConfig().inStandaloneMode && !DefaultConfig().inComplexMode
    ensures !DefaultConfig().inDebugMode && !DefaultConfig().inBatchMode
    ensures DefaultConfig().verbosity == 0
  {
  }

  /** By default every module, file, node and tree name is the empty string. */
  lemma DefaultNamesEmpty()
    ensures var c := DefaultConfig();
            c.moduleName == "" && c.outFileName == ""
            && c.inTrueFileName == "" && c.inRecoFileName == ""
            && c.inTrueNodeName == "" && c.inRecoNodeName == ""
            && c.inTrueTreeName == "" && c.inRecoTreeName == ""
  {
  }

  /** Default matching windows: constituent fraction (0, 1), jet qT (0, 10), jet dR (0, 10). */
  lemma DefaultMatchRanges()
    ensures DefaultConfig().fracCstMatchRange == Pair(0.0, 1.0)
    ensures DefaultConfig().jetMatchQtRange == Pair(0.0, 10.0)
    ensures DefaultConfig().jetMatchDrRange == Pair(0.0, 10.0)
  {
  }
}
