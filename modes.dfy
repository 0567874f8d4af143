/**
 * The two assistant modes. The sidebar radio button maps its labels onto
 * these keys (streamlit_app.py, lines 41-54), and every per-mode dictionary
 * of the session store is keyed by them.
 */
module Modes {

  const QUALITATIVE_MODE := "BeerGameQualitative"
  const QUANTITATIVE_MODE := "BeerGameQuantitative"

  /** The mode key the sidebar sets for a radio-button label, if the label is one of the two. */
  function ModeForLabel(modeLabel: string): (mode: string)
    requires modeLabel == "Qualitative Coach" || modeLabel == "Quantitative Coach"
    ensures mode == QUALITATIVE_MODE || mode == QUANTITATIVE_MODE
    ensures (mode == QUANTITATIVE_MODE) == (modeLabel == "Quantitative Coach")
  {
    if modeLabel == "Qualitative Coach" then QUALITATIVE_MODE else QUANTITATIVE_MODE
  }
}
