/** The visual variants a badge or a colour class can take in the dashboard's UI kit.
    Only the names are modelled; the styling behind them is not. */
module Badge {
  datatype Variant = Default | Secondary | Destructive | Outline | Success | Warning | Info
}
