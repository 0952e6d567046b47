/** Words shared by the backtest and by paper execution. */
module Trading {

  datatype Side = Buy | Sell

  const SUPPORTED_SYMBOL := "SPY"
}
