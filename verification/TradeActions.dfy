/** What a signal asks for; kept apart from the order sides, whose names it repeats. */
module TradeActions {
  datatype TradeAction = BUY | SELL | HOLD | NO_TRADE
}
