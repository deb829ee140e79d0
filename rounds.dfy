/** The lottery round record as `getRound` returns it, shared by the round cards and the ticket list. */
module Rounds {

  /** (name, winningNumber, drawTime in seconds, drawn, ticketCount, winnerCount). */
  datatype Round = Round(name: string, winningNumber: nat, drawTime: nat, drawn: bool, ticketCount: nat, winnerCount: nat)

  /** The tuple MyTickets substitutes while a round's data is missing (MyTickets.tsx line 27). */
  const MissingRound: Round := Round("Unknown", 0, 0, false, 0, 0)
}
