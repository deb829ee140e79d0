/**
 * The round cards of src/components/ActiveRounds.tsx.
 *
 * A `RoundCard` derives everything it shows from the round record and the
 * current time: whether the round is active, the badge, the winning number,
 * the winners line, the buy button, and the name handed to the purchase
 * dialog. It also toggles `showBuyDialog`. `ActiveRounds` keeps the list of
 * round ids, which it rebuilds whenever the ledger reports a nonzero count.
 */
module ActiveRounds {

  import opened Wrappers
  import opened Ecma
  import opened Rounds

  /** The largest time value a Date holds, in milliseconds: TimeClip (section 21.4.1.31 of ECMA-262)
      turns anything beyond it into an invalid date. */
  const MaxTimeValue: int := 8640000000000000

  /** `new Date(Number(drawTime) * 1000).getTime()` (line 36): the deadline in milliseconds, or NaN. */
  function Deadline(drawTime: nat): JsNumber {
    if drawTime * 1000 <= MaxTimeValue then Int(drawTime * 1000) else NaN
  }

  /** isActive (line 37): not drawn, and the deadline is later than `now`. NaN compares false. */
  predicate IsActive(r: Round, now: int) {
    !r.drawn && match Deadline(r.drawTime) case NaN => false case Int(t) => t > now
  }

  /** The round is active exactly when it is not drawn and its draw time, in milliseconds, lies after
      `now` and within a Date's range. */
  lemma ActiveExactly(r: Round, now: int)
    ensures IsActive(r, now) <==> !r.drawn && now < r.drawTime * 1000 <= MaxTimeValue
  {
  }

  /** A drawn round is never active. */
  lemma DrawnNeverActive(r: Round, now: int)
    requires r.drawn
    ensures !IsActive(r, now)
  {
  }

  /** A round that is no longer active stays inactive as time moves on. */
  lemma InactiveStaysInactive(r: Round, now: int, later: int)
    requires now <= later && !IsActive(r, now)
    ensures !IsActive(r, later)
  {
  }

  /** A draw time too far ahead for a Date makes the round inactive at every time. */
  lemma FarFutureNeverActive(r: Round, now: int)
    requires r.drawTime * 1000 > MaxTimeValue
    ensures !IsActive(r, now)
  {
  }

  /** The badge (line 52): exactly one of three texts, 'Drawn' first. */
  function Badge(r: Round, now: int): (b: string)
    ensures b == "Drawn" <==> r.drawn
    ensures b == "Active" <==> IsActive(r, now)
    ensures b == "Closed" <==> !r.drawn && !IsActive(r, now)
  {
    if r.drawn then "Drawn" else if IsActive(r, now) then "Active" else "Closed"
  }

  /** The buy button's label (line 96). */
  function BuyLabel(r: Round, now: int): (text: string)
    ensures text == "Round Closed" <==> r.drawn
    ensures text == "Buy Ticket" <==> IsActive(r, now)
    ensures text == "Expired" <==> !r.drawn && !IsActive(r, now)
  {
    if r.drawn then "Round Closed" else if IsActive(r, now) then "Buy Ticket" else "Expired"
  }

  /** The winning number (line 63): shown in decimal once the round is drawn, unless it is 0. */
  function WinningNumberText(r: Round): (s: string)
    ensures s == "???" <==> !r.drawn || r.winningNumber == 0
    ensures s != "???" ==> ParseInt(s) == Int(r.winningNumber)
  {
    if r.drawn && r.winningNumber != 0 then
      ParseIntDecimalString(r.winningNumber);
      var s := DecimalString(r.winningNumber);
      assert s[0] != '?';
      s
    else "???"
  }

  /** The winner count (lines 83-88) is shown for drawn rounds only. */
  function WinnersShown(r: Round): (w: Option<nat>)
    ensures w.Some? <==> r.drawn
    ensures w.Some? ==> w.value == r.winnerCount
  {
    if r.drawn then Some(r.winnerCount) else None
  }

  /** `name || \`Round #${roundId}\`` (lines 44 and 105). */
  function DisplayName(name: string, roundId: nat): (s: string)
    ensures s != ""
    ensures name != "" ==> s == name
    ensures name == "" ==> |s| > 7 && s[..7] == "Round #" && ParseInt(s[7..]) == Int(roundId)
  {
    if name != "" then name
    else
      ParseIntDecimalString(roundId);
      var s := "Round #" + DecimalString(roundId);
      assert s[7..] == DecimalString(roundId);
      s
  }

  /** What a card shows. */
  datatype CardView =
    | Loading
    | Card(title: string, badge: string, badgeHighlighted: bool, winningNumber: string, participants: nat,
           winners: Option<nat>, buyDisabled: bool, buyLabel: string,
           dialogOpen: bool, dialogRoundId: nat, dialogRoundName: string)

  /** RoundCard (lines 9-109) with a given read of `getRound` and time. */
  function CardViewOf(roundId: nat, roundData: Option<Round>, now: int, showBuyDialog: bool): (v: CardView)
    ensures v.Loading? <==> roundData.None?
    ensures v.Card? ==> v.dialogRoundName == v.title && v.dialogRoundId == roundId && v.dialogOpen == showBuyDialog
    ensures v.Card? ==> (v.buyDisabled <==> !IsActive(roundData.value, now)) && v.badgeHighlighted == !v.buyDisabled
    ensures v.Card? ==> (v.buyLabel == "Buy Ticket" <==> !v.buyDisabled)
  {
    match roundData
    case None => Loading
    case Some(r) =>
      var title := DisplayName(r.name, roundId);
      var active := IsActive(r, now);
      Card(title, Badge(r, now), active, WinningNumberText(r), r.ticketCount, WinnersShown(r),
           !active, BuyLabel(r, now), showBuyDialog, roundId, title)
  }

  /** One card's own state: whether its purchase dialog is open. */
  class RoundCard {
    const roundId: nat
    var showBuyDialog: bool

    constructor (roundId: nat)
      ensures this.roundId == roundId && !showBuyDialog
    {
      this.roundId := roundId;
      showBuyDialog := false;
    }

    function View(roundData: Option<Round>, now: int): CardView
      reads this
    {
      CardViewOf(roundId, roundData, now, showBuyDialog)
    }

    /** The buy button (line 94): a disabled button takes no clicks, so only an active round opens the dialog. */
    method ClickBuy(roundData: Option<Round>, now: int)
      modifies this
      ensures showBuyDialog == (old(showBuyDialog) || (roundData.Some? && IsActive(roundData.value, now)))
      ensures roundData.Some? ==>
        View(roundData, now).dialogOpen == (old(showBuyDialog) || !old(View(roundData, now)).buyDisabled)
    {
      if roundData.Some? && IsActive(roundData.value, now) {
        showBuyDialog := true;
      }
    }

    /** The dialog's onClose (line 103). */
    method CloseBuyDialog()
      modifies this
      ensures !showBuyDialog
    {
      showBuyDialog := false;
    }
  }

  /** `Array.from({ length: count }, (_, i) => i)` (line 118). */
  function RoundIds(count: nat): (ids: seq<nat>)
    ensures |ids| == count
    ensures forall i :: 0 <= i < count ==> ids[i] == i
  {
    if count == 0 then [] else RoundIds(count - 1) + [count - 1]
  }

  /** The list of the ActiveRounds section (lines 111-121). */
  class RoundList {
    var rounds: seq<nat>

    constructor ()
      ensures rounds == []
    {
      rounds := [];
    }

    /** The effect on `totalRounds`: a truthy count replaces the list with 0..count-1; a missing count
        or 0 leaves it as it was. */
    method OnTotalRounds(totalRounds: Option<nat>)
      modifies this
      ensures totalRounds.Some? && totalRounds.value != 0 ==> rounds == RoundIds(totalRounds.value)
      ensures totalRounds.None? || totalRounds.value == 0 ==> rounds == old(rounds)
      ensures ShowsNoRounds() <==> old(ShowsNoRounds()) && (totalRounds.None? || totalRounds.value == 0)
    {
      if totalRounds.Some? && totalRounds.value != 0 {
        rounds := RoundIds(totalRounds.value);
      }
    }

    /** Whether the section shows its "No active rounds yet" message (line 133). */
    predicate ShowsNoRounds()
      reads this
    {
      |rounds| == 0
    }
  }
}
