/**
 This module models the text of the console notification sent after a rejoin
 request: a fixed first line and, when the user asked for it, a second line
 revealing the party passphrase. Colour markup and message queueing are not
 modelled; the message is its list of plain lines.
 */
module Notification {

  /** The fixed first line of every rejoin notification. */
  const RejoinedLine: string := "Auto Party: Last party rejoined."

  /** The label that precedes the party id on the optional second line. */
  const PassphraseLabel: string := "Passphrase: "

  /** The lines of the notification for party `partyId`: it always starts
      with the fixed line, and reveals the passphrase line exactly when
      `showPassphrase` is set. */
  function RejoinMessage(showPassphrase: bool, partyId: string): (lines: seq<string>)
    ensures 1 <= |lines| && lines[0] == RejoinedLine
    ensures (PassphraseLabel + partyId) in lines <==> showPassphrase
    ensures |lines| == (if showPassphrase then 2 else 1)
  {
    if showPassphrase then
      [RejoinedLine, PassphraseLabel + partyId]
    else
      assert (PassphraseLabel + partyId)[0] != RejoinedLine[0];
      [RejoinedLine]
  }
}
