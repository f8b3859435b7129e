/**
 * The access decision that initPaywall makes once per page load, shared by
 * both revisions, and the page-level values both revisions render.
 */
module Access {
  import opened Gateway

  /** The widget settings read from the script tag. */
  datatype Config = Config(
    site: string,
    freeViews: nat,
    showRegwall: bool,
    botText: string,
    api: string)

  datatype Outcome = BotGranted | Granted | Denied

  /** The result of one decision pass: the outcome, whether the quota check
    * was consulted, and the visit count the pass leaves in the meter. */
  datatype Decision = Decision(outcome: Outcome, consulted: bool, newCount: int)

  /** What the content element shows. */
  datatype Content = Original | BotNotice(text: string)

  /** The blocking prompt on screen, if any. */
  datatype Overlay = NoOverlay | Paywall | Regwall

  /** Before DOMContentLoaded, after the one decision pass of the page load,
    * or stopped part-way because the pass threw. */
  datatype Phase = Loading | Decided(outcome: Outcome) | Aborted

  /** The decision pass of initPaywall for a visitor classified `isBot`, whose
    * loaded meter is `count`, under a quota of `freeViews`; `verdict` is what
    * the quota check answers if it is consulted. */
  function Decide(isBot: bool, count: int, freeViews: nat, verdict: Verdict): (d: Decision)
    // Bots are recognised before the meter is looked at.
    ensures d.outcome == BotGranted <==> isBot
    // The quota check is only asked while the visitor is within quota.
    ensures d.consulted <==> !isBot && count < freeViews
    // Access is granted exactly when the check was asked and allowed.
    ensures d.outcome == Granted <==> d.consulted && verdict == Allow
    ensures d.outcome == Denied <==> !isBot && (count >= freeViews || verdict == Deny)
    // Only a grant moves the meter, by exactly one, and never past the quota.
    ensures d.outcome == Granted ==> d.newCount == count + 1 && d.newCount <= freeViews
    ensures d.outcome != Granted ==> d.newCount == count
  {
    if isBot then Decision(BotGranted, false, count)
    else if count < freeViews then
      match verdict
      case Allow => Decision(Granted, true, count + 1)
      case Deny => Decision(Denied, true, count)
    else Decision(Denied, false, count)
  }

  /** The backend can only tighten the local allowance: whatever it answers,
    * a visitor it lets through would also be let through by an allowing
    * check, and no answer grants a visitor the local meter denies. */
  lemma BackendOnlyTightens(count: int, freeViews: nat, verdict: Verdict)
    ensures Decide(false, count, freeViews, verdict).outcome == Granted ==>
              Decide(false, count, freeViews, Allow).outcome == Granted
    ensures count >= freeViews ==> Decide(false, count, freeViews, verdict).outcome == Denied
  {
  }
}
