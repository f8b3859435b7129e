/**
 * Paywall-Lite SDK v0.3, the bottom-half fade edition (sdk_fade.js). Content
 * is left untouched until the decision; a denied visitor gets a fade over the
 * lower half of the content and the paywall. The quota check is a stub that
 * always allows, and every way out of the regwall unlocks the content.
 */
module FadeEdition {
  import opened Classifier
  import opened Meter
  import opened Gateway
  import opened Access

  /** The script-tag defaults of this revision (sdk_fade.js:4-8): no backend
    * unless configured. */
  const Defaults: Config := Config("default-site", 3, false, "This content is protected.", "")

  /** One page load of the fade edition. `fades` counts the fade elements
    * attached to the content. */
  class FadePage {
    const cfg: Config
    const store: MeterStore
    var phase: Phase
    var content: Content
    var overlay: Overlay
    var fades: nat
    var sent: seq<Request>

    /** There is never more than one fade; bots and granted visitors never
      * get one; after a denial a prompt is on screen exactly while the fade is. */
    ghost predicate Valid()
      reads this
    {
      fades <= 1 &&
      match phase
      case Loading => content == Original && overlay == NoOverlay && fades == 0
      case Decided(BotGranted) => content == BotNotice(cfg.botText) && overlay == NoOverlay && fades == 0
      case Decided(Granted) => content == Original && overlay == NoOverlay && fades == 0
      case Decided(Denied) =>
        content == Original && (overlay != NoOverlay <==> fades == 1) && (overlay == Regwall ==> cfg.showRegwall)
      // Nothing in this revision's pass can throw.
      case Aborted => false
    }

    constructor (cfg: Config, store: MeterStore)
      ensures Valid() && phase == Loading && sent == []
      ensures this.cfg == cfg && this.store == store
    {
      this.cfg := cfg;
      this.store := store;
      phase := Loading;
      content := Original;
      overlay := NoOverlay;
      fades := 0;
      sent := [];
    }

    /** removeFadeOverlay: detaches the fade element found by id, if there is
      * one (at once; the 600 ms dissolve is not modelled). */
    method RemoveFadeOverlay()
      modifies this`fades
      ensures fades == if old(fades) == 0 then 0 else old(fades) - 1
    {
      if fades > 0 {
        fades := fades - 1;
      }
    }

    /** createFadeOverlay: removes any fade first, then attaches a new one. */
    method CreateFadeOverlay()
      modifies this`fades
      ensures old(fades) <= 1 ==> fades == 1
      ensures fades == (if old(fades) == 0 then 0 else old(fades) - 1) + 1
    {
      RemoveFadeOverlay();
      fades := fades + 1;
    }

    /** initPaywall: show the bot notice, grant a metered view, or fade the
      * content and show the paywall. No request leaves the page. */
    method InitPaywall(ua: string, path: string) returns (outcome: Outcome)
      requires Valid() && phase == Loading
      modifies this, store
      ensures Valid() && phase == Decided(outcome)
      ensures var d := Decide(IsBotUA(ua), old(store.Load(cfg.site)), cfg.freeViews, Allow);
        && outcome == d.outcome
        && store.entries == (if outcome == Granted then SaveMeter(old(store.entries), cfg.site, d.newCount)
                             else old(store.entries))
      ensures !IsBotUA(ua) ==> (outcome == Granted <==> old(store.Load(cfg.site)) < cfg.freeViews)
      ensures sent == old(sent)
      ensures fades == (if outcome == Denied then 1 else 0)
      ensures overlay == (if outcome == Denied then Paywall else NoOverlay)
      ensures content == (if outcome == BotGranted then BotNotice(cfg.botText) else Original)
    {
      if IsBotUA(ua) {
        content := BotNotice(cfg.botText);
        RemoveFadeOverlay();
        phase := Decided(BotGranted);
        return BotGranted;
      }
      var count := store.Load(cfg.site);
      if count < cfg.freeViews {
        // serverCheck() answers { allowed: true } without a request.
        count := count + 1;
        store.Save(cfg.site, count);
        RemoveFadeOverlay();
        phase := Decided(Granted);
        return Granted;
      }
      CreateFadeOverlay();
      overlay := Paywall;
      phase := Decided(Denied);
      return Denied;
    }

    /** The paywall's "Continue with Email" button, present only when the
      * regwall is offered: the paywall is replaced by the regwall, the fade stays. */
    method OpenRegwall()
      requires Valid() && overlay == Paywall && cfg.showRegwall
      modifies this
      ensures Valid() && overlay == Regwall
      ensures phase == old(phase) && fades == old(fades) && content == old(content) && sent == old(sent)
    {
      overlay := Regwall;
    }

    /** The regwall's "Continue" button. An empty email changes nothing. Any
      * other email is sent for registration when a backend is configured,
      * and whether or not that request throws, the meter is reset to 0 and
      * the regwall and the fade are removed. */
    method Submit(email: string, path: string, registerThrew: bool)
      requires Valid() && overlay == Regwall
      modifies this, store
      ensures Valid() && phase == old(phase) && content == old(content)
      ensures email == "" ==>
        overlay == Regwall && fades == old(fades) && sent == old(sent) && store.entries == old(store.entries)
      ensures email != "" ==>
        && sent == old(sent) + (if cfg.api != "" then [Register(cfg.site, email, path)] else [])
        && store.entries == SaveMeter(old(store.entries), cfg.site, 0)
        && overlay == NoOverlay && fades == 0
    {
      if email == "" {
        return;
      }
      if cfg.api != "" {
        // A throwing request is caught and only logged: registerThrew does not matter.
        sent := sent + [Register(cfg.site, email, path)];
      }
      store.Save(cfg.site, 0);
      overlay := NoOverlay;
      RemoveFadeOverlay();
    }

    /** The regwall's "Cancel" link: the regwall and the fade are removed,
      * unlocking the content; the meter is not touched. */
    method Cancel()
      requires Valid() && overlay == Regwall
      modifies this
      ensures Valid() && overlay == NoOverlay && fades == 0
      ensures phase == old(phase) && content == old(content) && sent == old(sent)
    {
      overlay := NoOverlay;
      RemoveFadeOverlay();
    }
  }

  /** Default settings (quota 3), stored count 2, a human visitor: granted,
    * count 3, no fade. */
  method ScenarioWithinQuota()
  {
    var store := new MeterStore(map[Key(Defaults.site) := Int(2)]);
    var page := new FadePage(Defaults, store);
    var outcome := page.InitPaywall("", "/a");
    assert outcome == Granted && store.Load("default-site") == 3 && page.fades == 0;
  }

  /** Stored count 3: one fade and the paywall; cancel unlocks, the meter stays. */
  method ScenarioCancelUnlocks()
  {
    var store := new MeterStore(map[Key("news") := Int(3)]);
    var page := new FadePage(Config("news", 3, true, "For robots.", ""), store);
    var outcome := page.InitPaywall("", "/b");
    assert outcome == Denied && page.fades == 1 && page.overlay == Paywall;
    page.OpenRegwall();
    page.Cancel();
    assert page.fades == 0 && page.overlay == NoOverlay && store.Load("news") == 3;
  }

  /** A failing registration still unlocks and resets the meter; without a
    * backend nothing is sent. */
  method ScenarioRegistrationFailOpen()
  {
    var store := new MeterStore(map[Key("news") := Int(5)]);
    var page := new FadePage(Config("news", 3, true, "For robots.", ""), store);
    var outcome := page.InitPaywall("", "/c");
    page.OpenRegwall();
    page.Submit("a@b.c", "/c", true);
    assert page.fades == 0 && page.sent == [] && store.Load("news") == 0;
  }

  /** Unparsable stored text counts as 0. */
  method ScenarioUnparsableMeter()
  {
    var store := new MeterStore(map[Key("news") := Unparsable]);
    var page := new FadePage(Config("news", 1, false, "For robots.", ""), store);
    var outcome := page.InitPaywall("", "/d");
    assert outcome == Granted && store.Load("news") == 1;
  }
}
