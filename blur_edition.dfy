/**
 * Paywall-Lite SDK v0.1, the blur edition (sdk.js). The content is blurred as
 * soon as the page is ready and unblurred when access is granted; a denied
 * visitor sees a paywall that may lead to an email regwall.
 */
module BlurEdition {
  import opened Classifier
  import opened Meter
  import opened Gateway
  import opened Access

  /** The script-tag defaults of this revision (sdk.js:4-8). */
  const Defaults: Config := Config("default-site", 3, false, "This content is protected.", "https://api.paywall-lite.com")

  /** One page load of the blur edition: the content element, the prompt on
    * screen, the meter in local storage and the requests sent so far. */
  class BlurPage {
    const cfg: Config
    const store: MeterStore
    var phase: Phase
    var blurred: bool
    var content: Content
    var overlay: Overlay
    var sent: seq<Request>

    /** Bots never see a prompt or a blur, a granted visitor sees the content
      * in clear, and a prompt is only ever shown over blurred content. */
    ghost predicate Valid()
      reads this
    {
      match phase
      case Loading => !blurred && content == Original && overlay == NoOverlay
      case Decided(BotGranted) => content == BotNotice(cfg.botText) && !blurred && overlay == NoOverlay
      case Decided(Granted) => content == Original && !blurred && overlay == NoOverlay
      case Decided(Denied) =>
        content == Original && (overlay != NoOverlay ==> blurred) && (overlay == Regwall ==> cfg.showRegwall)
      // The pass threw after blurring: the content stays blurred with no prompt.
      case Aborted => content == Original && blurred && overlay == NoOverlay
    }

    constructor (cfg: Config, store: MeterStore)
      ensures Valid() && phase == Loading && sent == []
      ensures this.cfg == cfg && this.store == store
    {
      this.cfg := cfg;
      this.store := store;
      phase := Loading;
      blurred := false;
      content := Original;
      overlay := NoOverlay;
      sent := [];
    }

    /** initPaywall: blur, then either show the bot notice, grant a metered
      * view, or show the paywall. `response` is how the quota check ends if
      * it is made. The check is serverCheck as written: when it rejects, the
      * awaiting pass throws and stops with the content still blurred. */
    method InitPaywall(ua: string, path: string, response: Response)
      requires Valid() && phase == Loading
      modifies this, store
      ensures Valid()
      ensures phase == Aborted <==>
        !IsBotUA(ua) && old(store.Load(cfg.site)) < cfg.freeViews && ServerCheckAsWritten(response) == Rejected
      ensures phase == Aborted ==>
        && blurred && overlay == NoOverlay && content == Original
        && store.entries == old(store.entries)
        && sent == old(sent) + [MeterCheck(cfg.site, path)]
      ensures phase != Aborted ==>
        var d := Decide(IsBotUA(ua), old(store.Load(cfg.site)), cfg.freeViews, ServerCheck(response));
        && phase == Decided(d.outcome)
        && store.entries == (if d.outcome == Granted then SaveMeter(old(store.entries), cfg.site, d.newCount)
                             else old(store.entries))
        && sent == old(sent) + (if d.consulted then [MeterCheck(cfg.site, path)] else [])
                             + (if d.outcome == Granted then [MeterHit(cfg.site, path)] else [])
        && (blurred <==> d.outcome == Denied)
        && overlay == (if d.outcome == Denied then Paywall else NoOverlay)
        && content == (if d.outcome == BotGranted then BotNotice(cfg.botText) else Original)
    {
      blurred := true;
      if IsBotUA(ua) {
        content := BotNotice(cfg.botText);
        blurred := false;
        phase := Decided(BotGranted);
        return;
      }
      var count := store.Load(cfg.site);
      if count < cfg.freeViews {
        sent := sent + [MeterCheck(cfg.site, path)];
        match ServerCheckAsWritten(response)
        case Rejected =>
          phase := Aborted;
          return;
        case Resolved(verdict) =>
          if verdict == Allow {
            count := count + 1;
            store.Save(cfg.site, count);
            sent := sent + [MeterHit(cfg.site, path)];
            blurred := false;
            phase := Decided(Granted);
            return;
          }
      }
      overlay := Paywall;
      phase := Decided(Denied);
    }

    /** The paywall's "Continue with Email" button, present only when the
      * regwall is offered: the paywall is replaced by the regwall. */
    method OpenRegwall()
      requires Valid() && overlay == Paywall && cfg.showRegwall
      modifies this
      ensures Valid() && overlay == Regwall
      ensures phase == old(phase) && blurred == old(blurred) && content == old(content) && sent == old(sent)
    {
      overlay := Regwall;
    }

    /** The regwall's "Continue" button. An empty email changes nothing. Any
      * other email is sent for registration; only when that request does not
      * throw is the meter reset to 0, the regwall removed and the blur lifted. */
    method Submit(email: string, path: string, registerThrew: bool)
      requires Valid() && overlay == Regwall
      modifies this, store
      ensures Valid() && phase == old(phase) && content == old(content)
      ensures email == "" ==>
        overlay == Regwall && blurred == old(blurred) && sent == old(sent) && store.entries == old(store.entries)
      ensures email != "" ==> sent == old(sent) + [Register(cfg.site, email, path)]
      ensures email != "" && !registerThrew ==>
        store.entries == SaveMeter(old(store.entries), cfg.site, 0) && overlay == NoOverlay && !blurred
      ensures email != "" && registerThrew ==>
        store.entries == old(store.entries) && overlay == Regwall && blurred == old(blurred)
    {
      if email == "" {
        return;
      }
      sent := sent + [Register(cfg.site, email, path)];
      if registerThrew {
        return;
      }
      store.Save(cfg.site, 0);
      overlay := NoOverlay;
      blurred := false;
    }

    /** The regwall's "Cancel" link: the prompt goes, the content stays blurred. */
    method Cancel()
      requires Valid() && overlay == Regwall
      modifies this
      ensures Valid() && overlay == NoOverlay && blurred
      ensures phase == old(phase) && content == old(content) && sent == old(sent)
    {
      overlay := NoOverlay;
    }
  }

  /** Default settings (quota 3), stored count 2, a human visitor, quota
    * check unreachable: granted, and the stored count becomes 3. */
  method ScenarioCheckUnreachable()
  {
    var store := new MeterStore(map[Key(Defaults.site) := Int(2)]);
    var page := new BlurPage(Defaults, store);
    page.InitPaywall("", "/a", Threw);
    assert page.phase == Decided(Granted) && store.Load("default-site") == 3 && !page.blurred;
  }

  /** A 2xx reply that is not JSON: the pass stops, the content stays blurred
    * with no paywall, and the meter keeps its count. */
  method ScenarioMalformedReply()
  {
    var store := new MeterStore(map[Key(Defaults.site) := Int(0)]);
    var page := new BlurPage(Defaults, store);
    page.InitPaywall("", "/a", Ok(Malformed));
    assert page.phase == Aborted && page.blurred && page.overlay == NoOverlay;
    assert store.Load("default-site") == 0;
  }

  /** Stored count 3: denied without any request. On the regwall an empty
    * email and a failed registration keep the wall; a later one lifts it. */
  method ScenarioRegwall()
  {
    var store := new MeterStore(map[Key("news") := Int(3)]);
    var page := new BlurPage(Config("news", 3, true, "For robots.", "https://api.example"), store);
    page.InitPaywall("", "/b", Threw);
    assert page.phase == Decided(Denied) && page.sent == [] && page.overlay == Paywall;
    page.OpenRegwall();
    page.Submit("", "/b", false);
    assert page.overlay == Regwall && store.Load("news") == 3;
    page.Submit("a@b.c", "/b", true);
    assert page.overlay == Regwall && store.Load("news") == 3;
    page.Submit("a@b.c", "/b", false);
    assert page.overlay == NoOverlay && !page.blurred && store.Load("news") == 0;
  }

  /** An AI crawler is never metered, whatever its count. */
  method ScenarioCrawler()
  {
    var store := new MeterStore(map[Key("news") := Int(7)]);
    var page := new BlurPage(Config("news", 0, false, "For robots.", ""), store);
    GptBotUserAgentIsBot();
    page.InitPaywall("Mozilla/5.0 (compatible; GPTBot/1.0)", "/c", NotOk);
    assert page.phase == Decided(BotGranted) && store.Load("news") == 7 && page.sent == [];
  }
}
