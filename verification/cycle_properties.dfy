/** What one monitor cycle guarantees, stated case by case against the
    rules of redalert.py lines 105-149. */
module CycleProperties {
  import opened Options
  import opened Whitespace
  import opened Monitor
  import Notification

  /** A blank feed publishes "No active alerts" on the status topic and
      nothing else, and records nothing. */
  lemma BlankFeed(cfg: Config, seen: set<int>, text: string, parse: string -> Parsed)
    requires AllSpace(text)
    ensures Step(cfg, seen, text, parse) == Outcome(seen, [Publish(cfg.topic + "/status", Text("No active alerts"))])
  {
  }

  /** A feed that does not decode does nothing at all. */
  lemma MalformedFeed(cfg: Config, seen: set<int>, text: string, parse: string -> Parsed)
    requires !AllSpace(text) && parse(Strip(text)) == Malformed
    ensures Step(cfg, seen, text, parse) == Outcome(seen, [])
  {
  }

  /** An alert that does not name the watched region (when one is set)
      does nothing, debug mode or not. */
  lemma RegionFilter(cfg: Config, seen: set<int>, text: string, parse: string -> Parsed, a: Alert)
    requires !AllSpace(text) && parse(Strip(text)) == Parsed(a)
    requires cfg.region != "*" && cfg.region !in a.data
    ensures Step(cfg, seen, text, parse) == Outcome(seen, [])
  {
  }

  /** Outside debug mode an id already dispatched is never dispatched again. */
  lemma Dedup(cfg: Config, seen: set<int>, text: string, parse: string -> Parsed, a: Alert)
    requires !cfg.debugMode
    requires !AllSpace(text) && parse(Strip(text)) == Parsed(a)
    requires a.id in seen
    ensures Step(cfg, seen, text, parse) == Outcome(seen, [])
  {
  }

  /** For a new in-region alert outside debug mode, the drill filter alone
      decides: it dispatches exactly when test alerts are included or no
      region entry is one of the two drill markers. */
  lemma TestAlertFilter(cfg: Config, seen: set<int>, text: string, parse: string -> Parsed, a: Alert)
    requires !cfg.debugMode
    requires !AllSpace(text) && parse(Strip(text)) == Parsed(a)
    requires InRegion(cfg.region, a.data) && a.id !in seen
    ensures Step(cfg, seen, text, parse).effects != []
            <==> cfg.includeTestAlerts || ("בדיקה" !in a.data && "בדיקה מחזורית" !in a.data)
  {
  }

  /** Debug mode dispatches every in-region alert, already seen or a
      drill; it does not lift the region filter. */
  lemma DebugOverride(cfg: Config, seen: set<int>, text: string, parse: string -> Parsed, a: Alert)
    requires cfg.debugMode
    requires !AllSpace(text) && parse(Strip(text)) == Parsed(a)
    ensures Step(cfg, seen, text, parse).effects != [] <==> InRegion(cfg.region, a.data)
    ensures InRegion(cfg.region, a.data) ==> Step(cfg, seen, text, parse).seen == seen + {a.id}
  {
  }

  /** A dispatch records the id and performs, in this order: the region
      list on `<topic>/data`, the alert on `<topic>/alerts`, "on" on
      `<topic>/status`, then one notification titled with the alert's
      title and carrying its regions and description, exactly when
      notifiers are configured and the alert has both a title and a
      description. */
  lemma DispatchEffects(cfg: Config, seen: set<int>, text: string, parse: string -> Parsed, a: Alert)
    requires Decide(cfg, seen, text, parse) == Dispatch(a)
    ensures Step(cfg, seen, text, parse).seen == seen + {a.id}
    ensures var e := Step(cfg, seen, text, parse).effects;
            && |e| >= 3
            && e[0] == Publish(cfg.topic + "/data", RegionList(a.data))
            && e[1] == Publish(cfg.topic + "/alerts", AlertRecord(a))
            && e[2] == Publish(cfg.topic + "/status", Text("on"))
            && (|e| == 4 <==> |cfg.notifiers| != 0 && a.title.Some? && a.desc.Some?)
            && (|e| == 4 ==> e[3] == Notify(a.title.value, Notification.Body(a.data, a.desc.value)))
            && |e| <= 4
  {
  }

  /** The three publishes of a dispatch go to three different topics. */
  lemma TopicsDistinct(cfg: Config)
    ensures DataTopic(cfg) != AlertsTopic(cfg)
    ensures DataTopic(cfg) != StatusTopic(cfg)
    ensures AlertsTopic(cfg) != StatusTopic(cfg)
  {
    var n := |cfg.topic|;
    assert DataTopic(cfg)[n + 1] == 'd';
    assert AlertsTopic(cfg)[n + 1] == 'a';
    assert StatusTopic(cfg)[n + 1] == 's';
  }

  /** Only a dispatch or a blank feed has effects: a feed that is filtered,
      suppressed or unreadable publishes nothing at all. */
  lemma SilentUnlessDispatchOrBlank(cfg: Config, seen: set<int>, text: string, parse: string -> Parsed)
    requires !AllSpace(text) && !Decide(cfg, seen, text, parse).Dispatch?
    ensures Step(cfg, seen, text, parse) == Outcome(seen, [])
  {
  }

  /** Outside debug mode, feeding the same non-blank text to two
      consecutive cycles has effects on the first at most. */
  lemma RepeatIsSilent(cfg: Config, seen: set<int>, text: string, parse: string -> Parsed)
    requires !cfg.debugMode && !AllSpace(text)
    ensures var first := Step(cfg, seen, text, parse);
            Step(cfg, first.seen, text, parse) == Outcome(first.seen, [])
  {
  }

}
