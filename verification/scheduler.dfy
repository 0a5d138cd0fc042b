/** Successive monitor cycles (redalert.py line 128 re-arms `monitor`
    every second). The model takes cycles one at a time, each seeing the
    dispatched ids the previous one left; only that set links them.
    Cycles that overlap in the program are not modelled. */
module Scheduler {
  import opened Monitor

  /** The cycles for `feeds`, one feed text per cycle, from `seen` on.
      The set at the end is the starting set plus exactly the ids the
      cycles published on the alerts topic, so it never shrinks. Outside
      debug mode each id is published at most once over the whole run, and
      never if it was in the starting set. */
  function Run(cfg: Config, seen: set<int>, feeds: seq<string>, parse: string -> Parsed): (o: Outcome)
    ensures seen <= o.seen
    ensures forall id :: id in o.seen <==> id in seen || Dispatches(o.effects, AlertsTopic(cfg), id) > 0
    ensures !cfg.debugMode ==> forall id :: Dispatches(o.effects, AlertsTopic(cfg), id) <= if id in seen then 0 else 1
    decreases |feeds|
  {
    if |feeds| == 0 then Outcome(seen, [])
    else
      var first := Step(cfg, seen, feeds[0], parse);
      var rest := Run(cfg, first.seen, feeds[1..], parse);
      var o := Outcome(rest.seen, first.effects + rest.effects);
      assert forall id :: Dispatches(o.effects, AlertsTopic(cfg), id) == Dispatches(first.effects, AlertsTopic(cfg), id) + Dispatches(rest.effects, AlertsTopic(cfg), id)
                          && Dispatches(first.effects, AlertsTopic(cfg), id) == StepCount(cfg, seen, feeds[0], parse, id) by {
        forall id
          ensures Dispatches(o.effects, AlertsTopic(cfg), id) == Dispatches(first.effects, AlertsTopic(cfg), id) + Dispatches(rest.effects, AlertsTopic(cfg), id)
          ensures Dispatches(first.effects, AlertsTopic(cfg), id) == StepCount(cfg, seen, feeds[0], parse, id)
        {
          DispatchesAppend(first.effects, rest.effects, AlertsTopic(cfg), id);
          StepDispatches(cfg, seen, feeds[0], parse, id);
        }
      }
      o
  }

  /** What `StepDispatches` counts: one for the dispatched alert's id, none otherwise. */
  function StepCount(cfg: Config, seen: set<int>, text: string, parse: string -> Parsed, id: int): nat {
    var d := Decide(cfg, seen, text, parse);
    if d.Dispatch? && d.alert.id == id then 1 else 0
  }

  /** The process from startup on: the set starts as `{0}`. */
  function RunFromStart(cfg: Config, feeds: seq<string>, parse: string -> Parsed): (o: Outcome)
    ensures 0 in o.seen
  {
    Run(cfg, InitialSeen, feeds, parse)
  }

  /** How many times `effects` publish an alert with this id on `topic`. */
  function Dispatches(effects: seq<Effect>, topic: string, id: int): nat {
    if |effects| == 0 then 0
    else (if PublishesAlert(effects[0], topic, id) then 1 else 0) + Dispatches(effects[1..], topic, id)
  }

  predicate PublishesAlert(e: Effect, topic: string, id: int) {
    e.Publish? && e.topic == topic && e.payload.AlertRecord? && e.payload.alert.id == id
  }

  lemma {:induction false} DispatchesAppend(a: seq<Effect>, b: seq<Effect>, topic: string, id: int)
    ensures Dispatches(a + b, topic, id) == Dispatches(a, topic, id) + Dispatches(b, topic, id)
    decreases |a|
  {
    if |a| == 0 {
      assert a + b == b;
    } else {
      assert (a + b)[0] == a[0];
      assert (a + b)[1..] == a[1..] + b;
      DispatchesAppend(a[1..], b, topic, id);
    }
  }

  /** One cycle publishes an alert with a given id on the alerts topic
      once if it dispatches that alert, and never otherwise. */
  lemma StepDispatches(cfg: Config, seen: set<int>, text: string, parse: string -> Parsed, id: int)
    ensures Dispatches(Step(cfg, seen, text, parse).effects, AlertsTopic(cfg), id) == StepCount(cfg, seen, text, parse, id)
  {
    var t := AlertsTopic(cfg);
    var d := Decide(cfg, seen, text, parse);
    var e := Step(cfg, seen, text, parse).effects;
    if d.Dispatch? {
      var a := d.alert;
      var publishes := [e[0], e[1], e[2]];
      assert e == publishes + AlertNotice(cfg, a);
      DispatchesAppend(publishes, AlertNotice(cfg, a), t, id);
      assert publishes[1..] == [e[1], e[2]];
      assert [e[1], e[2]][1..] == [e[2]];
      assert [e[2]][1..] == [];
      assert !PublishesAlert(e[0], t, id) && !PublishesAlert(e[2], t, id);
      assert PublishesAlert(e[1], t, id) <==> a.id == id;
      assert Dispatches([e[2]], t, id) == 0;
      assert Dispatches(publishes, t, id) == if a.id == id then 1 else 0;
      var notice := AlertNotice(cfg, a);
      assert Dispatches(notice, t, id) == 0 by {
        if notice != [] {
          assert notice[1..] == [];
          assert !PublishesAlert(notice[0], t, id);
        }
      }
    }
  }

  /** Id 0 is in the set from startup, so outside debug mode an alert
      with id 0 is never published, whatever the feeds. */
  lemma IdZeroNeverDispatched(cfg: Config, feeds: seq<string>, parse: string -> Parsed)
    requires !cfg.debugMode
    ensures Dispatches(RunFromStart(cfg, feeds, parse).effects, AlertsTopic(cfg), 0) == 0
  {
  }

}
