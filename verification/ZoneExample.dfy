/** Three speakers and the zone that they form, for the runs that show how things go wrong. */
module ZoneExample {
  import opened Store
  import opened Fleet
  import opened ZoneSpec
  import opened ZoneRuns

  const TRIO := ZoneConfig("1", "den", "a", ["a", "b", "c"])

  const WITHOUT_ZONES := State({"a", "b", "c"}, {}, {}, map[])
  const WITH_TRIO := State({"a", "b", "c"}, {Edge("a", "b"), Edge("a", "c")}, {"a"}, map["1" := TRIO])

  lemma CreateTrio()
    ensures Next(WITHOUT_ZONES, Create("1", "den", ["a", "b", "c"]), WITH_TRIO)
  {
    var ids: seq<NodeId> := ["a", "b", "c"];
    ReachedIs(ids, WITHOUT_ZONES.live, "a", 3);
    assert ids[..3] == ids && SetOf(ids) == {"a", "b", "c"};
    assert Linked({}, WITHOUT_ZONES.live, "a", {"a", "b", "c"}) == WITH_TRIO.fwd;
  }

  lemma TwoSteps(states: seq<State>, events: seq<Event>)
    requires |states| == 3 && |events| == 2 && Initial(states[0])
    requires Next(states[0], events[0], states[1]) && Next(states[1], events[1], states[2])
    ensures IsExecution(states, events)
  {
  }
}
