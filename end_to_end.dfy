/** What a dashboard shows when it is fed the proxy's own broadcast. */
module EndToEnd {
  import opened JsValues
  import opened Events
  import Dashboard
  import InterceptionProxy

  predicate NoResponses(events: seq<Event>) {
    forall i :: 0 <= i < |events| ==> !events[i].Response?
  }

  predicate AllPending(rows: seq<Dashboard.Row>) {
    forall i :: 0 <= i < |rows| ==> rows[i].status.None? && rows[i].duration.None?
  }

  /** Without `response` messages no row ever gains a status or a duration. */
  lemma {:induction false} StaysPending(rows: seq<Dashboard.Row>, events: seq<Event>)
    requires AllPending(rows) && NoResponses(events)
    ensures AllPending(Dashboard.Replay(rows, events))
    decreases |events|
  {
    if events != [] {
      var next := Dashboard.Apply(rows, events[0]);
      assert AllPending(next);
      assert NoResponses(events[1..]) by {
        forall i | 0 <= i < |events| - 1 ensures !events[1..][i].Response? {
          assert events[1..][i] == events[i + 1];
        }
      }
      StaysPending(next, events[1..]);
    }
  }

  /** Whatever part of the proxy's broadcast a dashboard receives (observers
      that join late miss the beginning), every row it lists shows
      "Pending..." as its status and "-" as its duration. */
  lemma DashboardNeverCompletes(log: seq<Event>, joinedAt: nat)
    requires InterceptionProxy.WellFormedLog(log) && joinedAt <= |log|
    ensures var rows := Dashboard.Replay([], log[joinedAt..]);
      forall i :: 0 <= i < |rows| ==>
        Dashboard.StatusCellOf(rows[i].status) == Dashboard.Pending
        && Dashboard.DurationCell(rows[i].duration) == "-"
  {
    assert NoResponses(log[joinedAt..]) by {
      forall i | 0 <= i < |log| - joinedAt ensures !log[joinedAt..][i].Response? {
        assert log[joinedAt..][i] == log[joinedAt + i];
      }
    }
    StaysPending([], log[joinedAt..]);
  }
}
