/** The runtime manager of apps/world-service as the object it is, one uninterrupted call at a time. */
module MapManager {
  import opened Wrappers
  import opened Commands
  import opened World
  import opened WorldService

  class MapRuntimeManager {
    var runtimes: map<MapId, Channel>
    // messages sent to the coordinator, channels whose tasks were aborted, and the next channel
    var sent: seq<Message>
    var aborted: set<Channel>
    var next: Channel

    /** Between calls the table is what the coordinator will make of the messages sent, and every
        registration finds its map unregistered. */
    ghost predicate Valid()
      reads this
    {
      && Plan(map[], sent) == runtimes && Alternates(map[], sent)
      && (forall m :: m in runtimes ==> runtimes[m] < next && runtimes[m] !in aborted)
      && (forall m, n :: m in runtimes && n in runtimes && m != n ==> runtimes[m] != runtimes[n])
      && (forall ch :: ch in aborted ==> ch < next)
    }

    constructor ()
      ensures Valid() && runtimes == map[] && sent == []
    {
      runtimes, sent, aborted, next := map[], [], {}, 0;
    }

    method Activate(m: MapId) returns (changed: bool)
      requires Valid()
      modifies this
      ensures Valid() && aborted == old(aborted)
      ensures changed <==> m !in old(runtimes)
      ensures changed ==> runtimes == old(runtimes)[m := old(next)] && sent == old(sent) + [RegisterMap(m, old(next))]
      ensures !changed ==> runtimes == old(runtimes) && sent == old(sent)
    {
      if m in runtimes {
        return false;
      }
      PlanSnoc(map[], sent, RegisterMap(m, next));
      AlternatesSnoc(map[], sent, RegisterMap(m, next));
      sent := sent + [RegisterMap(m, next)];
      runtimes := runtimes[m := next];
      next := next + 1;
      return true;
    }

    method Deactivate(m: MapId) returns (changed: bool)
      requires Valid()
      modifies this
      ensures Valid() && next == old(next)
      ensures changed <==> m in old(runtimes)
      ensures runtimes == old(runtimes) - {m}
      ensures changed ==> sent == old(sent) + [UnregisterMap(m)] && aborted == old(aborted) + {old(runtimes)[m]}
      ensures !changed ==> sent == old(sent) && aborted == old(aborted)
    {
      if m !in runtimes {
        assert runtimes - {m} == runtimes;
        return false;
      }
      var channel := runtimes[m];
      runtimes := runtimes - {m};
      PlanSnoc(map[], sent, UnregisterMap(m));
      AlternatesSnoc(map[], sent, UnregisterMap(m));
      sent := sent + [UnregisterMap(m)];
      aborted := aborted + {channel};
      return true;
    }

    /** Unregisters and aborts every map once, in the order the table yields them. */
    method Shutdown() returns (order: seq<MapId>)
      requires Valid()
      modifies this
      ensures Valid() && runtimes == map[] && next == old(next)
      ensures sent == old(sent) + Unregistrations(order)
      ensures aborted == old(aborted) + (set m | m in old(runtimes) :: old(runtimes)[m])
      ensures (forall m :: m in order <==> m in old(runtimes)) && |order| == |old(runtimes)|
    {
      var handles := runtimes;
      runtimes := map[];
      order := UnregisterAll(handles);
    }

    method UnregisterOne(m: MapId, channel: Channel)
      modifies `sent, `aborted
      ensures sent == old(sent) + [UnregisterMap(m)] && aborted == old(aborted) + {channel}
    {
      sent := sent + [UnregisterMap(m)];
      aborted := aborted + {channel};
    }

    method UnregisterAll(taken: map<MapId, Channel>) returns (order: seq<MapId>)
      requires Plan(map[], sent) == taken && Alternates(map[], sent)
      modifies `sent, `aborted
      ensures Plan(map[], sent) == map[] && Alternates(map[], sent)
      ensures sent == old(sent) + Unregistrations(order)
      ensures aborted == old(aborted) + (set m | m in taken :: taken[m])
      ensures (forall m :: m in order <==> m in taken) && |order| == |taken|
    {
      var handles := taken;
      order := [];
      while handles.Keys != {}
        invariant Partly(taken, old(sent), old(aborted), order, handles, sent, aborted)
        decreases |handles|
      {
        ghost var some := SomeMember(handles.Keys);
        assert some in handles;
        var m :| m in handles;
        TakenOut(taken, old(sent), old(aborted), order, handles, sent, aborted, m);
        UnregisterOne(m, handles[m]);
        order, handles := order + [m], handles - {m};
      }
      AllTakenOut(taken, old(sent), old(aborted), order, handles, sent, aborted);
    }
  }

  ghost function Channels(runtimes: map<MapId, Channel>, order: seq<MapId>): set<Channel> {
    set m | m in order && m in runtimes :: runtimes[m]
  }

  function Unregistrations(order: seq<MapId>): (messages: seq<Message>)
    ensures |messages| == |order| && forall i :: 0 <= i < |order| ==> messages[i] == UnregisterMap(order[i])
  {
    seq(|order|, i requires 0 <= i < |order| => UnregisterMap(order[i]))
  }

  /** A shutdown that has dealt with the maps in order and has the handles left. */
  ghost predicate Partly(was: map<MapId, Channel>, sent0: seq<Message>, aborted0: set<Channel>, order: seq<MapId>,
                         handles: map<MapId, Channel>, sent: seq<Message>, aborted: set<Channel>)
  {
    && Planned(sent, handles) && LeftOver(was, order, handles)
    && sent == sent0 + Unregistrations(order) && aborted == aborted0 + Channels(was, order)
  }

  /** The messages sent lead to the handles left. */
  ghost predicate Planned(sent: seq<Message>, handles: map<MapId, Channel>) {
    Plan(map[], sent) == handles && Alternates(map[], sent)
  }

  ghost predicate LeftOver(was: map<MapId, Channel>, order: seq<MapId>, handles: map<MapId, Channel>) {
    && handles == was - (set m | m in order)
    && (forall m :: m in order ==> m in was) && |order| + |handles| == |was|
  }

  lemma PlanWithout(sent: seq<Message>, handles: map<MapId, Channel>, m: MapId)
    requires Planned(sent, handles)
    ensures Planned(sent + [UnregisterMap(m)], handles - {m})
  {
    PlanSnoc(map[], sent, UnregisterMap(m));
    AlternatesSnoc(map[], sent, UnregisterMap(m));
  }

  lemma OneFewer(was: map<MapId, Channel>, order: seq<MapId>, handles: map<MapId, Channel>, m: MapId)
    requires LeftOver(was, order, handles) && m in handles
    ensures LeftOver(was, order + [m], handles - {m}) && |handles - {m}| == |handles| - 1
  {
    assert (handles - {m}).Keys == handles.Keys - {m};
    OrderGrows(was, order, m);
  }

  lemma TakenOut(was: map<MapId, Channel>, sent0: seq<Message>, aborted0: set<Channel>, order: seq<MapId>,
                 handles: map<MapId, Channel>, sent: seq<Message>, aborted: set<Channel>, m: MapId)
    requires Partly(was, sent0, aborted0, order, handles, sent, aborted) && m in handles
    ensures |handles - {m}| == |handles| - 1
    ensures Partly(was, sent0, aborted0, order + [m], handles - {m}, sent + [UnregisterMap(m)], aborted + {handles[m]})
  {
    PlanWithout(sent, handles, m);
    OneFewer(was, order, handles, m);
    OrderGrows(was, order, m);
    Associative(sent0, Unregistrations(order), [UnregisterMap(m)]);
  }

  lemma OrderGrows(was: map<MapId, Channel>, order: seq<MapId>, m: MapId)
    requires m in was
    ensures Channels(was, order + [m]) == Channels(was, order) + {was[m]}
    ensures Unregistrations(order + [m]) == Unregistrations(order) + [UnregisterMap(m)]
    ensures (set n | n in order + [m]) == (set n | n in order) + {m}
  {
  }

  lemma AllTakenOut(was: map<MapId, Channel>, sent0: seq<Message>, aborted0: set<Channel>, order: seq<MapId>,
                    handles: map<MapId, Channel>, sent: seq<Message>, aborted: set<Channel>)
    requires Partly(was, sent0, aborted0, order, handles, sent, aborted) && handles.Keys == {}
    ensures Plan(map[], sent) == map[] && Alternates(map[], sent)
    ensures sent == sent0 + Unregistrations(order) && aborted == aborted0 + (set m | m in was :: was[m])
    ensures (forall m :: m in order <==> m in was) && |order| == |was|
  {
    assert handles == map[];
    forall m | m in was
      ensures m in order
    {
      assert m !in handles;
    }
    assert Channels(was, order) == set m | m in was :: was[m];
  }
}
