// The live slot feed: the server's change detection over polled snapshots, and the
// browser's merge of what it is told.
module SlotFeed {
  import opened Options
  import opened BookingTables
  import opened BookingStatements
  import opened BookingTransactions
  import opened BookingInvariants
  import opened BookingProofs
  import opened BookingTheorems

  // ---- what a viewer sees of a slot ----

  datatype Ownership = Nobody | Self | Other
  datatype Payload = Payload(id: SlotId, start: int, end: int, status: SlotStatus, version: nat, ownership: Ownership)

  function Visible(t: Tables, viewer: UserId, s: SlotId): Payload
    requires s in t.slots
  {
    var r := t.slots[s];
    var ownership :=
      if r.owner == None then Nobody
      else if r.owner.value in t.appts && t.appts[r.owner.value].user == viewer then Self
      else Other;
    Payload(s, r.start, r.end, r.status, r.version, ownership)
  }

  ghost predicate Holds(t: Tables, a: ApptId, r: SlotRow) {
    a in t.appts && t.appts[a].status != Cancelled && t.appts[a].start <= r.start && r.end <= t.appts[a].end
  }

  // A live appointment owns the slots of its time, and no other.
  lemma HoldsIff(t: Tables, a: ApptId, s: SlotId)
    requires OwnershipInv(t) && s in t.slots
    ensures Holds(t, a, t.slots[s]) <==> t.slots[s].owner == Some(a)
  {
    if a in t.appts && Live(t.appts[a]) {
      var start := t.appts[a].start;
      var s0, s1, s2 :| OwnsExactly(t.slots, a, s0, s1, s2) && Consecutive(t.slots, start, s0, s1, s2);
      assert SlotOk(t.slots[s]) && SlotOk(t.slots[s0]);
      if Holds(t, a, t.slots[s]) {
        GridGap(start, t.slots[s].start);
      }
    }
  }

  // In every state of a run: a viewer is shown the row as it is, as its own exactly when one of its
  // appointments that is not cancelled holds that time, and as somebody else's exactly when
  // somebody else's does.
  lemma VisibleIff(history: seq<Tables>, ops: seq<Op>, i: nat, viewer: UserId, s: SlotId)
    requires Run(history, ops) && i <= |ops| && s in history[i].slots
    ensures var t, p := history[i], Visible(history[i], viewer, s);
            && p.id == s && p.start == t.slots[s].start && p.end == t.slots[s].end
            && p.status == t.slots[s].status && p.version == t.slots[s].version
            && (p.ownership == Self <==> exists a :: Holds(t, a, t.slots[s]) && t.appts[a].user == viewer)
            && (p.ownership == Other <==> exists a :: Holds(t, a, t.slots[s]) && t.appts[a].user != viewer)
            && (p.ownership == Nobody <==> p.status != Booked)
  {
    RunKeepsInv(history, ops, i);
    var t := history[i];
    forall a: ApptId ensures Holds(t, a, t.slots[s]) <==> t.slots[s].owner == Some(a) {
      HoldsIff(t, a, s);
    }
    assert SlotOk(t.slots[s]);
    if t.slots[s].owner.Some? {
      assert Holds(t, t.slots[s].owner.value, t.slots[s]);
    }
  }

  // ---- the server's loop ----

  datatype Key = Key(status: SlotStatus, version: nat)

  function KeyOf(p: Payload): Key {
    Key(p.status, p.version)
  }

  // One round of the loop: the slots of both weeks, and whether a heartbeat is due.
  datatype Round = Round(slots: seq<Payload>, heartbeatDue: bool)

  datatype Body = Ready | Changed(slot: Payload) | Heartbeat
  datatype Frame = Frame(seqNo: nat, body: Body)

  ghost function Polled(rounds: seq<Round>): seq<Payload> {
    if rounds == [] then [] else Polled(rounds[..|rounds| - 1]) + rounds[|rounds| - 1].slots
  }

  // What was last polled of each slot.
  function Last(items: seq<Payload>): map<SlotId, Key> {
    if items == [] then map[] else
      var n := |items| - 1;
      Last(items[..n])[items[n].id := KeyOf(items[n])]
  }

  // The item is news: its slot was polled before, and last with another status or version.
  ghost predicate IsNews(items: seq<Payload>, i: nat)
    requires i < |items|
  {
    items[i].id in Last(items[..i]) && Last(items[..i])[items[i].id] != KeyOf(items[i])
  }

  ghost function News(items: seq<Payload>): seq<Payload> {
    if items == [] then [] else
      var n := |items| - 1;
      News(items[..n]) + if IsNews(items, n) then [items[n]] else []
  }

  function ChangesIn(frames: seq<Frame>): seq<Payload> {
    if frames == [] then [] else
      var n := |frames| - 1;
      ChangesIn(frames[..n]) + if frames[n].body.Changed? then [frames[n].body.slot] else []
  }

  function BeatsIn(frames: seq<Frame>): nat {
    if frames == [] then 0 else
      BeatsIn(frames[..|frames| - 1]) + if frames[|frames| - 1].body.Heartbeat? then 1 else 0
  }

  function BeatsDue(rounds: seq<Round>): nat {
    if rounds == [] then 0 else
      BeatsDue(rounds[..|rounds| - 1]) + if rounds[|rounds| - 1].heartbeatDue then 1 else 0
  }

  ghost predicate Numbered(frames: seq<Frame>) {
    && frames != [] && frames[0].body == Ready
    && (forall i :: 0 <= i < |frames| ==> frames[i].seqNo == i)
    && (forall i :: 1 <= i < |frames| ==> frames[i].body != Ready)
  }

  // The state of the loop after some items and some heartbeats.
  ghost predicate Reported(frames: seq<Frame>, last: map<SlotId, Key>, items: seq<Payload>, beats: nat) {
    Numbered(frames) && last == Last(items) && ChangesIn(frames) == News(items) && BeatsIn(frames) == beats
  }

  // The rounds until the client disconnects.
  method EventStream(rounds: seq<Round>) returns (frames: seq<Frame>)
    ensures Numbered(frames)
    ensures ChangesIn(frames) == News(Polled(rounds)) && BeatsIn(frames) == BeatsDue(rounds)
  {
    var seqNo := 0;
    var last: map<SlotId, Key> := map[];
    frames := [Frame(0, Ready)];
    assert frames[..0] == [];
    for r := 0 to |rounds|
      invariant Reported(frames, last, Polled(rounds[..r]), BeatsDue(rounds[..r])) && seqNo == |frames| - 1
    {
      assert rounds[..r + 1][..r] == rounds[..r];
      frames, last, seqNo := ReportSlots(rounds[r].slots, frames, last, seqNo, Polled(rounds[..r]),
        BeatsDue(rounds[..r]));
      if rounds[r].heartbeatDue {
        seqNo := seqNo + 1;
        OneFrame(frames, Frame(seqNo, Heartbeat));
        frames := frames + [Frame(seqNo, Heartbeat)];
      }
    }
    assert rounds[..|rounds|] == rounds;
  }

  // One round's slots against what was last seen of them.
  method ReportSlots(
    slots: seq<Payload>, sent: seq<Frame>, before: map<SlotId, Key>, number: nat, ghost items: seq<Payload>,
    ghost beats: nat)
    returns (frames: seq<Frame>, last: map<SlotId, Key>, seqNo: nat)
    requires Reported(sent, before, items, beats) && number == |sent| - 1
    ensures Reported(frames, last, items + slots, beats) && seqNo == |frames| - 1
  {
    frames, last, seqNo := sent, before, number;
    Begin(frames, last, items, slots, beats);
    for k := 0 to |slots|
      invariant ReportedUpTo(frames, last, items, slots, k, beats) && seqNo == |frames| - 1
    {
      var slot := slots[k];
      var key := KeyOf(slot);
      OneMore(frames, last, items, slots, k, beats);
      if slot.id !in last {
        last := last[slot.id := key];
        continue;
      }
      if last[slot.id] != key {
        seqNo := seqNo + 1;
        last := last[slot.id := key];
        frames := frames + [Frame(seqNo, Changed(slot))];
      }
    }
    Finish(frames, last, items, slots, beats);
  }

  // The state of the loop inside a round, after k of its slots.
  ghost predicate ReportedUpTo(
    frames: seq<Frame>, last: map<SlotId, Key>, items: seq<Payload>, slots: seq<Payload>, k: nat, beats: nat)
  {
    k <= |slots| && forall polled :: polled == items + slots[..k] ==> Reported(frames, last, polled, beats)
  }

  lemma Begin(frames: seq<Frame>, last: map<SlotId, Key>, items: seq<Payload>, slots: seq<Payload>, beats: nat)
    requires Reported(frames, last, items, beats)
    ensures ReportedUpTo(frames, last, items, slots, 0, beats)
  {
    assert items + slots[..0] == items;
  }

  lemma Finish(frames: seq<Frame>, last: map<SlotId, Key>, items: seq<Payload>, slots: seq<Payload>, beats: nat)
    requires ReportedUpTo(frames, last, items, slots, |slots|, beats)
    ensures Reported(frames, last, items + slots, beats)
  {
    assert slots[..|slots|] == slots;
  }

  lemma OneMore(
    frames: seq<Frame>, last: map<SlotId, Key>, items: seq<Payload>, slots: seq<Payload>, k: nat, beats: nat)
    requires k < |slots| && ReportedUpTo(frames, last, items, slots, k, beats)
    ensures frames != []
    ensures var slot := slots[k];
            var last' := last[slot.id := KeyOf(slot)];
            if slot.id !in last || last[slot.id] == KeyOf(slot)
            then ReportedUpTo(frames, last', items, slots, k + 1, beats) && (slot.id in last ==> last' == last)
            else ReportedUpTo(frames + [Frame(|frames|, Changed(slot))], last', items, slots, k + 1, beats)
  {
    var slot := slots[k];
    assert items + slots[..k + 1] == (items + slots[..k]) + [slot];
    OneReport(frames, last, items + slots[..k], beats, slot);
  }

  lemma OneReport(frames: seq<Frame>, last: map<SlotId, Key>, polled: seq<Payload>, beats: nat, slot: Payload)
    requires Reported(frames, last, polled, beats)
    ensures frames != []
    ensures var last' := last[slot.id := KeyOf(slot)];
            if slot.id !in last || last[slot.id] == KeyOf(slot)
            then Reported(frames, last', polled + [slot], beats) && (slot.id in last ==> last' == last)
            else Reported(frames + [Frame(|frames|, Changed(slot))], last', polled + [slot], beats)
  {
    OneItem(polled, slot);
    OneFrame(frames, Frame(|frames|, Changed(slot)));
  }

  lemma OneItem(items: seq<Payload>, slot: Payload)
    ensures Last(items + [slot]) == Last(items)[slot.id := KeyOf(slot)]
    ensures News(items + [slot]) ==
            if slot.id in Last(items) && Last(items)[slot.id] != KeyOf(slot) then News(items) + [slot] else News(items)
  {
    assert (items + [slot])[..|items|] == items;
  }

  lemma OneFrame(frames: seq<Frame>, f: Frame)
    requires Numbered(frames) && f.seqNo == |frames| && f.body != Ready
    ensures Numbered(frames + [f])
    ensures ChangesIn(frames + [f]) == if f.body.Changed? then ChangesIn(frames) + [f.body.slot] else ChangesIn(frames)
    ensures BeatsIn(frames + [f]) == if f.body.Heartbeat? then BeatsIn(frames) + 1 else BeatsIn(frames)
  {
    var longer := frames + [f];
    assert longer[..|frames|] == frames && longer[|frames|] == f;
    OneNumber(frames, f);
  }

  lemma OneNumber(frames: seq<Frame>, f: Frame)
    requires Numbered(frames) && f.seqNo == |frames| && f.body != Ready
    ensures Numbered(frames + [f])
  {
    forall i | 0 <= i < |frames + [f]|
      ensures (frames + [f])[i] == if i < |frames| then frames[i] else f
    {}
  }

  // ---- polls of a run of booking transactions ----

  // Item i was read from the tables after at[i] transactions, and time does not go back.
  ghost predicate ReadFrom(history: seq<Tables>, viewer: UserId, items: seq<Payload>, at: seq<nat>) {
    && |at| == |items|
    && (forall i :: 0 <= i < |at| ==> at[i] < |history|)
    && (forall i, j :: 0 <= i <= j < |at| ==> at[i] <= at[j])
    && (forall i :: 0 <= i < |items| ==>
      items[i].id in history[at[i]].slots && items[i] == Visible(history[at[i]], viewer, items[i].id))
  }

  // A slot's version never falls, and says everything that is visible of the slot.
  ghost predicate Ordered(items: seq<Payload>) {
    forall i, j :: 0 <= i <= j < |items| && items[i].id == items[j].id ==>
      items[i].version <= items[j].version && (items[i].version == items[j].version ==> items[i] == items[j])
  }

  lemma VisibleFollowsVersion(history: seq<Tables>, ops: seq<Op>, viewer: UserId, s: SlotId, i: nat, j: nat)
    requires Run(history, ops) && i <= j <= |ops| && s in history[i].slots
    ensures s in history[j].slots
    ensures Visible(history[i], viewer, s).version <= Visible(history[j], viewer, s).version
    ensures Visible(history[i], viewer, s).version == Visible(history[j], viewer, s).version ==>
              Visible(history[i], viewer, s) == Visible(history[j], viewer, s)
  {
    RunAdvances(history, ops, i, j);
    RunKeepsInv(history, ops, i);
    assert OwnersLive(history[i].slots, history[i].appts);
  }

  lemma ReadsAreOrdered(history: seq<Tables>, ops: seq<Op>, viewer: UserId, items: seq<Payload>, at: seq<nat>)
    requires Run(history, ops) && ReadFrom(history, viewer, items, at)
    ensures Ordered(items)
  {
    forall i, j | 0 <= i <= j < |items| && items[i].id == items[j].id
      ensures items[i].version <= items[j].version && (items[i].version == items[j].version ==> items[i] == items[j])
    {
      VisibleFollowsVersion(history, ops, viewer, items[i].id, at[i], at[j]);
    }
  }

  // ---- the feed ----

  ghost predicate IsLatest(items: seq<Payload>, n: nat, id: SlotId, k: nat) {
    k < n <= |items| && items[k].id == id && forall j :: k < j < n ==> items[j].id != id
  }

  lemma {:induction false} LastIsLatest(items: seq<Payload>, n: nat, id: SlotId) returns (k: nat)
    requires n <= |items| && id in Last(items[..n])
    ensures IsLatest(items, n, id, k) && Last(items[..n])[id] == KeyOf(items[k])
  {
    assert items[..n][..n - 1] == items[..n - 1];
    if items[n - 1].id == id {
      k := n - 1;
    } else {
      k := LastIsLatest(items, n - 1, id);
    }
  }

  lemma {:induction false} PolledIsInLast(items: seq<Payload>, n: nat, i: nat)
    requires i < n <= |items|
    ensures items[i].id in Last(items[..n])
  {
    assert items[..n][..n - 1] == items[..n - 1];
    if i < n - 1 {
      PolledIsInLast(items, n - 1, i);
    }
  }

  // An item is news exactly when its version is higher than all polled before, and there are some.
  lemma NewsIff(items: seq<Payload>, i: nat)
    requires Ordered(items) && i < |items|
    ensures IsNews(items, i) <==>
            && (exists j :: 0 <= j < i && items[j].id == items[i].id)
            && (forall j :: 0 <= j < i && items[j].id == items[i].id ==> items[j].version < items[i].version)
  {
    if items[i].id in Last(items[..i]) {
      var k := LastIsLatest(items, i, items[i].id);
      assert items[k].version <= items[i].version;
      forall j | 0 <= j < i && items[j].id == items[i].id ensures items[j].version <= items[k].version {
        assert j <= k;
      }
    } else {
      forall j | 0 <= j < i ensures items[j].id != items[i].id {
        PolledIsInLast(items, i, j);
      }
    }
  }

  // Where in the polls each piece of news comes from.
  ghost function NewsAt(items: seq<Payload>): seq<nat> {
    if items == [] then [] else
      var n := |items| - 1;
      NewsAt(items[..n]) + if IsNews(items, n) then [n] else []
  }

  lemma {:induction false} NewsAtFacts(items: seq<Payload>)
    ensures |NewsAt(items)| == |News(items)|
    ensures forall e :: 0 <= e < |News(items)| ==>
              NewsAt(items)[e] < |items| && IsNews(items, NewsAt(items)[e]) && News(items)[e] == items[NewsAt(items)[e]]
    ensures forall e, f :: 0 <= e < f < |News(items)| ==> NewsAt(items)[e] < NewsAt(items)[f]
    ensures forall i :: 0 <= i < |items| && IsNews(items, i) ==> i in NewsAt(items)
  {
    if items != [] {
      var n := |items| - 1;
      NewsAtFacts(items[..n]);
      forall i | 0 <= i < n ensures IsNews(items[..n], i) <==> IsNews(items, i) {
        assert items[..n][..i] == items[..i];
      }
    }
  }

  // The versions the feed reports of one slot rise strictly, and lie above every version
  // polled before.
  lemma FeedRises(items: seq<Payload>, e: nat, f: nat)
    requires Ordered(items) && e < f < |News(items)| && News(items)[e].id == News(items)[f].id
    ensures News(items)[e].version < News(items)[f].version
  {
    NewsAtFacts(items);
    NewsIff(items, NewsAt(items)[f]);
  }

  // ---- the browser's merge ----

  type View = map<SlotId, Payload>

  function Merge(view: View, p: Payload): View {
    if p.id in view && p.version > view[p.id].version then view[p.id := p] else view
  }

  function MergeAll(view: View, events: seq<Payload>): View {
    if events == [] then view else Merge(MergeAll(view, events[..|events| - 1]), events[|events| - 1])
  }

  // One version, one state: what a run guarantees of everything read from it.
  ghost predicate VersionsAgree(view: View, events: seq<Payload>) {
    && (forall id :: id in view ==> view[id].id == id)
    && (forall p, q :: p in events && q in events && p.id == q.id && p.version == q.version ==> p == q)
    && (forall p :: p in events && p.id in view && p.version == view[p.id].version ==> p == view[p.id])
  }

  // The newest state of a slot among the view and the events.
  ghost predicate IsNewest(view: View, events: seq<Payload>, id: SlotId, p: Payload)
    requires id in view
  {
    && (p == view[id] || (p in events && p.id == id))
    && p.version >= view[id].version
    && (forall q :: q in events && q.id == id ==> q.version <= p.version)
  }

  lemma {:induction false} MergeReachesNewest(view: View, events: seq<Payload>, id: SlotId)
    requires id in view
    ensures MergeAll(view, events).Keys == view.Keys
    ensures IsNewest(view, events, id, MergeAll(view, events)[id])
  {
    if events != [] {
      MergeReachesNewest(view, events[..|events| - 1], id);
      assert events == events[..|events| - 1] + [events[|events| - 1]];
    }
  }

  // Any two deliveries of the same events, in any order and with any repetition, end alike.
  lemma MergeConverges(view: View, events: seq<Payload>, others: seq<Payload>)
    requires VersionsAgree(view, events)
    requires forall p :: p in events <==> p in others
    ensures MergeAll(view, events) == MergeAll(view, others)
  {
    var x, y := MergeAll(view, events), MergeAll(view, others);
    MergeKeepsSlots(view, events);
    MergeKeepsSlots(view, others);
    forall id | id in view ensures x[id] == y[id] {
      MergeReachesNewest(view, events, id);
      MergeReachesNewest(view, others, id);
      SameNewest(view, events, others, id, x[id], y[id]);
    }
  }

  lemma SameNewest(view: View, events: seq<Payload>, others: seq<Payload>, id: SlotId, p: Payload, q: Payload)
    requires VersionsAgree(view, events) && id in view && forall e :: e in events <==> e in others
    requires IsNewest(view, events, id, p) && IsNewest(view, others, id, q)
    ensures p == q
  {}

  lemma {:induction false} MergeKeepsSlots(view: View, events: seq<Payload>)
    ensures MergeAll(view, events).Keys == view.Keys
  {
    if events != [] {
      MergeKeepsSlots(view, events[..|events| - 1]);
    }
  }

  // ---- from the tables to the browser ----

  ghost predicate SeenAt(history: seq<Tables>, viewer: UserId, p: Payload, m: nat) {
    m < |history| && p.id in history[m].slots && p == Visible(history[m], viewer, p.id)
  }

  ghost predicate Seen(history: seq<Tables>, viewer: UserId, p: Payload) {
    exists m :: SeenAt(history, viewer, p, m)
  }

  lemma SameVersionSameState(history: seq<Tables>, ops: seq<Op>, viewer: UserId, p: Payload, q: Payload)
    requires Run(history, ops) && Seen(history, viewer, p) && Seen(history, viewer, q)
    requires p.id == q.id && p.version == q.version
    ensures p == q
  {
    var m: nat :| SeenAt(history, viewer, p, m);
    var n: nat :| SeenAt(history, viewer, q, n);
    if m <= n {
      VisibleFollowsVersion(history, ops, viewer, p.id, m, n);
    } else {
      VisibleFollowsVersion(history, ops, viewer, p.id, n, m);
    }
  }

  // Whatever snapshots the view was loaded from and whatever was reported, at any moments of a
  // run of booking transactions: the order and the number of deliveries do not matter.
  lemma BrowsersConverge(
    history: seq<Tables>, ops: seq<Op>, viewer: UserId, view: View, events: seq<Payload>, others: seq<Payload>)
    requires Run(history, ops)
    requires forall id :: id in view ==> view[id].id == id && Seen(history, viewer, view[id])
    requires forall p :: p in events ==> Seen(history, viewer, p)
    requires forall p :: p in events <==> p in others
    ensures MergeAll(view, events) == MergeAll(view, others)
  {
    forall p, q | p in events && q in events && p.id == q.id && p.version == q.version ensures p == q {
      SameVersionSameState(history, ops, viewer, p, q);
    }
    forall p | p in events && p.id in view && p.version == view[p.id].version ensures p == view[p.id] {
      SameVersionSameState(history, ops, viewer, p, view[p.id]);
    }
    MergeConverges(view, events, others);
  }

  // A browser that has every reported change is as fresh as the last poll of a slot exactly
  // when something was reported of it or its own snapshot was as fresh as the first poll.
  lemma CaughtUpIff(items: seq<Payload>, view: View, events: seq<Payload>, id: SlotId, i: nat, j: nat)
    requires Ordered(items) && id in view && view[id].id == id
    requires forall p :: p in events <==> p in News(items)
    requires i < |items| && items[i].id == id && forall k :: 0 <= k < i ==> items[k].id != id
    requires IsLatest(items, |items|, id, j)
    ensures id in MergeAll(view, events)
    ensures MergeAll(view, events)[id].version >= items[j].version <==>
            items[j].version > items[i].version || view[id].version >= items[i].version
  {
    MergeReachesNewest(view, events, id);
    NewsAtFacts(items);
    var got := MergeAll(view, events)[id];
    if items[j].version > items[i].version {
      var first := FirstWith(items, i, j);
      NewsIff(items, first);
      var e :| 0 <= e < |News(items)| && NewsAt(items)[e] == first;
      assert News(items)[e] in News(items) && News(items)[e] in events;
      assert got.version >= items[j].version;
    } else {
      forall p | p in events && p.id == id ensures false {
        var e :| 0 <= e < |News(items)| && News(items)[e] == p;
        NewsIff(items, NewsAt(items)[e]);
      }
    }
  }

  // The first poll that saw the latest version.
  lemma FirstWith(items: seq<Payload>, i: nat, j: nat) returns (k: nat)
    requires Ordered(items) && i < j < |items| && items[i].id == items[j].id && items[i].version < items[j].version
    ensures i < k <= j && items[k].id == items[j].id && items[k].version == items[j].version
    ensures forall m :: i <= m < k && items[m].id == items[j].id ==> items[m].version < items[j].version
  {
    if m :| i <= m < j && items[m].id == items[j].id && items[m].version == items[j].version {
      k := FirstWith(items, i, m);
    } else {
      k := j;
      forall m | i <= m < k && items[m].id == items[j].id ensures items[m].version < items[j].version {
        assert items[m].version <= items[j].version;
      }
    }
  }
}
