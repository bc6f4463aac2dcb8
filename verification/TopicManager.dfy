/** The server's topic table: an unordered multimap from topic to weak connection, which should
    behave as a set of (topic, live connection) pairs. */
module TopicManager {
  import opened Basics
  import opened Bytes
  import opened Machine

  type Topic = seq<byte>

  /** An element of the multimap. A connection is named once and for all; a weak reference to one
      that is no longer alive locks to nothing. */
  datatype Entry = Entry(topic: Topic, conn: nat)

  function WeakLock(conn: nat, alive: set<nat>): Option<nat> { if conn in alive then Some(conn) else None }

  /** Iteration order of the multimap keeps equal keys together. */
  predicate Grouped(es: seq<Entry>)
  {
    forall i, j, k :: 0 <= i < j < k < |es| && es[i].topic == es[k].topic ==> es[j].topic == es[i].topic
  }

  predicate NoRepeats(es: seq<Entry>)
  {
    forall i, j :: 0 <= i < j < |es| ==> es[i] != es[j]
  }

  /** What an erasing loop looks for: one pair, or every pair of a connection. */
  datatype Target = ThePair(t: Topic, c: nat) | AllOf(c: nat)

  predicate Hits(target: Target, e: Entry)
  {
    e.conn == target.c && (target.ThePair? ==> e.topic == target.t)
  }

  /** The elements that survive an erasing loop. */
  function Remaining(es: seq<Entry>, target: Target): seq<Entry>
  {
    if es == [] then []
    else Remaining(es[..|es| - 1], target) + if Hits(target, es[|es| - 1]) then [] else [es[|es| - 1]]
  }

  function Pairs(es: seq<Entry>, alive: set<nat>): set<Entry>
  {
    set e | e in es && e.conn in alive
  }

  // ---- the erasing loops -----------------------------------------------------------------------------

  lemma {:induction false} RemainingAt(es: seq<Entry>, target: Target, n: nat)
    requires n < |es|
    ensures Remaining(es[..n + 1], target) == Remaining(es[..n], target) + if Hits(target, es[n]) then [] else [es[n]]
  {
    assert es[..n + 1][..n] == es[..n];
  }

  /** An erasing loop has looked at the first `done` elements of what was there; `at` is where the
      iterator stands in what is there now. */
  predicate Erasing(was: seq<Entry>, target: Target, done: nat, now: seq<Entry>, at: nat)
  {
    && at <= |now| && done <= |was| && |now| - at == |was| - done
    && now[..at] == Remaining(was[..done], target) && now[at..] == was[done..]
  }

  function Erased(now: seq<Entry>, at: nat): seq<Entry>
    requires at < |now|
  {
    now[..at] + now[at + 1..]
  }

  /** One turn: erase the element under the iterator if it is a hit, step over it otherwise. */
  lemma EraseOrSkip(was: seq<Entry>, target: Target, done: nat, now: seq<Entry>, at: nat)
    requires Erasing(was, target, done, now, at) && at < |now|
    ensures done < |was| && now[at] == was[done]
    ensures if Hits(target, now[at]) then Erasing(was, target, done + 1, Erased(now, at), at)
            else Erasing(was, target, done + 1, now, at + 1)
  {
    assert now[at] == now[at..][0] && was[done] == was[done..][0];
    assert now[at + 1..] == now[at..][1..] && was[done + 1..] == was[done..][1..];
    RemainingAt(was, target, done);
  }

  lemma {:induction false} RemainingAll(es: seq<Entry>, target: Target)
    requires forall i :: 0 <= i < |es| ==> !Hits(target, es[i])
    ensures Remaining(es, target) == es
  {
    if es != [] {
      RemainingAll(es[..|es| - 1], target);
    }
  }

  lemma {:induction false} RemainingTail(es: seq<Entry>, target: Target, n: nat)
    requires n <= |es| && forall i :: n <= i < |es| ==> !Hits(target, es[i])
    ensures Remaining(es, target) == Remaining(es[..n], target) + es[n..]
  {
    if n == |es| {
      assert es[..n] == es;
    } else {
      var m := |es| - 1;
      RemainingTail(es[..m], target, n);
      assert es[..m][..n] == es[..n] && es[..m][n..] + [es[m]] == es[n..];
    }
  }

  lemma BeginErasing(was: seq<Entry>, target: Target, n: nat)
    requires n <= |was| && forall i :: 0 <= i < n ==> !Hits(target, was[i])
    ensures Erasing(was, target, n, was, n)
  {
    RemainingAll(was[..n], target);
  }

  lemma EndErasing(was: seq<Entry>, target: Target, done: nat, now: seq<Entry>, at: nat)
    requires Erasing(was, target, done, now, at) && forall i :: done <= i < |was| ==> !Hits(target, was[i])
    ensures now == Remaining(was, target)
  {
    RemainingTail(was, target, done);
    assert now == now[..at] + now[at..];
  }

  lemma {:induction false} RemainingMembers(es: seq<Entry>, target: Target)
    ensures forall e :: e in Remaining(es, target) <==> e in es && !Hits(target, e)
  {
    if es != [] {
      RemainingMembers(es[..|es| - 1], target);
      assert es == es[..|es| - 1] + [es[|es| - 1]];
    }
  }

  /** Where the survivors come from: an increasing choice of places. */
  lemma {:induction false} RemainingPlaces(es: seq<Entry>, target: Target) returns (at: seq<nat>)
    ensures |at| == |Remaining(es, target)|
    ensures forall i :: 0 <= i < |at| ==> at[i] < |es| && Remaining(es, target)[i] == es[at[i]]
    ensures forall i, j :: 0 <= i < j < |at| ==> at[i] < at[j]
  {
    if es == [] {
      at := [];
    } else {
      var n := |es| - 1;
      at := RemainingPlaces(es[..n], target);
      forall i | 0 <= i < |at| ensures at[i] < n && Remaining(es[..n], target)[i] == es[at[i]] {
        assert es[..n][at[i]] == es[at[i]];
      }
      if !Hits(target, es[n]) {
        at := at + [n];
      }
    }
  }

  lemma RemainingKeepsShape(es: seq<Entry>, target: Target)
    requires Grouped(es) && NoRepeats(es)
    ensures Grouped(Remaining(es, target)) && NoRepeats(Remaining(es, target))
  {
    var at := RemainingPlaces(es, target);
    var r := Remaining(es, target);
    forall i, j, k | 0 <= i < j < k < |r| && r[i].topic == r[k].topic ensures r[j].topic == r[i].topic {
      assert es[at[i]].topic == es[at[k]].topic;
    }
  }

  // ---- inserting ---------------------------------------------------------------------------------------

  /** [lo, hi) holds exactly the elements with this key. */
  predicate IsRange(es: seq<Entry>, topic: Topic, lo: nat, hi: nat)
  {
    lo <= hi <= |es| && forall i :: 0 <= i < |es| ==> (es[i].topic == topic <==> lo <= i < hi)
  }

  function InsertAt(es: seq<Entry>, hi: nat, e: Entry): seq<Entry>
    requires hi <= |es|
  {
    es[..hi] + [e] + es[hi..]
  }

  lemma InsertKeepsGroup(es: seq<Entry>, lo: nat, hi: nat, e: Entry, i: nat, j: nat, k: nat)
    requires Grouped(es) && IsRange(es, e.topic, lo, hi) && (lo == hi ==> hi == |es|)
    requires i < j < k <= |es| && InsertAt(es, hi, e)[i].topic == InsertAt(es, hi, e)[k].topic
    ensures InsertAt(es, hi, e)[j].topic == InsertAt(es, hi, e)[i].topic
  {
    if j == hi {
      assert es[i].topic == es[k - 1].topic && es[lo].topic == e.topic;
    } else if i != hi && k != hi {
      var i', j', k' := if i < hi then i else i - 1, if j < hi then j else j - 1, if k < hi then k else k - 1;
      assert es[i'].topic == es[k'].topic ==> es[j'].topic == es[i'].topic;
    }
  }

  lemma InsertKeepsShape(es: seq<Entry>, lo: nat, hi: nat, e: Entry)
    requires Grouped(es) && NoRepeats(es) && IsRange(es, e.topic, lo, hi) && e !in es
    requires lo == hi ==> hi == |es|
    ensures Grouped(InsertAt(es, hi, e)) && NoRepeats(InsertAt(es, hi, e))
  {
    var r := InsertAt(es, hi, e);
    forall i, j, k | 0 <= i < j < k < |r| && r[i].topic == r[k].topic ensures r[j].topic == r[i].topic {
      InsertKeepsGroup(es, lo, hi, e, i, j, k);
    }
    forall i, j | 0 <= i < j < |r| ensures r[i] != r[j] {
      if i != hi && j != hi {
        assert es[if i < hi then i else i - 1] != es[if j < hi then j else j - 1];
      }
    }
  }

  lemma InsertMembers(es: seq<Entry>, hi: nat, e: Entry)
    requires hi <= |es|
    ensures forall x :: x in InsertAt(es, hi, e) <==> x in es || x == e
  {
  }

  // ---- the table as a machine, and the set it stands for ------------------------------------------------

  /** `next`: connections opened so far; `alive`: those still referenced. */
  datatype State = State(entries: seq<Entry>, alive: set<nat>, next: nat)

  datatype Event = Open | Expire(c: nat) | Add(t: Topic, c: nat) | Remove(t: Topic, c: nat) | RemoveAll(c: nat)

  const INIT := State([], {}, 0)

  predicate Enabled(s: State, e: Event)
  {
    match e
    case Open => true
    case Expire(_) => true
    case Add(_, c) => c in s.alive
    case Remove(_, c) => c in s.alive
    case RemoveAll(c) => c in s.alive
  }

  function Step(s: State, e: Event): State
  {
    if !Enabled(s, e) then s
    else match e
      case Open => s.(alive := s.alive + {s.next}, next := s.next + 1)
      case Expire(c) => s.(alive := s.alive - {c})
      case Add(t, c) => s.(entries := Added(s.entries, t, c))
      case Remove(t, c) => s.(entries := Remaining(s.entries, ThePair(t, c)))
      case RemoveAll(c) => s.(entries := Remaining(s.entries, AllOf(c)))
  }

  /** Where the key's elements end; the end of the table if there are none. */
  function RangeEnd(es: seq<Entry>, t: Topic): (n: nat)
    ensures n <= |es|
  {
    if es == [] then 0
    else if es[|es| - 1].topic == t then |es|
    else if exists i :: 0 <= i < |es| && es[i].topic == t then RangeEnd(es[..|es| - 1], t)
    else |es|
  }

  function Added(es: seq<Entry>, t: Topic, c: nat): seq<Entry>
  {
    if Entry(t, c) in es then es else InsertAt(es, RangeEnd(es, t), Entry(t, c))
  }

  /** The same events on a plain set of pairs of topic and live connection. */
  datatype Spec = Spec(pairs: set<Entry>, alive: set<nat>, next: nat)

  function SpecStep(s: Spec, e: Event): Spec
  {
    match e
    case Open => s.(alive := s.alive + {s.next}, next := s.next + 1)
    case Expire(c) => s.(alive := s.alive - {c}, pairs := set p | p in s.pairs && p.conn != c)
    case Add(t, c) => if c in s.alive then s.(pairs := s.pairs + {Entry(t, c)}) else s
    case Remove(t, c) => if c in s.alive then s.(pairs := s.pairs - {Entry(t, c)}) else s
    case RemoveAll(c) => if c in s.alive then s.(pairs := set p | p in s.pairs && p.conn != c) else s
  }

  ghost predicate Inv(s: State)
  {
    && Grouped(s.entries) && NoRepeats(s.entries)
    && (forall e :: e in s.entries ==> e.conn < s.next)
    && (forall c :: c in s.alive ==> c < s.next)
  }

  function Abs(s: State): Spec { Spec(Pairs(s.entries, s.alive), s.alive, s.next) }

  lemma {:induction false} RangeEndIsLast(es: seq<Entry>, t: Topic)
    ensures var hi := RangeEnd(es, t);
            || (hi == |es| && forall i :: 0 <= i < |es| ==> es[i].topic != t)
            || (0 < hi && es[hi - 1].topic == t && forall i :: hi <= i < |es| ==> es[i].topic != t)
  {
    if es != [] && es[|es| - 1].topic != t {
      var n := |es| - 1;
      RangeEndIsLast(es[..n], t);
      if i :| 0 <= i < |es| && es[i].topic == t {
        assert es[..n][i].topic == t;
      }
    }
  }

  lemma RangeEndIsRange(es: seq<Entry>, t: Topic) returns (lo: nat)
    requires Grouped(es)
    ensures IsRange(es, t, lo, RangeEnd(es, t)) && (lo == RangeEnd(es, t) ==> lo == |es|)
  {
    RangeEndIsLast(es, t);
    var hi := RangeEnd(es, t);
    lo := |es|;
    if 0 < hi && es[hi - 1].topic == t {
      lo := GroupStart(es, hi - 1);
    }
  }

  lemma RangeEndIs(es: seq<Entry>, t: Topic, lo: nat, hi: nat)
    requires Grouped(es) && IsRange(es, t, lo, hi) && (lo == hi ==> hi == |es|)
    ensures hi == RangeEnd(es, t)
  {
    var first := RangeEndIsRange(es, t);
    var end := RangeEnd(es, t);
    if lo < hi {
      assert es[hi - 1].topic == t && es[lo].topic == t;
    }
    if first < end {
      assert es[end - 1].topic == t;
    }
  }

  lemma {:induction false} GroupStart(es: seq<Entry>, n: nat) returns (lo: nat)
    requires Grouped(es) && n < |es|
    ensures lo <= n && forall i :: 0 <= i <= n ==> (es[i].topic == es[n].topic <==> lo <= i)
  {
    lo := n;
    while lo > 0 && es[lo - 1].topic == es[n].topic
      invariant lo <= n && forall i :: lo <= i <= n ==> es[i].topic == es[n].topic
    {
      lo := lo - 1;
    }
  }

  lemma AddedKeepsShape(es: seq<Entry>, t: Topic, c: nat)
    requires Grouped(es) && NoRepeats(es)
    ensures Grouped(Added(es, t, c)) && NoRepeats(Added(es, t, c))
    ensures forall x :: x in Added(es, t, c) <==> x in es || x == Entry(t, c)
  {
    if Entry(t, c) !in es {
      var lo := RangeEndIsRange(es, t);
      var hi := RangeEnd(es, t);
      InsertKeepsShape(es, lo, hi, Entry(t, c));
      InsertMembers(es, hi, Entry(t, c));
    }
  }

  lemma StepSimulates(s: State, e: Event)
    requires Inv(s)
    ensures Inv(Step(s, e)) && Abs(Step(s, e)) == SpecStep(Abs(s), e)
  {
    if Enabled(s, e) {
      match e
      case Open =>
      case Expire(c) =>
      case Add(t, c) => AddedKeepsShape(s.entries, t, c);
      case Remove(t, c) =>
        RemainingKeepsShape(s.entries, ThePair(t, c));
        RemainingMembers(s.entries, ThePair(t, c));
      case RemoveAll(c) =>
        RemainingKeepsShape(s.entries, AllOf(c));
        RemainingMembers(s.entries, AllOf(c));
    }
    assert Abs(Step(s, e)).pairs == SpecStep(Abs(s), e).pairs;
  }

  /** Over every sequence of adds, removes, remove-alls and expiries the multimap stands for the
      plain set of pairs, and never stores a pair twice. */
  lemma {:induction false} RefinesASetOfPairs(events: seq<Event>)
    ensures var s := Exec(Step, INIT, events);
            && Inv(s)
            && Abs(s) == Exec(SpecStep, Spec({}, {}, 0), events)
  {
    if events == [] {
      assert Abs(INIT).pairs == {};
    } else {
      var n := |events| - 1;
      RefinesASetOfPairs(events[..n]);
      StepSimulates(Exec(Step, INIT, events[..n]), events[n]);
    }
  }

  // ---- the pairs by the events of the run ------------------------------------------------------------------

  function Opens(events: seq<Event>): nat
  {
    if events == [] then 0 else Opens(events[..|events| - 1]) + if events[|events| - 1].Open? then 1 else 0
  }

  /** Connection c has been opened and has not expired since. */
  predicate Alive(events: seq<Event>, c: nat)
  {
    events != [] &&
    var n := |events| - 1;
    match events[n]
    case Open => Opens(events[..n]) == c || Alive(events[..n], c)
    case Expire(d) => d != c && Alive(events[..n], c)
    case _ => Alive(events[..n], c)
  }

  /** The last word on topic t and connection c, spoken while c was alive, was to add the pair. */
  predicate AddedLast(events: seq<Event>, t: Topic, c: nat)
  {
    events != [] &&
    var n := |events| - 1;
    match events[n]
    case Add(u, d) => (u == t && d == c && Alive(events[..n], c)) || AddedLast(events[..n], t, c)
    case Remove(u, d) => !(u == t && d == c && Alive(events[..n], c)) && AddedLast(events[..n], t, c)
    case RemoveAll(d) => !(d == c && Alive(events[..n], c)) && AddedLast(events[..n], t, c)
    case Expire(d) => d != c && AddedLast(events[..n], t, c)
    case Open => AddedLast(events[..n], t, c)
  }

  lemma {:induction false} SpecByEvents(events: seq<Event>, t: Topic, c: nat)
    ensures var s := Exec(SpecStep, Spec({}, {}, 0), events);
            && s.next == Opens(events) && (c in s.alive <==> Alive(events, c))
            && (Entry(t, c) in s.pairs <==> AddedLast(events, t, c))
  {
    if events != [] {
      SpecByEvents(events[..|events| - 1], t, c);
    }
  }

  /** After any sequence of operations, the table holds a live pair if and only if the last word on it
      was to add it. */
  lemma StoredIffAddedLast(events: seq<Event>, t: Topic, c: nat)
    ensures var s := Exec(Step, INIT, events);
            && (c in s.alive <==> Alive(events, c))
            && (Entry(t, c) in s.entries && c in s.alive <==> AddedLast(events, t, c))
  {
    RefinesASetOfPairs(events);
    SpecByEvents(events, t, c);
    var s := Exec(Step, INIT, events);
    assert Entry(t, c) in Abs(s).pairs <==> Entry(t, c) in s.entries && c in s.alive;
  }

  // ---- publishing -----------------------------------------------------------------------------------------

  function Subscribers(es: seq<Entry>, t: Topic): seq<nat>
  {
    if es == [] then []
    else Subscribers(es[..|es| - 1], t) + if es[|es| - 1].topic == t then [es[|es| - 1].conn] else []
  }

  lemma {:induction false} SubscribersAre(es: seq<Entry>, t: Topic)
    requires NoRepeats(es)
    ensures forall c :: c in Subscribers(es, t) <==> Entry(t, c) in es
    ensures forall c :: multiset(Subscribers(es, t))[c] <= 1
  {
    if es != [] {
      var n := |es| - 1;
      SubscribersAre(es[..n], t);
      assert es == es[..n] + [es[n]];
      if es[n].topic == t {
        var prev := Subscribers(es[..n], t);
        assert es[n] !in es[..n];
        assert es[n] == Entry(t, es[n].conn);
        assert multiset(prev + [es[n].conn]) == multiset(prev) + multiset{es[n].conn};
      }
    }
  }

  /** The connections of the snapshot that are alive when their turn comes. */
  function Reached(snapshot: seq<nat>, aliveAt: seq<set<nat>>): seq<nat>
    requires |snapshot| == |aliveAt|
  {
    if snapshot == [] then []
    else
      var n := |snapshot| - 1;
      Reached(snapshot[..n], aliveAt[..n]) + if snapshot[n] in aliveAt[n] then [snapshot[n]] else []
  }

  /** Connection c is in the snapshot and alive when its turn comes. */
  predicate AliveInTurn(snapshot: seq<nat>, aliveAt: seq<set<nat>>, c: nat)
    requires |snapshot| == |aliveAt|
  {
    exists i :: 0 <= i < |snapshot| && snapshot[i] == c && c in aliveAt[i]
  }

  lemma AliveInTurnLast(snapshot: seq<nat>, aliveAt: seq<set<nat>>, c: nat)
    requires |snapshot| == |aliveAt| > 0
    ensures var n := |snapshot| - 1;
            AliveInTurn(snapshot, aliveAt, c)
            <==> AliveInTurn(snapshot[..n], aliveAt[..n], c) || (snapshot[n] == c && c in aliveAt[n])
  {
  }

  lemma {:induction false} ReachedCounts(snapshot: seq<nat>, aliveAt: seq<set<nat>>, c: nat)
    requires |snapshot| == |aliveAt| && multiset(snapshot)[c] <= 1
    ensures multiset(Reached(snapshot, aliveAt))[c] == if AliveInTurn(snapshot, aliveAt, c) then 1 else 0
  {
    if snapshot != [] {
      var n := |snapshot| - 1;
      var before, last := snapshot[..n], snapshot[n];
      assert snapshot == before + [last];
      ReachedCounts(before, aliveAt[..n], c);
      AliveInTurnLast(snapshot, aliveAt, c);
      var prev := Reached(before, aliveAt[..n]);
      assert multiset(prev + [last]) == multiset(prev) + multiset{last};
      if last == c {
        assert c !in multiset(before) && c !in before;
      }
    }
  }

  /** In every reachable table a publish writes one copy to each subscriber of the topic that is
      alive when its turn comes, and nothing else to anyone; in particular one copy to a subscriber
      alive throughout and none to a connection that has not subscribed. */
  lemma PublishReachesEachOnce(events: seq<Event>, t: Topic, aliveAt: seq<set<nat>>, c: nat)
    requires var s := Exec(Step, INIT, events);
             |aliveAt| == |Subscribers(s.entries, t)|
    ensures var s := Exec(Step, INIT, events);
            var writes := multiset(Reached(Subscribers(s.entries, t), aliveAt));
            && writes[c] == (if AliveInTurn(Subscribers(s.entries, t), aliveAt, c) then 1 else 0)
            && (Entry(t, c) !in s.entries ==> writes[c] == 0)
            && (Entry(t, c) in s.entries && (forall i :: 0 <= i < |aliveAt| ==> c in aliveAt[i]) ==> writes[c] == 1)
  {
    RefinesASetOfPairs(events);
    var s := Exec(Step, INIT, events);
    SubscribersAre(s.entries, t);
    ReachedCounts(Subscribers(s.entries, t), aliveAt, c);
  }

  // ---- the table in the source's own form --------------------------------------------------------------------

  /** topic_manager: every method runs under its mutex. `alive` stands for which weak references
      still lock. */
  class Manager {
    var topicMap: seq<Entry>

    ghost predicate Valid()
      reads this
    {
      Grouped(topicMap) && NoRepeats(topicMap)
    }

    constructor ()
      ensures Valid() && topicMap == []
    {
      topicMap := [];
    }

    method EqualRange(topic: Topic) returns (lo: nat, hi: nat)
      requires Valid()
      ensures IsRange(topicMap, topic, lo, hi) && (lo == hi ==> hi == |topicMap|)
    {
      lo := 0;
      while lo < |topicMap| && topicMap[lo].topic != topic
        invariant lo <= |topicMap| && forall i :: 0 <= i < lo ==> topicMap[i].topic != topic
      {
        lo := lo + 1;
      }
      hi := lo;
      while hi < |topicMap| && topicMap[hi].topic == topic
        invariant lo <= hi <= |topicMap| && forall i :: lo <= i < hi ==> topicMap[i].topic == topic
      {
        hi := hi + 1;
      }
    }

    /** Stores the pair unless a live copy is there already. */
    method AddTopic(topic: Topic, conn: nat, alive: set<nat>)
      requires Valid() && conn in alive
      modifies this
      ensures Valid() && topicMap == Added(old(topicMap), topic, conn)
    {
      var lo, hi := EqualRange(topic);
      var iter := lo;
      while iter != hi
        invariant lo <= iter <= hi
        invariant forall i :: lo <= i < iter ==> topicMap[i].conn != conn
      {
        if WeakLock(topicMap[iter].conn, alive) == Some(conn) {
          assert topicMap[iter] == Entry(topic, conn);
          return;
        }
        iter := iter + 1;
      }
      assert Entry(topic, conn) !in topicMap;
      InsertKeepsShape(topicMap, lo, hi, Entry(topic, conn));
      RangeEndIs(topicMap, topic, lo, hi);
      topicMap := InsertAt(topicMap, hi, Entry(topic, conn));
    }

    /** Erases while iterating over the key's range: exactly the pair goes. */
    method RemoveTopic(topic: Topic, conn: nat, alive: set<nat>)
      requires Valid() && conn in alive
      modifies this
      ensures Valid() && topicMap == Remaining(old(topicMap), ThePair(topic, conn))
    {
      RemainingKeepsShape(topicMap, ThePair(topic, conn));
      var first, second := EqualRange(topic);
      EraseInRange(first, second, topic, conn, alive);
    }

    method EraseInRange(begin: nat, end: nat, topic: Topic, conn: nat, alive: set<nat>)
      requires IsRange(topicMap, topic, begin, end) && conn in alive
      modifies this
      ensures topicMap == Remaining(old(topicMap), ThePair(topic, conn))
    {
      var target := ThePair(topic, conn);
      ghost var was := topicMap;
      var first: nat, second: nat := begin, end;
      ghost var done: nat := begin;
      BeginErasing(was, target, begin);
      while first != second
        invariant done + (second - first) == end <= |was| && first <= second && begin <= done
        invariant Erasing(was, target, done, topicMap, first)
        decreases second - first
      {
        EraseOrSkip(was, target, done, topicMap, first);
        if WeakLock(topicMap[first].conn, alive) == Some(conn) {
          topicMap := Erased(topicMap, first);
          second := second - 1;
        } else {
          first := first + 1;
        }
        done := done + 1;
      }
      EndErasing(was, target, done, topicMap, first);
    }

    /** Erases while iterating over the whole table: exactly the connection's pairs go. */
    method RemoveAllTopic(conn: nat, alive: set<nat>)
      requires Valid() && conn in alive
      modifies this
      ensures Valid() && topicMap == Remaining(old(topicMap), AllOf(conn))
    {
      var target := AllOf(conn);
      ghost var was := topicMap;
      var begin := 0;
      ghost var done := 0;
      RemainingKeepsShape(was, target);
      while begin != |topicMap|
        invariant Erasing(was, target, done, topicMap, begin)
        decreases |was| - done
      {
        EraseOrSkip(was, target, done, topicMap, begin);
        if WeakLock(topicMap[begin].conn, alive) == Some(conn) {
          topicMap := Erased(topicMap, begin);
        } else {
          begin := begin + 1;
        }
        done := done + 1;
      }
      EndErasing(was, target, done, topicMap, begin);
    }

    method GetConnectionByTopic(topic: Topic) returns (conns: seq<nat>)
      requires Valid()
      ensures conns == Subscribers(topicMap, topic)
    {
      var lo, hi := EqualRange(topic);
      conns := [];
      var iter := lo;
      NoSubscribers(topicMap[..lo], topic);
      while iter != hi
        invariant lo <= iter <= hi && conns == Subscribers(topicMap[..iter], topic)
      {
        assert topicMap[..iter + 1][..iter] == topicMap[..iter];
        conns := conns + [topicMap[iter].conn];
        iter := iter + 1;
      }
      SubscribersTail(topicMap, topic, hi);
    }
  }

  lemma {:induction false} NoSubscribers(es: seq<Entry>, t: Topic)
    requires forall i :: 0 <= i < |es| ==> es[i].topic != t
    ensures Subscribers(es, t) == []
  {
    if es != [] {
      NoSubscribers(es[..|es| - 1], t);
    }
  }

  lemma {:induction false} SubscribersTail(es: seq<Entry>, t: Topic, n: nat)
    requires n <= |es| && forall i :: n <= i < |es| ==> es[i].topic != t
    ensures Subscribers(es, t) == Subscribers(es[..n], t)
  {
    if n == |es| {
      assert es[..n] == es;
    } else {
      SubscribersTail(es[..|es| - 1], t, n);
      assert es[..|es| - 1][..n] == es[..n];
    }
  }

  /** publish_impl: one write for every reference that still locks when its turn comes. */
  method Publish(snapshot: seq<nat>, aliveAt: seq<set<nat>>) returns (writes: seq<nat>)
    requires |snapshot| == |aliveAt|
    ensures writes == Reached(snapshot, aliveAt)
  {
    writes := [];
    var i := 0;
    while i < |snapshot|
      invariant 0 <= i <= |snapshot| && writes == Reached(snapshot[..i], aliveAt[..i])
    {
      assert snapshot[..i + 1][..i] == snapshot[..i] && aliveAt[..i + 1][..i] == aliveAt[..i];
      var conn := WeakLock(snapshot[i], aliveAt[i]);
      if conn.Some? {
        writes := writes + [conn.value];
      }
      i := i + 1;
    }
    assert snapshot[..i] == snapshot && aliveAt[..i] == aliveAt;
  }
}
