/** Topic aliases. The sender keeps a two-way index with an allocator and the order of last use, the
    receiver a plain map (section 3.3.2.3.4 of MQTT 5.0). */
module TopicAlias {
  import opened Packets

  /** `entries` lists the bindings from least to most recently used, `byTopic` is the reverse index
      and `taken` the aliases the allocator has handed out. */
  datatype AliasSend = AliasSend(max: nat, entries: seq<(nat, Topic)>, byTopic: map<Topic, seq<nat>>, taken: set<nat>)

  datatype AliasRecv = AliasRecv(max: nat, aliases: map<nat, Topic>)

  function NewSend(max: nat): AliasSend { AliasSend(max, [], map[], {}) }

  function Lookup(entries: seq<(nat, Topic)>, a: nat): Option<Topic> {
    if entries == [] then None
    else if entries[0].0 == a then Some(entries[0].1)
    else Lookup(entries[1..], a)
  }

  function Without(entries: seq<(nat, Topic)>, a: nat): seq<(nat, Topic)> {
    if entries == [] then []
    else if entries[0].0 == a then entries[1..]
    else [entries[0]] + Without(entries[1..], a)
  }

  function Dropped(s: seq<nat>, a: nat): seq<nat> {
    if s == [] then []
    else if s[0] == a then Dropped(s[1..], a)
    else [s[0]] + Dropped(s[1..], a)
  }

  /** The reverse index after alias `a` is taken away from topic `t`. */
  function Unindexed(byTopic: map<Topic, seq<nat>>, t: Topic, a: nat): map<Topic, seq<nat>> {
    if t !in byTopic then byTopic
    else
      var left := Dropped(byTopic[t], a);
      if left == [] then byTopic - {t} else byTopic[t := left]
  }

  function Indexed(byTopic: map<Topic, seq<nat>>, t: Topic, a: nat): map<Topic, seq<nat>> {
    byTopic[t := (if t in byTopic then byTopic[t] else []) + [a]]
  }

  function InsertOrUpdate(m: AliasSend, t: Topic, a: nat): AliasSend {
    if a in m.taken then
      match Lookup(m.entries, a)
      case Some(was) =>
        AliasSend(m.max, Without(m.entries, a) + [(a, t)], Indexed(Unindexed(m.byTopic, was, a), t, a), m.taken)
      case None =>
        AliasSend(m.max, m.entries + [(a, t)], Indexed(m.byTopic, t, a), m.taken)
    else
      AliasSend(m.max, m.entries + [(a, t)], Indexed(m.byTopic, t, a), m.taken + {a})
  }

  function Peek(m: AliasSend, a: nat): Option<Topic> {
    if 1 <= a <= m.max then Lookup(m.entries, a) else None
  }

  /** `get`: the topic, and the map with the alias moved to the most recent place. */
  function Touch(m: AliasSend, a: nat): AliasSend {
    match Peek(m, a)
    case Some(t) => m.(entries := Without(m.entries, a) + [(a, t)])
    case None => m
  }

  function FindByTopic(m: AliasSend, t: Topic): Option<nat> {
    if t in m.byTopic && m.byTopic[t] != [] then Some(m.byTopic[t][0]) else None
  }

  function FirstVacant(m: AliasSend, from: nat): (r: Option<nat>)
    decreases m.max + 1 - from
  {
    if from > m.max then None else if from !in m.taken then Some(from) else FirstVacant(m, from + 1)
  }

  function LruAlias(m: AliasSend): nat {
    match FirstVacant(m, 1)
    case Some(a) => a
    case None => if m.entries == [] then 1 else m.entries[0].0
  }

  function RecvGet(r: AliasRecv, a: nat): Option<Topic> {
    if 1 <= a <= r.max && a in r.aliases then Some(r.aliases[a]) else None
  }

  // ---------------------------------------------------------------- consistency of the sending side

  ghost predicate DistinctKeys(entries: seq<(nat, Topic)>) {
    forall i, j :: 0 <= i < j < |entries| ==> entries[i].0 != entries[j].0
  }

  ghost predicate NoRepeat(s: seq<nat>) { forall i, j :: 0 <= i < j < |s| ==> s[i] != s[j] }

  predicate Indexes(byTopic: map<Topic, seq<nat>>, t: Topic, a: nat) { t in byTopic && a in byTopic[t] }

  /** The two maps are exact inverses, without duplicates or empty lists, and the allocator has handed
      out exactly the bound aliases. */
  ghost predicate Wf(m: AliasSend) {
    && DistinctKeys(m.entries)
    && (forall k :: 0 <= k < |m.entries| ==> 1 <= m.entries[k].0 <= m.max && m.entries[k].1 != [])
    && (forall a :: a in m.taken <==> Lookup(m.entries, a).Some?)
    && (forall t :: t in m.byTopic ==> m.byTopic[t] != [] && NoRepeat(m.byTopic[t]))
    && (forall t, a :: Indexes(m.byTopic, t, a) <==> Lookup(m.entries, a) == Some(t))
  }

  lemma {:induction false} LookupAppend(entries: seq<(nat, Topic)>, a: nat, t: Topic, b: nat)
    ensures Lookup(entries + [(a, t)], b) == if Lookup(entries, b).Some? then Lookup(entries, b) else if a == b
        then Some(t) else None
  {
    if entries == [] {
      assert entries + [(a, t)] == [(a, t)];
    } else {
      assert (entries + [(a, t)])[1..] == entries[1..] + [(a, t)];
      LookupAppend(entries[1..], a, t, b);
    }
  }

  lemma {:induction false} LookupAt(entries: seq<(nat, Topic)>, k: nat)
    requires DistinctKeys(entries) && k < |entries|
    ensures Lookup(entries, entries[k].0) == Some(entries[k].1)
  {
    if k > 0 {
      assert entries[0].0 != entries[k].0;
      LookupAt(entries[1..], k - 1);
    }
  }

  lemma {:induction false} LookupFound(entries: seq<(nat, Topic)>, a: nat) returns (k: nat)
    requires Lookup(entries, a).Some?
    ensures k < |entries| && entries[k] == (a, Lookup(entries, a).value)
  {
    if entries[0].0 == a { k := 0; } else { k := LookupFound(entries[1..], a); k := k + 1; }
  }

  lemma {:induction false} LookupAbsent(entries: seq<(nat, Topic)>, a: nat)
    requires forall k :: 0 <= k < |entries| ==> entries[k].0 != a
    ensures Lookup(entries, a) == None
  {
    if entries != [] { LookupAbsent(entries[1..], a); }
  }

  /** Taking an alias out leaves the others where they are. */
  lemma {:induction false} WithoutIs(entries: seq<(nat, Topic)>, k: nat)
    requires DistinctKeys(entries) && k < |entries|
    ensures Without(entries, entries[k].0) == entries[..k] + entries[k + 1..]
  {
    if k == 0 {
      assert entries[..0] + entries[1..] == entries[1..];
    } else {
      assert entries[0].0 != entries[k].0;
      WithoutIs(entries[1..], k - 1);
      assert entries[..k] + entries[k + 1..] == [entries[0]] + (entries[1..][..k - 1] + entries[1..][k..]);
    }
  }

  lemma {:induction false} LookupWithout(entries: seq<(nat, Topic)>, a: nat, b: nat)
    requires DistinctKeys(entries)
    ensures Lookup(Without(entries, a), b) == if a == b then None else Lookup(entries, b)
  {
    if entries != [] {
      if entries[0].0 == a {
        LookupAbsent(entries[1..], a);
      } else {
        LookupWithout(entries[1..], a, b);
      }
    }
  }

  lemma {:induction false} DroppedIs(s: seq<nat>, a: nat)
    requires NoRepeat(s)
    ensures NoRepeat(Dropped(s, a)) && forall b :: b in Dropped(s, a) <==> b in s && b != a
  {
    if s != [] {
      DroppedIs(s[1..], a);
      assert s == [s[0]] + s[1..];
      if s[0] != a {
        var d := Dropped(s[1..], a);
        assert Dropped(s, a) == [s[0]] + d;
        forall j | 0 <= j < |d| ensures d[j] != s[0] { assert d[j] in s[1..]; }
      }
    }
  }

  ghost predicate IndexOk(byTopic: map<Topic, seq<nat>>) {
    forall t :: t in byTopic ==> byTopic[t] != [] && NoRepeat(byTopic[t])
  }

  lemma UnindexedIs(byTopic: map<Topic, seq<nat>>, t: Topic, a: nat)
    requires IndexOk(byTopic)
    ensures IndexOk(Unindexed(byTopic, t, a))
    ensures forall u, b :: Indexes(Unindexed(byTopic, t, a), u, b) <==> Indexes(byTopic, u, b) && !(u == t && b == a)
  {
    if t in byTopic { DroppedIs(byTopic[t], a); }
    forall u, b ensures Indexes(Unindexed(byTopic, t, a), u, b) <==> Indexes(byTopic, u, b) && !(u == t && b == a) {
      if u == t && t in byTopic {
        assert b in Dropped(byTopic[t], a) <==> b in byTopic[t] && b != a;
      }
    }
  }

  lemma IndexedIs(byTopic: map<Topic, seq<nat>>, t: Topic, a: nat)
    requires IndexOk(byTopic) && !Indexes(byTopic, t, a)
    ensures IndexOk(Indexed(byTopic, t, a))
    ensures forall u, b :: Indexes(Indexed(byTopic, t, a), u, b) <==> Indexes(byTopic, u, b) || (u == t && b == a)
  {
  }

  lemma InsertEntries(m: AliasSend, t: Topic, a: nat)
    requires Wf(m) && t != [] && 1 <= a <= m.max
    ensures var e := InsertOrUpdate(m, t, a).entries;
      DistinctKeys(e) && forall k :: 0 <= k < |e| ==> 1 <= e[k].0 <= m.max && e[k].1 != []
  {
    if a in m.taken {
      var k := LookupFound(m.entries, a);
      WithoutIs(m.entries, k);
    } else {
      forall k | 0 <= k < |m.entries| ensures m.entries[k].0 != a { LookupAt(m.entries, k); }
    }
  }

  /** Binding an alias changes that alias and nothing else. */
  lemma InsertKeeps(m: AliasSend, t: Topic, a: nat)
    requires Wf(m) && t != [] && 1 <= a <= m.max
    ensures Wf(InsertOrUpdate(m, t, a))
    ensures forall b :: Lookup(InsertOrUpdate(m, t, a).entries, b) == if b == a then Some(t) else Lookup(m.entries, b)
  {
    InsertEntries(m, t, a);
    assert var x := InsertOrUpdate(m, t, a).byTopic;
      IndexOk(x) && forall u, b :: Indexes(x, u, b) <==> if b == a then u == t else Lookup(m.entries, b) == Some(u) by {
      assert IndexOk(m.byTopic);
      if a in m.taken {
        var was := Lookup(m.entries, a).value;
        UnindexedIs(m.byTopic, was, a);
        IndexedIs(Unindexed(m.byTopic, was, a), t, a);
      } else {
        assert !Indexes(m.byTopic, t, a);
        IndexedIs(m.byTopic, t, a);
      }
    }
    forall b ensures Lookup(InsertOrUpdate(m, t, a).entries, b) == if b == a then Some(t) else Lookup(m.entries, b) {
      LookupWithout(m.entries, a, b);
      LookupAppend(Without(m.entries, a), a, t, b);
      LookupAppend(m.entries, a, t, b);
    }
    InsertTaken(m, t, a);
    hide InsertOrUpdate;
  }

  lemma InsertTaken(m: AliasSend, t: Topic, a: nat)
    requires Wf(m)
    ensures InsertOrUpdate(m, t, a).taken == m.taken + {a} && InsertOrUpdate(m, t, a).max == m.max
  {
  }

  /** Looking an alias up changes only the order of use. */
  lemma TouchKeeps(m: AliasSend, a: nat)
    requires Wf(m)
    ensures Wf(Touch(m, a)) && forall b :: Lookup(Touch(m, a).entries, b) == Lookup(m.entries, b)
  {
    if Peek(m, a).Some? {
      TouchedEntries(m, a);
      forall b ensures Lookup(Touch(m, a).entries, b) == Lookup(m.entries, b) {
        LookupWithout(m.entries, a, b);
        LookupAppend(Without(m.entries, a), a, Peek(m, a).value, b);
      }
      hide Without, Lookup, DistinctKeys, IndexOk;
    }
  }

  lemma TouchedEntries(m: AliasSend, a: nat)
    requires Wf(m) && Peek(m, a).Some?
    ensures var e := Touch(m, a).entries;
      DistinctKeys(e) && forall k :: 0 <= k < |e| ==> 1 <= e[k].0 <= m.max && e[k].1 != []
  {
    var k := LookupFound(m.entries, a);
    WithoutIs(m.entries, k);
  }

  /** The reverse index answers with an alias of that topic, and only if there is one. */
  lemma FindMeansPeek(m: AliasSend, t: Topic)
    requires Wf(m)
    ensures match FindByTopic(m, t) {
        case Some(a) => Peek(m, a) == Some(t)
        case None => forall a :: Peek(m, a) != Some(t)
      }
  {
    match FindByTopic(m, t)
    case Some(a) =>
      assert Indexes(m.byTopic, t, a);
      var k := LookupFound(m.entries, a);
    case None =>
      forall a ensures Peek(m, a) != Some(t) {
        assert Indexes(m.byTopic, t, a) <==> Lookup(m.entries, a) == Some(t);
      }
  }

  // ---------------------------------------------------------------- the order of last use

  /** What happens to an alias: it is bound, or it is looked up. */
  datatype Use = Bind(alias: nat, topic: Topic) | Look(alias: nat)

  function Apply(m: AliasSend, u: Use): AliasSend {
    match u
    case Bind(a, t) => InsertOrUpdate(m, t, a)
    case Look(a) => Touch(m, a)
  }

  function After(max: nat, h: seq<Use>): AliasSend {
    if h == [] then NewSend(max) else Apply(After(max, h[..|h| - 1]), h[|h| - 1])
  }

  predicate LegalUses(max: nat, h: seq<Use>) {
    forall k :: 0 <= k < |h| && h[k].Bind? ==> 1 <= h[k].alias <= max && h[k].topic != []
  }

  /** When an alias was last bound or looked up; -1 if never. */
  function LastUse(h: seq<Use>, a: nat): int {
    if h == [] then -1 else if h[|h| - 1].alias == a then |h| - 1 else LastUse(h[..|h| - 1], a)
  }

  /** The topic an alias was last bound to. */
  function LastBinding(h: seq<Use>, a: nat): Option<Topic> {
    if h == [] then None
    else if h[|h| - 1].Bind? && h[|h| - 1].alias == a then Some(h[|h| - 1].topic)
    else LastBinding(h[..|h| - 1], a)
  }

  ghost predicate OldestFirst(h: seq<Use>, entries: seq<(nat, Topic)>) {
    forall i, j :: 0 <= i < j < |entries| ==> LastUse(h, entries[i].0) < LastUse(h, entries[j].0)
  }

  lemma {:induction false} LastUseBounds(h: seq<Use>, a: nat)
    ensures -1 <= LastUse(h, a) < |h|
    ensures LastUse(h, a) >= 0 ==> h[LastUse(h, a)].alias == a
    ensures forall k :: LastUse(h, a) < k < |h| ==> h[k].alias != a
  {
    if h != [] && h[|h| - 1].alias != a { LastUseBounds(h[..|h| - 1], a); }
  }

  /** After any history: consistent, every alias stands for the topic it was last bound to, and the
      bindings are listed from least to most recently used. */
  lemma {:induction false} HistoryMeans(max: nat, h: seq<Use>)
    requires LegalUses(max, h)
    ensures var m := After(max, h);
      && Wf(m) && m.max == max && OldestFirst(h, m.entries)
      && forall a :: Lookup(m.entries, a) == LastBinding(h, a)
  {
    if h != [] {
      var n := |h| - 1;
      var before := After(max, h[..n]);
      HistoryMeans(max, h[..n]);
      var m := After(max, h);
      var a := h[n].alias;
      match h[n] {
        case Bind(_, t) => InsertKeeps(before, t, a);
        case Look(_) => TouchKeeps(before, a);
      }
      MovedToEnd(h, before, a);
    }
  }

  lemma MovedToEnd(h: seq<Use>, m: AliasSend, a: nat)
    requires h != [] && h[|h| - 1].alias == a
    requires Wf(m) && OldestFirst(h[..|h| - 1], m.entries)
    ensures OldestFirst(h, Apply(m, h[|h| - 1]).entries)
  {
    var rest := Without(m.entries, a);
    RestIs(m, a);
    assert OldestFirst(h[..|h| - 1], rest);
    hide Without, Indexed, Unindexed, OldestFirst, Wf;
    match h[|h| - 1] {
      case Bind(_, t) => Newest(h, rest, a, t);
      case Look(_) => Newest(h, rest, a, if Lookup(m.entries, a).Some? then Lookup(m.entries, a).value else []);
    }
  }

  /** The other bindings, in their order. */
  lemma RestIs(m: AliasSend, a: nat)
    requires Wf(m)
    ensures var rest := Without(m.entries, a);
      && (forall i :: 0 <= i < |rest| ==> rest[i].0 != a)
      && (if Lookup(m.entries, a).Some? && 1 <= a <= m.max
          then exists k :: 0 <= k < |m.entries| && rest == m.entries[..k] + m.entries[k + 1..]
          else rest == m.entries)
  {
    if Lookup(m.entries, a).Some? {
      var k := LookupFound(m.entries, a);
      WithoutIs(m.entries, k);
    } else {
      forall k | 0 <= k < |m.entries| ensures m.entries[k].0 != a { LookupAt(m.entries, k); }
      WithoutAbsent(m.entries, a);
    }
  }

  /** The alias used last goes to the end. */
  lemma Newest(h: seq<Use>, rest: seq<(nat, Topic)>, a: nat, t: Topic)
    requires h != [] && h[|h| - 1].alias == a && OldestFirst(h[..|h| - 1], rest)
    requires forall i :: 0 <= i < |rest| ==> rest[i].0 != a
    ensures OldestFirst(h, rest) && OldestFirst(h, rest + [(a, t)])
  {
    forall i | 0 <= i < |rest| ensures LastUse(h, rest[i].0) == LastUse(h[..|h| - 1], rest[i].0) < |h| - 1 {
      LastUseBounds(h[..|h| - 1], rest[i].0);
    }
  }

  lemma {:induction false} WithoutAbsent(entries: seq<(nat, Topic)>, a: nat)
    requires forall k :: 0 <= k < |entries| ==> entries[k].0 != a
    ensures Without(entries, a) == entries
  {
    if entries != [] { WithoutAbsent(entries[1..], a); }
  }

  lemma {:induction false} FirstVacantIs(m: AliasSend, from: nat)
    ensures match FirstVacant(m, from) {
        case Some(a) => from <= a <= m.max && a !in m.taken && forall b :: from <= b < a ==> b in m.taken
        case None => forall b :: from <= b <= m.max ==> b in m.taken
      }
    decreases m.max + 1 - from
  {
    if from <= m.max && from in m.taken { FirstVacantIs(m, from + 1); }
  }

  /** The alias to bind next: the least one never bound or, when all are bound, the one that was not
      used for longest. */
  lemma LruIsOldest(max: nat, h: seq<Use>)
    requires LegalUses(max, h) && max >= 1
    ensures var a := LruAlias(After(max, h));
      && 1 <= a <= max
      && (if exists b :: 1 <= b <= max && LastBinding(h, b).None?
          then LastBinding(h, a).None? && forall b :: 1 <= b < a ==> LastBinding(h, b).Some?
          else forall b :: 1 <= b <= max && b != a ==> LastUse(h, a) < LastUse(h, b))
  {
    var m := After(max, h);
    HistoryMeans(max, h);
    FirstVacantIs(m, 1);
    if FirstVacant(m, 1).None? {
      assert 1 in m.taken;
      var one := LookupFound(m.entries, 1);
      forall b | 1 <= b <= max && b != m.entries[0].0 ensures LastUse(h, m.entries[0].0) < LastUse(h, b) {
        assert b in m.taken;
        var k := LookupFound(m.entries, b);
      }
    }
  }
}
