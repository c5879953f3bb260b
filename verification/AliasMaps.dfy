/** The two alias maps as objects: each method is proved against the functions on alias maps. */
module AliasMaps {
  import opened Packets
  import opened TopicAlias
  import VA = ValueAllocator

  class TopicAliasSend {
    const maxAlias: nat
    var aliasToTopic: seq<(nat, Topic)>
    var topicToAliases: map<Topic, seq<nat>>
    const allocator: VA.Allocator

    ghost predicate Valid()
      reads this, allocator
    {
      && allocator.Valid() && allocator.lowest == 1 && allocator.highest == maxAlias && allocator.typeMax == 0xFFFF
      && Wf(View())
    }

    ghost function Taken(): set<nat>
      reads this, allocator
    {
      set a: nat | 1 <= a <= maxAlias && a !in allocator.Free()
    }

    /** The map this object stands for. */
    ghost function View(): AliasSend
      reads this, allocator
    {
      AliasSend(maxAlias, aliasToTopic, topicToAliases, Taken())
    }

    /** The allocator refuses an empty range, so a maximum of 0 is a failed assert. */
    constructor (max: nat)
      requires 1 <= max <= 0xFFFF
      ensures Valid() && View() == NewSend(max) && fresh(allocator)
    {
      maxAlias := max;
      aliasToTopic := [];
      topicToAliases := map[];
      allocator := new VA.Allocator(1, max, 0xFFFF);
    }

    method Insert(topic: Topic, alias: nat)
      requires Valid() && topic != [] && 1 <= alias <= maxAlias
      modifies this, allocator
      ensures Valid() && View() == InsertOrUpdate(old(View()), topic, alias)
    {
      ghost var was := View();
      InsertKeeps(was, topic, alias);
      InsertTaken(was, topic, alias);
      hide Wf;
      var isNew := allocator.UseValue(alias);
      assert isNew <==> alias !in was.taken;
      if !isNew {
        var bound := Lookup(aliasToTopic, alias);
        if bound.Some? {
          aliasToTopic := Without(aliasToTopic, alias);
          if bound.value in topicToAliases {
            var left := Dropped(topicToAliases[bound.value], alias);
            if left == [] {
              topicToAliases := topicToAliases - {bound.value};
            } else {
              topicToAliases := topicToAliases[bound.value := left];
            }
          }
        }
      }
      aliasToTopic := aliasToTopic + [(alias, topic)];
      var aliases := if topic in topicToAliases then topicToAliases[topic] else [];
      topicToAliases := topicToAliases[topic := aliases + [alias]];
      assert Taken() == was.taken + {alias};
    }

    /** Looks an alias up and makes it the most recently used. */
    method Get(alias: nat) returns (topic: Option<Topic>)
      requires Valid()
      modifies this
      ensures Valid() && topic == Peek(old(View()), alias) && View() == Touch(old(View()), alias)
    {
      ghost var was := View();
      TouchKeeps(was, alias);
      hide Wf;
      topic := None;
      if 1 <= alias <= maxAlias {
        topic := Lookup(aliasToTopic, alias);
        if topic.Some? {
          aliasToTopic := Without(aliasToTopic, alias);
          aliasToTopic := aliasToTopic + [(alias, topic.value)];
        }
      }
      assert Taken() == was.taken;
    }

    /** Gives an alias that stands for the topic, and none only if none does. */
    method Find(topic: Topic) returns (alias: Option<nat>)
      requires Valid()
      ensures alias == FindByTopic(View(), topic)
      ensures alias.Some? ==> Peek(View(), alias.value) == Some(topic)
      ensures alias.None? ==> forall a :: Peek(View(), a) != Some(topic)
    {
      FindMeansPeek(View(), topic);
      alias := if topic in topicToAliases && topicToAliases[topic] != [] then Some(topicToAliases[topic][0]) else None;
    }

    method GetLruAlias() returns (alias: nat)
      requires Valid()
      ensures alias == LruAlias(View())
    {
      FirstVacantIs(View(), 1);
      var vacant := allocator.FirstVacant();
      match vacant {
        case Some(v) =>
          alias := v;
          assert alias !in Taken() && forall b :: 1 <= b < alias ==> b in Taken();
        case None =>
          assert forall b :: 1 <= b <= maxAlias ==> b in Taken();
          alias := if aliasToTopic == [] then 1 else aliasToTopic[0].0;
      }
    }

    method Clear()
      requires Valid()
      modifies this, allocator
      ensures Valid() && View() == NewSend(maxAlias)
    {
      aliasToTopic := [];
      topicToAliases := map[];
      allocator.Clear();
      assert Taken() == {};
    }
  }

  class TopicAliasRecv {
    const maxAlias: nat
    var aliases: map<nat, Topic>

    ghost function View(): AliasRecv reads this { AliasRecv(maxAlias, aliases) }

    constructor (max: nat)
      ensures View() == AliasRecv(max, map[])
    {
      maxAlias := max;
      aliases := map[];
    }

    method Insert(topic: Topic, alias: nat)
      requires topic != [] && 1 <= alias <= maxAlias
      modifies this
      ensures View() == old(View()).(aliases := old(aliases)[alias := topic])
      ensures RecvGet(View(), alias) == Some(topic)
      ensures forall a :: a != alias ==> RecvGet(View(), a) == RecvGet(old(View()), a)
    {
      aliases := aliases[alias := topic];
    }

    method Get(alias: nat) returns (topic: Option<Topic>)
      ensures topic == RecvGet(View(), alias)
    {
      topic := if 1 <= alias <= maxAlias then (if alias in aliases then Some(aliases[alias]) else None) else None;
    }

    method Clear()
      modifies this
      ensures forall a :: RecvGet(View(), a) == None
    {
      aliases := map[];
    }
  }
}
