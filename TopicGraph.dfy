/** The module-level `topics` table of data.js:10 and the operations that
    update it in place: `defineTopic` (data.js:17-39), the direct level write
    of data.js:409, and `reorderLevel` (data.js:575-585). */
module TopicGraph {
  import opened Wrappers
  import opened Topics
  import opened Reorder
  import TopicId

  class Registry {
    /** `topics`: id -> topic record. */
    var topics: Table

    ghost predicate Valid()
      reads this
    {
      Keyed(topics)
    }

    /** `let topics = {}`. */
    constructor ()
      ensures Valid() && topics == map[]
    {
      topics := map[];
    }

    /** `defineTopic(name, description_, sources_, category_, requires_)`.
        Omitted arguments take their defaults; the level is one more than the
        highest prerequisite level (1 for a root); a missing prerequisite
        throws before the table is touched; otherwise the record is stored
        under its id, overwriting any earlier entry with that id. */
    method DefineTopic(name: string, description: Option<string>, sources: Option<seq<Source>>,
                       category: Option<Category>, prereqs: Option<seq<string>>)
      returns (r: Result<string, Error>)
      requires Valid()
      modifies this
      ensures Valid()
      ensures r.Ok? <==> forall p :: p in OrElse(prereqs, []) ==> p in old(topics)
      ensures r.Err? ==> topics == old(topics) && r.error == NotFound(FirstMissing(old(topics), OrElse(prereqs, [])).value)
      ensures r.Ok? ==> r.value == TopicId.Slug(name)
      ensures r.Ok? ==>
                topics == old(topics)[r.value := Topic(r.value, name, OrElse(description, ""), OrElse(sources, []),
                                                       OrElse(category, Language), OrElse(prereqs, []),
                                                       name, OrElse(category, Language),
                                                       LevelOf(old(topics), OrElse(prereqs, [])).value, Num(0))]
      ensures r.Ok? ==> forall p :: p in OrElse(prereqs, []) ==> old(topics)[p].level < topics[r.value].level
      ensures r.Ok? && old(Monotone(topics)) && TopicId.Slug(name) !in old(topics) ==> Monotone(topics)
    {
      var id := TopicId.Slug(name);
      var req := OrElse(prereqs, []);
      var level := LevelOf(topics, req);
      if level.Err? {
        return Err(level.error);
      }
      if Monotone(topics) && id !in topics {
        DefineKeepsMonotone(topics, name, description, sources, category, prereqs);
      }
      topics := topics[id := NewTopic(name, description, sources, category, prereqs, level.value)];
      r := Ok(id);
    }

    /** `topics[id].level = level`: throws when `id` is not registered. */
    method SetLevel(id: string, level: int) returns (failure: Option<Error>)
      requires Valid()
      modifies this
      ensures Valid()
      ensures failure.Some? <==> id !in old(topics)
      ensures failure.Some? ==> failure.value == NotFound(id) && topics == old(topics)
      ensures failure.None? ==> topics == old(topics)[id := old(topics)[id].(level := level)]
      ensures failure.None? && old(Monotone(topics)) &&
              (forall k :: k in old(topics) ==> id !in old(topics)[k].prerequisites) &&
              (forall p :: p in old(topics)[id].prerequisites ==> old(topics)[p].level < level)
              ==> Monotone(topics)
    {
      if id !in topics {
        return Some(NotFound(id));
      }
      if Monotone(topics) && (forall k :: k in topics ==> id !in topics[k].prerequisites) &&
         (forall p :: p in topics[id].prerequisites ==> topics[p].level < level) {
        RaiseKeepsMonotone(topics, id, level);
      }
      topics := topics[id := topics[id].(level := level)];
      failure := None;
    }

    /** `reorderLevel(head, ...tail)`: the loop over the followers, proved
        to perform exactly the pass `Reorder.Run` describes. */
    method ReorderLevel(head: string, tail: seq<string>) returns (log: seq<Mismatch>, failure: Option<Error>)
      requires Valid()
      modifies this
      ensures Valid()
      ensures Pass(topics, log, failure) == Run(old(topics), head, tail, |tail|)
      ensures old(Monotone(topics)) ==> Monotone(topics)
    {
      ghost var t := topics;
      log, failure := [], None;
      var i := 0;
      while i < |tail| && failure.None?
        invariant 0 <= i <= |tail|
        invariant Pass(topics, log, failure) == Run(t, head, tail, i)
        invariant Keyed(topics)
      {
        if head !in topics {
          failure := Some(NotFound(head));
        } else if tail[i] !in topics {
          failure := Some(NotFound(tail[i]));
        } else {
          var left, right := topics[head], topics[tail[i]];
          if left.level == right.level {
            topics := topics[tail[i] := right.(hsort := Hint(left.hsort, i))];
          } else {
            log := log + [Mismatch(left.id, left.level, right.id, right.level)];
          }
        }
        i := i + 1;
      }
      if failure.Some? {
        RunStops(t, head, tail, i, |tail|);
      }
      if Monotone(t) {
        RunKeepsMonotone(t, head, tail, |tail|);
      }
    }
  }
}
