/** The topic record of data.js and the pure parts of `defineTopic`:
    argument defaults (data.js:19-22) and the level expression (data.js:23). */
module Topics {
  import opened Wrappers
  import TopicId

  /** The `Category` table of data.js:3-8. `Category.collections`, used at
      data.js:495, is not in the table: it reads as `undefined`, passed here as `None`. */
  datatype Category = Language | Fp | Akka | Patterns

  /** `defineSource(title, href)`: inert link data. */
  datatype Source = Source(title: string, href: string)

  /** The `hsort` field: the number 0 when the topic is created, a string
      once `reorderLevel` has assigned it (JavaScript `+` on a string key). */
  datatype HSort = Num(n: int) | Text(s: string)

  /** One entry of the `topics` table; `label` and `group` are the copies
      the renderer reads. */
  datatype Topic = Topic(
    id: string,
    name: string,
    description: string,
    sources: seq<Source>,
    category: Category,
    prerequisites: seq<string>,
    displayLabel: string,
    group: Category,
    level: int,
    hsort: HSort)

  /** The TypeError JavaScript raises when a missing key's `level` is read. */
  datatype Error = NotFound(key: string)

  type Table = map<string, Topic>

  /** `x || d` for an argument that is either omitted or a truthy value. */
  function OrElse<T>(x: Option<T>, d: T): T {
    match x
    case Some(v) => v
    case None => d
  }

  /** Every entry is stored under its own id (data.js:25, 37). */
  ghost predicate Keyed(t: Table) {
    forall k :: k in t ==> t[k].id == k
  }

  /** Every level is at least 1. */
  ghost predicate LevelsPositive(t: Table) {
    forall k :: k in t ==> t[k].level >= 1
  }

  /** Every prerequisite is registered and sits on a strictly lower level:
      each edge of the dependency graph points downwards. */
  ghost predicate Monotone(t: Table) {
    forall k, p :: k in t && p in t[k].prerequisites ==> p in t && t[p].level < t[k].level
  }

  /** The first prerequisite, in order, that is not registered: the one whose
      lookup throws in `requires.map(...)`. */
  function FirstMissing(t: Table, req: seq<string>): (m: Option<string>)
    ensures m.None? <==> forall p :: p in req ==> p in t
    ensures m.Some? ==> exists k :: 0 <= k < |req| && req[k] == m.value && m.value !in t &&
                                    forall j :: 0 <= j < k ==> req[j] in t
  {
    if req == [] then None
    else if req[0] !in t then Some(req[0])
    else
      var m := FirstMissing(t, req[1..]);
      if m.Some? then
        ghost var k :| 0 <= k < |req[1..]| && req[1..][k] == m.value && m.value !in t &&
                       forall j :: 0 <= j < k ==> req[1..][j] in t;
        assert req[k + 1] == m.value;
        m
      else m
  }

  /** `Math.max` over the levels of the prerequisites. */
  function MaxLevel(t: Table, req: seq<string>): (r: int)
    requires req != [] && forall p :: p in req ==> p in t
    ensures forall p :: p in req ==> t[p].level <= r
    ensures exists p :: p in req && t[p].level == r
  {
    if |req| == 1 then t[req[0]].level
    else
      var m := MaxLevel(t, req[1..]);
      assert forall p :: p in req[1..] ==> p in req;
      if t[req[0]].level >= m then t[req[0]].level else m
  }

  /** The level expression of data.js:23. */
  function LevelOf(t: Table, req: seq<string>): (r: Result<int, Error>)
    ensures r.Ok? <==> forall p :: p in req ==> p in t
    ensures r.Err? ==> r.error.key in req && r.error.key !in t
    ensures r.Ok? && req == [] ==> r.value == 1
    ensures r.Ok? ==> forall p :: p in req ==> t[p].level < r.value
    ensures r.Ok? && req != [] ==> exists p :: p in req && r.value == t[p].level + 1
    ensures r.Ok? && LevelsPositive(t) ==> r.value >= 1
  {
    match FirstMissing(t, req)
    case Some(p) => Err(NotFound(p))
    case None => Ok((if |req| > 0 then MaxLevel(t, req) else 0) + 1)
  }

  /** With every prerequisite registered, the level is one above the
      highest of them, here the one at position `top`. */
  lemma LevelIs(t: Table, req: seq<string>, top: nat)
    requires top < |req| && req[top] in t
    requires forall i :: 0 <= i < |req| ==> req[i] in t && t[req[i]].level <= t[req[top]].level
    ensures LevelOf(t, req) == Ok(t[req[top]].level + 1)
  {
    assert forall p :: p in req ==> p in t;
    var r := LevelOf(t, req);
    var p :| p in req && r.value == t[p].level + 1;
  }

  /** The record `defineTopic` builds from its (defaulted) arguments. */
  function NewTopic(name: string, description: Option<string>, sources: Option<seq<Source>>,
                    category: Option<Category>, prereqs: Option<seq<string>>, level: int): Topic
  {
    var c := OrElse(category, Language);
    Topic(TopicId.Slug(name), name, OrElse(description, ""), OrElse(sources, []), c,
          OrElse(prereqs, []), name, c, level, Num(0))
  }

  /** Inserting a topic under a fresh id, whose prerequisites are all below it,
      keeps every edge pointing downwards. */
  lemma InsertKeepsMonotone(t: Table, topic: Topic)
    requires Monotone(t)
    requires topic.id !in t
    requires forall p :: p in topic.prerequisites ==> p in t && t[p].level < topic.level
    ensures Monotone(t[topic.id := topic])
  {
    var u := t[topic.id := topic];
    forall k, p | k in u && p in u[k].prerequisites
      ensures p in u && u[p].level < u[k].level
    {
      if k != topic.id {
        assert p in t && p != topic.id;
      }
    }
  }

  /** A successful definition with a fresh id keeps every edge pointing
      downwards: the registration order is a topological order. */
  lemma DefineKeepsMonotone(t: Table, name: string, description: Option<string>,
                            sources: Option<seq<Source>>, category: Option<Category>,
                            prereqs: Option<seq<string>>)
    requires Monotone(t)
    requires TopicId.Slug(name) !in t
    requires LevelOf(t, OrElse(prereqs, [])).Ok?
    ensures var topic := NewTopic(name, description, sources, category, prereqs,
                                  LevelOf(t, OrElse(prereqs, [])).value);
            Monotone(t[topic.id := topic])
  {
    var topic := NewTopic(name, description, sources, category, prereqs,
                          LevelOf(t, OrElse(prereqs, [])).value);
    InsertKeepsMonotone(t, topic);
  }

  /** Raising the level of a topic nobody depends on, above all its own
      prerequisites, keeps every edge pointing downwards (data.js:409). */
  lemma RaiseKeepsMonotone(t: Table, id: string, level: int)
    requires Monotone(t) && id in t
    requires forall k :: k in t ==> id !in t[k].prerequisites
    requires forall p :: p in t[id].prerequisites ==> t[p].level < level
    ensures Monotone(t[id := t[id].(level := level)])
  {
    var u := t[id := t[id].(level := level)];
    forall k, p | k in u && p in u[k].prerequisites
      ensures p in u && u[p].level < u[k].level
    {
      assert p != id;
    }
  }
}
