/**
 * `Links`: named, unidirectional links from one entity to a set of target
 * entities (src/links/mod.rs). Entity handles are an abstract type `E`.
 */
module Links {
  import opened Wrappers

  class Links<E(==)> {
    /** The `UstrMap<EntityHashSet>`: link name to the set of targets. */
    var links: map<string, set<E>>

    /** `Links::default()`: no links. */
    constructor ()
      ensures links == map[]
    {
      links := map[];
    }

    /** `Links::list(name)`: every target linked under `name`; empty for a name never used. */
    function List(name: string): (r: set<E>)
      reads this
      ensures name in links ==> r == links[name]
      ensures name !in links ==> r == {}
    {
      if name in links then links[name] else {}
    }

    /** `Links::is_linked(name, e)`: `e` is one of the targets under `name`. */
    function IsLinked(name: string, e: E): (r: bool)
      reads this
      ensures r <==> e in List(name)
      ensures name !in links ==> !r
    {
      if name in links then e in links[name] else false
    }

    /**
     * `Links::get(name)`: some target under `name` (which one is left
     * undefined), or `None` when there is none.
     */
    method Get(name: string) returns (r: Option<E>)
      ensures r.None? <==> List(name) == {}
      ensures r.Some? ==> r.value in List(name)
    {
      if name in links && links[name] != {} {
        var e :| e in links[name];
        r := Some(e);
      } else {
        r := None;
      }
    }

    /** `Links::set(name, t)`: `t` replaces whatever was linked under `name`. */
    method Set(name: string, t: E)
      modifies this
      ensures links == old(links)[name := {t}]
      ensures List(name) == {t}
      ensures forall n :: n != name ==> List(n) == old(List(n))
    {
      // `entry(name).or_default()`, cleared, then `t` inserted
      links := links[name := {t}];
    }

    /** `Links::add(name, t)`: `t` joins the targets under `name`. */
    method Add(name: string, t: E)
      modifies this
      ensures links == old(links)[name := old(List(name)) + {t}]
      ensures List(name) == old(List(name)) + {t}
      ensures forall n :: n != name ==> List(n) == old(List(n))
    {
      var link := List(name);  // entry(name).or_default()
      link := link + {t};
      links := links[name := link];
    }

    /** `Links::remove(name, t)`: `t` leaves the targets under `name`; the entry is created if absent. */
    method Remove(name: string, t: E)
      modifies this
      ensures links == old(links)[name := old(List(name)) - {t}]
      ensures List(name) == old(List(name)) - {t} && !IsLinked(name, t)
      ensures forall n :: n != name ==> List(n) == old(List(n))
    {
      var link := List(name);  // entry(name).or_default()
      link := link - {t};
      links := links[name := link];
    }

    /** `Links::clear(name)`: no targets remain under `name`; the entry is created if absent. */
    method Clear(name: string)
      modifies this
      ensures links == old(links)[name := {}]
      ensures List(name) == {}
      ensures forall n :: n != name ==> List(n) == old(List(n))
    {
      // `entry(name).or_default()`, then cleared
      links := links[name := {}];
    }
  }

  /**
   * One-to-one use: after `set(name, t)`, `get(name)` is `t` and `list(name)`
   * is `{t}`, whatever was linked before; `clear` then leaves nothing.
   */
  method SetGetExample<E(==)>(links: Links<E>, name: string, t: E, u: E) returns (first: Option<E>, afterClear: Option<E>)
    modifies links
    ensures first == Some(t)
    ensures afterClear == None
  {
    links.Add(name, u);
    links.Set(name, t);
    first := links.Get(name);
    links.Clear(name);
    afterClear := links.Get(name);
  }

  /** Many-to-many use: `add` accumulates targets, and `remove` takes one out. */
  method AddListExample<E(==)>(troll: E, goblin: E) returns (both: set<E>, afterRemove: set<E>)
    ensures both == {troll, goblin}
    ensures afterRemove == {goblin} - {troll}
  {
    var links := new Links<E>();
    links.Add("looking_at", troll);
    links.Add("looking_at", goblin);
    both := links.List("looking_at");
    links.Remove("looking_at", troll);
    afterRemove := links.List("looking_at");
  }
}
