/**
 * The parsed `package-lock.json`, as far as the download stage reads it.
 * The `dependencies` object is kept as the list of its members in the order
 * they appear in the file, which is what determines the order of
 * `Object.keys`; a name that appears twice keeps its first position and its
 * last value, as `JSON.parse` builds the object.
 */
module Lockfile {
  import opened Wrappers

  /** One member of `dependencies`: `{ version, resolved, integrity }`; `resolved` may be missing. */
  datatype Dependency = Dependency(version: string, resolved: Option<string>, integrity: string)

  type Entry = (string, Dependency)

  /** The lock file; `dependencies` is absent in lock files that only carry `packages`. */
  datatype PackageLock = PackageLock(name: string, version: string, dependencies: Option<seq<Entry>>)

  /** Some member of `entries` is called `name`. */
  predicate Declares(entries: seq<Entry>, name: string) {
    exists i :: 0 <= i < |entries| && entries[i].0 == name
  }

  /**
   * `Object.keys(dependencies)`: every declared name exactly once, in the
   * order of its first appearance.
   */
  function Keys(entries: seq<Entry>): (ks: seq<string>)
    ensures forall k :: k in ks <==> Declares(entries, k)
    ensures forall i, j :: 0 <= i < j < |ks| ==> ks[i] != ks[j]
    ensures |ks| <= |entries|
  {
    if |entries| == 0 then []
    else
      var ks := Keys(entries[..|entries| - 1]);
      var name := entries[|entries| - 1].0;
      assert forall k :: Declares(entries, k) <==> Declares(entries[..|entries| - 1], k) || k == name by {
        forall k ensures Declares(entries, k) <==> Declares(entries[..|entries| - 1], k) || k == name {
          if Declares(entries, k) && k != name {
            var i :| 0 <= i < |entries| && entries[i].0 == k;
            assert entries[..|entries| - 1][i].0 == k;
          }
          if Declares(entries[..|entries| - 1], k) {
            var i :| 0 <= i < |entries| - 1 && entries[..|entries| - 1][i].0 == k;
            assert entries[i].0 == k;
          }
          if k == name {
            assert entries[|entries| - 1].0 == k;
          }
        }
      }
      if name in ks then ks else ks + [name]
  }

  /**
   * `dependencies[name]` for an own member name: the value of the last member
   * called `name`.  `None` stands for `undefined`; names inherited from
   * `Object.prototype` (`constructor`, `toString`, ...) are not modelled.
   */
  function Lookup(entries: seq<Entry>, name: string): (r: Option<Dependency>)
    ensures r.None? <==> !Declares(entries, name)
    ensures r.Some? ==>
      exists i :: 0 <= i < |entries| && entries[i] == (name, r.value) &&
        forall j :: i < j < |entries| ==> entries[j].0 != name
  {
    if |entries| == 0 then None
    else if entries[|entries| - 1].0 == name then Some(entries[|entries| - 1].1)
    else
      var front := entries[..|entries| - 1];
      var r := Lookup(front, name);
      assert Declares(entries, name) ==> Declares(front, name) by {
        if Declares(entries, name) {
          var i :| 0 <= i < |entries| && entries[i].0 == name;
          assert front[i].0 == name;
        }
      }
      if r.Some? then
        var i :| 0 <= i < |front| && front[i] == (name, r.value) &&
          forall j :: i < j < |front| ==> front[j].0 != name;
        assert entries[i] == (name, r.value);
        r
      else r
  }

  /** Every key `Object.keys` yields names a member that the worker's property read finds. */
  lemma KeysAreFound(entries: seq<Entry>)
    ensures forall k :: k in Keys(entries) ==> Lookup(entries, k).Some?
  {
  }

  /** Without duplicate names, `Object.keys` lists the names in file order. */
  lemma {:induction false} KeysOfDistinct(entries: seq<Entry>)
    requires forall i, j :: 0 <= i < j < |entries| ==> entries[i].0 != entries[j].0
    ensures Keys(entries) == seq(|entries|, i requires 0 <= i < |entries| => entries[i].0)
  {
    if |entries| > 0 {
      var front := entries[..|entries| - 1];
      KeysOfDistinct(front);
      var name := entries[|entries| - 1].0;
      assert forall i :: 0 <= i < |front| ==> front[i].0 != name by {
        forall i | 0 <= i < |front| ensures front[i].0 != name {
          assert front[i] == entries[i];
        }
      }
    }
  }
}
